/** The finance data hook: the client-side copy of the signed-in user's
    transactions and investments. Every operation first hears back from the
    hosted database (a parameter here) and patches its list only when that
    call succeeded; on an error the list is left as it was. */
module FinanceStore {
  import opened Records
  import opened Lists
  import opened Summary

  class FinanceData {
    var transactions: seq<Transaction>
    var investments: seq<Investment>
    var loading: bool

    /** Both lists start empty and the store starts out loading. */
    constructor ()
      ensures transactions == [] && investments == [] && loading
    {
      transactions := [];
      investments := [];
      loading := true;
    }

    /** `loadData`: the transactions are fetched first and an error there
        ends the load before investments are asked for, so
        `investmentsReply` is consulted only when `transactionsReply` is Ok.
        Both lists are set together, a null payload becoming the empty
        list, and `loading` ends false whatever happened. */
    method LoadData(transactionsReply: Reply<Option<seq<Transaction>>>,
                    investmentsReply: Reply<Option<seq<Investment>>>)
      returns (ok: bool)
      modifies this
      ensures !loading
      ensures ok <==> transactionsReply.Ok? && investmentsReply.Ok?
      ensures ok ==> transactions == transactionsReply.data.GetOr([])
      ensures ok ==> investments == investmentsReply.data.GetOr([])
      ensures !ok ==> transactions == old(transactions) && investments == old(investments)
    {
      ok := false;
      if transactionsReply.Ok? {
        if investmentsReply.Ok? {
          transactions := transactionsReply.data.GetOr([]);
          investments := investmentsReply.data.GetOr([]);
          ok := true;
        }
      }
      loading := false;
    }

    /** `addTransaction`: the row the database returns goes to the front. */
    method AddTransaction(reply: Reply<Transaction>) returns (ok: bool)
      modifies this`transactions
      ensures ok <==> reply.Ok?
      ensures transactions == if ok then [reply.data] + old(transactions) else old(transactions)
    {
      ok := reply.Ok?;
      if ok {
        transactions := [reply.data] + transactions;
      }
    }

    /** `updateTransaction`: every entry carrying the record's id becomes the
        record the caller passed. */
    method UpdateTransaction(updated: Transaction, status: Status) returns (ok: bool)
      modifies this`transactions
      ensures ok <==> status.Done?
      ensures transactions ==
        if ok then ReplaceById(old(transactions), TransactionId, updated) else old(transactions)
    {
      ok := status.Done?;
      if ok {
        transactions := ReplaceById(transactions, TransactionId, updated);
      }
    }

    /** `deleteTransaction`: every entry carrying `id` is filtered out. */
    method DeleteTransaction(id: Id, status: Status) returns (ok: bool)
      modifies this`transactions
      ensures ok <==> status.Done?
      ensures transactions ==
        if ok then RemoveById(old(transactions), TransactionId, id) else old(transactions)
    {
      ok := status.Done?;
      if ok {
        transactions := RemoveById(transactions, TransactionId, id);
      }
    }

    /** `addInvestment`: the row the database returns goes to the front. */
    method AddInvestment(reply: Reply<Investment>) returns (ok: bool)
      modifies this`investments
      ensures ok <==> reply.Ok?
      ensures investments == if ok then [reply.data] + old(investments) else old(investments)
    {
      ok := reply.Ok?;
      if ok {
        investments := [reply.data] + investments;
      }
    }

    /** `updateInvestment`: every entry carrying the record's id becomes the
        record the caller passed. */
    method UpdateInvestment(updated: Investment, status: Status) returns (ok: bool)
      modifies this`investments
      ensures ok <==> status.Done?
      ensures investments ==
        if ok then ReplaceById(old(investments), InvestmentId, updated) else old(investments)
    {
      ok := status.Done?;
      if ok {
        investments := ReplaceById(investments, InvestmentId, updated);
      }
    }

    /** `deleteInvestment`: every entry carrying `id` is filtered out. */
    method DeleteInvestment(id: Id, status: Status) returns (ok: bool)
      modifies this`investments
      ensures ok <==> status.Done?
      ensures investments ==
        if ok then RemoveById(old(investments), InvestmentId, id) else old(investments)
    {
      ok := status.Done?;
      if ok {
        investments := RemoveById(investments, InvestmentId, id);
      }
    }

    /** The `summary` object, recomputed from the current transactions. */
    function CurrentSummary(): FinanceSummary
      reads this
    {
      Summarize(transactions)
    }
  }
}
