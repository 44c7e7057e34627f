/** The `summary` object of the finance hook: total income, total expenses
    and the net balance derived from them, recomputed from the transaction
    list on every read. */
module Summary {
  import opened Records
  import opened Lists

  /** How many entries of `txs` are of kind `k`, counted independently of
      the filter. */
  function CountKind(txs: seq<Transaction>, k: Kind): nat
  {
    if txs == [] then 0
    else (if txs[0].kind == k then 1 else 0) + CountKind(txs[1..], k)
  }

  /** `transactions.filter(t => t.type === k)` */
  function OfKind(txs: seq<Transaction>, k: Kind): (r: seq<Transaction>)
    ensures |r| <= |txs|
    ensures |r| == CountKind(txs, k)
    ensures forall i :: 0 <= i < |r| ==> r[i] in txs && r[i].kind == k
    ensures forall i :: 0 <= i < |txs| && txs[i].kind == k ==> txs[i] in r
  {
    if txs == [] then []
    else (if txs[0].kind == k then [txs[0]] else []) + OfKind(txs[1..], k)
  }

  /** The filter drops entries and keeps the rest in their order. */
  lemma {:induction false} OfKindIsSubsequence(txs: seq<Transaction>, k: Kind)
    ensures Subsequence(OfKind(txs, k), txs)
    decreases |txs|
  {
    if txs != [] {
      OfKindIsSubsequence(txs[1..], k);
      var rest := OfKind(txs[1..], k);
      if txs[0].kind == k {
        assert OfKind(txs, k) == [txs[0]] + rest;
        assert ([txs[0]] + rest)[1..] == rest;
      } else {
        assert OfKind(txs, k) == rest;
        assert rest != [] ==> rest[0] in rest && rest[0].kind != txs[0].kind;
      }
    }
  }

  lemma {:induction false} OfKindConcat(a: seq<Transaction>, b: seq<Transaction>, k: Kind)
    ensures OfKind(a + b, k) == OfKind(a, k) + OfKind(b, k)
    decreases |a|
  {
    if a == [] {
      assert a + b == b;
    } else {
      assert (a + b)[0] == a[0];
      assert (a + b)[1..] == a[1..] + b;
      OfKindConcat(a[1..], b, k);
    }
  }

  function TotalIncome(txs: seq<Transaction>): real
  {
    Sum(OfKind(txs, Income), Amount)
  }

  function TotalExpenses(txs: seq<Transaction>): real
  {
    Sum(OfKind(txs, Expense), Amount)
  }

  datatype FinanceSummary = FinanceSummary(totalIncome: real, totalExpenses: real) {
    /** The getter `netBalance`. */
    function NetBalance(): real { totalIncome - totalExpenses }
  }

  function Summarize(txs: seq<Transaction>): FinanceSummary
  {
    FinanceSummary(TotalIncome(txs), TotalExpenses(txs))
  }

  /** What one transaction contributes to the net balance. */
  function SignedAmount(t: Transaction): real
  {
    if t.kind == Income then t.amount else -t.amount
  }

  /** Both totals split over concatenation. */
  lemma TotalsConcat(a: seq<Transaction>, b: seq<Transaction>)
    ensures TotalIncome(a + b) == TotalIncome(a) + TotalIncome(b)
    ensures TotalExpenses(a + b) == TotalExpenses(a) + TotalExpenses(b)
  {
    OfKindConcat(a, b, Income);
    OfKindConcat(a, b, Expense);
    SumConcat(OfKind(a, Income), OfKind(b, Income), Amount);
    SumConcat(OfKind(a, Expense), OfKind(b, Expense), Amount);
  }

  /** One transaction counts towards exactly one of the two totals. */
  lemma TotalsOfOne(t: Transaction)
    ensures TotalIncome([t]) == (if t.kind == Income then t.amount else 0.0)
    ensures TotalExpenses([t]) == (if t.kind == Expense then t.amount else 0.0)
  {
    assert [t][1..] == [];
    assert [t][..0] == [];
    assert OfKind([t], t.kind) == [t];
    assert Sum([t], Amount) == t.amount;
  }

  /** The totals of an empty list are 0. */
  lemma EmptySummary()
    ensures Summarize([]) == FinanceSummary(0.0, 0.0)
    ensures Summarize([]).NetBalance() == 0.0
  {
  }

  /** Net balance, computed as income minus expenses, equals one signed
      pass over all transactions. */
  lemma {:induction false} NetBalanceIsSignedSum(txs: seq<Transaction>)
    ensures Summarize(txs).NetBalance() == Sum(txs, SignedAmount)
    decreases |txs|
  {
    if txs != [] {
      var p, t := txs[..|txs| - 1], txs[|txs| - 1];
      assert txs == p + [t];
      NetBalanceIsSignedSum(p);
      TotalsConcat(p, [t]);
      TotalsOfOne(t);
    }
  }

  /** Income and expenses partition the transactions: together they are the
      sum of all amounts. */
  lemma {:induction false} TotalsPartitionAmounts(txs: seq<Transaction>)
    ensures TotalIncome(txs) + TotalExpenses(txs) == Sum(txs, Amount)
    decreases |txs|
  {
    if txs != [] {
      var p, t := txs[..|txs| - 1], txs[|txs| - 1];
      assert txs == p + [t];
      TotalsPartitionAmounts(p);
      TotalsConcat(p, [t]);
      TotalsOfOne(t);
    }
  }

  /** Putting a transaction at the front of the list (a successful add)
      raises the total of its own kind by its amount and leaves the other
      total alone. */
  lemma AddShiftsSummary(t: Transaction, txs: seq<Transaction>)
    ensures t.kind == Income ==>
      Summarize([t] + txs) == FinanceSummary(TotalIncome(txs) + t.amount, TotalExpenses(txs))
    ensures t.kind == Expense ==>
      Summarize([t] + txs) == FinanceSummary(TotalIncome(txs), TotalExpenses(txs) + t.amount)
    ensures Summarize([t] + txs).NetBalance() == Summarize(txs).NetBalance() + SignedAmount(t)
  {
    TotalsConcat([t], txs);
    TotalsOfOne(t);
  }

  /** Income 5000, expenses 1200 and 300, whatever their ids, categories
      and dates. */
  lemma SummaryExample(a: Transaction, b: Transaction, c: Transaction)
    requires a.kind == Income && a.amount == 5000.0
    requires b.kind == Expense && b.amount == 1200.0
    requires c.kind == Expense && c.amount == 300.0
    ensures Summarize([a, b, c]) == FinanceSummary(5000.0, 1500.0)
    ensures Summarize([a, b, c]).NetBalance() == 3500.0
  {
    assert Summarize([c]) == FinanceSummary(0.0, 300.0) by {
      TotalsOfOne(c);
    }
    assert Summarize([b, c]) == FinanceSummary(0.0, 1500.0) by {
      assert [b] + [c] == [b, c];
      AddShiftsSummary(b, [c]);
    }
    assert [a] + [b, c] == [a, b, c];
    AddShiftsSummary(a, [b, c]);
  }
}
