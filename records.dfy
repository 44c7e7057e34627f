/** The two record kinds the finance store keeps, and the shapes of the
    replies the hosted database gives back. */
module Records {

  /** Row identifiers are generated by the hosted database. */
  type Id = string

  /** The `type` column of a transaction. */
  datatype Kind = Income | Expense

  datatype Transaction = Transaction(
    id: Id,
    kind: Kind,
    amount: real,
    category: string,
    description: string,
    date: string,
    userId: Id)

  datatype Investment = Investment(
    id: Id,
    symbol: string,
    shares: real,
    purchasePrice: real,
    currentPrice: real,
    purchaseDate: string,
    userId: Id)

  function TransactionId(t: Transaction): Id { t.id }

  function InvestmentId(i: Investment): Id { i.id }

  function Amount(t: Transaction): real { t.amount }

  datatype Option<+T> = None | Some(value: T) {
    /** `data || []`: a null payload stands for the given default. */
    function GetOr(default: T): T {
      match this
      case Some(v) => v
      case None => default
    }
  }

  /** Outcome of a remote call that returns a payload (select, insert ... select().single()). */
  datatype Reply<+T> = Ok(data: T) | Err

  /** Outcome of a remote call that returns no payload (update, delete). */
  datatype Status = Done | Failed
}
