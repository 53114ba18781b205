/**
 * The two tables the services write: orders keyed by number and the list of
 * withdrawals. The database itself is not modelled; these classes hold the
 * rows it would hold.
 */
module Store {
  import opened Models

  /** Every row is filed under its own order number. */
  predicate KeyedByNumber(m: map<string, Order>) {
    forall n :: n in m ==> m[n].number == n
  }

  class OrderTable {
    var orders: map<string, Order>

    ghost predicate Valid()
      reads this
    {
      KeyedByNumber(orders)
    }

    constructor (initial: map<string, Order>)
      requires KeyedByNumber(initial)
      ensures Valid() && orders == initial
    {
      orders := initial;
    }
  }

  class WithdrawalLog {
    var withdrawals: seq<Withdrawal>

    constructor (initial: seq<Withdrawal>)
      ensures withdrawals == initial
    {
      withdrawals := initial;
    }
  }
}
