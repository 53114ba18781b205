/**
 * The accrual engine: once per tick it lists the orders still awaiting a
 * reward, asks the accrual authority about each, and writes the authority's
 * verdict back to the order table. The worker pool is modelled as one
 * sequential pass over the list; cancellation is the index of the first
 * order no longer dispatched.
 */
module Accrual {
  import opened Wrappers
  import opened Errors
  import opened Models
  import opened Store
  import opened AccrualClient

  const StatusProcessed: string := "PROCESSED"

  /** The arguments of one UpdateOrderStatus call; None is the nil accrual pointer. */
  datatype StatusUpdate = StatusUpdate(number: string, status: string, accrual: Option<int>)

  /**
   * processOrder's decision on the client's triple: no update on an error,
   * on a positive retry delay (the worker sleeps, then gives up on the order
   * for this cycle) or on an empty response; otherwise one update with the
   * authority's status verbatim, carrying the reward only for PROCESSED.
   */
  function Decide(order: Order, r: ClientResult): (u: Option<StatusUpdate>)
    ensures u.Some? <==> r.err.None? && r.retryAfter <= 0 && r.response.Some?
    ensures u.Some? ==> u.value.number == order.number && u.value.status == r.response.value.status
    ensures u.Some? ==> (u.value.accrual.Some? <==> r.response.value.status == StatusProcessed)
    ensures u.Some? && u.value.accrual.Some? ==> u.value.accrual.value == r.response.value.accrual
  {
    if r.err.Some? then None
    else if r.retryAfter > 0 then None
    else if r.response.None? then None
    else
      var newAccrual := if r.response.value.status == StatusProcessed then Some(r.response.value.accrual) else None;
      Some(StatusUpdate(order.number, r.response.value.status, newAccrual))
  }

  /**
   * The effect of a successful UpdateOrderStatus on the table: the row with
   * that number takes the new status, and the new reward when one is given.
   * No row is added.
   */
  function ApplyUpdate(m: map<string, Order>, u: StatusUpdate): (m': map<string, Order>)
    ensures m'.Keys == m.Keys
    ensures forall n :: n in m && n != u.number ==> m'[n] == m[n]
    ensures u.number in m ==> m'[u.number].status == u.status
    ensures u.number in m ==> m'[u.number].accrual == (if u.accrual.Some? then u.accrual.value else m[u.number].accrual)
    ensures u.number in m ==> m'[u.number].number == m[u.number].number && m'[u.number].owner == m[u.number].owner
  {
    if u.number !in m then m
    else
      var o := m[u.number];
      m[u.number := o.(status := u.status, accrual := if u.accrual.Some? then u.accrual.value else o.accrual)]
  }

  /** The table after processOrder handled one order, given the authority's reply and whether the update fails. */
  function Step(m: map<string, Order>, order: Order, reply: Exchange, updateFails: bool): map<string, Order> {
    match Decide(order, GetOrderInfo(reply))
    case None => m
    case Some(u) => if updateFails then m else ApplyUpdate(m, u)
  }

  /**
   * AccrualProcessor.processOrder: one client call, then at most one status
   * update. A failed update is only logged.
   */
  method ProcessOrder(table: OrderTable, order: Order, reply: Exchange, updateFails: bool)
    requires table.Valid()
    modifies table
    ensures table.Valid()
    ensures table.orders == Step(old(table.orders), order, reply, updateFails)
  {
    var r := GetOrderInfo(reply);
    if r.err.Some? {
      return;
    }
    if r.retryAfter > 0 {
      // the worker waits for the delay or for cancellation, then returns
      return;
    }
    if r.response.None? {
      return;
    }
    var newAccrual := None;
    if r.response.value.status == StatusProcessed {
      newAccrual := Some(r.response.value.accrual);
    }
    if updateFails {
      return;
    }
    table.orders := ApplyUpdate(table.orders, StatusUpdate(order.number, r.response.value.status, newAccrual));
  }

  /**
   * The orders processed in one cycle: none when listing the pending orders
   * failed (including "no rows"), otherwise those before the cancellation
   * point.
   */
  function Dispatched(pending: Result<seq<Order>, Error>, cancelAt: nat): seq<Order> {
    if pending.Failure? then []
    else if cancelAt < |pending.value| then pending.value[..cancelAt]
    else pending.value
  }

  /** The table after processing the given orders one after another. */
  function Cycle(m: map<string, Order>, orders: seq<Order>,
                 authority: string -> Exchange, updateFails: string -> bool): (m': map<string, Order>)
    ensures m'.Keys == m.Keys
    ensures KeyedByNumber(m) ==> KeyedByNumber(m')
    decreases |orders|
  {
    if orders == [] then m
    else
      var last := orders[|orders| - 1];
      Step(Cycle(m, orders[..|orders| - 1], authority, updateFails), last,
           authority(last.number), updateFails(last.number))
  }

  /**
   * AccrualProcessor.processPendingOrders: list the pending orders; on
   * failure stop; otherwise hand each order in turn to processOrder until
   * cancellation is observed. authority gives the reply the authority makes
   * for each number in this cycle, updateFails whether its update fails.
   */
  method ProcessPendingOrders(table: OrderTable, pending: Result<seq<Order>, Error>, cancelAt: nat,
                              authority: string -> Exchange, updateFails: string -> bool)
    requires table.Valid()
    modifies table
    ensures table.Valid()
    ensures table.orders == Cycle(old(table.orders), Dispatched(pending, cancelAt), authority, updateFails)
  {
    if pending.Failure? {
      return;
    }
    var orders := pending.value;
    var i := 0;
    while i < |orders|
      invariant 0 <= i <= |orders|
      invariant i <= cancelAt
      invariant table.Valid()
      invariant table.orders == Cycle(old(table.orders), orders[..i], authority, updateFails)
    {
      if i == cancelAt {
        break;
      }
      assert orders[..i + 1][..i] == orders[..i];
      ProcessOrder(table, orders[i], authority(orders[i].number), updateFails(orders[i].number));
      i := i + 1;
    }
    assert i == |orders| ==> orders[..i] == orders;
  }

  /** No two listed orders share a number (the number is the table's key). */
  predicate DistinctNumbers(s: seq<Order>) {
    forall i, j :: 0 <= i < j < |s| ==> s[i].number != s[j].number
  }

  /** A number that is not in the list is never written. */
  lemma {:induction false} CycleTouchesOnlyListed(m: map<string, Order>, s: seq<Order>,
                                                  authority: string -> Exchange, updateFails: string -> bool,
                                                  n: string)
    requires n in m
    requires forall i :: 0 <= i < |s| ==> s[i].number != n
    ensures Cycle(m, s, authority, updateFails)[n] == m[n]
    decreases |s|
  {
    if s != [] {
      CycleTouchesOnlyListed(m, s[..|s| - 1], authority, updateFails, n);
    }
  }

  /**
   * Each listed order ends the cycle exactly as if it had been processed
   * alone: what the authority said about other orders, and whether their
   * updates failed, does not matter.
   */
  lemma {:induction false} CycleProcessesEachOnce(m: map<string, Order>, s: seq<Order>,
                                                  authority: string -> Exchange, updateFails: string -> bool,
                                                  j: nat)
    requires DistinctNumbers(s) && j < |s| && s[j].number in m
    ensures Cycle(m, s, authority, updateFails)[s[j].number]
         == Step(m, s[j], authority(s[j].number), updateFails(s[j].number))[s[j].number]
    decreases |s|
  {
    var init := s[..|s| - 1];
    var n := s[j].number;
    if j == |s| - 1 {
      CycleTouchesOnlyListed(m, init, authority, updateFails, n);
      StepDependsOnRow(Cycle(m, init, authority, updateFails), m, s[j],
                       authority(n), updateFails(n));
    } else {
      assert init[j] == s[j];
      CycleProcessesEachOnce(m, init, authority, updateFails, j);
    }
  }

  /** What one step writes under the processed order's number depends only on that row. */
  lemma StepDependsOnRow(m1: map<string, Order>, m2: map<string, Order>, order: Order,
                         reply: Exchange, updateFails: bool)
    requires order.number in m1 && order.number in m2 && m1[order.number] == m2[order.number]
    ensures order.number in Step(m1, order, reply, updateFails)
    ensures Step(m1, order, reply, updateFails)[order.number] == Step(m2, order, reply, updateFails)[order.number]
  {
  }

  /** A failed listing ends the cycle with the table untouched. */
  lemma FailedListingChangesNothing(m: map<string, Order>, e: Error, cancelAt: nat,
                                    authority: string -> Exchange, updateFails: string -> bool)
    ensures Cycle(m, Dispatched(Failure(e), cancelAt), authority, updateFails) == m
  {
  }

  /** Each order before the cancellation point is processed, as if alone. */
  lemma DispatchedOrdersProcessed(m: map<string, Order>, orders: seq<Order>, cancelAt: nat,
                                  authority: string -> Exchange, updateFails: string -> bool, j: nat)
    requires DistinctNumbers(orders) && j < cancelAt && j < |orders| && orders[j].number in m
    ensures Cycle(m, Dispatched(Success(orders), cancelAt), authority, updateFails)[orders[j].number]
         == Step(m, orders[j], authority(orders[j].number), updateFails(orders[j].number))[orders[j].number]
  {
    var s := Dispatched(Success(orders), cancelAt);
    assert s[j] == orders[j];
    CycleProcessesEachOnce(m, s, authority, updateFails, j);
  }

  /** Orders at or after the cancellation point keep their rows. */
  lemma CancelledOrdersUntouched(m: map<string, Order>, orders: seq<Order>, cancelAt: nat,
                                 authority: string -> Exchange, updateFails: string -> bool, j: nat)
    requires DistinctNumbers(orders) && cancelAt <= j < |orders| && orders[j].number in m
    ensures Cycle(m, Dispatched(Success(orders), cancelAt), authority, updateFails)[orders[j].number]
         == m[orders[j].number]
  {
    CycleTouchesOnlyListed(m, orders[..cancelAt], authority, updateFails, orders[j].number);
  }

  /**
   * End to end: an exchange leads to a table write exactly when the
   * authority answered 200 with a non-null body that decoded. Throttling
   * (any 429, whatever its delay), 204, other statuses and failures never
   * write.
   */
  lemma LedgerWriteIff(order: Order, x: Exchange)
    ensures Decide(order, GetOrderInfo(x)).Some? <==>
      x.Reply? && x.statusCode == StatusOK && x.body.Success? && x.body.value.Some?
  {
    Classification(x);
  }

  /** Scenario: the authority reports PROCESSED with reward 42 for order 111. */
  lemma ProcessedVerdictIsRecorded(owner: int)
    ensures var m := map["111" := Order("111", "NEW", 0, owner)];
      var reply := Reply(StatusOK, "", Success(Some(AccrualResponse("111", StatusProcessed, 42))));
      Step(m, m["111"], reply, false) == map["111" := Order("111", StatusProcessed, 42, owner)]
  {
  }

  /** Scenario: the authority asks to retry after 5 seconds; the order stays as it was. */
  lemma ThrottledOrderStaysPending(owner: int)
    ensures var m := map["111" := Order("111", "NEW", 0, owner)];
      Step(m, m["111"], Reply(StatusTooManyRequests, "5", Success(None)), false) == m
  {
  }

  /** Scenario: the authority has no verdict yet (204); the order stays as it was. */
  lemma NoContentLeavesOrder(owner: int, body: Result<Option<AccrualResponse>, Error>)
    ensures var m := map["111" := Order("111", "NEW", 0, owner)];
      Step(m, m["111"], Reply(StatusNoContent, "", body), false) == m
  {
  }
}
