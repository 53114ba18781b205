/**
 * Order registration: a user submits an order number, which must pass the
 * Luhn check and must not already be registered, and is then inserted with
 * status NEW and the submitting user as owner.
 */
module OrderService {
  import opened Wrappers
  import opened Errors
  import opened Strconv
  import opened Luhn
  import opened Models
  import opened Store

  const StatusNew: string := "NEW"

  /**
   * The checks that precede the insert, in the source's order: the Luhn
   * test, the lookup by number (which fails with lookupFault when the
   * database reports anything but "no rows"), the parse of the user id and
   * the duplicate test. Success carries the row to insert.
   */
  function CheckNewOrder(orders: map<string, Order>, number: string, userID: string,
                         lookupFault: Option<string>): (r: Result<Order, Error>)
    ensures r.Success? <==>
      LuhnValid(number) && lookupFault.None? && Atoi(userID).Some? && number !in orders
    ensures r.Success? ==> r.value == Order(number, StatusNew, 0, Atoi(userID).value)
    ensures !LuhnValid(number) ==> r == Failure(NumberIsNotCorrect)
    ensures LuhnValid(number) && lookupFault.Some? ==> r == Failure(Storage(lookupFault.value))
    ensures LuhnValid(number) && lookupFault.None? && Atoi(userID).None? ==> r == Failure(NumError(userID))
    ensures LuhnValid(number) && lookupFault.None? && Atoi(userID).Some? && number in orders ==>
      r == Failure(if orders[number].owner == Atoi(userID).value then OrderAlreadyExists
                   else OrderAlreadyExistsForAnotherUser)
  {
    if !LuhnValid(number) then Failure(NumberIsNotCorrect)
    else if lookupFault.Some? then Failure(Storage(lookupFault.value))
    else match Atoi(userID)
      case None => Failure(NumError(userID))
      case Some(currentUser) =>
        if number in orders then
          if orders[number].owner == currentUser then Failure(OrderAlreadyExists)
          else Failure(OrderAlreadyExistsForAnotherUser)
        else Success(Order(number, StatusNew, 0, currentUser))
  }

  /**
   * GophermartOrderService.CreateNewOrderService: at most one insert, made
   * only when every check passes; an insert failure (insertFault) is
   * returned to the caller and leaves the table as it was.
   */
  method CreateNewOrderService(table: OrderTable, orderNumber: string, userID: string,
                               lookupFault: Option<string>, insertFault: Option<string>)
    returns (err: Option<Error>)
    requires table.Valid()
    modifies table
    ensures table.Valid()
    ensures CheckNewOrder(old(table.orders), orderNumber, userID, lookupFault).Failure? ==>
      err == Some(CheckNewOrder(old(table.orders), orderNumber, userID, lookupFault).error)
    ensures CheckNewOrder(old(table.orders), orderNumber, userID, lookupFault).Success? ==>
      err == (if insertFault.Some? then Some(Storage(insertFault.value)) else None)
    ensures table.orders ==
      if err.None?
      then old(table.orders)[orderNumber := CheckNewOrder(old(table.orders), orderNumber, userID, lookupFault).value]
      else old(table.orders)
  {
    var valid := LuhnAlgorith(orderNumber);
    if !valid {
      return Some(NumberIsNotCorrect);
    }
    if lookupFault.Some? {
      return Some(Storage(lookupFault.value));
    }
    var existing := if orderNumber in table.orders then Some(table.orders[orderNumber]) else None;
    var currentUser := Atoi(userID);
    if currentUser.None? {
      return Some(NumError(userID));
    }
    if existing.Some? {
      if existing.value.owner == currentUser.value {
        return Some(OrderAlreadyExists);
      } else {
        return Some(OrderAlreadyExistsForAnotherUser);
      }
    }
    var newOrder := Order(orderNumber, StatusNew, 0, currentUser.value);
    if insertFault.Some? {
      return Some(Storage(insertFault.value));
    }
    table.orders := table.orders[orderNumber := newOrder];
    return None;
  }

  /** A number failing the Luhn check is refused whatever the table holds and whatever the database would answer. */
  lemma LuhnFailureSkipsStorage(orders1: map<string, Order>, orders2: map<string, Order>,
                                number: string, userID: string,
                                fault1: Option<string>, fault2: Option<string>)
    requires !LuhnValid(number)
    ensures CheckNewOrder(orders1, number, userID, fault1) == CheckNewOrder(orders2, number, userID, fault2)
  {
  }

  /** Registration never alters an existing row: the old table is a sub-map of the new one. */
  lemma RegistrationOnlyAdds(orders: map<string, Order>, number: string, userID: string,
                             lookupFault: Option<string>)
    requires CheckNewOrder(orders, number, userID, lookupFault).Success?
    ensures var o := CheckNewOrder(orders, number, userID, lookupFault).value;
      number !in orders &&
      forall n :: n in orders ==> n in orders[number := o] && orders[number := o][n] == orders[n]
  {
  }

  /**
   * Submitting the same number again after a successful registration is
   * refused: with OrderAlreadyExists for the same user and with
   * OrderAlreadyExistsForAnotherUser for any other user id.
   */
  lemma {:induction false} ResubmissionRefused(orders: map<string, Order>, number: string, userID: string,
                                               otherID: string)
    requires CheckNewOrder(orders, number, userID, None).Success?
    requires Atoi(otherID).Some?
    ensures var after := orders[number := CheckNewOrder(orders, number, userID, None).value];
      CheckNewOrder(after, number, otherID, None) ==
        Failure(if Atoi(otherID) == Atoi(userID) then OrderAlreadyExists else OrderAlreadyExistsForAnotherUser)
  {
  }

  /** The repository's success case: number 79927398713, user "1", no existing row. */
  lemma RegistersSample(orders: map<string, Order>)
    requires "79927398713" !in orders
    ensures CheckNewOrder(orders, "79927398713", "1", None) == Success(Order("79927398713", StatusNew, 0, 1))
  {
    AcceptsSample();
    AtoiOfFormatInt(1);
    assert FormatInt(1) == "1";
  }

  /** The empty number passes this Luhn test, so it is registered like any other. */
  lemma EmptyNumberRegisters(orders: map<string, Order>)
    requires "" !in orders
    ensures CheckNewOrder(orders, "", "7", None) == Success(Order("", StatusNew, 0, 7))
  {
    EmptyPasses();
    AtoiOfFormatInt(7);
    assert FormatInt(7) == "7";
  }
}
