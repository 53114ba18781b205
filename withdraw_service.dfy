/**
 * Withdrawal: a user spends part of the balance against an order number,
 * which must pass the Luhn check; the balance must cover the sum, and the
 * withdrawal is then appended to the withdrawals table.
 */
module WithdrawService {
  import opened Wrappers
  import opened Errors
  import opened Luhn
  import opened Models
  import opened Store

  /**
   * The checks that precede the insert, in the source's order: the Luhn test
   * on the request's order number, the balance read (its result, or the
   * error the database reported), and the sufficiency test. Success carries
   * the record to append.
   */
  function CheckWithdrawal(userID: string, req: WithdrawBalanceRequest,
                           balance: Result<Balance, Error>): (r: Result<Withdrawal, Error>)
    ensures r.Success? <==>
      LuhnValid(req.order) && balance.Success? && req.sum <= balance.value.current
    ensures r.Success? ==> r.value == Withdrawal(userID, req.order, req.sum)
    ensures !LuhnValid(req.order) ==> r == Failure(NumberIsNotCorrect)
    ensures LuhnValid(req.order) && balance.Failure? ==> r == Failure(balance.error)
    ensures LuhnValid(req.order) && balance.Success? && balance.value.current < req.sum ==>
      r == Failure(InvalidWithdrawSum)
  {
    if !LuhnValid(req.order) then Failure(NumberIsNotCorrect)
    else match balance
      case Failure(e) => Failure(e)
      case Success(b) =>
        if b.current < req.sum then Failure(InvalidWithdrawSum)
        else Success(Withdrawal(userID, req.order, req.sum))
  }

  /**
   * GophermartWithdrawService.WithdrawBalanceService: at most one record is
   * appended, and only when every check passes; a failure to create it
   * (createFault) is returned unchanged and appends nothing.
   */
  method WithdrawBalanceService(log: WithdrawalLog, userID: string, req: WithdrawBalanceRequest,
                                balance: Result<Balance, Error>, createFault: Option<Error>)
    returns (err: Option<Error>)
    modifies log
    ensures CheckWithdrawal(userID, req, balance).Failure? ==>
      err == Some(CheckWithdrawal(userID, req, balance).error)
    ensures CheckWithdrawal(userID, req, balance).Success? ==> err == createFault
    ensures log.withdrawals ==
      if err.None? then old(log.withdrawals) + [Withdrawal(userID, req.order, req.sum)]
      else old(log.withdrawals)
  {
    var valid := LuhnAlgorith(req.order);
    if !valid {
      return Some(NumberIsNotCorrect);
    }
    if balance.Failure? {
      return Some(balance.error);
    }
    if balance.value.current < req.sum {
      return Some(InvalidWithdrawSum);
    }
    var withdrawal := Withdrawal(userID, req.order, req.sum);
    if createFault.Some? {
      return createFault;
    }
    log.withdrawals := log.withdrawals + [withdrawal];
    return None;
  }

  /** A number failing the Luhn check is refused whatever the balance read would have returned. */
  lemma LuhnFailureSkipsBalance(userID: string, req: WithdrawBalanceRequest,
                                b1: Result<Balance, Error>, b2: Result<Balance, Error>)
    requires !LuhnValid(req.order)
    ensures CheckWithdrawal(userID, req, b1) == CheckWithdrawal(userID, req, b2)
  {
  }

  /** Withdrawing exactly the current balance is allowed: the test is a strict "less than". */
  lemma WholeBalanceAccepted(userID: string, order: string, current: real, withdrawn: real)
    requires LuhnValid(order)
    ensures CheckWithdrawal(userID, WithdrawBalanceRequest(order, current),
                            Success(Balance(current, withdrawn))).Success?
  {
  }

  /** A zero sum is not refused by the service (only the request binding refuses it). */
  lemma ZeroSumAcceptedByService(userID: string, order: string, b: Balance)
    requires LuhnValid(order) && b.current >= 0.0
    ensures CheckWithdrawal(userID, WithdrawBalanceRequest(order, 0.0), Success(b)).Success?
    ensures BindWithdrawRequest(WithdrawBalanceRequest(order, 0.0)).Some?
  {
  }

  /**
   * The binding does not run the Luhn check: "059a" passes the binding and
   * is refused by the service.
   */
  lemma BindingLeavesLuhnToService(userID: string, balance: Result<Balance, Error>)
    ensures BindWithdrawRequest(WithdrawBalanceRequest("059a", 1.0)) == None
    ensures CheckWithdrawal(userID, WithdrawBalanceRequest("059a", 1.0), balance) == Failure(NumberIsNotCorrect)
  {
    RejectsNonDigits();
  }
}
