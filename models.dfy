/**
 * The request and record types of the loyalty service and the field checks
 * that run when a JSON request body is bound.
 */
module Models {
  import opened Wrappers
  import opened Errors

  /** Registration and login request. */
  datatype UserCredentials = UserCredentials(login: string, password: string)

  /** Withdrawal request: the order number to charge and the amount (a float32 in the service). */
  datatype WithdrawBalanceRequest = WithdrawBalanceRequest(order: string, sum: real)

  /** A row of the order table; the reward (accrual) is a whole number. */
  datatype Order = Order(number: string, status: string, accrual: int, owner: int)

  /** A row of the withdrawals table. */
  datatype Withdrawal = Withdrawal(userID: string, orderNumber: string, amount: real)

  /** A user's balance as the storage computes it. */
  datatype Balance = Balance(current: real, withdrawn: real)

  /** The accrual authority's answer for one order. */
  datatype AccrualResponse = AccrualResponse(order: string, status: string, accrual: int)

  const LoginRequired: string := "login field is required"
  const PasswordRequired: string := "password field is required"

  /**
   * UserCreditials.Bind: the login is checked first, then the password;
   * None is the nil error.
   */
  function BindCredentials(uc: UserCredentials): (r: Option<Error>)
    ensures r.None? <==> uc.login != "" && uc.password != ""
    ensures uc.login == "" ==> r == Some(Message(LoginRequired))
    ensures uc.login != "" && uc.password == "" ==> r == Some(Message(PasswordRequired))
  {
    if uc.login == "" then Some(Message(LoginRequired))
    else if uc.password == "" then Some(Message(PasswordRequired))
    else None
  }

  /**
   * WithdrawBalanceRequest.Bind: the order must be non-empty and the sum
   * must not be exactly zero. The source reuses the credential messages.
   */
  function BindWithdrawRequest(req: WithdrawBalanceRequest): (r: Option<Error>)
    ensures r.None? <==> req.order != "" && req.sum != 0.0
    ensures req.order == "" ==> r == Some(Message(LoginRequired))
    ensures req.order != "" && req.sum == 0.0 ==> r == Some(Message(PasswordRequired))
  {
    if req.order == "" then Some(Message(LoginRequired))
    else if req.sum == 0.0 then Some(Message(PasswordRequired))
    else None
  }

  /** With both fields empty, the login error is the one reported. */
  lemma BothEmptyReportsLogin()
    ensures BindCredentials(UserCredentials("", "")) == Some(Message(LoginRequired))
  {
  }

  /** Only an exact zero is refused: a negative sum passes the binding. */
  lemma NegativeSumPassesBind(order: string, sum: real)
    requires order != "" && sum < 0.0
    ensures BindWithdrawRequest(WithdrawBalanceRequest(order, sum)) == None
  {
  }
}
