/**
 * The client of the accrual authority: one GET per order, whose status code
 * and Retry-After header are classified into the triple
 * (response, retryAfter, err) that the accrual worker consumes.
 */
module AccrualClient {
  import opened Wrappers
  import opened Errors
  import opened Strconv
  import opened Models

  const StatusOK: int := 200
  const StatusNoContent: int := 204
  /** 429 Too Many Requests, section 4 of RFC 6585. */
  const StatusTooManyRequests: int := 429
  const FailedToGetOrderInfo: string := "failed to get order info"

  /**
   * What one GET produced: the request could not be built or sent (which
   * includes the per-order deadline expiring), or a reply with its status
   * code, its Retry-After header ("" when absent) and the outcome of
   * decoding its JSON body into a pointer (Success(None) for a literal null).
   */
  datatype Exchange =
    | RequestFailed(cause: Error)
    | Reply(statusCode: int, retryAfter: string, body: Result<Option<AccrualResponse>, Error>)

  /** The triple GetOrderInfo returns; None is the nil response and the nil error. */
  datatype ClientResult = ClientResult(response: Option<AccrualResponse>, retryAfter: int, err: Option<Error>)

  /** The base URL without its trailing slashes. */
  function TrimTrailingSlashes(s: string): (t: string)
    ensures |t| <= |s| && t == s[..|t|]
    ensures t == [] || t[|t| - 1] != '/'
    ensures forall i :: |t| <= i < |s| ==> s[i] == '/'
  {
    if s != [] && s[|s| - 1] == '/' then TrimTrailingSlashes(s[..|s| - 1]) else s
  }

  /**
   * The request URL: the base URL joined with "api", "orders" and the order
   * number. An empty number is dropped as an empty path element is, leaving
   * no final segment.
   */
  function OrderPath(baseURL: string, orderNumber: string): string {
    if orderNumber == [] then TrimTrailingSlashes(baseURL) + "/api/orders"
    else TrimTrailingSlashes(baseURL) + "/api/orders/" + orderNumber
  }

  /** Trailing slashes on the base URL do not change the request URL. */
  lemma OrderPathIgnoresTrailingSlash(baseURL: string, orderNumber: string)
    ensures OrderPath(baseURL + "/", orderNumber) == OrderPath(baseURL, orderNumber)
  {
    assert (baseURL + "/")[..|baseURL|] == baseURL;
  }

  /** Different order numbers are asked about at different URLs. */
  lemma OrderPathInjective(baseURL: string, n1: string, n2: string)
    requires n1 != n2
    ensures OrderPath(baseURL, n1) != OrderPath(baseURL, n2)
  {
    var base := TrimTrailingSlashes(baseURL);
    if n1 != [] {
      assert OrderPath(baseURL, n1)[|base| + 12..] == n1;
    }
    if n2 != [] {
      assert OrderPath(baseURL, n2)[|base| + 12..] == n2;
    }
  }

  /**
   * Client.GetOrderInfo after the exchange: 429 yields the Retry-After
   * delay in seconds (the delay-seconds form of section 10.2.3 of RFC 9110
   * only), 204 yields no verdict, any status but 200 is an error, and 200
   * yields the decoded body.
   */
  function GetOrderInfo(x: Exchange): (r: ClientResult)
    ensures r.err.Some? ==> r.response.None? && r.retryAfter == 0
    ensures r.response.Some? ==> r.retryAfter == 0 && r.err.None?
    ensures r.retryAfter != 0 ==>
      x.Reply? && x.statusCode == StatusTooManyRequests && Atoi(x.retryAfter) == Some(r.retryAfter)
    ensures r.response.Some? ==> x.Reply? && x.statusCode == StatusOK && x.body == Success(r.response)
  {
    match x
    case RequestFailed(cause) => ClientResult(None, 0, Some(cause))
    case Reply(code, header, body) =>
      if code == StatusTooManyRequests then
        match Atoi(header)
        case None => ClientResult(None, 0, Some(NumError(header)))
        case Some(seconds) => ClientResult(None, seconds, None)
      else if code == StatusNoContent then ClientResult(None, 0, None)
      else if code != StatusOK then ClientResult(None, 0, Some(Message(FailedToGetOrderInfo)))
      else match body
        case Failure(e) => ClientResult(None, 0, Some(e))
        case Success(response) => ClientResult(response, 0, None)
  }

  /** The classification table, one row per kind of reply. */
  lemma Classification(x: Exchange)
    ensures x.RequestFailed? ==> GetOrderInfo(x) == ClientResult(None, 0, Some(x.cause))
    ensures x.Reply? && x.statusCode == StatusTooManyRequests && Atoi(x.retryAfter).Some? ==>
      GetOrderInfo(x) == ClientResult(None, Atoi(x.retryAfter).value, None)
    ensures x.Reply? && x.statusCode == StatusTooManyRequests && Atoi(x.retryAfter).None? ==>
      GetOrderInfo(x) == ClientResult(None, 0, Some(NumError(x.retryAfter)))
    ensures x.Reply? && x.statusCode == StatusNoContent ==> GetOrderInfo(x) == ClientResult(None, 0, None)
    ensures x.Reply? && x.statusCode !in {StatusOK, StatusNoContent, StatusTooManyRequests} ==>
      GetOrderInfo(x) == ClientResult(None, 0, Some(Message(FailedToGetOrderInfo)))
    ensures x.Reply? && x.statusCode == StatusOK && x.body.Failure? ==>
      GetOrderInfo(x) == ClientResult(None, 0, Some(x.body.error))
    ensures x.Reply? && x.statusCode == StatusOK && x.body.Success? ==>
      GetOrderInfo(x) == ClientResult(x.body.value, 0, None)
  {
  }

  /** A Retry-After in the HTTP-date form is not understood and is reported as an error. */
  lemma HttpDateRetryAfterIsError(body: Result<Option<AccrualResponse>, Error>)
    ensures var date := "Wed, 21 Oct 2015 07:28:00 GMT";
      GetOrderInfo(Reply(StatusTooManyRequests, date, body)) == ClientResult(None, 0, Some(NumError(date)))
  {
    AtoiRejectsNonDigit("Wed, 21 Oct 2015 07:28:00 GMT", 0);
  }

  /** A 429 without a Retry-After header is an error too: the header reads as "". */
  lemma MissingRetryAfterIsError(body: Result<Option<AccrualResponse>, Error>)
    ensures GetOrderInfo(Reply(StatusTooManyRequests, "", body)) == ClientResult(None, 0, Some(NumError("")))
  {
  }
}
