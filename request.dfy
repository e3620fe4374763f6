/**
 * The request helper `make_request`, which both the popup and the results page
 * define identically: a GET whose promise is settled by whichever of three
 * handlers fires (load, error, or a 401 at ready-state 4).
 */
module Request {
  import opened Common

  /** Why a request's promise was rejected. */
  datatype Reason =
    | ApiError(message: string)  // the first element of the body's errorMessages
    | NetworkError               // the error handler: Error("Network Error")
    | LoginRequired              // status 401 seen at ready-state 4

  const LoginMessage := "You must be logged in to JIRA to see this project."

  /** A response body as the load handler sees it: its `errorMessages` member and the rest of it. */
  datatype Body<+T> = Body(errorMessages: Option<seq<string>>, content: T)

  /** How the promise returned by `make_request` settles; a missing body resolves as `null`. */
  datatype Settled<+T> = Resolved(body: Option<Body<T>>) | Rejected(reason: Reason)

  /** What the transport delivers: a response with its HTTP status and body, or no response at all. */
  datatype Transport<+T> = Loaded(status: int, response: Option<Body<T>>) | Failed

  /** The text JavaScript produces when a rejection reason is appended to a string. */
  function ReasonText(r: Reason): (t: string)
    ensures r.ApiError? ==> t == r.message
    ensures r.NetworkError? ==> t == "Error: Network Error"
    ensures r.LoginRequired? ==> t == LoginMessage
  {
    match r
    case ApiError(m) => m
    case NetworkError => "Error: Network Error"
    case LoginRequired => LoginMessage
  }

  /** The status line both pages show for a failure: `'ERROR. ' + errorMessage`. */
  function ErrorStatus(message: string): (s: string)
    ensures "ERROR. " <= s && s[|"ERROR. "|..] == message
  {
    "ERROR. " + message
  }

  /**
   * The load handler: a present body whose `errorMessages` is a non-empty array
   * rejects with that array's first element; any other body, a missing one included,
   * resolves unchanged.
   */
  function OnLoad<T>(response: Option<Body<T>>): (s: Settled<T>)
    ensures s.Rejected? <==>
      response.Some? && response.value.errorMessages.Some? && |response.value.errorMessages.value| > 0
    ensures s.Rejected? ==> s.reason == ApiError(response.value.errorMessages.value[0])
    ensures s.Resolved? ==> s.body == response
  {
    match response
    case Some(Body(Some(messages), _)) =>
      if |messages| > 0 then Rejected(ApiError(messages[0])) else Resolved(response)
    case _ => Resolved(response)
  }

  /** The ready-state handler: it rejects with the login message exactly on a 401 at ready-state 4. */
  function OnReadyStateChange(readyState: int, status: int): (r: Option<Reason>)
    ensures r.Some? <==> readyState == 4 && status == 401
    ensures r.Some? ==> r.value == LoginRequired
  {
    if readyState == 4 && status == 401 then Some(LoginRequired) else None
  }

  /**
   * The settlements the handlers can produce for a transport outcome. No order
   * between the load handler and the 401 check is assumed: on a 401 either verdict
   * may be the one that settles the promise.
   */
  predicate MaySettle<T(==)>(t: Transport<T>, s: Settled<T>): (possible: bool)
    ensures t.Loaded? && s == OnLoad(t.response) ==> possible
    ensures possible && s.Resolved? ==> t.Loaded? && s.body == t.response
    ensures possible && t.Failed? ==> s == Rejected(NetworkError)
  {
    match t
    case Failed => s == Rejected(NetworkError)
    case Loaded(status, response) =>
      s == OnLoad(response) || (s.Rejected? && Some(s.reason) == OnReadyStateChange(4, status))
  }

  /** Away from 401, the load handler alone decides; a lost response always fails as a network error. */
  lemma SettlementDetermined<T>(t: Transport<T>, s: Settled<T>)
    requires t.Failed? || t.status != 401
    ensures MaySettle(t, s) <==> s == (if t.Failed? then Rejected(NetworkError) else OnLoad(t.response))
  {
  }

  /** On a 401 the login message is always a possible outcome, whatever the body says. */
  lemma UnauthorizedMayRequireLogin<T>(response: Option<Body<T>>)
    ensures MaySettle(Loaded(401, response), Rejected(LoginRequired))
    ensures ReasonText(LoginRequired) == LoginMessage
  {
  }

  /** A rejected request shows the server's first message verbatim after "ERROR. ". */
  lemma ApiErrorShownVerbatim<T>(b: Body<T>)
    requires b.errorMessages.Some? && |b.errorMessages.value| > 0
    ensures OnLoad(Some(b)).Rejected?
    ensures ErrorStatus(ReasonText(OnLoad(Some(b)).reason)) == "ERROR. " + b.errorMessages.value[0]
  {
  }
}
