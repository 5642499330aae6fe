/** The remote client's session handling (`HotjarAPI`): `_login`,
    `initialize`, `has_valid_session` and the two-iteration retry loop of
    `api_get`. Network calls are replaced by outcomes supplied per loop
    iteration: what the login POST produced, and whether the GET (with its
    status check and JSON parse) returned a parsed body or raised. A body that
    parses as JSON `null` is a fetch whose value is `None`. */
module Session {
  import opened Basics

  /** Body of a 200 login response: `{"user_id": …, "access_key": …}`. */
  datatype LoginBody = LoginBody(userId: Option<int>, accessKey: Option<string>)

  /** The login POST either raised before a response, or answered with a
      status and a body that parsed as JSON (`Some`) or did not (`None`). */
  datatype LoginOutcome = PostRaised | Responded(status: int, body: Option<LoginBody>)

  datatype LoginError = AuthorizationError | TransportError | BodyNotJson

  /** `session.get`, `raise_for_status` and `response.json()` together; a
      parsed JSON `null` is `Parsed(None)`. */
  datatype RequestOutcome<T> = RequestRaised | Parsed(body: Option<T>)

  /** What the remote side does during one iteration of the retry loop. */
  datatype Attempt<T> = Attempt(login: LoginOutcome, request: RequestOutcome<T>)

  datatype Client = Client(loggedIn: bool, userId: Option<int>, accessKey: Option<string>)

  /** How one iteration of `api_get` ended. */
  datatype IterationOutcome<T> = NoSession | RequestFailed | Fetched(body: Option<T>)

  /** Result of `api_get`, with the trace of iterations it ran. */
  datatype Fetch<T> = Fetch(client: Client, value: Option<T>, trace: seq<IterationOutcome<T>>)

  const MaxIterations: nat := 2

  /** The loop ended with `break`: its last iteration fetched a body. */
  predicate Succeeded<T>(r: Fetch<T>) {
    |r.trace| > 0 && r.trace[|r.trace| - 1].Fetched?
  }

  /** The login response the provider accepts: HTTP 200 with an access key. */
  predicate LoginAccepted(outcome: LoginOutcome) {
    outcome.Responded? && outcome.status == 200
    && outcome.body.Some? && outcome.body.value.accessKey.Some?
  }

  /** `_login`: records the user id and access key of a 200 response, and
      raises `AuthorizationError` for any other status or a missing key. */
  function Login(c: Client, outcome: LoginOutcome): (r: (Client, Option<LoginError>))
    ensures r.1 == Some(AuthorizationError) <==>
      outcome.Responded? && (outcome.status != 200 || (outcome.body.Some? && outcome.body.value.accessKey.None?))
    ensures r.1.None? <==> LoginAccepted(outcome)
    ensures r.1.None? ==> r.0.accessKey == outcome.body.value.accessKey
    ensures r.0.loggedIn == c.loggedIn
  {
    match outcome
    case PostRaised => (c, Some(TransportError))
    case Responded(status, body) =>
      if status != 200 then (c, Some(AuthorizationError))
      else if body.None? then (c, Some(BodyNotJson))
      else
        var c' := c.(userId := body.value.userId, accessKey := body.value.accessKey);
        if c'.accessKey.None? then (c', Some(AuthorizationError)) else (c', None)
  }

  /** `initialize`: opens a session and logs in; a failed login is swallowed
      and leaves the logged-in flag as it was. */
  function Initialize(c: Client, outcome: LoginOutcome): (r: Client)
    ensures r.loggedIn <==> c.loggedIn || LoginAccepted(outcome)
  {
    var (c', err) := Login(c, outcome);
    if err.None? then c'.(loggedIn := true) else c'
  }

  /** `has_valid_session`: logs in only when not already logged in. */
  function HasValidSession(c: Client, outcome: LoginOutcome): (r: (Client, bool))
    ensures c.loggedIn ==> r == (c, true)
    ensures !c.loggedIn ==> r.1 == LoginAccepted(outcome)
    ensures r.0.loggedIn == r.1
  {
    if c.loggedIn then (c, true)
    else
      var c' := Initialize(c, outcome);
      (c', c'.loggedIn)
  }

  /** One pass of the `for i in range(2)` body: any exception from the request
      clears the logged-in flag. */
  function Iteration<T>(c: Client, a: Attempt<T>): (r: (Client, IterationOutcome<T>))
    ensures r.1.Fetched? <==> (c.loggedIn || LoginAccepted(a.login)) && a.request.Parsed?
    ensures r.1.Fetched? ==> r.1.body == a.request.body && r.0.loggedIn
    ensures r.1.NoSession? <==> !c.loggedIn && !LoginAccepted(a.login)
    ensures !r.1.Fetched? ==> !r.0.loggedIn
    ensures c.loggedIn && a.request.Parsed? ==> r.0 == c
  {
    var (c', valid) := HasValidSession(c, a.login);
    if !valid then (c', NoSession)
    else
      match a.request
      case RequestRaised => (c'.(loggedIn := false), RequestFailed)
      case Parsed(body) => (c', Fetched(body))
  }

  /** Iterations `i` .. `MaxIterations - 1` of the loop. */
  function Run<T>(c: Client, attempts: nat -> Attempt<T>, i: nat): (r: Fetch<T>)
    requires i <= MaxIterations
    ensures |r.trace| <= MaxIterations - i
    ensures Succeeded(r) ==> r.value == r.trace[|r.trace| - 1].body
    ensures !Succeeded(r) ==> r.value.None?
    ensures forall j :: 0 <= j < |r.trace| - 1 ==> !r.trace[j].Fetched?
    ensures |r.trace| < MaxIterations - i ==> Succeeded(r)
    decreases MaxIterations - i
  {
    if i == MaxIterations then Fetch(c, None, [])
    else
      var (c', outcome) := Iteration(c, attempts(i));
      if outcome.Fetched? then Fetch(c', outcome.body, [outcome])
      else
        var rest := Run(c', attempts, i + 1);
        Fetch(rest.client, rest.value, [outcome] + rest.trace)
  }

  /** `api_get`: at most two iterations, stopping at the first parsed
      response and returning its body; `None` when both iterations fail. */
  function ApiGet<T>(c: Client, attempts: nat -> Attempt<T>): (r: Fetch<T>)
    ensures 1 <= |r.trace| <= MaxIterations
    ensures Succeeded(r) ==> r.value == r.trace[|r.trace| - 1].body
    ensures !Succeeded(r) ==> r.value.None?
    ensures forall j :: 0 <= j < |r.trace| - 1 ==> !r.trace[j].Fetched?
    ensures |r.trace| < MaxIterations ==> Succeeded(r)
  {
    Run(c, attempts, 0)
  }

  /** A first iteration that fetches ends the call: the second attempt is never
      consulted. */
  lemma ApiGetStopsAtFirstSuccess<T>(c: Client, attempts: nat -> Attempt<T>, other: nat -> Attempt<T>)
    requires (c.loggedIn || LoginAccepted(attempts(0).login)) && attempts(0).request.Parsed?
    requires other(0) == attempts(0)
    ensures ApiGet(c, attempts).value == attempts(0).request.body
    ensures |ApiGet(c, attempts).trace| == 1 && Succeeded(ApiGet(c, attempts))
    ensures ApiGet(c, other) == ApiGet(c, attempts)
  {
  }

  /** A logged-in client whose first request succeeds makes no login call and
      keeps its state. */
  lemma ApiGetLoggedInSkipsLogin<T>(c: Client, attempts: nat -> Attempt<T>)
    requires c.loggedIn && attempts(0).request.Parsed?
    ensures ApiGet(c, attempts) == Fetch(c, attempts(0).request.body, [Fetched(attempts(0).request.body)])
  {
  }

  /** After a failed first request the session is dropped, so the second
      iteration logs in again and its outcome decides the result. */
  lemma ApiGetRetryLogsInAgain<T>(c: Client, attempts: nat -> Attempt<T>)
    requires c.loggedIn || LoginAccepted(attempts(0).login)
    requires attempts(0).request.RequestRaised?
    ensures ApiGet(c, attempts).trace[0] == RequestFailed
    ensures Succeeded(ApiGet(c, attempts)) <==>
      LoginAccepted(attempts(1).login) && attempts(1).request.Parsed?
  {
    var (c1, o1) := Iteration(c, attempts(0));
    assert !c1.loggedIn;
  }

  /** `None` comes back exactly when neither iteration fetched, and the client
      is then left logged out, or when the fetched body was JSON `null`, and
      the client then stays logged in. */
  lemma {:induction false} ApiGetNoneIff<T>(c: Client, attempts: nat -> Attempt<T>)
    ensures var r := ApiGet(c, attempts);
      r.value.None? <==>
        (|r.trace| == MaxIterations && !r.trace[0].Fetched? && !r.trace[1].Fetched?)
        || (Succeeded(r) && r.trace[|r.trace| - 1].body.None?)
    ensures !Succeeded(ApiGet(c, attempts)) ==> !ApiGet(c, attempts).client.loggedIn
    ensures Succeeded(ApiGet(c, attempts)) ==> ApiGet(c, attempts).client.loggedIn
  {
    var (c1, o1) := Iteration(c, attempts(0));
    if !o1.Fetched? {
      var (c2, o2) := Iteration(c1, attempts(1));
      assert Run(c1, attempts, 1).client == c2;
    }
  }
}
