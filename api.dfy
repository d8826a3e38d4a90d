/** The authenticated HTTP client (`api.ts`): a request hook that stamps the
    stored access token as a bearer credential (section 2.1 of RFC 6750), and a
    response hook that answers an HTTP 401 (section 15.5.2 of RFC 9110) with a
    single-flight refresh of the token pair, parking the requests that fail
    while the refresh is in flight and replaying them once it settles.

    Each hook invocation is one atomic transition. The refresh owner's path is
    two transitions: `HandleError` runs up to the refresh call, and
    `HandleRefreshResult` runs once that call has settled, with its result as
    a parameter. Other 401s can be handled between the two. */
module Api {
  import opened Wrappers
  import Auth

  const AuthorizationHeader := "Authorization"
  const Unauthorized := 401

  /** The header value for an access token. */
  function Bearer(token: string): string
  {
    "Bearer " + token
  }

  /** A request config: an identity, its headers (`None` when the config has no
      header object) and the `_retry` mark (an absent mark reads as false). */
  datatype Request = Request(id: nat, headers: Option<map<string, string>>, retry: bool)

  /** A failed call as the response hook sees it: the response status, if a
      response arrived, and the config of the request that failed. */
  datatype HttpError = HttpError(status: Option<int>, config: Request)

  /** How the call to the refresh endpoint settled: a new token pair, or the
      error it threw (a non-2xx answer, a network failure, or a body without the
      `data` object, whose read throws). */
  datatype RefreshResult = Refreshed(accessToken: string, refreshToken: string) | RefreshFailed(reason: string)

  /** The reason a caller's promise is rejected with. */
  datatype Fault = Original(error: HttpError) | RefreshError(reason: string)

  /** What the response hook leaves the caller with. */
  datatype Outcome =
    | Reject(fault: Fault)                               // the caller's promise rejects
    | Enqueued(request: Request)                         // parked in the queue until the refresh settles
    | RefreshStarted(refreshToken: string, request: Request) // this caller now awaits the refresh call
    | Replay(request: Request)                           // the request is sent once more, as it stands

  /** How one parked request was settled by `processQueue`. */
  datatype Settlement = Resolved(request: Request, token: Option<string>) | Rejected(request: Request, fault: Fault)

  /** The module state (`isRefreshing`, `failedQueue`) and the credential store it uses. */
  datatype ClientState = ClientState(isRefreshing: bool, failedQueue: seq<Request>, auth: Auth.AuthModel)

  datatype Step = Step(state: ClientState, outcome: Outcome)

  datatype Settled = Settled(state: ClientState, outcome: Outcome, settlements: seq<Settlement>)

  // ---------------------------------------------------------------------
  // The request hook

  /** Stamps `Authorization: Bearer <token>` when the token is a non-empty
      string and the config has headers; otherwise leaves the config alone. */
  function StampRequest(config: Request, token: Option<string>): (r: Request)
    ensures r.id == config.id && r.retry == config.retry
    ensures r.headers.Some? <==> config.headers.Some?
  {
    if Truthy(token) && config.headers.Some? then
      config.(headers := Some(config.headers.value[AuthorizationHeader := Bearer(token.value)]))
    else
      config
  }

  /** The request hook sets the bearer header exactly when a non-empty token is
      stored, to that token, and changes no other header. */
  lemma StampRequestSetsBearer(config: Request, token: Option<string>)
    requires config.headers.Some?
    ensures var r := StampRequest(config, token);
      && (Truthy(token) ==> Get(r.headers.value, AuthorizationHeader) == Some(Bearer(token.value)))
      && (!Truthy(token) ==> r == config)
      && forall k :: k != AuthorizationHeader ==> Get(r.headers.value, k) == Get(config.headers.value, k)
  {
  }

  // ---------------------------------------------------------------------
  // Draining the queue

  /** One parked request settled: rejected when there is an error, resolved with the token otherwise. */
  function Settle(request: Request, error: Option<Fault>, token: Option<string>): Settlement
  {
    if error.Some? then Rejected(request, error.value) else Resolved(request, token)
  }

  /** `processQueue` on a value: every parked request settled, in queue order. */
  function SettleAll(queue: seq<Request>, error: Option<Fault>, token: Option<string>): seq<Settlement>
  {
    seq(|queue|, i requires 0 <= i < |queue| => Settle(queue[i], error, token))
  }

  /** `processQueue` settles each parked request exactly once, in insertion order,
      all the same way: rejected with the error when there is one, else resolved with the token. */
  lemma SettleAllInOrder(queue: seq<Request>, error: Option<Fault>, token: Option<string>)
    ensures var r := SettleAll(queue, error, token);
      && |r| == |queue|
      && forall i :: 0 <= i < |r| ==>
           && r[i].request == queue[i]
           && (r[i].Rejected? <==> error.Some?)
           && (r[i].Rejected? ==> r[i].fault == error.value)
           && (r[i].Resolved? ==> r[i].token == token)
  {
  }

  /** What a parked request does once settled: resolved, it takes the token as its
      bearer header when the token is non-empty and is replayed; rejected, it rejects. */
  function Resume(s: Settlement): (o: Outcome)
    ensures s.Rejected? ==> o == Reject(s.fault)
    ensures s.Resolved? ==> o.Replay? && o.request.id == s.request.id && o.request.retry == s.request.retry
    ensures s.Resolved? && Truthy(s.token) && s.request.headers.Some? ==>
              o.request.headers.Some? && Get(o.request.headers.value, AuthorizationHeader) == Some(Bearer(s.token.value))
    ensures s.Resolved? && !(Truthy(s.token) && s.request.headers.Some?) ==> o == Replay(s.request)
    ensures s.Resolved? && s.request.headers.Some? ==>
              o.request.headers.Some? &&
              forall k :: k != AuthorizationHeader ==> Get(o.request.headers.value, k) == Get(s.request.headers.value, k)
  {
    match s
    case Resolved(request, token) => Replay(StampRequest(request, token))
    case Rejected(_, fault) => Reject(fault)
  }

  // ---------------------------------------------------------------------
  // The response hook

  /** A 401 on a request not yet marked for retry: the only failure the hook acts on. */
  predicate Eligible(error: HttpError)
  {
    error.status == Some(Unauthorized) && !error.config.retry
  }

  /** The response hook on a failed call, up to the refresh call. */
  function HandleError(s: ClientState, error: HttpError): Step
  {
    if Eligible(error) then
      var request := error.config.(retry := true);
      var refreshToken := Get(s.auth.storage, Auth.RefreshTokenKey);
      if !Truthy(refreshToken) then
        Step(s.(auth := Auth.ClearAuthStep(s.auth)), Reject(Original(error.(config := request))))
      else if s.isRefreshing then
        Step(s.(failedQueue := s.failedQueue + [request]), Enqueued(request))
      else
        Step(s.(isRefreshing := true), RefreshStarted(refreshToken.value, request))
    else
      Step(s, Reject(Original(error)))
  }

  /** The refresh owner's path once the refresh call has settled. */
  function HandleRefreshResult(s: ClientState, owner: Request, result: RefreshResult): Settled
  {
    match result
    case Refreshed(accessToken, refreshToken) =>
      var auth := Auth.SetTokensStep(s.auth, Auth.TokenPayload(accessToken, refreshToken, None));
      var replay := if owner.headers.Some? then
                      owner.(headers := Some(owner.headers.value[AuthorizationHeader := Bearer(accessToken)]))
                    else owner;
      Settled(ClientState(false, [], auth), Replay(replay), SettleAll(s.failedQueue, None, Some(accessToken)))
    case RefreshFailed(reason) =>
      Settled(ClientState(false, [], Auth.ClearAuthStep(s.auth)),
              Reject(RefreshError(reason)),
              SettleAll(s.failedQueue, Some(RefreshError(reason)), None))
  }

  /** The client's invariant: credentials mirrored into storage, requests parked
      only while a refresh is in flight, and every parked request marked for retry. */
  ghost predicate Inv(s: ClientState)
  {
    && Auth.Mirrored(s.auth)
    && (!s.isRefreshing ==> s.failedQueue == [])
    && forall k :: 0 <= k < |s.failedQueue| ==> s.failedQueue[k].retry
  }

  /** Both transitions preserve the invariant (the client's constructor establishes it). */
  lemma InvPreserved(s: ClientState, error: HttpError, owner: Request, result: RefreshResult)
    requires Inv(s)
    ensures Inv(HandleError(s, error).state)
    ensures Inv(HandleRefreshResult(s, owner, result).state)
  {
  }

  /** A failure other than a 401, or a 401 on a request already marked, is rejected
      with the original error and changes nothing. */
  lemma IneligiblePassesThrough(s: ClientState, error: HttpError)
    requires !Eligible(error)
    ensures HandleError(s, error) == Step(s, Reject(Original(error)))
  {
  }

  /** On an eligible 401 the request is marked for retry before anything else, so
      whatever the hook does next carries the marked config. */
  lemma EligibleMarksRetry(s: ClientState, error: HttpError)
    requires Eligible(error)
    ensures var o := HandleError(s, error).outcome;
      && !o.Replay?
      && (o.Reject? ==> o.fault.Original? && o.fault.error.config == error.config.(retry := true))
      && (o.Enqueued? || o.RefreshStarted? ==> o.request == error.config.(retry := true))
  {
  }

  /** With no refresh token stored: the credential store cleared as `clearAuth` does
      (other storage keys kept), the original error rejected with its retry mark,
      no refresh call, and the flag and queue untouched. */
  lemma NoRefreshTokenClearsCredentials(s: ClientState, error: HttpError)
    requires Eligible(error) && !Truthy(Get(s.auth.storage, Auth.RefreshTokenKey))
    ensures var st := HandleError(s, error);
      && st.outcome.Reject? && st.outcome.fault.Original?
      && st.state.isRefreshing == s.isRefreshing && st.state.failedQueue == s.failedQueue
      && st.state.auth.accessToken.None? && st.state.auth.refreshToken.None? && st.state.auth.userEmail.None?
      && st.state.auth.storage.Keys !! Auth.AuthKeys()
      && st.outcome == Reject(Original(error.(config := error.config.(retry := true))))
      && st.state == s.(auth := Auth.ClearAuthStep(s.auth))
      && Auth.SameOutside(st.state.auth.storage, s.auth.storage)
  {
  }

  /** While a refresh is in flight an eligible 401 only appends its request to the
      end of the queue: no second refresh, the flag and the credentials unchanged. */
  lemma WhileRefreshingOnlyEnqueues(s: ClientState, error: HttpError)
    requires Eligible(error) && Truthy(Get(s.auth.storage, Auth.RefreshTokenKey)) && s.isRefreshing
    ensures var st := HandleError(s, error);
      && st.outcome == Enqueued(error.config.(retry := true))
      && st.state == s.(failedQueue := s.failedQueue + [error.config.(retry := true)])
  {
  }

  /** Otherwise the request becomes the refresh owner: the flag is raised before
      the refresh call, which carries the stored refresh token. */
  lemma OwnerRaisesFlag(s: ClientState, error: HttpError)
    requires Eligible(error) && Truthy(Get(s.auth.storage, Auth.RefreshTokenKey)) && !s.isRefreshing
    ensures var st := HandleError(s, error);
      && st.outcome == RefreshStarted(Get(s.auth.storage, Auth.RefreshTokenKey).value, error.config.(retry := true))
      && st.state == s.(isRefreshing := true)
  {
  }

  /** A successful refresh stores both new tokens as `setTokens` does (the email
      kept), resolves every parked request with the new access token, re-stamps
      the owner with it, keeping its other headers, and lowers the flag. */
  lemma RefreshSuccess(s: ClientState, owner: Request, accessToken: string, refreshToken: string)
    ensures var st := HandleRefreshResult(s, owner, Refreshed(accessToken, refreshToken));
      && !st.state.isRefreshing && st.state.failedQueue == []
      && st.state.auth.accessToken == Some(accessToken) && st.state.auth.refreshToken == Some(refreshToken)
      && Get(st.state.auth.storage, Auth.AccessTokenKey) == Some(accessToken)
      && Get(st.state.auth.storage, Auth.RefreshTokenKey) == Some(refreshToken)
      && st.settlements == SettleAll(s.failedQueue, None, Some(accessToken))
      && st.outcome.Replay? && st.outcome.request.id == owner.id && st.outcome.request.retry == owner.retry
      && (st.outcome.request.headers.Some? <==> owner.headers.Some?)
      && (owner.headers.Some? ==>
            Get(st.outcome.request.headers.value, AuthorizationHeader) == Some(Bearer(accessToken)))
      && (owner.headers.Some? ==>
            forall k :: k != AuthorizationHeader ==>
              Get(st.outcome.request.headers.value, k) == Get(owner.headers.value, k))
      && st.state.auth == Auth.SetTokensStep(s.auth, Auth.TokenPayload(accessToken, refreshToken, None))
      && st.state.auth.userEmail == s.auth.userEmail
  {
  }

  /** A failed refresh rejects every parked request with the refresh error, clears
      the credentials as `clearAuth` does (other storage keys kept), returns that
      error and lowers the flag. */
  lemma RefreshFailure(s: ClientState, owner: Request, reason: string)
    ensures var st := HandleRefreshResult(s, owner, RefreshFailed(reason));
      && !st.state.isRefreshing && st.state.failedQueue == []
      && st.state.auth.accessToken.None? && st.state.auth.refreshToken.None? && st.state.auth.userEmail.None?
      && st.state.auth.storage.Keys !! Auth.AuthKeys()
      && st.state.auth == Auth.ClearAuthStep(s.auth)
      && Auth.SameOutside(st.state.auth.storage, s.auth.storage)
      && st.outcome == Reject(RefreshError(reason))
      && |st.settlements| == |s.failedQueue|
      && forall i :: 0 <= i < |st.settlements| ==>
           Resume(st.settlements[i]) == Reject(RefreshError(reason)) && st.settlements[i].request == s.failedQueue[i]
  {
  }

  /** A replayed request carries the retry mark, so a 401 on the replay is
      rejected as it is and starts nothing: one refresh path per request. This
      holds for the owner's replay, whether or not anything was parked, and for
      every parked request's replay. */
  lemma ReplayIsNeverRefreshedAgain(s: ClientState, later: ClientState, owner: Request,
                                    result: RefreshResult, i: nat, status: Option<int>)
    requires Inv(s) && owner.retry
    ensures var o := HandleRefreshResult(s, owner, result).outcome;
      o.Replay? ==> HandleError(later, HttpError(status, o.request)) == Step(later, Reject(Original(HttpError(status, o.request))))
    ensures var settled := HandleRefreshResult(s, owner, result);
      i < |settled.settlements| ==>
        var o := Resume(settled.settlements[i]);
        o.Replay? ==> HandleError(later, HttpError(status, o.request)) == Step(later, Reject(Original(HttpError(status, o.request))))
  {
    var settled := HandleRefreshResult(s, owner, result);
    if i < |settled.settlements| {
      assert settled.settlements[i].request == s.failedQueue[i];
    }
  }

  /** A typical session: with `A1`/`R1` stored, a 401 on a request sent
      with `A1` starts one refresh with `R1`; when it returns `A2`/`R2` the store
      holds `A2`/`R2` and the request is replayed once, with `A2`. */
  lemma RefreshScenario(id: nat)
    ensures var auth := Auth.InitialState(map["accessToken" := "A1", "refreshToken" := "R1"]);
      var s := ClientState(false, [], auth);
      var sent := StampRequest(Request(id, Some(map[]), false), Get(auth.storage, Auth.AccessTokenKey));
      var step := HandleError(s, HttpError(Some(401), sent));
      && sent.headers == Some(map[AuthorizationHeader := "Bearer A1"])
      && step.outcome == RefreshStarted("R1", sent.(retry := true))
      && var done := HandleRefreshResult(step.state, step.outcome.request, Refreshed("A2", "R2"));
      && done.state.auth.accessToken == Some("A2") && done.state.auth.refreshToken == Some("R2")
      && done.outcome == Replay(Request(id, Some(map[AuthorizationHeader := "Bearer A2"]), true))
      && done.settlements == []
  {
    var auth := Auth.InitialState(map["accessToken" := "A1", "refreshToken" := "R1"]);
    assert Get(auth.storage, Auth.RefreshTokenKey) == Some("R1");
    assert Get(auth.storage, Auth.AccessTokenKey) == Some("A1");
    var s := ClientState(false, [], auth);
    var sent := StampRequest(Request(id, Some(map[]), false), Get(auth.storage, Auth.AccessTokenKey));
    assert Bearer("A1") == "Bearer A1" && Bearer("A2") == "Bearer A2";
    assert sent == Request(id, Some(map[AuthorizationHeader := "Bearer A1"]), false);
    var step := HandleError(s, HttpError(Some(401), sent));
    assert step.outcome == RefreshStarted("R1", sent.(retry := true));
    var done := HandleRefreshResult(step.state, step.outcome.request, Refreshed("A2", "R2"));
    assert map[AuthorizationHeader := "Bearer A1"][AuthorizationHeader := "Bearer A2"]
        == map[AuthorizationHeader := "Bearer A2"];
    assert done.outcome == Replay(Request(id, Some(map[AuthorizationHeader := "Bearer A2"]), true));
  }

  // ---------------------------------------------------------------------
  // Runs of failures handled while no refresh settles

  datatype Run = Run(state: ClientState, outcomes: seq<Outcome>)

  /** The response hook applied to failures in arrival order, no refresh settling in between. */
  function RunErrors(s: ClientState, errors: seq<HttpError>): (r: Run)
    ensures |r.outcomes| == |errors|
    decreases |errors|
  {
    if errors == [] then Run(s, [])
    else
      var step := HandleError(s, errors[0]);
      var rest := RunErrors(step.state, errors[1..]);
      Run(rest.state, [step.outcome] + rest.outcomes)
  }

  /** The number of refresh calls among the outcomes. */
  function RefreshCalls(outcomes: seq<Outcome>): nat
  {
    if outcomes == [] then 0
    else (if outcomes[0].RefreshStarted? then 1 else 0) + RefreshCalls(outcomes[1..])
  }

  /** The requests parked by the outcomes, in order. */
  function EnqueuedRequests(outcomes: seq<Outcome>): seq<Request>
  {
    if outcomes == [] then []
    else (if outcomes[0].Enqueued? then [outcomes[0].request] else []) + EnqueuedRequests(outcomes[1..])
  }

  /** Single flight: however many failures arrive before the refresh settles, at
      most one refresh call starts, and none while one is already in flight. */
  lemma {:induction false} SingleFlight(s: ClientState, errors: seq<HttpError>)
    ensures var run := RunErrors(s, errors);
      && RefreshCalls(run.outcomes) <= (if s.isRefreshing then 0 else 1)
      && run.state.isRefreshing == (s.isRefreshing || RefreshCalls(run.outcomes) == 1)
    decreases |errors|
  {
    if errors != [] {
      var step := HandleError(s, errors[0]);
      SingleFlight(step.state, errors[1..]);
    }
  }

  /** The queue only grows, at its end, by the parked requests in arrival order. */
  lemma {:induction false} QueueIsFifo(s: ClientState, errors: seq<HttpError>)
    ensures var run := RunErrors(s, errors);
      run.state.failedQueue == s.failedQueue + EnqueuedRequests(run.outcomes)
    decreases |errors|
  {
    if errors != [] {
      var step := HandleError(s, errors[0]);
      QueueIsFifo(step.state, errors[1..]);
      var rest := RunErrors(step.state, errors[1..]);
      assert RunErrors(s, errors).outcomes == [step.outcome] + rest.outcomes;
      assert EnqueuedRequests([step.outcome] + rest.outcomes)
          == (if step.outcome.Enqueued? then [step.outcome.request] else []) + EnqueuedRequests(rest.outcomes);
    }
  }

  /** Eligible 401s arriving with a refresh token stored and a refresh in flight
      are all parked, in arrival order, and change nothing else. */
  lemma {:induction false} InFlightParksAll(s: ClientState, errors: seq<HttpError>)
    requires s.isRefreshing && Truthy(Get(s.auth.storage, Auth.RefreshTokenKey))
    requires forall k :: 0 <= k < |errors| ==> Eligible(errors[k])
    ensures var run := RunErrors(s, errors);
      && run.state == s.(failedQueue := s.failedQueue + seq(|errors|, k requires 0 <= k < |errors| => errors[k].config.(retry := true)))
      && forall k :: 0 <= k < |errors| ==> run.outcomes[k] == Enqueued(errors[k].config.(retry := true))
    decreases |errors|
  {
    if errors != [] {
      var step := HandleError(s, errors[0]);
      InFlightParksAll(step.state, errors[1..]);
      var marked := seq(|errors|, k requires 0 <= k < |errors| => errors[k].config.(retry := true));
      assert marked == [errors[0].config.(retry := true)]
                     + seq(|errors| - 1, k requires 0 <= k < |errors| - 1 => errors[1..][k].config.(retry := true));
    }
  }

  /** N requests failing with 401 while no refresh is in flight: the first starts the
      one refresh call and the others are parked behind it. When the refresh succeeds
      every parked request is replayed with the single new access token; when it
      fails every one of them rejects with the refresh error. */
  lemma ConcurrentUnauthorizedShareOneRefresh(s: ClientState, errors: seq<HttpError>, result: RefreshResult)
    requires !s.isRefreshing && s.failedQueue == [] && Truthy(Get(s.auth.storage, Auth.RefreshTokenKey))
    requires |errors| >= 1 && forall k :: 0 <= k < |errors| ==> Eligible(errors[k])
    requires forall k :: 0 <= k < |errors| ==> errors[k].config.headers.Some?
    requires result.Refreshed? ==> result.accessToken != ""
    ensures var run := RunErrors(s, errors);
      && RefreshCalls(run.outcomes) == 1 && run.outcomes[0].RefreshStarted?
      && var settled := HandleRefreshResult(run.state, run.outcomes[0].request, result);
      && |settled.settlements| == |errors| - 1
      && forall k :: 1 <= k < |errors| ==>
           var o := Resume(settled.settlements[k - 1]);
           && (result.Refreshed? ==>
                 o.Replay? && o.request.id == errors[k].config.id && o.request.headers.Some?
                 && Get(o.request.headers.value, AuthorizationHeader) == Some(Bearer(result.accessToken)))
           && (result.RefreshFailed? ==> o == Reject(RefreshError(result.reason)))
  {
    var first := HandleError(s, errors[0]);
    assert first.outcome.RefreshStarted?;
    InFlightParksAll(first.state, errors[1..]);
    SingleFlight(s, errors);
    var run := RunErrors(s, errors);
    var settled := HandleRefreshResult(run.state, run.outcomes[0].request, result);
    forall k | 1 <= k < |errors|
      ensures var o := Resume(settled.settlements[k - 1]);
           && (result.Refreshed? ==>
                 o.Replay? && o.request.id == errors[k].config.id && o.request.headers.Some?
                 && Get(o.request.headers.value, AuthorizationHeader) == Some(Bearer(result.accessToken)))
           && (result.RefreshFailed? ==> o == Reject(RefreshError(result.reason)))
    {
      assert run.state.failedQueue[k - 1] == errors[k].config.(retry := true);
    }
  }

  // ---------------------------------------------------------------------
  // The client object

  /** The client as the application holds it: the module variables and the
      credential store, updated in place by the hooks. */
  class ApiClient {
    var isRefreshing: bool
    var failedQueue: seq<Request>
    const auth: Auth.AuthSlice

    function Model(): ClientState
      reads this, auth
    {
      ClientState(isRefreshing, failedQueue, auth.Model())
    }

    ghost predicate Valid()
      reads this, auth
    {
      Inv(Model())
    }

    /** Module load: no refresh in flight, nothing parked. */
    constructor (store: Auth.AuthSlice)
      requires store.Valid()
      ensures auth == store && Valid()
      ensures Model() == ClientState(false, [], store.Model())
    {
      isRefreshing := false;
      failedQueue := [];
      auth := store;
    }

    /** The request hook, reading the access token from storage at send time. */
    method InterceptRequest(config: Request) returns (r: Request)
      requires Valid()
      ensures r == StampRequest(config, Get(auth.storage, Auth.AccessTokenKey))
      ensures Truthy(auth.accessToken) && config.headers.Some? ==>
                r.headers.Some? && Get(r.headers.value, AuthorizationHeader) == Some(Bearer(auth.accessToken.value))
      ensures !Truthy(auth.accessToken) ==> r == config
    {
      var token := Get(auth.storage, Auth.AccessTokenKey);
      r := config;
      if token.Some? && token.value != "" && config.headers.Some? {
        r := config.(headers := Some(config.headers.value[AuthorizationHeader := Bearer(token.value)]));
      }
    }

    /** `processQueue`: settles every parked request in order, then empties the queue. */
    method ProcessQueue(error: Option<Fault>, token: Option<string>) returns (settled: seq<Settlement>)
      modifies this
      ensures settled == SettleAll(old(failedQueue), error, token)
      ensures failedQueue == [] && isRefreshing == old(isRefreshing)
    {
      settled := [];
      var i := 0;
      while i < |failedQueue|
        invariant 0 <= i <= |failedQueue|
        invariant |settled| == i
        invariant forall k :: 0 <= k < i ==> settled[k] == Settle(failedQueue[k], error, token)
      {
        var p := failedQueue[i];
        if error.Some? {
          settled := settled + [Rejected(p, error.value)];
        } else {
          settled := settled + [Resolved(p, token)];
        }
        i := i + 1;
      }
      failedQueue := [];
    }

    /** The response hook on a failed call, up to the refresh call. */
    method InterceptResponseError(error: HttpError) returns (outcome: Outcome)
      requires Valid()
      modifies this, auth
      ensures Valid()
      ensures Step(Model(), outcome) == HandleError(old(Model()), error)
    {
      if error.status == Some(Unauthorized) && !error.config.retry {
        var request := error.config.(retry := true);
        var refreshToken := Get(auth.storage, Auth.RefreshTokenKey);
        if !(refreshToken.Some? && refreshToken.value != "") {
          auth.ClearAuth();
          outcome := Reject(Original(error.(config := request)));
          return;
        }
        if isRefreshing {
          failedQueue := failedQueue + [request];
          outcome := Enqueued(request);
          return;
        }
        isRefreshing := true;
        outcome := RefreshStarted(refreshToken.value, request);
      } else {
        outcome := Reject(Original(error));
      }
    }

    /** The refresh owner resuming once the refresh call has settled; the flag
        is lowered on both paths. */
    method FinishRefresh(owner: Request, result: RefreshResult) returns (outcome: Outcome, settled: seq<Settlement>)
      requires Valid()
      modifies this, auth
      ensures Valid()
      ensures Settled(Model(), outcome, settled) == HandleRefreshResult(old(Model()), owner, result)
    {
      match result {
        case Refreshed(accessToken, refreshToken) =>
          auth.SetTokens(Auth.TokenPayload(accessToken, refreshToken, None));
          settled := ProcessQueue(None, Some(accessToken));
          var replay := owner;
          if owner.headers.Some? {
            replay := owner.(headers := Some(owner.headers.value[AuthorizationHeader := Bearer(accessToken)]));
          }
          outcome := Replay(replay);
        case RefreshFailed(reason) =>
          settled := ProcessQueue(Some(RefreshError(reason)), None);
          auth.ClearAuth();
          outcome := Reject(RefreshError(reason));
      }
      isRefreshing := false;
    }
  }
}
