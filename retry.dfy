/**
 * `_handle_rpc_error` (flytekit/clients/raw.py): the failure-classifying retry loop around every
 * endpoint, and `_handle_invalid_create_request`, the inner wrapper of the create endpoints.
 * The wrapped call is a script of outcomes, one per attempt; the trace records every call,
 * refresh and sleep.
 */
module Retry {
  import opened Wrappers
  import opened Rpc
  import opened Credentials
  import opened Refresh

  const MaxRetries: nat := 3
  const BaseWaitTime: nat := 200
  const MaxWaitTime: nat := 1000

  /** What one invocation of the wrapper does, in order. */
  datatype Action = Call | Refresh(authMode: string) | Sleep(ms: nat)

  /** How one invocation ends: its result, what it did, and the session it leaves. */
  datatype Run = Run(result: CallResult, trace: seq<Action>, session: Session)

  function Pow2(n: nat): (p: nat)
    ensures p >= 1
  {
    if n == 0 then 1 else 2 * Pow2(n - 1)
  }

  /** `min(200 * (2 ** i), max_wait_time)`, in milliseconds. */
  function WaitTime(i: nat): (ms: nat)
    ensures BaseWaitTime <= ms <= MaxWaitTime
  {
    if BaseWaitTime * Pow2(i) < MaxWaitTime then BaseWaitTime * Pow2(i) else MaxWaitTime
  }

  /** The waits of the two attempts that can back off: 200 ms, then 400 ms; the cap is never reached. */
  lemma WaitTimes()
    ensures WaitTime(0) == 200 && WaitTime(1) == 400
    ensures forall i: nat :: i < MaxRetries - 1 ==> WaitTime(i) < MaxWaitTime
  {
    assert Pow2(1) == 2;
  }

  function Prepend(actions: seq<Action>, run: Run): Run {
    run.(trace := actions + run.trace)
  }

  /** What running the handler `strategy` does to a session, given the answers of that attempt. */
  type Refresher = (Strategy, Session, ForeignAnswers) -> Outcome

  /** The refresh handlers of a client with the given configuration and server metadata. */
  function RefresherFor(cfg: Config, pcc: Option<PublicClientConfig>, oauth: Option<OAuth2Metadata>): Refresher {
    (strategy: Strategy, s: Session, a: ForeignAnswers) => ApplyRefresh(strategy, cfg, pcc, oauth, s, a)
  }

  /**
   * The policy of `_handle_rpc_error` from attempt `i` on, starting in session `s`. Every
   * outcome is classified by its status code: `UNAUTHENTICATED` refreshes (with a handler
   * looked up afresh) and retries, except at the last attempt, where it becomes an
   * authentication error; `ALREADY_EXISTS` and `NOT_FOUND` fail at once; any other code is
   * re-raised unless `retry` holds and attempts remain, in which case the loop backs off.
   */
  function Attempts(i: nat, retry: bool, authMode: string, refresh: Refresher,
                    outcomes: seq<RpcOutcome>, answers: seq<ForeignAnswers>, s: Session): (r: Run)
    requires i < MaxRetries <= |outcomes| && MaxRetries <= |answers|
    ensures |r.trace| > 0 && r.trace[0] == Call
    decreases MaxRetries - i
  {
    match outcomes[i]
    case Success(response) => Run(Returned(response), [Call], s)
    case Failure(e) =>
      if e.code == Unauthenticated then
        if i == MaxRetries - 1 then Run(Raised(FlyteAuthenticationException(e.text)), [Call], s)
        else
          match GetRefreshHandler(authMode)
          case Err(err) => Run(Raised(err), [Call], s)
          case Ok(strategy) =>
            match refresh(strategy, s, answers[i])
            case Failed(err) => Run(Raised(err), [Call, Refresh(authMode)], s)
            case Refreshed(next) =>
              Prepend([Call, Refresh(authMode)], Attempts(i + 1, retry, authMode, refresh, outcomes, answers, next))
      else if e.code == AlreadyExists then Run(Raised(FlyteEntityAlreadyExistsException(e)), [Call], s)
      else if e.code == NotFound then Run(Raised(FlyteEntityNotExistException(e)), [Call], s)
      else if !retry || i == MaxRetries - 1 then Run(Raised(Reraised(e)), [Call], s)
      else Prepend([Call, Sleep(WaitTime(i))], Attempts(i + 1, retry, authMode, refresh, outcomes, answers, s))
  }

  /** One wrapped invocation on a client, from the first attempt. */
  function Invocation(retry: bool, cfg: Config, pcc: Option<PublicClientConfig>, oauth: Option<OAuth2Metadata>,
                      outcomes: seq<RpcOutcome>, answers: seq<ForeignAnswers>, s: Session): (r: Run)
    requires MaxRetries <= |outcomes| && MaxRetries <= |answers|
    ensures |r.trace| > 0 && r.trace[0] == Call
  {
    Attempts(0, retry, cfg.authMode, RefresherFor(cfg, pcc, oauth), outcomes, answers, s)
  }

  /** An attempt that refreshes and goes on to the next one. */
  lemma AttemptRefreshes(i: nat, retry: bool, authMode: string, refresh: Refresher,
                         outcomes: seq<RpcOutcome>, answers: seq<ForeignAnswers>, s: Session, strategy: Strategy, next: Session)
    requires i < MaxRetries - 1 && MaxRetries <= |outcomes| && MaxRetries <= |answers|
    requires outcomes[i].Failure? && outcomes[i].error.code == Unauthenticated
    requires GetRefreshHandler(authMode) == Ok(strategy)
    requires refresh(strategy, s, answers[i]) == Refreshed(next)
    ensures Attempts(i, retry, authMode, refresh, outcomes, answers, s)
         == Prepend([Call, Refresh(authMode)], Attempts(i + 1, retry, authMode, refresh, outcomes, answers, next))
  {
  }

  /** Two attempts that both refresh: the run goes on from attempt 2 in the twice-refreshed session. */
  lemma TwoAttemptsRefresh(retry: bool, authMode: string, refresh: Refresher,
                           outcomes: seq<RpcOutcome>, answers: seq<ForeignAnswers>,
                           strategy: Strategy, s: Session, s1: Session, s2: Session)
    requires MaxRetries <= |outcomes| && MaxRetries <= |answers|
    requires forall k :: 0 <= k < 2 ==> outcomes[k].Failure? && outcomes[k].error.code == Unauthenticated
    requires GetRefreshHandler(authMode) == Ok(strategy)
    requires refresh(strategy, s, answers[0]) == Refreshed(s1) && refresh(strategy, s1, answers[1]) == Refreshed(s2)
    ensures Attempts(0, retry, authMode, refresh, outcomes, answers, s)
         == Prepend([Call, Refresh(authMode), Call, Refresh(authMode)], Attempts(2, retry, authMode, refresh, outcomes, answers, s2))
  {
    AttemptRefreshes(0, retry, authMode, refresh, outcomes, answers, s, strategy, s1);
    AttemptRefreshes(1, retry, authMode, refresh, outcomes, answers, s1, strategy, s2);
    PrependPrepend([Call, Refresh(authMode)], [Call, Refresh(authMode)], Attempts(2, retry, authMode, refresh, outcomes, answers, s2));
  }

  /** An attempt that backs off and goes on to the next one. */
  lemma AttemptBacksOff(i: nat, retry: bool, authMode: string, refresh: Refresher,
                        outcomes: seq<RpcOutcome>, answers: seq<ForeignAnswers>, s: Session)
    requires i < MaxRetries - 1 && MaxRetries <= |outcomes| && MaxRetries <= |answers|
    requires outcomes[i].Failure? && outcomes[i].error.code !in {Unauthenticated, AlreadyExists, NotFound}
    requires retry
    ensures Attempts(i, retry, authMode, refresh, outcomes, answers, s)
         == Prepend([Call, Sleep(WaitTime(i))], Attempts(i + 1, retry, authMode, refresh, outcomes, answers, s))
  {
  }

  lemma PrependPrepend(a: seq<Action>, b: seq<Action>, run: Run)
    ensures Prepend(a, Prepend(b, run)) == Prepend(a + b, run)
  {
    assert a + (b + run.trace) == (a + b) + run.trace;
  }

  /**
   * `_handle_rpc_error(retry)` applied to an endpoint of `client` whose successive calls end as
   * `outcomes` say; the refreshes act on `client` and `auth`.
   */
  method HandleRpcError(retry: bool, cfg: Config, client: FlyteClient, auth: AuthorizationClient,
                        outcomes: seq<RpcOutcome>, answers: seq<ForeignAnswers>)
    returns (result: CallResult, trace: seq<Action>)
    requires MaxRetries <= |outcomes| && MaxRetries <= |answers|
    modifies client, auth
    ensures var run := Invocation(retry, cfg, client.publicClientConfig, client.oauth2Metadata, outcomes, answers,
                                  old(SessionOf(client, auth)));
      result == run.result && trace == run.trace && SessionOf(client, auth) == run.session
  {
    ghost var refresh := RefresherFor(cfg, client.publicClientConfig, client.oauth2Metadata);
    ghost var now := SessionOf(client, auth);
    ghost var whole := Attempts(0, retry, cfg.authMode, refresh, outcomes, answers, now);
    trace := [];
    for i := 0 to MaxRetries
      invariant i < MaxRetries
      invariant now == SessionOf(client, auth)
      invariant whole == Prepend(trace, Attempts(i, retry, cfg.authMode, refresh, outcomes, answers, now))
    {
      ghost var before := trace;
      var done, res, actions := Attempt(i, retry, cfg, client, auth, outcomes, answers);
      trace := trace + actions;
      if done {
        return res, trace;
      }
      PrependPrepend(before, actions, Attempts(i + 1, retry, cfg.authMode, refresh, outcomes, answers, SessionOf(client, auth)));
      now := SessionOf(client, auth);
    }
    // Every outcome of the last attempt returns or raises, so the loop never runs out; Python
    // would return None here.
    assert false;
    result := Returned(PyNone);
  }

  /**
   * One pass of the loop of `_handle_rpc_error`: call, then classify the outcome. Either the
   * invocation ends here with `result`, having recorded `actions`, or it goes on to attempt
   * `i + 1` after `actions`, from the session the refresh (if any) left behind.
   */
  method Attempt(i: nat, retry: bool, cfg: Config, client: FlyteClient, auth: AuthorizationClient,
                 outcomes: seq<RpcOutcome>, answers: seq<ForeignAnswers>)
    returns (done: bool, result: CallResult, actions: seq<Action>)
    requires i < MaxRetries <= |outcomes| && MaxRetries <= |answers|
    modifies client, auth
    ensures var refresh := RefresherFor(cfg, client.publicClientConfig, client.oauth2Metadata);
      var run := Attempts(i, retry, cfg.authMode, refresh, outcomes, answers, old(SessionOf(client, auth)));
      && (done ==> run == Run(result, actions, SessionOf(client, auth)))
      && (!done ==> i < MaxRetries - 1
                    && run == Prepend(actions, Attempts(i + 1, retry, cfg.authMode, refresh, outcomes, answers,
                                                        SessionOf(client, auth))))
  {
    ghost var refresh := RefresherFor(cfg, client.publicClientConfig, client.oauth2Metadata);
    ghost var s := SessionOf(client, auth);
    done, result, actions := true, Returned(PyNone), [Call];
    match outcomes[i]
    case Success(response) =>
      result := Returned(response);
    case Failure(e) =>
      if e.code == Unauthenticated {
        done, result, actions := AttemptUnauthenticated(i, retry, cfg, client, auth, outcomes, answers);
      } else if e.code == AlreadyExists {
        result := Raised(FlyteEntityAlreadyExistsException(e));
      } else if e.code == NotFound {
        result := Raised(FlyteEntityNotExistException(e));
      } else if !retry || i == MaxRetries - 1 {
        result := Raised(Reraised(e));
      } else {
        done, actions := false, [Call, Sleep(WaitTime(i))];
        AttemptBacksOff(i, retry, cfg.authMode, refresh, outcomes, answers, s);
      }
  }

  /** The `UNAUTHENTICATED` branch of one pass: give up on the last attempt, else run the handler. */
  method AttemptUnauthenticated(i: nat, retry: bool, cfg: Config, client: FlyteClient, auth: AuthorizationClient,
                                outcomes: seq<RpcOutcome>, answers: seq<ForeignAnswers>)
    returns (done: bool, result: CallResult, actions: seq<Action>)
    requires i < MaxRetries <= |outcomes| && MaxRetries <= |answers|
    requires outcomes[i].Failure? && outcomes[i].error.code == Unauthenticated
    modifies client, auth
    ensures var refresh := RefresherFor(cfg, client.publicClientConfig, client.oauth2Metadata);
      var run := Attempts(i, retry, cfg.authMode, refresh, outcomes, answers, old(SessionOf(client, auth)));
      && (done ==> run == Run(result, actions, SessionOf(client, auth)))
      && (!done ==> i < MaxRetries - 1
                    && run == Prepend(actions, Attempts(i + 1, retry, cfg.authMode, refresh, outcomes, answers,
                                                        SessionOf(client, auth))))
  {
    ghost var refresh := RefresherFor(cfg, client.publicClientConfig, client.oauth2Metadata);
    ghost var s := SessionOf(client, auth);
    done, actions := true, [Call];
    if i == MaxRetries - 1 {
      result := Raised(FlyteAuthenticationException(outcomes[i].error.text));
      return;
    }
    var handler := GetRefreshHandler(cfg.authMode);
    if handler.Err? {
      result := Raised(handler.error);
      return;
    }
    actions := [Call, Refresh(cfg.authMode)];
    var err := RunStrategy(handler.value, cfg, client, auth, answers[i]);
    assert refresh(handler.value, s, answers[i])
        == ApplyRefresh(handler.value, cfg, client.publicClientConfig, client.oauth2Metadata, s, answers[i]);
    if err.Some? {
      result := Raised(err.value);
      return;
    }
    done, result := false, Returned(PyNone);
    AttemptRefreshes(i, retry, cfg.authMode, refresh, outcomes, answers, s, handler.value, SessionOf(client, auth));
  }

  // Properties of the retry policy

  /** How many calls of the wrapped endpoint a trace records. */
  function Calls(trace: seq<Action>): nat
    decreases |trace|
  {
    if trace == [] then 0 else (if trace[0].Call? then 1 else 0) + Calls(trace[1..])
  }

  lemma CallsCons(a: Action, b: Action, trace: seq<Action>)
    requires a.Call? && !b.Call?
    ensures Calls([a, b] + trace) == 1 + Calls(trace)
  {
    assert ([a, b] + trace)[1..] == [b] + trace;
    assert ([b] + trace)[1..] == trace;
  }

  /** An attempt whose failure the loop answers with another attempt rather than an exception. */
  predicate Retried(retry: bool, o: RpcOutcome) {
    && o.Failure?
    && (o.error.code == Unauthenticated || (retry && o.error.code !in {AlreadyExists, NotFound}))
  }

  /**
   * How a failure that ends the run becomes the exception raised: `ALREADY_EXISTS` and
   * `NOT_FOUND` are translated, `UNAUTHENTICATED` on the last attempt becomes an authentication
   * error carrying the error's text, and every other code is re-raised as it is.
   */
  predicate RaisedAs(result: CallResult, last: RpcOutcome, lastAttempt: bool) {
    last.Failure? ==>
      var e := last.error;
      && (e.code == AlreadyExists ==> result == Raised(FlyteEntityAlreadyExistsException(e)))
      && (e.code == NotFound ==> result == Raised(FlyteEntityNotExistException(e)))
      && (e.code == Unauthenticated && lastAttempt ==> result == Raised(FlyteAuthenticationException(e.text)))
      && (e.code !in {Unauthenticated, AlreadyExists, NotFound} ==> result == Raised(Reraised(e)))
  }

  /**
   * One attempt unfolded: either the run stops at attempt `i`, having called the endpoint once,
   * or attempt `i` failed in a way the loop retries and the run goes on from attempt `i + 1` in
   * the session `next`, with the result and final session of that continuation.
   */
  lemma AttemptsStep(i: nat, retry: bool, authMode: string, refresh: Refresher,
                     outcomes: seq<RpcOutcome>, answers: seq<ForeignAnswers>, s: Session)
    returns (stop: bool, next: Session)
    requires i < MaxRetries <= |outcomes| && MaxRetries <= |answers|
    ensures var r := Attempts(i, retry, authMode, refresh, outcomes, answers, s);
      && r.trace[0] == Call
      && (stop ==>
            && Calls(r.trace) == 1
            && r.session == s
            && (r.trace == [Call] || r.trace == [Call, Refresh(authMode)])
            && (r.result.Returned? <==> outcomes[i].Success?)
            && (r.result.Returned? ==> r.result.response == outcomes[i].response)
            && RaisedAs(r.result, outcomes[i], i == MaxRetries - 1)
            && (!Retried(retry, outcomes[i]) ==> r.trace == [Call]))
      && (!stop ==>
            && i < MaxRetries - 1
            && Retried(retry, outcomes[i])
            && var rest := Attempts(i + 1, retry, authMode, refresh, outcomes, answers, next);
            && r.result == rest.result && r.session == rest.session
            && Calls(r.trace) == 1 + Calls(rest.trace)
            && |r.trace| >= 2 && r.trace == [Call, r.trace[1]] + rest.trace
            && (r.trace[1] == Refresh(authMode) || (retry && r.trace[1] == Sleep(WaitTime(i))))
            && (r.trace[1].Sleep? ==> next == s))
  {
    var r := Attempts(i, retry, authMode, refresh, outcomes, answers, s);
    assert Calls([Call]) == 1 by { assert [Call][1..] == []; }
    stop, next := true, s;
    match outcomes[i]
    case Success(response) =>
      assert r == Run(Returned(response), [Call], s);
    case Failure(e) =>
      var handler := GetRefreshHandler(authMode);
      if e.code == Unauthenticated && i < MaxRetries - 1 && handler.Ok? {
        match refresh(handler.value, s, answers[i])
        case Failed(err) =>
          assert r == Run(Raised(err), [Call, Refresh(authMode)] + [], s);
          CallsCons(Call, Refresh(authMode), []);
        case Refreshed(n) =>
          stop, next := false, n;
          AttemptRefreshes(i, retry, authMode, refresh, outcomes, answers, s, handler.value, n);
          CallsCons(Call, Refresh(authMode), Attempts(i + 1, retry, authMode, refresh, outcomes, answers, n).trace);
      } else if e.code !in {Unauthenticated, AlreadyExists, NotFound} && retry && i < MaxRetries - 1 {
        stop := false;
        AttemptBacksOff(i, retry, authMode, refresh, outcomes, answers, s);
        CallsCons(Call, Sleep(WaitTime(i)), Attempts(i + 1, retry, authMode, refresh, outcomes, answers, s).trace);
      } else if e.code == Unauthenticated && i == MaxRetries - 1 {
        assert r == Run(Raised(FlyteAuthenticationException(e.text)), [Call], s);
      } else if e.code == Unauthenticated {
        assert r == Run(Raised(handler.error), [Call], s);
      } else if e.code == AlreadyExists {
        assert r == Run(Raised(FlyteEntityAlreadyExistsException(e)), [Call], s);
      } else if e.code == NotFound {
        assert r == Run(Raised(FlyteEntityNotExistException(e)), [Call], s);
      } else {
        assert r == Run(Raised(Reraised(e)), [Call], s);
      }
  }

  /**
   * The shape of every run from attempt `i`: it calls the endpoint at least once and at most once
   * per remaining attempt; every outcome before the last one consumed is a failure the loop
   * retries; the run returns exactly when that last outcome is a success, whose response it
   * passes on unchanged; and a failure there is raised as `RaisedAs` says.
   */
  lemma {:induction false} AttemptsShape(i: nat, retry: bool, authMode: string, refresh: Refresher,
                                         outcomes: seq<RpcOutcome>, answers: seq<ForeignAnswers>, s: Session)
    requires i < MaxRetries <= |outcomes| && MaxRetries <= |answers|
    ensures var r := Attempts(i, retry, authMode, refresh, outcomes, answers, s);
      r.trace[0] == Call && Shape(i, Calls(r.trace), retry, outcomes, r.result)
    decreases MaxRetries - i
  {
    var r := Attempts(i, retry, authMode, refresh, outcomes, answers, s);
    var stop, next := AttemptsStep(i, retry, authMode, refresh, outcomes, answers, s);
    if stop {
      ShapeOne(i, retry, outcomes, r.result);
    } else {
      var rest := Attempts(i + 1, retry, authMode, refresh, outcomes, answers, next);
      AttemptsShape(i + 1, retry, authMode, refresh, outcomes, answers, next);
      ShapeCons(i, Calls(rest.trace), retry, outcomes, rest.result);
    }
  }

  /**
   * A run from attempt `i` that called the endpoint `n` times and ended in `result`: `n` is at
   * least 1 and at most one per remaining attempt, every outcome before the last consumed one
   * is a retried failure, and the last consumed outcome decides the result.
   */
  predicate Shape(i: nat, n: nat, retry: bool, outcomes: seq<RpcOutcome>, result: CallResult) {
    && 1 <= n && i + n <= MaxRetries <= |outcomes|
    && (forall k :: i <= k < i + n - 1 ==> Retried(retry, outcomes[k]))
    && (result.Returned? <==> outcomes[i + n - 1].Success?)
    && (result.Returned? ==> result.response == outcomes[i + n - 1].response)
    && RaisedAs(result, outcomes[i + n - 1], i + n == MaxRetries)
  }

  /** A run that stops at attempt `i`, which decides its result. */
  lemma ShapeOne(i: nat, retry: bool, outcomes: seq<RpcOutcome>, result: CallResult)
    requires i < MaxRetries <= |outcomes|
    requires result.Returned? <==> outcomes[i].Success?
    requires result.Returned? ==> result.response == outcomes[i].response
    requires RaisedAs(result, outcomes[i], i == MaxRetries - 1)
    ensures Shape(i, 1, retry, outcomes, result)
  {
  }

  /** A retried failure at attempt `i` extends the shape of the run from attempt `i + 1`. */
  lemma ShapeCons(i: nat, n: nat, retry: bool, outcomes: seq<RpcOutcome>, result: CallResult)
    requires i < |outcomes| && Retried(retry, outcomes[i])
    requires Shape(i + 1, n, retry, outcomes, result)
    ensures Shape(i, n + 1, retry, outcomes, result)
  {
    assert i + (n + 1) - 1 == (i + 1) + n - 1;
  }

  /**
   * A failure the loop does not retry ends the run at once, after a single call and with the
   * session untouched: `ALREADY_EXISTS` and `NOT_FOUND` always, any code but `UNAUTHENTICATED`
   * when `retry` is off.
   */
  lemma FailFast(i: nat, retry: bool, authMode: string, refresh: Refresher,
                 outcomes: seq<RpcOutcome>, answers: seq<ForeignAnswers>, s: Session)
    requires i < MaxRetries <= |outcomes| && MaxRetries <= |answers|
    requires outcomes[i].Failure? && !Retried(retry, outcomes[i])
    ensures var r := Attempts(i, retry, authMode, refresh, outcomes, answers, s);
      && r.trace == [Call] && r.session == s && r.result.Raised?
      && RaisedAs(r.result, outcomes[i], i == MaxRetries - 1)
  {
    var stop, next := AttemptsStep(i, retry, authMode, refresh, outcomes, answers, s);
  }

  /** Every action a run records is allowed: refreshes use the configured mode, sleeps need `retry` and last 200 or 400 ms. */
  predicate Allowed(retry: bool, authMode: string, a: Action) {
    match a
    case Call => true
    case Refresh(mode) => mode == authMode
    case Sleep(ms) => retry && (ms == 200 || ms == 400)
  }

  lemma {:induction false} AttemptsActions(i: nat, retry: bool, authMode: string, refresh: Refresher,
                                           outcomes: seq<RpcOutcome>, answers: seq<ForeignAnswers>, s: Session)
    requires i < MaxRetries <= |outcomes| && MaxRetries <= |answers|
    ensures var r := Attempts(i, retry, authMode, refresh, outcomes, answers, s);
      forall k :: 0 <= k < |r.trace| ==> Allowed(retry, authMode, r.trace[k])
    decreases MaxRetries - i
  {
    var r := Attempts(i, retry, authMode, refresh, outcomes, answers, s);
    var stop, next := AttemptsStep(i, retry, authMode, refresh, outcomes, answers, s);
    if !stop {
      var rest := Attempts(i + 1, retry, authMode, refresh, outcomes, answers, next);
      AttemptsActions(i + 1, retry, authMode, refresh, outcomes, answers, next);
      WaitTimes();
      forall k | 2 <= k < |r.trace| ensures Allowed(retry, authMode, r.trace[k]) {
        assert r.trace[k] == rest.trace[k - 2];
      }
    }
  }

  /** A run that records no refresh leaves the session as it found it. */
  lemma {:induction false} SessionUntouched(i: nat, retry: bool, authMode: string, refresh: Refresher,
                                            outcomes: seq<RpcOutcome>, answers: seq<ForeignAnswers>, s: Session)
    requires i < MaxRetries <= |outcomes| && MaxRetries <= |answers|
    requires var r := Attempts(i, retry, authMode, refresh, outcomes, answers, s);
      forall k :: 0 <= k < |r.trace| ==> !r.trace[k].Refresh?
    ensures Attempts(i, retry, authMode, refresh, outcomes, answers, s).session == s
    decreases MaxRetries - i
  {
    var r := Attempts(i, retry, authMode, refresh, outcomes, answers, s);
    var stop, next := AttemptsStep(i, retry, authMode, refresh, outcomes, answers, s);
    if !stop {
      var rest := Attempts(i + 1, retry, authMode, refresh, outcomes, answers, next);
      assert !r.trace[1].Refresh?;
      forall k | 0 <= k < |rest.trace| ensures !rest.trace[k].Refresh? {
        assert rest.trace[k] == r.trace[k + 2];
      }
      SessionUntouched(i + 1, retry, authMode, refresh, outcomes, answers, next);
    }
  }

  // Scenarios of one invocation

  /** A first-attempt success is returned as it is, after one call and with nothing refreshed. */
  lemma FirstCallSucceeds(retry: bool, cfg: Config, pcc: Option<PublicClientConfig>, oauth: Option<OAuth2Metadata>,
                          outcomes: seq<RpcOutcome>, answers: seq<ForeignAnswers>, s: Session)
    requires MaxRetries <= |outcomes| && MaxRetries <= |answers|
    requires outcomes[0].Success?
    ensures Invocation(retry, cfg, pcc, oauth, outcomes, answers, s) == Run(Returned(outcomes[0].response), [Call], s)
  {
  }

  /**
   * An `UNAUTHENTICATED` failure under an unrecognised auth mode raises the selector's
   * `ValueError` after one call, before any refresh.
   */
  lemma InvalidAuthMode(retry: bool, cfg: Config, pcc: Option<PublicClientConfig>, oauth: Option<OAuth2Metadata>,
                        outcomes: seq<RpcOutcome>, answers: seq<ForeignAnswers>, s: Session)
    requires MaxRetries <= |outcomes| && MaxRetries <= |answers|
    requires outcomes[0].Failure? && outcomes[0].error.code == Unauthenticated
    requires cfg.authMode !in {"standard", "basic", "client_credentials", "external_process"}
    ensures Invocation(retry, cfg, pcc, oauth, outcomes, answers, s)
         == Run(Raised(ValueError(InvalidModeMessage(cfg.authMode))), [Call], s)
  {
  }

  /** A refresh that raises ends the invocation with that exception; nothing is retried. */
  lemma RefreshFailurePropagates(retry: bool, cfg: Config, pcc: Option<PublicClientConfig>, oauth: Option<OAuth2Metadata>,
                                 outcomes: seq<RpcOutcome>, answers: seq<ForeignAnswers>, s: Session)
    requires MaxRetries <= |outcomes| && MaxRetries <= |answers|
    requires outcomes[0].Failure? && outcomes[0].error.code == Unauthenticated
    requires GetRefreshHandler(cfg.authMode).Ok?
    requires ApplyRefresh(GetRefreshHandler(cfg.authMode).value, cfg, pcc, oauth, s, answers[0]).Failed?
    ensures Invocation(retry, cfg, pcc, oauth, outcomes, answers, s)
         == Run(Raised(ApplyRefresh(GetRefreshHandler(cfg.authMode).value, cfg, pcc, oauth, s, answers[0]).error),
                [Call, Refresh(cfg.authMode)], s)
  {
  }

  /** With standard auth and no public client config, the refresh raises `AttributeError`. */
  lemma StandardWithoutClientConfig(retry: bool, cfg: Config, oauth: Option<OAuth2Metadata>,
                                    outcomes: seq<RpcOutcome>, answers: seq<ForeignAnswers>, s: Session)
    requires MaxRetries <= |outcomes| && MaxRetries <= |answers|
    requires outcomes[0].Failure? && outcomes[0].error.code == Unauthenticated
    requires cfg.authMode == "standard"
    ensures Invocation(retry, cfg, None, oauth, outcomes, answers, s)
         == Run(Raised(AttributeError(NoneKeyMessage)), [Call, Refresh("standard")], s)
  {
    RefreshFailurePropagates(retry, cfg, None, oauth, outcomes, answers, s);
  }

  /**
   * Under any auth mode whose handler refreshes: an `UNAUTHENTICATED` first call is followed by
   * a refresh and a second call, whose success is returned in the refreshed session, with no sleep.
   */
  lemma RefreshThenSuccess(retry: bool, cfg: Config, pcc: Option<PublicClientConfig>, oauth: Option<OAuth2Metadata>,
                           outcomes: seq<RpcOutcome>, answers: seq<ForeignAnswers>, s: Session,
                           strategy: Strategy, s1: Session)
    requires MaxRetries <= |outcomes| && MaxRetries <= |answers|
    requires GetRefreshHandler(cfg.authMode) == Ok(strategy)
    requires ApplyRefresh(strategy, cfg, pcc, oauth, s, answers[0]) == Refreshed(s1)
    requires outcomes[0].Failure? && outcomes[0].error.code == Unauthenticated && outcomes[1].Success?
    ensures Invocation(retry, cfg, pcc, oauth, outcomes, answers, s)
         == Run(Returned(outcomes[1].response), [Call, Refresh(cfg.authMode), Call], s1)
  {
    var refresh := RefresherFor(cfg, pcc, oauth);
    assert refresh(strategy, s, answers[0]) == Refreshed(s1);
    AttemptRefreshes(0, retry, cfg.authMode, refresh, outcomes, answers, s, strategy, s1);
  }

  /**
   * Under any auth mode whose handler refreshes twice: two `UNAUTHENTICATED` calls and then a
   * success give two refreshes, three calls, no sleep, and the success in the twice-refreshed session.
   */
  lemma TwoRefreshesThenSuccess(retry: bool, cfg: Config, pcc: Option<PublicClientConfig>, oauth: Option<OAuth2Metadata>,
                                outcomes: seq<RpcOutcome>, answers: seq<ForeignAnswers>, s: Session,
                                strategy: Strategy, s1: Session, s2: Session)
    requires MaxRetries <= |outcomes| && MaxRetries <= |answers|
    requires GetRefreshHandler(cfg.authMode) == Ok(strategy)
    requires ApplyRefresh(strategy, cfg, pcc, oauth, s, answers[0]) == Refreshed(s1)
    requires ApplyRefresh(strategy, cfg, pcc, oauth, s1, answers[1]) == Refreshed(s2)
    requires forall k :: 0 <= k < 2 ==> outcomes[k].Failure? && outcomes[k].error.code == Unauthenticated
    requires outcomes[2].Success?
    ensures Invocation(retry, cfg, pcc, oauth, outcomes, answers, s)
         == Run(Returned(outcomes[2].response),
                [Call, Refresh(cfg.authMode), Call, Refresh(cfg.authMode), Call], s2)
  {
    var refresh := RefresherFor(cfg, pcc, oauth);
    assert refresh(strategy, s, answers[0]) == Refreshed(s1);
    assert refresh(strategy, s1, answers[1]) == Refreshed(s2);
    TwoAttemptsRefresh(retry, cfg.authMode, refresh, outcomes, answers, strategy, s, s1, s2);
  }

  /**
   * Under any auth mode whose handler refreshes twice, three `UNAUTHENTICATED` calls give exactly
   * two refreshes, then the third failure becomes an authentication error carrying its text.
   */
  lemma AuthenticationExhausted(retry: bool, cfg: Config, pcc: Option<PublicClientConfig>, oauth: Option<OAuth2Metadata>,
                                outcomes: seq<RpcOutcome>, answers: seq<ForeignAnswers>, s: Session,
                                strategy: Strategy, s1: Session, s2: Session)
    requires MaxRetries <= |outcomes| && MaxRetries <= |answers|
    requires GetRefreshHandler(cfg.authMode) == Ok(strategy)
    requires ApplyRefresh(strategy, cfg, pcc, oauth, s, answers[0]) == Refreshed(s1)
    requires ApplyRefresh(strategy, cfg, pcc, oauth, s1, answers[1]) == Refreshed(s2)
    requires forall k :: 0 <= k < MaxRetries ==> outcomes[k].Failure? && outcomes[k].error.code == Unauthenticated
    ensures Invocation(retry, cfg, pcc, oauth, outcomes, answers, s)
         == Run(Raised(FlyteAuthenticationException(outcomes[2].error.text)),
                [Call, Refresh(cfg.authMode), Call, Refresh(cfg.authMode), Call], s2)
  {
    var refresh := RefresherFor(cfg, pcc, oauth);
    assert refresh(strategy, s, answers[0]) == Refreshed(s1);
    assert refresh(strategy, s1, answers[1]) == Refreshed(s2);
    TwoAttemptsRefresh(retry, cfg.authMode, refresh, outcomes, answers, strategy, s, s1, s2);
  }

  /**
   * Standard auth with the server metadata present always refreshes, so an `UNAUTHENTICATED`
   * first call and then a success give `Call, Refresh, Call` and the session the standard
   * strategy produces.
   */
  lemma StandardRefreshThenSuccess(retry: bool, cfg: Config, pcc: PublicClientConfig, oauth: OAuth2Metadata,
                                   outcomes: seq<RpcOutcome>, answers: seq<ForeignAnswers>, s: Session)
    requires MaxRetries <= |outcomes| && MaxRetries <= |answers|
    requires cfg.authMode == "standard"
    requires outcomes[0].Failure? && outcomes[0].error.code == Unauthenticated && outcomes[1].Success?
    ensures Invocation(retry, cfg, Some(pcc), Some(oauth), outcomes, answers, s)
         == Run(Returned(outcomes[1].response), [Call, Refresh("standard"), Call],
                StandardRefresh(Some(pcc), Some(oauth), s, answers[0].refreshedToken, answers[0].signedInToken).session)
  {
    var s1 := StandardRefresh(Some(pcc), Some(oauth), s, answers[0].refreshedToken, answers[0].signedInToken).session;
    RefreshThenSuccess(retry, cfg, Some(pcc), Some(oauth), outcomes, answers, s, Standard, s1);
  }

  /** A retried endpoint that fails twice with a transient code sleeps 200 ms, then 400 ms, then returns. */
  lemma BackoffThenSuccess(cfg: Config, pcc: Option<PublicClientConfig>, oauth: Option<OAuth2Metadata>,
                           outcomes: seq<RpcOutcome>, answers: seq<ForeignAnswers>, s: Session)
    requires MaxRetries <= |outcomes| && MaxRetries <= |answers|
    requires forall k :: 0 <= k < 2 ==>
               outcomes[k].Failure? && outcomes[k].error.code !in {Unauthenticated, AlreadyExists, NotFound}
    requires outcomes[2].Success?
    ensures Invocation(true, cfg, pcc, oauth, outcomes, answers, s)
         == Run(Returned(outcomes[2].response), [Call, Sleep(200), Call, Sleep(400), Call], s)
  {
    var refresh := RefresherFor(cfg, pcc, oauth);
    WaitTimes();
    AttemptBacksOff(0, true, cfg.authMode, refresh, outcomes, answers, s);
    AttemptBacksOff(1, true, cfg.authMode, refresh, outcomes, answers, s);
  }

  /** Three transient failures of a retried endpoint: two back-offs, then the last error re-raised as it is. */
  lemma BackoffExhausted(cfg: Config, pcc: Option<PublicClientConfig>, oauth: Option<OAuth2Metadata>,
                         outcomes: seq<RpcOutcome>, answers: seq<ForeignAnswers>, s: Session)
    requires MaxRetries <= |outcomes| && MaxRetries <= |answers|
    requires forall k :: 0 <= k < MaxRetries ==>
               outcomes[k].Failure? && outcomes[k].error.code !in {Unauthenticated, AlreadyExists, NotFound}
    ensures Invocation(true, cfg, pcc, oauth, outcomes, answers, s)
         == Run(Raised(Reraised(outcomes[2].error)), [Call, Sleep(200), Call, Sleep(400), Call], s)
  {
    var refresh := RefresherFor(cfg, pcc, oauth);
    WaitTimes();
    AttemptBacksOff(0, true, cfg.authMode, refresh, outcomes, answers, s);
    AttemptBacksOff(1, true, cfg.authMode, refresh, outcomes, answers, s);
  }

  // `_handle_invalid_create_request`

  /** One call of a create endpoint seen through the wrapper, and whether the request gets logged. */
  datatype Guarded = Guarded(outcome: RpcOutcome, logsRequest: bool)

  /**
   * `_handle_invalid_create_request`: the stub's response is dropped, so a success becomes
   * `None`; every error is re-raised unchanged, and only `INVALID_ARGUMENT` logs the request.
   */
  function InvalidCreateRequest(o: RpcOutcome): (g: Guarded)
    ensures o.Success? <==> g.outcome == Success(PyNone)
    ensures o.Failure? ==> g.outcome == o
    ensures g.logsRequest <==> o.Failure? && o.error.code == InvalidArgument
  {
    match o
    case Success(_) => Guarded(Success(PyNone), false)
    case Failure(e) => Guarded(o, e.code == InvalidArgument)
  }

  /** The outcomes of successive create calls as the retry loop sees them. */
  function GuardAll(outcomes: seq<RpcOutcome>): (r: seq<RpcOutcome>)
    ensures |r| == |outcomes|
    ensures forall k :: 0 <= k < |outcomes| ==> r[k] == InvalidCreateRequest(outcomes[k]).outcome
    decreases |outcomes|
  {
    if outcomes == [] then [] else [InvalidCreateRequest(outcomes[0]).outcome] + GuardAll(outcomes[1..])
  }

  /**
   * The inner wrapper does not change what the retry loop does: the same calls, refreshes and
   * sleeps, the same exceptions and the same final session; only a returned response becomes `None`.
   */
  lemma {:induction false} GuardedAttempts(i: nat, retry: bool, authMode: string, refresh: Refresher,
                                           outcomes: seq<RpcOutcome>, answers: seq<ForeignAnswers>, s: Session)
    requires i < MaxRetries <= |outcomes| && MaxRetries <= |answers|
    ensures var r := Attempts(i, retry, authMode, refresh, outcomes, answers, s);
      var g := Attempts(i, retry, authMode, refresh, GuardAll(outcomes), answers, s);
      && g.trace == r.trace && g.session == r.session
      && (r.result.Returned? <==> g.result == Returned(PyNone))
      && (r.result.Raised? ==> g.result == r.result)
    decreases MaxRetries - i
  {
    var guarded := GuardAll(outcomes);
    assert guarded[i] == InvalidCreateRequest(outcomes[i]).outcome;
    match outcomes[i]
    case Success(_) =>
    case Failure(e) =>
      assert guarded[i] == outcomes[i];
      var handler := GetRefreshHandler(authMode);
      if e.code == Unauthenticated && i < MaxRetries - 1 && handler.Ok? {
        match refresh(handler.value, s, answers[i])
        case Failed(_) =>
        case Refreshed(next) =>
          AttemptRefreshes(i, retry, authMode, refresh, outcomes, answers, s, handler.value, next);
          AttemptRefreshes(i, retry, authMode, refresh, guarded, answers, s, handler.value, next);
          GuardedAttempts(i + 1, retry, authMode, refresh, outcomes, answers, next);
      } else if e.code !in {Unauthenticated, AlreadyExists, NotFound} && retry && i < MaxRetries - 1 {
        AttemptBacksOff(i, retry, authMode, refresh, outcomes, answers, s);
        AttemptBacksOff(i, retry, authMode, refresh, guarded, answers, s);
        GuardedAttempts(i + 1, retry, authMode, refresh, outcomes, answers, s);
      }
  }
}
