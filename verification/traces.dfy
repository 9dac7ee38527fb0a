/** Runs of the refresh loop from construction, and what holds in every
    state a run can reach. The reference definitions below read the answer
    off the options and the event sequence. */
module Traces {
  import opened Wrappers
  import opened Token
  import opened Config
  import opened Lifecycle
  import opened Access

  /** The state after the events `es`, or `None` when some event could not
      have happened in the phase the loop was in. */
  function Run(m: Manager, es: seq<Event>): Option<Manager>
    decreases |es|
  {
    if |es| == 0 then Some(m)
    else
      match Run(m, es[..|es| - 1])
      case None => None
      case Some(prev) =>
        if Enabled(prev.phase, es[|es| - 1]) then Some(Step(prev, es[|es| - 1])) else None
  }

  /** The token of the last successful acquisition. */
  function LastSuccess(es: seq<Event>): Option<TokenResponse>
    decreases |es|
  {
    if |es| == 0 then None
    else if es[|es| - 1].AcquireOk? then Some(es[|es| - 1].token)
    else LastSuccess(es[..|es| - 1])
  }

  /** The tokens of all successful acquisitions, in order. */
  function Successes(es: seq<Event>): seq<TokenResponse>
    decreases |es|
  {
    if |es| == 0 then []
    else if es[|es| - 1].AcquireOk? then Successes(es[..|es| - 1]) + [es[|es| - 1].token]
    else Successes(es[..|es| - 1])
  }

  /** How many refresh timers fired: a timer right after a success is the
      refresh timer, any other is the end of a retry pause. */
  function Renewals(es: seq<Event>): nat
    decreases |es|
  {
    if |es| == 0 then 0
    else
      var init := es[..|es| - 1];
      Renewals(init) + if es[|es| - 1].TimerElapsed? && |init| > 0 && init[|init| - 1].AcquireOk? then 1 else 0
  }

  /** The phase the last event leads to. */
  function PhaseAfter(c: Config, es: seq<Event>): Phase {
    if |es| == 0 then Acquiring
    else
      match es[|es| - 1]
      case AcquireFailed => RetryPause(RetryDelay)
      case AcquireOk(t) => Waiting(RenewalDelay(c, t))
      case TimerElapsed => Acquiring
  }

  /** Everything the manager holds after a run is determined by the options
      and the events:
      the configuration is the resolved options, the stored token is the
      last one acquired, the callback saw every acquired token once and in
      order (if set), the gate generation counts the refresh timers, and
      the gate is closed exactly while the loop waits for its refresh
      timer. */
  lemma {:induction false} Reachable(opts: seq<ManagerOption>, es: seq<Event>, m: Manager)
    requires Run(NewTokenManager(opts), es) == Some(m)
    ensures m.config == Resolve(opts)
    ensures m.current == LastSuccess(es)
    ensures m.callbackLog == if m.config.onNewToken.Some? then Successes(es) else []
    ensures m.gate.generation == Renewals(es)
    ensures m.phase == PhaseAfter(m.config, es)
    ensures m.gate.closed <==> m.phase.Waiting?
    decreases |es|
  {
    if |es| > 0 {
      var init := es[..|es| - 1];
      var prev := Run(NewTokenManager(opts), init).value;
      Reachable(opts, init, prev);
    }
  }

  /** A successful acquisition is needed before any refresh timer runs. */
  lemma {:induction false} RenewalNeedsSuccess(es: seq<Event>)
    requires Renewals(es) > 0
    ensures LastSuccess(es).Some?
    decreases |es|
  {
    var init := es[..|es| - 1];
    if !es[|es| - 1].AcquireOk? {
      if Renewals(init) > 0 {
        RenewalNeedsSuccess(init);
      } else {
        assert init[..|init| - 1] + [init[|init| - 1]] == init;
      }
    }
  }

  /** No false readiness: a caller is only ever released, on any gate, once
      some acquisition has succeeded, and then a token is stored. */
  lemma NoFalseReadiness(opts: seq<ManagerOption>, es: seq<Event>, m: Manager, g: nat)
    requires Run(NewTokenManager(opts), es) == Some(m)
    requires Released(m, g)
    ensures LastSuccess(es).Some? && m.current.Some?
  {
    Reachable(opts, es, m);
    if m.gate.generation > 0 {
      RenewalNeedsSuccess(es);
    }
  }

  /** With a positive refresh time every scheduled wait is exactly that
      refresh time. */
  lemma FixedScheduleEveryGeneration(opts: seq<ManagerOption>, es: seq<Event>, m: Manager)
    requires Run(NewTokenManager(opts), es) == Some(m)
    requires m.config.refreshTime > 0
    requires m.phase.Waiting?
    ensures m.phase.delay == m.config.refreshTime
  {
    Reachable(opts, es, m);
  }

  /** Freshness: the token callers read is the one most recently acquired. */
  lemma GetTokenIsLatest(opts: seq<ManagerOption>, es: seq<Event>, m: Manager)
    requires Run(NewTokenManager(opts), es) == Some(m)
    ensures GetFullToken(m) == LastSuccess(es)
    ensures LastSuccess(es).None? ==> GetToken(m) == "" && GetAuthorizationHeader(m) == ""
    ensures LastSuccess(es).Some? ==> GetToken(m) == LastSuccess(es).value.accessToken
  {
    Reachable(opts, es, m);
  }

  /** The callback runs once per successful acquisition when it is set, and
      never when it is not. */
  lemma CallbackOncePerToken(opts: seq<ManagerOption>, es: seq<Event>, m: Manager)
    requires Run(NewTokenManager(opts), es) == Some(m)
    ensures Resolve(opts).onNewToken.Some? ==> m.callbackLog == Successes(es)
    ensures Resolve(opts).onNewToken.None? ==> m.callbackLog == []
  {
    Reachable(opts, es, m);
  }

  /** Failed acquisitions and timers never change the stored token or call
      the callback: after a failing renewal the previous token is still
      served. */
  lemma {:induction false} NoSuccessKeepsToken(m: Manager, tail: seq<Event>, m': Manager)
    requires Run(m, tail) == Some(m')
    requires forall i | 0 <= i < |tail| :: !tail[i].AcquireOk?
    ensures m'.current == m.current
    ensures m'.callbackLog == m.callbackLog
    decreases |tail|
  {
    if |tail| > 0 {
      var init := tail[..|tail| - 1];
      var prev := Run(m, init).value;
      NoSuccessKeepsToken(m, init, prev);
    }
  }

  /** A token, once stored, stays stored through any further run. */
  lemma {:induction false} TokenNeverRemoved(m: Manager, more: seq<Event>, m': Manager)
    requires Run(m, more) == Some(m')
    requires m.current.Some?
    ensures m'.current.Some?
    decreases |more|
  {
    if |more| > 0 {
      var init := more[..|more| - 1];
      TokenNeverRemoved(m, init, Run(m, init).value);
    }
  }

  /** The pattern of the demo program: once `EnsureValidToken` has returned,
      `ApplyToRequest` sets the Authorization header, however far the loop
      has moved on since. */
  lemma EnsureThenApplySetsHeader(
    opts: seq<ManagerOption>, es: seq<Event>, m: Manager, g: nat,
    more: seq<Event>, m': Manager, req: Header)
    requires Run(NewTokenManager(opts), es) == Some(m)
    requires EnsureValidToken(m, g).Returned?
    requires Run(m, more) == Some(m')
    ensures AuthorizationKey in ApplyToRequest(m', req)
    ensures ApplyToRequest(m', req)[AuthorizationKey] == [GetAuthorizationHeader(m')]
  {
    NoFalseReadiness(opts, es, m, g);
    TokenNeverRemoved(m, more, m');
  }

  /** The event the loop sees when its provider is the client-credentials
      provider: an error is a failed acquisition, a token a successful one.
      That provider never returns a nil token with a nil error. */
  function ProviderEvent(r: Result<TokenResponse, TokenError>): (e: Event)
    ensures e.AcquireOk? <==> r.Success?
    ensures e.AcquireOk? ==> e.token == r.value
  {
    match r
    case Success(t) => AcquireOk(t)
    case Failure(_) => AcquireFailed
  }

  /** One acquisition by the client-credentials provider: a successful
      request stores exactly the decoded token and closes the gate; any
      failed request keeps the stored token and gate and pauses 5 s. */
  lemma ClientCredentialsAttempt(
    m: Manager,
    p: Provider,
    order: seq<string>,
    transport: Request -> Exchange,
    decode: string -> Result<TokenResponse, string>)
    requires m.phase.Acquiring?
    requires IsRangeOrder(order, p.extraParams)
    ensures var r := GetNewToken(p, order, transport, decode);
      var m' := Step(m, ProviderEvent(r));
      && (r.Success? ==> m'.current == Some(r.value) && m'.gate.closed)
      && (r.Failure? ==> m'.current == m.current && m'.gate == m.gate && m'.phase == RetryPause(RetryDelay))
  {
  }

  /** The loop replaces a gate only after closing it: in a reachable state
      a refresh wait always has a closed gate, so a timer that moves to a
      new generation leaves every older one closed. While acquiring, the
      gate is always open, so the "already closed" branch of the signal is
      never taken. */
  lemma GateClosedBeforeReplaced(opts: seq<ManagerOption>, es: seq<Event>, m: Manager)
    requires Run(NewTokenManager(opts), es) == Some(m)
    ensures m.phase.Waiting? ==> m.gate.closed
    ensures m.phase.Acquiring? ==> !m.gate.closed
    ensures !m.phase.Acquiring? ==>
      Step(m, TimerElapsed).gate.generation > m.gate.generation ==> m.gate.closed
  {
    Reachable(opts, es, m);
  }

  /** A caller waiting on gate `g`, taken from a state whose refresh wait
      (if any) has a closed gate, is either already released, or still
      faces that same gate while the loop is not in its refresh wait. Once
      any acquisition in the run succeeds, the caller is released. */
  lemma {:induction false} WaiterProgress(m: Manager, more: seq<Event>, m': Manager, g: nat)
    requires Run(m, more) == Some(m')
    requires g == m.gate.generation
    requires m.phase.Waiting? ==> m.gate.closed
    ensures Released(m', g) || (m'.gate == m.gate && !m'.phase.Waiting?)
    ensures forall i | 0 <= i < |more| :: more[i].AcquireOk? ==> Released(m', g)
    decreases |more|
  {
    if |more| > 0 {
      var init := more[..|more| - 1];
      var e := more[|more| - 1];
      var prev := Run(m, init).value;
      WaiterProgress(m, init, prev, g);
      if Released(prev, g) {
        ReleaseIsPermanent(prev, e, g);
      }
      forall i | 0 <= i < |more| && more[i].AcquireOk?
        ensures Released(m', g)
      {
        if i < |init| {
          assert init[i] == more[i];
        }
      }
    }
  }

  /** The positive half of readiness: a caller that starts waiting in a
      reachable state is released as soon as a later acquisition succeeds,
      and stays released. */
  lemma WaiterReleasedBySuccess(
    opts: seq<ManagerOption>, es: seq<Event>, m: Manager,
    more: seq<Event>, m': Manager, i: nat)
    requires Run(NewTokenManager(opts), es) == Some(m)
    requires Run(m, more) == Some(m')
    requires i < |more| && more[i].AcquireOk?
    ensures Released(m', WaitForToken(m))
    ensures EnsureValidToken(m', WaitForToken(m)) == Returned(None)
  {
    Reachable(opts, es, m);
    WaiterProgress(m, more, m', WaitForToken(m));
  }
}
