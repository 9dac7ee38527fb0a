/** The token manager's refresh loop as a state machine. Each iteration of
    the loop is cut into steps, one per event the loop reacts to: the
    provider failing, the provider returning a token, and a sleep ending.
    The goroutine, the mutex and the timers are not modelled; an event is
    the moment the corresponding blocking call returns. */
module Lifecycle {
  import opened Wrappers
  import opened Durations
  import opened Token
  import opened Config

  /** The readiness channel. Each `make(chan struct{})` is a new generation;
      closing it releases everyone waiting on that generation. */
  datatype Gate = Gate(generation: nat, closed: bool)

  /** Where the loop is: calling the provider, sleeping after a failure, or
      sleeping until the next refresh. Each sleep carries its duration. */
  datatype Phase = Acquiring | RetryPause(pause: Duration) | Waiting(delay: Duration)

  datatype Event = AcquireFailed | AcquireOk(token: TokenResponse) | TimerElapsed

  /** The manager. `callbackLog` lists the tokens the `onNewToken`
      callback has been called with, oldest first. */
  datatype Manager = Manager(
    config: Config,
    current: Option<TokenResponse>,
    gate: Gate,
    phase: Phase,
    callbackLog: seq<TokenResponse>)

  /** The pause after a failed acquisition. */
  const RetryDelay: Duration := 5 * Second
  /** The delay used when expiry minus buffer is already negative. */
  const ImminentRefreshDelay: Duration := 5 * Second

  /** A freshly constructed manager: options resolved, no token, an open
      gate of the first generation, about to call the provider. */
  function NewTokenManager(opts: seq<ManagerOption>): (m: Manager)
    ensures m.config == ApplyAll(Config(60 * Second, 59 * Minute, None), opts)
    ensures m.current.None? && !m.gate.closed && m.phase == Acquiring && m.callbackLog == []
  {
    Manager(Resolve(opts), None, Gate(0, false), Acquiring, [])
  }

  /** Closing the channel if it is not closed yet. */
  function Signal(g: Gate): (g': Gate)
    ensures g'.closed && g'.generation == g.generation
  {
    if g.closed then g else g.(closed := true)
  }

  /** Signalling an already signalled gate changes nothing. */
  lemma SignalIdempotent(g: Gate)
    ensures Signal(Signal(g)) == Signal(g)
    ensures g.closed ==> Signal(g) == g
  {
  }

  /** The channel made for the next token. */
  function FreshGate(g: Gate): (g': Gate)
    ensures !g'.closed && g'.generation == g.generation + 1
  {
    Gate(g.generation + 1, false)
  }

  /** How long to wait before fetching the next token. */
  function RenewalDelay(c: Config, t: TokenResponse): (d: Duration)
    ensures d >= 0
  {
    if c.refreshTime > 0 then c.refreshTime
    else
      var byExpiry := t.expiresIn * Second - c.bufferTime;
      if byExpiry < 0 then ImminentRefreshDelay else byExpiry
  }

  /** A positive refresh time is used as is: the token's reported expiry
      and the buffer play no part. */
  lemma FixedIntervalIgnoresToken(c: Config, t1: TokenResponse, t2: TokenResponse)
    requires c.refreshTime > 0
    ensures RenewalDelay(c, t1) == c.refreshTime
    ensures RenewalDelay(c, t1) == RenewalDelay(c, t2)
  {
  }

  /** Without a positive refresh time the delay is expiry minus buffer,
      except that a negative difference becomes 5 s; a difference of
      exactly zero is kept. */
  lemma ExpiryBasedDelay(c: Config, t: TokenResponse)
    requires c.refreshTime <= 0
    ensures t.expiresIn * Second - c.bufferTime >= 0 ==> RenewalDelay(c, t) == t.expiresIn * Second - c.bufferTime
    ensures t.expiresIn * Second - c.bufferTime < 0 ==> RenewalDelay(c, t) == 5 * Second
    ensures t.expiresIn * Second == c.bufferTime ==> RenewalDelay(c, t) == 0
  {
  }

  /** With an expiry-based schedule and a non-negative buffer, a token that
      lives at least as long as the buffer is renewed a full buffer before
      it expires. */
  lemma ExpiryScheduleRenewsBeforeExpiry(c: Config, t: TokenResponse)
    requires c.refreshTime <= 0 && c.bufferTime >= 0
    requires t.expiresIn * Second >= c.bufferTime
    ensures RenewalDelay(c, t) + c.bufferTime == t.expiresIn * Second
    ensures RenewalDelay(c, t) <= t.expiresIn * Second
  {
  }

  /** The floor makes the expiry-based schedule non-monotone: with the
      default buffer, a 60 s token is renewed at once while a 59 s token
      waits 5 s, longer than it lives after the buffer. */
  lemma ExpiryScheduleNotMonotone()
    ensures
      var c := Config(60 * Second, 0, None);
      && RenewalDelay(c, TokenResponse("a", 60, "Bearer", "")) == 0
      && RenewalDelay(c, TokenResponse("a", 59, "Bearer", "")) == 5 * Second
  {
  }

  /** Which events the loop can see in each phase. */
  predicate Enabled(p: Phase, e: Event) {
    match e
    case AcquireFailed => p.Acquiring?
    case AcquireOk(_) => p.Acquiring?
    case TimerElapsed => !p.Acquiring?
  }

  /** The provider failed: log, then sleep 5 s. Nothing readers can see
      changes. */
  function OnAcquireFailed(m: Manager): (m': Manager)
    requires m.phase.Acquiring?
    ensures m'.current == m.current && m'.gate == m.gate && m'.callbackLog == m.callbackLog
    ensures m'.config == m.config
    ensures m'.phase == RetryPause(5 * Second)
  {
    m.(phase := RetryPause(RetryDelay))
  }

  /** The provider returned `t`: store it, close the gate, call the
      callback if there is one, and schedule the next refresh. */
  function OnAcquireOk(m: Manager, t: TokenResponse): (m': Manager)
    requires m.phase.Acquiring?
    ensures m'.current == Some(t)
    ensures m'.gate.closed && m'.gate.generation == m.gate.generation
    ensures m.config.onNewToken.Some? ==> m'.callbackLog == m.callbackLog + [t]
    ensures m.config.onNewToken.None? ==> m'.callbackLog == m.callbackLog
    ensures m'.config == m.config
    ensures m'.phase == Waiting(RenewalDelay(m.config, t)) && m'.phase.delay >= 0
  {
    var log := if m.config.onNewToken.Some? then m.callbackLog + [t] else m.callbackLog;
    Manager(m.config, Some(t), Signal(m.gate), Waiting(RenewalDelay(m.config, t)), log)
  }

  /** A sleep ended. After the retry pause the loop simply calls the
      provider again; after the refresh wait it first installs a fresh,
      open gate. The stored token stays readable either way. */
  function OnTimerElapsed(m: Manager): (m': Manager)
    requires !m.phase.Acquiring?
    ensures m'.current == m.current && m'.callbackLog == m.callbackLog && m'.config == m.config
    ensures m'.phase == Acquiring
    ensures m.phase.RetryPause? ==> m'.gate == m.gate
    ensures m.phase.Waiting? ==> m'.gate == Gate(m.gate.generation + 1, false)
  {
    match m.phase
    case RetryPause(_) => m.(phase := Acquiring)
    case Waiting(_) => m.(gate := FreshGate(m.gate), phase := Acquiring)
  }

  /** One step of the loop. The configuration is fixed after construction
      and a token, once stored, is never removed. */
  function Step(m: Manager, e: Event): (m': Manager)
    requires Enabled(m.phase, e)
    ensures m'.config == m.config
    ensures m.current.Some? ==> m'.current.Some?
    ensures m'.gate.generation >= m.gate.generation
  {
    match e
    case AcquireFailed => OnAcquireFailed(m)
    case AcquireOk(t) => OnAcquireOk(m, t)
    case TimerElapsed => OnTimerElapsed(m)
  }

  /** A failed acquisition sleeps 5 s and then brings the loop back to the
      provider with the token, gate and callback log untouched. */
  lemma FailureThenRetryKeepsState(m: Manager)
    requires m.phase.Acquiring?
    ensures Step(m, AcquireFailed).phase == RetryPause(5 * Second)
    ensures Step(Step(m, AcquireFailed), TimerElapsed) == m
  {
  }

  /** A caller that read gate `g` (by calling `WaitForToken`) is released
      in state `m` when that channel has been closed: an older generation
      is always closed, the current one when its token has landed. */
  predicate Released(m: Manager, g: nat) {
    g < m.gate.generation || (g == m.gate.generation && m.gate.closed)
  }

  /** A released caller stays released, whatever the loop does next. */
  lemma ReleaseIsPermanent(m: Manager, e: Event, g: nat)
    requires Enabled(m.phase, e)
    requires Released(m, g)
    ensures Released(Step(m, e), g)
  {
  }

  /** A caller that starts waiting just after a refresh timer fired is not
      released by the token still stored from the previous generation. */
  lemma RenewalBlocksNewWaiters(m: Manager)
    requires m.phase.Waiting? && m.current.Some?
    ensures Step(m, TimerElapsed).current == m.current
    ensures !Released(Step(m, TimerElapsed), Step(m, TimerElapsed).gate.generation)
  {
  }
}
