/** Construction-time configuration of the token manager: the defaults and
    the functional options applied to them in order. */
module Config {
  import opened Wrappers
  import opened Durations

  /** The identity of an `onNewToken` callback. Its code is not modelled;
      the manager only records the tokens it was called with. */
  datatype Callback = Callback(name: string)

  /** The fields the options can change. */
  datatype Config = Config(
    bufferTime: Duration,
    refreshTime: Duration,
    onNewToken: Option<Callback>)

  /** A functional option. `WithOnNewToken(None)` stands for passing a nil
      function, which clears the callback. */
  datatype ManagerOption =
    | WithBufferTime(buffer: Duration)
    | WithRefreshTime(refresh: Duration)
    | WithOnNewToken(callback: Option<Callback>)

  const DefaultBufferTime: Duration := 60 * Second
  const DefaultRefreshTime: Duration := 59 * Minute

  /** The fields as the constructor sets them before any option runs. */
  function Defaults(): (c: Config)
    ensures c.bufferTime == 60_000_000_000 && c.refreshTime == 3_540_000_000_000
    ensures c.onNewToken.None?
  {
    Config(DefaultBufferTime, DefaultRefreshTime, None)
  }

  /** Running one option: it writes its own field and no other. */
  function Apply(c: Config, o: ManagerOption): (c': Config)
    ensures o.WithBufferTime? ==> c' == c.(bufferTime := o.buffer)
    ensures o.WithRefreshTime? ==> c' == c.(refreshTime := o.refresh)
    ensures o.WithOnNewToken? ==> c' == c.(onNewToken := o.callback)
  {
    match o
    case WithBufferTime(d) => c.(bufferTime := d)
    case WithRefreshTime(d) => c.(refreshTime := d)
    case WithOnNewToken(cb) => c.(onNewToken := cb)
  }

  /** The constructor's loop: options run left to right. */
  function ApplyAll(c: Config, opts: seq<ManagerOption>): Config
    decreases |opts|
  {
    if |opts| == 0 then c else ApplyAll(Apply(c, opts[0]), opts[1..])
  }

  /** The configuration `NewTokenManager` ends up with. */
  function Resolve(opts: seq<ManagerOption>): Config {
    ApplyAll(Defaults(), opts)
  }

  // Reference definitions: the value of the last option in the list that
  // touches a field, scanning from the right.

  function LastBufferTime(opts: seq<ManagerOption>): Option<Duration>
    decreases |opts|
  {
    if |opts| == 0 then None
    else if opts[|opts| - 1].WithBufferTime? then Some(opts[|opts| - 1].buffer)
    else LastBufferTime(opts[..|opts| - 1])
  }

  function LastRefreshTime(opts: seq<ManagerOption>): Option<Duration>
    decreases |opts|
  {
    if |opts| == 0 then None
    else if opts[|opts| - 1].WithRefreshTime? then Some(opts[|opts| - 1].refresh)
    else LastRefreshTime(opts[..|opts| - 1])
  }

  function LastCallback(opts: seq<ManagerOption>): Option<Option<Callback>>
    decreases |opts|
  {
    if |opts| == 0 then None
    else if opts[|opts| - 1].WithOnNewToken? then Some(opts[|opts| - 1].callback)
    else LastCallback(opts[..|opts| - 1])
  }

  /** Running a list followed by one more option is running that option on
      the list's result. */
  lemma {:induction false} ApplyAllSnoc(c: Config, opts: seq<ManagerOption>, o: ManagerOption)
    ensures ApplyAll(c, opts + [o]) == Apply(ApplyAll(c, opts), o)
    decreases |opts|
  {
    if |opts| > 0 {
      assert (opts + [o])[1..] == opts[1..] + [o];
      ApplyAllSnoc(Apply(c, opts[0]), opts[1..], o);
    }
  }

  /** Options compose: running `a + b` is running `b` after `a`. */
  lemma {:induction false} ApplyAllAppend(c: Config, a: seq<ManagerOption>, b: seq<ManagerOption>)
    ensures ApplyAll(c, a + b) == ApplyAll(ApplyAll(c, a), b)
    decreases |a|
  {
    if |a| == 0 {
      assert a + b == b;
    } else {
      assert (a + b)[0] == a[0];
      assert (a + b)[1..] == a[1..] + b;
      ApplyAllAppend(Apply(c, a[0]), a[1..], b);
    }
  }

  /** The last option touching a field decides it; a field no option
      touches keeps its starting value. */
  lemma {:induction false} LastOptionWins(c: Config, opts: seq<ManagerOption>)
    ensures ApplyAll(c, opts).bufferTime == LastBufferTime(opts).GetOr(c.bufferTime)
    ensures ApplyAll(c, opts).refreshTime == LastRefreshTime(opts).GetOr(c.refreshTime)
    ensures ApplyAll(c, opts).onNewToken == LastCallback(opts).GetOr(c.onNewToken)
    decreases |opts|
  {
    if |opts| > 0 {
      var init := opts[..|opts| - 1];
      assert opts == init + [opts[|opts| - 1]];
      ApplyAllSnoc(c, init, opts[|opts| - 1]);
      LastOptionWins(c, init);
    }
  }

  /** The same in index form: if `opts[i]` sets the buffer time and no later
      option does, the manager's buffer time is that value (likewise for the
      other two fields). */
  lemma LastIndexWins(opts: seq<ManagerOption>, i: nat)
    requires i < |opts|
    ensures opts[i].WithBufferTime? && (forall j | i < j < |opts| :: !opts[j].WithBufferTime?)
      ==> Resolve(opts).bufferTime == opts[i].buffer
    ensures opts[i].WithRefreshTime? && (forall j | i < j < |opts| :: !opts[j].WithRefreshTime?)
      ==> Resolve(opts).refreshTime == opts[i].refresh
    ensures opts[i].WithOnNewToken? && (forall j | i < j < |opts| :: !opts[j].WithOnNewToken?)
      ==> Resolve(opts).onNewToken == opts[i].callback
  {
    LastOptionWins(Defaults(), opts);
    LastWriterIndex(opts, i);
  }

  lemma {:induction false} LastWriterIndex(opts: seq<ManagerOption>, i: nat)
    requires i < |opts|
    ensures opts[i].WithBufferTime? && (forall j | i < j < |opts| :: !opts[j].WithBufferTime?)
      ==> LastBufferTime(opts) == Some(opts[i].buffer)
    ensures opts[i].WithRefreshTime? && (forall j | i < j < |opts| :: !opts[j].WithRefreshTime?)
      ==> LastRefreshTime(opts) == Some(opts[i].refresh)
    ensures opts[i].WithOnNewToken? && (forall j | i < j < |opts| :: !opts[j].WithOnNewToken?)
      ==> LastCallback(opts) == Some(opts[i].callback)
    decreases |opts|
  {
    if i < |opts| - 1 {
      var init := opts[..|opts| - 1];
      assert init[i] == opts[i];
      LastWriterIndex(init, i);
    }
  }

  /** With no options at all the manager keeps every default. */
  lemma NoOptionsGiveDefaults()
    ensures Resolve([]) == Config(60 * Second, 59 * Minute, None)
  {
  }
}
