/**
 * What the runtime manager's start and stop promise, stated over the
 * transition functions that the class QuarkusPlaywrightManager is proved to
 * follow.
 */
module RuntimeProperties {
  import opened Wrappers
  import opened Strings
  import opened Playwright
  import opened Environment
  import opened RuntimeConfig
  import opened RuntimeManager

  /** start, once configured, calls the library in a fixed order: create with
      the composed environment, launch the selected browser on that instance
      with the same environment and the options copied from the configuration,
      open a context on that browser, then only timeout settings on that
      context. */
  lemma StartCallOrder(s: ManagerState, ambient: map<string, string>, lib: Collaborators, parseMillis: string -> Option<int>)
    requires s.options.Some?
    ensures var o, t := s.options.value, StartTransition(s, ambient, lib, parseMillis);
      var env := ComposeEnv(ambient, o.verbose, o.debug);
      && |t.calls| >= 3
      && t.calls[0] == Create(env)
      && t.calls[1] == Launch(lib.created, BrowserFor(o.browser),
                              LaunchOptions(o.channel, o.chromiumSandbox, o.headless, o.slowMo, env, o.args))
      && t.calls[2] == NewContext(lib.launched, ContextOptionsFor(o))
      && forall i :: 3 <= i < |t.calls| ==>
           (t.calls[i].SetDefaultNavigationTimeout? || t.calls[i].SetDefaultTimeout?) && t.calls[i].context == lib.newContext
  {
  }

  /** The context options: the video directory exactly when recordVideoDir is
      not blank, offline always, locale and user agent exactly when not blank,
      and never a time zone or a viewport. */
  lemma ContextOptionsSettings(o: WithPlaywright)
    ensures var opts, c := ContextOptionsFor(o), o.browserContext;
      && (opts.recordVideoDir.Some? <==> IsNotBlank(o.recordVideoDir))
      && (opts.recordVideoDir.Some? ==> opts.recordVideoDir.value == o.recordVideoDir)
      && opts.offline == Some(c.offline)
      && (opts.locale.Some? <==> IsNotBlank(c.locale))
      && (opts.locale.Some? ==> opts.locale.value == c.locale)
      && (opts.userAgent.Some? <==> IsNotBlank(c.userAgent))
      && (opts.userAgent.Some? ==> opts.userAgent.value == c.userAgent)
      && opts.timezoneId.None? && opts.viewportSize.None?
  {
  }

  /** Whether a timeout text is set and reads as a duration. */
  predicate Parses(text: string, parseMillis: string -> Option<int>) {
    IsNotBlank(text) && parseMillis(text).Some?
  }

  /** Whether a timeout text is set but does not read as a duration. */
  predicate Rejected(text: string, parseMillis: string -> Option<int>) {
    IsNotBlank(text) && parseMillis(text).None?
  }

  /** applyConfig sets the navigation timeout exactly when its text is not
      blank and parses, to the parsed milliseconds; it sets the default
      timeout likewise unless the navigation text already failed; each is set
      at most once and the navigation timeout comes first; it fails exactly when a text it reads
      does not parse, reporting that text. */
  lemma TimeoutSettings(config: BrowserContextConfig, context: ContextHandle, parseMillis: string -> Option<int>)
    ensures var a, nav, other := TimeoutCalls(config, context, parseMillis), config.defaultNavigationTimeout, config.defaultTimeout;
      && (forall m :: SetDefaultNavigationTimeout(context, m) in a.calls <==> Parses(nav, parseMillis) && parseMillis(nav) == Some(m))
      && (forall m :: SetDefaultTimeout(context, m) in a.calls <==>
            !Rejected(nav, parseMillis) && Parses(other, parseMillis) && parseMillis(other) == Some(m))
      && |a.calls| == (if Parses(nav, parseMillis) then 1 else 0)
                      + (if !Rejected(nav, parseMillis) && Parses(other, parseMillis) then 1 else 0)
      && (forall i :: 0 <= i < |a.calls| ==> a.calls[i].context == context)
      && (forall i, j :: 0 <= i < |a.calls| && 0 <= j < |a.calls| && a.calls[i].SetDefaultTimeout? && a.calls[j].SetDefaultNavigationTimeout? ==> j < i)
      && a.outcome == if Rejected(nav, parseMillis) then Fail(DurationRejected(nav))
                      else if Rejected(other, parseMillis) then Fail(DurationRejected(other))
                      else Pass
  {
  }

  /** start returns the empty map exactly when the manager is configured and
      every timeout text it reads parses; before init it throws. */
  lemma StartResult(s: ManagerState, ambient: map<string, string>, lib: Collaborators, parseMillis: string -> Option<int>)
    ensures var t := StartTransition(s, ambient, lib, parseMillis);
      && (t.result.Success? <==>
            s.options.Some?
            && !Rejected(s.options.value.browserContext.defaultNavigationTimeout, parseMillis)
            && !Rejected(s.options.value.browserContext.defaultTimeout, parseMillis))
      && (t.result.Success? ==> t.result.value == map[])
      && (s.options.None? ==> t.result == Failure(NullPointer))
  {
  }

  /** A start that fails on a timeout text keeps the instance, browser and
      context it opened in its fields and closes none of them: nothing is
      rolled back. */
  lemma StartDoesNotRollBack(s: ManagerState, ambient: map<string, string>, lib: Collaborators, parseMillis: string -> Option<int>)
    requires s.options.Some?
    ensures var t := StartTransition(s, ambient, lib, parseMillis);
      && t.state == s.(playwright := Some(lib.created), playwrightBrowser := Some(lib.launched), playwrightContext := Some(lib.newContext))
      && forall i :: 0 <= i < |t.calls| ==> !t.calls[i].CloseContext? && !t.calls[i].ClosePlaywright?
  {
    StartCallOrder(s, ambient, lib, parseMillis);
  }

  /** stop closes exactly the context and the instance the manager holds,
      the context first; it nulls both and leaves the options and the browser
      reference as they were. */
  lemma StopClosesHeldHandles(s: ManagerState)
    ensures var t := StopTransition(s);
      && (forall c :: CloseContext(c) in t.calls <==> s.playwrightContext == Some(c))
      && (forall p :: ClosePlaywright(p) in t.calls <==> s.playwright == Some(p))
      && (forall i :: 0 <= i < |t.calls| ==> t.calls[i].CloseContext? || t.calls[i].ClosePlaywright?)
      && |t.calls| == (if s.playwrightContext.Some? then 1 else 0) + (if s.playwright.Some? then 1 else 0)
      && (forall i, j :: 0 <= i < |t.calls| && 0 <= j < |t.calls| && t.calls[i].ClosePlaywright? && t.calls[j].CloseContext? ==> j < i)
      && InjectOf(t.state) == Injected(None, None, s.playwrightBrowser)
      && t.state.options == s.options
  {
  }

  /** A second stop, like a stop before any start, makes no call and changes nothing. */
  lemma StopIdempotent(s: ManagerState)
    ensures var once := StopTransition(s);
      StopTransition(once.state) == Stopped(once.state, [])
    ensures StopTransition(Initial) == Stopped(Initial, [])
  {
  }

  /** Whatever start's outcome once configured, the stop that follows closes
      the context and then the instance that start opened. */
  lemma StopAfterStart(s: ManagerState, ambient: map<string, string>, lib: Collaborators, parseMillis: string -> Option<int>)
    requires s.options.Some?
    ensures StopTransition(StartTransition(s, ambient, lib, parseMillis).state).calls
            == [CloseContext(lib.newContext), ClosePlaywright(lib.created)]
  {
  }

  /** stop called n times in a row. */
  function StopTimes(s: ManagerState, n: nat): Stopped
    decreases n
  {
    if n == 0 then Stopped(s, [])
    else
      var first := StopTransition(s);
      var rest := StopTimes(first.state, n - 1);
      Stopped(rest.state, first.calls + rest.calls)
  }

  /** Any number of stops does what one stop does: no close is repeated. */
  lemma {:induction false} RepeatedStop(s: ManagerState, n: nat)
    requires n >= 1
    ensures StopTimes(s, n) == StopTransition(s)
    decreases n
  {
    if n > 1 {
      var first := StopTransition(s);
      RepeatedStop(first.state, n - 1);
      StopIdempotent(s);
      assert first.calls + [] == first.calls;
    }
  }

  /** The calls the test framework can make on a manager. */
  datatype Op =
    | InitOp(withPlaywright: WithPlaywright)
    | InitArgsOp(initArgs: map<string, string>)
    | StartOp(ambient: map<string, string>, lib: Collaborators)
    | StopOp
    | InjectOp

  /** One call's effect on the fields; init(Map) and inject leave them as they are. */
  function Step(s: ManagerState, op: Op, parseMillis: string -> Option<int>): ManagerState {
    match op
    case InitOp(w) => s.(options := Some(w))
    case InitArgsOp(_) => s
    case StartOp(ambient, lib) => StartTransition(s, ambient, lib, parseMillis).state
    case StopOp => StopTransition(s).state
    case InjectOp => s
  }

  /** The fields after a sequence of calls. */
  function Run(s: ManagerState, ops: seq<Op>, parseMillis: string -> Option<int>): ManagerState
    decreases |ops|
  {
    if ops == [] then s else Run(Step(s, ops[0], parseMillis), ops[1..], parseMillis)
  }

  /** The collaborators of every start in a sequence of calls. */
  function StartedWith(ops: seq<Op>): set<Collaborators>
    decreases |ops|
  {
    if ops == [] then {}
    else (if ops[0].StartOp? then {ops[0].lib} else {}) + StartedWith(ops[1..])
  }

  /** A held context is held together with the instance and browser of the
      same start, one of `libs`; and before init no context is held (a start
      before init may replace the instance but never sets a context). */
  predicate SessionTogether(s: ManagerState, libs: set<Collaborators>) {
    && (s.options.None? ==> s.playwrightContext.None?)
    && (s.playwrightContext.Some? ==>
          s.playwright.Some? && s.playwrightBrowser.Some?
          && Collaborators(s.playwright.value, s.playwrightBrowser.value, s.playwrightContext.value) in libs)
  }

  /** Every call keeps SessionTogether, counting a start's collaborators once
      it has run: a configured start sets all three handles from one call,
      a start before init cannot meet a held context, and stop nulls the
      context first. */
  lemma StepKeepsSessionTogether(s: ManagerState, op: Op, parseMillis: string -> Option<int>, libs: set<Collaborators>)
    requires SessionTogether(s, libs)
    ensures SessionTogether(Step(s, op, parseMillis), libs + StartedWith([op]))
  {
    assert StartedWith([op]) == if op.StartOp? then {op.lib} else {};
  }

  /** Any sequence of calls keeps SessionTogether, the starts it ran added. */
  lemma {:induction false} RunKeepsSessionTogether(s: ManagerState, ops: seq<Op>, parseMillis: string -> Option<int>, libs: set<Collaborators>)
    requires SessionTogether(s, libs)
    ensures SessionTogether(Run(s, ops, parseMillis), libs + StartedWith(ops))
    decreases |ops|
  {
    if ops != [] {
      StepKeepsSessionTogether(s, ops[0], parseMillis, libs);
      RunKeepsSessionTogether(Step(s, ops[0], parseMillis), ops[1..], parseMillis, libs + StartedWith([ops[0]]));
      assert StartedWith([ops[0]]) + StartedWith(ops[1..]) == StartedWith(ops) by {
        assert [ops[0]][1..] == [];
      }
      assert libs + StartedWith([ops[0]]) + StartedWith(ops[1..]) == libs + StartedWith(ops);
    }
  }

  /** A collaborator set of StartedWith belongs to one start call of the sequence. */
  lemma {:induction false} StartedWithHasIndex(ops: seq<Op>, lib: Collaborators)
    requires lib in StartedWith(ops)
    ensures exists i :: 0 <= i < |ops| && ops[i].StartOp? && ops[i].lib == lib
    decreases |ops|
  {
    if !(ops[0].StartOp? && ops[0].lib == lib) {
      StartedWithHasIndex(ops[1..], lib);
      var i :| 0 <= i < |ops[1..]| && ops[1..][i].StartOp? && ops[1..][i].lib == lib;
      assert ops[i + 1] == ops[1..][i];
    }
  }

  /** Whatever the framework calls, in whatever order, on a fresh manager: a
      held context is held with an instance and a browser, and all three are
      the instance, browser and context of one and the same start call. */
  lemma HeldSessionComesFromOneStart(ops: seq<Op>, parseMillis: string -> Option<int>)
    ensures var s := Run(Initial, ops, parseMillis);
      s.playwrightContext.Some? ==>
        && s.playwright.Some? && s.playwrightBrowser.Some?
        && exists i :: 0 <= i < |ops| && ops[i].StartOp?
             && ops[i].lib == Collaborators(s.playwright.value, s.playwrightBrowser.value, s.playwrightContext.value)
  {
    RunKeepsSessionTogether(Initial, ops, parseMillis, {});
    var s := Run(Initial, ops, parseMillis);
    if s.playwrightContext.Some? {
      assert {} + StartedWith(ops) == StartedWith(ops);
      StartedWithHasIndex(ops, Collaborators(s.playwright.value, s.playwrightBrowser.value, s.playwrightContext.value));
    }
  }
}
