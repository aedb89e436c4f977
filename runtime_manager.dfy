/**
 * The runtime QuarkusPlaywrightManager: the per-test-class lifecycle of one
 * Playwright instance, one browser and one browsing context.
 *
 * The functions StartTransition and StopTransition say what start and stop do
 * to the manager's four fields and which library calls they make; the class
 * QuarkusPlaywrightManager does the same step by step and is proved to agree
 * with them; the lemmas state the lifecycle's properties over the functions.
 */
module RuntimeManager {
  import opened Wrappers
  import opened Strings
  import opened Playwright
  import opened Environment
  import opened RuntimeConfig

  /** The exceptions the manager's own code can raise. */
  datatype Error =
    | IllegalState(message: string)  // init(Map) is refused
    | NullPointer                    // start before init: options is null
    | DurationRejected(text: string) // a timeout text whose duration does not parse or overflows in toMillis

  const InitArgsMessage := "Use @WithPlaywright() annotation instead"

  /** The manager's four fields; None is a null reference. */
  datatype ManagerState = ManagerState(
    options: Option<WithPlaywright>,
    playwright: Option<PlaywrightHandle>,
    playwrightContext: Option<ContextHandle>,
    playwrightBrowser: Option<BrowserHandle>)

  /** A freshly constructed manager: every field null. */
  const Initial := ManagerState(None, None, None, None)

  /** What start leaves behind: the new fields, the library calls made, and the
      returned map or the exception thrown. */
  datatype Started = Started(state: ManagerState, calls: seq<Call>, result: Result<map<string, string>, Error>)

  /** What stop leaves behind: the new fields and the close calls made. */
  datatype Stopped = Stopped(state: ManagerState, calls: seq<Call>)

  /** What the timeout settings do to a context: the calls made, and whether a
      Duration.parse failed. */
  datatype Applied = Applied(calls: seq<Call>, outcome: Outcome<Error>)

  /** The three references inject offers: context, Playwright, browser. */
  datatype Injected = Injected(
    context: Option<ContextHandle>,
    playwright: Option<PlaywrightHandle>,
    browser: Option<BrowserHandle>)

  /** browser(playwright, browser): FIREFOX and WEBKIT pick their own type,
      every other value falls back to Chromium. */
  function BrowserFor(browser: Browser): (t: BrowserType)
    ensures t == Firefox <==> browser == FIREFOX
    ensures t == Webkit <==> browser == WEBKIT
    ensures t == Chromium <==> browser != FIREFOX && browser != WEBKIT
  {
    match browser
    case FIREFOX => Firefox
    case WEBKIT => Webkit
    case _ => Chromium
  }

  /** The launch options start builds. */
  function LaunchOptionsFor(o: WithPlaywright, env: map<string, string>): LaunchOptions {
    LaunchOptions(o.channel, o.chromiumSandbox, o.headless, o.slowMo, env, o.args)
  }

  /** The context options start builds: the video directory, then
      applyBrowserContextConfig. */
  function ContextOptionsFor(o: WithPlaywright): NewContextOptions {
    var c := o.browserContext;
    NewContextOptions(
      recordVideoDir := if IsNotBlank(o.recordVideoDir) then Some(o.recordVideoDir) else None,
      offline := Some(c.offline),
      locale := if IsNotBlank(c.locale) then Some(c.locale) else None,
      userAgent := if IsNotBlank(c.userAgent) then Some(c.userAgent) else None)
  }

  /** applyConfig: the navigation timeout, then the default timeout, each only
      when its text is not blank and each in the milliseconds `parseMillis`
      reads from it (Duration.parse(text).toMillis(); None when either throws:
      a DateTimeParseException for a malformed text, an ArithmeticException
      for a duration too long to count in milliseconds). */
  function TimeoutCalls(config: BrowserContextConfig, context: ContextHandle, parseMillis: string -> Option<int>): Applied {
    var navigation := config.defaultNavigationTimeout;
    var other := config.defaultTimeout;
    if IsNotBlank(navigation) && parseMillis(navigation).None? then
      Applied([], Fail(DurationRejected(navigation)))
    else
      var first := if IsNotBlank(navigation) then [SetDefaultNavigationTimeout(context, parseMillis(navigation).value)] else [];
      if IsNotBlank(other) && parseMillis(other).None? then
        Applied(first, Fail(DurationRejected(other)))
      else
        var second := if IsNotBlank(other) then [SetDefaultTimeout(context, parseMillis(other).value)] else [];
        Applied(first + second, Pass)
  }

  /** start, given the process environment `ambient` and what the library
      returns. Before init, options is null: the `&&` tests read it only when
      DEBUG (then PWDEBUG) is absent, so with both present Playwright.create
      still runs before the null options is read for the channel. */
  function StartTransition(s: ManagerState, ambient: map<string, string>, lib: Collaborators,
                           parseMillis: string -> Option<int>): Started
  {
    match s.options
    case None =>
      if DebugKey in ambient && InspectorKey in ambient then
        Started(s.(playwright := Some(lib.created)), [Create(ambient)], Failure(NullPointer))
      else
        Started(s, [], Failure(NullPointer))
    case Some(o) =>
      var env := ComposeEnv(ambient, o.verbose, o.debug);
      var applied := TimeoutCalls(o.browserContext, lib.newContext, parseMillis);
      Started(
        s.(playwright := Some(lib.created), playwrightBrowser := Some(lib.launched), playwrightContext := Some(lib.newContext)),
        [Create(env),
         Launch(lib.created, BrowserFor(o.browser), LaunchOptionsFor(o, env)),
         NewContext(lib.launched, ContextOptionsFor(o))] + applied.calls,
        match applied.outcome
        case Pass => Success(map[])
        case Fail(e) => Failure(e))
  }

  /** stop: close and null the context, then close and null the Playwright
      instance, each only if it is not null. The browser is neither closed nor
      nulled. */
  function StopTransition(s: ManagerState): Stopped {
    var closeContext := if s.playwrightContext.Some? then [CloseContext(s.playwrightContext.value)] else [];
    var closePlaywright := if s.playwright.Some? then [ClosePlaywright(s.playwright.value)] else [];
    Stopped(s.(playwrightContext := None, playwright := None), closeContext + closePlaywright)
  }

  /** inject: the current references, whatever they are. */
  function InjectOf(s: ManagerState): Injected {
    Injected(s.playwrightContext, s.playwright, s.playwrightBrowser)
  }

  class QuarkusPlaywrightManager {
    var options: Option<WithPlaywright>
    var playwright: Option<PlaywrightHandle>
    var playwrightContext: Option<ContextHandle>
    var playwrightBrowser: Option<BrowserHandle>
    /** Every call this manager has made on the Playwright library, oldest first. */
    ghost var calls: seq<Call>

    function State(): ManagerState
      reads this
    {
      ManagerState(options, playwright, playwrightContext, playwrightBrowser)
    }

    constructor ()
      ensures State() == Initial && calls == []
    {
      options, playwright, playwrightContext, playwrightBrowser := None, None, None, None;
      calls := [];
    }

    /** init(WithPlaywright): store the options and touch nothing else. */
    method Init(withPlaywright: WithPlaywright)
      modifies this
      ensures State() == old(State()).(options := Some(withPlaywright))
      ensures calls == old(calls)
    {
      options := Some(withPlaywright);
    }

    /** init(Map): always refused. */
    method InitArgs(initArgs: map<string, string>) returns (r: Outcome<Error>)
      ensures r == Fail(IllegalState(InitArgsMessage))
    {
      r := Fail(IllegalState(InitArgsMessage));
    }

    /** start: compose the environment, create Playwright, launch the browser,
        open the context, apply the timeouts, return an empty map. */
    method Start(ambient: map<string, string>, lib: Collaborators, parseMillis: string -> Option<int>)
      returns (r: Result<map<string, string>, Error>)
      modifies this
      ensures var t := StartTransition(old(State()), ambient, lib, parseMillis);
        State() == t.state && calls == old(calls) + t.calls && r == t.result
    {
      var composed := ComposeEnvironment(ambient, options);
      if composed.Failure? {
        return Failure(composed.error);
      }
      var env := composed.value;
      ghost var before := State();
      playwright := Some(lib.created);
      calls := calls + [Create(env)];
      if options.None? {
        assert env == ambient;
        assert StartTransition(before, ambient, lib, parseMillis) == Started(State(), [Create(env)], Failure(NullPointer));
        return Failure(NullPointer);
      }
      var o := options.value;
      ghost var created := calls;

      var launchOptions := LaunchOptions(o.channel, o.chromiumSandbox, o.headless, o.slowMo, env, o.args);
      playwrightBrowser := Some(lib.launched);
      calls := calls + [Launch(lib.created, BrowserFor(o.browser), launchOptions)];

      var contextOptions := BuildContextOptions(o);
      playwrightContext := Some(lib.newContext);
      calls := calls + [NewContext(lib.launched, contextOptions)];

      var applied := ApplyConfig(parseMillis);
      ghost var timeouts := TimeoutCalls(o.browserContext, lib.newContext, parseMillis);
      assert calls == created + [Launch(lib.created, BrowserFor(o.browser), LaunchOptionsFor(o, env)),
                                 NewContext(lib.launched, ContextOptionsFor(o))] + timeouts.calls;
      assert created == old(calls) + [Create(env)];
      r := match applied
        case Pass => Success(map[])
        case Fail(e) => Failure(e);
    }

    /** The first lines of start: copy the process environment and add DEBUG
        and PWDEBUG as the flags ask. Each flag is read only when its variable
        is absent, so before init (options null) this throws unless the
        process environment already sets both. */
    static method ComposeEnvironment(ambient: map<string, string>, options: Option<WithPlaywright>)
      returns (r: Result<map<string, string>, Error>)
      ensures options.Some? ==> r == Success(ComposeEnv(ambient, options.value.verbose, options.value.debug))
      ensures options.None? ==> r == if DebugKey in ambient && InspectorKey in ambient then Success(ambient) else Failure(NullPointer)
    {
      var env := ambient;
      if DebugKey !in env {
        if options.None? { return Failure(NullPointer); }
        if options.value.verbose { env := env[DebugKey := DebugValue]; }
      }
      if InspectorKey !in env {
        if options.None? { return Failure(NullPointer); }
        if options.value.debug { env := env[InspectorKey := InspectorValue]; }
      }
      r := Success(env);
    }

    /** The context options of start: the video directory when recordVideoDir
        is not blank, then applyBrowserContextConfig. */
    static method BuildContextOptions(o: WithPlaywright) returns (r: NewContextOptions)
      ensures r == ContextOptionsFor(o)
    {
      r := NewContextOptions();
      if IsNotBlank(o.recordVideoDir) {
        r := r.(recordVideoDir := Some(o.recordVideoDir));
      }
      r := ApplyBrowserContextConfig(r, o.browserContext);
    }

    /** applyBrowserContextConfig: offline always, locale and user agent only
        when not blank; nothing else of the options changes. */
    static method ApplyBrowserContextConfig(contextOptions: NewContextOptions, config: BrowserContextConfig)
      returns (r: NewContextOptions)
      ensures r.offline == Some(config.offline)
      ensures r.locale == if IsNotBlank(config.locale) then Some(config.locale) else contextOptions.locale
      ensures r.userAgent == if IsNotBlank(config.userAgent) then Some(config.userAgent) else contextOptions.userAgent
      ensures r.recordVideoDir == contextOptions.recordVideoDir
      ensures r.timezoneId == contextOptions.timezoneId && r.viewportSize == contextOptions.viewportSize
    {
      r := contextOptions.(offline := Some(config.offline));
      if IsNotBlank(config.locale) {
        r := r.(locale := Some(config.locale));
      }
      if IsNotBlank(config.userAgent) {
        r := r.(userAgent := Some(config.userAgent));
      }
    }

    /** applyConfig: set the context's timeouts from the options. */
    method ApplyConfig(parseMillis: string -> Option<int>) returns (r: Outcome<Error>)
      requires options.Some? && playwrightContext.Some?
      modifies this`calls
      ensures var a := TimeoutCalls(options.value.browserContext, playwrightContext.value, parseMillis);
        calls == old(calls) + a.calls && r == a.outcome
    {
      var config := options.value.browserContext;
      var context := playwrightContext.value;
      if IsNotBlank(config.defaultNavigationTimeout) {
        var millis := parseMillis(config.defaultNavigationTimeout);
        if millis.None? { return Fail(DurationRejected(config.defaultNavigationTimeout)); }
        calls := calls + [SetDefaultNavigationTimeout(context, millis.value)];
      }
      if IsNotBlank(config.defaultTimeout) {
        var millis := parseMillis(config.defaultTimeout);
        if millis.None? { return Fail(DurationRejected(config.defaultTimeout)); }
        calls := calls + [SetDefaultTimeout(context, millis.value)];
      }
      r := Pass;
    }

    /** stop: close the context, then Playwright, nulling each one closed. */
    method Stop()
      modifies this
      ensures var t := StopTransition(old(State()));
        State() == t.state && calls == old(calls) + t.calls
    {
      if playwrightContext.Some? {
        calls := calls + [CloseContext(playwrightContext.value)];
        playwrightContext := None;
      }
      if playwright.Some? {
        calls := calls + [ClosePlaywright(playwright.value)];
        playwright := None;
      }
    }

    /** inject: hand the current context, Playwright and browser to the test. */
    method Inject() returns (context: Option<ContextHandle>, pw: Option<PlaywrightHandle>, browser: Option<BrowserHandle>)
      ensures Injected(context, pw, browser) == InjectOf(State())
    {
      context, pw, browser := playwrightContext, playwright, playwrightBrowser;
    }
  }
}
