/**
 * The testing artifact's QuarkusPlaywrightManager: the older variant, with
 * the same lifecycle as the runtime one but no context settings and no
 * timeouts; its context options carry only the video directory.
 */
module TestingManager {
  import opened Wrappers
  import opened Strings
  import opened Playwright
  import opened Environment
  import opened TestingConfig

  /** The exceptions the manager's own code can raise. */
  datatype Error =
    | IllegalState(message: string)  // init(Map) is refused
    | NullPointer                    // start before init: options is null

  const InitArgsMessage := "Use @WithPlaywright() annotation instead"

  /** The manager's four fields; None is a null reference. */
  datatype ManagerState = ManagerState(
    options: Option<WithPlaywright>,
    playwright: Option<PlaywrightHandle>,
    playwrightContext: Option<ContextHandle>,
    playwrightBrowser: Option<BrowserHandle>)

  /** A freshly constructed manager: every field null. */
  const Initial := ManagerState(None, None, None, None)

  /** What start leaves behind: the new fields, the library calls made, and the
      returned map or the exception thrown. */
  datatype Started = Started(state: ManagerState, calls: seq<Call>, result: Result<map<string, string>, Error>)

  /** What stop leaves behind: the new fields and the close calls made. */
  datatype Stopped = Stopped(state: ManagerState, calls: seq<Call>)

  /** The three references inject offers: context, Playwright, browser. */
  datatype Injected = Injected(
    context: Option<ContextHandle>,
    playwright: Option<PlaywrightHandle>,
    browser: Option<BrowserHandle>)

  /** browser(playwright, browser): FIREFOX and WEBKIT pick their own type,
      every other value falls back to Chromium. */
  function BrowserFor(browser: Browser): (t: BrowserType)
    ensures t == Firefox <==> browser == FIREFOX
    ensures t == Webkit <==> browser == WEBKIT
    ensures t == Chromium <==> browser != FIREFOX && browser != WEBKIT
  {
    match browser
    case FIREFOX => Firefox
    case WEBKIT => Webkit
    case _ => Chromium
  }

  /** The context options start builds: at most the video directory. */
  function ContextOptionsFor(o: WithPlaywright): NewContextOptions {
    NewContextOptions(recordVideoDir := if IsNotBlank(o.recordVideoDir) then Some(o.recordVideoDir) else None)
  }

  /** start, given the process environment `ambient` and what the library
      returns. As in the runtime manager, before init the null options is read
      only when DEBUG (then PWDEBUG) is absent, so with both present
      Playwright.create runs before the failure. */
  function StartTransition(s: ManagerState, ambient: map<string, string>, lib: Collaborators): Started {
    match s.options
    case None =>
      if DebugKey in ambient && InspectorKey in ambient then
        Started(s.(playwright := Some(lib.created)), [Create(ambient)], Failure(NullPointer))
      else
        Started(s, [], Failure(NullPointer))
    case Some(o) =>
      var env := ComposeEnv(ambient, o.verbose, o.debug);
      Started(
        s.(playwright := Some(lib.created), playwrightBrowser := Some(lib.launched), playwrightContext := Some(lib.newContext)),
        [Create(env),
         Launch(lib.created, BrowserFor(o.browser), LaunchOptions(o.channel, o.chromiumSandbox, o.headless, o.slowMo, env, o.args)),
         NewContext(lib.launched, ContextOptionsFor(o))],
        Success(map[]))
  }

  /** stop: close and null the context, then close and null the Playwright
      instance, each only if it is not null. The browser is neither closed nor
      nulled. */
  function StopTransition(s: ManagerState): Stopped {
    var closeContext := if s.playwrightContext.Some? then [CloseContext(s.playwrightContext.value)] else [];
    var closePlaywright := if s.playwright.Some? then [ClosePlaywright(s.playwright.value)] else [];
    Stopped(s.(playwrightContext := None, playwright := None), closeContext + closePlaywright)
  }

  /** inject: the current references, whatever they are. */
  function InjectOf(s: ManagerState): Injected {
    Injected(s.playwrightContext, s.playwright, s.playwrightBrowser)
  }

  class QuarkusPlaywrightManager {
    var options: Option<WithPlaywright>
    var playwright: Option<PlaywrightHandle>
    var playwrightContext: Option<ContextHandle>
    var playwrightBrowser: Option<BrowserHandle>
    /** Every call this manager has made on the Playwright library, oldest first. */
    ghost var calls: seq<Call>

    function State(): ManagerState
      reads this
    {
      ManagerState(options, playwright, playwrightContext, playwrightBrowser)
    }

    constructor ()
      ensures State() == Initial && calls == []
    {
      options, playwright, playwrightContext, playwrightBrowser := None, None, None, None;
      calls := [];
    }

    /** init(WithPlaywright): store the options and touch nothing else. */
    method Init(withPlaywright: WithPlaywright)
      modifies this
      ensures State() == old(State()).(options := Some(withPlaywright))
      ensures calls == old(calls)
    {
      options := Some(withPlaywright);
    }

    /** init(Map): always refused. */
    method InitArgs(initArgs: map<string, string>) returns (r: Outcome<Error>)
      ensures r == Fail(IllegalState(InitArgsMessage))
    {
      r := Fail(IllegalState(InitArgsMessage));
    }

    /** The first lines of start: copy the process environment and add DEBUG
        and PWDEBUG as the flags ask, each flag read only when its variable is
        absent. */
    static method ComposeEnvironment(ambient: map<string, string>, options: Option<WithPlaywright>)
      returns (r: Result<map<string, string>, Error>)
      ensures options.Some? ==> r == Success(ComposeEnv(ambient, options.value.verbose, options.value.debug))
      ensures options.None? ==> r == if DebugKey in ambient && InspectorKey in ambient then Success(ambient) else Failure(NullPointer)
    {
      var env := ambient;
      if DebugKey !in env {
        if options.None? { return Failure(NullPointer); }
        if options.value.verbose { env := env[DebugKey := DebugValue]; }
      }
      if InspectorKey !in env {
        if options.None? { return Failure(NullPointer); }
        if options.value.debug { env := env[InspectorKey := InspectorValue]; }
      }
      r := Success(env);
    }

    /** start: compose the environment, create Playwright, launch the browser,
        open the context, return an empty map. */
    method Start(ambient: map<string, string>, lib: Collaborators) returns (r: Result<map<string, string>, Error>)
      modifies this
      ensures var t := StartTransition(old(State()), ambient, lib);
        State() == t.state && calls == old(calls) + t.calls && r == t.result
    {
      var composed := ComposeEnvironment(ambient, options);
      if composed.Failure? {
        return Failure(composed.error);
      }
      var env := composed.value;
      playwright := Some(lib.created);
      calls := calls + [Create(env)];
      if options.None? {
        return Failure(NullPointer);
      }
      var o := options.value;
      var launchOptions := LaunchOptions(o.channel, o.chromiumSandbox, o.headless, o.slowMo, env, o.args);
      playwrightBrowser := Some(lib.launched);
      calls := calls + [Launch(lib.created, BrowserFor(o.browser), launchOptions)];

      var contextOptions := NewContextOptions();
      if IsNotBlank(o.recordVideoDir) {
        contextOptions := contextOptions.(recordVideoDir := Some(o.recordVideoDir));
      }
      playwrightContext := Some(lib.newContext);
      calls := calls + [NewContext(lib.launched, contextOptions)];
      r := Success(map[]);
    }

    /** stop: close the context, then Playwright, nulling each one closed. */
    method Stop()
      modifies this
      ensures var t := StopTransition(old(State()));
        State() == t.state && calls == old(calls) + t.calls
    {
      if playwrightContext.Some? {
        calls := calls + [CloseContext(playwrightContext.value)];
        playwrightContext := None;
      }
      if playwright.Some? {
        calls := calls + [ClosePlaywright(playwright.value)];
        playwright := None;
      }
    }

    /** inject: hand the current context, Playwright and browser to the test. */
    method Inject() returns (context: Option<ContextHandle>, pw: Option<PlaywrightHandle>, browser: Option<BrowserHandle>)
      ensures Injected(context, pw, browser) == InjectOf(State())
    {
      context, pw, browser := playwrightContext, playwright, playwrightBrowser;
    }
  }
}
