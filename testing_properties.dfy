/**
 * What the testing manager's start and stop promise, stated over its
 * transition functions.
 */
module TestingProperties {
  import opened Wrappers
  import opened Strings
  import opened Playwright
  import opened Environment
  import opened TestingConfig
  import opened TestingManager

  /** Once configured, start always returns the empty map, after exactly three
      calls: create with the composed environment, launch with that same
      environment and the options copied from the configuration, and a context
      whose only possible setting is the video directory, present exactly when
      recordVideoDir is not blank. No timeout or other context setting is made. */
  lemma StartCalls(s: ManagerState, ambient: map<string, string>, lib: Collaborators)
    requires s.options.Some?
    ensures var o, t := s.options.value, StartTransition(s, ambient, lib);
      var env := ComposeEnv(ambient, o.verbose, o.debug);
      var opts := t.calls[2].contextOptions;
      && t.result == Success(map[])
      && |t.calls| == 3
      && t.calls[0] == Create(env)
      && t.calls[1] == Launch(lib.created, BrowserFor(o.browser),
                              LaunchOptions(o.channel, o.chromiumSandbox, o.headless, o.slowMo, env, o.args))
      && t.calls[2].NewContext? && t.calls[2].browser == lib.launched
      && (opts.recordVideoDir.Some? <==> IsNotBlank(o.recordVideoDir))
      && (opts.recordVideoDir.Some? ==> opts.recordVideoDir.value == o.recordVideoDir)
      && opts == NewContextOptions(recordVideoDir := opts.recordVideoDir)
  {
  }

  /** Before init, start throws; it has called Playwright.create only when
      the process environment sets both DEBUG and PWDEBUG. */
  lemma StartBeforeInit(s: ManagerState, ambient: map<string, string>, lib: Collaborators)
    requires s.options.None?
    ensures var t := StartTransition(s, ambient, lib);
      && t.result == Failure(NullPointer)
      && t.state.playwrightContext == s.playwrightContext && t.state.playwrightBrowser == s.playwrightBrowser
      && (t.calls != [] <==> DebugKey in ambient && InspectorKey in ambient)
      && (t.calls != [] ==> t.calls == [Create(ambient)])
  {
  }

  /** stop closes exactly the context and the instance the manager holds,
      the context first, nulls both and leaves the browser reference; a second
      stop makes no call. */
  lemma StopClosesHeldHandles(s: ManagerState)
    ensures var t := StopTransition(s);
      && (forall c :: CloseContext(c) in t.calls <==> s.playwrightContext == Some(c))
      && (forall p :: ClosePlaywright(p) in t.calls <==> s.playwright == Some(p))
      && (forall i :: 0 <= i < |t.calls| ==> t.calls[i].CloseContext? || t.calls[i].ClosePlaywright?)
      && |t.calls| == (if s.playwrightContext.Some? then 1 else 0) + (if s.playwright.Some? then 1 else 0)
      && (forall i, j :: 0 <= i < |t.calls| && 0 <= j < |t.calls| && t.calls[i].ClosePlaywright? && t.calls[j].CloseContext? ==> j < i)
      && InjectOf(t.state) == Injected(None, None, s.playwrightBrowser)
      && t.state.options == s.options
      && StopTransition(t.state) == Stopped(t.state, [])
  {
  }

  /** The stop after a configured start closes the context and then the
      instance that start opened. */
  lemma StopAfterStart(s: ManagerState, ambient: map<string, string>, lib: Collaborators)
    requires s.options.Some?
    ensures StopTransition(StartTransition(s, ambient, lib).state).calls
            == [CloseContext(lib.newContext), ClosePlaywright(lib.created)]
  {
  }
}
