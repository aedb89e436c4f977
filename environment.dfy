/**
 * The environment both managers pass to the Playwright driver: a copy of the
 * process environment, with the verbose and debug flags turned into
 * Playwright's own variables unless the process environment already sets them.
 */
module Environment {

  /** Playwright's logging variable and the value that enables API tracing. */
  const DebugKey := "DEBUG"
  const DebugValue := "pw:api"

  /** Playwright's inspector variable and the value that enables it. */
  const InspectorKey := "PWDEBUG"
  const InspectorValue := "1"

  /** The environment start composes from the process environment `ambient`. */
  function ComposeEnv(ambient: map<string, string>, verbose: bool, debug: bool): (env: map<string, string>)
    // every ambient variable is kept with its ambient value, DEBUG and PWDEBUG included
    ensures forall k :: k in ambient ==> k in env && env[k] == ambient[k]
    // at most DEBUG (when verbose) and PWDEBUG (when debug) are added
    ensures env.Keys == ambient.Keys + (if verbose then {DebugKey} else {}) + (if debug then {InspectorKey} else {})
    ensures verbose && DebugKey !in ambient ==> env[DebugKey] == DebugValue
    ensures debug && InspectorKey !in ambient ==> env[InspectorKey] == InspectorValue
  {
    var withLogging := if DebugKey !in ambient && verbose then ambient[DebugKey := DebugValue] else ambient;
    if InspectorKey !in withLogging && debug then withLogging[InspectorKey := InspectorValue] else withLogging
  }

  /** With both flags off, the driver sees exactly the process environment. */
  lemma ComposeEnvWithoutFlags(ambient: map<string, string>)
    ensures ComposeEnv(ambient, false, false) == ambient
  {
  }

  /** Composing a second time adds nothing: the composed environment already
      carries whatever the flags would add. */
  lemma ComposeEnvIdempotent(ambient: map<string, string>, verbose: bool, debug: bool)
    ensures ComposeEnv(ComposeEnv(ambient, verbose, debug), verbose, debug) == ComposeEnv(ambient, verbose, debug)
  {
  }
}
