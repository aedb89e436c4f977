# Playwright lifecycle manager for Quarkus tests, in Dafny

This project models `QuarkusPlaywrightManager`, the test resource that gives
each Quarkus test class annotated with `@WithPlaywright` one Playwright
instance, one launched browser and one browsing context, and tears them down
afterwards. Both variants are modelled: the full one of the runtime artifact
(context settings and timeouts from `@BrowserContextConfig`) and the older one
of the testing artifact (video directory only). The configuration records
`@WithPlaywright` (both variants) and `@BrowserContextConfig` are datatypes
whose argument-less constructor gives the annotation's defaults.

The Playwright library is an external collaborator. Its instances, browsers and
contexts are opaque handles; what the library returns during a start is a
parameter (`Collaborators`), and a manager's effect on the library is the
sequence of calls it makes (`Playwright.Call`): create, launch, newContext,
the two timeout setters and the two closes. Each manager class keeps the four
fields of the source (`options`, `playwright`, `playwrightContext`,
`playwrightBrowser`, `None` for null) and a ghost log of its calls. Its
methods are proved to follow two functions, `StartTransition` and
`StopTransition`, and the lifecycle properties are lemmas about those
functions:

- the environment handed to the driver keeps every process variable, and adds
  `DEBUG=pw:api` (verbose) and `PWDEBUG=1` (debug) only where the process
  environment does not set them;
- FIREFOX and WEBKIT pick their browser type and anything else picks Chromium;
- the launch options copy channel, sandbox, headless, slowMo and args, and the
  same environment goes to `Playwright.create` and to `launch`;
- a string setting is applied only when it is not blank (Java's
  `Character.isWhitespace` decides blankness); offline is always applied; time
  zone and viewport never are;
- timeouts are set on the new context, after it is created, in the
  milliseconds the duration text reads as; a text that does not parse makes
  start throw with the session already open and nothing rolled back;
- stop closes the context, then the Playwright instance, nulls both, leaves the
  browser reference, and is a no-op when repeated any number of times; the stop
  after a configured start closes that start's context and then its Playwright
  instance; the browser it launched is neither closed nor nulled;
- whatever the framework calls in whatever order on a fresh manager, a held
  context is held together with an instance and a browser, and the three are
  the handles opened by one and the same start.

Where the code and the documentation around it disagree, the model follows the
code:

- stop neither closes nor nulls `playwrightBrowser`, so `inject` after stop
  still hands out the browser of the closed instance; stop does not guard its close calls,
  and start rolls nothing back when it fails part way;
- the testing manager calls `options.recordVideoDir()`
  (testing/src/main/java/io/quarkiverse/playwright/QuarkusPlaywrightManager.java:59-60), which the testing
  `@WithPlaywright` does not declare (testing/src/main/java/io/quarkiverse/playwright/WithPlaywright.java:13-66); the model
  gives the testing record a `recordVideoDir` field defaulting to `""`;
- the viewport default is documented as 1280x720 but declared as 1080x720
  (runtime/src/main/java/io/quarkiverse/playwright/BrowserContextConfig.java:62-66); the declared value is modelled (it is
  never applied to a context anyway);
- before `init`, start fails on the null options, but Java's `&&` reads the
  options only when `DEBUG` (then `PWDEBUG`) is absent, so with both set
  `Playwright.create` has already run when the failure comes; the model keeps
  that order;
- a second start without a stop overwrites the three references without
  closing the earlier ones; the test framework calls start once per class.

## Model

| member | source | states |
|---|---|---|
| RuntimeConfig.BrowserContextConfigDefaults | runtime/src/main/java/io/quarkiverse/playwright/BrowserContextConfig.java:24-82 | every string setting defaults to "" (unset), offline to false, the viewport to 1080x720 |
| RuntimeConfig.WithPlaywrightDefaults | runtime/src/main/java/io/quarkiverse/playwright/WithPlaywright.java:46-152 | browser CHROMIUM, verbose and debug false, channel and recordVideoDir "", testId "data-testid", sandbox off, headless on, slowMo 0, args exactly ["--disable-gpu"], no selectors, an all-default context config |
| TestingConfig.WithPlaywrightDefaults | testing/src/main/java/io/quarkiverse/playwright/WithPlaywright.java:18-64 | browser CHROMIUM, verbose and debug false, channel "", sandbox off, headless on, slowMo 0, args exactly ["--disable-gpu"]; recordVideoDir "" |
| Strings.BlankEdgeCases | runtime/src/main/java/io/quarkiverse/playwright/QuarkusPlaywrightManager.java:113 | "" and strings of Java whitespace (TAB..CR, FS..US, space, the Unicode separators) are blank; U+00A0, U+2007, U+202F (no-break spaces), NUL, U+0085 and U+200B are not |
| Strings.NotBlankConcat | runtime/src/main/java/io/quarkiverse/playwright/QuarkusPlaywrightManager.java:113 | a concatenation is not blank exactly when one of its parts is not |
| Environment.ComposeEnv | runtime/src/main/java/io/quarkiverse/playwright/QuarkusPlaywrightManager.java:85-94 | every ambient variable is kept with its value (an ambient DEBUG or PWDEBUG is never overwritten); the keys grow by at most DEBUG (verbose) and PWDEBUG (debug); an added DEBUG is "pw:api" and an added PWDEBUG is "1" |
| Environment.ComposeEnvWithoutFlags | runtime/src/main/java/io/quarkiverse/playwright/QuarkusPlaywrightManager.java:85-94 | with verbose and debug both false the composed environment equals the process environment |
| Environment.ComposeEnvIdempotent | runtime/src/main/java/io/quarkiverse/playwright/QuarkusPlaywrightManager.java:85-94 | composing the composed environment again with the same flags changes nothing |
| RuntimeManager.BrowserFor | runtime/src/main/java/io/quarkiverse/playwright/QuarkusPlaywrightManager.java:158-164 | Firefox exactly for FIREFOX, WebKit exactly for WEBKIT, Chromium for every other value |
| RuntimeManager.QuarkusPlaywrightManager.constructor | runtime/src/main/java/io/quarkiverse/playwright/QuarkusPlaywrightManager.java:44-53 | a new manager has all four fields null and has made no call |
| RuntimeManager.QuarkusPlaywrightManager.Init | runtime/src/main/java/io/quarkiverse/playwright/QuarkusPlaywrightManager.java:60-63 | init stores the options, changes no other field and makes no library call |
| RuntimeManager.QuarkusPlaywrightManager.InitArgs | runtime/src/main/java/io/quarkiverse/playwright/QuarkusPlaywrightManager.java:72-75 | init(Map) always fails with IllegalStateException and its message |
| RuntimeManager.QuarkusPlaywrightManager.ComposeEnvironment | runtime/src/main/java/io/quarkiverse/playwright/QuarkusPlaywrightManager.java:85-94 | once configured the environment is ComposeEnv of the process environment and the flags; before init it fails unless both DEBUG and PWDEBUG are already set, in which case it is the process environment |
| RuntimeManager.QuarkusPlaywrightManager.Start | runtime/src/main/java/io/quarkiverse/playwright/QuarkusPlaywrightManager.java:83-124 | the new fields, the calls appended to the log and the result are those of StartTransition from the old fields |
| RuntimeManager.QuarkusPlaywrightManager.BuildContextOptions | runtime/src/main/java/io/quarkiverse/playwright/QuarkusPlaywrightManager.java:111-117 | the options handed to newContext are ContextOptionsFor the configuration (their settings are stated by ContextOptionsSettings) |
| RuntimeManager.QuarkusPlaywrightManager.ApplyBrowserContextConfig | runtime/src/main/java/io/quarkiverse/playwright/QuarkusPlaywrightManager.java:126-136 | offline is always set; locale and user agent are set to the config's value when not blank and left as they were otherwise; video directory, time zone and viewport are untouched |
| RuntimeManager.QuarkusPlaywrightManager.ApplyConfig | runtime/src/main/java/io/quarkiverse/playwright/QuarkusPlaywrightManager.java:138-149 | the calls appended and the outcome are TimeoutCalls of the stored context config and the current context |
| RuntimeManager.QuarkusPlaywrightManager.Stop | runtime/src/main/java/io/quarkiverse/playwright/QuarkusPlaywrightManager.java:169-179 | the new fields and the calls appended are those of StopTransition from the old fields |
| RuntimeManager.QuarkusPlaywrightManager.Inject | runtime/src/main/java/io/quarkiverse/playwright/QuarkusPlaywrightManager.java:190-203 | inject hands out exactly the current context, Playwright and browser references |
| RuntimeProperties.StartCallOrder | runtime/src/main/java/io/quarkiverse/playwright/QuarkusPlaywrightManager.java:96-121 | a configured start calls create with the composed environment, then launch on that instance with the selected browser type, the same environment and channel, sandbox, headless, slowMo and args unchanged, then newContext on that browser, then only timeout setters on that context |
| RuntimeProperties.ContextOptionsSettings | runtime/src/main/java/io/quarkiverse/playwright/QuarkusPlaywrightManager.java:112-136 | the video directory is set iff recordVideoDir is not blank; offline is always set; locale and user agent are set iff not blank, to the config's value; time zone and viewport are never set |
| RuntimeProperties.TimeoutSettings | runtime/src/main/java/io/quarkiverse/playwright/QuarkusPlaywrightManager.java:138-149 | the navigation timeout is set iff its text is not blank and parses, to the parsed milliseconds; the default timeout likewise unless the navigation text failed first; each at most once, navigation first; both act on the context; a text that does not parse is reported |
| RuntimeProperties.StartResult | runtime/src/main/java/io/quarkiverse/playwright/QuarkusPlaywrightManager.java:83-124 | start returns the empty map iff the manager is configured and no non-blank timeout text fails to parse; before init it fails with a null-pointer error |
| RuntimeProperties.StartDoesNotRollBack | runtime/src/main/java/io/quarkiverse/playwright/QuarkusPlaywrightManager.java:96-124 | whatever its outcome, a configured start leaves the instance, browser and context it opened in the fields and makes no close call |
| RuntimeProperties.StopClosesHeldHandles | runtime/src/main/java/io/quarkiverse/playwright/QuarkusPlaywrightManager.java:170-179 | stop closes exactly the held context and the held instance, each once and nothing else, the context first, nulls both, and leaves the options and the browser reference |
| RuntimeProperties.StopIdempotent | runtime/src/main/java/io/quarkiverse/playwright/QuarkusPlaywrightManager.java:170-179 | a second stop, or a stop on a fresh manager, makes no call and changes nothing |
| RuntimeProperties.StopAfterStart | runtime/src/main/java/io/quarkiverse/playwright/QuarkusPlaywrightManager.java:170-179 | the stop after a configured start closes that start's context and then its instance |
| RuntimeProperties.RepeatedStop | runtime/src/main/java/io/quarkiverse/playwright/QuarkusPlaywrightManager.java:170-179 | stop called any number n >= 1 of times in a row has the effect and calls of one stop |
| RuntimeProperties.StepKeepsSessionTogether | runtime/src/main/java/io/quarkiverse/playwright/QuarkusPlaywrightManager.java:61-179 | init, init(Map), start, stop and inject each keep "no context before init, and a held context is held with the instance and browser of one start" |
| RuntimeProperties.RunKeepsSessionTogether | runtime/src/main/java/io/quarkiverse/playwright/QuarkusPlaywrightManager.java:61-179 | any sequence of those calls keeps that invariant, the starts it ran added |
| RuntimeProperties.HeldSessionComesFromOneStart | runtime/src/main/java/io/quarkiverse/playwright/QuarkusPlaywrightManager.java:61-179 | from a fresh manager, after any sequence of calls, a held context comes with a held instance and browser, and the three are the instance, browser and context of one and the same start |
| TestingManager.BrowserFor | testing/src/main/java/io/quarkiverse/playwright/QuarkusPlaywrightManager.java:66-72 | Firefox exactly for FIREFOX, WebKit exactly for WEBKIT, Chromium for every other value |
| TestingManager.QuarkusPlaywrightManager.constructor | testing/src/main/java/io/quarkiverse/playwright/QuarkusPlaywrightManager.java:20-26 | a new manager has all four fields null and has made no call |
| TestingManager.QuarkusPlaywrightManager.Init | testing/src/main/java/io/quarkiverse/playwright/QuarkusPlaywrightManager.java:28-31 | init stores the options, changes no other field and makes no library call |
| TestingManager.QuarkusPlaywrightManager.InitArgs | testing/src/main/java/io/quarkiverse/playwright/QuarkusPlaywrightManager.java:33-36 | init(Map) always fails with IllegalStateException and its message |
| TestingManager.QuarkusPlaywrightManager.ComposeEnvironment | testing/src/main/java/io/quarkiverse/playwright/QuarkusPlaywrightManager.java:40-46 | the same environment rule as the runtime manager: ambient DEBUG and PWDEBUG win, otherwise the flags add "pw:api" and "1" |
| TestingManager.QuarkusPlaywrightManager.Start | testing/src/main/java/io/quarkiverse/playwright/QuarkusPlaywrightManager.java:38-64 | the new fields, the calls appended to the log and the result are those of the testing StartTransition |
| TestingManager.QuarkusPlaywrightManager.Stop | testing/src/main/java/io/quarkiverse/playwright/QuarkusPlaywrightManager.java:74-84 | the new fields and the calls appended are those of the testing StopTransition |
| TestingManager.QuarkusPlaywrightManager.Inject | testing/src/main/java/io/quarkiverse/playwright/QuarkusPlaywrightManager.java:86-94 | inject hands out exactly the current context, Playwright and browser references |
| TestingProperties.StartCalls | testing/src/main/java/io/quarkiverse/playwright/QuarkusPlaywrightManager.java:47-63 | a configured start returns the empty map after exactly create, launch (same environment, options copied) and newContext on that browser; the context options hold at most the video directory, set iff recordVideoDir is not blank; no timeout is set |
| TestingProperties.StartBeforeInit | testing/src/main/java/io/quarkiverse/playwright/QuarkusPlaywrightManager.java:40-49 | before init start fails with a null-pointer error, having called create only when DEBUG and PWDEBUG are both set in the process environment |
| TestingProperties.StopClosesHeldHandles | testing/src/main/java/io/quarkiverse/playwright/QuarkusPlaywrightManager.java:74-84 | stop closes exactly the held context and instance, each once and nothing else, context first, nulls both, leaves the options and the browser, and a second stop makes no call |
| TestingProperties.StopAfterStart | testing/src/main/java/io/quarkiverse/playwright/QuarkusPlaywrightManager.java:74-84 | the stop after a configured start closes that start's context and then its instance |

## Left out

- The Playwright library itself (driver process, browser launch, contexts, navigation, request headers): only the calls made to it are modelled, so "the user agent and the timeouts reach the library" is what the model states, not what the browser then does.
- Failures inside the library (create, launch, newContext or close throwing): every library call returns the handle passed in `Collaborators`. The only failures modelled are the manager's own: init(Map), start before init, and a timeout text that does not parse.
- `System.getenv()` is the parameter `ambient` of start.
- `Duration.parse(text).toMillis()` is the parameter `parseMillis`, a function from text to milliseconds that is None where Java throws: a DateTimeParseException for malformed text or an ArithmeticException from toMillis for a duration too long for a long; both are the one error `DurationRejected`. The widening of the long to the double the setters take is not modelled.
- `slowMo` is a Java double that is only passed along; it is a `real` here with no arithmetic on it.
- `Paths.get` is not modelled: the video directory stays a string. The `InvalidPathException` it can throw (a NUL in `recordVideoDir` on Unix is not blank, so it reaches `Paths.get`) is not modelled either: in Java that start throws after `launch` and before `newContext`, leaving the instance and browser set and no context, while the model always opens the context.
- Reflective injection through `TestInjector` and `@InjectPlaywright`: inject returns the three references.
- `selectors` and `testId` are configuration data that neither manager reads; selector registration and duplicate-name errors are not implemented by the code and are not modelled.
- `init` called with a null annotation is not modelled; the framework always passes one.
- PlaywrightRecorder, the native-image logging substitutions, the deployment and Dev UI processors and the integration-test application are build glue, file-system or network code outside this model.
