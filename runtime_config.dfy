/**
 * The declarative configuration of the runtime manager: the @WithPlaywright
 * annotation and the @BrowserContextConfig it nests. Each annotation becomes a
 * datatype whose constructor, called without arguments, gives the annotation's
 * defaults; a blank string means "not set".
 */
module RuntimeConfig {

  /** The browsers a test class can ask for. */
  datatype Browser = CHROMIUM | FIREFOX | WEBKIT

  /** @BrowserContextConfig.ViewportSize: a width and a height with no defaults of their own. */
  datatype ViewportSize = ViewportSize(width: int, height: int)

  /** @BrowserContextConfig. The two timeouts are duration texts in the form
      java.time.Duration.parse reads ("PT10s"). */
  datatype BrowserContextConfig = BrowserContextConfig(
    defaultNavigationTimeout: string := "",
    defaultTimeout: string := "",
    userAgent: string := "",
    locale: string := "",
    timeZoneId: string := "",
    viewportSize: ViewportSize := ViewportSize(1080, 720),
    offline: bool := false)

  /** @PlaywrightSelector: a named selector engine script. */
  datatype PlaywrightSelector = PlaywrightSelector(name: string, script: string)

  /** @WithPlaywright. slowMo is a Java double that is only passed along. */
  datatype WithPlaywright = WithPlaywright(
    browser: Browser := CHROMIUM,
    verbose: bool := false,
    debug: bool := false,
    channel: string := "",
    testId: string := "data-testid",
    chromiumSandbox: bool := false,
    headless: bool := true,
    slowMo: real := 0.0,
    recordVideoDir: string := "",
    args: seq<string> := ["--disable-gpu"],
    selectors: seq<PlaywrightSelector> := [],
    browserContext: BrowserContextConfig := BrowserContextConfig())

  /** The defaults of @BrowserContextConfig: every string setting unset, not
      offline, and a 1080x720 viewport (the annotation's documentation says
      1280x720; the declared default is 1080x720). */
  lemma BrowserContextConfigDefaults()
    ensures var c := BrowserContextConfig();
      && c.defaultNavigationTimeout == "" && c.defaultTimeout == ""
      && c.userAgent == "" && c.locale == "" && c.timeZoneId == ""
      && c.viewportSize == ViewportSize(1080, 720)
      && !c.offline
  {
  }

  /** The defaults of @WithPlaywright. */
  lemma WithPlaywrightDefaults()
    ensures var w := WithPlaywright();
      && w.browser == CHROMIUM
      && !w.verbose && !w.debug
      && w.channel == "" && w.recordVideoDir == ""
      && w.testId == "data-testid"
      && !w.chromiumSandbox && w.headless
      && w.slowMo == 0.0
      && w.args == ["--disable-gpu"]
      && w.selectors == []
      && w.browserContext == BrowserContextConfig()
  {
  }
}
