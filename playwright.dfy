/**
 * The Playwright library as the managers see it: opaque handles, the option
 * records they fill in, and the calls they make. Nothing of what the library
 * does with a call (starting the driver process, launching a browser, opening
 * a context) is modelled; a manager's effect on the library is the sequence of
 * calls it makes.
 */
module Playwright {
  import opened Wrappers

  /** A Playwright instance (one driver process). */
  datatype PlaywrightHandle = PlaywrightHandle(id: nat)

  /** A launched browser. */
  datatype BrowserHandle = BrowserHandle(id: nat)

  /** A browsing context. */
  datatype ContextHandle = ContextHandle(id: nat)

  /** The three browser types a Playwright instance offers:
      playwright.chromium(), playwright.firefox(), playwright.webkit(). */
  datatype BrowserType = Chromium | Firefox | Webkit

  /** BrowserType.LaunchOptions with the setters the managers call. slowMo is a
      Java double that is only passed along, so no arithmetic is done on it. */
  datatype LaunchOptions = LaunchOptions(
    channel: string,
    chromiumSandbox: bool,
    headless: bool,
    slowMo: real,
    env: map<string, string>,
    args: seq<string>)

  /** A viewport as NewContextOptions.setViewportSize takes it. */
  datatype ViewportSize = ViewportSize(width: int, height: int)

  /** Browser.NewContextOptions; None is a setting never set, so the library
      default applies. A fresh `NewContextOptions()` has nothing set. The
      video directory is a java.nio Path in the library and a string here. */
  datatype NewContextOptions = NewContextOptions(
    recordVideoDir: Option<string> := None,
    offline: Option<bool> := None,
    locale: Option<string> := None,
    userAgent: Option<string> := None,
    timezoneId: Option<string> := None,
    viewportSize: Option<ViewportSize> := None)

  /** The calls a manager makes on the library, in the order it makes them. */
  datatype Call =
    | Create(env: map<string, string>)
    | Launch(playwright: PlaywrightHandle, browserType: BrowserType, launchOptions: LaunchOptions)
    | NewContext(browser: BrowserHandle, contextOptions: NewContextOptions)
    | SetDefaultNavigationTimeout(context: ContextHandle, millis: int)
    | SetDefaultTimeout(context: ContextHandle, millis: int)
    | CloseContext(context: ContextHandle)
    | ClosePlaywright(playwright: PlaywrightHandle)

  /** What the library hands back during one start: the instance
      Playwright.create returns, the browser launch returns and the context
      newContext returns. */
  datatype Collaborators = Collaborators(
    created: PlaywrightHandle,
    launched: BrowserHandle,
    newContext: ContextHandle)
}
