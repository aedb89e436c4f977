/**
 * The declarative configuration of the older testing manager: its smaller
 * @WithPlaywright annotation, with no context settings, selectors or test id.
 */
module TestingConfig {

  /** The browsers a test class can ask for. */
  datatype Browser = CHROMIUM | FIREFOX | WEBKIT

  /** @WithPlaywright of the testing artifact. Its manager reads
      recordVideoDir(), which this annotation does not declare; the model gives
      it the field with the runtime annotation's default, "" (unset). */
  datatype WithPlaywright = WithPlaywright(
    browser: Browser := CHROMIUM,
    verbose: bool := false,
    debug: bool := false,
    channel: string := "",
    chromiumSandbox: bool := false,
    headless: bool := true,
    slowMo: real := 0.0,
    args: seq<string> := ["--disable-gpu"],
    recordVideoDir: string := "")

  /** The defaults of the testing @WithPlaywright. */
  lemma WithPlaywrightDefaults()
    ensures var w := WithPlaywright();
      && w.browser == CHROMIUM
      && !w.verbose && !w.debug
      && w.channel == ""
      && !w.chromiumSandbox && w.headless
      && w.slowMo == 0.0
      && w.args == ["--disable-gpu"]
      && w.recordVideoDir == ""
  {
  }
}
