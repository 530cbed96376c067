/**
 * `Settings` of pwa/config/settings.py: every field is read once from the
 * process environment `env`.
 */
module PwaSettings {
  import opened Outcomes
  import opened Text
  import opened Environ

  datatype Settings = Settings(
    logLevel: string,
    reportDir: string,
    screenshotOnFailure: bool,
    pwaBaseUrl: string,
    browserType: string,
    browserHeadless: bool,
    browserSlowmo: int,
    playwrightTimeout: int,   // milliseconds
    viewportWidth: int,
    viewportHeight: int)

  /** `Settings()`: the record, or the `ValueError` of the first integer variable, in source order, that does not parse. */
  function Load(env: Env): Outcome<Settings> {
    var slowmo :- IntOrError(Getenv(env, "BROWSER_SLOWMO", "0"));
    var timeout :- IntOrError(Getenv(env, "PLAYWRIGHT_TIMEOUT", "30000"));
    var width :- IntOrError(Getenv(env, "PLAYWRIGHT_VIEWPORT_WIDTH", "1280"));
    var height :- IntOrError(Getenv(env, "PLAYWRIGHT_VIEWPORT_HEIGHT", "720"));
    Ok(Fields(env, slowmo, timeout, width, height))
  }

  /** The fields `Settings()` assigns once the four integers have parsed. */
  function Fields(env: Env, slowmo: int, timeout: int, width: int, height: int): Settings {
    Settings(
      Getenv(env, "LOG_LEVEL", "INFO"),
      Getenv(env, "REPORT_DIR", "reports"),
      Flag(env, "SCREENSHOT_ON_FAILURE"),
      Getenv(env, "PWA_BASE_URL", "https://demo.swapy.dev"),
      Getenv(env, "BROWSER_TYPE", "chromium"),
      Flag(env, "BROWSER_HEADLESS"),
      slowmo,
      timeout,
      width,
      height)
  }

  /**
   * Each of the four string fields is its variable verbatim when that is
   * present, an empty one included, and its literal default when it is absent:
   * the demo site and chromium unless configured otherwise.
   */
  lemma PresentStringsAreKept(env: Env)
    requires Load(env).Ok?
    ensures var s := Load(env).value;
      && ("LOG_LEVEL" in env ==> s.logLevel == env["LOG_LEVEL"])
      && ("LOG_LEVEL" !in env ==> s.logLevel == "INFO")
      && ("REPORT_DIR" in env ==> s.reportDir == env["REPORT_DIR"])
      && ("REPORT_DIR" !in env ==> s.reportDir == "reports")
      && ("PWA_BASE_URL" in env ==> s.pwaBaseUrl == env["PWA_BASE_URL"])
      && ("PWA_BASE_URL" !in env ==> s.pwaBaseUrl == "https://demo.swapy.dev")
      && ("BROWSER_TYPE" in env ==> s.browserType == env["BROWSER_TYPE"])
      && ("BROWSER_TYPE" !in env ==> s.browserType == "chromium")
  {
    var slowmo := IntOrError(Getenv(env, "BROWSER_SLOWMO", "0"));
    var timeout := IntOrError(Getenv(env, "PLAYWRIGHT_TIMEOUT", "30000"));
    var width := IntOrError(Getenv(env, "PLAYWRIGHT_VIEWPORT_WIDTH", "1280"));
    var height := IntOrError(Getenv(env, "PLAYWRIGHT_VIEWPORT_HEIGHT", "720"));
    assert slowmo.Ok? && timeout.Ok? && width.Ok? && height.Ok?;
    assert Load(env) == Ok(Fields(env, slowmo.value, timeout.value, width.value, height.value));
  }

  lemma DefaultSpellings()
    ensures IntToString(0) == "0" && IntToString(720) == "720"
    ensures IntToString(1280) == "1280" && IntToString(30000) == "30000"
  {
    assert Digits(720) == Digits(72) + ['0'] && Digits(72) == Digits(7) + ['2'];
    assert Digits(1280) == Digits(128) + ['0'] && Digits(128) == Digits(12) + ['8'] && Digits(12) == Digits(1) + ['2'];
    assert Digits(30000) == Digits(3000) + ['0'] && Digits(3000) == Digits(300) + ['0'];
    assert Digits(300) == Digits(30) + ['0'] && Digits(30) == Digits(3) + ['0'];
  }

  lemma DefaultIntegersParse()
    ensures ParseInt("0") == Some(0) && ParseInt("30000") == Some(30000)
    ensures ParseInt("1280") == Some(1280) && ParseInt("720") == Some(720)
  {
    DefaultSpellings();
    ParseIntOfIntToString(0);
    ParseIntOfIntToString(30000);
    ParseIntOfIntToString(1280);
    ParseIntOfIntToString(720);
  }

  /** With no variable set: the demo site in headless chromium, no slow-motion, a 30000 ms timeout and a 1280x720 viewport. */
  lemma LoadDefaults()
    ensures Load(map[]) == Ok(Settings("INFO", "reports", true, "https://demo.swapy.dev", "chromium", true, 0, 30000, 1280, 720))
  {
    DefaultIntegersParse();
    assert IntOrError(Getenv(map[], "BROWSER_SLOWMO", "0")) == Ok(0);
    assert IntOrError(Getenv(map[], "PLAYWRIGHT_TIMEOUT", "30000")) == Ok(30000);
    assert IntOrError(Getenv(map[], "PLAYWRIGHT_VIEWPORT_WIDTH", "1280")) == Ok(1280);
    assert IntOrError(Getenv(map[], "PLAYWRIGHT_VIEWPORT_HEIGHT", "720")) == Ok(720);
    assert Load(map[]) == Ok(Fields(map[], 0, 30000, 1280, 720));
    DefaultFlagIsTrue();
  }

  /**
   * The two flags are true iff the variable is absent or spells "true" in
   * any case; loading fails iff one of the four integer variables does not parse.
   */
  lemma FlagsAndIntegers(env: Env)
    ensures Load(env).Raised? <==>
      || ParseInt(Getenv(env, "BROWSER_SLOWMO", "0")).None?
      || ParseInt(Getenv(env, "PLAYWRIGHT_TIMEOUT", "30000")).None?
      || ParseInt(Getenv(env, "PLAYWRIGHT_VIEWPORT_WIDTH", "1280")).None?
      || ParseInt(Getenv(env, "PLAYWRIGHT_VIEWPORT_HEIGHT", "720")).None?
    ensures Load(env).Ok? ==>
      && (Load(env).value.screenshotOnFailure <==>
            "SCREENSHOT_ON_FAILURE" !in env || Lower(env["SCREENSHOT_ON_FAILURE"]) == "true")
      && (Load(env).value.browserHeadless <==> "BROWSER_HEADLESS" !in env || Lower(env["BROWSER_HEADLESS"]) == "true")
  {
    if Load(env).Ok? {
      var s := Load(env).value;
      assert s.screenshotOnFailure == Flag(env, "SCREENSHOT_ON_FAILURE");
      assert s.browserHeadless == Flag(env, "BROWSER_HEADLESS");
      DefaultFlagIsTrue();
    }
  }

  /**
   * A present-but-empty variable is taken as "": a flag becomes false, an
   * integer variable makes loading fail and the base URL is the empty string.
   */
  lemma EmptyVariables(env: Env)
    ensures "BROWSER_HEADLESS" in env && env["BROWSER_HEADLESS"] == "" && Load(env).Ok? ==> !Load(env).value.browserHeadless
    ensures "PLAYWRIGHT_TIMEOUT" in env && env["PLAYWRIGHT_TIMEOUT"] == "" ==> Load(env).Raised?
    ensures "PWA_BASE_URL" in env && env["PWA_BASE_URL"] == "" && Load(env).Ok? ==> Load(env).value.pwaBaseUrl == ""
  {
    if "BROWSER_HEADLESS" in env && env["BROWSER_HEADLESS"] == "" && Load(env).Ok? {
      assert Load(env).value.browserHeadless == Flag(env, "BROWSER_HEADLESS");
      FlagFromEnv(env, "BROWSER_HEADLESS");
    }
    if "PLAYWRIGHT_TIMEOUT" in env && env["PLAYWRIGHT_TIMEOUT"] == "" {
      assert ParseInt("").None?;
      FlagsAndIntegers(env);
    }
  }
}
