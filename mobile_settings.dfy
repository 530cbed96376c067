/**
 * `Settings` of mobile/config/settings.py: every field is read once from the
 * process environment, here the map `env` (after `.env` has been merged in).
 */
module MobileSettings {
  import opened Outcomes
  import opened Text
  import opened Environ

  datatype Settings = Settings(
    logLevel: string,
    reportDir: string,
    screenshotOnFailure: bool,
    appiumHost: string,
    appiumPort: int,
    appiumTimeout: int,
    androidPlatformVersion: string,
    androidDeviceName: string,
    androidPackageName: string,
    androidActivityName: string,
    androidAutoGrantPermissions: bool)

  /** `Settings()`: the record, or the `ValueError` of the first integer variable that does not parse. */
  function Load(env: Env): Outcome<Settings> {
    var port :- IntOrError(Getenv(env, "APPIUM_PORT", "4723"));
    var timeout :- IntOrError(Getenv(env, "APPIUM_TIMEOUT", "30"));
    Ok(Fields(env, port, timeout))
  }

  /** The fields `Settings()` assigns once both integers have parsed. */
  function Fields(env: Env, port: int, timeout: int): Settings {
    Settings(
      Getenv(env, "LOG_LEVEL", "INFO"),
      Getenv(env, "REPORT_DIR", "reports"),
      Flag(env, "SCREENSHOT_ON_FAILURE"),
      Getenv(env, "APPIUM_HOST", "localhost"),
      port,
      timeout,
      Getenv(env, "ANDROID_PLATFORM_VERSION", "12"),
      Getenv(env, "ANDROID_DEVICE_NAME", "emulator-5554"),
      Getenv(env, "ANDROID_PACKAGE_NAME", "org.wikipedia"),
      Getenv(env, "ANDROID_ACTIVITY_NAME", "org.wikipedia.main.MainActivity"),
      Flag(env, "ANDROID_AUTO_GRANT_PERMISSIONS"))
  }

  /** The `appium_url` property: `http://<host>:<port>`. */
  function AppiumUrl(s: Settings): string {
    "http://" + s.appiumHost + ":" + IntToString(s.appiumPort)
  }

  /** With no variable set, every field takes its literal default. */
  lemma LoadDefaults()
    ensures Load(map[]) == Ok(Settings("INFO", "reports", true, "localhost", 4723, 30,
      "12", "emulator-5554", "org.wikipedia", "org.wikipedia.main.MainActivity", true))
  {
    DefaultIntegersParse();
    assert IntOrError(Getenv(map[], "APPIUM_PORT", "4723")) == Ok(4723);
    assert IntOrError(Getenv(map[], "APPIUM_TIMEOUT", "30")) == Ok(30);
    assert Load(map[]) == Ok(Fields(map[], 4723, 30));
    DefaultFlagIsTrue();
  }

  /** Loading fails iff APPIUM_PORT or APPIUM_TIMEOUT is not an integer literal; the port is reported first. */
  lemma LoadFailsOnBadInteger(env: Env)
    ensures Load(env).Raised? <==>
      ParseInt(Getenv(env, "APPIUM_PORT", "4723")).None? || ParseInt(Getenv(env, "APPIUM_TIMEOUT", "30")).None?
    ensures ParseInt(Getenv(env, "APPIUM_PORT", "4723")).None? ==>
      Load(env) == IntOrError(Getenv(env, "APPIUM_PORT", "4723")).PropagateFailure()
  {
    var port := IntOrError(Getenv(env, "APPIUM_PORT", "4723"));
    var timeout := IntOrError(Getenv(env, "APPIUM_TIMEOUT", "30"));
    if port.Ok? && timeout.Ok? {
      assert Load(env) == Ok(Fields(env, port.value, timeout.value));
    }
  }

  /**
   * The two flags are true iff the variable is absent or spells "true" in any
   * case; a present-but-empty or any other value gives false.
   */
  lemma FlagsAreCaseInsensitiveTrue(env: Env)
    requires Load(env).Ok?
    ensures var s := Load(env).value;
      && (s.screenshotOnFailure <==> "SCREENSHOT_ON_FAILURE" !in env || Lower(env["SCREENSHOT_ON_FAILURE"]) == "true")
      && (s.androidAutoGrantPermissions <==>
            "ANDROID_AUTO_GRANT_PERMISSIONS" !in env || Lower(env["ANDROID_AUTO_GRANT_PERMISSIONS"]) == "true")
      && ("SCREENSHOT_ON_FAILURE" in env && env["SCREENSHOT_ON_FAILURE"] == "" ==> !s.screenshotOnFailure)
  {
    var s := Load(env).value;
    assert s.screenshotOnFailure == Flag(env, "SCREENSHOT_ON_FAILURE");
    assert s.androidAutoGrantPermissions == Flag(env, "ANDROID_AUTO_GRANT_PERMISSIONS");
    FlagFromEnv(env, "SCREENSHOT_ON_FAILURE");
    FlagFromEnv(env, "ANDROID_AUTO_GRANT_PERMISSIONS");
    DefaultFlagIsTrue();
  }

  lemma DefaultPortSpelling()
    ensures IntToString(4723) == "4723"
  {
    assert Digits(4723) == Digits(472) + ['3'];
    assert Digits(472) == Digits(47) + ['2'];
    assert Digits(47) == Digits(4) + ['7'];
  }

  lemma DefaultTimeoutSpelling()
    ensures IntToString(30) == "30"
  {
    assert Digits(30) == Digits(3) + ['0'];
  }

  lemma DefaultIntegersParse()
    ensures ParseInt("4723") == Some(4723) && ParseInt("30") == Some(30)
  {
    DefaultPortSpelling();
    DefaultTimeoutSpelling();
    ParseIntOfIntToString(4723);
    ParseIntOfIntToString(30);
  }

  /**
   * Each of the seven string fields is its variable verbatim when that is
   * present, an empty one included, and its literal default when it is absent.
   */
  lemma PresentStringsAreKept(env: Env)
    requires Load(env).Ok?
    ensures var s := Load(env).value;
      && ("LOG_LEVEL" in env ==> s.logLevel == env["LOG_LEVEL"])
      && ("LOG_LEVEL" !in env ==> s.logLevel == "INFO")
      && ("REPORT_DIR" in env ==> s.reportDir == env["REPORT_DIR"])
      && ("REPORT_DIR" !in env ==> s.reportDir == "reports")
      && ("APPIUM_HOST" in env ==> s.appiumHost == env["APPIUM_HOST"])
      && ("APPIUM_HOST" !in env ==> s.appiumHost == "localhost")
      && ("ANDROID_PLATFORM_VERSION" in env ==> s.androidPlatformVersion == env["ANDROID_PLATFORM_VERSION"])
      && ("ANDROID_PLATFORM_VERSION" !in env ==> s.androidPlatformVersion == "12")
      && ("ANDROID_DEVICE_NAME" in env ==> s.androidDeviceName == env["ANDROID_DEVICE_NAME"])
      && ("ANDROID_DEVICE_NAME" !in env ==> s.androidDeviceName == "emulator-5554")
      && ("ANDROID_PACKAGE_NAME" in env ==> s.androidPackageName == env["ANDROID_PACKAGE_NAME"])
      && ("ANDROID_PACKAGE_NAME" !in env ==> s.androidPackageName == "org.wikipedia")
      && ("ANDROID_ACTIVITY_NAME" in env ==> s.androidActivityName == env["ANDROID_ACTIVITY_NAME"])
      && ("ANDROID_ACTIVITY_NAME" !in env ==> s.androidActivityName == "org.wikipedia.main.MainActivity")
  {
    var port := IntOrError(Getenv(env, "APPIUM_PORT", "4723"));
    var timeout := IntOrError(Getenv(env, "APPIUM_TIMEOUT", "30"));
    assert port.Ok? && timeout.Ok?;
    assert Load(env) == Ok(Fields(env, port.value, timeout.value));
  }

  /**
   * A port and a timeout written by `str()` load back as themselves, whatever
   * their sign, exactly when neither has more than 4300 digits.
   */
  lemma IntegerVariablesRoundTrip(env: Env, port: int, timeout: int)
    requires "APPIUM_PORT" in env && env["APPIUM_PORT"] == IntToString(port)
    requires "APPIUM_TIMEOUT" in env && env["APPIUM_TIMEOUT"] == IntToString(timeout)
    ensures Load(env).Ok? <==> FitsStr(port) && FitsStr(timeout)
    ensures Load(env).Ok? ==> Load(env).value.appiumPort == port && Load(env).value.appiumTimeout == timeout
  {
    ParseIntOfIntToString(port);
    ParseIntOfIntToString(timeout);
  }

  /** The loaded port and timeout can always be written back by `str()`, so `appium_url` never raises. */
  lemma LoadedIntegersFit(env: Env)
    requires Load(env).Ok?
    ensures FitsStr(Load(env).value.appiumPort) && FitsStr(Load(env).value.appiumTimeout)
  {
    ParsedFits(Getenv(env, "APPIUM_PORT", "4723"));
    ParsedFits(Getenv(env, "APPIUM_TIMEOUT", "30"));
  }

  /** `appium_url` is "http://", the host, ":" and the decimal port, and the port can be read back from it. */
  lemma AppiumUrlRecoversHostAndPort(s: Settings)
    requires FitsStr(s.appiumPort)
    ensures var url := AppiumUrl(s); var h := |s.appiumHost|;
      && |url| > 8 + h
      && url[..7] == "http://"
      && url[7..7 + h] == s.appiumHost
      && url[7 + h] == ':'
      && ParseInt(url[8 + h..]) == Some(s.appiumPort)
  {
    var url := AppiumUrl(s);
    var h := |s.appiumHost|;
    var prefix := "http://" + s.appiumHost + ":";
    assert url == prefix + IntToString(s.appiumPort);
    assert |prefix| == 8 + h;
    assert url[..7] == prefix[..7] == "http://";
    assert url[7..7 + h] == prefix[7..7 + h] == s.appiumHost;
    assert url[8 + h..] == IntToString(s.appiumPort);
    ParseIntOfIntToString(s.appiumPort);
  }
}
