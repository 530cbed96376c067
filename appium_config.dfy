/** `AppiumConfig` of mobile/config/appium_config.py: dictionaries built from the mobile settings. */
module AppiumConfig {
  import opened ConfigValues
  import MobileSettings

  /** `get_android_capabilities()`: the desired capabilities sent with `webdriver.Remote`. */
  function AndroidCapabilities(s: MobileSettings.Settings): Options {
    map[
      "platformName" := Str("Android"),
      "automationName" := Str("UiAutomator2"),
      "platformVersion" := Str(s.androidPlatformVersion),
      "deviceName" := Str(s.androidDeviceName),
      "appPackage" := Str(s.androidPackageName),
      "appActivity" := Str(s.androidActivityName),
      "autoGrantPermissions" := Bool(s.androidAutoGrantPermissions),
      "noReset" := Bool(false),
      "fullReset" := Bool(false),
      "newCommandTimeout" := Int(s.appiumTimeout * 1000),
      "connectHardwareKeyboard" := Bool(false)
    ]
  }

  /** `get_appium_options()`: host, port and timeout (in seconds) of the Appium server. */
  function AppiumOptions(s: MobileSettings.Settings): Options {
    map["host" := Str(s.appiumHost), "port" := Int(s.appiumPort), "timeout" := Int(s.appiumTimeout)]
  }

  /** The capabilities hold exactly eleven keys. */
  lemma CapabilityKeys(s: MobileSettings.Settings)
    ensures AndroidCapabilities(s).Keys == {
      "platformName", "automationName", "platformVersion", "deviceName", "appPackage", "appActivity",
      "autoGrantPermissions", "noReset", "fullReset", "newCommandTimeout", "connectHardwareKeyboard"}
  {
  }

  /** Whatever the settings, the capabilities name Android and UiAutomator2 and never ask for a reset or a hardware keyboard. */
  lemma CapabilityConstants(s: MobileSettings.Settings)
    ensures AndroidCapabilities(s)["platformName"] == Str("Android")
    ensures AndroidCapabilities(s)["automationName"] == Str("UiAutomator2")
    ensures AndroidCapabilities(s)["noReset"] == Bool(false)
    ensures AndroidCapabilities(s)["fullReset"] == Bool(false)
    ensures AndroidCapabilities(s)["connectHardwareKeyboard"] == Bool(false)
  {
  }

  /** The five app settings are copied into the capabilities unchanged. */
  lemma CapabilitiesCopySettings(s: MobileSettings.Settings)
    ensures AndroidCapabilities(s)["platformVersion"] == Str(s.androidPlatformVersion)
    ensures AndroidCapabilities(s)["deviceName"] == Str(s.androidDeviceName)
    ensures AndroidCapabilities(s)["appPackage"] == Str(s.androidPackageName)
    ensures AndroidCapabilities(s)["appActivity"] == Str(s.androidActivityName)
    ensures AndroidCapabilities(s)["autoGrantPermissions"] == Bool(s.androidAutoGrantPermissions)
  {
  }

  /**
   * Both dictionaries carry the same timeout: seconds in the connection
   * options, milliseconds in the capabilities, so dividing the latter by 1000
   * gives the former back. Host and port pass through unchanged.
   */
  lemma TimeoutSecondsToMilliseconds(s: MobileSettings.Settings)
    ensures AppiumOptions(s)["timeout"] == Int(s.appiumTimeout)
    ensures AndroidCapabilities(s)["newCommandTimeout"] == Int(1000 * s.appiumTimeout)
    ensures AndroidCapabilities(s)["newCommandTimeout"].i / 1000 == AppiumOptions(s)["timeout"].i
    ensures AppiumOptions(s)["host"] == Str(s.appiumHost) && AppiumOptions(s)["port"] == Int(s.appiumPort)
  {
  }

  /** In an empty environment the driver asks for org.wikipedia on emulator-5554 with a 30000 ms command timeout. */
  lemma DefaultCapabilities()
    ensures MobileSettings.Load(map[]).Ok?
    ensures var caps := AndroidCapabilities(MobileSettings.Load(map[]).value);
      && caps["newCommandTimeout"] == Int(30000)
      && caps["deviceName"] == Str("emulator-5554")
      && caps["appPackage"] == Str("org.wikipedia")
      && caps["autoGrantPermissions"] == Bool(true)
  {
    MobileSettings.LoadDefaults();
    var s := MobileSettings.Load(map[]).value;
    assert s.appiumTimeout == 30 && s.androidDeviceName == "emulator-5554";
    assert s.androidPackageName == "org.wikipedia" && s.androidAutoGrantPermissions;
    CapabilitiesCopySettings(s);
    TimeoutSecondsToMilliseconds(s);
  }
}
