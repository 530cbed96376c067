/** `BrowserConfig` of pwa/config/browser_config.py: dictionaries built from the PWA settings. */
module BrowserConfig {
  import opened ConfigValues
  import PwaSettings

  /** `get_browser_options()`: the keyword arguments of `launch`. */
  function BrowserOptions(s: PwaSettings.Settings): Options {
    map["headless" := Bool(s.browserHeadless), "slow_mo" := Int(s.browserSlowmo)]
  }

  /** `get_context_options()`: the keyword arguments of `new_context`. */
  function ContextOptions(s: PwaSettings.Settings): Options {
    map[
      "viewport" := Dict(map["width" := Int(s.viewportWidth), "height" := Int(s.viewportHeight)]),
      "ignore_https_errors" := Bool(true)
    ]
  }

  /** `get_navigation_options()`: wait for network idle, with the Playwright timeout in milliseconds. */
  function NavigationOptions(s: PwaSettings.Settings): Options {
    map["wait_until" := Str("networkidle"), "timeout" := Int(s.playwrightTimeout)]
  }

  /**
   * Launch options are exactly headless and slow_mo, context options exactly
   * the viewport and `ignore_https_errors` (always on), navigation options
   * exactly wait_until and the timeout; each value comes from the settings unchanged.
   */
  lemma OptionsContent(s: PwaSettings.Settings)
    ensures BrowserOptions(s).Keys == {"headless", "slow_mo"}
    ensures BrowserOptions(s)["headless"] == Bool(s.browserHeadless) && BrowserOptions(s)["slow_mo"] == Int(s.browserSlowmo)
    ensures ContextOptions(s).Keys == {"viewport", "ignore_https_errors"}
    ensures ContextOptions(s)["ignore_https_errors"] == Bool(true)
    ensures ContextOptions(s)["viewport"].Dict?
    ensures ContextOptions(s)["viewport"].entries.Keys == {"width", "height"}
    ensures ContextOptions(s)["viewport"].entries["width"] == Int(s.viewportWidth)
    ensures ContextOptions(s)["viewport"].entries["height"] == Int(s.viewportHeight)
    ensures NavigationOptions(s).Keys == {"wait_until", "timeout"}
    ensures NavigationOptions(s)["wait_until"] == Str("networkidle")
    ensures NavigationOptions(s)["timeout"] == Int(s.playwrightTimeout)
  {
  }

  /** In an empty environment: headless without slow-motion, a 1280x720 viewport and a 30000 ms navigation timeout. */
  lemma DefaultOptions()
    ensures PwaSettings.Load(map[]).Ok?
    ensures var s := PwaSettings.Load(map[]).value;
      && BrowserOptions(s) == map["headless" := Bool(true), "slow_mo" := Int(0)]
      && ContextOptions(s)["viewport"] == Dict(map["width" := Int(1280), "height" := Int(720)])
      && NavigationOptions(s) == map["wait_until" := Str("networkidle"), "timeout" := Int(30000)]
  {
    PwaSettings.LoadDefaults();
    OptionsOfDefaults(PwaSettings.Load(map[]).value);
  }

  lemma OptionsOfDefaults(s: PwaSettings.Settings)
    requires s == PwaSettings.Settings("INFO", "reports", true, "https://demo.swapy.dev", "chromium", true, 0, 30000, 1280, 720)
    ensures BrowserOptions(s) == map["headless" := Bool(true), "slow_mo" := Int(0)]
    ensures ContextOptions(s)["viewport"] == Dict(map["width" := Int(1280), "height" := Int(720)])
    ensures NavigationOptions(s) == map["wait_until" := Str("networkidle"), "timeout" := Int(30000)]
  {
  }
}
