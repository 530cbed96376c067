# Session lifecycle, retry, settings and assertions of a UI test-automation suite

This project models, in Dafny, the core of a two-part Python test-automation
suite. One part drives an Android app through Appium (`mobile/`). The other
drives a web app through Playwright (`pwa/`). The model covers these pieces:

- **The settings loaders** (`mobile/config/settings.py`, `pwa/config/settings.py`).
  Each field is read from the environment with a default. The `"true"` flags
  use `.lower() == "true"`, and `int()` parses the numeric fields. The
  environment is a `map<string, string>`, and `os.getenv`, `str.lower`,
  `str(int)` and `int(str)` are written out.
- **The option builders** `AppiumConfig` and `BrowserConfig`. They are pure
  functions from settings to keyword dictionaries.
- **The Appium session lifecycle**: `DriverFactory` (class attributes `_driver`
  and `_appium_service`) and the singleton `DriverManager`.
- **The Playwright session lifecycle**: `BrowserFactory` (class attributes
  `_playwright`, `_browser`, `_context`, `_page`) and the singleton
  `BrowserManager`.
- **The `retry` decorator**, with its async and sync wrappers.
- **`CustomAssertions`**, over a small universe of Python values.

Modelling conventions:

- **Lifecycle classes.** Each Python class object is a Dafny `class` whose
  fields are its class attributes. Each method updates those fields in place.
- **Calls into Appium or Playwright** (`webdriver.Remote`, `quit`, `launch`,
  `new_context`, `close`, ...). Each one is a parameter of type `Outcome<T>`:
  the value it would return, or the exception it would raise. Each method
  also returns `sent`, the calls it actually made, in order. This lets a
  contract say that no second connection is opened (`sent == []`).
- **Exceptions** are the `Exc` datatype. `Foreign(id, derivesFromException)`
  stands for anything a library raises. When `derivesFromException` is false
  it models `KeyboardInterrupt`, `SystemExit` or `CancelledError`, which
  `except Exception` does not catch.
- **Singletons.** The `_instance` attribute of each manager is the field of a
  separate class object (`DriverManagerClass`, `BrowserManagerClass`). That
  object implements `__new__` and `reset_singleton`.
- **The decorated function in `retry`** is `op: nat -> Outcome<T>`, the outcome
  of its k-th invocation. Sleeping is recorded as an event in a trace:
  `Slept` when awaited, `SleepCreated` when only a coroutine is created.

Where the code does less than its own docstrings suggest, the model follows
the code:

- **Teardown can fail the caller.** `quit_driver` "safely closes the driver"
  (mobile/src/driver/driver_factory.py:57), and `close_browser` closes the
  browser "and cleanup resources" (pwa/src/browser/browser_factory.py:92).
  Their handlers catch only `Exception`, so an exception not derived from it
  escapes `quit_driver`, `stop_appium_service` and `close_browser`.
  `DriverManager.close_driver` and `BrowserManager.close_browser` then skip
  clearing their own references.
- **Cleanup stops at the first failure.** `close_browser` stops at the first
  close that raises. It keeps that handle and every later one. When the
  browser is among the kept handles, the next `create_browser` returns it
  and launches nothing. When only `playwright.stop()` raised, the browser is
  already cleared and the next call launches a new one.
- **`reset_singleton` leaves the session open.** It resets only the manager's
  `_instance` (mobile/src/driver/driver_manager.py:64-67). The factory's
  session stays open and the next instance reuses it.
- **The sync wrapper never delays.** `retry` documents `delay` as the "Delay
  between retries in seconds" (pwa/src/utils/decorators.py:19). Only the async
  wrapper waits; the sync wrapper never does (see Findings).

## Model

| member | source | states |
|---|---|---|
| Outcomes.Swallowed | pwa/src/browser/browser_factory.py:115-116 | `try ... except Exception`: the result raises iff the call raised something not derived from `Exception`, and then it is that same exception |
| Text.ParseIntOfIntToString | mobile/config/settings.py:24-25 | `int(str(i)) == i` for every integer of at most 4300 digits, signs included; past 4300 digits `int()` refuses the text, just as `str()` refuses to write it |
| Text.IntOrError | mobile/config/settings.py:24-25 | `int(s)` returns a value iff `s` parses as a base-10 literal (surrounding space, \t \n \v \f \r, a sign, single underscores between at most 4300 digits), and otherwise raises `ValueError` |
| Text.IntSkipsWhitespace | mobile/config/settings.py:24-25 | an integer of at most 4300 digits written with `str()` and padded on either side with space, \t \n \v \f or \r loads back as itself |
| Text.IntRejectsSeparators | mobile/config/settings.py:24-25 | a value that starts or ends with an ASCII separator 0x1C-0x1F makes `int()` raise `ValueError`: unlike `str.strip()`, `int()` does not skip them |
| Text.FitsStrBound | mobile/config/settings.py:24-25 | an integer has at most 4300 decimal digits, the default limit of `int()` and `str()`, iff it lies strictly between -10^4300 and 10^4300 |
| Text.ParsedFits | mobile/config/settings.py:24-25 | every integer `int()` returns has at most 4300 digits, so `str()` can write it back |
| Text.ParseInt | mobile/config/settings.py:24-25 | `int(s)` in base 10: strips space, \t \n \v \f and \r, takes an optional sign, then one or more digits with single underscores between them and at most 4300 digits in all; `None` otherwise |
| Text.IntToString | mobile/config/settings.py:37 | `str(i)`: a `-` for a negative number, then the decimal digits of its magnitude without leading zeros |
| Text.Lower | mobile/config/settings.py:20 | `str.lower()`: same length, each ASCII capital replaced by its small letter |
| Text.IsTrueFlagSpellings | mobile/config/settings.py:20 | `v.lower() == "true"` holds exactly for the sixteen mixed-case spellings of "true" |
| Text.DefaultFlagIsTrue | mobile/config/settings.py:20 | the default `"true"` passes the flag test |
| Environ.Getenv | mobile/config/settings.py:18 | `os.getenv(key, default)`: the variable when present, even empty, else the default |
| Environ.Flag | mobile/config/settings.py:20 | `os.getenv(key, "true").lower() == "true"` |
| Environ.FlagFromEnv | pwa/config/settings.py:17-22 | a flag is true iff its variable is absent or spells "true" in some case; a present but empty variable gives false |
| MobileSettings.Load | mobile/config/settings.py:13-32 | `Settings()`: parses APPIUM_PORT, then APPIUM_TIMEOUT, propagating the first `ValueError`; otherwise every field read from its variable or default |
| MobileSettings.AppiumUrl | mobile/config/settings.py:34-37 | `appium_url`: "http://", the host, ":" and the port in decimal |
| MobileSettings.LoadDefaults | mobile/config/settings.py:13-32 | with no variables set, every field has its literal default (port 4723, timeout 30, org.wikipedia on emulator-5554, both flags true) |
| MobileSettings.LoadFailsOnBadInteger | mobile/config/settings.py:24-25 | loading raises iff APPIUM_PORT or APPIUM_TIMEOUT does not parse; a bad port is the error reported |
| MobileSettings.FlagsAreCaseInsensitiveTrue | mobile/config/settings.py:20-32 | both flags are true iff absent or lower-casing to "true"; an empty SCREENSHOT_ON_FAILURE gives false |
| MobileSettings.DefaultPortSpelling | mobile/config/settings.py:24 | the default port literal "4723" is the decimal spelling of 4723 |
| MobileSettings.DefaultTimeoutSpelling | mobile/config/settings.py:25 | the default timeout literal "30" is the decimal spelling of 30 |
| MobileSettings.DefaultIntegersParse | mobile/config/settings.py:24-25 | both default literals parse, to 4723 and 30 |
| MobileSettings.PresentStringsAreKept | mobile/config/settings.py:18-31 | each of the seven string fields (LOG_LEVEL, REPORT_DIR, APPIUM_HOST and the four ANDROID_* names) is its variable verbatim when present, even empty, and its literal default when absent |
| MobileSettings.IntegerVariablesRoundTrip | mobile/config/settings.py:24-25 | a port and timeout written with `str()` load iff both have at most 4300 digits, and then as the same integers |
| MobileSettings.LoadedIntegersFit | mobile/config/settings.py:24-37 | the loaded port and timeout have at most 4300 digits, so `appium_url` can always write the port |
| MobileSettings.AppiumUrlRecoversHostAndPort | mobile/config/settings.py:34-37 | for a port `str()` can write, `appium_url` is "http://", the host, ":" and the decimal port, and the port parses back from it |
| PwaSettings.Load | pwa/config/settings.py:10-28 | `Settings()`: parses BROWSER_SLOWMO, PLAYWRIGHT_TIMEOUT and the viewport width and height in that order, propagating the first `ValueError`; otherwise every field read from its variable or default |
| PwaSettings.PresentStringsAreKept | pwa/config/settings.py:15-21 | LOG_LEVEL, REPORT_DIR, PWA_BASE_URL and BROWSER_TYPE are used verbatim when present, even empty, and otherwise default to "INFO", "reports", "https://demo.swapy.dev" and "chromium" |
| PwaSettings.DefaultSpellings | pwa/config/settings.py:23-28 | the default integer literals are the decimal spellings of 0, 30000, 1280 and 720 |
| PwaSettings.DefaultIntegersParse | pwa/config/settings.py:23-28 | the four default integer literals parse to 0, 30000, 1280 and 720 |
| PwaSettings.LoadDefaults | pwa/config/settings.py:10-28 | with no variables set: the demo site, headless chromium, no slow-motion, a 30000 ms timeout and a 1280x720 viewport |
| PwaSettings.FlagsAndIntegers | pwa/config/settings.py:17-28 | loading raises iff one of the four integer variables does not parse; both flags are true iff absent or lower-casing to "true" |
| PwaSettings.EmptyVariables | pwa/config/settings.py:20-26 | an empty BROWSER_HEADLESS gives false, an empty PLAYWRIGHT_TIMEOUT makes loading raise, and an empty PWA_BASE_URL gives an empty base URL |
| AppiumConfig.AndroidCapabilities | mobile/config/appium_config.py:12-31 | `get_android_capabilities()`: Android and UiAutomator2, the four app settings and the permission flag, no reset, no hardware keyboard, and the timeout times 1000 |
| AppiumConfig.AppiumOptions | mobile/config/appium_config.py:34-44 | `get_appium_options()`: host, port and the timeout in seconds |
| AppiumConfig.CapabilityKeys | mobile/config/appium_config.py:18-30 | the capabilities hold exactly the eleven documented keys |
| AppiumConfig.CapabilityConstants | mobile/config/appium_config.py:19-29 | Android with UiAutomator2, never noReset, fullReset or a hardware keyboard, whatever the settings |
| AppiumConfig.CapabilitiesCopySettings | mobile/config/appium_config.py:21-25 | the five app settings are copied unchanged |
| AppiumConfig.TimeoutSecondsToMilliseconds | mobile/config/appium_config.py:28-44 | the command timeout is the settings timeout in milliseconds and divides back to the connection options' seconds; host and port pass through |
| AppiumConfig.DefaultCapabilities | mobile/config/appium_config.py:12-31 | in an empty environment: org.wikipedia on emulator-5554, permissions granted, a 30000 ms command timeout |
| BrowserConfig.BrowserOptions | pwa/config/browser_config.py:11-21 | `get_browser_options()`: headless and slow_mo from the settings |
| BrowserConfig.ContextOptions | pwa/config/browser_config.py:24-37 | `get_context_options()`: the viewport width and height, and `ignore_https_errors` on |
| BrowserConfig.NavigationOptions | pwa/config/browser_config.py:40-49 | `get_navigation_options()`: wait for `networkidle`, with the Playwright timeout |
| BrowserConfig.OptionsContent | pwa/config/browser_config.py:11-49 | launch, context and navigation options have exactly their keys, take the settings' values unchanged, and always set `ignore_https_errors` and `networkidle` |
| BrowserConfig.DefaultOptions | pwa/config/browser_config.py:11-49 | in an empty environment: headless, slow_mo 0, a 1280x720 viewport and a 30000 ms navigation timeout |
| Retry.Retry | pwa/src/utils/decorators.py:51-54 | coroutine functions get the async wrapper and all others the sync one; the policy passes through unchanged |
| Retry.Pause | pwa/src/utils/decorators.py:36-49 | the pause before a retry: an awaited sleep of `delay` in the async wrapper, a created but un-awaited sleep coroutine in the sync wrapper |
| Retry.Calls | pwa/src/utils/decorators.py:27-34 | how many times the function is called: none when max_attempts < 1, else up to the first invocation that returns, raises something not derived from `Exception`, or is the last attempt |
| Retry.Settle | pwa/src/utils/decorators.py:27-34 | how the wrapper ends: the last invocation's value returned or its exception re-raised unchanged, or None when nothing was called |
| Retry.Schedule | pwa/src/utils/decorators.py:27-49 | the trace of n invocations: attempt 1, then a pause before each further attempt |
| Retry.Call | pwa/src/utils/decorators.py:26-49 | the wrapper's loop ends as `Settle` says (first return, first non-`Exception`, or the last attempt's exception), and its trace is attempt 1 followed by one pause and one attempt per retry |
| Retry.CallsIsFirstStop | pwa/src/utils/decorators.py:27-34 | the number of invocations is the only n in 1..max whose earlier invocations all raised an `Exception` and that is the last allowed attempt or was not retried |
| Retry.CallsFromIsFirstStop | pwa/src/utils/decorators.py:27-34 | the same characterisation from any attempt on |
| Retry.ReturnsFirstSuccess | pwa/src/utils/decorators.py:30 | after k retried failures, a returning invocation ends the loop after k+1 calls with its value |
| Retry.ReraisesLastFailure | pwa/src/utils/decorators.py:31-34 | when every attempt raises an `Exception`, exactly max_attempts calls are made and the last exception is re-raised unchanged |
| Retry.NonExceptionPropagatesAtOnce | pwa/src/utils/decorators.py:31 | something not derived from `Exception` is not retried and propagates from the attempt that raised it |
| Retry.EmptyRangeCallsNothing | pwa/src/utils/decorators.py:27 | with max_attempts < 1 nothing is called or recorded and the wrapper returns None |
| Retry.ScheduleShape | pwa/src/utils/decorators.py:27-36 | n invocations give 2n-1 events: invocations 1..n in order at even positions and a pause between each two |
| Retry.RealPausesOfSchedule | pwa/src/utils/decorators.py:36-49 | a schedule of n invocations holds n-1 real pauses when the pause is awaited and none otherwise |
| Retry.AsyncWrapperSleepsBetweenAttempts | pwa/src/utils/decorators.py:26-36 | the async wrapper awaits exactly one sleep of `delay` seconds per retried attempt |
| Retry.SyncWrapperNeverPauses | pwa/src/utils/decorators.py:39-49 | the sync wrapper never pauses, though it creates an un-awaited sleep coroutine before each retry |
| Retry.IntendedPauseSleepsBetweenAttempts | pwa/src/utils/decorators.py:49 | with the intended pause, either wrapper pauses n-1 times for n invocations; the async wrapper already does |
| Retry.ThreeFailuresExhaustDefaultPolicy | pwa/src/utils/decorators.py:14-36 | under `retry()` defaults, three failures give three calls, two 1.0 s sleeps, and the third exception |
| MobileDriverFactory.Connect | mobile/src/driver/driver_factory.py:41-44 | the session request goes to the Appium URL with the Android capabilities |
| MobileDriverFactory.DriverFactory.constructor | mobile/src/driver/driver_factory.py:18-19 | both class attributes start as None |
| MobileDriverFactory.DriverFactory.CreateDriver | mobile/src/driver/driver_factory.py:22-51 | a held session is returned with no call; otherwise, when the log lines at :36 and :39 can write the port and `appium_timeout * 1000` (`LogsRender`), exactly one `webdriver.Remote` call, and only a returned session is stored; when they cannot, the `ValueError` of `str()` propagates before any call; any error propagates |
| MobileDriverFactory.TimeoutThatLoadsMayNotRender | mobile/src/driver/driver_factory.py:36-44 | a timeout of 10^4297 loads from the environment, yet its millisecond value has 4301 digits, so the capabilities log line raises before `webdriver.Remote` |
| MobileDriverFactory.DriverFactory.QuitDriver | mobile/src/driver/driver_factory.py:54-67 | a held session gets `quit()` and is forgotten whatever happens; an `Exception` is swallowed, anything else propagates; with no session nothing is done |
| MobileDriverFactory.DriverFactory.GetDriver | mobile/src/driver/driver_factory.py:70-81 | returns the session iff one is held, otherwise `RuntimeError` with the fixed text |
| MobileDriverFactory.DriverFactory.StartAppiumService | mobile/src/driver/driver_factory.py:84-96 | a created service is stored before `start()` and stays stored if `start()` raises; an already held service is replaced; every error propagates |
| MobileDriverFactory.DriverFactory.StopAppiumService | mobile/src/driver/driver_factory.py:99-109 | a held service gets `stop()` and is forgotten whatever happens; an `Exception` is swallowed |
| MobileDriverFactory.CreateTwiceOpensOneSession | mobile/src/driver/driver_factory.py:31-47 | two `create_driver()` calls return the same session after a single connection; when the log lines cannot render, both raise the same `ValueError` and nothing is sent |
| MobileDriverFactory.FailedCreateIsRetried | mobile/src/driver/driver_factory.py:35-51 | a failed connection stores nothing, so `get_driver()` raises and the next `create_driver()` connects again; when the log lines cannot render, no connection is ever attempted |
| MobileDriverFactory.QuitThenCreateReconnects | mobile/src/driver/driver_factory.py:59-67 | after `quit_driver()`, even one whose `quit()` raised, `get_driver()` raises and `create_driver()` opens a new session; when the log lines cannot render, none is opened |
| MobileDriverFactory.FailedStartIsStillStopped | mobile/src/driver/driver_factory.py:89-109 | a service whose `start()` raised is still stopped by `stop_appium_service()` |
| MobileDriverManager.DriverManager.constructor | mobile/src/driver/driver_manager.py:17-22 | a new instance has no session reference |
| MobileDriverManager.DriverManager.InitDriver | mobile/src/driver/driver_manager.py:25-33 | on success the manager and the factory hold the same session; on failure the manager's reference is unchanged and the error propagates, including the `ValueError` of log lines that cannot render, raised before any connection |
| MobileDriverManager.DriverManager.GetDriver | mobile/src/driver/driver_manager.py:35-46 | returns the manager's reference iff it has one, otherwise `RuntimeError` with the fixed text |
| MobileDriverManager.DriverManager.CloseDriver | mobile/src/driver/driver_manager.py:48-52 | the factory forgets its session; the manager forgets its own unless an error not derived from `Exception` escaped `quit_driver()` |
| MobileDriverManager.DriverManager.Reset | mobile/src/driver/driver_manager.py:54-62 | with a session, `reset()` is called once and an `Exception` is swallowed; without one nothing is called; no state changes |
| MobileDriverManager.DriverManagerClass.constructor | mobile/src/driver/driver_manager.py:16 | `_instance` starts as None |
| MobileDriverManager.DriverManagerClass.New | mobile/src/driver/driver_manager.py:19-23 | returns the existing instance, or makes a new one with no session reference and keeps it |
| MobileDriverManager.DriverManagerClass.ResetSingleton | mobile/src/driver/driver_manager.py:64-67 | forgets the instance and nothing else |
| MobileDriverManager.ConstructorReturnsOneInstance | mobile/src/driver/driver_manager.py:19-33 | two `DriverManager()` calls give one object, which sees the session the first initialised, or none (`get_driver` raises) when the log lines could not render |
| MobileDriverManager.ResetSingletonKeepsSession | mobile/src/driver/driver_manager.py:64-67 | after `reset_singleton()` the new instance has no reference (`get_driver` raises), and its `init_driver()` reuses the factory's session without connecting; when the log lines cannot render, both `init_driver()` calls raise and nothing is sent |
| MobileDriverManager.UncaughtQuitLeavesStaleReference | mobile/src/driver/driver_manager.py:48-52 | an error that `quit_driver()` lets through leaves the manager holding a session the factory has forgotten; when the log lines could not render, there is no session and closing does nothing |
| PwaBrowserFactory.LaunchOutcome | pwa/src/browser/browser_factory.py:31-49 | `create_browser()`'s result: the held browser, else the error of starting Playwright, else `AttributeError` for an unknown type, else the launch's outcome |
| PwaBrowserFactory.LaunchRequests | pwa/src/browser/browser_factory.py:31-49 | `create_browser()`'s calls: none with a held browser, else the start, then the launch when the start returned and the type is known |
| PwaBrowserFactory.LaunchSpec | pwa/src/browser/browser_factory.py:31-45 | `create_browser()` succeeds iff a browser is held or a started driver launches a known type; Playwright is always started first; an unknown type raises `AttributeError` |
| PwaBrowserFactory.Held.CloseOutcome | pwa/src/browser/browser_factory.py:93-116 | `close_browser()`'s result: the stopping step's error when it does not derive from `Exception`, else None |
| PwaBrowserFactory.Held.CloseRequests | pwa/src/browser/browser_factory.py:94-112 | the close calls of the held handles, in order page, context, browser, driver, up to and including the stopping step |
| PwaBrowserFactory.Held.After | pwa/src/browser/browser_factory.py:94-112 | the attributes after `close_browser()`: those before the stopping step cleared, the rest unchanged |
| PwaBrowserFactory.FirstTrueIsFirst | pwa/src/browser/browser_factory.py:93-116 | the teardown's stopping step is the only step that raises with none raising before it |
| PwaBrowserFactory.TeardownWithoutErrors | pwa/src/browser/browser_factory.py:94-114 | when no close raises, every held handle is closed in order page, context, browser, driver, and all four are cleared |
| PwaBrowserFactory.TeardownStopsAtFirstFailure | pwa/src/browser/browser_factory.py:93-116 | handles before the first raising close are cleared, it and later ones are kept, and the error escapes iff it does not derive from `Exception` |
| PwaBrowserFactory.TeardownPreservesValid | pwa/src/browser/browser_factory.py:104-112 | the teardown never keeps a browser while dropping its driver |
| PwaBrowserFactory.TeardownOfNothing | pwa/src/browser/browser_factory.py:94-114 | with nothing held the teardown makes no call, raises nothing and changes nothing |
| PwaBrowserFactory.BrowserFactory.constructor | pwa/src/browser/browser_factory.py:16-19 | all four class attributes start as None |
| PwaBrowserFactory.BrowserFactory.CreateBrowser | pwa/src/browser/browser_factory.py:22-49 | result and calls as `LaunchSpec` describes; the driver is stored once started, the browser only once launched; a browser is never held without a driver |
| PwaBrowserFactory.BrowserFactory.CreateContext | pwa/src/browser/browser_factory.py:52-69 | one `new_context` call on the given browser with the context options; only a created context replaces the held one |
| PwaBrowserFactory.BrowserFactory.CreatePage | pwa/src/browser/browser_factory.py:72-88 | one `new_page` call on the given context; its outcome is returned and nothing is recorded |
| PwaBrowserFactory.BrowserFactory.CloseBrowser | pwa/src/browser/browser_factory.py:91-116 | result, calls and new attributes are those of the first-failure teardown (`CloseOutcome`, `CloseRequests`, `After`) |
| PwaBrowserFactory.BrowserFactory.GetPage | pwa/src/browser/browser_factory.py:119-125 | returns the recorded page, None when there is none |
| PwaBrowserFactory.BrowserFactory.SetPage | pwa/src/browser/browser_factory.py:128-134 | records the page and changes nothing else |
| PwaBrowserManager.InitOutcome | pwa/src/browser/browser_manager.py:27-39 | `init_browser()`'s result: the first error of create_browser, create_context, create_page and goto, else the new page |
| PwaBrowserManager.InitRequests | pwa/src/browser/browser_manager.py:27-39 | `init_browser()`'s calls: those of `create_browser()`, then new context, new page and goto, each only when the step before it succeeded |
| PwaBrowserManager.InitBrowserSpec | pwa/src/browser/browser_manager.py:27-39 | `init_browser()` returns a page iff every step succeeds, and then it is the new page navigated to the base URL; five calls from nothing, three with a held browser |
| PwaBrowserManager.BrowserManager.constructor | pwa/src/browser/browser_manager.py:17-19 | a new instance has no references |
| PwaBrowserManager.BrowserManager.InitBrowser | pwa/src/browser/browser_manager.py:27-39 | each reference is stored as soon as its step succeeds, the first error propagates with later references unchanged, the factory's page is never set, and the driver invariant is kept |
| PwaBrowserManager.BrowserManager.GetPage | pwa/src/browser/browser_manager.py:41-52 | returns the manager's page iff it has one, otherwise `RuntimeError` with the fixed text |
| PwaBrowserManager.BrowserManager.CloseBrowser | pwa/src/browser/browser_manager.py:54-60 | the factory's teardown, then all three references are cleared unless an error escaped the teardown |
| PwaBrowserManager.BrowserManagerClass.constructor | pwa/src/browser/browser_manager.py:16 | `_instance` starts as None |
| PwaBrowserManager.BrowserManagerClass.New | pwa/src/browser/browser_manager.py:21-25 | returns the existing instance, or makes a new one with no references and keeps it |
| PwaBrowserManager.BrowserManagerClass.ResetSingleton | pwa/src/browser/browser_manager.py:62-65 | forgets the instance and nothing else |
| PwaBrowserManager.CloseAfterInit | pwa/src/browser/browser_factory.py:94-114 | with context, browser and driver held and no close raising, the teardown closes exactly those three in that order, returns normally and clears everything |
| PwaBrowserManager.InitThenClose | pwa/src/browser/browser_manager.py:27-60 | a full test life makes five calls to set up, then closes context, browser and driver; the page is never closed on its own, and nothing stays held |
| PwaBrowserManager.FailedCloseKeepsBrowserForReuse | pwa/src/browser/browser_factory.py:99-116 | a context whose close raises stays held, so the next `init_browser()` reuses the old browser without launching and the old context is never closed |
| PwaBrowserManager.ResetSingletonKeepsBrowser | pwa/src/browser/browser_manager.py:62-65 | after `reset_singleton()` the new instance has no page (`get_page` raises) and reuses the factory's browser |
| Assertions.Equals | mobile/src/utils/assertions.py:30 | Python's `==`: None, strings and lists by content, bools and ints as numbers, so True == 1 |
| Assertions.Str | mobile/src/utils/assertions.py:26 | `str(v)` in an f-string: None, True/False, decimal ints, strings as they are, lists as `[repr, ...]` |
| Assertions.Contains | mobile/src/utils/assertions.py:82 | `item in container`: element equality for a list, substring for two strings, `TypeError` otherwise |
| Assertions.Compose | mobile/src/utils/assertions.py:26-28 | the failure text: "message: " before the default text when a message is given |
| Assertions.AssertEqual | mobile/src/utils/assertions.py:15-30 | `assert_equal`: builds "Expected e, but got a", then raises `AssertionError` with it unless the values compare equal |
| Assertions.AssertTrue | mobile/src/utils/assertions.py:33-47 | `assert_true`: raises `AssertionError` unless the condition is `True` itself |
| Assertions.AssertFalse | mobile/src/utils/assertions.py:50-64 | `assert_false`: raises `AssertionError` unless the condition is `False` itself |
| Assertions.AssertIn | mobile/src/utils/assertions.py:67-82 | `assert_in`: builds "Expected i to be in c", then tests `in`, letting its `TypeError` through |
| Assertions.AssertNotNone | mobile/src/utils/assertions.py:85-99 | `assert_not_none`: raises `AssertionError` iff the value is None |
| Assertions.EqualsReflexive | mobile/src/utils/assertions.py:30 | every modelled value compares equal to itself |
| Assertions.EqualsSymmetric | mobile/src/utils/assertions.py:30 | `==` gives the same answer in both orders |
| Assertions.IsSubstringAt | mobile/src/utils/assertions.py:82 | `sub in s` for strings holds iff `sub` occurs at some offset of `s` |
| Assertions.ListContainsSomeElement | mobile/src/utils/assertions.py:82 | `x in list` holds iff some element equals `x` |
| Assertions.ComposeKeepsDefault | mobile/src/utils/assertions.py:26-28 | the failure text ends with the default text and begins with "message: " iff a message is given |
| Assertions.AssertEqualSpec | mobile/src/utils/assertions.py:15-30 | passes iff both values can be written by `str()` and compare equal, the same in either order, and so for a printable value with itself; an integer past 4300 digits raises `ValueError` before the comparison; the failure text names the expected value first |
| Assertions.AssertEqualPastLimit | mobile/src/utils/assertions.py:26-30 | 10^4300 fails `assert_equal` against itself with the `ValueError` of `str()`, not an `AssertionError` |
| Assertions.AssertEqualTrueAndOne | mobile/src/utils/assertions.py:30 | `True == 1` and `[0] == [False]` pass, as in Python |
| Assertions.AssertTrueIsIdentity | mobile/src/utils/assertions.py:33-47 | passes only for `True` itself: truthy 1 or "x" fail |
| Assertions.AssertFalseIsIdentity | mobile/src/utils/assertions.py:50-64 | passes only for `False` itself: falsy 0, None or "" fail |
| Assertions.AssertInSpec | mobile/src/utils/assertions.py:67-82 | list and string containment as Python defines it; any other pairing raises `TypeError`, not `AssertionError`; an argument `str()` cannot write raises its `ValueError` first, whatever the container |
| Assertions.AssertNotNoneSpec | mobile/src/utils/assertions.py:85-99 | raises iff the value is None; 0, False and "" pass |

## Left out

- Logging (every `logger` call) and `load_dotenv()`. The environment map is the one after `.env` has been merged in. Every value a log line renders is taken to render without raising, except in `create_driver`, whose two lines are modelled (`MobileDriverFactory.LogsRender`). Python builds an f-string before `logger` decides whether to emit it, so the assumption covers `max_attempts` and `str(e)` in the retry wrappers and the texts of `CustomAssertions` and the factories.
- Retry.Calls: assumes the debug line at decorators.py:29 and :42 can write `max_attempts`. With more than 4300 digits it raises `ValueError` inside the `try` on every attempt, so `func` is never called, each attempt is counted as failed, and the last one raises again from the error line at :33 and :46; the model counts invocations of `func` as if the line rendered.
- Retry.Call: the loop's result ignores log f-strings that raise. Past the digit limit, `max_attempts` makes every attempt fail before `func` runs (see `Retry.Calls`), and an exception whose `__str__` raises ends the wrapper from the warning line at decorators.py:35 and :48 instead of pausing and retrying.
- Text.IntOrError: the invalid-literal text quotes the value in single quotes, escapes nothing and does not cut it at 200 characters, as Python's `%.200R` does.
- Real time and asyncio scheduling. Sleeps are trace events, and awaiting is sequential execution.
- The RuntimeWarning that Python prints when the un-awaited sleep coroutine of the sync wrapper is garbage-collected.
- The wrapped function's arguments, `functools.wraps` and the `TypeVar` typing of `retry`.
- Text.ParseInt: Unicode decimal digits and non-ASCII whitespace, which `int()` also accepts, are not modelled; a value containing them parses as an error here.
- Text.ParseInt: the digit limit is the default 4300. A limit changed with `sys.set_int_max_str_digits()` or `PYTHONINTMAXSTRDIGITS` is not modelled.
- Text.IntOrError: a malformed literal with more than 4300 digits raises `ValueError` here with the "invalid literal" text; which of its two texts Python reports for it is not modelled.
- MobileSettings.AppiumUrl: writes the port without the 4300-digit check of `str()`, so it never raises. No port `Load` returns is that long (`MobileSettings.LoadedIntegersFit`).
- Text.Lower: lower-cases ASCII letters only. This gives the same flag test, because no other character lower-cases to "t", "r", "u" or "e".
- Assertions.Str: `repr` of a string inside a list always uses single quotes and escapes nothing. Python switches to double quotes for strings that contain a single quote, and escapes control characters.
- Assertions: values outside None, bool, int, str and list (floats, dicts, tuples, objects with their own `__eq__`, `__contains__` or `__str__`) are not modelled. Neither is Python's `-O` mode, which strips `assert`.
- `CustomAssertions` logging of the text before each check has no effect on the result and is left out with the rest of logging.
- PwaBrowserFactory.LaunchOutcome: an unknown browser type raises `AttributeError` carrying the type name. In Python the attribute lookup or the `.launch` lookup raises it, with a message that is not modelled.
- Truthiness of handles: `if self._driver:` and `if cls._page:` are modelled as "is not None". Session, page, context and browser objects define no `__bool__` or `__len__`.
- Which process-wide `settings` instance the factories read: each factory holds the loaded `Settings` record as a constant. A settings load that raises at import time is modelled by `Load` returning `Raised`.
- The wait handlers, page objects, tests, fixtures, screenshots and data models belong to other parts of the suite and are not part of this model.

## Findings

| source | as written | input that shows it | evidently intended | confidence | as-written member | corrected member |
|---|---|---|---|---|---|---|
| pwa/src/utils/decorators.py:49 | the sync wrapper calls `asyncio.sleep(delay)` without `await`; this only creates a coroutine object, so there is no pause between attempts | a plain (non-async) function that raises `ValueError` on its first call and returns on its second, under `retry(max_attempts=2, delay=1.0)`: two calls, zero seconds of pause | wait `delay` seconds before each retry, as the docstring ("Delay between retries in seconds"), the log line ("retrying in {delay}s") and the async wrapper do | high; not executed | Retry.SyncWrapperNeverPauses | Retry.IntendedPauseSleepsBetweenAttempts |
