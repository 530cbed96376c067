/**
 * `DriverFactory` of mobile/src/driver/driver_factory.py: the class object
 * that holds the one Appium session and the optional local Appium service.
 *
 * Every call into the Appium client is a parameter of the method that makes
 * it (the outcome that call would have), and every method returns the list of
 * calls it actually made, in order, as `sent`.
 */
module MobileDriverFactory {
  import opened Outcomes
  import opened ConfigValues
  import MobileSettings
  import AppiumConfig
  import Text

  /** A `webdriver.Remote` session, by identity. */
  datatype Driver = Driver(id: nat)

  /** An `AppiumService` process handle, by identity. */
  datatype Service = Service(id: nat)

  /** A call into the Appium client library. */
  datatype Request =
    | Remote(commandExecutor: string, desiredCapabilities: Options) // webdriver.Remote(...): opens a session
    | Quit(driver: Driver)                                           // driver.quit()
    | ResetApp(driver: Driver)                                       // driver.reset()
    | NewService                                                     // AppiumService()
    | Start(service: Service)                                        // service.start()
    | Stop(service: Service)                                         // service.stop()

  /** The request that opens a session for these settings. */
  function Connect(s: MobileSettings.Settings): (q: Request)
    ensures q.Remote? && q.desiredCapabilities == AppiumConfig.AndroidCapabilities(s)
    ensures q.commandExecutor == MobileSettings.AppiumUrl(s)
  {
    Remote(MobileSettings.AppiumUrl(s), AppiumConfig.AndroidCapabilities(s))
  }

  /**
   * The log lines `create_driver()` evaluates before it connects render the
   * Appium URL (driver_factory.py:36) and the capabilities (:39): they render
   * iff the port and the command timeout in milliseconds each have at most
   * 4300 digits; otherwise `str()` raises `ValueError` inside the `try`.
   */
  predicate LogsRender(s: MobileSettings.Settings) {
    Text.FitsStr(s.appiumPort) && Text.FitsStr(s.appiumTimeout * 1000)
  }

  const NoDriverMessage: string := "Driver is not initialized. Call create_driver() first."

  class DriverFactory {
    /** The module-level `settings` the factory reads. */
    const settings: MobileSettings.Settings
    /** `DriverFactory._driver` */
    var driver: Option<Driver>
    /** `DriverFactory._appium_service` */
    var appiumService: Option<Service>

    /** The class as first imported: both class attributes are `None`. */
    constructor(settings: MobileSettings.Settings)
      ensures this.settings == settings
      ensures driver == None && appiumService == None
    {
      this.settings := settings;
      driver := None;
      appiumService := None;
    }

    /**
     * `create_driver()`: a held session is returned as is, without any call.
     * Otherwise, once both log lines have rendered, one `webdriver.Remote`
     * call is made with the Appium URL and the Android capabilities, and only
     * a session it returns is stored; a log line that cannot render raises
     * before any call.
     */
    method CreateDriver(remote: Outcome<Driver>) returns (r: Outcome<Driver>, sent: seq<Request>)
      modifies this
      ensures old(driver).Some? ==> r == Ok(old(driver).value) && sent == [] && driver == old(driver)
      ensures old(driver).None? && LogsRender(settings) ==> r == remote && sent == [Connect(settings)]
      ensures old(driver).None? && !LogsRender(settings) ==> r == Raised(Text.StrLimitError) && sent == []
      ensures driver == if r.Ok? then Some(r.value) else None
      ensures appiumService == old(appiumService)
    {
      if driver.Some? {
        return Ok(driver.value), [];
      }
      if !LogsRender(settings) {
        return Raised(Text.StrLimitError), [];
      }
      sent := [Connect(settings)];
      match remote {
        case Ok(d) =>
          driver := Some(d);
          r := Ok(d);
        case Raised(e) =>
          r := Raised(e);
      }
    }

    /**
     * `quit_driver()`: a held session is quit and forgotten whatever `quit()`
     * does (`finally`); an `Exception` from `quit()` is swallowed, anything
     * else propagates. With no session nothing happens.
     */
    method QuitDriver(quit: Outcome<()>) returns (r: Outcome<()>, sent: seq<Request>)
      modifies this
      ensures driver == None
      ensures old(driver).Some? ==> sent == [Quit(old(driver).value)] && r == Swallowed(quit)
      ensures old(driver).None? ==> sent == [] && r == Done
      ensures appiumService == old(appiumService)
    {
      r, sent := Done, [];
      if driver.Some? {
        sent := [Quit(driver.value)];
        r := Swallowed(quit);
        driver := None;
      }
    }

    /** `get_driver()`: the held session, or `RuntimeError` when there is none. */
    method GetDriver() returns (r: Outcome<Driver>)
      ensures r.Ok? <==> driver.Some?
      ensures r.Ok? ==> r.value == driver.value
      ensures r.Raised? ==> r.error == RuntimeError(NoDriverMessage)
    {
      if driver.None? {
        return Raised(RuntimeError(NoDriverMessage));
      }
      return Ok(driver.value);
    }

    /**
     * `start_appium_service()`: a new service is created and stored before it
     * is started, so it stays recorded when `start()` raises; a held service is
     * replaced without being stopped. Every exception propagates.
     */
    method StartAppiumService(created: Outcome<Service>, started: Outcome<()>) returns (r: Outcome<()>, sent: seq<Request>)
      modifies this
      ensures created.Raised? ==> r == Raised(created.error) && sent == [NewService] && appiumService == old(appiumService)
      ensures created.Ok? ==> r == started && sent == [NewService, Start(created.value)] && appiumService == Some(created.value)
      ensures driver == old(driver)
    {
      sent := [NewService];
      if created.Raised? {
        return Raised(created.error), sent;
      }
      appiumService := Some(created.value);
      sent := sent + [Start(created.value)];
      r := started;
    }

    /**
     * `stop_appium_service()`: a held service is stopped and forgotten
     * whatever `stop()` does; an `Exception` from `stop()` is swallowed.
     */
    method StopAppiumService(stopped: Outcome<()>) returns (r: Outcome<()>, sent: seq<Request>)
      modifies this
      ensures appiumService == None
      ensures old(appiumService).Some? ==> sent == [Stop(old(appiumService).value)] && r == Swallowed(stopped)
      ensures old(appiumService).None? ==> sent == [] && r == Done
      ensures driver == old(driver)
    {
      r, sent := Done, [];
      if appiumService.Some? {
        sent := [Stop(appiumService.value)];
        r := Swallowed(stopped);
        appiumService := None;
      }
    }
  }

  /**
   * Two `create_driver()` calls open one session: the second returns the
   * first one's session and makes no call. When the log lines cannot render,
   * both raise the `ValueError` of `str()` and nothing is called.
   */
  method CreateTwiceOpensOneSession(s: MobileSettings.Settings, first: Outcome<Driver>, second: Outcome<Driver>)
    returns (r1: Outcome<Driver>, r2: Outcome<Driver>, sent: seq<Request>)
    requires first.Ok?
    ensures LogsRender(s) ==> r1 == r2 == first && sent == [Connect(s)]
    ensures !LogsRender(s) ==> r1 == r2 == Raised(Text.StrLimitError) && sent == []
  {
    var f := new DriverFactory(s);
    var sent1, sent2;
    r1, sent1 := f.CreateDriver(first);
    r2, sent2 := f.CreateDriver(second);
    sent := sent1 + sent2;
  }

  /**
   * A failed connection stores nothing: the next `create_driver()` connects
   * again, and `get_driver()` in between raises.
   */
  method FailedCreateIsRetried(s: MobileSettings.Settings, e: Exc, next: Outcome<Driver>)
    returns (between: Outcome<Driver>, r: Outcome<Driver>, sent: seq<Request>)
    ensures between == Raised(RuntimeError(NoDriverMessage))
    ensures LogsRender(s) ==> r == next && sent == [Connect(s), Connect(s)]
    ensures !LogsRender(s) ==> r == Raised(Text.StrLimitError) && sent == []
  {
    var f := new DriverFactory(s);
    var r1, sent1 := f.CreateDriver(Raised(e));
    between := f.GetDriver();
    var sent2;
    r, sent2 := f.CreateDriver(next);
    sent := sent1 + sent2;
  }

  /**
   * After `quit_driver()` the factory holds no session even when `quit()`
   * raised, so `get_driver()` raises and `create_driver()` opens a new one.
   */
  method QuitThenCreateReconnects(s: MobileSettings.Settings, d: Driver, quit: Outcome<()>, next: Outcome<Driver>)
    returns (afterQuit: Outcome<Driver>, r: Outcome<Driver>, sent: seq<Request>)
    ensures afterQuit.Raised?
    ensures LogsRender(s) ==> r == next && sent == [Connect(s), Quit(d), Connect(s)]
    ensures !LogsRender(s) ==> r == Raised(Text.StrLimitError) && sent == []
  {
    var f := new DriverFactory(s);
    var r1, sent1 := f.CreateDriver(Ok(d));
    var q, sent2 := f.QuitDriver(quit);
    afterQuit := f.GetDriver();
    var sent3;
    r, sent3 := f.CreateDriver(next);
    sent := sent1 + sent2 + sent3;
  }

  /**
   * A command timeout that loads can still be too long to log: 10^4297
   * seconds has 4298 digits, but 10^4300 milliseconds has 4301, so
   * `create_driver()` raises before it connects.
   */
  lemma TimeoutThatLoadsMayNotRender(s: MobileSettings.Settings)
    requires s.appiumTimeout == Text.Pow10(4297)
    ensures Text.FitsStr(s.appiumTimeout)
    ensures !LogsRender(s)
  {
    Text.Pow10Monotone(4297, Text.MaxStrDigits);
    Text.FitsStrBound(s.appiumTimeout);
    assert s.appiumTimeout * 1000 == Text.Pow10(Text.MaxStrDigits);
    Text.FitsStrBound(s.appiumTimeout * 1000);
  }

  /**
   * A service whose `start()` raised is still recorded, so the following
   * `stop_appium_service()` stops it.
   */
  method FailedStartIsStillStopped(s: MobileSettings.Settings, svc: Service, e: Exc, stopped: Outcome<()>)
    returns (started: Outcome<()>, sent: seq<Request>)
    ensures started == Raised(e)
    ensures sent == [NewService, Start(svc), Stop(svc)]
  {
    var f := new DriverFactory(s);
    var sent1, sent2, r2;
    started, sent1 := f.StartAppiumService(Ok(svc), Raised(e));
    r2, sent2 := f.StopAppiumService(stopped);
    sent := sent1 + sent2;
  }
}
