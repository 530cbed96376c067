/**
 * `DriverManager` of mobile/src/driver/driver_manager.py: a singleton that
 * keeps its own reference to the session the `DriverFactory` opened.
 *
 * The class object (`_instance`) is `DriverManagerClass`; each instance is a
 * `DriverManager`. Both refer to the one `DriverFactory` class object.
 */
module MobileDriverManager {
  import opened Outcomes
  import opened MobileDriverFactory
  import MobileSettings
  import Text

  const NotInitializedMessage: string := "Driver not initialized. Call init_driver() first."

  class DriverManager {
    const factory: DriverFactory
    /** `self._driver`: the class default `None` until `init_driver` assigns it. */
    var driver: Option<Driver>

    constructor(factory: DriverFactory)
      ensures this.factory == factory && driver == None
    {
      this.factory := factory;
      driver := None;
    }

    /**
     * `init_driver()`: the factory's `create_driver()`; on success the manager
     * and the factory hold the same session, on failure the exception
     * propagates and the manager's reference is untouched.
     */
    method InitDriver(remote: Outcome<Driver>) returns (r: Outcome<Driver>, sent: seq<Request>)
      modifies this, factory
      ensures old(factory.driver).Some? ==> r == Ok(old(factory.driver).value) && sent == []
      ensures old(factory.driver).None? && LogsRender(factory.settings) ==> r == remote && sent == [Connect(factory.settings)]
      ensures old(factory.driver).None? && !LogsRender(factory.settings) ==> r == Raised(Text.StrLimitError) && sent == []
      ensures driver == if r.Ok? then Some(r.value) else old(driver)
      ensures factory.driver == if r.Ok? then Some(r.value) else None
      ensures factory.appiumService == old(factory.appiumService)
    {
      r, sent := factory.CreateDriver(remote);
      if r.Ok? {
        driver := Some(r.value);
      }
    }

    /** `get_driver()`: the manager's own reference, or `RuntimeError` when it has none. */
    method GetDriver() returns (r: Outcome<Driver>)
      ensures r.Ok? <==> driver.Some?
      ensures r.Ok? ==> r.value == driver.value
      ensures r.Raised? ==> r.error == RuntimeError(NotInitializedMessage)
    {
      if driver.None? {
        return Raised(RuntimeError(NotInitializedMessage));
      }
      return Ok(driver.value);
    }

    /**
     * `close_driver()`: the factory's `quit_driver()`, then the manager forgets
     * its reference. Only an exception `quit_driver()` lets through (one that
     * does not derive from `Exception`) skips that last step.
     */
    method CloseDriver(quit: Outcome<()>) returns (r: Outcome<()>, sent: seq<Request>)
      modifies this, factory
      ensures factory.driver == None
      ensures old(factory.driver).Some? ==> sent == [Quit(old(factory.driver).value)] && r == Swallowed(quit)
      ensures old(factory.driver).None? ==> sent == [] && r == Done
      ensures driver == if r.Raised? then old(driver) else None
      ensures factory.appiumService == old(factory.appiumService)
    {
      r, sent := factory.QuitDriver(quit);
      if r.Raised? {
        return;
      }
      driver := None;
    }

    /**
     * `reset()`: with a session (every session object is truthy), `reset()` is
     * called on it and an `Exception` from it is swallowed; nothing is stored
     * or forgotten.
     */
    method Reset(reset: Outcome<()>) returns (r: Outcome<()>, sent: seq<Request>)
      ensures driver.Some? ==> sent == [ResetApp(driver.value)] && r == Swallowed(reset)
      ensures driver.None? ==> sent == [] && r == Done
    {
      if driver.None? {
        return Done, [];
      }
      return Swallowed(reset), [ResetApp(driver.value)];
    }
  }

  /** The `DriverManager` class object: the `_instance` attribute `__new__` and `reset_singleton` share. */
  class DriverManagerClass {
    const factory: DriverFactory
    var instance: DriverManager?

    /** Every instance drives the one factory. */
    ghost predicate Valid()
      reads this
    {
      instance != null ==> instance.factory == factory
    }

    constructor(factory: DriverFactory)
      ensures this.factory == factory && instance == null
      ensures Valid()
    {
      this.factory := factory;
      instance := null;
    }

    /** `DriverManager()`: the existing instance, or a new one (with no session reference) that becomes it. */
    method New() returns (m: DriverManager)
      requires Valid()
      modifies this
      ensures Valid()
      ensures instance == m && m.factory == factory
      ensures old(instance) != null ==> m == old(instance)
      ensures old(instance) == null ==> fresh(m) && m.driver == None
    {
      if instance == null {
        instance := new DriverManager(factory);
      }
      m := instance;
    }

    /** `reset_singleton()`: forgets the instance; the factory and its session are left as they are. */
    method ResetSingleton()
      modifies this
      ensures instance == null
      ensures Valid()
    {
      instance := null;
    }
  }

  /**
   * Two `DriverManager()` calls give the same object, so both see one
   * session: the one the first opened, when its log lines render.
   */
  method ConstructorReturnsOneInstance(s: MobileSettings.Settings, d: Driver) returns (same: bool, seen: Outcome<Driver>)
    ensures same
    ensures seen == if LogsRender(s) then Ok(d) else Raised(RuntimeError(NotInitializedMessage))
  {
    var factory := new DriverFactory(s);
    var cls := new DriverManagerClass(factory);
    var m1 := cls.New();
    var r, sent := m1.InitDriver(Ok(d));
    var m2 := cls.New();
    same := m1 == m2;
    seen := m2.GetDriver();
  }

  /**
   * `reset_singleton()` does not end the session: the next instance starts
   * with no reference, and its `init_driver()` returns the factory's session
   * without a new connection. When the settings' log lines cannot render, no
   * session is ever opened and both `init_driver()` calls raise.
   */
  method ResetSingletonKeepsSession(s: MobileSettings.Settings, d: Driver, next: Outcome<Driver>)
    returns (before: Outcome<Driver>, reused: Outcome<Driver>, sent: seq<Request>)
    ensures before == Raised(RuntimeError(NotInitializedMessage))
    ensures LogsRender(s) ==> reused == Ok(d) && sent == [Connect(s)]
    ensures !LogsRender(s) ==> reused == Raised(Text.StrLimitError) && sent == []
  {
    var factory := new DriverFactory(s);
    var cls := new DriverManagerClass(factory);
    var m1 := cls.New();
    var r1, sent1 := m1.InitDriver(Ok(d));
    cls.ResetSingleton();
    var m2 := cls.New();
    before := m2.GetDriver();
    var sent2;
    reused, sent2 := m2.InitDriver(next);
    sent := sent1 + sent2;
  }

  /**
   * An exception from `quit()` that `quit_driver()` does not swallow leaves
   * the manager holding a session the factory has already forgotten. When
   * the settings' log lines cannot render, there is no session to quit.
   */
  method UncaughtQuitLeavesStaleReference(s: MobileSettings.Settings, d: Driver, id: nat)
    returns (closed: Outcome<()>, managerView: Outcome<Driver>, factoryView: Outcome<Driver>)
    ensures LogsRender(s) ==> closed == Raised(Foreign(id, false)) && managerView == Ok(d)
    ensures !LogsRender(s) ==> closed == Done && managerView.Raised?
    ensures factoryView.Raised?
  {
    var factory := new DriverFactory(s);
    var m := new DriverManager(factory);
    var r, sent := m.InitDriver(Ok(d));
    closed, sent := m.CloseDriver(Raised(Foreign(id, false)));
    managerView := m.GetDriver();
    factoryView := factory.GetDriver();
  }
}
