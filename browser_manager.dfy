/**
 * `BrowserManager` of pwa/src/browser/browser_manager.py: a singleton that
 * drives the `BrowserFactory` through one browser, context and page per test
 * and keeps its own references to them.
 *
 * The class object (`_instance`) is `BrowserManagerClass`; each instance is a
 * `BrowserManager`. Both refer to the one `BrowserFactory` class object.
 */
module PwaBrowserManager {
  import opened Outcomes
  import opened PwaBrowserFactory
  import PwaSettings
  import BrowserConfig

  const NotInitializedMessage: string := "Page not initialized. Call init_browser() first."

  /** What `init_browser()` returns or raises: the first failing step's exception, else the new page. */
  function InitOutcome(s: PwaSettings.Settings, held: Option<Browser>, started: Outcome<Playwright>, launched: Outcome<Browser>,
                       contextCreated: Outcome<Context>, pageCreated: Outcome<Page>, navigated: Outcome<()>): Outcome<Page>
  {
    var b :- LaunchOutcome(s, held, started, launched);
    var c :- contextCreated;
    var p :- pageCreated;
    var _ :- navigated;
    Ok(p)
  }

  /** The calls `init_browser()` makes: launch, new context, new page and navigation, up to the first failure. */
  function InitRequests(s: PwaSettings.Settings, held: Option<Browser>, started: Outcome<Playwright>, launched: Outcome<Browser>,
                        contextCreated: Outcome<Context>, pageCreated: Outcome<Page>): seq<Request>
  {
    var b := LaunchOutcome(s, held, started, launched);
    LaunchRequests(s, held, started) +
      if b.Raised? then [] else
        [NewContext(b.value, BrowserConfig.ContextOptions(s))] +
          if contextCreated.Raised? then [] else
            [NewPage(contextCreated.value)] +
              if pageCreated.Raised? then [] else [Goto(pageCreated.value, s.pwaBaseUrl)]
  }

  /**
   * `init_browser()` returns a page iff every step succeeds, and then it is
   * the page just created, navigated to the configured base URL as its last
   * call. From nothing held it makes exactly five calls in order; with a
   * browser already held it skips the launch and makes three.
   */
  lemma InitBrowserSpec(s: PwaSettings.Settings, held: Option<Browser>, started: Outcome<Playwright>, launched: Outcome<Browser>,
                        contextCreated: Outcome<Context>, pageCreated: Outcome<Page>, navigated: Outcome<()>)
    ensures var r := InitOutcome(s, held, started, launched, contextCreated, pageCreated, navigated);
      r.Ok? <==> LaunchOutcome(s, held, started, launched).Ok? && contextCreated.Ok? && pageCreated.Ok? && navigated.Ok?
    ensures var r := InitOutcome(s, held, started, launched, contextCreated, pageCreated, navigated);
      var q := InitRequests(s, held, started, launched, contextCreated, pageCreated);
      r.Ok? ==> r.value == pageCreated.value && q[|q| - 1] == Goto(pageCreated.value, s.pwaBaseUrl)
    ensures held.None? && started.Ok? && IsBrowserType(s.browserType) && launched.Ok? && contextCreated.Ok? && pageCreated.Ok? ==>
      InitRequests(s, held, started, launched, contextCreated, pageCreated) ==
        [StartPlaywright, Launch(s.browserType, BrowserConfig.BrowserOptions(s)),
         NewContext(launched.value, BrowserConfig.ContextOptions(s)), NewPage(contextCreated.value),
         Goto(pageCreated.value, s.pwaBaseUrl)]
    ensures held.Some? && contextCreated.Ok? && pageCreated.Ok? ==>
      InitRequests(s, held, started, launched, contextCreated, pageCreated) ==
        [NewContext(held.value, BrowserConfig.ContextOptions(s)), NewPage(contextCreated.value), Goto(pageCreated.value, s.pwaBaseUrl)]
  {
  }

  class BrowserManager {
    const factory: BrowserFactory
    /** `self._browser`, `self._context`, `self._page`: the class defaults `None` until assigned. */
    var browser: Option<Browser>
    var context: Option<Context>
    var page: Option<Page>

    constructor(factory: BrowserFactory)
      ensures this.factory == factory
      ensures browser == None && context == None && page == None
    {
      this.factory := factory;
      browser, context, page := None, None, None;
    }

    /**
     * `init_browser()`: the factory's browser, a new context of it and a new
     * page of that context, each stored as soon as it is obtained, then the
     * page is sent to the base URL. The first exception propagates and the
     * references of later steps are left as they were; a failed navigation
     * leaves the page stored. The factory never records the page.
     */
    method InitBrowser(started: Outcome<Playwright>, launched: Outcome<Browser>, contextCreated: Outcome<Context>,
                       pageCreated: Outcome<Page>, navigated: Outcome<()>) returns (r: Outcome<Page>, sent: seq<Request>)
      requires factory.Valid()
      modifies this, factory
      ensures factory.Valid()
      ensures r == InitOutcome(factory.settings, old(factory.browser), started, launched, contextCreated, pageCreated, navigated)
      ensures sent == InitRequests(factory.settings, old(factory.browser), started, launched, contextCreated, pageCreated)
      ensures var b := LaunchOutcome(factory.settings, old(factory.browser), started, launched);
        && browser == (if b.Ok? then Some(b.value) else old(browser))
        && context == (if b.Ok? && contextCreated.Ok? then Some(contextCreated.value) else old(context))
        && page == (if b.Ok? && contextCreated.Ok? && pageCreated.Ok? then Some(pageCreated.value) else old(page))
        && factory.browser == (if b.Ok? then Some(b.value) else old(factory.browser))
        && factory.context == (if b.Ok? && contextCreated.Ok? then Some(contextCreated.value) else old(factory.context))
      ensures factory.playwright == if old(factory.browser).None? && started.Ok? then Some(started.value) else old(factory.playwright)
      ensures factory.page == old(factory.page)
    {
      // The specification's values, named once so that every exit below is checked against the same terms.
      ghost var s := factory.settings;
      ghost var launch := LaunchOutcome(s, factory.browser, started, launched);
      ghost var calls := InitRequests(s, factory.browser, started, launched, contextCreated, pageCreated);
      ghost var out := InitOutcome(s, factory.browser, started, launched, contextCreated, pageCreated, navigated);
      var b, sentB := factory.CreateBrowser(started, launched);
      sent := sentB;
      if b.Raised? {
        return Raised(b.error), sent;
      }
      assert b == launch;
      browser := Some(b.value);
      var c, sentC := factory.CreateContext(b.value, contextCreated);
      sent := sent + sentC;
      if c.Raised? {
        return Raised(c.error), sent;
      }
      context := Some(c.value);
      var p, sentP := factory.CreatePage(c.value, pageCreated);
      sent := sent + sentP;
      if p.Raised? {
        return Raised(p.error), sent;
      }
      page := Some(p.value);
      sent := sent + [Goto(p.value, factory.settings.pwaBaseUrl)];
      if navigated.Raised? {
        return Raised(navigated.error), sent;
      }
      r := Ok(p.value);
    }

    /** `get_page()`: the manager's own page, or `RuntimeError` when it has none. */
    method GetPage() returns (r: Outcome<Page>)
      ensures r.Ok? <==> page.Some?
      ensures r.Ok? ==> r.value == page.value
      ensures r.Raised? ==> r.error == RuntimeError(NotInitializedMessage)
    {
      if page.None? {
        return Raised(RuntimeError(NotInitializedMessage));
      }
      return Ok(page.value);
    }

    /**
     * `close_browser()`: the factory's teardown, then the manager forgets all
     * three references, even where the factory kept a handle whose close
     * raised. Only an exception the teardown lets through skips that step.
     */
    method CloseBrowser(t: Teardown) returns (r: Outcome<()>, sent: seq<Request>)
      requires factory.Valid()
      modifies this, factory
      ensures factory.Valid()
      ensures r == old(factory.Snapshot()).CloseOutcome(t)
      ensures sent == old(factory.Snapshot()).CloseRequests(t)
      ensures factory.Snapshot() == old(factory.Snapshot()).After(t)
      ensures r.Raised? ==> browser == old(browser) && context == old(context) && page == old(page)
      ensures r.Ok? ==> browser == None && context == None && page == None
    {
      r, sent := factory.CloseBrowser(t);
      if r.Raised? {
        return;
      }
      page, context, browser := None, None, None;
    }
  }

  /** The `BrowserManager` class object: the `_instance` attribute `__new__` and `reset_singleton` share. */
  class BrowserManagerClass {
    const factory: BrowserFactory
    var instance: BrowserManager?

    /** Every instance drives the one factory. */
    ghost predicate Valid()
      reads this
    {
      instance != null ==> instance.factory == factory
    }

    constructor(factory: BrowserFactory)
      ensures this.factory == factory && instance == null
      ensures Valid()
    {
      this.factory := factory;
      instance := null;
    }

    /** `BrowserManager()`: the existing instance, or a new one (with no references) that becomes it. */
    method New() returns (m: BrowserManager)
      requires Valid()
      modifies this
      ensures Valid()
      ensures instance == m && m.factory == factory
      ensures old(instance) != null ==> m == old(instance)
      ensures old(instance) == null ==> fresh(m) && m.browser == None && m.context == None && m.page == None
    {
      if instance == null {
        instance := new BrowserManager(factory);
      }
      m := instance;
    }

    /** `reset_singleton()`: forgets the instance; the factory and its handles are left as they are. */
    method ResetSingleton()
      modifies this
      ensures instance == null
      ensures Valid()
    {
      instance := null;
    }
  }

  /** The teardown of what `init_browser()` leaves the factory holding: context, browser and driver, in that order. */
  lemma CloseAfterInit(pw: Playwright, b: Browser, c: Context)
    ensures var h := Held(None, Some(c), Some(b), Some(pw));
      var t := Teardown(Done, Done, Done, Done);
      && h.CloseRequests(t) == [ContextClose(c), BrowserClose(b), PlaywrightStop(pw)]
      && h.CloseOutcome(t) == Done
      && h.After(t) == NothingHeld
  {
    var h := Held(None, Some(c), Some(b), Some(pw));
    var t := Teardown(Done, Done, Done, Done);
    TeardownWithoutErrors(h, t);
    var steps := h.CloseSteps();
    IssuedStep(steps, 0);
    IssuedStep(steps, 1);
    IssuedStep(steps, 2);
    IssuedStep(steps, 3);
    assert steps[..4] == steps;
  }

  /**
   * A test's whole browser life: init from nothing, then close with no
   * errors. The page is never closed on its own, because only `set_page`
   * records a page in the factory; context, browser and driver are closed in
   * that order and nothing stays held.
   */
  method InitThenClose(s: PwaSettings.Settings, pw: Playwright, b: Browser, c: Context, p: Page)
    returns (page: Outcome<Page>, closed: Outcome<()>, sent: seq<Request>, left: Held)
    requires IsBrowserType(s.browserType)
    ensures page == Ok(p) && closed == Done
    ensures sent == [StartPlaywright, Launch(s.browserType, BrowserConfig.BrowserOptions(s)),
                     NewContext(b, BrowserConfig.ContextOptions(s)), NewPage(c), Goto(p, s.pwaBaseUrl),
                     ContextClose(c), BrowserClose(b), PlaywrightStop(pw)]
    ensures left == NothingHeld
  {
    var factory := new BrowserFactory(s);
    var m := new BrowserManager(factory);
    var sent1, sent2;
    page, sent1 := m.InitBrowser(Ok(pw), Ok(b), Ok(c), Ok(p), Done);
    var t := Teardown(Done, Done, Done, Done);
    closed, sent2 := m.CloseBrowser(t);
    CloseAfterInit(pw, b, c);
    InitBrowserSpec(s, None, Ok(pw), Ok(b), Ok(c), Ok(p), Done);
    sent := sent1 + sent2;
    left := factory.Snapshot();
  }

  /**
   * A context whose close raises an `Exception` stays held by the factory
   * while the manager forgets it: the next `init_browser()` reuses the old
   * browser without a launch and replaces the factory's context, so the old
   * context is never closed.
   */
  method FailedCloseKeepsBrowserForReuse(s: PwaSettings.Settings, pw: Playwright, b: Browser, c: Context, p: Page,
                                         e: Exc, c2: Context, p2: Page)
    returns (closed: Outcome<()>, reopened: Outcome<Page>, sent: seq<Request>, left: Held)
    requires IsBrowserType(s.browserType) && e.IsException()
    ensures closed == Done
    ensures reopened == Ok(p2)
    ensures sent == [NewContext(b, BrowserConfig.ContextOptions(s)), NewPage(c2), Goto(p2, s.pwaBaseUrl)]
    ensures left == Held(None, Some(c2), Some(b), Some(pw))
  {
    var factory := new BrowserFactory(s);
    var m := new BrowserManager(factory);
    var first, sent1 := m.InitBrowser(Ok(pw), Ok(b), Ok(c), Ok(p), Done);
    var t := Teardown(Done, Raised(e), Done, Done);
    var sent2;
    closed, sent2 := m.CloseBrowser(t);
    ghost var h := Held(None, Some(c), Some(b), Some(pw));
    FirstTrueOfFour(false, true, false, false);
    assert h.Failing(t) == [false, true, false, false];
    reopened, sent := m.InitBrowser(Ok(pw), Ok(b), Ok(c2), Ok(p2), Done);
    left := factory.Snapshot();
  }

  /**
   * `reset_singleton()` does not close anything: the next instance starts
   * with no references, and its `init_browser()` reuses the factory's browser.
   */
  method ResetSingletonKeepsBrowser(s: PwaSettings.Settings, pw: Playwright, b: Browser, c: Context, p: Page, c2: Context, p2: Page)
    returns (before: Outcome<Page>, reopened: Outcome<Page>, sent: seq<Request>)
    requires IsBrowserType(s.browserType)
    ensures before == Raised(RuntimeError(NotInitializedMessage))
    ensures reopened == Ok(p2)
    ensures sent == [NewContext(b, BrowserConfig.ContextOptions(s)), NewPage(c2), Goto(p2, s.pwaBaseUrl)]
  {
    var factory := new BrowserFactory(s);
    var cls := new BrowserManagerClass(factory);
    var m1 := cls.New();
    var first, sent1 := m1.InitBrowser(Ok(pw), Ok(b), Ok(c), Ok(p), Done);
    cls.ResetSingleton();
    var m2 := cls.New();
    before := m2.GetPage();
    reopened, sent := m2.InitBrowser(Ok(pw), Ok(b), Ok(c2), Ok(p2), Done);
  }
}
