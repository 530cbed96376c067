/**
 * `BrowserFactory` of pwa/src/browser/browser_factory.py: the class object
 * holding the Playwright driver, the browser, its context and the current
 * page.
 *
 * Every awaited Playwright call is a parameter of the method that makes it
 * (the outcome that call would have), and every method returns the list of
 * calls it actually made, in order, as `sent`.
 */
module PwaBrowserFactory {
  import opened Outcomes
  import opened ConfigValues
  import PwaSettings
  import BrowserConfig

  /** Handles returned by Playwright, by identity. */
  datatype Playwright = Playwright(id: nat)
  datatype Browser = Browser(id: nat)
  datatype Context = Context(id: nat)
  datatype Page = Page(id: nat)

  /** A call into Playwright. */
  datatype Request =
    | StartPlaywright                               // async_playwright().start()
    | Launch(browserType: string, options: Options) // getattr(playwright, browserType).launch(**options)
    | NewContext(browser: Browser, options: Options) // browser.new_context(**options)
    | NewPage(context: Context)                     // context.new_page()
    | Goto(page: Page, url: string)                 // page.goto(url)
    | PageClose(page: Page)                         // page.close()
    | ContextClose(context: Context)                // context.close()
    | BrowserClose(browser: Browser)                // browser.close()
    | PlaywrightStop(playwright: Playwright)        // playwright.stop()

  /** The browser types a Playwright driver can launch: the only attribute names with a `launch` method. */
  predicate IsBrowserType(name: string) {
    name == "chromium" || name == "firefox" || name == "webkit"
  }

  /** What `create_browser()` returns or raises, given the browser already held. */
  function LaunchOutcome(s: PwaSettings.Settings, held: Option<Browser>, started: Outcome<Playwright>, launched: Outcome<Browser>): Outcome<Browser> {
    if held.Some? then Ok(held.value)
    else if started.Raised? then Raised(started.error)
    else if !IsBrowserType(s.browserType) then Raised(AttributeError(s.browserType))
    else launched
  }

  /** The calls `create_browser()` makes, given the browser already held. */
  function LaunchRequests(s: PwaSettings.Settings, held: Option<Browser>, started: Outcome<Playwright>): seq<Request> {
    if held.Some? then []
    else if started.Raised? || !IsBrowserType(s.browserType) then [StartPlaywright]
    else [StartPlaywright, Launch(s.browserType, BrowserConfig.BrowserOptions(s))]
  }

  /**
   * `create_browser()` succeeds iff a browser is held already or a driver
   * starts and launches a browser of a known type. Without a held browser
   * Playwright is always started first, even for an unknown type; the launch
   * uses the configured type and browser options.
   */
  lemma LaunchSpec(s: PwaSettings.Settings, held: Option<Browser>, started: Outcome<Playwright>, launched: Outcome<Browser>)
    ensures LaunchOutcome(s, held, started, launched).Ok? <==>
      held.Some? || (started.Ok? && IsBrowserType(s.browserType) && launched.Ok?)
    ensures held.Some? ==> LaunchRequests(s, held, started) == [] && LaunchOutcome(s, held, started, launched) == Ok(held.value)
    ensures held.None? ==> |LaunchRequests(s, held, started)| >= 1 && LaunchRequests(s, held, started)[0] == StartPlaywright
    ensures held.None? && LaunchOutcome(s, held, started, launched).Ok? ==>
      LaunchOutcome(s, held, started, launched) == launched &&
      LaunchRequests(s, held, started)[|LaunchRequests(s, held, started)| - 1] == Launch(s.browserType, BrowserConfig.BrowserOptions(s))
    ensures held.None? && started.Ok? && !IsBrowserType(s.browserType) ==>
      LaunchOutcome(s, held, started, launched) == Raised(AttributeError(s.browserType))
  {
  }

  /** The four outcomes the teardown's awaited calls would have: page, context, browser, driver. */
  datatype Teardown = Teardown(page: Outcome<()>, context: Outcome<()>, browser: Outcome<()>, playwright: Outcome<()>)
  {
    function AsSeq(): (r: seq<Outcome<()>>)
      ensures |r| == 4
    {
      [page, context, browser, playwright]
    }
  }

  /** Index of the first `true`, `|flags|` when there is none. */
  function FirstTrue(flags: seq<bool>): (k: nat)
    ensures k <= |flags|
    ensures k < |flags| ==> flags[k]
  {
    if flags == [] then 0 else if flags[0] then 0 else 1 + FirstTrue(flags[1..])
  }

  /** `FirstTrue` is the only index that is set and preceded by unset ones only. */
  lemma {:induction false} FirstTrueIsFirst(flags: seq<bool>, k: nat)
    ensures FirstTrue(flags) == k <==>
      k <= |flags| && (k < |flags| ==> flags[k]) && forall j :: 0 <= j < k ==> !flags[j]
  {
    if flags != [] && !flags[0] && 0 < k <= |flags| {
      FirstTrueIsFirst(flags[1..], k - 1);
      if forall j :: 0 <= j < k - 1 ==> !flags[1..][j] {
        forall j | 0 <= j < k
          ensures !flags[j]
        {
          if j > 0 {
            assert flags[j] == flags[1..][j - 1];
          }
        }
      }
    }
  }

  lemma FirstTrueOfFour(a: bool, b: bool, c: bool, d: bool)
    ensures FirstTrue([a, b, c, d]) == if a then 0 else if b then 1 else if c then 2 else if d then 3 else 4
  {
    assert [a, b, c, d][1..] == [b, c, d];
    assert [b, c, d][1..] == [c, d];
    assert [c, d][1..] == [d];
    assert [d][1..] == [];
    assert FirstTrue([d]) == if d then 0 else 1;
    assert FirstTrue([c, d]) == if c then 0 else 1 + FirstTrue([d]);
    assert FirstTrue([b, c, d]) == if b then 0 else 1 + FirstTrue([c, d]);
  }

  /** The requests present among the optional ones, in order. */
  function Issued(steps: seq<Option<Request>>): (r: seq<Request>)
    ensures |r| <= |steps|
  {
    if steps == [] then []
    else Issued(steps[..|steps| - 1]) + (if steps[|steps| - 1].Some? then [steps[|steps| - 1].value] else [])
  }

  lemma IssuedStep(steps: seq<Option<Request>>, i: nat)
    requires i < |steps|
    ensures Issued(steps[..i + 1]) == Issued(steps[..i]) + (if steps[i].Some? then [steps[i].value] else [])
  {
    assert steps[..i + 1][..i] == steps[..i];
  }

  /** Absent steps issue nothing. */
  lemma {:induction false} IssuedOfAbsent(steps: seq<Option<Request>>)
    requires forall i :: 0 <= i < |steps| ==> steps[i].None?
    ensures Issued(steps) == []
  {
    if steps != [] {
      IssuedOfAbsent(steps[..|steps| - 1]);
    }
  }

  function Min(a: int, b: int): int {
    if a < b then a else b
  }

  /** The four class attributes of `BrowserFactory`, as one value. */
  datatype Held = Held(page: Option<Page>, context: Option<Context>, browser: Option<Browser>, playwright: Option<Playwright>)
  {
    /** A browser is only ever held together with the driver that launched it. */
    predicate Valid() {
      browser.Some? ==> playwright.Some?
    }

    /** The close call each held handle gets, in teardown order. */
    function CloseSteps(): (r: seq<Option<Request>>)
      ensures |r| == 4
    {
      [ if page.Some? then Some(PageClose(page.value)) else None,
        if context.Some? then Some(ContextClose(context.value)) else None,
        if browser.Some? then Some(BrowserClose(browser.value)) else None,
        if playwright.Some? then Some(PlaywrightStop(playwright.value)) else None ]
    }

    /** Which teardown steps raise: a step raises when its handle is held and its call raises. */
    function Failing(t: Teardown): (r: seq<bool>)
      ensures |r| == 4
    {
      [ page.Some? && t.page.Raised?,
        context.Some? && t.context.Raised?,
        browser.Some? && t.browser.Raised?,
        playwright.Some? && t.playwright.Raised? ]
    }

    /** The step at which the teardown stops: the first that raises, 4 when all pass. */
    function StopStep(t: Teardown): (k: nat)
      ensures k <= 4
    {
      FirstTrue(Failing(t))
    }

    /** The stopping step, case by case. */
    lemma StopStepOfFour(t: Teardown)
      ensures StopStep(t) == if Failing(t)[0] then 0 else if Failing(t)[1] then 1
        else if Failing(t)[2] then 2 else if Failing(t)[3] then 3 else 4
    {
      FirstTrueOfFour(Failing(t)[0], Failing(t)[1], Failing(t)[2], Failing(t)[3]);
      assert Failing(t) == [Failing(t)[0], Failing(t)[1], Failing(t)[2], Failing(t)[3]];
    }

    /** What `close_browser()` returns or raises: only a non-`Exception` from the stopping step escapes. */
    function CloseOutcome(t: Teardown): Outcome<()> {
      var k := StopStep(t);
      if k < 4 then Swallowed(t.AsSeq()[k]) else Done
    }

    /** The close calls the teardown makes: those of the held handles up to and including the stopping step. */
    function CloseRequests(t: Teardown): seq<Request> {
      Issued(CloseSteps()[..Min(StopStep(t) + 1, 4)])
    }

    /** The attributes after the teardown: those before the stopping step are cleared. */
    function After(t: Teardown): Held {
      var k := StopStep(t);
      Held(if k > 0 then None else page,
           if k > 1 then None else context,
           if k > 2 then None else browser,
           if k > 3 then None else playwright)
    }
  }

  const NothingHeld: Held := Held(None, None, None, None)

  /** When no close call raises, the teardown closes every held handle, in order, and clears all four. */
  lemma TeardownWithoutErrors(h: Held, t: Teardown)
    requires t.page.Ok? && t.context.Ok? && t.browser.Ok? && t.playwright.Ok?
    ensures h.StopStep(t) == 4
    ensures h.After(t) == NothingHeld
    ensures h.CloseOutcome(t) == Done
    ensures h.CloseRequests(t) == Issued(h.CloseSteps())
  {
    FirstTrueOfFour(false, false, false, false);
    assert h.Failing(t) == [false, false, false, false];
    assert h.CloseSteps()[..4] == h.CloseSteps();
  }

  /**
   * The teardown stops at the first held handle whose close raises: the
   * handles before it are cleared, it and the later ones stay held, and the
   * error escapes iff it does not derive from `Exception`.
   */
  lemma {:induction false} TeardownStopsAtFirstFailure(h: Held, t: Teardown)
    ensures var k := h.StopStep(t);
      && (forall j :: 0 <= j < k ==> !h.Failing(t)[j])
      && (k < 4 ==> h.CloseSteps()[k].Some? && t.AsSeq()[k].Raised?)
      && (forall j :: 0 <= j < k ==> h.After(t).CloseSteps()[j].None?)
      && (forall j :: k <= j < 4 ==> h.After(t).CloseSteps()[j] == h.CloseSteps()[j])
      && (h.CloseOutcome(t).Raised? <==> k < 4 && !t.AsSeq()[k].error.IsException())
  {
    FirstTrueIsFirst(h.Failing(t), h.StopStep(t));
  }

  /** The teardown keeps the driver held whenever it keeps the browser. */
  lemma TeardownPreservesValid(h: Held, t: Teardown)
    requires h.Valid()
    ensures h.After(t).Valid()
  {
  }

  /** With nothing held the teardown makes no call, raises nothing and changes nothing. */
  lemma TeardownOfNothing(t: Teardown)
    ensures NothingHeld.CloseRequests(t) == []
    ensures NothingHeld.CloseOutcome(t) == Done
    ensures NothingHeld.After(t) == NothingHeld
  {
    FirstTrueOfFour(false, false, false, false);
    assert NothingHeld.Failing(t) == [false, false, false, false];
    IssuedOfAbsent(NothingHeld.CloseSteps()[..4]);
  }

  class BrowserFactory {
    /** The module-level `settings` the factory reads. */
    const settings: PwaSettings.Settings
    var playwright: Option<Playwright>
    var browser: Option<Browser>
    var context: Option<Context>
    var page: Option<Page>

    /** A browser is only ever held together with the driver that launched it. */
    ghost predicate Valid()
      reads this
    {
      Snapshot().Valid()
    }

    /** The class as first imported: all four class attributes are `None`. */
    constructor(settings: PwaSettings.Settings)
      ensures this.settings == settings
      ensures playwright == None && browser == None && context == None && page == None
      ensures Valid()
    {
      this.settings := settings;
      playwright, browser, context, page := None, None, None, None;
    }

    /**
     * `create_browser()`: a held browser is returned without any call.
     * Otherwise the driver is started and stored, then the configured type is
     * looked up and launched; the browser is stored only when the launch
     * returns. Every exception propagates.
     */
    method CreateBrowser(started: Outcome<Playwright>, launched: Outcome<Browser>) returns (r: Outcome<Browser>, sent: seq<Request>)
      requires Valid()
      modifies this
      ensures Valid()
      ensures r == LaunchOutcome(settings, old(browser), started, launched)
      ensures sent == LaunchRequests(settings, old(browser), started)
      ensures browser == if r.Ok? then Some(r.value) else old(browser)
      ensures playwright == if old(browser).None? && started.Ok? then Some(started.value) else old(playwright)
      ensures context == old(context) && page == old(page)
    {
      if browser.Some? {
        return Ok(browser.value), [];
      }
      sent := [StartPlaywright];
      if started.Raised? {
        return Raised(started.error), sent;
      }
      playwright := Some(started.value);
      if !IsBrowserType(settings.browserType) {
        return Raised(AttributeError(settings.browserType)), sent;
      }
      var options := BrowserConfig.BrowserOptions(settings);
      sent := sent + [Launch(settings.browserType, options)];
      if launched.Ok? {
        browser := Some(launched.value);
      }
      r := launched;
    }

    /**
     * `create_context(browser)`: a new context of the given browser with the
     * context options; it replaces the held context only when it is created.
     */
    method CreateContext(b: Browser, created: Outcome<Context>) returns (r: Outcome<Context>, sent: seq<Request>)
      modifies this
      ensures r == created
      ensures sent == [NewContext(b, BrowserConfig.ContextOptions(settings))]
      ensures context == if created.Ok? then Some(created.value) else old(context)
      ensures playwright == old(playwright) && browser == old(browser) && page == old(page)
    {
      sent := [NewContext(b, BrowserConfig.ContextOptions(settings))];
      if created.Ok? {
        context := Some(created.value);
      }
      r := created;
    }

    /** `create_page(context)`: a new page of the given context; the factory does not record it. */
    method CreatePage(c: Context, created: Outcome<Page>) returns (r: Outcome<Page>, sent: seq<Request>)
      ensures r == created
      ensures sent == [NewPage(c)]
    {
      return created, [NewPage(c)];
    }

    function Snapshot(): Held
      reads this
    {
      Held(page, context, browser, playwright)
    }

    /**
     * `close_browser()`: page, context, browser and driver are closed in that
     * order, each only if held, and each is forgotten once its close call
     * returns. The first call that raises ends the teardown: its handle and
     * all later ones stay held, and only an exception not derived from
     * `Exception` escapes.
     */
    method CloseBrowser(t: Teardown) returns (r: Outcome<()>, sent: seq<Request>)
      requires Valid()
      modifies this
      ensures Valid()
      ensures r == old(Snapshot()).CloseOutcome(t)
      ensures sent == old(Snapshot()).CloseRequests(t)
      ensures Snapshot() == old(Snapshot()).After(t)
    {
      ghost var h := Snapshot();
      ghost var steps := h.CloseSteps();
      h.StopStepOfFour(t);
      ghost var k := h.StopStep(t);
      ghost var after := h.After(t);
      ghost var calls := h.CloseRequests(t);
      var o := t.AsSeq();
      sent := [];
      assert sent == Issued(steps[..0]);
      IssuedStep(steps, 0);
      if page.Some? {
        sent := sent + [PageClose(page.value)];
        if t.page.Raised? {
          assert k == 0 && after == Snapshot();
          assert calls == Issued(steps[..1]);
          return Swallowed(o[0]), sent;
        }
        page := None;
      }
      assert sent == Issued(steps[..1]);
      IssuedStep(steps, 1);
      if context.Some? {
        sent := sent + [ContextClose(context.value)];
        if t.context.Raised? {
          assert k == 1 && after == Snapshot();
          assert calls == Issued(steps[..2]);
          return Swallowed(o[1]), sent;
        }
        context := None;
      }
      assert sent == Issued(steps[..2]);
      IssuedStep(steps, 2);
      if browser.Some? {
        sent := sent + [BrowserClose(browser.value)];
        if t.browser.Raised? {
          assert k == 2 && after == Snapshot();
          assert calls == Issued(steps[..3]);
          return Swallowed(o[2]), sent;
        }
        browser := None;
      }
      assert sent == Issued(steps[..3]);
      IssuedStep(steps, 3);
      if playwright.Some? {
        sent := sent + [PlaywrightStop(playwright.value)];
        if t.playwright.Raised? {
          assert k == 3 && after == Snapshot();
          assert calls == Issued(steps[..4]);
          return Swallowed(o[3]), sent;
        }
        playwright := None;
      }
      assert sent == Issued(steps[..4]);
      assert steps[..4] == steps;
      assert k == 4 && after == Snapshot();
      r := Done;
    }

    /** `get_page()`: the recorded page, `None` when none is recorded. */
    method GetPage() returns (p: Option<Page>)
      ensures p == page
    {
      return page;
    }

    /** `set_page(page)`: records the page the next teardown closes first. */
    method SetPage(p: Page)
      modifies this
      ensures page == Some(p)
      ensures playwright == old(playwright) && browser == old(browser) && context == old(context)
    {
      page := Some(p);
    }
  }
}
