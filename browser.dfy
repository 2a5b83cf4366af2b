/** `BrowserManagerService`: one cached browser handle, launched on first
    use, shared by every context it creates, and dropped by `closeBrowser`.
    The Playwright side (`chromium.launch`, `browser.newContext`,
    `context.newPage`, the `close` calls) is the class `Chromium`, which
    hands out numbered handles and records what was opened and closed. */
module Browser {
  import opened Common

  /** A value in an options object, as far as the merge is concerned. */
  datatype Value = Undefined | Str(s: string) | Num(n: int) | Bool(b: bool) | Obj(fields: map<string, Value>)

  /** A `BrowserContextOptions` object: its own enumerable properties. */
  type ContextOptions = map<string, Value>

  /** `BROWSER_CONFIG.context`. */
  const DefaultContext: ContextOptions := map[
    "viewport" := Obj(map["width" := Num(1280), "height" := Num(720)]),
    "userAgent" := Str("ConnectableGrader/1.0"),
    "locale" := Str("ko-KR"),
    "timezoneId" := Str("Asia/Seoul")]

  /** What Playwright throws from `newContext` on a browser that was closed. */
  const ClosedBrowserMessage: string := "browser.newContext: Target page, context or browser has been closed"

  /** `{ ...BROWSER_CONFIG.context, ...options }`; spreading an absent
      `options` adds nothing. */
  function ContextOptionsFor(options: Option<ContextOptions>): ContextOptions {
    match options
    case None => DefaultContext
    case Some(o) => DefaultContext + o
  }

  /** The shallow merge: the keys are the defaults' and the caller's; a key
      the caller supplies has the caller's value (even `undefined`), every
      other key keeps its default. */
  lemma ContextOptionsMerge(options: Option<ContextOptions>)
    ensures var r := ContextOptionsFor(options);
      forall k :: k in r <==> k in DefaultContext || (options.Some? && k in options.value)
    ensures var r := ContextOptionsFor(options);
      forall k :: options.Some? && k in options.value ==> r[k] == options.value[k]
    ensures var r := ContextOptionsFor(options);
      forall k :: k in DefaultContext && (options.None? || k !in options.value) ==> r[k] == DefaultContext[k]
  {
  }

  /** A context that was created: the browser it belongs to and its options. */
  datatype ContextRecord = ContextRecord(browser: nat, options: ContextOptions)

  /** The Playwright library as the core sees it. Browsers are numbered
      `0 .. launched - 1` in launch order, contexts and pages by their
      position in `contexts` and `pages`. */
  class Chromium {
    var launched: nat
    var closed: set<nat>
    var contexts: seq<ContextRecord>
    var closedContexts: set<nat>
    /** The context of each page, in creation order. */
    var pages: seq<nat>

    ghost predicate Valid()
      reads this
    {
      (forall b :: b in closed ==> b < launched)
      && (forall c :: 0 <= c < |contexts| ==> contexts[c].browser < launched)
      && (forall c :: c in closedContexts ==> c < |contexts|)
      && (forall p :: 0 <= p < |pages| ==> pages[p] < |contexts|)
    }

    constructor()
      ensures Valid()
      ensures launched == 0 && closed == {} && contexts == [] && closedContexts == {} && pages == []
    {
      launched := 0;
      closed := {};
      contexts := [];
      closedContexts := {};
      pages := [];
    }

    /** `chromium.launch(...)`, which succeeds or fails as `outcome` says; a
        successful launch gives a handle never handed out before. */
    method Launch(outcome: Attempt<()>) returns (r: Attempt<nat>)
      requires Valid()
      modifies this
      ensures Valid()
      ensures r.Done? <==> outcome.Done?
      ensures outcome.Done? ==> r.value == old(launched) && launched == old(launched) + 1
      ensures outcome.Threw? ==> r.error == outcome.error && launched == old(launched)
      ensures closed == old(closed) && contexts == old(contexts)
      ensures closedContexts == old(closedContexts) && pages == old(pages)
    {
      match outcome {
        case Threw(e) =>
          r := Threw(e);
        case Done(_) =>
          r := Done(launched);
          launched := launched + 1;
      }
    }

    /** `browser.close()`. */
    method Close(b: nat)
      requires Valid() && b < launched
      modifies this
      ensures Valid()
      ensures closed == old(closed) + {b}
      ensures launched == old(launched) && contexts == old(contexts)
      ensures closedContexts == old(closedContexts) && pages == old(pages)
    {
      closed := closed + {b};
    }

    /** `browser.newContext(options)`: a new context, unless the browser was
        closed. */
    method NewContext(b: nat, options: ContextOptions) returns (r: Attempt<nat>)
      requires Valid() && b < launched
      modifies this
      ensures Valid()
      ensures b in old(closed) ==> r == Threw(ErrorObj(ClosedBrowserMessage)) && contexts == old(contexts)
      ensures b !in old(closed) ==>
        r == Done(|old(contexts)|) && contexts == old(contexts) + [ContextRecord(b, options)]
      ensures launched == old(launched) && closed == old(closed)
      ensures closedContexts == old(closedContexts) && pages == old(pages)
    {
      if b in closed {
        r := Threw(ErrorObj(ClosedBrowserMessage));
      } else {
        r := Done(|contexts|);
        contexts := contexts + [ContextRecord(b, options)];
      }
    }

    /** `context.newPage()`, which succeeds or fails as `outcome` says. */
    method NewPage(c: nat, outcome: Attempt<()>) returns (r: Attempt<nat>)
      requires Valid() && c < |contexts|
      modifies this
      ensures Valid()
      ensures r.Done? <==> outcome.Done?
      ensures outcome.Done? ==> r.value == |old(pages)| && pages == old(pages) + [c]
      ensures outcome.Threw? ==> r.error == outcome.error && pages == old(pages)
      ensures launched == old(launched) && closed == old(closed)
      ensures contexts == old(contexts) && closedContexts == old(closedContexts)
    {
      match outcome {
        case Threw(e) =>
          r := Threw(e);
        case Done(_) =>
          r := Done(|pages|);
          pages := pages + [c];
      }
    }

    /** `context.close()`. */
    method CloseContext(c: nat)
      requires Valid() && c < |contexts|
      modifies this
      ensures Valid()
      ensures closedContexts == old(closedContexts) + {c}
      ensures launched == old(launched) && closed == old(closed)
      ensures contexts == old(contexts) && pages == old(pages)
    {
      closedContexts := closedContexts + {c};
    }
  }

  /** The service. `browser` is the `private browser` field; `None` is
      `null`. */
  class BrowserManagerService {
    var browser: Option<nat>
    const chromium: Chromium

    ghost predicate Valid()
      reads this, chromium
    {
      chromium.Valid() && (browser.Some? ==> browser.value < chromium.launched)
    }

    constructor(chromium: Chromium)
      requires chromium.Valid()
      ensures Valid()
      ensures browser == None && this.chromium == chromium
    {
      browser := None;
      this.chromium := chromium;
    }

    /** `launchBrowser`: the cached handle if there is one, else a launch
        whose handle is cached. A failed launch leaves the field `null`. */
    method LaunchBrowser(launch: Attempt<()>) returns (r: Attempt<nat>)
      requires Valid()
      modifies this, chromium
      ensures Valid()
      ensures old(browser).Some? ==>
        r == Done(old(browser).value) && browser == old(browser) && chromium.launched == old(chromium.launched)
      ensures old(browser).None? && launch.Done? ==>
        r == Done(old(chromium.launched)) && browser == Some(old(chromium.launched))
        && chromium.launched == old(chromium.launched) + 1
      ensures old(browser).None? && launch.Threw? ==>
        r == Threw(launch.error) && browser == None && chromium.launched == old(chromium.launched)
      ensures chromium.closed == old(chromium.closed) && chromium.contexts == old(chromium.contexts)
      ensures chromium.closedContexts == old(chromium.closedContexts) && chromium.pages == old(chromium.pages)
    {
      if browser.Some? {
        return Done(browser.value);
      }
      r := chromium.Launch(launch);
      if r.Done? {
        browser := Some(r.value);
      }
    }

    /** `createContext`: launch first if there is no handle (a failed launch
        rejects), then a new context of the cached browser with the merged
        options. */
    method CreateContext(options: Option<ContextOptions>, launch: Attempt<()>) returns (r: Attempt<nat>)
      requires Valid()
      modifies this, chromium
      ensures Valid()
      ensures old(browser).None? && launch.Threw? ==>
        r == Threw(launch.error) && browser == None && chromium.contexts == old(chromium.contexts)
      ensures old(browser).Some? || launch.Done? ==>
        browser == (if old(browser).Some? then old(browser) else Some(old(chromium.launched)))
      ensures old(browser).Some? && old(browser).value in old(chromium.closed) ==>
        r == Threw(ErrorObj(ClosedBrowserMessage)) && chromium.contexts == old(chromium.contexts)
      ensures (old(browser).Some? && old(browser).value !in old(chromium.closed)) || (old(browser).None? && launch.Done?) ==>
        r == Done(|old(chromium.contexts)|)
        && chromium.contexts == old(chromium.contexts) + [ContextRecord(browser.value, ContextOptionsFor(options))]
      ensures r.Done? ==> r.value < |chromium.contexts| && old(chromium.contexts) <= chromium.contexts
      ensures chromium.launched == old(chromium.launched) + (if old(browser).None? && launch.Done? then 1 else 0)
      ensures chromium.closed == old(chromium.closed)
      ensures chromium.closedContexts == old(chromium.closedContexts) && chromium.pages == old(chromium.pages)
    {
      if browser.None? {
        var launched := LaunchBrowser(launch);
        if launched.Threw? {
          return Threw(launched.error);
        }
      }
      r := chromium.NewContext(browser.value, ContextOptionsFor(options));
    }

    /** `closeBrowser`: close and forget the cached handle; nothing to do
        without one. */
    method CloseBrowser()
      requires Valid()
      modifies this, chromium
      ensures Valid()
      ensures browser == None
      ensures chromium.closed == old(chromium.closed) + (if old(browser).Some? then {old(browser).value} else {})
      ensures chromium.launched == old(chromium.launched) && chromium.contexts == old(chromium.contexts)
      ensures chromium.closedContexts == old(chromium.closedContexts) && chromium.pages == old(chromium.pages)
    {
      if browser.Some? {
        chromium.Close(browser.value);
        browser := None;
      }
    }

    /** `onModuleDestroy`: exactly `closeBrowser`. */
    method OnModuleDestroy()
      requires Valid()
      modifies this, chromium
      ensures Valid()
      ensures browser == None
      ensures chromium.closed == old(chromium.closed) + (if old(browser).Some? then {old(browser).value} else {})
      ensures chromium.launched == old(chromium.launched) && chromium.contexts == old(chromium.contexts)
      ensures chromium.closedContexts == old(chromium.closedContexts) && chromium.pages == old(chromium.pages)
    {
      CloseBrowser();
    }
  }

  /** Launching twice without a close gives the same handle and launches
      once. */
  method LaunchTwice(m: BrowserManagerService, first: Attempt<()>, second: Attempt<()>)
    returns (b1: Attempt<nat>, b2: Attempt<nat>)
    requires m.Valid()
    modifies m, m.chromium
    ensures b1.Done? ==> b2 == b1
    ensures m.chromium.launched <= old(m.chromium.launched) + 1
  {
    b1 := m.LaunchBrowser(first);
    b2 := m.LaunchBrowser(second);
  }

  /** Closing twice is closing once. */
  method CloseTwice(m: BrowserManagerService)
    requires m.Valid()
    modifies m, m.chromium
    ensures m.browser == None
    ensures m.chromium.closed == old(m.chromium.closed) + (if old(m.browser).Some? then {old(m.browser).value} else {})
  {
    m.CloseBrowser();
    m.CloseBrowser();
  }

  /** After `closeBrowser`, `launchBrowser` launches a browser different
      from the one it closed, which stays closed. */
  method RelaunchAfterClose(m: BrowserManagerService, first: Attempt<()>, second: Attempt<()>)
    returns (b1: Attempt<nat>, b2: Attempt<nat>)
    requires m.Valid()
    modifies m, m.chromium
    ensures b1.Done? ==> b1.value in m.chromium.closed
    ensures b1.Done? && b2.Done? ==> b2.value != b1.value && b2.value !in m.chromium.closed
  {
    b1 := m.LaunchBrowser(first);
    m.CloseBrowser();
    b2 := m.LaunchBrowser(second);
  }

  /** Two `createContext` calls give two different contexts of the same
      browser. */
  method TwoContexts(m: BrowserManagerService, launch: Attempt<()>)
    returns (c1: Attempt<nat>, c2: Attempt<nat>)
    requires m.Valid() && (m.browser.Some? ==> m.browser.value !in m.chromium.closed)
    modifies m, m.chromium
    ensures m.browser.Some? <==> old(m.browser).Some? || launch.Done?
    ensures c1.Done? && c2.Done? ==>
      c1.value != c2.value && c1.value < |m.chromium.contexts| && c2.value < |m.chromium.contexts|
      && m.chromium.contexts[c1.value].browser == m.chromium.contexts[c2.value].browser
    ensures old(m.browser).Some? || launch.Done? ==> c1.Done? && c2.Done?
  {
    c1 := m.CreateContext(None, launch);
    c2 := m.CreateContext(None, launch);
  }
}
