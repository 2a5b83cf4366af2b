/** `GradingService.runGrading`: parse the script into tests, open a browser
    context and one page on the target, run every test there in order, and
    build the response; any error thrown on the way discards the results, and
    the context and browser are closed on every path after parsing.

    The collaborators are the modules of this project: the parser, the
    runner, the browser manager over `Chromium`, the evidence collector and
    the feedback generator. What only the world decides (whether a launch,
    `newPage` or `goto` succeeds, how each test's code ends, what the page
    captures give, what storage and the AI model answer) is the `Env` of the
    request. */
module Grading {
  import opened Common
  import opened Text
  import ScriptParser
  import ScriptRunner
  import opened Browser
  import Feedback
  import opened Evidence

  /** `GradingRequestDto`. */
  datatype Request = Request(submissionId: string, targetUrl: string, playwrightScript: string)

  /** `GradingResultItem`. */
  datatype ResultItem = ResultItem(taskName: string, isPassed: bool, feedback: string)

  /** `GradingResponseDto`; an absent `errorMessage` is `None`. */
  datatype Response = Response(submissionId: string, success: bool, results: seq<ResultItem>, errorMessage: Option<string>)

  /** How the code of one test ends, and what the runner's own screenshot
      and `content()` after a failure give. */
  datatype TestRun = TestRun(outcome: ScriptRunner.RunOutcome, shot: Attempt<Bytes>, content: Attempt<string>)

  /** What the world does during one request: the outcome of a browser
      launch, of `newPage` and of `goto`; for the `i`-th test its run and
      the evidence screenshot taken after a failure; the storage uploader;
      the AI model; and `JSON.parse`. */
  datatype Env = Env(
    launch: Attempt<()>,
    newPage: Attempt<()>,
    goto: Attempt<()>,
    runs: nat -> TestRun,
    evidenceShot: nat -> Attempt<Bytes>,
    upload: BufferUploader,
    model: Feedback.Model,
    parse: string -> Feedback.Parsed)

  const NoTestsMessage: string := "No test cases found in playwrightScript"
  const PassFeedback: string := "테스트 통과"
  const UnknownError: string := "Unknown error"

  /** `taskName.replace(/\s+/g, '_')`, the test's id in evidence paths. */
  function TaskId(taskName: string): string {
    ReplaceWhitespaceRuns(taskName)
  }

  /** `result.error || 'Unknown error'`: an absent or empty error becomes
      `Unknown error`. */
  function FeedbackMessage(result: ScriptRunner.ExecutionResult): (m: string)
    ensures result.error.Some? && result.error.value != [] ==> m == result.error.value
    ensures result.error.None? || result.error.value == [] ==> m == UnknownError
  {
    match result.error
    case Some(e) => if e != [] then e else UnknownError
    case None => UnknownError
  }

  /** What `execute(code, { page, expect })` resolves to for a run. */
  function RunResult(run: TestRun): ScriptRunner.ExecutionResult {
    ScriptRunner.ResultOf(run.outcome, ScriptRunner.NoOptions, run.shot, run.content)
  }

  /** The item of the `i`-th test, or what its evidence capture threw. */
  function ItemFor(sid: string, test: ScriptParser.ParsedTestScript, i: nat, env: Env): Attempt<ResultItem> {
    var result := RunResult(env.runs(i));
    if result.success then Done(ResultItem(test.taskName, true, PassFeedback))
    else
      match CaptureScreenshot(env.evidenceShot(i), sid, TaskId(test.taskName), env.upload)
      case Threw(e) => Threw(e)
      case Done(url) =>
        var error := Feedback.ScriptError(test.taskName, test.code, FeedbackMessage(result));
        var fb := Feedback.GenerateFeedback(error, Some(url), env.model, env.parse);
        Done(ResultItem(test.taskName, false, fb.summary + " " + fb.suggestion))
  }

  /** The items of the first `n` tests, or the first error thrown. */
  function Items(sid: string, tests: seq<ScriptParser.ParsedTestScript>, n: nat, env: Env): Attempt<seq<ResultItem>>
    requires n <= |tests|
    decreases n
  {
    if n == 0 then Done([])
    else
      match Items(sid, tests, n - 1, env)
      case Threw(e) => Threw(e)
      case Done(xs) =>
        match ItemFor(sid, tests[n - 1], n - 1, env)
        case Threw(e) => Threw(e)
        case Done(x) => Done(xs + [x])
  }

  predicate AllPassed(items: seq<ResultItem>) {
    forall k :: 0 <= k < |items| ==> items[k].isPassed
  }

  lemma AllPassedAppend(items: seq<ResultItem>, x: ResultItem)
    ensures AllPassed(items + [x]) <==> AllPassed(items) && x.isPassed
  {
    if AllPassed(items) && x.isPassed {
      forall k | 0 <= k < |items + [x]| ensures (items + [x])[k].isPassed {
        if k < |items| {
          assert (items + [x])[k] == items[k];
        }
      }
    }
    if AllPassed(items + [x]) {
      assert (items + [x])[|items|] == x;
      forall k | 0 <= k < |items| ensures items[k].isPassed {
        assert (items + [x])[k] == items[k];
      }
    }
  }

  /** The manager's cached handle refers to a browser that was closed. */
  predicate Stale(cached: Option<nat>, closed: set<nat>) {
    cached.Some? && cached.value in closed
  }

  /** The `try` block, for a manager that holds a handle (`cached`) which
      may be `stale`. */
  function TrySpec(sid: string, tests: seq<ScriptParser.ParsedTestScript>, env: Env, cached: bool, stale: bool): Attempt<Response> {
    if !cached && env.launch.Threw? then Threw(env.launch.error)
    else if stale then Threw(ErrorObj(ClosedBrowserMessage))
    else if env.newPage.Threw? then Threw(env.newPage.error)
    else if env.goto.Threw? then Threw(env.goto.error)
    else
      match Items(sid, tests, |tests|, env)
      case Threw(e) => Threw(e)
      case Done(items) => Done(Response(sid, AllPassed(items), items, None))
  }

  /** The response of `runGrading`. */
  function GradingSpec(request: Request, env: Env, cached: bool, stale: bool): Response {
    var tests := ScriptParser.Parse(request.playwrightScript);
    if |tests| == 0 then Response(request.submissionId, false, [], Some(NoTestsMessage))
    else
      match TrySpec(request.submissionId, tests, env, cached, stale)
      case Done(r) => r
      case Threw(e) => Response(request.submissionId, false, [], Some(ErrorText(e)))
  }

  /** The handle `launchBrowser` gives a manager holding `cached` when
      `launched` browsers were launched before. */
  function Acquired(cached: Option<nat>, launched: nat, launch: Attempt<()>): Option<nat> {
    if cached.Some? then cached else if launch.Done? then Some(launched) else None
  }

  /** The context `createContext` then gives, `contexts` contexts existing
      before. */
  function Created(cached: Option<nat>, closed: set<nat>, launched: nat, launch: Attempt<()>, contexts: nat): Option<nat> {
    if Acquired(cached, launched, launch).Some? && !Stale(cached, closed) then Some(contexts) else None
  }

  function SetOf(o: Option<nat>): set<nat> {
    if o.Some? then {o.value} else {}
  }

  /** Once a test's evidence capture has thrown, the loop stays thrown. */
  lemma {:induction false} ItemsStayThrown(sid: string, tests: seq<ScriptParser.ParsedTestScript>, k: nat, n: nat, env: Env)
    requires k <= n <= |tests| && Items(sid, tests, k, env).Threw?
    ensures Items(sid, tests, n, env) == Items(sid, tests, k, env)
    decreases n - k
  {
    if k < n {
      ItemsStayThrown(sid, tests, k, n - 1, env);
    }
  }

  /** The `for` loop over the tests, all on the one page. */
  method RunTests(sid: string, tests: seq<ScriptParser.ParsedTestScript>, env: Env)
    returns (outcome: Attempt<seq<ResultItem>>, hasErrors: bool)
    ensures outcome == Items(sid, tests, |tests|, env)
    ensures outcome.Done? ==> (hasErrors <==> !AllPassed(outcome.value))
  {
    var results: seq<ResultItem> := [];
    hasErrors := false;
    for i := 0 to |tests|
      invariant Items(sid, tests, i, env) == Done(results)
      invariant hasErrors <==> !AllPassed(results)
    {
      var script := tests[i];
      var run := env.runs(i);
      var result := ScriptRunner.Execute(script.code, run.outcome, ScriptRunner.NoOptions, run.shot, run.content);
      assert result == RunResult(run);
      if result.success {
        var item := ResultItem(script.taskName, true, PassFeedback);
        assert ItemFor(sid, tests[i], i, env) == Done(item);
        AllPassedAppend(results, item);
        results := results + [item];
      } else {
        hasErrors := true;
        var taskId := TaskId(script.taskName);
        var screenshotUrl := CaptureScreenshot(env.evidenceShot(i), sid, taskId, env.upload);
        if screenshotUrl.Threw? {
          ItemsStayThrown(sid, tests, i + 1, |tests|, env);
          return Threw(screenshotUrl.error), hasErrors;
        }
        var error := Feedback.ScriptError(script.taskName, script.code, FeedbackMessage(result));
        var feedback := Feedback.GenerateFeedback(error, Some(screenshotUrl.value), env.model, env.parse);
        var item := ResultItem(script.taskName, false, feedback.summary + " " + feedback.suggestion);
        assert ItemFor(sid, tests[i], i, env) == Done(item);
        AllPassedAppend(results, item);
        results := results + [item];
      }
    }
    outcome := Done(results);
  }

  /** The `try` block: launch, context, page, navigation and the loop. It
      also gives the `browser` and `context` variables as they stand when
      the block ends, for the `finally` block. */
  method TryGrading(m: BrowserManagerService, sid: string, targetUrl: string,
                    tests: seq<ScriptParser.ParsedTestScript>, env: Env)
    returns (r: Attempt<Response>, browser: Option<nat>, context: Option<nat>)
    requires m.Valid()
    modifies m, m.chromium
    ensures m.Valid()
    ensures r == TrySpec(sid, tests, env, old(m.browser).Some?, Stale(old(m.browser), old(m.chromium.closed)))
    ensures browser == Acquired(old(m.browser), old(m.chromium.launched), env.launch) == m.browser
    ensures context == Created(old(m.browser), old(m.chromium.closed), old(m.chromium.launched), env.launch, |old(m.chromium.contexts)|)
    ensures browser.Some? ==> browser.value < m.chromium.launched
    ensures context.Some? ==>
      context.value < |m.chromium.contexts| && m.chromium.contexts[context.value] == ContextRecord(browser.value, DefaultContext)
    ensures m.chromium.closed == old(m.chromium.closed) && m.chromium.closedContexts == old(m.chromium.closedContexts)
    ensures m.chromium.pages == old(m.chromium.pages) + (if context.Some? && env.newPage.Done? then [context.value] else [])
    ensures m.chromium.contexts
      == old(m.chromium.contexts) + (if context.Some? then [ContextRecord(browser.value, DefaultContext)] else [])
    ensures m.chromium.launched == old(m.chromium.launched) + (if old(m.browser).None? && env.launch.Done? then 1 else 0)
  {
    browser := None;
    context := None;
    var b := m.LaunchBrowser(env.launch);
    if b.Threw? {
      return Threw(b.error), browser, context;
    }
    browser := Some(b.value);
    var c := m.CreateContext(None, env.launch);
    if c.Threw? {
      return Threw(c.error), browser, context;
    }
    context := Some(c.value);
    var page := m.chromium.NewPage(c.value, env.newPage);
    if page.Threw? {
      return Threw(page.error), browser, context;
    }
    if env.goto.Threw? {
      return Threw(env.goto.error), browser, context;
    }
    var items, hasErrors := RunTests(sid, tests, env);
    if items.Threw? {
      return Threw(items.error), browser, context;
    }
    r := Done(Response(sid, !hasErrors, items.value, None));
  }

  /** The `finally` block as written: `context.close()` and
      `browser.close()` on the handles themselves. */
  method CloseDirectly(m: BrowserManagerService, browser: Option<nat>, context: Option<nat>)
    requires m.Valid()
    requires browser.Some? ==> browser.value < m.chromium.launched
    requires context.Some? ==> context.value < |m.chromium.contexts|
    modifies m.chromium
    ensures m.Valid()
    ensures m.chromium.closed == old(m.chromium.closed) + SetOf(browser)
    ensures m.chromium.closedContexts == old(m.chromium.closedContexts) + SetOf(context)
    ensures m.chromium.launched == old(m.chromium.launched) && m.chromium.contexts == old(m.chromium.contexts)
    ensures m.chromium.pages == old(m.chromium.pages)
  {
    if context.Some? {
      m.chromium.CloseContext(context.value);
    }
    if browser.Some? {
      m.chromium.Close(browser.value);
    }
  }

  /** The corrected `finally` block: only the request's own context is
      closed; the browser stays open and cached in the manager, whose
      `closeBrowser` (`onModuleDestroy`) is the one place it is closed. */
  method CloseContextOnly(m: BrowserManagerService, context: Option<nat>)
    requires m.Valid()
    requires context.Some? ==> context.value < |m.chromium.contexts|
    modifies m.chromium
    ensures m.Valid()
    ensures m.chromium.closedContexts == old(m.chromium.closedContexts) + SetOf(context)
    ensures m.chromium.closed == old(m.chromium.closed) && m.chromium.launched == old(m.chromium.launched)
    ensures m.chromium.contexts == old(m.chromium.contexts) && m.chromium.pages == old(m.chromium.pages)
  {
    if context.Some? {
      m.chromium.CloseContext(context.value);
    }
  }

  /** `runGrading` as written. After a request that launched or reused a
      browser, the manager still holds that browser's handle although the
      `finally` block closed it. */
  method RunGrading(m: BrowserManagerService, request: Request, env: Env) returns (response: Response)
    requires m.Valid()
    modifies m, m.chromium
    ensures m.Valid()
    ensures response == GradingSpec(request, env, old(m.browser).Some?, Stale(old(m.browser), old(m.chromium.closed)))
    ensures ScriptParser.Parse(request.playwrightScript) == [] ==>
      m.browser == old(m.browser) && m.chromium.launched == old(m.chromium.launched)
      && m.chromium.contexts == old(m.chromium.contexts) && m.chromium.pages == old(m.chromium.pages)
      && m.chromium.closed == old(m.chromium.closed) && m.chromium.closedContexts == old(m.chromium.closedContexts)
    ensures ScriptParser.Parse(request.playwrightScript) != [] ==>
      var b := Acquired(old(m.browser), old(m.chromium.launched), env.launch);
      var c := Created(old(m.browser), old(m.chromium.closed), old(m.chromium.launched), env.launch, |old(m.chromium.contexts)|);
      m.browser == b
      && m.chromium.closed == old(m.chromium.closed) + SetOf(b)
      && m.chromium.closedContexts == old(m.chromium.closedContexts) + SetOf(c)
      && |m.chromium.pages| <= |old(m.chromium.pages)| + 1
      && m.chromium.launched == old(m.chromium.launched) + (if old(m.browser).None? && env.launch.Done? then 1 else 0)
    ensures forall i :: |old(m.chromium.contexts)| <= i < |m.chromium.contexts| ==> i in m.chromium.closedContexts
    ensures forall b :: old(m.chromium.launched) <= b < m.chromium.launched ==> b in m.chromium.closed
  {
    var tests := ScriptParser.ParsePlaywrightScript(request.playwrightScript);
    if |tests| == 0 {
      return Response(request.submissionId, false, [], Some(NoTestsMessage));
    }
    var r, browser, context := TryGrading(m, request.submissionId, request.targetUrl, tests, env);
    response := match r
      case Done(ok) => ok
      case Threw(e) => Response(request.submissionId, false, [], Some(ErrorText(e)));
    CloseDirectly(m, browser, context);
  }

  /** `runGrading` with the corrected `finally` block: the response is the
      same, the request's context is closed, and the browser it used stays
      open and cached for the next request. */
  method RunGradingCorrected(m: BrowserManagerService, request: Request, env: Env) returns (response: Response)
    requires m.Valid()
    modifies m, m.chromium
    ensures m.Valid()
    ensures response == GradingSpec(request, env, old(m.browser).Some?, Stale(old(m.browser), old(m.chromium.closed)))
    ensures ScriptParser.Parse(request.playwrightScript) == [] ==>
      m.browser == old(m.browser) && m.chromium.launched == old(m.chromium.launched)
      && m.chromium.contexts == old(m.chromium.contexts) && m.chromium.pages == old(m.chromium.pages)
      && m.chromium.closed == old(m.chromium.closed) && m.chromium.closedContexts == old(m.chromium.closedContexts)
    ensures ScriptParser.Parse(request.playwrightScript) != [] ==>
      var b := Acquired(old(m.browser), old(m.chromium.launched), env.launch);
      var c := Created(old(m.browser), old(m.chromium.closed), old(m.chromium.launched), env.launch, |old(m.chromium.contexts)|);
      m.browser == b
      && m.chromium.closed == old(m.chromium.closed)
      && m.chromium.closedContexts == old(m.chromium.closedContexts) + SetOf(c)
      && |m.chromium.pages| <= |old(m.chromium.pages)| + 1
      && m.chromium.launched == old(m.chromium.launched) + (if old(m.browser).None? && env.launch.Done? then 1 else 0)
    ensures forall i :: |old(m.chromium.contexts)| <= i < |m.chromium.contexts| ==> i in m.chromium.closedContexts
    ensures forall b :: old(m.chromium.launched) <= b < m.chromium.launched ==> b !in m.chromium.closed
  {
    var tests := ScriptParser.ParsePlaywrightScript(request.playwrightScript);
    if |tests| == 0 {
      return Response(request.submissionId, false, [], Some(NoTestsMessage));
    }
    var r, browser, context := TryGrading(m, request.submissionId, request.targetUrl, tests, env);
    response := match r
      case Done(ok) => ok
      case Threw(e) => Response(request.submissionId, false, [], Some(ErrorText(e)));
    CloseContextOnly(m, context);
  }

  /** A script without any declaration gives the fixed failure, whatever
      the state of the browser manager; `RunGrading` then does no browser
      work at all. */
  lemma GradingNoTests(request: Request, env: Env, cached: bool, stale: bool)
    requires forall p :: 0 <= p <= |request.playwrightScript| ==>
      ScriptParser.MatchAt(request.playwrightScript, p).None?
    ensures GradingSpec(request, env, cached, stale)
      == Response(request.submissionId, false, [], Some("No test cases found in playwrightScript"))
  {
    ScriptParser.ParseEmpty(request.playwrightScript);
  }

  /** In particular the empty script. */
  lemma GradingEmptyScript(sid: string, targetUrl: string, env: Env, cached: bool, stale: bool)
    ensures GradingSpec(Request(sid, targetUrl, ""), env, cached, stale)
      == Response(sid, false, [], Some("No test cases found in playwrightScript"))
  {
    ScriptParser.ParseEmptyScript();
  }

  /** When the loop finishes, there is one item per test, in test order, each
      the item of its test and carrying its name. */
  lemma {:induction false} ItemsInOrder(sid: string, tests: seq<ScriptParser.ParsedTestScript>, n: nat, env: Env)
    requires n <= |tests| && Items(sid, tests, n, env).Done?
    ensures |Items(sid, tests, n, env).value| == n
    ensures forall k :: 0 <= k < n ==>
      ItemFor(sid, tests[k], k, env) == Done(Items(sid, tests, n, env).value[k])
      && Items(sid, tests, n, env).value[k].taskName == tests[k].taskName
    decreases n
  {
    if n > 0 {
      ItemsInOrder(sid, tests, n - 1, env);
      var xs := Items(sid, tests, n - 1, env).value;
      var x := ItemFor(sid, tests[n - 1], n - 1, env).value;
      assert Items(sid, tests, n, env).value == xs + [x];
      forall k | 0 <= k < n
        ensures ItemFor(sid, tests[k], k, env) == Done(Items(sid, tests, n, env).value[k])
        ensures Items(sid, tests, n, env).value[k].taskName == tests[k].taskName
      {
        if k < n - 1 {
          assert (xs + [x])[k] == xs[k];
        }
      }
    }
  }

  /** The item of a test: it passes exactly when the test's code completed,
      with the fixed feedback; a failing one carries the feedback generated
      for the runner's message (`Unknown error` when that message is empty)
      and the screenshot URL, as `summary + ' ' + suggestion`. */
  lemma ItemFeedback(sid: string, test: ScriptParser.ParsedTestScript, i: nat, env: Env)
    requires ItemFor(sid, test, i, env).Done?
    ensures var x := ItemFor(sid, test, i, env).value;
      x.taskName == test.taskName
      && (x.isPassed <==> env.runs(i).outcome.Completed?)
      && (x.isPassed ==> x.feedback == "테스트 통과")
    ensures var x := ItemFor(sid, test, i, env).value;
      var run := env.runs(i);
      !run.outcome.Completed? ==>
        var message := ScriptRunner.FailureMessage(run.outcome);
        var shot := CaptureScreenshot(env.evidenceShot(i), sid, TaskId(test.taskName), env.upload);
        var fb := Feedback.GenerateFeedback(
          Feedback.ScriptError(test.taskName, test.code, if message == [] then "Unknown error" else message),
          Some(shot.value), env.model, env.parse);
        shot.Done? && x.feedback == fb.summary + " " + fb.suggestion
  {
    var run := env.runs(i);
    ScriptRunner.ResultSuccess(run.outcome, ScriptRunner.NoOptions, run.shot, run.content);
  }

  /** On normal completion the response succeeds exactly when every item
      passed, and holds one item per parsed test, in parse order, with the
      test's name. */
  lemma GradingCompleted(request: Request, env: Env, cached: bool, stale: bool)
    requires ScriptParser.Parse(request.playwrightScript) != []
    requires TrySpec(request.submissionId, ScriptParser.Parse(request.playwrightScript), env, cached, stale).Done?
    ensures var tests := ScriptParser.Parse(request.playwrightScript);
      var r := GradingSpec(request, env, cached, stale);
      r.submissionId == request.submissionId && r.errorMessage.None?
      && (r.success <==> forall k :: 0 <= k < |r.results| ==> r.results[k].isPassed)
      && |r.results| == |tests|
      && forall k :: 0 <= k < |tests| ==>
        r.results[k].taskName == tests[k].taskName
        && ItemFor(request.submissionId, tests[k], k, env) == Done(r.results[k])
  {
    var tests := ScriptParser.Parse(request.playwrightScript);
    ItemsInOrder(request.submissionId, tests, |tests|, env);
  }

  /** A failure in any setup step ends the request with no results and that
      step's error text; a stale cached browser fails in `createContext`
      with Playwright's closed-browser message. */
  lemma GradingSetupFails(request: Request, env: Env, cached: bool, stale: bool)
    requires ScriptParser.Parse(request.playwrightScript) != []
    ensures var r := GradingSpec(request, env, cached, stale);
      var fail := (e: Thrown) => Response(request.submissionId, false, [], Some(ErrorText(e)));
      (!cached && env.launch.Threw? ==> r == fail(env.launch.error))
      && (cached && stale ==> r == fail(ErrorObj(ClosedBrowserMessage)))
      && ((cached || env.launch.Done?) && !stale && env.newPage.Threw? ==> r == fail(env.newPage.error))
      && ((cached || env.launch.Done?) && !stale && env.newPage.Done? && env.goto.Threw? ==> r == fail(env.goto.error))
  {
  }

  /** If the evidence capture of the `k`-th test throws, the results of the
      tests before it are discarded: the response has no results and the
      error's text. */
  lemma GradingDiscardsResults(request: Request, env: Env, cached: bool, stale: bool, k: nat)
    requires var tests := ScriptParser.Parse(request.playwrightScript);
      k < |tests| && Items(request.submissionId, tests, k, env).Done?
      && ItemFor(request.submissionId, tests[k], k, env).Threw?
    requires (cached || env.launch.Done?) && !stale && env.newPage.Done? && env.goto.Done?
    ensures var tests := ScriptParser.Parse(request.playwrightScript);
      GradingSpec(request, env, cached, stale) == Response(request.submissionId, false, [],
        Some(ErrorText(ItemFor(request.submissionId, tests[k], k, env).error)))
  {
    var tests := ScriptParser.Parse(request.playwrightScript);
    ItemsStayThrown(request.submissionId, tests, k + 1, |tests|, env);
  }

  /** A manager holding a closed browser fails every request that has tests,
      with Playwright's closed-browser message. */
  lemma StaleBrowserFails(request: Request, env: Env)
    requires ScriptParser.Parse(request.playwrightScript) != []
    ensures GradingSpec(request, env, true, true)
      == Response(request.submissionId, false, [], Some(ClosedBrowserMessage))
  {
  }

  /** Two requests on one service, as written: once the first has launched
      the browser, the second fails in `createContext`, whatever the world
      does, because the cached handle was closed by the first. */
  method SecondRequestAsWritten(m: BrowserManagerService, r1: Request, e1: Env, r2: Request, e2: Env)
    returns (first: Response, second: Response)
    requires m.Valid() && m.browser.None? && e1.launch.Done?
    requires ScriptParser.Parse(r1.playwrightScript) != [] && ScriptParser.Parse(r2.playwrightScript) != []
    modifies m, m.chromium
    ensures first == GradingSpec(r1, e1, false, false)
    ensures second == Response(r2.submissionId, false, [], Some(ClosedBrowserMessage))
  {
    first := RunGrading(m, r1, e1);
    second := RunGrading(m, r2, e2);
    StaleBrowserFails(r2, e2);
  }

  /** The same two requests with the corrected `finally` block: the second
      reuses the browser the first launched, which is still open, and gets
      the response of a service holding a live browser. */
  method SecondRequestCorrected(m: BrowserManagerService, r1: Request, e1: Env, r2: Request, e2: Env)
    returns (first: Response, second: Response)
    requires m.Valid() && m.browser.None? && e1.launch.Done?
    requires ScriptParser.Parse(r1.playwrightScript) != [] && ScriptParser.Parse(r2.playwrightScript) != []
    modifies m, m.chromium
    ensures first == GradingSpec(r1, e1, false, false)
    ensures second == GradingSpec(r2, e2, true, false)
    ensures m.browser == Some(old(m.chromium.launched)) && m.browser.value !in m.chromium.closed
    ensures m.chromium.launched == old(m.chromium.launched) + 1
  {
    ghost var launched := m.chromium.launched;
    first := RunGradingCorrected(m, r1, e1);
    assert m.browser == Some(launched) && launched !in m.chromium.closed;
    second := RunGradingCorrected(m, r2, e2);
  }
}
