# Playwright grading service: a verified model

This project models the core of a grading service for front-end assignments,
written in Dafny. A request holds a submission id, a target URL and a
Playwright script made of `test('<name>', async ({ page }) => { ... })`
blocks. The service works in these steps:

1. It splits the script into named test bodies.
2. It launches (or reuses) a headless Chromium, opens one context and one page, and navigates.
3. It runs each body on that page in order.
4. For every failing test, it uploads a screenshot and asks an AI model for a feedback
   text.
5. It answers with one result item per test.
6. A request whose script holds no test ends before any browser work.
   Otherwise the request ends by closing the context and the browser that
   it obtained, if it obtained them; a failed launch leaves nothing to close.

The model has one module per service:

- `Common`: `Option`, the `Attempt` of an operation that may throw, and the
  thrown value (`Error` object or other value).
- `Text`: JavaScript's whitespace set (`\s`), `String.prototype.trim`,
  `includes` and `replace(/\s+/g, '_')`.
- `ScriptParser`: `parsePlaywrightScript`. The global regular expression and
  its `lastIndex` are written as a leftmost-match scanner. Each body is found
  by brace counting and then trimmed. The
  method `ParsePlaywrightScript` has the source's two loops and is proved
  equal to the specification function `Parse`.
- `ScriptRunner`: `execute`. The run's outcome maps to an `ExecutionResult`,
  with best-effort page captures.
- `Retry`: `isRetryable` and `withRetry`. The method `WithRetry` has the
  source's attempt loop and is proved equal to `RetrySpec`. The sleeps are
  recorded as a list of durations.
- `Browser`: Playwright's `chromium` as a class recording launched and
  closed browsers, contexts and pages. `BrowserManagerService` is a class
  with the cached `browser` field.
- `Feedback`: `generateFeedback`, `buildPrompt` and `parseFeedback`, over an
  abstract AI model and an abstract JSON parser.
- `Evidence`: the object paths and `saveVideo`'s guards, over an abstract
  uploader.
- `Grading`: `runGrading` as a method over a `BrowserManagerService`. It is
  proved equal to the specification function `GradingSpec`, and it records
  every open and close in the browser's state.

The code and the design description differ in three places. The model
follows the code in each:

- **Closing the browser.** The design says the shared browser is never
  closed. The code closes it at the end of every request
  (src/grading/grading.service.ts:130-132).
- **Parallel runs.** The design describes a parallel mode and a batch
  deadline. The code has neither: its loop is sequential.
- **Evidence failures.** The design says evidence failures are always
  swallowed. A throw from `captureScreenshot` reaches the grading `catch`
  and discards all results (src/grading/grading.service.ts:82-86,115-125).

Outside effects become parameters:

- what the test code, the timer race, the screenshot and the page content
  do (`RunOutcome`, `Attempt` values);
- what launching, opening a page and navigating do;
- the AI model's answer (`Feedback.Model`);
- how JSON parsing reads it (`string -> Parsed`);
- the storage uploader (`BufferUploader`, `FileUploader`);
- each call of the retried operation (`fn: nat -> Attempt<T>`).

## Model

| member | source | states |
|---|---|---|
| Common.ErrorText | src/grading/grading.service.ts:116-117 | `error instanceof Error ? error.message : String(error)`: an `Error` gives its message, any other value its text |
| Text.SkipWs | src/script/script-parser.service.ts:30 | the end of the whitespace run starting at `i` lies in the string and is followed by a non-whitespace character or the end |
| Text.SkipWsBack | src/script/script-parser.service.ts:30 | the start of the whitespace run ending at `j` is preceded by a non-whitespace character or the start |
| Text.Trim | src/script/script-parser.service.ts:30 | `trim()` never lengthens, and its result is empty or starts and ends with a non-whitespace character |
| Text.TrimPadded | src/script/script-parser.service.ts:30 | trimming whitespace + m + whitespace gives exactly m when m has no outer whitespace |
| Text.TrimSlice | src/script/script-parser.service.ts:30 | the trim of s is the infix of s between its leading and trailing whitespace runs, both all whitespace |
| Text.TrimAllWs | src/script/script-parser.service.ts:30 | when the two whitespace runs meet, the string is all whitespace |
| Text.TrimIdempotent | src/script/script-parser.service.ts:30 | trimming twice equals trimming once |
| Text.TrimEmpty | src/script/script-parser.service.ts:30 | the trim is empty exactly when the string is all whitespace |
| Text.ContainsMiddle | src/common/utils/retry.util.ts:16 | `includes` holds for every infix of a string |
| Text.ContainsInfix | src/common/utils/retry.util.ts:16 | a pattern included in b is included in a + b + c |
| Text.ReplaceWhitespaceRuns | src/grading/grading.service.ts:81 | `replace(/\s+/g, '_')` leaves no whitespace and never lengthens the string |
| Text.ReplaceWhitespaceRunsNoWs | src/grading/grading.service.ts:81 | a name without whitespace is unchanged |
| Text.ReplaceWhitespaceRunsCollapse | src/grading/grading.service.ts:81 | a maximal whitespace run of any length becomes one `_` |
| ScriptParser.SkipName | src/script/script-parser.service.ts:13 | `[^'"]+` stops at a quote or the end of the script |
| ScriptParser.SkipNameSpan | src/script/script-parser.service.ts:13 | the characters `[^'"]+` consumes contain no quote |
| ScriptParser.Expect | src/script/script-parser.service.ts:13 | `\s*` then a literal token: when it matches, it ends past the token, inside the script |
| ScriptParser.ExpectFound | src/script/script-parser.service.ts:13 | a successful `\s*token` step really has the token just before where it ends |
| ScriptParser.Pattern | src/script/script-parser.service.ts:13 | the regex's elements are non-empty, and the last one is the opening `{` |
| ScriptParser.Step | src/script/script-parser.service.ts:13 | each regex element consumes at least one character |
| ScriptParser.RunStep | src/script/script-parser.service.ts:13 | a successful match from element k succeeds on element k and continues from where it ended |
| ScriptParser.RunToken | src/script/script-parser.service.ts:13 | after the name, the elements only advance through the script |
| ScriptParser.RunTail | src/script/script-parser.service.ts:13 | the match ends just after a `{` and carries the name found between the quotes |
| ScriptParser.RunHead | src/script/script-parser.service.ts:13 | a match starts with `test`, then a quote, a non-empty quote-free name, and a quote of either kind |
| ScriptParser.RunWellFormed | src/script/script-parser.service.ts:13 | a match at p is a well-formed declaration starting at p |
| ScriptParser.MatchAt | src/script/script-parser.service.ts:13 | a match at p starts at p and ends after p, inside the script |
| ScriptParser.MatchAtWellFormed | src/script/script-parser.service.ts:13-17 | every match has `test` at its index, the quoted non-empty quote-free name `match[1]`, and ends after `{` |
| ScriptParser.ExpectPadded | src/script/script-parser.service.ts:13 | `\s*token` over a whitespace run followed by the token consumes both |
| ScriptParser.SkipNameAt | src/script/script-parser.service.ts:13 | `[^'"]+` stops exactly at the first quote after its start |
| ScriptParser.PatternToken | src/script/script-parser.service.ts:13 | every element after the name is a literal token that does not start with whitespace |
| ScriptParser.RunAfter | src/script/script-parser.service.ts:13 | a token element matched after the name keeps the captured name |
| ScriptParser.TokenStep | src/script/script-parser.service.ts:13 | a token element over its whitespace and literal ends after them, with the following text in place |
| ScriptParser.TokensStep | src/script/script-parser.service.ts:13 | the text of the tokens from element k is element k's whitespace and literal, then the rest |
| ScriptParser.RunTokenAt | src/script/script-parser.service.ts:13 | one token element matched at its written position, the text of the later elements following |
| ScriptParser.RunTokens | src/script/script-parser.service.ts:13 | once the name is captured, tokens written out with any whitespace before each are matched in full up to the final `{` |
| ScriptParser.ParenFound | src/script/script-parser.service.ts:13 | `\s*\(` matches any whitespace followed by `(` |
| ScriptParser.QuoteFound | src/script/script-parser.service.ts:13 | `\s*['"]` matches any whitespace followed by either quote |
| ScriptParser.HeadFound | src/script/script-parser.service.ts:13 | `test`, `\s*\(` and `\s*['"]` match a head written as `test`, whitespace, `(`, whitespace and a quote |
| ScriptParser.NameFound | src/script/script-parser.service.ts:13 | `([^'"]+)['"]` over a non-empty quote-free name and a quote captures exactly that name |
| ScriptParser.RunHeadSteps | src/script/script-parser.service.ts:13 | the first four elements matched one after the other bring the match to the tokens with the name captured |
| ScriptParser.HeadRun | src/script/script-parser.service.ts:13 | a written head and name bring the match to the tokens with that name captured |
| ScriptParser.MatchFromParts | src/script/script-parser.service.ts:13 | a head, a name with its quote and the tokens laid end to end are one match |
| ScriptParser.DeclarationFound | src/script/script-parser.service.ts:13-18 | the converse of `MatchAtWellFormed`: a declaration written as the regex expects, with any whitespace where it allows `\s*` and either quote on each side of the name, is matched at its index with that name, ending after its `{` |
| ScriptParser.NextMatch | src/script/script-parser.service.ts:16 | `exec` from `lastIndex` finds a match at or after `lastIndex` |
| ScriptParser.NextMatchFound | src/script/script-parser.service.ts:16 | the match `exec` reports is the regex's match at its index |
| ScriptParser.NextMatchLeftmost | src/script/script-parser.service.ts:16 | no match starts between `lastIndex` and the reported one |
| ScriptParser.NextMatchAbsent | src/script/script-parser.service.ts:16 | `exec` returns null when no position from `lastIndex` on matches |
| ScriptParser.DeclsMatched | src/script/script-parser.service.ts:16-18 | every declaration found is a match at its own index |
| ScriptParser.DeclsOrdered | src/script/script-parser.service.ts:16-18 | each search resumes at the end of the preceding match, just after its `{`: matches do not overlap and come in order |
| ScriptParser.DeclsComplete | src/script/script-parser.service.ts:16-18 | every position where the regex matches lies inside some reported match, so a declaration nested in a body is reported too |
| ScriptParser.Scan | src/script/script-parser.service.ts:21-28 | the brace-counting loop's last index lies between the start and the script's end |
| ScriptParser.BodyEnd | src/script/script-parser.service.ts:21-28 | `endIndex` lies between `startIndex` and the script's length |
| ScriptParser.ScanDepth | src/script/script-parser.service.ts:21-28 | the loop stops at the first brace that brings the depth from 1 to 0, or at the last index when none does |
| ScriptParser.BodyEndCloses | src/script/script-parser.service.ts:21-30 | a balanced body ends at its closing `}`, and the code is the trim of what lies between, nested braces included |
| ScriptParser.BodyEndUnterminated | src/script/script-parser.service.ts:24-28 | an unterminated body ends at the script's last index, so the final character is excluded; a match at the end of the script gives empty code |
| ScriptParser.ParseFromStep | src/script/script-parser.service.ts:16-32 | each found match contributes its unit, and parsing continues from the end of that match |
| ScriptParser.ParseFromDecls | src/script/script-parser.service.ts:16-32 | one unit per found declaration, in order |
| ScriptParser.ParseUnits | src/script/script-parser.service.ts:16-32 | units are the declarations in strictly increasing match position, each with the quoted name and the trimmed body after its `{` |
| ScriptParser.ParseShape | src/script/script-parser.service.ts:17-30 | every `taskName` is non-empty and has no quote; every `code` has no outer whitespace |
| ScriptParser.ParseEmpty | src/script/script-parser.service.ts:9-37 | the result is empty exactly when the regex matches nowhere |
| ScriptParser.ParseEmptyScript | src/script/script-parser.service.ts:9-37 | the empty script gives no units |
| ScriptParser.FindBodyEnd | src/script/script-parser.service.ts:21-28 | the imperative brace loop computes `BodyEnd` |
| ScriptParser.ParsePlaywrightScript | src/script/script-parser.service.ts:8-38 | the `while`/`exec` loop with its inner brace loop returns exactly `Parse(script)` |
| ScriptRunner.Timeout | src/script/script-runner.service.ts:13 | an absent timeout is 30000, a given one is kept |
| ScriptRunner.CaptureOnError | src/script/script-runner.service.ts:13 | an absent `captureOnError` is true, a given one is kept |
| ScriptRunner.Execute | src/script/script-runner.service.ts:8-54 | the method resolves to `ResultOf` of the run's outcome and captures, and never throws |
| ScriptRunner.CompletedResult | src/script/script-runner.service.ts:28-29 | a completed run gives exactly `{ success: true }` |
| ScriptRunner.ResultSuccess | src/script/script-runner.service.ts:31-52 | success iff completed; an `Error` keeps its message, another value is stringified, a timeout says `Script execution timeout`, a compile error keeps its message |
| ScriptRunner.ResultCaptures | src/script/script-runner.service.ts:38-45 | no captures without `captureOnError`; with it, the screenshot iff it succeeded and the html iff both succeeded |
| ScriptRunner.Defaults | src/script/script-runner.service.ts:13 | with no options the timeout is 30000 and captures are taken |
| Retry.SomeIncludedExists | src/common/utils/retry.util.ts:16 | `some` holds iff one of the patterns is included in the message |
| Retry.IsRetryablePatterns | src/common/utils/retry.util.ts:9-17 | retryable iff the message contains `net::ERR_`, `ETIMEDOUT`, `ECONNRESET` or `Navigation timeout` |
| Retry.Pow2 | src/common/utils/retry.util.ts:34 | `Math.pow(2, n)` is at least 1 |
| Retry.Delays | src/common/utils/retry.util.ts:34-35 | one sleep for each failed attempt from lo to hi - 1 |
| Retry.DelaysAt | src/common/utils/retry.util.ts:34 | the sleep after attempt k is `min(baseDelay * 2^(k-1), maxDelay)` |
| Retry.RetryStep | src/common/utils/retry.util.ts:26-36 | a retryable failure before the last attempt costs one call and one sleep, then the loop continues |
| Retry.RetryThrough | src/common/utils/retry.util.ts:26-36 | a run of retryable failures adds one call and its sleep per failure and does not change the outcome |
| Retry.RetryFromBounds | src/common/utils/retry.util.ts:26-36 | the loop makes between 1 and the remaining attempts' calls, with one sleep fewer than calls |
| Retry.RetryCalls | src/common/utils/retry.util.ts:26-35 | at most `maxAttempts` calls, none when it is below 1, and the k-th sleep is `min(baseDelay * 2^(k-1), maxDelay)` |
| Retry.RetrySucceedsAt | src/common/utils/retry.util.ts:26-28 | a success at attempt k returns its value after exactly k calls and k - 1 sleeps |
| Retry.RetryStopsAt | src/common/utils/retry.util.ts:31-33 | a non-retryable error is rethrown at once, with no further call or sleep |
| Retry.RetryNonError | src/common/utils/retry.util.ts:16 | a thrown non-`Error` makes `isRetryable` throw a `TypeError`, which escapes at once |
| Retry.RetryExhausted | src/common/utils/retry.util.ts:31-35 | when every attempt fails retryably: `maxAttempts` calls, `maxAttempts - 1` sleeps, and the last error rethrown |
| Retry.RetryNoAttempts | src/common/utils/retry.util.ts:39 | with `maxAttempts < 1`, no call and no sleep, and `undefined` is thrown |
| Retry.RetryDefaultDelays | src/common/utils/retry.util.ts:23 | with the defaults, three failures give sleeps of 1000 then 2000 ms |
| Retry.DelayMonotone | src/common/utils/retry.util.ts:34 | for `baseDelay >= 0` the sleeps never decrease and never exceed `maxDelay` |
| Retry.WithRetry | src/common/utils/retry.util.ts:19-40 | the `for` loop with `lastError` settles, calls and sleeps exactly as `RetrySpec` |
| Browser.ContextOptionsMerge | src/browser/browser-manager.service.ts:25-28 | the spread merge has the defaults' keys and the caller's; a caller's key takes the caller's value, every other key keeps its default |
| Browser.Chromium.Launch | src/browser/browser-manager.service.ts:16 | a successful launch gives a fresh handle, a failed one throws and changes nothing |
| Browser.Chromium.Close | src/browser/browser-manager.service.ts:38 | `browser.close()` marks that handle closed and nothing else |
| Browser.Chromium.NewContext | src/browser/browser-manager.service.ts:25 | a live browser gets a new context with the given options; a closed one throws the closed-target error |
| Browser.Chromium.NewPage | src/grading/grading.service.ts:56 | a successful `newPage` adds one page in the context |
| Browser.Chromium.CloseContext | src/grading/grading.service.ts:127-129 | `context.close()` marks that context closed and nothing else |
| Browser.BrowserManagerService.LaunchBrowser | src/browser/browser-manager.service.ts:10-18 | a cached handle is returned without launching; otherwise one launch, and its handle is stored and returned |
| Browser.BrowserManagerService.CreateContext | src/browser/browser-manager.service.ts:20-29 | launches first when no handle is cached; the context is new, on the cached handle, with the merged options; a closed cached handle throws |
| Browser.BrowserManagerService.CloseBrowser | src/browser/browser-manager.service.ts:35-41 | closes the cached handle if any and clears the field; with none it does nothing |
| Browser.BrowserManagerService.OnModuleDestroy | src/browser/browser-manager.service.ts:31-33 | exactly the effect of `closeBrowser` |
| Browser.LaunchTwice | src/browser/browser-manager.service.ts:10-18 | after a successful launch a second call returns the same handle; at most one launch in all |
| Browser.CloseTwice | src/browser/browser-manager.service.ts:35-41 | closing twice is closing once |
| Browser.RelaunchAfterClose | src/browser/browser-manager.service.ts:10-17 | after `closeBrowser` the next launch gives a new handle, different from the closed one |
| Browser.TwoContexts | src/browser/browser-manager.service.ts:20-29 | two `createContext` calls give two distinct contexts on one browser |
| Feedback.AnswerFormatNames | src/feedback/feedback-generator.service.ts:44-49 | the answer format names the format and the three fields |
| Feedback.ContainsSeven | src/feedback/feedback-generator.service.ts:30-50 | each interpolated piece of the prompt template is included in it |
| Feedback.PromptContents | src/feedback/feedback-generator.service.ts:30-50 | the prompt contains the task name, the error message and the code verbatim, and `JSON`, `summary`, `suggestion`, `severity` |
| Feedback.OrDefault | src/feedback/feedback-generator.service.ts:58-60 | JavaScript's or-default: a present non-empty string is kept, otherwise the fallback |
| Feedback.FeedbackWhenModelFails | src/feedback/feedback-generator.service.ts:21-27 | a failed AI call gives `테스트 실패: <message>`, `코드를 확인하고 다시 시도해주세요.` and no severity |
| Feedback.FeedbackWhenUnparsable | src/feedback/feedback-generator.service.ts:64-69 | an answer that does not parse gives `테스트 실패`, `코드를 확인해주세요.` and no severity |
| Feedback.FeedbackWhenParsed | src/feedback/feedback-generator.service.ts:55-63 | a parsed answer's summary and suggestion are kept when non-empty, else the defaults; severity is copied unchecked |
| Feedback.FeedbackNonEmpty | src/feedback/feedback-generator.service.ts:11-28 | whatever the AI does, the summary and the suggestion are non-empty |
| Feedback.FeedbackIgnoresScreenshot | src/feedback/feedback-generator.service.ts:14 | the screenshot URL has no effect on the feedback |
| Evidence.Utf8 | src/evidence/evidence-collector.service.ts:31 | the UTF-8 encoding takes one to four bytes per character |
| Evidence.Utf8Char | src/evidence/evidence-collector.service.ts:31 | one character encodes to one to four bytes |
| Evidence.ScreenshotUpload | src/evidence/evidence-collector.service.ts:11-23 | the PNG goes to `evidence/<submission>/<task>/screenshot.png` as `image/png`, and the uploader's URL is returned unchanged |
| Evidence.DomUpload | src/evidence/evidence-collector.service.ts:25-35 | the UTF-8 html goes to `evidence/<submission>/<task>/dom.html` as `text/html`, and the uploader's URL is returned unchanged |
| Evidence.TaskPathsInjective | src/evidence/evidence-collector.service.ts:21 | within one submission, different task ids give different screenshot paths and different DOM paths |
| Evidence.InfixCancel | src/evidence/evidence-collector.service.ts:21 | equal strings with the same prefix and suffix have equal middles |
| Evidence.EvidenceKindsDistinct | src/evidence/evidence-collector.service.ts:21-49 | a screenshot path, a DOM path and a video path never coincide |
| Evidence.UnescapedIdsCollide | src/evidence/evidence-collector.service.ts:21 | ids are inserted unescaped, so `("a/b", "c")` and `("a", "b/c")` share one path |
| Evidence.SaveVideoWithoutVideo | src/evidence/evidence-collector.service.ts:41-45 | no pages, or a first page without video, give `undefined` |
| Evidence.SaveVideoFirstPage | src/evidence/evidence-collector.service.ts:44 | only the first page counts: the other pages do not change the result |
| Evidence.SaveVideoUpload | src/evidence/evidence-collector.service.ts:47-54 | a failing `video.path()` gives `undefined`; otherwise the file goes to `evidence/<submission>/recording.webm`, and an upload rejection is not caught |
| Grading.FeedbackMessage | src/grading/grading.service.ts:93 | the runner's error, or `Unknown error` when it is absent or empty |
| Grading.AllPassedAppend | src/grading/grading.service.ts:71-78 | one more item keeps every item passing iff it passes |
| Grading.ItemsStayThrown | src/grading/grading.service.ts:63-104 | a throw inside the loop ends it: the later tests do not run |
| Grading.RunTests | src/grading/grading.service.ts:63-104 | the loop pushes exactly `Items`, and `hasErrors` is set iff some item failed |
| Grading.TryGrading | src/grading/grading.service.ts:52-114 | the `try` block computes `TrySpec`, acquires the manager's browser (launching only when none is cached and the launch succeeds), appends exactly one context with the defaults when one is created, and at most one page |
| Grading.CloseDirectly | src/grading/grading.service.ts:126-133 | the `finally` closes the context iff it was created and the browser iff it was acquired, leaving the manager's cache untouched |
| Grading.CloseContextOnly | src/grading/grading.service.spec.ts:140-145 | the corrected cleanup closes the request's context and leaves every browser and the manager's cache as they were |
| Grading.RunGrading | src/grading/grading.service.ts:27-134 | `runGrading` returns `GradingSpec`. With no tests, the browser is untouched. Otherwise it launches at most once, closes every context and browser the request opened, and keeps the closed handle cached |
| Grading.RunGradingCorrected | src/grading/grading.service.ts:27-134 | the same response; every context the request opened is closed, while the browser it obtained stays open and cached |
| Grading.GradingNoTests | src/grading/grading.service.ts:38-46 | a script without a match gives `success=false`, no results, `No test cases found in playwrightScript` |
| Grading.GradingEmptyScript | src/grading/grading.service.ts:38-46 | the empty script gives the no-tests failure |
| Grading.ItemsInOrder | src/grading/grading.service.ts:63-104 | one item per test, in parse order, with the test's `taskName` |
| Grading.ItemFeedback | src/grading/grading.service.ts:71-102 | a pass has feedback `테스트 통과`; a failure uploads the screenshot under the whitespace-collapsed id and has `summary + ' ' + suggestion` of the feedback for the runner's message or `Unknown error` |
| Grading.GradingCompleted | src/grading/grading.service.ts:110-114 | a completed grading has one item per parsed test, in order, and `success` iff every item passed |
| Grading.GradingSetupFails | src/grading/grading.service.ts:115-125 | a failing launch, a stale cached browser, a failing page or navigation gives `success=false`, no results, and the error's text |
| Grading.GradingDiscardsResults | src/grading/grading.service.ts:115-125 | for any live browser, cached or launched, a throw during test k discards the items of the tests before it |
| Grading.StaleBrowserFails | src/grading/grading.service.ts:130-132 | a request served with a closed cached browser fails with the closed-target message |
| Grading.SecondRequestAsWritten | src/grading/grading.service.ts:130-132 | after a first request that launched the browser, the second request fails with the closed-target message |
| Grading.SecondRequestCorrected | src/grading/grading.service.spec.ts:220-226 | with the corrected cleanup, the second request reuses the first request's browser, still open, and gets the response for a live cached browser; one launch in all |

## Left out

- Dynamic evaluation of the test code with the `AsyncFunction` constructor, and the race against `setTimeout`, are engine and timer behaviour. The way a run ends is an input (`RunOutcome`). The timeout value is computed but only arms the timer.
- Real sleeping in `withRetry` is left out. The sleeps are recorded as their durations.
- Playwright's browser, page and context calls are outcomes given as inputs. This covers `launch`, `newPage`, `goto`, `screenshot`, `content` and `video`, with their options. The launch arguments in `BROWSER_CONFIG.launch` and the `timeouts` block are not modelled. The target URL is only passed to `goto`, so navigation is an outcome.
- The Gemini client becomes the function `Feedback.Model`, and the storage uploader becomes `BufferUploader` and `FileUploader`. Both are network calls.
- `JSON.parse` is left out. Its result is an abstract `Parsed` value: unparsable, or an object with optional string fields. A JSON `null` or a primitive answer are not modelled separately. Non-string or truthy non-string field values are not modelled either.
- `Feedback.FeedbackWhenParsed`: the severity is a string option. The `'low' | 'medium' | 'high'` type is not enforced in the model, just as it is not checked in the code.
- Logging, the HTTP controller, the DTO validators, the configuration and the Nest modules are left out: the behaviour modelled does not depend on them.
- `Grading.RunGrading`: a `close()` that throws inside `finally` would replace the response with a rejection. The model treats both closes as succeeding.
- `Grading.RunGrading`: the model covers requests served one after another. NestJS serves requests concurrently, and they interleave at every `await`. Two requests could then both see no cached browser and launch twice, or one request could close the browser another is using. These interleavings are not modelled.
- JavaScript strings are sequences of UTF-16 code units, and `\s`, `trim`, `[^'"]` and the brace scan work on code units. The model works on Dafny characters, which are Unicode scalar values. A character outside the Basic Multilingual Plane is one step in the model and two code units in the code. This changes indices and lengths, though not which characters match.
- `Retry.Classify`: the code reads `error.message` on whatever was thrown (src/common/utils/retry.util.ts:16). A thrown object that is not an `Error` but has a string `message` is classified by that message. `Thrown.NonError` cannot represent such an object, so the model always takes the `TypeError` path for a non-`Error`.
- `Retry.WithRetry`: option values are integers. A fractional `maxAttempts` or delay, and floating-point `Math.pow`, are not modelled.
- `Retry.RetryNonError`: the `TypeError` for a thrown non-`Error` is modelled with the message for reading `includes` of `undefined`. That is the text for a thrown number or string too, whose `message` is `undefined`. Only a thrown `null` or `undefined` gives a different text, because reading `message` itself fails.
- `Browser.Chromium.NewContext`: the closed-target error carries a fixed message. Playwright's exact wording is an assumption of the model.
- `Evidence.Utf8`: a lone surrogate would be replaced by U+FFFD. Dafny's `char` has no surrogates, so this case does not arise in the model.
- `captureDOMSnapshot` and `saveVideo` are modelled but not called by the grading flow, which is also how the code uses them. `BrowserContextOptions` values are a small JSON-like `Value` type.

## Findings

| source | as written | input that shows it | evidently intended | confidence | as-written member | corrected member |
|---|---|---|---|---|---|---|
| src/grading/grading.service.ts:130-132 | `finally` calls `browser.close()` on the handle that `BrowserManagerService` keeps cached (src/browser/browser-manager.service.ts:7,11-13), so the next `launchBrowser` returns a closed browser and `newContext` throws | two requests with at least one test each on a fresh service, the first launch succeeding: the second response is `success=false` with the closed-target message and no results | close only the request's context and leave the browser open and cached, since the browser's lifecycle belongs to `BrowserManagerService` (src/grading/grading.service.spec.ts:140-145,220-226) | not executed | Grading.SecondRequestAsWritten | Grading.SecondRequestCorrected |
