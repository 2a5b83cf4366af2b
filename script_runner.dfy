/** `ScriptRunnerService.execute`: run one test's code against the shared
    page and map how it ended to an `ExecutionResult`. Compiling the code
    with the `AsyncFunction` constructor and racing it against a timer are
    replaced by the way the run ended (`RunOutcome`); the two page captures
    taken after a failure are given by their outcomes. */
module ScriptRunner {
  import opened Common

  /** `ExecutionOptions`: both fields are optional. */
  datatype ExecutionOptions = ExecutionOptions(timeout: Option<int>, captureOnError: Option<bool>)

  /** `ExecutionResult`; an absent field is `None`. */
  datatype ExecutionResult = ExecutionResult(
    success: bool,
    error: Option<string>,
    screenshot: Option<Bytes>,
    html: Option<string>)

  /** How the run of the code ended. `Completed`: the function's promise
      settled first and fulfilled. `Threw`: it settled first and rejected
      with the value `thrown`. `TimedOut`: the timer rejected first.
      `CompileError`: the `AsyncFunction` constructor refused the code, which
      throws a `SyntaxError` (an `Error`) with the message `message`. */
  datatype RunOutcome = Completed | Threw(thrown: Thrown) | TimedOut | CompileError(message: string)

  /** The default of `timeout`, in milliseconds. */
  const DefaultTimeout: int := 30000

  /** The message of the timer's rejection. */
  const TimeoutMessage: string := "Script execution timeout"

  /** No options at all: `options = {}`. */
  const NoOptions: ExecutionOptions := ExecutionOptions(None, None)

  /** The destructuring defaults: a field that is absent (`undefined`)
      takes its default, any other value is kept. The timeout only arms the
      timer, whose race is given by `RunOutcome`. */
  function Timeout(options: ExecutionOptions): (t: int)
    ensures options.timeout.None? ==> t == DefaultTimeout
    ensures options.timeout.Some? ==> t == options.timeout.value
  {
    match options.timeout
    case None => DefaultTimeout
    case Some(t) => t
  }

  function CaptureOnError(options: ExecutionOptions): (c: bool)
    ensures options.captureOnError.None? ==> c
    ensures options.captureOnError.Some? ==> c == options.captureOnError.value
  {
    match options.captureOnError
    case None => true
    case Some(c) => c
  }

  /** The `errorMessage` of the `catch` block for a run that did not
      complete. */
  function FailureMessage(outcome: RunOutcome): string
    requires !outcome.Completed?
  {
    match outcome
    case Threw(t) => ErrorText(t)
    case TimedOut => TimeoutMessage
    case CompileError(m) => m
  }

  /** The result `execute` resolves to, given how the run ended and, after a
      failure, what `page.screenshot()` and `page.content()` would give. */
  function ResultOf(outcome: RunOutcome, options: ExecutionOptions,
                    shot: Attempt<Bytes>, content: Attempt<string>): ExecutionResult
  {
    if outcome.Completed? then ExecutionResult(true, None, None, None)
    else if !CaptureOnError(options) then ExecutionResult(false, Some(FailureMessage(outcome)), None, None)
    else
      match shot
      case Threw(_) => ExecutionResult(false, Some(FailureMessage(outcome)), None, None)
      case Done(png) =>
        match content
        case Threw(_) => ExecutionResult(false, Some(FailureMessage(outcome)), Some(png), None)
        case Done(h) => ExecutionResult(false, Some(FailureMessage(outcome)), Some(png), Some(h))
  }

  /** The service method. Whatever the outcome, it resolves to a result and
      never rejects. */
  method Execute(code: string, outcome: RunOutcome, options: ExecutionOptions,
                 shot: Attempt<Bytes>, content: Attempt<string>)
    returns (result: ExecutionResult)
    ensures result == ResultOf(outcome, options, shot, content)
  {
    var captureOnError := CaptureOnError(options);
    if outcome.Completed? {
      return ExecutionResult(true, None, None, None);
    }
    var errorMessage := FailureMessage(outcome);
    var screenshot: Option<Bytes> := None;
    var html: Option<string> := None;
    if captureOnError {
      // one `try` covers both captures: a failed screenshot skips the html
      match shot {
        case Threw(_) =>
        case Done(png) =>
          screenshot := Some(png);
          match content {
            case Threw(_) =>
            case Done(h) =>
              html := Some(h);
          }
      }
    }
    result := ExecutionResult(false, Some(errorMessage), screenshot, html);
  }

  /** A completed run resolves to exactly `{ success: true }`. */
  lemma CompletedResult(options: ExecutionOptions, shot: Attempt<Bytes>, content: Attempt<string>)
    ensures ResultOf(Completed, options, shot, content) == ExecutionResult(true, None, None, None)
  {
  }

  /** `success` holds exactly when the run completed, and a failure always
      carries its message: an `Error`'s message verbatim, a thrown non-`Error`
      value as text, the timer's fixed message, or the compiler's message. */
  lemma ResultSuccess(outcome: RunOutcome, options: ExecutionOptions,
                      shot: Attempt<Bytes>, content: Attempt<string>)
    ensures var r := ResultOf(outcome, options, shot, content);
      (r.success <==> outcome.Completed?)
      && (outcome.Completed? <==> r.error.None?)
      && (outcome.Threw? && outcome.thrown.ErrorObj? ==> r.error == Some(outcome.thrown.message))
      && (outcome.Threw? && outcome.thrown.NonError? ==> r.error == Some(outcome.thrown.text))
      && (outcome.TimedOut? ==> r.error == Some("Script execution timeout"))
      && (outcome.CompileError? ==> r.error == Some(outcome.message))
  {
  }

  /** The captures after a failure: none without `captureOnError`; with it,
      the screenshot when it succeeded, and the html only when both
      succeeded (a failing screenshot skips the html, a failing html keeps
      the screenshot). */
  lemma ResultCaptures(outcome: RunOutcome, options: ExecutionOptions,
                       shot: Attempt<Bytes>, content: Attempt<string>)
    requires !outcome.Completed?
    ensures var r := ResultOf(outcome, options, shot, content);
      (!CaptureOnError(options) ==> r.screenshot.None? && r.html.None?)
      && (CaptureOnError(options) ==>
            (r.screenshot.Some? <==> shot.Done?)
            && (shot.Done? ==> r.screenshot == Some(shot.value))
            && (r.html.Some? <==> shot.Done? && content.Done?)
            && (shot.Done? && content.Done? ==> r.html == Some(content.value)))
  {
  }

  /** With no options the timeout is 30000 ms and captures are taken. */
  lemma Defaults()
    ensures Timeout(NoOptions) == 30000 && CaptureOnError(NoOptions)
  {
  }
}
