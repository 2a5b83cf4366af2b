/** `FeedbackGeneratorService`: the prompt sent to the AI model for a failed
    test, and the feedback made from its answer, with a fixed fallback when
    the call fails or the answer is not JSON. The model call is a function
    from the prompt to its outcome; `JSON.parse` is a function from the
    answer to what it parsed. */
module Feedback {
  import opened Common
  import opened Text

  /** `ScriptError`. */
  datatype ScriptError = ScriptError(taskName: string, code: string, message: string)

  /** `Feedback`; an absent `severity` is `None`. */
  datatype Feedback = Feedback(summary: string, suggestion: string, severity: Option<string>)

  /** What `JSON.parse(response)` gives, as far as `parseFeedback` reads it:
      a failure (a `SyntaxError`), or an object whose `summary`,
      `suggestion` and `severity` properties are strings or absent. */
  datatype Parsed = Unparsable | Parsed(summary: Option<string>, suggestion: Option<string>, severity: Option<string>)

  /** The model call: the outcome of `generateContent(prompt)`. */
  type Model = string -> Attempt<string>

  /** The defaults `parseFeedback` falls back to. */
  const DefaultSummary: string := "테스트 실패"
  const DefaultSuggestion: string := "코드를 확인해주세요."

  /** The suggestion `generateFeedback` gives when the model call fails. */
  const FallbackSuggestion: string := "코드를 확인하고 다시 시도해주세요."

  /** The prefix of the summary `generateFeedback` gives when the model call
      fails. */
  const FallbackSummaryPrefix: string := "테스트 실패: "

  /** The fixed parts of the prompt template, between its three
      placeholders. */
  const PromptHead: string := "당신은 프론트엔드 채점 전문가입니다.\n학생의 과제 제출물에서 발생한 테스트 실패 원인을 분석하고\n친절하고 교육적인 피드백을 제공해주세요.\n\n## 테스트 정보\n- 테스트명: "
  const PromptBeforeMessage: string := "\n- 에러 메시지: "
  const PromptBeforeCode: string := "\n\n## 실행 코드\n```javascript\n"
  const PromptTail: string := AnswerFormat("JSON", "summary", "suggestion", "severity")

  /** The end of the template, which asks for an answer in the format
      `format` with the keys `summary`, `suggestion` and `severity`, each
      followed by a hint for its value. */
  function AnswerFormat(format: string, summary: string, suggestion: string, severity: string): string {
    "\n```\n\n위 정보를 바탕으로 다음 " + format + " 형식으로 응답해주세요:\n{\n  \""
    + summary + "\": \"실패 원인 (1-2문장)\",\n  \""
    + suggestion + "\": \"해결 방법 (구체적인 코드 예시 포함)\",\n  \""
    + severity + "\": \"low | medium | high\"\n}"
  }

  /** Each name the answer format mentions occurs in it. */
  lemma AnswerFormatNames(format: string, summary: string, suggestion: string, severity: string)
    ensures var t := AnswerFormat(format, summary, suggestion, severity);
      Contains(t, format) && Contains(t, summary) && Contains(t, suggestion) && Contains(t, severity)
  {
    var p1 := "\n```\n\n위 정보를 바탕으로 다음 ";
    var p2 := " 형식으로 응답해주세요:\n{\n  \"";
    var p3 := "\": \"실패 원인 (1-2문장)\",\n  \"";
    var p4 := "\": \"해결 방법 (구체적인 코드 예시 포함)\",\n  \"";
    var p5 := "\": \"low | medium | high\"\n}";
    var t := AnswerFormat(format, summary, suggestion, severity);
    assert t == p1 + format + (p2 + summary + p3) + suggestion + p4 + severity + p5;
    ContainsSeven(p1, format, p2 + summary + p3, suggestion, p4, severity, p5);
    assert t == (p1 + format + p2) + summary + p3 + suggestion + p4 + severity + p5;
    ContainsSeven(p1 + format + p2, summary, p3, suggestion, p4, severity, p5);
  }

  /** The second, fourth and sixth of seven concatenated strings occur in
      the whole. */
  lemma ContainsSeven(a: string, b: string, c: string, d: string, e: string, f: string, g: string)
    ensures Contains(a + b + c + d + e + f + g, b)
    ensures Contains(a + b + c + d + e + f + g, d)
    ensures Contains(a + b + c + d + e + f + g, f)
  {
    var s := a + b + c + d + e + f + g;
    assert s == a + b + (c + d + e + f + g);
    ContainsMiddle(a, b, c + d + e + f + g);
    assert s == (a + b + c) + d + (e + f + g);
    ContainsMiddle(a + b + c, d, e + f + g);
    assert s == (a + b + c + d + e) + f + g;
    ContainsMiddle(a + b + c + d + e, f, g);
  }

  /** `buildPrompt`: the template with `taskName`, the error message and
      the code substituted verbatim. */
  function BuildPrompt(error: ScriptError): string {
    PromptHead + error.taskName + PromptBeforeMessage + error.message + PromptBeforeCode + error.code + PromptTail
  }

  /** The prompt carries `taskName`, the message and the code verbatim,
      and asks for a JSON answer with `summary`, `suggestion` and
      `severity`. */
  lemma PromptContents(error: ScriptError)
    ensures Contains(BuildPrompt(error), error.taskName)
    ensures Contains(BuildPrompt(error), error.message)
    ensures Contains(BuildPrompt(error), error.code)
    ensures Contains(BuildPrompt(error), "JSON") && Contains(BuildPrompt(error), "summary")
    ensures Contains(BuildPrompt(error), "suggestion") && Contains(BuildPrompt(error), "severity")
  {
    ContainsSeven(PromptHead, error.taskName, PromptBeforeMessage, error.message, PromptBeforeCode, error.code, PromptTail);
    var before := PromptHead + error.taskName + PromptBeforeMessage + error.message + PromptBeforeCode + error.code;
    assert BuildPrompt(error) == before + PromptTail + [];
    AnswerFormatNames("JSON", "summary", "suggestion", "severity");
    ContainsInfix(before, PromptTail, [], "JSON");
    ContainsInfix(before, PromptTail, [], "summary");
    ContainsInfix(before, PromptTail, [], "suggestion");
    ContainsInfix(before, PromptTail, [], "severity");
  }

  /** `value || fallback` for a property that is a string or absent: the
      empty string is falsy like `undefined`. */
  function OrDefault(value: Option<string>, fallback: string): (r: string)
    ensures value.Some? && value.value != [] ==> r == value.value
    ensures value.None? || value.value == [] ==> r == fallback
  {
    match value
    case Some(v) => if v != [] then v else fallback
    case None => fallback
  }

  /** `parseFeedback`. */
  function ParseFeedback(response: string, parse: string -> Parsed): Feedback {
    match parse(response)
    case Unparsable => Feedback(DefaultSummary, DefaultSuggestion, None)
    case Parsed(summary, suggestion, severity) =>
      Feedback(OrDefault(summary, DefaultSummary), OrDefault(suggestion, DefaultSuggestion), severity)
  }

  /** `generateFeedback`; the screenshot URL is accepted and ignored. */
  function GenerateFeedback(error: ScriptError, screenshotUrl: Option<string>,
                            model: Model, parse: string -> Parsed): Feedback
  {
    match model(BuildPrompt(error))
    case Threw(_) => Feedback(FallbackSummaryPrefix + error.message, FallbackSuggestion, None)
    case Done(response) => ParseFeedback(response, parse)
  }

  /** A failed model call gives the fallback, built from the error message. */
  lemma FeedbackWhenModelFails(error: ScriptError, screenshotUrl: Option<string>, model: Model, parse: string -> Parsed)
    requires model(BuildPrompt(error)).Threw?
    ensures GenerateFeedback(error, screenshotUrl, model, parse)
      == Feedback("테스트 실패: " + error.message, "코드를 확인하고 다시 시도해주세요.", None)
  {
  }

  /** An answer that is not JSON gives the defaults and no severity. */
  lemma FeedbackWhenUnparsable(response: string, parse: string -> Parsed)
    requires parse(response).Unparsable?
    ensures ParseFeedback(response, parse) == Feedback("테스트 실패", "코드를 확인해주세요.", None)
  {
  }

  /** For a parsed answer, a non-empty `summary` or `suggestion` is copied
      and an empty or absent one becomes its default; `severity` is copied
      as it is, whatever it says. */
  lemma FeedbackWhenParsed(response: string, parse: string -> Parsed)
    requires parse(response).Parsed?
    ensures var p := parse(response); var f := ParseFeedback(response, parse);
      (f.summary == if p.summary.Some? && p.summary.value != [] then p.summary.value else "테스트 실패")
      && (f.suggestion == if p.suggestion.Some? && p.suggestion.value != [] then p.suggestion.value else "코드를 확인해주세요.")
      && f.severity == p.severity
  {
  }

  /** Every feedback has a non-empty summary and suggestion. */
  lemma FeedbackNonEmpty(error: ScriptError, screenshotUrl: Option<string>, model: Model, parse: string -> Parsed)
    ensures GenerateFeedback(error, screenshotUrl, model, parse).summary != []
    ensures GenerateFeedback(error, screenshotUrl, model, parse).suggestion != []
  {
    var f := GenerateFeedback(error, screenshotUrl, model, parse);
    if model(BuildPrompt(error)).Threw? {
      assert f.summary[0] == '테';
    }
  }

  /** The screenshot URL has no effect on the feedback. */
  lemma FeedbackIgnoresScreenshot(error: ScriptError, u1: Option<string>, u2: Option<string>,
                                  model: Model, parse: string -> Parsed)
    ensures GenerateFeedback(error, u1, model, parse) == GenerateFeedback(error, u2, model, parse)
  {
  }
}
