/** `src/components/IssueDetail.tsx`: the escaped detail rows of one issue, the state of its AI
    suggestion request and which of the four suggestion panels is shown. The request itself is an
    input: `Start` runs up to the `await`, `Complete` from the awaited outcome to the `finally`. */
module IssueDetail {
  import opened Wrappers
  import opened Strings
  import opened Types
  import HtmlEscape

  // ---------------------------------------------------------------------------------------------
  // Detail rows

  /** The number of keys of `runnerExtras`: its fields that are present. */
  function ExtrasKeyCount(x: RunnerExtras): (n: nat)
    ensures n <= 4
    ensures n == 0 <==> x.description.None? && x.impact.None? && x.help.None? && x.helpUrl.None?
  {
    (if x.description.Some? then 1 else 0) + (if x.impact.Some? then 1 else 0)
      + (if x.help.Some? then 1 else 0) + (if x.helpUrl.Some? then 1 else 0)
  }

  /** `issue.runnerExtras && Object.keys(issue.runnerExtras).length > 0`: the Runner Extras row
      appears exactly when the object is present with some field set. */
  function ShowsRunnerExtras(issue: Issue): (b: bool)
    ensures b <==>
      issue.runnerExtras.Some? &&
      (issue.runnerExtras.value.description.Some? || issue.runnerExtras.value.impact.Some? ||
       issue.runnerExtras.value.help.Some? || issue.runnerExtras.value.helpUrl.Some?)
  {
    issue.runnerExtras.Some? && ExtrasKeyCount(issue.runnerExtras.value) > 0
  }

  /** One `detail-row`: its heading and its escaped content. */
  datatype DetailRow = DetailRow(heading: string, content: string)

  /** A row showing `escapeHtml(raw)`. */
  function Row(heading: string, raw: string): (r: DetailRow)
    ensures r.heading == heading
    ensures r.content == HtmlEscape.EscapeEach(raw) && HtmlEscape.HtmlSafe(r.content)
  {
    DetailRow(heading, HtmlEscape.EscapeHtml(Some(raw)))
  }

  /** The rows above the suggestion section: code, context, selector and runner, escaped, then the
      Runner Extras row when it is shown. `stringify` stands for `JSON.stringify(_, null, 2)`. */
  function DetailRows(issue: Issue, stringify: RunnerExtras -> string): (rows: seq<DetailRow>)
    ensures |rows| == if ShowsRunnerExtras(issue) then 5 else 4
    ensures rows[..4] == [Row("Issue Code:", issue.code), Row("Context:", issue.context),
                          Row("Selector:", issue.selector), Row("Runner:", issue.runner)]
    ensures |rows| == 5 ==> rows[4] == Row("Runner Extras:", stringify(issue.runnerExtras.value))
  {
    var base := [Row("Issue Code:", issue.code), Row("Context:", issue.context),
                 Row("Selector:", issue.selector), Row("Runner:", issue.runner)];
    if ShowsRunnerExtras(issue) then base + [Row("Runner Extras:", stringify(issue.runnerExtras.value))]
    else base
  }

  // ---------------------------------------------------------------------------------------------
  // The suggestion request

  const MissingConfig := "API key or model not configured. Please check .env file."
  const NoSuggestion := "No suggestion found."
  const FailedSuggestion := "Error: Could not fetch suggestion."
  const OpenRouterLead := "OpenRouter API error: "
  const UnknownError := "Unknown error"
  const FailedRequest := "Failed to get suggestion."

  /** How the awaited part of `getLlmSuggestion` ends. `Completion` carries
      `data.choices[0]?.message?.content`; `ApiError` a non-ok status and the body's `message` (here `detail`);
      `Failed` the message of any other thrown error (network, JSON decoding, missing `choices`). */
  datatype LlmOutcome =
    | Completion(content: Option<string>)
    | ApiError(status: nat, detail: Option<string>)
    | Failed(message: string)

  /** The error text the `catch` block sees for a failed outcome: the thrown message, or for a
      non-ok response one naming the status and the API's message ("Unknown error" without one). */
  function FailureMessage(o: LlmOutcome): (m: string)
    requires !o.Completion?
    ensures o.Failed? ==> m == o.message
    ensures o.ApiError? ==> StartsWith(m, OpenRouterLead) && Contains(m, NatToString(o.status)) &&
                            Contains(m, OptOrElse(o.detail, UnknownError))
  {
    match o
    case ApiError(status, detail) =>
      var d := OptOrElse(detail, UnknownError);
      var tail := Around(" - ", d, "");
      var m := Around(OpenRouterLead, NatToString(status), tail);
      ContainsTrans(m, tail, d);
      m
    case Failed(message) => message
  }

  /** `llmSuggestion` once the request has finished. */
  function SuggestionAfter(o: LlmOutcome): (s: string)
    ensures s != ""
    ensures o.Completion? && o.content.Some? && o.content.value != "" ==> s == o.content.value
    ensures o.Completion? && !Truthy(o.content) ==> s == NoSuggestion
    ensures !o.Completion? ==> s == FailedSuggestion
  {
    if o.Completion? then OptOrElse(o.content, NoSuggestion) else FailedSuggestion
  }

  /** `llmError` once the request has finished, from its value before. */
  function ErrorAfter(prior: Option<string>, o: LlmOutcome): (e: Option<string>)
    ensures o.Completion? ==> e == prior
    ensures !o.Completion? ==> e.Some? && e.value != ""
    ensures o.ApiError? ==> e == Some(FailureMessage(o))
    ensures o.Failed? && o.message != "" ==> e == Some(o.message)
    ensures o.Failed? && o.message == "" ==> e == Some(FailedRequest)
  {
    if o.Completion? then prior else Some(OrElse(FailureMessage(o), FailedRequest))
  }

  /** A non-ok response is reported with its status and the API's message. */
  lemma ApiErrorNamesStatus(status: nat, message: Option<string>)
    ensures ErrorAfter(None, ApiError(status, message)).Some?
    ensures Contains(ErrorAfter(None, ApiError(status, message)).value, NatToString(status))
    ensures Contains(ErrorAfter(None, ApiError(status, message)).value, OptOrElse(message, UnknownError))
  {
    var m := FailureMessage(ApiError(status, message));
    assert |m| >= |OpenRouterLead| > 0;
  }

  /** The `useState` cells of one `IssueDetail`. */
  class SuggestionPanel {
    var suggestion: string
    var loading: bool
    var error: Option<string>

    constructor()
      ensures suggestion == "" && !loading && error == None
    {
      suggestion := "";
      loading := false;
      error := None;
    }

    /** `getLlmSuggestion` up to the request. `sent` says whether the request is made. */
    method Start(apiKey: Option<string>, model: Option<string>) returns (sent: bool)
      modifies this
      ensures sent <==> Truthy(apiKey) && Truthy(model)
      ensures !sent ==> error == Some(MissingConfig) && suggestion == old(suggestion) && loading == old(loading)
      ensures sent ==> suggestion == "" && loading && error == None
    {
      if !Truthy(apiKey) || !Truthy(model) {
        error := Some(MissingConfig);
        return false;
      }
      loading := true;
      error := None;
      suggestion := "";
      sent := true;
    }

    /** `getLlmSuggestion` from the awaited outcome through `finally`. */
    method Complete(outcome: LlmOutcome)
      modifies this
      ensures suggestion == SuggestionAfter(outcome)
      ensures error == ErrorAfter(old(error), outcome)
      ensures !loading
    {
      if outcome.Completion? {
        suggestion := OptOrElse(outcome.content, NoSuggestion);
      } else {
        error := Some(OrElse(FailureMessage(outcome), FailedRequest));
        suggestion := FailedSuggestion;
      }
      loading := false;
    }
  }

  // ---------------------------------------------------------------------------------------------
  // Which suggestion panel is shown

  datatype Panel = SuggestionText(text: string) | Spinner | ErrorText(message: string) | GetButton

  /** The nested conditional of lines 141-161: a non-empty suggestion first, then the spinner, then a
      non-empty error, then the button. */
  function PanelFor(suggestion: string, loading: bool, error: Option<string>): (p: Panel)
    ensures p.SuggestionText? <==> suggestion != ""
    ensures p == Spinner <==> suggestion == "" && loading
    ensures p.ErrorText? <==> suggestion == "" && !loading && error.Some? && error.value != ""
    ensures p.ErrorText? ==> error == Some(p.message)
  {
    if suggestion != "" then SuggestionText(suggestion)
    else if loading then Spinner
    else if error.Some? && error.value != "" then ErrorText(error.value)
    else GetButton
  }

  /** While a request is outstanding the spinner is shown. */
  lemma StartedShowsSpinner()
    ensures PanelFor("", true, None) == Spinner
  {
  }

  /** Every finished request shows a suggestion panel: on failure the fixed error suggestion hides
      the error message, which is never displayed. */
  lemma FinishedShowsSuggestion(prior: Option<string>, o: LlmOutcome)
    ensures PanelFor(SuggestionAfter(o), false, ErrorAfter(prior, o)) == SuggestionText(SuggestionAfter(o))
    ensures !o.Completion? ==> PanelFor(SuggestionAfter(o), false, ErrorAfter(prior, o)) == SuggestionText(FailedSuggestion)
  {
  }

  /** The missing-configuration error is only visible while no suggestion is held: after any
      finished request it stays hidden. */
  lemma MissingConfigVisibleOnlyWithoutSuggestion(suggestion: string, loading: bool)
    ensures PanelFor(suggestion, loading, Some(MissingConfig)) == ErrorText(MissingConfig) <==> suggestion == "" && !loading
  {
  }
}
