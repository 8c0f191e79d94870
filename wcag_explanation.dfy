/** `src/hooks/useWcagExplanation.ts`: the `explanations` dictionary, keyed by WCAG code, that
    `fetchExplanation` rewrites one entry at a time. The request is an input: `Request` runs up to
    the `await`, `Resolve` from the awaited outcome to the end. */
module WcagExplanation {
  import opened Wrappers
  import opened Strings

  /** One dictionary entry `{ text, loading, error }`. */
  datatype Explanation = Explanation(text: string, loading: bool, error: Option<string>)

  /** An entry that is loading has neither text nor an error. */
  predicate Consistent(e: Explanation)
  {
    e.loading ==> e.error.None? && e.text == ""
  }

  const MissingConfiguration := "Missing API configuration."
  const NoExplanation := "No explanation available."
  const ApiErrorLead := "API Error: "

  /** How the awaited part ends: `data.choices[0]?.message?.content`, a non-ok status, or the
      message of any other thrown error (network, JSON decoding, missing `choices`). */
  datatype ExplanationOutcome = Answered(content: Option<string>) | HttpFailure(status: nat) | Thrown(message: string)

  /** The entry written before the request: an error when the key or the model is missing, the
      loading entry otherwise. */
  function RequestEntry(apiKey: Option<string>, model: Option<string>): (e: Explanation)
    ensures Consistent(e)
    ensures e.text == ""
    ensures e.loading <==> Truthy(apiKey) && Truthy(model)
    ensures !e.loading ==> e.error == Some(MissingConfiguration)
    ensures e.loading ==> e.error == None
  {
    if !Truthy(apiKey) || !Truthy(model) then Explanation("", false, Some(MissingConfiguration))
    else Explanation("", true, None)
  }

  /** The entry written once the request has finished. */
  function ResolveEntry(outcome: ExplanationOutcome): (e: Explanation)
    ensures Consistent(e) && !e.loading
    ensures outcome.Answered? ==> e.error == None && e.text != ""
    ensures outcome.Answered? && Truthy(outcome.content) ==> e.text == outcome.content.value
    ensures outcome.Answered? && !Truthy(outcome.content) ==> e.text == NoExplanation
    ensures !outcome.Answered? ==> e.text == "" && e.error.Some?
    ensures outcome.Thrown? ==> e.error == Some(outcome.message)
  {
    match outcome
    case Answered(content) => Explanation(OptOrElse(content, NoExplanation), false, None)
    case HttpFailure(status) => Explanation("", false, Some(ApiErrorLead + NatToString(status)))
    case Thrown(message) => Explanation("", false, Some(message))
  }

  /** A non-ok status is reported as `API Error: ` followed by the status. */
  lemma HttpFailureNamesStatus(status: nat)
    ensures ResolveEntry(HttpFailure(status)).error.Some?
    ensures StartsWith(ResolveEntry(HttpFailure(status)).error.value, ApiErrorLead)
    ensures Contains(ResolveEntry(HttpFailure(status)).error.value, NatToString(status))
  {
    var m := ApiErrorLead + NatToString(status);
    assert m[..|ApiErrorLead|] == ApiErrorLead;
    ContainsMiddle(ApiErrorLead, NatToString(status), "");
    assert ApiErrorLead + NatToString(status) + "" == m;
  }

  /** The `explanations` state cell. */
  class ExplanationCache {
    var explanations: map<string, Explanation>

    /** No entry is loading while it carries text or an error. */
    predicate Valid()
      reads this
    {
      forall c :: c in explanations ==> Consistent(explanations[c])
    }

    constructor()
      ensures explanations == map[]
      ensures Valid()
    {
      explanations := map[];
    }

    /** `fetchExplanation(code)` up to the request. `sent` says whether the request is made. */
    method Request(code: string, apiKey: Option<string>, model: Option<string>) returns (sent: bool)
      requires Valid()
      modifies this
      ensures Valid()
      ensures sent <==> Truthy(apiKey) && Truthy(model)
      ensures explanations == old(explanations)[code := RequestEntry(apiKey, model)]
      ensures forall c :: c != code ==> (c in explanations <==> c in old(explanations))
      ensures forall c :: c != code && c in explanations ==> explanations[c] == old(explanations)[c]
    {
      if !Truthy(apiKey) || !Truthy(model) {
        explanations := explanations[code := Explanation("", false, Some(MissingConfiguration))];
        return false;
      }
      explanations := explanations[code := Explanation("", true, None)];
      sent := true;
    }

    /** `fetchExplanation(code)` from the awaited outcome to the end. */
    method Resolve(code: string, outcome: ExplanationOutcome)
      requires Valid()
      modifies this
      ensures Valid()
      ensures explanations == old(explanations)[code := ResolveEntry(outcome)]
      ensures forall c :: c != code ==> (c in explanations <==> c in old(explanations))
      ensures forall c :: c != code && c in explanations ==> explanations[c] == old(explanations)[c]
    {
      var entry: Explanation;
      match outcome {
        case Answered(content) =>
          entry := Explanation(OptOrElse(content, NoExplanation), false, None);
        case HttpFailure(status) =>
          entry := Explanation("", false, Some(ApiErrorLead + NatToString(status)));
        case Thrown(message) =>
          entry := Explanation("", false, Some(message));
      }
      explanations := explanations[code := entry];
    }
  }

  /** A request followed by its resolution leaves the same entry whatever was stored before: the
      loading entry never survives. */
  lemma ResolutionOverwritesRequest(m: map<string, Explanation>, code: string, apiKey: Option<string>,
                                    model: Option<string>, outcome: ExplanationOutcome)
    ensures m[code := RequestEntry(apiKey, model)][code := ResolveEntry(outcome)] == m[code := ResolveEntry(outcome)]
    ensures !m[code := RequestEntry(apiKey, model)][code := ResolveEntry(outcome)][code].loading
  {
  }
}
