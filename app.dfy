/** `src/App.tsx`: the report-list ingestion of `fetchReports` and the decision of
    `ReportDetailWrapper`. The network request and `JSON.parse` are inputs: the outcome of the
    request is a `FetchOutcome`, and parsing is a function the caller supplies. */
module App {
  import opened Wrappers
  import opened Seqs
  import opened Strings
  import opened Types

  // ---------------------------------------------------------------------------------------------
  // Inputs

  /** What awaiting `fetch(N8N_API_URL, ...)` and `response.text()` yields: a rejection, or a response. */
  datatype FetchOutcome = NetworkFailure(message: string) | Response(status: nat, text: string)
  {
    /** `response.ok`: the status is in the range 200-299. */
    predicate Ok()
    {
      Response? && 200 <= status <= 299
    }
  }

  /** The `data` member of a parsed object, as far as line 96 distinguishes it: falsy, an array,
      or some other truthy value. */
  datatype DataMember = DataFalsy | DataArray(items: seq<StoredReport>) | DataOther

  /** The value `JSON.parse` returns, as far as lines 96-98 distinguish it. `JsonScalar` is a number,
      string or boolean, whose `data` member is `undefined`. */
  datatype ParsedBody = JsonNull | JsonScalar | JsonArray(items: seq<StoredReport>) | JsonObject(data: DataMember)

  /** A thrown JavaScript error: its class and its `message`. */
  datatype ErrorKind = PlainError | SyntaxErrorKind | TypeErrorKind
  datatype JsError = JsError(kind: ErrorKind, message: string)

  // ---------------------------------------------------------------------------------------------
  // Messages

  const ConfigError := "N8N API URL not configured. Please set REACT_APP_N8N_API_URL in your .env file."
  const HttpLead := "HTTP error! Status: "
  const HttpMiddle := ". Response: "
  const NoBody := "No response body."
  const ParseTag := "Failed to parse JSON"
  const ParseLead := " from n8n response. "
  const RawLead := "Raw response: \""
  const RawEnd := "...\""
  const ErrorLead := ". Error: "
  const ParsePrefix := "Error parsing report data: "
  const ParseAdvice := ". This usually means n8n returned invalid or empty data. Please check n8n's workflow execution for the 'Read Reports API' webhook."
  const LoadPrefix := "Failed to load reports: "
  const LoadAdvice := ". Please check the n8n API endpoint, ensure it's running, and check browser console for network errors."

  /** `s.substring(0, n)`. */
  function Truncate(s: string, n: nat): (r: string)
    ensures |r| <= n && |r| <= |s|
    ensures r == s[..|r|]
    ensures |s| <= n ==> r == s
    ensures |r| == if |s| <= n then |s| else n
  {
    if |s| <= n then s else s[..n]
  }

  /** The message thrown at line 79 for a non-ok response. */
  function HttpErrorMessage(status: nat, text: string): (m: string)
    ensures StartsWith(m, HttpLead)
    ensures Contains(m, NatToString(status))
    ensures Contains(m, OrElse(text, NoBody))
  {
    var d := OrElse(text, NoBody);
    var rest := Around(HttpMiddle, d, "");
    var m := Around(HttpLead, NatToString(status), rest);
    ContainsTrans(m, rest, d);
    m
  }

  /** The message of the `SyntaxError` thrown at line 93: it names the parse failure, quotes the
      truncated body and ends with the parser's own message. */
  function ParseErrorMessage(text: string, parseMessage: string): (m: string)
    ensures StartsWith(m, ParseTag)
    ensures Contains(m, RawLead + Truncate(text, 100) + RawEnd)
    ensures Contains(m, parseMessage)
  {
    var quoted := RawLead + Truncate(text, 100) + RawEnd;
    var tail := Around(ErrorLead, parseMessage, "");
    var rest := Around(ParseLead, quoted, tail);
    var m := Around(ParseTag, rest, "");
    ContainsTrans(m, rest, quoted);
    ContainsTrans(rest, tail, parseMessage);
    ContainsTrans(m, rest, parseMessage);
    m
  }

  /** The test at line 102: only a `SyntaxError` qualifies, and any one whose message starts with the
      tag does. */
  predicate IsParseError(e: JsError): (b: bool)
    ensures b ==> e.kind == SyntaxErrorKind && |e.message| >= |ParseTag|
    ensures e.kind == SyntaxErrorKind && StartsWith(e.message, ParseTag) ==> b
  {
    e.kind == SyntaxErrorKind && Contains(e.message, ParseTag)
  }

  /** The error text the catch block sets (lines 102-106). */
  function Classify(e: JsError): (c: string)
    ensures IsParseError(e) ==> StartsWith(c, ParsePrefix)
    ensures !IsParseError(e) ==> StartsWith(c, LoadPrefix)
    ensures Contains(c, e.message)
  {
    if IsParseError(e) then Around(ParsePrefix, e.message, ParseAdvice)
    else Around(LoadPrefix, e.message, LoadAdvice)
  }

  // ---------------------------------------------------------------------------------------------
  // The try block as a value

  /** `Array.isArray(rawData) ? rawData : (rawData.data || [])`, followed by the check that the result
      has a `reverse` method. A `null` payload throws when `.data` is read. */
  function Normalise(raw: ParsedBody): (r: Result<seq<StoredReport>, JsError>)
    ensures r.Failure? <==> raw == JsonNull || raw == JsonObject(DataOther)
    ensures r.Failure? ==> r.error.kind == TypeErrorKind
    ensures raw.JsonArray? ==> r == Success(raw.items)
    ensures raw.JsonObject? && raw.data.DataArray? ==> r == Success(raw.data.items)
  {
    match raw
    case JsonArray(items) => Success(items)
    case JsonObject(DataArray(items)) => Success(items)
    case JsonObject(DataFalsy) => Success([])
    case JsonScalar => Success([])
    case JsonNull => Failure(JsError(TypeErrorKind, "Cannot read properties of null (reading 'data')"))
    case JsonObject(DataOther) => Failure(JsError(TypeErrorKind, "processedReports.reverse is not a function"))
  }

  /** How the `try` block ends: with a payload to reverse, at the empty-body return, or by throwing. */
  datatype TryResult = Loaded(payload: seq<StoredReport>) | NoContent | Thrown(err: JsError)

  function Attempt(fetch: FetchOutcome, parse: string -> Result<ParsedBody, string>): (t: TryResult)
    ensures fetch.NetworkFailure? ==> t == Thrown(JsError(TypeErrorKind, fetch.message))
    ensures fetch.Response? && !fetch.Ok() ==> t == Thrown(JsError(PlainError, HttpErrorMessage(fetch.status, fetch.text)))
    ensures t == NoContent <==> fetch.Response? && fetch.Ok() && fetch.text == ""
    ensures t.Loaded? <==> fetch.Response? && fetch.Ok() && fetch.text != "" && parse(fetch.text).Success? &&
                           Normalise(parse(fetch.text).value).Success?
    ensures t.Loaded? ==> t.payload == Normalise(parse(fetch.text).value).value
    ensures fetch.Response? && fetch.Ok() && fetch.text != "" && parse(fetch.text).Failure? ==>
              t == Thrown(JsError(SyntaxErrorKind, ParseErrorMessage(fetch.text, parse(fetch.text).error)))
    ensures fetch.Response? && fetch.Ok() && fetch.text != "" && parse(fetch.text).Success? &&
            Normalise(parse(fetch.text).value).Failure? ==>
              t == Thrown(Normalise(parse(fetch.text).value).error)
  {
    match fetch
    case NetworkFailure(m) => Thrown(JsError(TypeErrorKind, m))
    case Response(status, text) =>
      if !fetch.Ok() then Thrown(JsError(PlainError, HttpErrorMessage(status, text)))
      else if text == "" then NoContent
      else match parse(text)
        case Failure(m) => Thrown(JsError(SyntaxErrorKind, ParseErrorMessage(text, m)))
        case Success(raw) =>
          match Normalise(raw)
          case Failure(e) => Thrown(e)
          case Success(items) => Loaded(items)
  }

  // ---------------------------------------------------------------------------------------------
  // Page state

  datatype ToastKind = SuccessToast | ErrorToast | InfoToast | WarningToast

  /** The `messageBox` state cell. */
  datatype MessageBox = MessageBox(show: bool, message: string, kind: ToastKind)

  /** `showMessageBox(message, type)` before its timer fires: the box is visible with that message and kind. */
  function Shown(message: string, kind: ToastKind): (b: MessageBox)
    ensures b.show
    ensures b.message == message && b.kind == kind
  {
    MessageBox(true, message, kind)
  }

  /** The state cells of `AppContent` that `fetchReports` writes. */
  datatype PageState = PageState(reports: seq<StoredReport>, loading: bool, error: Option<string>, messageBox: MessageBox)

  /** The state after one call of `fetchReports`, as a function of the state before it. */
  function AfterFetch(before: PageState, apiUrl: Option<string>, fetch: FetchOutcome,
                      parse: string -> Result<ParsedBody, string>): (after: PageState)
    ensures !after.loading
    ensures after.messageBox.show
  {
    if !Truthy(apiUrl) then
      PageState(before.reports, false, Some(ConfigError), Shown("N8N API URL not configured!", ErrorToast))
    else
      match Attempt(fetch, parse)
      case Loaded(items) => PageState(Reversed(items), false, None, Shown("Reports loaded successfully!", SuccessToast))
      case NoContent => PageState([], false, None, Shown("No reports available.", InfoToast))
      case Thrown(e) => PageState(before.reports, false, Some(Classify(e)), Shown("Failed to load reports.", ErrorToast))
  }

  /** The state cells of `AppContent`, updated in place by `fetchReports`. */
  class ReportsPage {
    var reports: seq<StoredReport>
    var loading: bool
    var error: Option<string>
    var messageBox: MessageBox

    function State(): PageState
      reads this
    {
      PageState(reports, loading, error, messageBox)
    }

    /** The initial values of the `useState` calls at lines 44-47. */
    constructor()
      ensures reports == [] && loading && error == None
      ensures messageBox == MessageBox(false, "", SuccessToast)
    {
      reports := [];
      loading := true;
      error := None;
      messageBox := MessageBox(false, "", SuccessToast);
    }

    /** `fetchReports`, step by step. `requested` says whether the request was issued. */
    method FetchReports(apiUrl: Option<string>, fetch: FetchOutcome, parse: string -> Result<ParsedBody, string>)
      returns (requested: bool)
      modifies this
      ensures requested <==> Truthy(apiUrl)
      ensures State() == AfterFetch(old(State()), apiUrl, fetch, parse)
    {
      loading := true;
      error := None;
      if !Truthy(apiUrl) {
        error := Some(ConfigError);
        messageBox := Shown("N8N API URL not configured!", ErrorToast);
        loading := false;
        return false;
      }
      requested := true;
      var thrown: Option<JsError> := None;
      match fetch {
        case NetworkFailure(m) =>
          thrown := Some(JsError(TypeErrorKind, m));
        case Response(status, text) =>
          if !fetch.Ok() {
            thrown := Some(JsError(PlainError, HttpErrorMessage(status, text)));
          } else if text == "" {
            reports := [];
            messageBox := Shown("No reports available.", InfoToast);
            loading := false;
          } else {
            var parsed := parse(text);
            if parsed.Failure? {
              thrown := Some(JsError(SyntaxErrorKind, ParseErrorMessage(text, parsed.error)));
            } else {
              var normalised := Normalise(parsed.value);
              if normalised.Failure? {
                thrown := Some(normalised.error);
              } else {
                reports := ReverseCopy(normalised.value);
                messageBox := Shown("Reports loaded successfully!", SuccessToast);
              }
            }
          }
      }
      if thrown.Some? {
        error := Some(Classify(thrown.value));
        messageBox := Shown("Failed to load reports.", ErrorToast);
      }
      loading := false;
    }
  }

  /** `processedReports.reverse()` on the freshly parsed array. */
  method ReverseCopy(items: seq<StoredReport>) returns (r: seq<StoredReport>)
    ensures r == Reversed(items)
  {
    var a := new StoredReport[|items|](i requires 0 <= i < |items| => items[i]);
    assert a[..] == items;
    ReverseInPlace(a);
    r := a[..];
  }

  // ---------------------------------------------------------------------------------------------
  // Properties of one call

  /** No URL: an error is set and the list is kept; no request is made. */
  lemma MissingUrlKeepsReports(before: PageState, apiUrl: Option<string>, fetch: FetchOutcome,
                               parse: string -> Result<ParsedBody, string>)
    requires !Truthy(apiUrl)
    ensures var after := AfterFetch(before, apiUrl, fetch, parse);
      after.reports == before.reports && after.error == Some(ConfigError)
  {
  }

  /** The text set for a non-ok response starts as the generic load error and quotes the status and
      the body, or "No response body." for an empty body. */
  lemma HttpErrorText(status: nat, text: string)
    ensures var err := Classify(JsError(PlainError, HttpErrorMessage(status, text)));
      StartsWith(err, LoadPrefix) && Contains(err, NatToString(status)) && Contains(err, OrElse(text, NoBody))
  {
    var m := HttpErrorMessage(status, text);
    var err := Classify(JsError(PlainError, m));
    ContainsTrans(err, m, NatToString(status));
    ContainsTrans(err, m, OrElse(text, NoBody));
  }

  /** A non-ok response: the error names the status and the body (or "No response body."), and is
      the generic load error; the list is kept. */
  lemma HttpErrorReported(before: PageState, apiUrl: Option<string>, status: nat, text: string,
                          parse: string -> Result<ParsedBody, string>)
    requires Truthy(apiUrl) && !(200 <= status <= 299)
    ensures var after := AfterFetch(before, apiUrl, Response(status, text), parse);
      after.reports == before.reports && after.error.Some? &&
      StartsWith(after.error.value, LoadPrefix) &&
      Contains(after.error.value, NatToString(status)) &&
      Contains(after.error.value, OrElse(text, NoBody))
  {
    HttpErrorText(status, text);
  }

  /** An ok, empty response empties the list without consulting the parser. */
  lemma EmptyBodySkipsParse(before: PageState, apiUrl: Option<string>, status: nat,
                            parse1: string -> Result<ParsedBody, string>, parse2: string -> Result<ParsedBody, string>)
    requires Truthy(apiUrl) && 200 <= status <= 299
    ensures var after := AfterFetch(before, apiUrl, Response(status, ""), parse1);
      after.reports == [] && after.error == None &&
      after.messageBox == Shown("No reports available.", InfoToast) &&
      after == AfterFetch(before, apiUrl, Response(status, ""), parse2)
  {
  }

  /** The message thrown for a rejected body is recognised as a parse error. */
  lemma ParseMessageRecognised(text: string, pm: string)
    ensures IsParseError(JsError(SyntaxErrorKind, ParseErrorMessage(text, pm)))
  {
  }

  /** The text set for a rejected body starts as the parse error, quotes the truncated body and
      ends with the parser's message. */
  lemma ParseErrorText(text: string, pm: string)
    ensures var err := Classify(JsError(SyntaxErrorKind, ParseErrorMessage(text, pm)));
      StartsWith(err, ParsePrefix) && Contains(err, RawLead + Truncate(text, 100) + RawEnd) && Contains(err, pm)
  {
    var m := ParseErrorMessage(text, pm);
    var err := Classify(JsError(SyntaxErrorKind, m));
    ParseMessageRecognised(text, pm);
    ContainsTrans(err, m, RawLead + Truncate(text, 100) + RawEnd);
    ContainsTrans(err, m, pm);
  }

  /** A body the parser rejects: the error is the parse error, and it quotes at most the first 100
      characters of the body, followed by the parser's message; the list is kept. */
  lemma ParseFailureReported(before: PageState, apiUrl: Option<string>, status: nat, text: string,
                             parse: string -> Result<ParsedBody, string>)
    requires Truthy(apiUrl) && 200 <= status <= 299 && text != "" && parse(text).Failure?
    ensures var after := AfterFetch(before, apiUrl, Response(status, text), parse);
      var quoted := Truncate(text, 100);
      after.reports == before.reports && after.error.Some? &&
      StartsWith(after.error.value, ParsePrefix) &&
      Contains(after.error.value, RawLead + quoted + RawEnd) &&
      |quoted| <= 100 && quoted == text[..|quoted|] &&
      Contains(after.error.value, parse(text).error)
  {
    ParseErrorText(text, parse(text).error);
  }

  /** A body that parses to `null` does not give an empty list: reading `.data` throws a `TypeError`,
      which is reported as the generic load error. */
  lemma NullPayloadIsLoadError(before: PageState, apiUrl: Option<string>, status: nat, text: string,
                               parse: string -> Result<ParsedBody, string>)
    requires Truthy(apiUrl) && 200 <= status <= 299 && text != "" && parse(text) == Success(JsonNull)
    ensures var after := AfterFetch(before, apiUrl, Response(status, text), parse);
      after.reports == before.reports && after.error.Some? && StartsWith(after.error.value, LoadPrefix)
  {
  }

  /** A payload that normalises to a list replaces the reports by that list reversed. */
  lemma SuccessReverses(before: PageState, apiUrl: Option<string>, status: nat, text: string,
                        parse: string -> Result<ParsedBody, string>)
    requires Truthy(apiUrl) && 200 <= status <= 299 && text != "" && parse(text).Success? && Normalise(parse(text).value).Success?
    ensures var after := AfterFetch(before, apiUrl, Response(status, text), parse);
      var payload := Normalise(parse(text).value).value;
      after.error == None && |after.reports| == |payload| &&
      forall i :: 0 <= i < |payload| ==> after.reports[i] == payload[|payload| - 1 - i]
  {
    ReversedSpec(Normalise(parse(text).value).value);
  }

  /** Which payloads normalise to which lists: an array is taken as is, `{data: array}` gives the
      array, a falsy `data` or a scalar gives `[]`, and `null` or a non-array `data` throw. */
  lemma NormaliseCases(raw: ParsedBody)
    ensures raw.JsonArray? ==> Normalise(raw) == Success(raw.items)
    ensures raw.JsonObject? && raw.data.DataArray? ==> Normalise(raw) == Success(raw.data.items)
    ensures raw == JsonScalar || raw == JsonObject(DataFalsy) ==> Normalise(raw) == Success([])
    ensures Normalise(raw).Failure? <==> raw == JsonNull || raw == JsonObject(DataOther)
    ensures Normalise(raw).Failure? ==> Normalise(raw).error.kind == TypeErrorKind
  {
  }

  /** The two error texts are told apart by their first words, and the parse text is chosen exactly
      for a `SyntaxError` whose message mentions the parse failure. */
  lemma ClassificationExact(e: JsError)
    ensures StartsWith(Classify(e), ParsePrefix) <==> IsParseError(e)
    ensures StartsWith(Classify(e), LoadPrefix) <==> !IsParseError(e)
  {
    if IsParseError(e) {
      FirstCharExcludes(Classify(e), ParsePrefix, LoadPrefix);
    } else {
      FirstCharExcludes(Classify(e), LoadPrefix, ParsePrefix);
    }
  }

  /** The error is cleared on both successful paths and set on every failing one. */
  lemma ErrorIffFailure(before: PageState, apiUrl: Option<string>, fetch: FetchOutcome,
                        parse: string -> Result<ParsedBody, string>)
    ensures AfterFetch(before, apiUrl, fetch, parse).error.None? <==>
              Truthy(apiUrl) && !Attempt(fetch, parse).Thrown?
    ensures AfterFetch(before, apiUrl, fetch, parse).reports != before.reports ==>
              Truthy(apiUrl) && !Attempt(fetch, parse).Thrown?
  {
  }

  // ---------------------------------------------------------------------------------------------
  // ReportDetailWrapper

  /** `report._id === reportId`; an absent route parameter matches nothing. */
  predicate Matches(report: StoredReport, id: Option<string>)
  {
    id.Some? && report.id == id.value
  }

  /** The index `reports.find` stops at: the first match. */
  function FindIndex(reports: seq<StoredReport>, id: Option<string>): (r: Option<nat>)
    ensures r.Some? ==> r.value < |reports| && Matches(reports[r.value], id)
    ensures r.Some? ==> forall k :: 0 <= k < r.value ==> !Matches(reports[k], id)
    ensures r.None? <==> forall k :: 0 <= k < |reports| ==> !Matches(reports[k], id)
  {
    if reports == [] then None
    else if Matches(reports[0], id) then Some(0)
    else match FindIndex(reports[1..], id)
      case None => None
      case Some(k) => Some(k + 1)
  }

  /** What the route `/report/:reportId` shows. */
  datatype Route = LoadingSpinner | RedirectHome | ShowReport(report: StoredReport)

  function SelectRoute(reports: seq<StoredReport>, id: Option<string>, isLoading: bool): (r: Route)
    ensures r == LoadingSpinner <==> isLoading && forall k :: 0 <= k < |reports| ==> !Matches(reports[k], id)
    ensures r == RedirectHome <==> !isLoading && forall k :: 0 <= k < |reports| ==> !Matches(reports[k], id)
    ensures r.ShowReport? ==> exists k :: 0 <= k < |reports| && reports[k] == r.report && Matches(r.report, id) &&
                                 forall j :: 0 <= j < k ==> !Matches(reports[j], id)
  {
    match FindIndex(reports, id)
    case None => if isLoading then LoadingSpinner else RedirectHome
    case Some(k) => ShowReport(reports[k])
  }

  /** Once a match exists, the detail view is shown whether or not loading is still in progress. */
  lemma FoundIgnoresLoading(reports: seq<StoredReport>, id: Option<string>, k: nat)
    requires k < |reports| && Matches(reports[k], id)
    ensures SelectRoute(reports, id, true) == SelectRoute(reports, id, false)
    ensures SelectRoute(reports, id, true).ShowReport?
  {
  }
}
