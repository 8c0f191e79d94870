/** The records of `src/types.ts`: a Pa11y issue, the scan body, the raw webhook payload and the
    stored report, plus the dashboard's colour constants. */
module Types {
  import opened Wrappers

  /** An issue's `type`: exactly one of `'error' | 'warning' | 'notice'`. */
  datatype Severity = Error | Warning | Notice

  /** The fixed order the severity charts use. */
  const SeverityOrder: seq<Severity> := [Error, Warning, Notice]

  /** The string literal the source spells each severity with. */
  function SeverityName(s: Severity): (name: string)
    ensures |name| > 0
  {
    match s
    case Error => "error"
    case Warning => "warning"
    case Notice => "notice"
  }

  /** Every severity is spelt as one of the three literals, and no two severities share one. */
  lemma SeverityNamesDistinct(a: Severity, b: Severity)
    ensures SeverityName(a) in ["error", "warning", "notice"]
    ensures SeverityName(a) == SeverityName(b) <==> a == b
  {
    if a != b {
      assert SeverityName(a)[0] != SeverityName(b)[0];
    }
  }

  /** `runnerExtras`: four independently optional strings; `None` is an absent key. */
  datatype RunnerExtras = RunnerExtras(
    description: Option<string>,
    impact: Option<string>,
    help: Option<string>,
    helpUrl: Option<string>)

  /** `Pa11yIssue`. The field `type` is called `severity` here, `type` being a Dafny keyword. */
  datatype Issue = Issue(
    code: string,
    severity: Severity,
    message: string,
    context: string,
    selector: string,
    runner: string,
    runnerExtras: Option<RunnerExtras>)

  /** `Pa11yBodyData`: only `pageUrl` is optional. */
  datatype BodyData = BodyData(
    documentTitle: string,
    documentUrl: string,
    pageUrl: Option<string>,
    issues: seq<Issue>)

  /** A `Record<string, any>` whose values the core never reads. */
  type Record = map<string, string>

  /** `RawReportData`: everything except `body` is optional. */
  datatype RawReportData = RawReportData(
    headers: Option<Record>,
    params: Option<Record>,
    query: Option<Record>,
    body: BodyData,
    webhookUrl: Option<string>,
    executionMode: Option<string>)

  /** `StoredReport`; `_id` is called `id`. `issuesCount` and `errorsCount` are stored numbers that
      nothing ties to `reportData.body.issues`. */
  datatype StoredReport = StoredReport(
    id: string,
    timestamp: string,
    url: string,
    title: string,
    issuesCount: int,
    errorsCount: int,
    reportData: RawReportData)

  // The three entries of `customColors` the severity chart uses.
  const DangerColor := "#e74c3c"
  const WarningColor := "#f39c12"
  const SuccessColor := "#2ecc71"
}
