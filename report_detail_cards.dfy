/** The card-based detail view of `src/components/ReportDetail/ReportDetail.tsx`. Its totals and toggle
    are the same expressions as in `src/components/ReportDetail.tsx` (`ReportDetail.TotalsOf`,
    `ReportDetail.Toggle`); its chart aggregation differs and is related to the other one here. */
module ReportDetailCards {
  import opened Wrappers
  import opened Seqs
  import opened Strings
  import opened Types
  import opened ReportDetail

  // ---------------------------------------------------------------------------------------------
  // Severity counts

  /** `issueTypes.map(type => issues.filter(issue => issue.type === type).length)`: always three counts,
      zeros included, in the order error, warning, notice. */
  function TypeCounts(issues: seq<Issue>): (c: seq<nat>)
    ensures |c| == 3
    ensures forall k :: 0 <= k < 3 ==> c[k] == CountSeverity(issues, SeverityOrder[k])
  {
    OfSeverityCount(issues, Error);
    OfSeverityCount(issues, Warning);
    OfSeverityCount(issues, Notice);
    Map(SeverityOrder, t => |OfSeverity(issues, t)|)
  }

  /** The three counts add up to the number of issues, and the Errors stat card equals the first. */
  lemma TypeCountsTotal(body: Option<BodyData>)
    ensures var issues := BodyOrDefault(body).issues;
      TypeCounts(issues)[0] + TypeCounts(issues)[1] + TypeCounts(issues)[2] == |issues|
    ensures TotalsOf(body).errors == TypeCounts(BodyOrDefault(body).issues)[0]
  {
    SeverityCountsSum(BodyOrDefault(body).issues);
  }

  /** `t.charAt(0).toUpperCase() + t.slice(1)` for the ASCII names used here. */
  function Capitalize(t: string): (r: string)
    ensures |r| == |t|
    ensures t != [] ==> r[1..] == t[1..]
    ensures t != [] && 'a' <= t[0] <= 'z' ==> 'A' <= r[0] <= 'Z' && r[0] as int == t[0] as int - 32
    ensures t != [] && !('a' <= t[0] <= 'z') ==> r[0] == t[0]
  {
    if t == [] then []
    else [if 'a' <= t[0] <= 'z' then (t[0] as int - 32) as char else t[0]] + t[1..]
  }

  /** A chart label: the capitalised type name followed by `s`. */
  function TypeLabel(t: Severity): (l: string)
    ensures |l| == |SeverityName(t)| + 1 && l[|l| - 1] == 's'
    ensures 'A' <= l[0] <= 'Z' && l[1..|l| - 1] == SeverityName(t)[1..]
  {
    Capitalize(SeverityName(t)) + "s"
  }

  /** The labels are "Errors", "Warnings", "Notices": the labels of the other view's slices. */
  lemma TypeLabelsFixed()
    ensures Map(SeverityOrder, TypeLabel) == ["Errors", "Warnings", "Notices"]
    ensures Map(SeverityOrder, TypeLabel) == Map(SeverityOrder, SeverityChartLabel)
  {
    assert TypeLabel(Error) == "Errors";
    assert TypeLabel(Warning) == "Warnings";
    assert TypeLabel(Notice) == "Notices";
  }

  /** The positive entries of a count list, in order. */
  function Positive(c: seq<nat>): seq<nat>
  {
    Filter(c, IsPositive)
  }

  function IsPositive(x: nat): bool
  {
    x > 0
  }

  lemma PositiveOfThree(e: nat, w: nat, n: nat)
    ensures Positive([e, w, n]) == (if e > 0 then [e] else []) + (if w > 0 then [w] else []) + (if n > 0 then [n] else [])
  {
    var c := [e, w, n];
    assert c[..2] == [e, w];
    assert [e, w][..1] == [e];
    assert [e][..0] == [];
    assert Filter([e], IsPositive) == (if e > 0 then [e] else []);
    assert Filter([e, w], IsPositive) == Filter([e], IsPositive) + (if w > 0 then [w] else []);
    assert Filter(c, IsPositive) == Filter([e, w], IsPositive) + (if n > 0 then [n] else []);
  }

  /** Dropping the zeros from the three counts gives exactly the other view's chart data. */
  lemma PositiveTypeCountsAreChartData(issues: seq<Issue>)
    ensures Positive(TypeCounts(issues)) == SeverityChartSpec(issues).data
  {
    var e, w, n := CountSeverity(issues, Error), CountSeverity(issues, Warning), CountSeverity(issues, Notice);
    assert TypeCounts(issues) == [e, w, n];
    PositiveOfThree(e, w, n);
    SeverityChartSpecSlices(issues);
  }

  // ---------------------------------------------------------------------------------------------
  // Principle counts: one independent filter per token

  /** `issues.filter(issue => issue.code.includes(principle))`. */
  function WithToken(issues: seq<Issue>, p: Principle): (r: seq<Issue>)
    ensures |r| <= |issues|
    ensures forall x :: x in r <==> x in issues && Contains(x.code, Token(p))
  {
    Filter(issues, (i: Issue) => Contains(i.code, Token(p)))
  }

  /** The number of issues whose code contains the token of `p`, whatever else it contains. */
  function TokenCount(issues: seq<Issue>, p: Principle): (n: nat)
    ensures n <= |issues|
    ensures n == 0 <==> forall k :: 0 <= k < |issues| ==> !Contains(issues[k].code, Token(p))
  {
    var r := WithToken(issues, p);
    assert r != [] ==> r[0] in r;
    |r|
  }

  /** `Object.keys(principleMap).map(...)`: four counts in key order, each at most the number of issues. */
  function TokenCounts(issues: seq<Issue>): (c: seq<nat>)
    ensures |c| == 4
    ensures forall k :: 0 <= k < 4 ==> c[k] == TokenCount(issues, PrincipleOrder[k]) && c[k] <= |issues|
  {
    Map(PrincipleOrder, p => TokenCount(issues, p))
  }

  /** `Object.values(principleMap)`. */
  lemma TokenLabelsFixed()
    ensures Map(PrincipleOrder, PrincipleLabel) == ["Perceivable", "Operable", "Understandable", "Robust"]
  {
  }

  lemma {:induction false} WithTokenStep(issues: seq<Issue>, p: Principle)
    requires issues != []
    ensures TokenCount(issues, p) == TokenCount(issues[..|issues| - 1], p)
              + (if Contains(issues[|issues| - 1].code, Token(p)) then 1 else 0)
  {
  }

  /** The Perceivable bucket is the same in both views: `Principle1` is tested first in the chain. */
  lemma {:induction false} PerceivableCountsAgree(issues: seq<Issue>)
    ensures ExclusiveCount(issues, Perceivable) == TokenCount(issues, Perceivable)
  {
    if issues != [] {
      PerceivableCountsAgree(issues[..|issues| - 1]);
      WithTokenStep(issues, Perceivable);
    }
  }

  /** Every exclusive bucket is at most the matching independent count. */
  lemma {:induction false} ExclusiveAtMostTokenCount(issues: seq<Issue>, p: Principle)
    ensures ExclusiveCount(issues, p) <= TokenCount(issues, p)
  {
    if issues != [] {
      ExclusiveAtMostTokenCount(issues[..|issues| - 1], p);
      WithTokenStep(issues, p);
    }
  }

  /** Unlike the exclusive buckets, the independent counts can add up to more than the number of
      issues: one issue whose code carries two tokens is counted twice. */
  lemma TokenCountsMayExceedIssues()
    ensures exists issues: seq<Issue> ::
      var c := TokenCounts(issues);
      c[0] + c[1] + c[2] + c[3] > |issues|
  {
    var code := Around(Token(Perceivable), ".", Token(Operable));
    var issue := Issue(code, Error, "", "", "", "", None);
    SingleIssueCount(issue, Perceivable);
    SingleIssueCount(issue, Operable);
    var c := TokenCounts([issue]);
    assert c[0] == 1 && c[1] == 1;
  }

  /** A single issue is counted once for each token its code contains. */
  lemma SingleIssueCount(issue: Issue, p: Principle)
    ensures TokenCount([issue], p) == if Contains(issue.code, Token(p)) then 1 else 0
  {
    WithTokenStep([issue], p);
    assert [issue][..0] == [];
  }

  // ---------------------------------------------------------------------------------------------
  // The issue table

  /** A row of the table body: an `IssueRow` for issue `index`, or the "No issues found." row. */
  datatype TableRow = IssueRowView(index: nat, issue: Issue, expanded: bool) | Placeholder

  /** `issues?.length ? issues.map((issue, idx) => <IssueRow expanded={!!expandedIssues[idx]} />) : <tr>...</tr>`. */
  function TableRows(issues: seq<Issue>, expanded: Expanded): (rows: seq<TableRow>)
    ensures Placeholder in rows <==> |issues| == 0
    ensures |issues| == 0 ==> |rows| == 1
    ensures |issues| > 0 ==> |rows| == |issues|
    ensures forall i :: 0 <= i < |rows| && rows[i].IssueRowView? ==>
              rows[i].index == i && rows[i].issue == issues[i] && rows[i].expanded == IsExpanded(expanded, i)
  {
    if |issues| > 0 then seq(|issues|, i requires 0 <= i < |issues| => IssueRowView(i, issues[i], IsExpanded(expanded, i)))
    else [Placeholder]
  }

  // ---------------------------------------------------------------------------------------------
  // Header and the whole view

  /** The `<h2>` title and the link target of lines 62-70. */
  datatype CardHeader = CardHeader(title: string, href: Option<string>)

  /** What reading `report.reportData.body.pageUrl` throws when the body is missing. */
  const UndefinedBody := "Cannot read properties of undefined (reading 'pageUrl')"

  /** `pa11yDetails.documentTitle || 'Untitled'` and `pa11yDetails.pageUrl || report.reportData.body.pageUrl`.
      When the body is present the second operand repeats the first, so the link is the body's own
      `pageUrl` with no further fallback; when it is missing, the default body has no `pageUrl` and
      the second operand throws. */
  function HeaderOf(body: Option<BodyData>): (r: Result<CardHeader, string>)
    ensures r.Failure? <==> body.None?
    ensures r.Success? ==> r.value.href == body.value.pageUrl
    ensures r.Success? && body.value.documentTitle != "" ==> r.value.title == body.value.documentTitle
    ensures r.Success? && body.value.documentTitle == "" ==> r.value.title == "Untitled"
  {
    var details := BodyOrDefault(body);
    var title := OrElse(details.documentTitle, "Untitled");
    if Truthy(details.pageUrl) then Success(CardHeader(title, details.pageUrl))
    else match body
      case None => Failure(UndefinedBody)
      case Some(b) => Success(CardHeader(title, b.pageUrl))
  }

  /** What the component renders: the header, the two stat cards and the table. */
  datatype CardView = CardView(header: CardHeader, totals: Totals, rows: seq<TableRow>)

  /** The render of lines 56-106. The header is evaluated before the table, so a missing body
      throws and no row is shown. */
  function Render(body: Option<BodyData>, expanded: Expanded): (r: Result<CardView, string>)
    ensures r.Failure? <==> body.None?
    ensures r.Success? ==> r.value.header == HeaderOf(body).value
    ensures r.Success? ==> r.value.totals == TotalsOf(body)
    ensures r.Success? ==> r.value.rows == TableRows(body.value.issues, expanded)
  {
    match HeaderOf(body)
    case Failure(e) => Failure(e)
    case Success(h) => Success(CardView(h, TotalsOf(body), TableRows(BodyOrDefault(body).issues, expanded)))
  }

  /** The table expression of the default body is the single placeholder row, but the component
      never reaches it: for a missing body the header throws first. */
  lemma MissingBodyShowsPlaceholder(expanded: Expanded)
    ensures TableRows(BodyOrDefault(None).issues, expanded) == [Placeholder]
    ensures Render(None, expanded) == Failure(UndefinedBody)
  {
  }

  /** A present body with no issues shows the placeholder row. */
  lemma EmptyIssuesShowPlaceholder(body: BodyData, expanded: Expanded)
    requires body.issues == []
    ensures Render(Some(body), expanded).Success?
    ensures Render(Some(body), expanded).value.rows == [Placeholder]
  {
  }
}
