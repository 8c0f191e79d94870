/** The detail view that `src/App.tsx` renders (`src/components/ReportDetail.tsx`): the expanded-row
    toggle, the body fallback and totals, the chart aggregation and the title and URL fallbacks. */
module ReportDetail {
  import opened Wrappers
  import opened Seqs
  import opened Strings
  import opened Types
  import HtmlEscape

  // ---------------------------------------------------------------------------------------------
  // Expanded rows: `expandedIssues` and `toggleIssueDetails`

  /** `expandedIssues`, a `{ [index: number]: boolean }` state object; an absent key reads as `undefined`. */
  type Expanded = map<nat, bool>

  /** `!!expandedIssues[i]`: whether row `i` shows its details. A row never toggled is collapsed. */
  function IsExpanded(m: Expanded, i: nat): (b: bool)
    ensures i !in m ==> !b
    ensures i in m ==> b == m[i]
  {
    i in m && m[i]
  }

  /** `{ ...prev, [index]: !prev[index] }`. */
  function Toggle(m: Expanded, index: nat): (r: Expanded)
    ensures r.Keys == m.Keys + {index}
    ensures IsExpanded(r, index) == !IsExpanded(m, index)
    ensures forall j :: j in m && j != index ==> r[j] == m[j]
  {
    m[index := !IsExpanded(m, index)]
  }

  /** Toggling flips row `index` and no other row. */
  lemma ToggleFlipsOnlyIndex(m: Expanded, index: nat)
    ensures IsExpanded(Toggle(m, index), index) != IsExpanded(m, index)
    ensures forall j: nat :: j != index ==> IsExpanded(Toggle(m, index), j) == IsExpanded(m, j)
  {
  }

  /** Toggling the same row twice restores what every row shows (the key may stay, holding `false`). */
  lemma ToggleTwice(m: Expanded, index: nat)
    ensures forall j: nat :: IsExpanded(Toggle(Toggle(m, index), index), j) == IsExpanded(m, j)
  {
  }

  // ---------------------------------------------------------------------------------------------
  // Body fallback and totals

  /** The default body used when `report.reportData?.body` is missing. */
  const EmptyBody := BodyData("", "", None, [])

  /** `report.reportData?.body || { documentTitle: '', documentUrl: '', issues: [] }`. */
  function BodyOrDefault(body: Option<BodyData>): (d: BodyData)
    ensures body.Some? ==> d == body.value
    ensures body.None? ==> d.issues == [] && d.documentTitle == "" && d.documentUrl == "" && d.pageUrl.None?
  {
    match body
    case Some(b) => b
    case None => EmptyBody
  }

  /** The number of issues of severity `s`: the reference count every tally is measured against. */
  function CountSeverity(issues: seq<Issue>, s: Severity): (n: nat)
    ensures n <= |issues|
  {
    if issues == [] then 0
    else CountSeverity(issues[..|issues| - 1], s) + (if issues[|issues| - 1].severity == s then 1 else 0)
  }

  /** Every issue has exactly one of the three severities, so the three counts add up to the total. */
  lemma {:induction false} SeverityCountsSum(issues: seq<Issue>)
    ensures CountSeverity(issues, Error) + CountSeverity(issues, Warning) + CountSeverity(issues, Notice) == |issues|
  {
    if issues != [] {
      SeverityCountsSum(issues[..|issues| - 1]);
    }
  }

  /** A severity counts zero exactly when no issue has it. */
  lemma {:induction false} CountSeverityZero(issues: seq<Issue>, s: Severity)
    ensures CountSeverity(issues, s) == 0 <==> forall k :: 0 <= k < |issues| ==> issues[k].severity != s
  {
    if issues != [] {
      var init := issues[..|issues| - 1];
      CountSeverityZero(init, s);
      assert forall k :: 0 <= k < |init| ==> init[k] == issues[k];
    }
  }

  /** `issues.filter(issue => issue.type === s)`. */
  function OfSeverity(issues: seq<Issue>, s: Severity): (r: seq<Issue>)
    ensures forall x :: x in r <==> x in issues && x.severity == s
  {
    Filter(issues, (i: Issue) => i.severity == s)
  }

  lemma {:induction false} OfSeverityCount(issues: seq<Issue>, s: Severity)
    ensures |OfSeverity(issues, s)| == CountSeverity(issues, s)
  {
    if issues != [] {
      OfSeverityCount(issues[..|issues| - 1], s);
    }
  }

  /** The "Total Issues" and "Errors" stat cards. */
  datatype Totals = Totals(totalIssues: nat, errors: nat)

  /** `issues?.length || 0` and `issues?.filter(issue => issue.type === 'error').length || 0`. */
  function TotalsOf(body: Option<BodyData>): (t: Totals)
    ensures body.None? ==> t == Totals(0, 0)
    ensures t.totalIssues == |BodyOrDefault(body).issues|
    ensures t.errors == CountSeverity(BodyOrDefault(body).issues, Error)
    ensures t.errors <= t.totalIssues
  {
    var issues := BodyOrDefault(body).issues;
    OfSeverityCount(issues, Error);
    Totals(|issues|, |OfSeverity(issues, Error)|)
  }

  /** The stored `issuesCount` / `errorsCount` (shown by the report list) need not agree with the counts
      the detail view recomputes from the issues. */
  lemma StoredCountsMayDisagree()
    ensures exists r: StoredReport ::
      r.issuesCount != TotalsOf(Some(r.reportData.body)).totalIssues
      && r.errorsCount != TotalsOf(Some(r.reportData.body)).errors
  {
    var body := BodyData("t", "u", None, []);
    var r := StoredReport("id", "ts", "u", "t", 3, 1, RawReportData(None, None, None, body, None, None));
    assert TotalsOf(Some(r.reportData.body)) == Totals(0, 0);
  }

  // ---------------------------------------------------------------------------------------------
  // WCAG principles

  datatype Principle = Perceivable | Operable | Understandable | Robust

  /** The key order of `principleCounts`. */
  const PrincipleOrder: seq<Principle> := [Perceivable, Operable, Understandable, Robust]

  function PrincipleRank(p: Principle): nat
  {
    match p
    case Perceivable => 0
    case Operable => 1
    case Understandable => 2
    case Robust => 3
  }

  /** The substring that marks a principle in a WCAG code. */
  function Token(p: Principle): string
  {
    match p
    case Perceivable => "Principle1"
    case Operable => "Principle2"
    case Understandable => "Principle3"
    case Robust => "Principle4"
  }

  /** The `label` entries of `principleCounts`, keyed by token. */
  const PrincipleLabels: map<string, string> :=
    map["Principle1" := "Perceivable", "Principle2" := "Operable",
        "Principle3" := "Understandable", "Principle4" := "Robust"]

  /** The chart label of a principle: the entry stored under its token. */
  function PrincipleLabel(p: Principle): (l: string)
    ensures Token(p) in PrincipleLabels && l == PrincipleLabels[Token(p)]
  {
    match p
    case Perceivable => "Perceivable"
    case Operable => "Operable"
    case Understandable => "Understandable"
    case Robust => "Robust"
  }

  /** The bucket the `if / else if` chain picks for a code: the first principle, in token order,
      whose token the code contains. */
  function FirstPrinciple(code: string): (r: Option<Principle>)
    ensures r.Some? ==> Contains(code, Token(r.value))
    ensures r.Some? ==> forall q :: PrincipleRank(q) < PrincipleRank(r.value) ==> !Contains(code, Token(q))
    ensures r.None? <==> forall q :: !Contains(code, Token(q))
  {
    if Contains(code, "Principle1") then Some(Perceivable)
    else if Contains(code, "Principle2") then Some(Operable)
    else if Contains(code, "Principle3") then Some(Understandable)
    else if Contains(code, "Principle4") then Some(Robust)
    else None
  }

  /** How many issues the chain puts into bucket `p`. */
  function ExclusiveCount(issues: seq<Issue>, p: Principle): (n: nat)
    ensures n <= |issues|
  {
    if issues == [] then 0
    else ExclusiveCount(issues[..|issues| - 1], p) + (if FirstPrinciple(issues[|issues| - 1].code) == Some(p) then 1 else 0)
  }

  /** The number of issues whose code names no principle at all. */
  function Unclassified(issues: seq<Issue>): nat
  {
    if issues == [] then 0
    else Unclassified(issues[..|issues| - 1]) + (if FirstPrinciple(issues[|issues| - 1].code).None? then 1 else 0)
  }

  /** Each issue lands in at most one bucket: the four buckets and the unclassified issues partition the
      issues, so the buckets add up to at most the number of issues. */
  lemma {:induction false} ExclusiveCountsPartition(issues: seq<Issue>)
    ensures ExclusiveCount(issues, Perceivable) + ExclusiveCount(issues, Operable)
          + ExclusiveCount(issues, Understandable) + ExclusiveCount(issues, Robust)
          + Unclassified(issues) == |issues|
    ensures ExclusiveCount(issues, Perceivable) + ExclusiveCount(issues, Operable)
          + ExclusiveCount(issues, Understandable) + ExclusiveCount(issues, Robust) <= |issues|
  {
    if issues != [] {
      ExclusiveCountsPartition(issues[..|issues| - 1]);
    }
  }

  // ---------------------------------------------------------------------------------------------
  // Chart data (the `useMemo` block)

  /** The doughnut chart's `labels`, `datasets[0].data` and `datasets[0].backgroundColor`. */
  datatype SeverityChart = SeverityChart(labels: seq<string>, data: seq<nat>, colors: seq<string>)

  /** The bar chart's `labels` and `datasets[0].data`. */
  datatype PrincipleChart = PrincipleChart(labels: seq<string>, data: seq<nat>)

  function SeverityRank(s: Severity): nat
  {
    match s
    case Error => 0
    case Warning => 1
    case Notice => 2
  }

  function SeverityChartLabel(s: Severity): string
  {
    match s
    case Error => "Errors"
    case Warning => "Warnings"
    case Notice => "Notices"
  }

  function SeverityColor(s: Severity): string
  {
    match s
    case Error => DangerColor
    case Warning => WarningColor
    case Notice => SuccessColor
  }

  /** A singleton for a severity that occurs, nothing for one that does not. */
  function IfOccurs(issues: seq<Issue>, s: Severity): seq<Severity>
  {
    if CountSeverity(issues, s) > 0 then [s] else []
  }

  /** The severities of `order` that occur among the issues, in the order of `order`. */
  function Occurring(order: seq<Severity>, issues: seq<Issue>): seq<Severity>
  {
    if order == [] then [] else Occurring(order[..|order| - 1], issues) + IfOccurs(issues, order[|order| - 1])
  }

  lemma OccurringInOrder(issues: seq<Issue>)
    ensures Occurring(SeverityOrder, issues)
         == IfOccurs(issues, Error) + IfOccurs(issues, Warning) + IfOccurs(issues, Notice)
  {
    var o := SeverityOrder;
    assert o[..2] == [Error, Warning];
    assert o[..2][..1] == [Error];
    assert o[..2][..1][..0] == [];
    assert Occurring(o[..2][..1], issues) == IfOccurs(issues, Error);
  }

  /** What the severity chart shows: one slice per severity that occurs, in the order error, warning,
      notice, with that severity's label, count and colour. */
  function SeverityChartSpec(issues: seq<Issue>): SeverityChart
  {
    var present := Occurring(SeverityOrder, issues);
    SeverityChart(Map(present, SeverityChartLabel), Map(present, s => CountSeverity(issues, s)), Map(present, SeverityColor))
  }

  /** What the principle chart shows: the four labels in key order, each with its exclusive bucket. */
  function PrincipleChartSpec(issues: seq<Issue>): PrincipleChart
  {
    PrincipleChart(Map(PrincipleOrder, PrincipleLabel), Map(PrincipleOrder, p => ExclusiveCount(issues, p)))
  }

  lemma MapOptional<B>(e: bool, w: bool, n: bool, f: Severity -> B)
    ensures Map((if e then [Error] else []) + (if w then [Warning] else []) + (if n then [Notice] else []), f)
         == (if e then [f(Error)] else []) + (if w then [f(Warning)] else []) + (if n then [f(Notice)] else [])
  {
  }

  /** The spec chart written out slice by slice. */
  lemma SeverityChartSpecSlices(issues: seq<Issue>)
    ensures var e, w, n := CountSeverity(issues, Error), CountSeverity(issues, Warning), CountSeverity(issues, Notice);
      SeverityChartSpec(issues) == SeverityChart(
        (if e > 0 then ["Errors"] else []) + (if w > 0 then ["Warnings"] else []) + (if n > 0 then ["Notices"] else []),
        (if e > 0 then [e] else []) + (if w > 0 then [w] else []) + (if n > 0 then [n] else []),
        (if e > 0 then [DangerColor] else []) + (if w > 0 then [WarningColor] else []) + (if n > 0 then [SuccessColor] else []))
  {
    var e, w, n := CountSeverity(issues, Error), CountSeverity(issues, Warning), CountSeverity(issues, Notice);
    OccurringInOrder(issues);
    MapOptional(e > 0, w > 0, n > 0, SeverityChartLabel);
    MapOptional(e > 0, w > 0, n > 0, s => CountSeverity(issues, s));
    MapOptional(e > 0, w > 0, n > 0, SeverityColor);
  }

  /** `issues.reduce(...)`: the tally object, holding a key only for a severity that occurs. */
  method TallySeverities(issues: seq<Issue>) returns (acc: map<Severity, nat>)
    ensures forall s :: s in acc <==> CountSeverity(issues, s) > 0
    ensures forall s :: s in acc ==> acc[s] == CountSeverity(issues, s)
  {
    acc := map[];
    for i := 0 to |issues|
      invariant forall s :: s in acc <==> CountSeverity(issues[..i], s) > 0
      invariant forall s :: s in acc ==> acc[s] == CountSeverity(issues[..i], s)
    {
      assert issues[..i + 1][..i] == issues[..i];
      var t := issues[i].severity;
      acc := acc[t := (if t in acc then acc[t] else 0) + 1];
    }
    assert issues[..|issues|] == issues;
  }

  /** The three guarded `push` groups: a slice for each truthy tally, in the order error, warning, notice. */
  method PushSlices(acc: map<Severity, nat>) returns (chart: SeverityChart)
    ensures var e, w, n := Tallied(acc, Error), Tallied(acc, Warning), Tallied(acc, Notice);
      chart == SeverityChart(
        (if e > 0 then ["Errors"] else []) + (if w > 0 then ["Warnings"] else []) + (if n > 0 then ["Notices"] else []),
        (if e > 0 then [e] else []) + (if w > 0 then [w] else []) + (if n > 0 then [n] else []),
        (if e > 0 then [DangerColor] else []) + (if w > 0 then [WarningColor] else []) + (if n > 0 then [SuccessColor] else []))
  {
    var labels: seq<string> := [];
    var data: seq<nat> := [];
    var colors: seq<string> := [];
    if Error in acc && acc[Error] != 0 {
      labels := labels + ["Errors"];
      data := data + [acc[Error]];
      colors := colors + [DangerColor];
    }
    if Warning in acc && acc[Warning] != 0 {
      labels := labels + ["Warnings"];
      data := data + [acc[Warning]];
      colors := colors + [WarningColor];
    }
    if Notice in acc && acc[Notice] != 0 {
      labels := labels + ["Notices"];
      data := data + [acc[Notice]];
      colors := colors + [SuccessColor];
    }
    chart := SeverityChart(labels, data, colors);
  }

  /** `issueTypeCounts.s || 0`: a missing key reads as zero, and a non-zero value is the tally. */
  function Tallied(acc: map<Severity, nat>, s: Severity): (n: nat)
    ensures s !in acc ==> n == 0
    ensures s in acc ==> n == acc[s]
  {
    if s in acc then acc[s] else 0
  }

  /** The `forEach` that adds 1 to the first matching principle counter of each issue. */
  method CountPrinciples(issues: seq<Issue>) returns (counts: seq<nat>)
    ensures |counts| == 4
    ensures forall k :: 0 <= k < 4 ==> counts[k] == ExclusiveCount(issues, PrincipleOrder[k])
  {
    var perceivable, operable, understandable, robust := 0, 0, 0, 0;
    for i := 0 to |issues|
      invariant perceivable == ExclusiveCount(issues[..i], Perceivable)
      invariant operable == ExclusiveCount(issues[..i], Operable)
      invariant understandable == ExclusiveCount(issues[..i], Understandable)
      invariant robust == ExclusiveCount(issues[..i], Robust)
    {
      assert issues[..i + 1][..i] == issues[..i];
      assert issues[..i + 1][i] == issues[i];
      var code := issues[i].code;
      if Contains(code, "Principle1") {
        perceivable := perceivable + 1;
      } else if Contains(code, "Principle2") {
        operable := operable + 1;
      } else if Contains(code, "Principle3") {
        understandable := understandable + 1;
      } else if Contains(code, "Principle4") {
        robust := robust + 1;
      }
    }
    assert issues[..|issues|] == issues;
    counts := [perceivable, operable, understandable, robust];
  }

  /** The `useMemo` aggregation: the severity chart from the tally, the principle chart from the counters. */
  method ChartData(issues: seq<Issue>) returns (severityChart: SeverityChart, principleChart: PrincipleChart)
    ensures severityChart == SeverityChartSpec(issues)
    ensures principleChart == PrincipleChartSpec(issues)
  {
    var acc := TallySeverities(issues);
    severityChart := PushSlices(acc);
    SeverityChartSpecSlices(issues);
    assert Tallied(acc, Error) == CountSeverity(issues, Error);
    assert Tallied(acc, Warning) == CountSeverity(issues, Warning);
    assert Tallied(acc, Notice) == CountSeverity(issues, Notice);
    var counts := CountPrinciples(issues);
    principleChart := PrincipleChart(["Perceivable", "Operable", "Understandable", "Robust"], counts);
  }

  /** The severity chart's three lists have one entry per slice, every count is positive, and the counts
      add up to the number of issues. */
  lemma SeverityChartProperties(issues: seq<Issue>)
    ensures |SeverityChartSpec(issues).labels| == |SeverityChartSpec(issues).data| == |SeverityChartSpec(issues).colors|
    ensures forall i :: 0 <= i < |SeverityChartSpec(issues).data| ==> SeverityChartSpec(issues).data[i] > 0
    ensures Sum(SeverityChartSpec(issues).data) == |issues|
  {
    var e, w, n := CountSeverity(issues, Error), CountSeverity(issues, Warning), CountSeverity(issues, Notice);
    SeverityChartSpecSlices(issues);
    SeverityCountsSum(issues);
    SumOfOptional(e, w, n);
  }

  /** Each severity that occurs gets exactly one slice, and the slices follow the order error, warning,
      notice. */
  lemma SeverityChartOrder(issues: seq<Issue>)
    ensures forall s :: s in Occurring(SeverityOrder, issues) <==> CountSeverity(issues, s) > 0
    ensures var present := Occurring(SeverityOrder, issues);
      forall i, j :: 0 <= i < j < |present| ==> SeverityRank(present[i]) < SeverityRank(present[j])
  {
    OccurringInOrder(issues);
  }

  lemma SumOfOptional(e: nat, w: nat, n: nat)
    ensures Sum((if e > 0 then [e] else []) + (if w > 0 then [w] else []) + (if n > 0 then [n] else [])) == e + w + n
  {
    var a, b, c := (if e > 0 then [e] else []), (if w > 0 then [w] else []), (if n > 0 then [n] else []);
    SumAppend(a, b);
    SumAppend(a + b, c);
    assert Sum([e]) == e && Sum([w]) == w && Sum([n]) == n;
  }

  lemma {:induction false} SumAppend(a: seq<nat>, b: seq<nat>)
    ensures Sum(a + b) == Sum(a) + Sum(b)
  {
    if b == [] {
      assert a + b == a;
    } else {
      assert (a + b)[..|a + b| - 1] == a + b[..|b| - 1];
      SumAppend(a, b[..|b| - 1]);
    }
  }

  /** The principle chart always has the four labels Perceivable, Operable, Understandable, Robust in
      that order, keeps zero buckets, and its counts add up to at most the number of issues. */
  lemma PrincipleChartProperties(issues: seq<Issue>)
    ensures var c := PrincipleChartSpec(issues);
      && c.labels == ["Perceivable", "Operable", "Understandable", "Robust"]
      && |c.data| == 4
      && (forall k :: 0 <= k < 4 ==> c.data[k] == ExclusiveCount(issues, PrincipleOrder[k]))
      && c.data[0] + c.data[1] + c.data[2] + c.data[3] <= |issues|
  {
    ExclusiveCountsPartition(issues);
  }

  // ---------------------------------------------------------------------------------------------
  // Title and URL fallbacks of the page header

  /** `escapeHtml(documentTitle || pageUrl || 'Untitled')`. */
  function TitleText(d: BodyData): (t: string)
    ensures |t| > 0 && HtmlEscape.HtmlSafe(t)
    ensures d.documentTitle != "" ==> t == HtmlEscape.EscapeEach(d.documentTitle)
    ensures d.documentTitle == "" && d.pageUrl.Some? && d.pageUrl.value != "" ==> t == HtmlEscape.EscapeEach(d.pageUrl.value)
    ensures d.documentTitle == "" && (d.pageUrl.None? || d.pageUrl.value == "") ==> t == "Untitled"
  {
    var chosen := OrElse(d.documentTitle, OptOrElse(d.pageUrl, "Untitled"));
    HtmlEscape.EscapeEachIdentity("Untitled");
    HtmlEscape.EscapeHtml(Some(chosen))
  }

  /** The link target `pageUrl || documentUrl || '#'` (not escaped). */
  function PageHref(d: BodyData): (h: string)
    ensures |h| > 0
    ensures d.pageUrl.Some? && d.pageUrl.value != "" ==> h == d.pageUrl.value
    ensures (d.pageUrl.None? || d.pageUrl.value == "") ==> h == OrElse(d.documentUrl, "#")
  {
    OptOrElse(d.pageUrl, OrElse(d.documentUrl, "#"))
  }

  /** The link text `escapeHtml(pageUrl || documentUrl || 'N/A')`. */
  function PageUrlText(d: BodyData): (t: string)
    ensures |t| > 0 && HtmlEscape.HtmlSafe(t)
    ensures d.pageUrl.Some? && d.pageUrl.value != "" ==> t == HtmlEscape.EscapeEach(d.pageUrl.value)
    ensures (d.pageUrl.None? || d.pageUrl.value == "") && d.documentUrl != "" ==> t == HtmlEscape.EscapeEach(d.documentUrl)
    ensures (d.pageUrl.None? || d.pageUrl.value == "") && d.documentUrl == "" ==> t == "N/A"
  {
    var chosen := OptOrElse(d.pageUrl, OrElse(d.documentUrl, "N/A"));
    HtmlEscape.EscapeEachIdentity("N/A");
    HtmlEscape.EscapeHtml(Some(chosen))
  }
}
