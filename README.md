# Accessibility dashboard core, modelled in Dafny

A model of the logic inside a small React dashboard for Pa11y accessibility reports and its Netlify
proxy function. The dashboard fetches stored scan reports from an n8n webhook, shows them newest
first, and draws each report's issues as two charts:

- severities (error, warning, notice);
- WCAG principles (Perceivable, Operable, Understandable, Robust).

Each issue can also be sent to an LLM for a suggested fix or an explanation of its WCAG code.

The model covers these parts, one Dafny module each:

- `Types` (`types.dfy`): the records of `src/types.ts`.
  - The issue field `type` is called `severity` here.
  - `_id` is called `id`.
  - Optional fields are `Option`s.
- `HtmlEscape` (`html_escape.dfy`): `escapeHtml`.
  - It is written as the source's five chained global replacements.
  - It is proved equal to a per-character map, and its output is proved safe to embed in HTML.
  - The two copies of the function, in `ReportDetail.tsx` and `IssueDetail.tsx`, are identical, so it is defined once.
- `ReportDetail` (`report_detail.dfy`): the detail view that `src/App.tsx` imports.
  - The expanded-row toggle, the body fallback and the totals.
  - The chart aggregation, kept imperative as in the source:
    - a tally map filled by a loop;
    - three guarded `push` groups;
    - an `if / else if` counter loop.
  - These methods are proved against reference functions, and the chart properties are proved about those functions.
  - The header's title and URL fallback chains.
- `ReportDetailCards` (`report_detail_cards.dfy`): the alternate detail view in `src/components/ReportDetail/`.
  - It always has three severity counts and independent per-token principle counts.
  - Lemmas relate it to the first view.
  - Its table shows a row per issue, or a placeholder row.
  - Its header reads the stored body without a fallback, so a report without a body makes the view throw.
- `App` (`app.dfy`): `fetchReports` as a method of a class holding the page's state cells, plus the route decision of `ReportDetailWrapper`.
  - The method is proved equal to a function of the old state, the configuration, the fetch outcome and the parser.
  - That function's properties (the error texts, the empty body, the reversal) are lemmas.
- `IssueDetail` (`issue_detail.dfy`): the escaped detail rows, the AI-suggestion request as a class with `Start` and `Complete` methods, and the suggestion panel's precedence.
- `WcagExplanation` (`wcag_explanation.dfy`): the `explanations` dictionary as a class whose methods rewrite one key and keep the invariant "a loading entry has neither text nor an error".
- `Proxy` (`n8n_proxy.dfy`): the proxy handler, with the network call as a function parameter.
- `Wrappers`, `Seqs`, `Strings`: `Option`/`Result` and the JavaScript array and string operations the core uses.
  - Array operations: `filter`, `map`, `reverse`.
  - String operations: `includes`, `replace` with a string pattern, number formatting in template strings, and `||` on strings. `StartsWith` and `IndexOf` are helpers of the model, which the source does not call; `substring` is modelled by `App.Truncate`, and `charAt`/`toUpperCase`/`slice` by `ReportDetailCards.Capitalize`.

Some inputs are never computed by the model; callers supply them as parameters:

- the outcome of each network request;
- `JSON.parse` (a function from text to a parsed shape or an error message);
- `JSON.stringify`;
- the environment variables.

Three behaviours of the code are easy to misread:

- **A `null` or odd-shaped payload is an error, not an empty list.**
  - `src/App.tsx:96` reads `.data` of the parsed value, so a body that parses to `null` throws a `TypeError`.
  - A truthy `data` that is not an array throws at the `.reverse()` of line 98.
  - Both errors reach the generic "Failed to load reports" message, and the list is kept.
  - Only a falsy `data`, or a scalar payload, gives `[]`.
  - See `App.Normalise`, `App.NormaliseCases` and `App.NullPayloadIsLoadError`.
- **The proxy forwards no inbound header at all.**
  - `netlify/functions/n8n-proxy.js:9-12` builds the outgoing headers from scratch, with only `Content-Type: application/json`.
  - So `Host`, cookies and authorisation headers are all dropped.
- **The quoted body is cut at exactly 100 characters.**
  - `src/App.tsx:93` quotes `substring(0, 100)`: the whole body when it is shorter, and otherwise exactly its first 100 characters.

## Model

| member | source | states |
|---|---|---|
| Types.SeverityName | src/types.ts:4 | each severity is spelt by a non-empty literal |
| Types.SeverityNamesDistinct | src/types.ts:4 | an issue's type is exactly one of "error", "warning", "notice", and distinct severities have distinct names |
| Seqs.Filter | src/components/ReportDetail/ReportDetail.tsx:34 | an element is kept exactly when it is in the input and satisfies the predicate, and there are no more elements than in the input |
| Seqs.FilterConcat | src/components/ReportDetail/ReportDetail.tsx:34 | filtering works piecewise over concatenation, so the kept elements stay in their input order |
| Seqs.Map | src/components/ReportDetail/ReportDetail.tsx:34 | the result has the input's length and holds the function applied to each element |
| Seqs.Reversed | src/App.tsx:98 | the reference reading of `reverse()`: the last element first, then the rest reversed, with the length kept; its index-wise meaning is `Seqs.ReversedIndex` and `Seqs.ReversedSpec` |
| Seqs.ReversedIndex | src/App.tsx:98 | index `k` of the reversal holds element `|s|-1-k` |
| Seqs.ReversedSpec | src/App.tsx:98 | reversal keeps the length and puts element `|s|-1-k` at index `k` |
| Seqs.ReverseInPlace | src/App.tsx:98 | the array afterwards holds the reversal of its old contents |
| Strings.IndexOf | netlify/functions/n8n-proxy.js:4 | returns the first position where the pattern occurs, or none when it occurs nowhere |
| Strings.Contains | src/components/ReportDetail.tsx:128-131 | `includes` holds exactly when the pattern occurs at some position, in particular when the string starts with it |
| Strings.ContainsMiddle | src/App.tsx:79 | a string built around a piece contains that piece |
| Strings.ReplaceFirst | netlify/functions/n8n-proxy.js:4 | a string-pattern `replace` leaves a string without the pattern unchanged and otherwise splices the replacement in at the first occurrence only, so the length changes by the difference of the two |
| Strings.NatToString | src/App.tsx:79 | a status renders as a non-empty string of decimal digits whose value is the status, with no leading zero unless it is 0 |
| HtmlEscape.ReplaceAll | src/components/ReportDetail.tsx:64-68 | a global one-character replace changes nothing when the character is absent, and removes it when the replacement lacks it |
| HtmlEscape.ReplaceAllConcat | src/components/ReportDetail.tsx:64-68 | a global replace distributes over concatenation |
| HtmlEscape.FivePasses | src/components/ReportDetail.tsx:63-68 | after the five passes no `<`, `>`, `"` or `'` is left |
| HtmlEscape.KeepsAbsent | src/components/ReportDetail.tsx:64-68 | a later pass does not bring back a character that neither its input nor its replacement text has |
| HtmlEscape.ChainRemovesMarkup | src/components/ReportDetail.tsx:64-68 | with replacement texts that do not reintroduce them, the chain leaves no `<`, `>`, `"` or `'`; the source's entities are such texts |
| HtmlEscape.FivePassesIdentity | src/components/ReportDetail.tsx:63-68 | a string with none of the five characters comes through the chain unchanged |
| HtmlEscape.FivePassesChar | src/components/ReportDetail.tsx:63-68 | the five passes turn each single character into its entity, or leave it alone if it is not one of the five |
| HtmlEscape.FivePassesIsEscapeEach | src/components/ReportDetail.tsx:63-68 | because `&` is replaced first, the five sequential passes equal the per-character map on every string |
| HtmlEscape.EscapeEachSafe | src/components/ReportDetail.tsx:59-69 | escaped text has no `<`, `>`, `"` or `'`, and every `&` in it begins `&amp;`, `&lt;`, `&gt;`, `&quot;` or `&#039;` |
| HtmlEscape.EscapeEachConcat | src/components/ReportDetail.tsx:63-68 | escaping works piecewise, so ordinary characters are copied in order |
| HtmlEscape.EscapeEachIdentity | src/components/ReportDetail.tsx:63-68 | a string with none of the five characters is returned unchanged |
| HtmlEscape.EscapeEachLength | src/components/ReportDetail.tsx:63-68 | escaping never shortens a string |
| HtmlEscape.EscapeHtml | src/components/ReportDetail.tsx:59-69 | a non-string gives `''`; a string gives its per-character escape, which is HTML-safe and at least as long; the same function serves src/components/IssueDetail.tsx:27-37 |
| HtmlEscape.EscapeEntity | src/components/ReportDetail.tsx:64 | `&lt;` escapes to `&amp;lt;` |
| HtmlEscape.NotIdempotent | src/components/ReportDetail.tsx:60-68 | escaping twice differs from escaping once: `<` becomes `&amp;lt;` |
| ReportDetail.Toggle | src/components/ReportDetail.tsx:79-84 | the toggled map flips entry `index`, adds at most that key and keeps every other entry |
| ReportDetail.ToggleFlipsOnlyIndex | src/components/ReportDetail.tsx:79-84 | only row `index` changes whether it is expanded |
| ReportDetail.ToggleTwice | src/components/ReportDetail.tsx:79-84 | toggling the same row twice restores what every row shows |
| ReportDetail.IsExpanded | src/components/ReportDetail.tsx:302-307 | a row whose key is absent is collapsed, and a present key gives its stored flag |
| ReportDetail.BodyOrDefault | src/components/ReportDetail.tsx:86 | a present body is used as is; a missing one gives empty title, URL and issues |
| ReportDetail.CountSeverity | src/components/ReportDetail.tsx:89-97 | the number of issues of a severity is at most the number of issues |
| ReportDetail.CountSeverityZero | src/components/ReportDetail.tsx:94-113 | a severity's count is zero exactly when no issue has that severity |
| ReportDetail.OfSeverity | src/components/ReportDetail.tsx:89 | the filter keeps exactly the issues of that severity |
| ReportDetail.SeverityCountsSum | src/components/ReportDetail.tsx:94-97 | the error, warning and notice counts add up to the number of issues |
| ReportDetail.OfSeverityCount | src/components/ReportDetail.tsx:89 | the length of the severity filter is the severity's count |
| ReportDetail.TotalsOf | src/components/ReportDetail.tsx:86-89 | total is the number of issues, errors the error count and at most the total; a missing body gives 0 and 0 |
| ReportDetail.StoredCountsMayDisagree | src/types.ts:33-41 | a stored report's `issuesCount`/`errorsCount` need not match the counts recomputed from its issues |
| ReportDetail.FirstPrinciple | src/components/ReportDetail.tsx:127-131 | the chain picks a principle whose token the code contains and no earlier token is contained; none exactly when no token is contained |
| ReportDetail.ExclusiveCount | src/components/ReportDetail.tsx:126-132 | a bucket holds at most as many issues as there are |
| ReportDetail.PrincipleLabel | src/components/ReportDetail.tsx:119-124 | a principle's label is the entry stored under its token in `principleCounts` |
| ReportDetail.ExclusiveCountsPartition | src/components/ReportDetail.tsx:126-132 | each issue lands in at most one bucket: the four buckets plus the unclassified issues are exactly the issues, so the buckets sum to at most `issues.length` |
| ReportDetail.OccurringInOrder | src/components/ReportDetail.tsx:103-117 | the occurring severities are error, warning, notice in that order, each kept only when it occurs |
| ReportDetail.SeverityChartSpecSlices | src/components/ReportDetail.tsx:99-117 | the severity chart holds, for each severity with a positive count, its label, count and colour, in the fixed order |
| ReportDetail.TallySeverities | src/components/ReportDetail.tsx:94-97 | the `reduce` tally has a key exactly for the occurring severities, holding each one's count |
| ReportDetail.PushSlices | src/components/ReportDetail.tsx:99-117 | the guarded pushes emit a slice exactly for each truthy tally, in the order Errors, Warnings, Notices, with the danger, warning and success colours |
| ReportDetail.Tallied | src/components/ReportDetail.tsx:103-113 | `issueTypeCounts.s || 0` reads a missing key as zero and a present key as its stored tally |
| ReportDetail.CountPrinciples | src/components/ReportDetail.tsx:119-135 | the `forEach` counters end equal to the exclusive bucket counts, four of them in key order |
| ReportDetail.ChartData | src/components/ReportDetail.tsx:91-156 | the `useMemo` block yields exactly the reference severity chart and principle chart |
| ReportDetail.SeverityChartProperties | src/components/ReportDetail.tsx:99-117 | labels, data and colours have equal length, every count is positive, and the counts sum to `issues.length` |
| ReportDetail.SeverityChartOrder | src/components/ReportDetail.tsx:103-117 | a severity has a slice exactly when it occurs, and slices are in strictly increasing error/warning/notice order |
| ReportDetail.PrincipleChartProperties | src/components/ReportDetail.tsx:119-135 | the principle chart has the four labels in order, keeps zeros, holds each exclusive count and sums to at most `issues.length` |
| ReportDetail.TitleText | src/components/ReportDetail.tsx:206 | the title is the escaped `documentTitle`, else the escaped `pageUrl`, else "Untitled"; it is non-empty and HTML-safe |
| ReportDetail.PageHref | src/components/ReportDetail.tsx:208 | the link is `pageUrl`, else `documentUrl`, else `#`, and never empty |
| ReportDetail.PageUrlText | src/components/ReportDetail.tsx:209 | the link text is the escaped `pageUrl`, else the escaped `documentUrl`, else "N/A"; it is non-empty and HTML-safe |
| ReportDetailCards.TypeCounts | src/components/ReportDetail/ReportDetail.tsx:33-34 | always three counts, error, warning and notice, zeros included, each the number of issues of that type |
| ReportDetailCards.TypeCountsTotal | src/components/ReportDetail/ReportDetail.tsx:25-34 | the three counts sum to `issues.length` and the Errors stat equals the first count, also for a missing body |
| ReportDetailCards.Capitalize | src/components/ReportDetail/ReportDetail.tsx:44 | the length and every character after the first are kept; a lower-case ASCII first letter becomes its upper-case letter, any other first character is kept |
| ReportDetailCards.TypeLabel | src/components/ReportDetail/ReportDetail.tsx:44 | a label is the type name with an upper-case first letter and `s` appended |
| ReportDetailCards.TypeLabelsFixed | src/components/ReportDetail/ReportDetail.tsx:44 | capitalising each type and adding `s` gives "Errors", "Warnings", "Notices", the other view's labels |
| ReportDetailCards.PositiveTypeCountsAreChartData | src/components/ReportDetail/ReportDetail.tsx:33-34 | dropping the zeros from the three counts gives exactly the other view's severity chart data |
| ReportDetailCards.TokenCounts | src/components/ReportDetail/ReportDetail.tsx:37-40 | four counts in key order, each the number of issues whose code contains that token, each at most `issues.length` |
| ReportDetailCards.WithToken | src/components/ReportDetail/ReportDetail.tsx:39 | the filter keeps exactly the issues whose code contains the token |
| ReportDetailCards.TokenCount | src/components/ReportDetail/ReportDetail.tsx:38-40 | at most the number of issues, and positive exactly when some issue's code contains the token |
| ReportDetailCards.TokenLabelsFixed | src/components/ReportDetail/ReportDetail.tsx:48 | the principle labels are Perceivable, Operable, Understandable, Robust |
| ReportDetailCards.PerceivableCountsAgree | src/components/ReportDetail/ReportDetail.tsx:38-40 | the Principle1 count of this view equals the first bucket of the exclusive chain |
| ReportDetailCards.ExclusiveAtMostTokenCount | src/components/ReportDetail/ReportDetail.tsx:38-40 | every exclusive bucket is at most the matching independent count |
| ReportDetailCards.TokenCountsMayExceedIssues | src/components/ReportDetail/ReportDetail.tsx:38-40 | an issue carrying two tokens is counted twice, so the four counts can add up to more than `issues.length` |
| ReportDetailCards.TableRows | src/components/ReportDetail/ReportDetail.tsx:96-101 | rows are one per issue, with its index, issue and expanded flag, or exactly one placeholder row when there are no issues |
| ReportDetailCards.HeaderOf | src/components/ReportDetail/ReportDetail.tsx:62-70 | throws exactly for a missing body; otherwise the title is `documentTitle` or "Untitled", and the link is the body's own `pageUrl` with no further fallback |
| ReportDetailCards.Render | src/components/ReportDetail/ReportDetail.tsx:56-106 | throws exactly for a missing body; otherwise shows the header, the totals and the table rows of the body |
| ReportDetailCards.MissingBodyShowsPlaceholder | src/components/ReportDetail/ReportDetail.tsx:25-101 | the table expression of the default body is the single placeholder row, but for a missing body the render throws at the header (line 64) before any table is shown |
| ReportDetailCards.EmptyIssuesShowPlaceholder | src/components/ReportDetail/ReportDetail.tsx:96-101 | a present body without issues renders the single placeholder row |
| App.Truncate | src/App.tsx:93 | `substring(0, 100)` is a prefix of the body: the whole body when it has at most 100 characters, exactly its first 100 otherwise |
| App.HttpErrorMessage | src/App.tsx:79 | the thrown message starts with "HTTP error! Status: " and contains the status and the body, or "No response body." for an empty body |
| App.ParseErrorMessage | src/App.tsx:93 | the thrown message starts with "Failed to parse JSON" and contains the quoted, truncated body and the parser's message |
| App.IsParseError | src/App.tsx:102 | only a `SyntaxError` is a parse error, and every `SyntaxError` whose message starts with "Failed to parse JSON" is one |
| App.Classify | src/App.tsx:102-106 | a recognised parse error gives the text starting "Error parsing report data: ", any other error the text starting "Failed to load reports: "; both contain the error's message |
| App.Normalise | src/App.tsx:96-98 | it throws a `TypeError` exactly for `null` and for a truthy non-array `data`; an array, or the array under `data`, is used as is |
| App.Attempt | src/App.tsx:68-99 | a network failure or a non-ok response (status outside 200-299) throws; an ok empty body ends early; otherwise a parse failure throws the parse error, a normalisation failure throws its own `TypeError`, and a payload is loaded exactly when parsing and normalisation succeed |
| App.AfterFetch | src/App.tsx:57-111 | after every path `loading` is false and a message box is shown |
| App.Shown | src/App.tsx:50-51 | `showMessageBox` makes the box visible with the given message and kind |
| App.ReportsPage.constructor | src/App.tsx:44-47 | no reports, loading, no error, hidden message box |
| App.ReportsPage.FetchReports | src/App.tsx:57-111 | a request is made exactly when the URL is set, and the new page state is the reference outcome of the old state, configuration, fetch outcome and parser |
| App.ReverseCopy | src/App.tsx:98 | `reverse()` on the freshly parsed array yields the reversed payload |
| App.MissingUrlKeepsReports | src/App.tsx:61-66 | no URL: the configuration error is set and the reports are unchanged |
| App.HttpErrorText | src/App.tsx:79-106 | the text for a non-ok response is the generic load error and contains the status and the body, or "No response body." |
| App.HttpErrorReported | src/App.tsx:78-80 | a non-ok response keeps the reports and sets that text |
| App.EmptyBodySkipsParse | src/App.tsx:82-87 | an ok empty body sets `[]`, no error and the info message, whatever the parser would do |
| App.ParseMessageRecognised | src/App.tsx:93-102 | the `SyntaxError` raised for a rejected body is recognised as a parse failure |
| App.ParseErrorText | src/App.tsx:93-103 | the text for a rejected body is the parse error, quoting the truncated body and the parser's message |
| App.ParseFailureReported | src/App.tsx:90-94 | a rejected body keeps the reports and the error quotes at most the first 100 characters of the body followed by the parser's message |
| App.NullPayloadIsLoadError | src/App.tsx:96 | a body that parses to `null` throws at `.data` and ends in the generic load error, not an empty list |
| App.SuccessReverses | src/App.tsx:96-98 | a normalised payload replaces the reports reversed: same length, `reports[i] == payload[n-1-i]`, no error |
| App.NormaliseCases | src/App.tsx:96-98 | an array is used as is, `{data: array}` gives the array, falsy `data` or a scalar gives `[]`, and only `null` and non-array truthy `data` throw |
| App.ClassificationExact | src/App.tsx:102-106 | the parse-error text is chosen exactly for a `SyntaxError` mentioning "Failed to parse JSON", the generic text otherwise |
| App.ErrorIffFailure | src/App.tsx:58-107 | the error is cleared exactly on the successful paths, and the reports change only on them |
| App.FindIndex | src/App.tsx:19 | `find` stops at the first report whose `_id` matches, or finds none when none matches |
| App.SelectRoute | src/App.tsx:16-41 | spinner when loading and not found, redirect when not loading and not found, otherwise the first matching report |
| App.FoundIgnoresLoading | src/App.tsx:21-40 | a found report is shown whether or not loading is in progress |
| IssueDetail.ShowsRunnerExtras | src/components/IssueDetail.tsx:129 | the Runner Extras row is shown exactly when `runnerExtras` is present with at least one key |
| IssueDetail.ExtrasKeyCount | src/components/IssueDetail.tsx:129 | at most four keys, and none exactly when every field is absent |
| IssueDetail.Row | src/components/IssueDetail.tsx:111-128 | each detail row shows the per-character escape of its field, which is HTML-safe |
| IssueDetail.DetailRows | src/components/IssueDetail.tsx:111-136 | code, context, selector and runner rows, escaped, plus the Runner Extras row exactly when it is shown |
| IssueDetail.FailureMessage | src/components/IssueDetail.tsx:91-102 | a thrown error's own message, or for a non-ok response a message starting "OpenRouter API error: " that contains the status and the API's message, or "Unknown error" without one |
| IssueDetail.SuggestionAfter | src/components/IssueDetail.tsx:97-103 | after a request the suggestion is never empty: the content, "No suggestion found." when it is missing or empty, or the fixed error suggestion on failure |
| IssueDetail.ErrorAfter | src/components/IssueDetail.tsx:93-102 | success keeps the error; an API error sets its message; another failure sets its message, or "Failed to get suggestion." when that is empty |
| IssueDetail.ApiErrorNamesStatus | src/components/IssueDetail.tsx:91-94 | an API error is reported with its status and the API's message |
| IssueDetail.SuggestionPanel.constructor | src/components/IssueDetail.tsx:44-46 | empty suggestion, not loading, no error |
| IssueDetail.SuggestionPanel.Start | src/components/IssueDetail.tsx:53-60 | with key and model: loading, no error, empty suggestion; without: only the error is set, and no request is sent |
| IssueDetail.SuggestionPanel.Complete | src/components/IssueDetail.tsx:96-106 | the suggestion and error become the reference values for the outcome, and loading ends false |
| IssueDetail.PanelFor | src/components/IssueDetail.tsx:141-161 | precedence: non-empty suggestion, then spinner, then non-empty error, then the button |
| IssueDetail.StartedShowsSpinner | src/components/IssueDetail.tsx:58-148 | a started request shows the spinner |
| IssueDetail.FinishedShowsSuggestion | src/components/IssueDetail.tsx:97-152 | every finished request shows a suggestion panel, so a failure's error text is never displayed |
| IssueDetail.MissingConfigVisibleOnlyWithoutSuggestion | src/components/IssueDetail.tsx:53-152 | the configuration error is visible exactly while no suggestion is held and nothing is loading |
| WcagExplanation.RequestEntry | src/hooks/useWcagExplanation.ts:12-20 | missing key or model writes `{'', false, "Missing API configuration."}`; otherwise `{'', true, null}` |
| WcagExplanation.ResolveEntry | src/hooks/useWcagExplanation.ts:42-51 | success writes non-empty text (the content, or "No explanation available." when it is missing or empty) with no error; failure writes empty text and an error |
| WcagExplanation.HttpFailureNamesStatus | src/hooks/useWcagExplanation.ts:42-44 | a non-ok status is reported as "API Error: " followed by the status |
| WcagExplanation.ExplanationCache.constructor | src/hooks/useWcagExplanation.ts:6 | the dictionary starts empty |
| WcagExplanation.ExplanationCache.Request | src/hooks/useWcagExplanation.ts:12-20 | writes only the entry for `code`, keeps the loading invariant, and sends a request only when configured |
| WcagExplanation.ExplanationCache.Resolve | src/hooks/useWcagExplanation.ts:46-51 | writes only the entry for `code`, with the outcome's reference entry, and keeps the loading invariant |
| WcagExplanation.ResolutionOverwritesRequest | src/hooks/useWcagExplanation.ts:20-51 | the resolution replaces the request's entry, so no loading entry survives it |
| Proxy.Endpoint | netlify/functions/n8n-proxy.js:4 | a path without the prefix is relayed unchanged, and one containing it loses exactly the prefix's length |
| Proxy.EndpointOfPrefixedPath | netlify/functions/n8n-proxy.js:4 | a path starting with the function prefix gives the rest of the path |
| Proxy.EndpointRemovesFirstOccurrence | netlify/functions/n8n-proxy.js:4 | only the first occurrence of the prefix is removed |
| Proxy.RequestFor | netlify/functions/n8n-proxy.js:5-14 | the upstream URL is the fixed base followed by the endpoint, and the method is forwarded unchanged |
| Proxy.OnlyContentTypeForwarded | netlify/functions/n8n-proxy.js:9-12 | the only outgoing header is `Content-Type: application/json`; no inbound header is forwarded, `Host` included |
| Proxy.ForwardsBody | netlify/functions/n8n-proxy.js:13 | a body is carried exactly for `POST`, `PUT` and `PATCH`, so only an upper-case name of three to five letters starting with `P` carries one |
| Proxy.BodyForwardedExactly | netlify/functions/n8n-proxy.js:13 | the body is forwarded verbatim for POST, PUT and PATCH and omitted otherwise |
| Proxy.LowerCasePostDropsBody | netlify/functions/n8n-proxy.js:13 | the method test is case-sensitive: `post` sends no body |
| Proxy.ResponseFor | netlify/functions/n8n-proxy.js:19-27 | the status and body are the upstream's |
| Proxy.ResponseHeaders | netlify/functions/n8n-proxy.js:16-25 | exactly three headers: the upstream content type or `application/json`, and both CORS headers `*` |
| Proxy.Handler | netlify/functions/n8n-proxy.js:3-28 | the handler returns the shaped response for what the upstream gave the shaped request: its status and body, the content type, and both CORS headers `*`; it rejects with the same error when `fetch` or `res.text()` rejects |

## Left out

- JSX rendering, CSS classes and Chart.js options are left out because they are presentation only. This covers FontAwesome, ReactMarkdown, and the `ChartCard`, `StatCard`, `IssueRow` and `MessageBox` markup. Of `customColors` (`src/types.ts:43-53`) only the danger, warning and success colours are kept, because the severity chart uses them; the other six only style markup or chart options (`secondary` is the principle chart's bar colour).
- These files are not part of this model, being presentational or a thinner copy of logic that is modelled:
  - `src/components/ReportList.tsx`, `src/components/MessageBox.tsx`, `src/components/ReportDetail/StatCard.tsx`, `src/components/ReportDetail/ChartCard.tsx`, `src/components/ReportDetail/IssueRow.tsx`;
  - `src/components/ReportDetail/IssueDetail.tsx`, an LLM request with markdown output and no escaping;
  - `src/hooks/useChartKey.ts`, whose keys come from `Math.random`.
- Network calls (`fetch`, `response.text()`, `response.json()`) are inputs: a fetch outcome datatype per caller, or, for the proxy, a function parameter whose result may be a rejection.
- `JSON.parse` and `JSON.stringify` are function parameters.
- A JSON array is taken to hold `StoredReport`s; the source's unchecked cast is not modelled.
- The LLM prompt templates are free text and are not modelled.
- Timing and concurrency are left out:
  - the 3-second `setTimeout` that hides the message box;
  - overlapping Refresh requests, where the last to resolve wins;
  - the split of each async function at its `await`, which is modelled as two methods called in sequence.
- `new Date(...).toLocaleString()`, React Router's `navigate`/`Navigate` calls, and the Export and Settings buttons' messages are left out. Only the route decision is kept.
- `console.log` and `console.error` are left out.
- The build configuration (`tailwind.config.js`, `vite.config.ts`) is left out.
- ReportDetailCards.MissingBodyShowsPlaceholder: the placeholder row is only the table expression of the default body. `src/components/ReportDetail/ReportDetail.tsx:64` reads `report.reportData.body.pageUrl` without `?.`, so for a missing body the render throws a `TypeError` before the table; `ReportDetailCards.Render` models that crash.
- App.Truncate: counts Dafny characters, whereas `substring` counts UTF-16 code units; the two differ only for characters outside the Basic Multilingual Plane.
- App.Normalise and ReportDetailCards.HeaderOf: the wording of their `TypeError` messages is engine-specific. The model uses Chrome's wording. Only the error class matters to the classification.
- ReportDetailCards.Capitalize: `toUpperCase` is modelled for ASCII letters only, which covers the three fixed type names.
- In both detail views, `issues` is always a sequence, because the body record requires it. So the guards against a missing `issues` never see `undefined` in the model: `pa11yDetails.issues || []` in both views, and `issues?.length` in the card view's table.
