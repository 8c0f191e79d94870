/** `escapeHtml`, defined identically in `ReportDetail.tsx` and `IssueDetail.tsx`: five chained
    global replacements, `&` first, so that the entities the later passes insert are not escaped again. */
module HtmlEscape {
  import opened Wrappers
  import opened Strings

  /** `s.replace(/c/g, rep)` for a one-character pattern. */
  function ReplaceAll(s: string, c: char, rep: string): (r: string)
    ensures c !in s ==> r == s
    ensures c !in rep ==> c !in r
  {
    if s == [] then [] else (if s[0] == c then rep else [s[0]]) + ReplaceAll(s[1..], c, rep)
  }

  lemma {:induction false} ReplaceAllConcat(a: string, b: string, c: char, rep: string)
    ensures ReplaceAll(a + b, c, rep) == ReplaceAll(a, c, rep) + ReplaceAll(b, c, rep)
  {
    if a == [] {
      assert a + b == b;
    } else {
      assert (a + b)[0] == a[0];
      assert (a + b)[1..] == a[1..] + b;
      ReplaceAllConcat(a[1..], b, c, rep);
    }
  }

  lemma ReplaceAllSingle(x: char, c: char, rep: string)
    ensures ReplaceAll([x], c, rep) == if x == c then rep else [x]
  {
    assert [x][1..] == [];
  }

  /** The five characters the function rewrites. */
  predicate IsSpecial(c: char)
  {
    c == '&' || c == '<' || c == '>' || c == '"' || c == '\''
  }

  /** What one character becomes: its entity if it is special, otherwise itself. */
  function EscapeChar(c: char): string
  {
    if c == '&' then "&amp;"
    else if c == '<' then "&lt;"
    else if c == '>' then "&gt;"
    else if c == '"' then "&quot;"
    else if c == '\'' then "&#039;"
    else [c]
  }

  /** The reference definition: every character mapped on its own, left to right. */
  function EscapeEach(s: string): string
  {
    if s == [] then [] else EscapeChar(s[0]) + EscapeEach(s[1..])
  }

  /** The source's chain of five global replacements: none of `<`, `>`, `"` and `'` survives. */
  function FivePasses(s: string): (r: string)
    ensures '<' !in r && '>' !in r && '"' !in r && '\'' !in r
  {
    ChainRemovesMarkup(s, "&amp;", "&lt;", "&gt;", "&quot;", "&#039;");
    ReplaceAll(ReplaceAll(ReplaceAll(ReplaceAll(ReplaceAll(
      s, '&', "&amp;"), '<', "&lt;"), '>', "&gt;"), '"', "&quot;"), '\'', "&#039;")
  }

  /** The chain with any replacement texts that do not bring back a character an earlier pass removed. */
  lemma ChainRemovesMarkup(s: string, amp: string, lt: string, gt: string, quot: string, apos: string)
    requires '<' !in lt && '<' !in gt && '<' !in quot && '<' !in apos
    requires '>' !in gt && '>' !in quot && '>' !in apos
    requires '"' !in quot && '"' !in apos && '\'' !in apos
    ensures var r := ReplaceAll(ReplaceAll(ReplaceAll(ReplaceAll(ReplaceAll(
              s, '&', amp), '<', lt), '>', gt), '"', quot), '\'', apos);
      '<' !in r && '>' !in r && '"' !in r && '\'' !in r
  {
    var s1 := ReplaceAll(s, '&', amp);
    var s2 := ReplaceAll(s1, '<', lt);
    var s3 := ReplaceAll(s2, '>', gt);
    var s4 := ReplaceAll(s3, '"', quot);
    KeepsAbsent(s2, '>', gt, '<');
    KeepsAbsent(s3, '"', quot, '<');
    KeepsAbsent(s4, '\'', apos, '<');
    KeepsAbsent(s3, '"', quot, '>');
    KeepsAbsent(s4, '\'', apos, '>');
    KeepsAbsent(s4, '\'', apos, '"');
  }

  /** A string without any of the five characters passes through the chain unchanged. */
  lemma FivePassesIdentity(s: string)
    requires forall i :: 0 <= i < |s| ==> !IsSpecial(s[i])
    ensures FivePasses(s) == s
  {
    Untouched(s, '&', "&amp;");
    Untouched(s, '<', "&lt;");
    Untouched(s, '>', "&gt;");
    Untouched(s, '"', "&quot;");
    Untouched(s, '\'', "&#039;");
  }

  /** A pass does not bring in a character that neither its argument nor its replacement has. */
  lemma {:induction false} KeepsAbsent(s: string, c: char, rep: string, d: char)
    requires d !in s && d !in rep
    ensures d !in ReplaceAll(s, c, rep)
  {
    if s != [] {
      assert s[0] in s;
      KeepsAbsent(s[1..], c, rep, d);
    }
  }

  lemma FivePassesConcat(a: string, b: string)
    ensures FivePasses(a + b) == FivePasses(a) + FivePasses(b)
  {
    ReplaceAllConcat(a, b, '&', "&amp;");
    var a1, b1 := ReplaceAll(a, '&', "&amp;"), ReplaceAll(b, '&', "&amp;");
    ReplaceAllConcat(a1, b1, '<', "&lt;");
    var a2, b2 := ReplaceAll(a1, '<', "&lt;"), ReplaceAll(b1, '<', "&lt;");
    ReplaceAllConcat(a2, b2, '>', "&gt;");
    var a3, b3 := ReplaceAll(a2, '>', "&gt;"), ReplaceAll(b2, '>', "&gt;");
    ReplaceAllConcat(a3, b3, '"', "&quot;");
    var a4, b4 := ReplaceAll(a3, '"', "&quot;"), ReplaceAll(b3, '"', "&quot;");
    ReplaceAllConcat(a4, b4, '\'', "&#039;");
  }

  /** A pass whose character is absent leaves its argument alone. */
  lemma Untouched(s: string, c: char, rep: string)
    requires c !in s
    ensures ReplaceAll(s, c, rep) == s
  {
  }

  lemma FivePassesOrdinary(c: char)
    requires !IsSpecial(c)
    ensures FivePasses([c]) == [c]
  {
    Untouched([c], '&', "&amp;");
    Untouched([c], '<', "&lt;");
    Untouched([c], '>', "&gt;");
    Untouched([c], '"', "&quot;");
    Untouched([c], '\'', "&#039;");
  }

  lemma LaterPassesKeep(s: string)
    requires '<' !in s && '>' !in s && '"' !in s && '\'' !in s
    ensures ReplaceAll(ReplaceAll(ReplaceAll(ReplaceAll(
              s, '<', "&lt;"), '>', "&gt;"), '"', "&quot;"), '\'', "&#039;") == s
  {
  }

  lemma FivePassesAmp()
    ensures FivePasses("&") == "&amp;"
  {
    ReplaceAllSingle('&', '&', "&amp;");
    LaterPassesKeep(ReplaceAll(['&'], '&', "&amp;"));
  }

  lemma FivePassesLt()
    ensures FivePasses("<") == "&lt;"
  {
    Untouched(['<'], '&', "&amp;");
    ReplaceAllSingle('<', '<', "&lt;");
    var s2 := ReplaceAll(['<'], '<', "&lt;");
    Untouched(s2, '>', "&gt;");
    Untouched(s2, '"', "&quot;");
    Untouched(s2, '\'', "&#039;");
  }

  lemma FivePassesGt()
    ensures FivePasses(">") == "&gt;"
  {
    Untouched(['>'], '&', "&amp;");
    Untouched(['>'], '<', "&lt;");
    ReplaceAllSingle('>', '>', "&gt;");
    var s3 := ReplaceAll(['>'], '>', "&gt;");
    Untouched(s3, '"', "&quot;");
    Untouched(s3, '\'', "&#039;");
  }

  lemma FivePassesQuot()
    ensures FivePasses("\"") == "&quot;"
  {
    Untouched(['"'], '&', "&amp;");
    Untouched(['"'], '<', "&lt;");
    Untouched(['"'], '>', "&gt;");
    ReplaceAllSingle('"', '"', "&quot;");
    var s4 := ReplaceAll(['"'], '"', "&quot;");
    Untouched(s4, '\'', "&#039;");
  }

  lemma FivePassesApos()
    ensures FivePasses("'") == "&#039;"
  {
    Untouched(['\''], '&', "&amp;");
    Untouched(['\''], '<', "&lt;");
    Untouched(['\''], '>', "&gt;");
    Untouched(['\''], '"', "&quot;");
    ReplaceAllSingle('\'', '\'', "&#039;");
  }

  lemma FivePassesChar(c: char)
    ensures FivePasses([c]) == EscapeChar(c)
  {
    if c == '&' {
      FivePassesAmp();
    } else if c == '<' {
      FivePassesLt();
    } else if c == '>' {
      FivePassesGt();
    } else if c == '"' {
      FivePassesQuot();
    } else if c == '\'' {
      FivePassesApos();
    } else {
      FivePassesOrdinary(c);
    }
  }

  /** Because `&` is replaced first, the five passes are a per-character map. */
  lemma {:induction false} FivePassesIsEscapeEach(s: string)
    ensures FivePasses(s) == EscapeEach(s)
  {
    if s != [] {
      assert s == [s[0]] + s[1..];
      FivePassesConcat([s[0]], s[1..]);
      FivePassesChar(s[0]);
      FivePassesIsEscapeEach(s[1..]);
    }
  }

  /** `r[i..]` begins with one of the five entities. */
  predicate EntityAt(r: string, i: nat)
    requires i <= |r|
  {
    var t := r[i..];
    StartsWith(t, "&amp;") || StartsWith(t, "&lt;") || StartsWith(t, "&gt;")
    || StartsWith(t, "&quot;") || StartsWith(t, "&#039;")
  }

  /** No `<`, `>`, `"` or `'`, and every `&` begins an entity. */
  predicate HtmlSafe(r: string)
  {
    && (forall i :: 0 <= i < |r| ==> r[i] != '<' && r[i] != '>' && r[i] != '"' && r[i] != '\'')
    && (forall i :: 0 <= i < |r| && r[i] == '&' ==> EntityAt(r, i))
  }

  lemma StartsWithAppend(x: string, y: string, e: string)
    requires StartsWith(x, e)
    ensures StartsWith(x + y, e)
  {
    assert (x + y)[..|e|] == x[..|e|];
  }

  lemma HtmlSafeConcat(a: string, b: string)
    requires HtmlSafe(a) && HtmlSafe(b)
    ensures HtmlSafe(a + b)
  {
    var r := a + b;
    forall i | 0 <= i < |r| && r[i] == '&' ensures EntityAt(r, i) {
      if i < |a| {
        assert a[i] == '&' && EntityAt(a, i);
        assert r[i..] == a[i..] + b;
        var x := a[i..];
        if StartsWith(x, "&amp;") { StartsWithAppend(x, b, "&amp;"); }
        else if StartsWith(x, "&lt;") { StartsWithAppend(x, b, "&lt;"); }
        else if StartsWith(x, "&gt;") { StartsWithAppend(x, b, "&gt;"); }
        else if StartsWith(x, "&quot;") { StartsWithAppend(x, b, "&quot;"); }
        else { StartsWithAppend(x, b, "&#039;"); }
      } else {
        assert r[i..] == b[i - |a|..];
        assert b[i - |a|] == '&';
      }
    }
  }

  lemma EscapeCharSafe(c: char)
    ensures HtmlSafe(EscapeChar(c))
  {
    var e := EscapeChar(c);
    if IsSpecial(c) {
      assert e[0] == '&' && EntityAt(e, 0);
      assert forall i :: 0 < i < |e| ==> e[i] != '&';
    }
  }

  /** The escaped string contains no `<`, `>`, `"`, `'`, and each `&` in it starts an entity. */
  lemma {:induction false} EscapeEachSafe(s: string)
    ensures HtmlSafe(EscapeEach(s))
  {
    if s != [] {
      EscapeCharSafe(s[0]);
      EscapeEachSafe(s[1..]);
      HtmlSafeConcat(EscapeChar(s[0]), EscapeEach(s[1..]));
    }
  }

  /** Escaping distributes over concatenation: the other characters keep their order. */
  lemma {:induction false} EscapeEachConcat(a: string, b: string)
    ensures EscapeEach(a + b) == EscapeEach(a) + EscapeEach(b)
  {
    if a == [] {
      assert a + b == b;
    } else {
      assert (a + b)[0] == a[0];
      assert (a + b)[1..] == a[1..] + b;
      EscapeEachConcat(a[1..], b);
    }
  }

  /** A string with none of the five characters is returned as it is. */
  lemma {:induction false} EscapeEachIdentity(s: string)
    requires forall i :: 0 <= i < |s| ==> !IsSpecial(s[i])
    ensures EscapeEach(s) == s
  {
    if s != [] {
      EscapeEachIdentity(s[1..]);
      assert s == [s[0]] + s[1..];
    }
  }

  /** Escaping never shortens a string. */
  lemma {:induction false} EscapeEachLength(s: string)
    ensures |EscapeEach(s)| >= |s|
  {
    if s != [] {
      EscapeEachLength(s[1..]);
    }
  }

  /** `escapeHtml(unsafe)`; `None` stands for an argument whose `typeof` is not `'string'`. */
  function EscapeHtml(unsafe: Option<string>): (r: string)
    ensures unsafe.None? ==> r == ""
    ensures unsafe.Some? ==> r == EscapeEach(unsafe.value) && |r| >= |unsafe.value|
    ensures HtmlSafe(r)
  {
    match unsafe
    case None => ""
    case Some(s) =>
      FivePassesIsEscapeEach(s);
      EscapeEachSafe(s);
      EscapeEachLength(s);
      FivePasses(s)
  }

  lemma EscapeEachOne(c: char)
    ensures EscapeEach([c]) == EscapeChar(c)
  {
    assert [c][1..] == [];
  }

  lemma EscapeLessThan()
    ensures EscapeEach("<") == "&lt;"
  {
    EscapeEachOne('<');
  }

  lemma EscapeEntity()
    ensures EscapeEach("&lt;") == "&amp;lt;"
  {
    var rest := "lt;";
    assert "&lt;" == ['&'] + rest;
    EscapeEachConcat(['&'], rest);
    EscapeEachOne('&');
    EscapeEachIdentity(rest);
  }

  /** Escaping is not idempotent: the entity produced for `<` is escaped again on a second call. */
  lemma NotIdempotent()
    ensures EscapeHtml(Some(EscapeHtml(Some("<")))) == "&amp;lt;"
    ensures EscapeHtml(Some(EscapeHtml(Some("<")))) != EscapeHtml(Some("<"))
  {
    EscapeLessThan();
    EscapeEntity();
    assert EscapeHtml(Some("<")) == "&lt;";
  }
}
