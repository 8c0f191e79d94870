/** The JavaScript string operations the core calls: `includes`, `replace` with a string pattern,
    number-to-decimal conversion in template strings and `||` on strings. `OccursAt`, `StartsWith`
    and `IndexOf` are the model's own helpers: `includes` and `replace` are stated through them. */
module Strings {
  import opened Wrappers

  /** `t` occurs in `s` starting at index `i`. */
  predicate OccursAt(s: string, t: string, i: nat)
  {
    i + |t| <= |s| && s[i..i + |t|] == t
  }

  /** `s.startsWith(t)`. */
  predicate StartsWith(s: string, t: string)
  {
    |t| <= |s| && s[..|t|] == t
  }

  lemma OccursAtZero(s: string, t: string)
    ensures OccursAt(s, t, 0) <==> StartsWith(s, t)
  {
    if |t| <= |s| {
      assert s[0..|t|] == s[..|t|];
    }
  }

  lemma OccursAtShift(s: string, t: string, j: nat)
    requires |s| > 0
    ensures OccursAt(s, t, j + 1) <==> OccursAt(s[1..], t, j)
  {
    if j + 1 + |t| <= |s| {
      assert s[j + 1..j + 1 + |t|] == s[1..][j..j + |t|];
    }
  }

  /** `s.indexOf(t)`: the first index at which `t` occurs, `None` standing for -1. */
  function IndexOf(s: string, t: string): (r: Option<nat>)
    ensures r.Some? ==> OccursAt(s, t, r.value)
    ensures r.Some? ==> forall j: nat :: j < r.value ==> !OccursAt(s, t, j)
    ensures r.None? ==> forall j: nat :: !OccursAt(s, t, j)
    decreases |s|
  {
    OccursAtZero(s, t);
    if StartsWith(s, t) then Some(0)
    else if s == [] then None
    else
      var rest := IndexOf(s[1..], t);
      assert forall j: nat :: OccursAt(s, t, j + 1) <==> OccursAt(s[1..], t, j) by {
        forall j: nat ensures OccursAt(s, t, j + 1) <==> OccursAt(s[1..], t, j) {
          OccursAtShift(s, t, j);
        }
      }
      assert forall j: nat :: j > 0 ==> (OccursAt(s, t, j) <==> OccursAt(s[1..], t, j - 1)) by {
        forall j: nat | j > 0 ensures OccursAt(s, t, j) <==> OccursAt(s[1..], t, j - 1) {
          OccursAtShift(s, t, j - 1);
        }
      }
      match rest
      case None => None
      case Some(k) => Some(k + 1)
  }

  /** `s.includes(t)`. */
  function Contains(s: string, t: string): (b: bool)
    ensures b <==> exists j: nat :: OccursAt(s, t, j)
    ensures StartsWith(s, t) ==> b
  {
    OccursAtZero(s, t);
    IndexOf(s, t).Some?
  }

  lemma StartsWithConcat(a: string, b: string)
    ensures StartsWith(a + b, a)
  {
    assert (a + b)[..|a|] == a;
  }

  /** A string that starts with `a` does not start with a `b` whose first character differs. */
  lemma FirstCharExcludes(s: string, a: string, b: string)
    requires StartsWith(s, a) && a != [] && b != [] && a[0] != b[0]
    ensures !StartsWith(s, b)
  {
    assert s[..|a|][0] == s[0];
  }

  lemma ContainsMiddle(a: string, t: string, b: string)
    ensures Contains(a + t + b, t)
  {
    var s := a + t + b;
    assert s[|a|..|a| + |t|] == t;
    assert OccursAt(s, t, |a|);
  }

  /** Containment is transitive: a string containing `m` contains whatever `m` contains. */
  lemma ContainsTrans(s: string, m: string, t: string)
    requires Contains(s, m) && Contains(m, t)
    ensures Contains(s, t)
  {
    var i: nat :| OccursAt(s, m, i);
    var j: nat :| OccursAt(m, t, j);
    var w := s[i + j..i + j + |t|];
    forall k | 0 <= k < |t| ensures w[k] == t[k] {
      assert w[k] == s[i..i + |m|][j + k];
      assert m[j + k] == m[j..j + |t|][k];
    }
    assert w == t;
    assert OccursAt(s, t, i + j);
  }

  /** The template literal `${a}${t}${b}`: it starts with `a` and contains each of its three pieces. */
  function Around(a: string, t: string, b: string): (r: string)
    ensures StartsWith(r, a)
    ensures Contains(r, t) && Contains(r, b)
  {
    var r := a + t + b;
    assert r[..|a|] == a;
    assert OccursAt(r, t, |a|);
    assert r[|a| + |t|..|a| + |t| + |b|] == b;
    assert OccursAt(r, b, |a| + |t|);
    r
  }

  /** `s.replace(t, rep)` with a string pattern: only the FIRST occurrence of `t` is replaced. */
  function ReplaceFirst(s: string, t: string, rep: string): (r: string)
    ensures (forall j: nat :: !OccursAt(s, t, j)) ==> r == s
    ensures |r| == if Contains(s, t) then |s| - |t| + |rep| else |s|
    ensures forall i: nat :: OccursAt(s, t, i) && (forall j: nat :: j < i ==> !OccursAt(s, t, j)) ==>
              r == s[..i] + rep + s[i + |t|..]
  {
    match IndexOf(s, t)
    case None => s
    case Some(i) => s[..i] + rep + s[i + |t|..]
  }

  function DigitChar(d: nat): (c: char)
    requires d < 10
    ensures '0' <= c <= '9'
  {
    ('0' as int + d) as char
  }

  /** The number a string of decimal digits denotes, read left to right. */
  function DecimalValue(s: string): int
  {
    if s == [] then 0 else 10 * DecimalValue(s[..|s| - 1]) + (s[|s| - 1] as int - '0' as int)
  }

  /** The decimal rendering `${n}` of a non-negative integer: digits denoting `n`, without a
      leading zero. */
  function NatToString(n: nat): (r: string)
    ensures |r| >= 1
    ensures forall i :: 0 <= i < |r| ==> '0' <= r[i] <= '9'
    ensures DecimalValue(r) == n
    ensures n > 0 ==> r[0] != '0'
  {
    if n < 10 then [DigitChar(n)] else
      var r := NatToString(n / 10) + [DigitChar(n % 10)];
      assert r[..|r| - 1] == NatToString(n / 10);
      r
  }

  /** `a || b` for strings: `a` unless it is empty. */
  function OrElse(a: string, b: string): string
  {
    if a != "" then a else b
  }

  /** A possibly absent string is truthy: present and non-empty. */
  predicate Truthy(a: Option<string>)
  {
    a.Some? && a.value != ""
  }

  /** `a || b` for an optional string. */
  function OptOrElse(a: Option<string>, b: string): string
  {
    if Truthy(a) then a.value else b
  }
}
