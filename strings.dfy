/**
 * The string operations the storefront applies to storage keys and query
 * text: `startsWith`, `endsWith`, `split`, `join`, and the decimal text of
 * a number as a template literal renders it.
 */
module Strings {
  import opened Prelude

  predicate StartsWith(s: string, prefix: string)
  {
    |prefix| <= |s| && s[..|prefix|] == prefix
  }

  predicate EndsWith(s: string, suffix: string)
  {
    |suffix| <= |s| && s[|s| - |suffix|..] == suffix
  }

  /** `sep` occurs in `s` starting at position `j`. */
  predicate MatchAt(s: string, sep: string, j: int)
  {
    0 <= j && j + |sep| <= |s| && s[j..j + |sep|] == sep
  }

  /** A prefix of `s` is a prefix of anything `s` begins. */
  lemma StartsWithAppend(s: string, prefix: string, t: string)
    requires StartsWith(s, prefix)
    ensures StartsWith(s + t, prefix)
  {
    assert (s + t)[..|prefix|] == s[..|prefix|];
  }

  /** Putting the same text in front of a string and its prefix keeps it a prefix. */
  lemma StartsWithPrepend(q: string, s: string, prefix: string)
    requires StartsWith(s, prefix)
    ensures StartsWith(q + s, q + prefix)
  {
    assert (q + s)[..|q + prefix|] == q + s[..|prefix|];
  }

  /** `s.indexOf(sep)`, with `None` for -1. */
  function IndexOf(s: string, sep: string): (r: Option<nat>)
    requires |sep| > 0
    ensures r.Some? ==> MatchAt(s, sep, r.value)
    ensures r.Some? ==> forall j :: 0 <= j < r.value ==> !MatchAt(s, sep, j)
    ensures r.None? ==> forall j :: 0 <= j ==> !MatchAt(s, sep, j)
    decreases |s|
  {
    if |s| < |sep| then None
    else if s[..|sep|] == sep then Some(0)
    else
      match IndexOf(s[1..], sep)
      case None =>
        assert forall j :: 1 <= j ==> (MatchAt(s, sep, j) <==> MatchAt(s[1..], sep, j - 1));
        None
      case Some(i) =>
        assert forall j :: 1 <= j ==> (MatchAt(s, sep, j) <==> MatchAt(s[1..], sep, j - 1));
        Some(i + 1)
  }

  /** `s.split(sep)` for a non-empty separator. */
  function Split(s: string, sep: string): (r: seq<string>)
    requires |sep| > 0
    ensures |r| >= 1
    decreases |s|
  {
    match IndexOf(s, sep)
    case None => [s]
    case Some(i) => [s[..i]] + Split(s[i + |sep|..], sep)
  }

  /** `s.split(sep)[k]`, with `None` for `undefined`. */
  function Part(s: string, sep: string, k: nat): Option<string>
    requires |sep| > 0
  {
    var parts := Split(s, sep);
    if k < |parts| then Some(parts[k]) else None
  }

  /** `parts.join(sep)`. */
  function Join(parts: seq<string>, sep: string): string
  {
    if |parts| == 0 then ""
    else if |parts| == 1 then parts[0]
    else parts[0] + sep + Join(parts[1..], sep)
  }

  /** The separator followed by each part in turn: what `join` writes after the first part. */
  function Glue(parts: seq<string>, sep: string): string
  {
    if parts == [] then "" else sep + parts[0] + Glue(parts[1..], sep)
  }

  /** `parts.join(sep)` is the first part, then the separator before each later part. */
  lemma {:induction false} JoinGlue(parts: seq<string>, sep: string)
    requires |parts| > 0
    ensures Join(parts, sep) == parts[0] + Glue(parts[1..], sep)
  {
    if |parts| > 1 {
      var rest := parts[1..];
      JoinGlue(rest, sep);
      assert rest[1..] == parts[2..];
      assert Join(parts, sep) == parts[0] + sep + (rest[0] + Glue(rest[1..], sep));
      assert Glue(rest, sep) == sep + rest[0] + Glue(rest[1..], sep);
    }
  }

  /** Gluing two runs of parts is gluing each in turn. */
  lemma {:induction false} GlueConcat(a: seq<string>, b: seq<string>, sep: string)
    ensures Glue(a + b, sep) == Glue(a, sep) + Glue(b, sep)
  {
    if a == [] {
      assert a + b == b;
    } else {
      assert (a + b)[1..] == a[1..] + b;
      GlueConcat(a[1..], b, sep);
      assert Glue(a + b, sep) == sep + a[0] + (Glue(a[1..], sep) + Glue(b, sep));
    }
  }

  /** A separator whose first character does not occur in `s` is not found in it. */
  lemma SeparatorAbsent(s: string, sep: string)
    requires |sep| > 0 && sep[0] !in s
    ensures IndexOf(s, sep) == None
  {
  }

  /** The first separator of `p + sep + r` is the one after `p` when `p` holds none of it. */
  lemma SeparatorAfter(p: string, sep: string, r: string)
    requires |sep| > 0 && sep[0] !in p
    ensures IndexOf(p + sep + r, sep) == Some(|p|)
  {
    var s := p + sep + r;
    assert s[|p|..|p| + |sep|] == sep;
    assert MatchAt(s, sep, |p|);
  }

  /** Splitting text that holds no separator gives that text alone. */
  lemma SplitWithout(s: string, sep: string)
    requires |sep| > 0 && sep[0] !in s
    ensures Split(s, sep) == [s]
  {
    SeparatorAbsent(s, sep);
  }

  /** Splitting `p + sep + r` gives `p`, then the pieces of `r`. */
  lemma SplitAfter(p: string, sep: string, r: string)
    requires |sep| > 0 && sep[0] !in p
    ensures Split(p + sep + r, sep) == [p] + Split(r, sep)
  {
    SeparatorAfter(p, sep, r);
    var s := p + sep + r;
    assert s[..|p|] == p;
    assert s[|p| + |sep|..] == r;
  }

  /**
   * `(p + sep + rest).split(sep)[1]` is the text of `rest` before its
   * first separator (all of `rest` when it has none).
   */
  lemma SecondPart(p: string, sep: string, rest: string)
    requires |sep| > 0 && sep[0] !in p
    ensures Part(p + sep + rest, sep, 1) == Some(Split(rest, sep)[0])
  {
    SplitAfter(p, sep, rest);
  }

  predicate IsDigit(c: char) { '0' <= c <= '9' }

  predicate IsDigits(s: string) { forall i :: 0 <= i < |s| ==> IsDigit(s[i]) }

  function DigitValue(c: char): nat
    requires IsDigit(c)
  {
    (c - '0') as nat
  }

  function DigitChar(d: nat): (c: char)
    requires d < 10
    ensures IsDigit(c) && DigitValue(c) == d
  {
    '0' + d as char
  }

  /** The value of a string of decimal digits; the empty string is 0. */
  function DigitsValue(s: string): nat
    requires IsDigits(s)
  {
    if s == [] then 0 else DigitsValue(s[..|s| - 1]) * 10 + DigitValue(s[|s| - 1])
  }

  /** Canonical decimal text: non-empty, digits only, no leading zero. */
  predicate IsCanonical(s: string)
  {
    |s| > 0 && IsDigits(s) && (|s| > 1 ==> s[0] != '0')
  }

  /** `${n}` for a natural number `n`: its canonical decimal text, which reads back as `n`. */
  function NatText(n: nat): (r: string)
    ensures IsCanonical(r) && DigitsValue(r) == n
  {
    if n < 10 then [DigitChar(n)]
    else
      var front := NatText(n / 10);
      var r := front + [DigitChar(n % 10)];
      assert r[..|r| - 1] == front;
      r
  }

  /** A digit string whose leading digit is not 0 has a positive value. */
  lemma {:induction false} LeadingDigitPositive(s: string)
    requires IsDigits(s) && |s| > 0 && s[0] != '0'
    ensures DigitsValue(s) >= 1
  {
    if |s| > 1 {
      assert s[..|s| - 1][0] == s[0];
      LeadingDigitPositive(s[..|s| - 1]);
    }
  }

  /** Canonical decimal text is the text of its own value. */
  lemma {:induction false} CanonicalRoundTrip(s: string)
    requires IsCanonical(s)
    ensures NatText(DigitsValue(s)) == s
  {
    var n := |s| - 1;
    var front := s[..n];
    var d := DigitValue(s[n]);
    var v := DigitsValue(s);
    assert v == DigitsValue(front) * 10 + d;
    assert DigitChar(d) == s[n];
    if n == 0 {
      assert s == [s[n]];
    } else {
      assert front[0] == s[0];
      LeadingDigitPositive(front);
      CanonicalRoundTrip(front);
      assert v / 10 == DigitsValue(front) && v % 10 == d;
      assert s == front + [s[n]];
    }
  }


  /** `${i}` for an integer `i`. */
  function IntText(i: int): string
  {
    if i < 0 then "-" + NatText(-i) else NatText(i)
  }
}
