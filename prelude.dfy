/**
 * The array operations the storefront's components build on: `filter`,
 * a summing `reduce`, `flat`, and the optional value JavaScript writes as
 * `undefined`.
 */
module Prelude {

  datatype Option<T> = None | Some(value: T)

  /** `s.filter(keep)`: the elements of `s` that satisfy `keep`, in order. */
  function Filter<T>(s: seq<T>, keep: T -> bool): (r: seq<T>)
    ensures |r| <= |s|
    ensures forall i :: 0 <= i < |r| ==> r[i] in s && keep(r[i])
    ensures forall i :: 0 <= i < |s| && keep(s[i]) ==> s[i] in r
  {
    if s == [] then [] else (if keep(s[0]) then [s[0]] else []) + Filter(s[1..], keep)
  }

  /** `s.reduce((acc, x) => acc + f(x), 0)`. */
  function SumOf<T>(s: seq<T>, f: T -> int): int
  {
    if s == [] then 0 else f(s[0]) + SumOf(s[1..], f)
  }

  /** `ss.flat()`: the blocks of `ss` laid end to end. */
  function Flatten<T>(ss: seq<seq<T>>): (r: seq<T>)
    ensures |r| == SumOf(ss, Length)
  {
    if ss == [] then [] else ss[0] + Flatten(ss[1..])
  }

  function Length<T>(s: seq<T>): int { |s| }

  /**
   * The blocks `f` gives for the elements of `s`, laid end to end in order:
   * what a loop over `s` collects when it appends `f(x)` for each `x`.
   */
  function ConcatMap<T, U>(s: seq<T>, f: T -> seq<U>): seq<U>
  {
    if s == [] then [] else ConcatMap(s[..|s| - 1], f) + f(s[|s| - 1])
  }

  /** Collecting over two runs of elements is collecting over each in turn. */
  lemma {:induction false} ConcatMapConcat<T, U>(a: seq<T>, b: seq<T>, f: T -> seq<U>)
    ensures ConcatMap(a + b, f) == ConcatMap(a, f) + ConcatMap(b, f)
  {
    if b == [] {
      assert a + b == a;
    } else {
      var front := b[..|b| - 1];
      assert (a + b)[..|a + b| - 1] == a + front;
      assert (a + b)[|a + b| - 1] == b[|b| - 1];
      ConcatMapConcat(a, front, f);
    }
  }

  lemma {:induction false} FilterConcat<T>(a: seq<T>, b: seq<T>, keep: T -> bool)
    ensures Filter(a + b, keep) == Filter(a, keep) + Filter(b, keep)
  {
    if a != [] {
      assert (a + b)[1..] == a[1..] + b;
      FilterConcat(a[1..], b, keep);
    } else {
      assert a + b == b;
    }
  }

  /** Filtering keeps everything when every element passes. */
  lemma {:induction false} FilterKeepsAll<T>(s: seq<T>, keep: T -> bool)
    requires forall i :: 0 <= i < |s| ==> keep(s[i])
    ensures Filter(s, keep) == s
  {
    if s != [] {
      FilterKeepsAll(s[1..], keep);
    }
  }

  /** Filtering keeps nothing when no element passes. */
  lemma {:induction false} FilterKeepsNone<T>(s: seq<T>, keep: T -> bool)
    requires forall i :: 0 <= i < |s| ==> !keep(s[i])
    ensures Filter(s, keep) == []
  {
    if s != [] {
      FilterKeepsNone(s[1..], keep);
    }
  }

  lemma {:induction false} SumOfConcat<T>(a: seq<T>, b: seq<T>, f: T -> int)
    ensures SumOf(a + b, f) == SumOf(a, f) + SumOf(b, f)
  {
    if a != [] {
      assert (a + b)[1..] == a[1..] + b;
      SumOfConcat(a[1..], b, f);
    } else {
      assert a + b == b;
    }
  }

  lemma SumOfSingleton<T>(x: T, f: T -> int)
    ensures SumOf([x], f) == f(x)
  {
    assert [x][1..] == [];
  }

  /** A sum of non-negative terms is non-negative. */
  /** A one-element list sums to the value of its element. */
  lemma SumOfOne<T>(s: seq<T>, f: T -> int)
    ensures |s| == 1 ==> SumOf(s, f) == f(s[0])
  {
    if |s| == 1 {
      assert s == [s[0]];
      SumOfSingleton(s[0], f);
    }
  }

  lemma {:induction false} SumOfNonNegative<T>(s: seq<T>, f: T -> int)
    requires forall i :: 0 <= i < |s| ==> f(s[i]) >= 0
    ensures SumOf(s, f) >= 0
  {
    if s != [] {
      SumOfNonNegative(s[1..], f);
    }
  }

  /**
   * Splitting a sequence by a predicate and its negation splits its sum:
   * the two filtered parts together carry every term exactly once.
   */
  lemma {:induction false} SumOfPartition<T>(s: seq<T>, f: T -> int, keep: T -> bool, drop: T -> bool)
    requires forall x :: drop(x) == !keep(x)
    ensures SumOf(s, f) == SumOf(Filter(s, keep), f) + SumOf(Filter(s, drop), f)
  {
    if s != [] {
      SumOfPartition(s[1..], f, keep, drop);
      if keep(s[0]) {
        assert Filter(s, keep) == [s[0]] + Filter(s[1..], keep);
        assert Filter(s, drop) == Filter(s[1..], drop);
        SumOfConcat([s[0]], Filter(s[1..], keep), f);
      } else {
        assert Filter(s, keep) == Filter(s[1..], keep);
        assert Filter(s, drop) == [s[0]] + Filter(s[1..], drop);
        SumOfConcat([s[0]], Filter(s[1..], drop), f);
      }
    }
  }

  /** With non-negative terms, the sum over a filtered part lies between 0 and the whole sum. */
  lemma {:induction false} SumOfFilterBounds<T>(s: seq<T>, f: T -> int, keep: T -> bool)
    requires forall i :: 0 <= i < |s| ==> f(s[i]) >= 0
    ensures 0 <= SumOf(Filter(s, keep), f) <= SumOf(s, f)
  {
    if s != [] {
      SumOfFilterBounds(s[1..], f, keep);
      if keep(s[0]) {
        assert Filter(s, keep) == [s[0]] + Filter(s[1..], keep);
        SumOfConcat([s[0]], Filter(s[1..], keep), f);
        SumOfSingleton(s[0], f);
      } else {
        assert Filter(s, keep) == Filter(s[1..], keep);
      }
      assert f(s[0]) >= 0;
    }
  }

  /** Each term lies in [lo, hi], so the sum lies in [|s| * lo, |s| * hi]. */
  lemma {:induction false} SumOfBounds<T>(s: seq<T>, f: T -> int, lo: int, hi: int)
    requires forall i :: 0 <= i < |s| ==> lo <= f(s[i]) <= hi
    ensures |s| * lo <= SumOf(s, f) <= |s| * hi
  {
    if s != [] {
      SumOfBounds(s[1..], f, lo, hi);
    }
  }

  /** Summing over the flattened sequence is summing the blocks' sums. */
  lemma {:induction false} FlattenSum<T>(ss: seq<seq<T>>, f: T -> int)
    ensures SumOf(Flatten(ss), f) == SumOf(ss, (s: seq<T>) => SumOf(s, f))
  {
    if ss != [] {
      SumOfConcat(ss[0], Flatten(ss[1..]), f);
      FlattenSum(ss[1..], f);
    }
  }
}
