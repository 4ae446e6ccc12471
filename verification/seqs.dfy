/**
 * Generic sequence tools the models share: the sum of a per-element amount,
 * the number of elements that satisfy a test, order-keeping filtering and the
 * first index that satisfies a test (Python's `next(...)`, JavaScript's
 * `find`/`findIndex`).
 */
module Seqs {
  import opened Common

  /** Sum of `f` over `s`. */
  function SumOf<T>(s: seq<T>, f: T -> int): int
  {
    if s == [] then 0 else SumOf(s[..|s| - 1], f) + f(s[|s| - 1])
  }

  lemma SumOfAppend<T>(s: seq<T>, x: T, f: T -> int)
    ensures SumOf(s + [x], f) == SumOf(s, f) + f(x)
  {
    assert (s + [x])[..|s|] == s;
  }

  lemma {:induction false} SumOfConcat<T>(a: seq<T>, b: seq<T>, f: T -> int)
    ensures SumOf(a + b, f) == SumOf(a, f) + SumOf(b, f)
    decreases |b|
  {
    if b == [] {
      assert a + b == a;
    } else {
      var b' := b[..|b| - 1];
      assert a + b == (a + b') + [b[|b| - 1]];
      SumOfAppend(a + b', b[|b| - 1], f);
      SumOfConcat(a, b', f);
    }
  }

  /** Replacing one element changes the sum by the difference of the two amounts. */
  lemma SumOfUpdate<T>(s: seq<T>, k: nat, x: T, f: T -> int)
    requires k < |s|
    ensures SumOf(s[k := x], f) == SumOf(s, f) - f(s[k]) + f(x)
  {
    assert s == s[..k] + [s[k]] + s[k + 1..];
    assert s[k := x] == s[..k] + [x] + s[k + 1..];
    SumOfConcat(s[..k] + [s[k]], s[k + 1..], f);
    SumOfConcat(s[..k] + [x], s[k + 1..], f);
    SumOfAppend(s[..k], s[k], f);
    SumOfAppend(s[..k], x, f);
  }

  /** Deleting one element takes its amount out of the sum. */
  lemma {:induction false} SumOfRemove<T>(s: seq<T>, k: nat, f: T -> int)
    requires k < |s|
    ensures SumOf(s[..k] + s[k + 1..], f) == SumOf(s, f) - f(s[k])
    decreases |s|
  {
    var init, last := s[..|s| - 1], s[|s| - 1];
    if k == |s| - 1 {
      assert s[..k] + s[k + 1..] == init;
    } else {
      SumOfRemove(init, k, f);
      assert s[..k] == init[..k];
      assert s[k + 1..] == init[k + 1..] + [last];
      assert s[..k] + s[k + 1..] == (init[..k] + init[k + 1..]) + [last];
      SumOfAppend(init[..k] + init[k + 1..], last, f);
    }
  }

  /** A sum of non-negative amounts is non-negative. */
  lemma {:induction false} SumOfNonNegative<T>(s: seq<T>, f: T -> int)
    requires forall i :: 0 <= i < |s| ==> f(s[i]) >= 0
    ensures SumOf(s, f) >= 0
    decreases |s|
  {
    if s != [] {
      SumOfNonNegative(s[..|s| - 1], f);
    }
  }

  /** The elements of `s` that pass `keep`, in their order. */
  function Filter<T>(s: seq<T>, keep: T -> bool): (r: seq<T>)
    ensures |r| <= |s|
    ensures forall i :: 0 <= i < |r| ==> keep(r[i])
    ensures forall i :: 0 <= i < |r| ==> r[i] in s
    ensures forall i :: 0 <= i < |s| && keep(s[i]) ==> s[i] in r
  {
    if s == [] then []
    else
      var rest := Filter(s[..|s| - 1], keep);
      assert forall i :: 0 <= i < |s| - 1 ==> s[..|s| - 1][i] == s[i];
      if keep(s[|s| - 1]) then rest + [s[|s| - 1]] else rest
  }

  lemma {:induction false} FilterConcat<T>(a: seq<T>, b: seq<T>, keep: T -> bool)
    ensures Filter(a + b, keep) == Filter(a, keep) + Filter(b, keep)
    decreases |b|
  {
    if b == [] {
      assert a + b == a;
    } else {
      var b' := b[..|b| - 1];
      assert (a + b)[..|a + b| - 1] == a + b';
      FilterConcat(a, b', keep);
    }
  }

  /** When every element passes, filtering changes nothing. */
  lemma {:induction false} FilterAll<T>(s: seq<T>, keep: T -> bool)
    requires forall i :: 0 <= i < |s| ==> keep(s[i])
    ensures Filter(s, keep) == s
    decreases |s|
  {
    if s != [] {
      FilterAll(s[..|s| - 1], keep);
    }
  }

  /** When no element passes, filtering leaves nothing. */
  lemma {:induction false} FilterNone<T>(s: seq<T>, keep: T -> bool)
    requires forall i :: 0 <= i < |s| ==> !keep(s[i])
    ensures Filter(s, keep) == []
    decreases |s|
  {
    if s != [] {
      FilterNone(s[..|s| - 1], keep);
    }
  }

  /** Filtering twice is filtering once by both tests. */
  lemma {:induction false} FilterFilter<T>(s: seq<T>, a: T -> bool, b: T -> bool, both: T -> bool)
    requires forall x :: both(x) == (a(x) && b(x))
    ensures Filter(Filter(s, a), b) == Filter(s, both)
    decreases |s|
  {
    if s != [] {
      var init, last := s[..|s| - 1], s[|s| - 1];
      FilterFilter(init, a, b, both);
      if a(last) {
        FilterConcat(Filter(init, a), [last], b);
        assert [last][..0] == [];
      }
    }
  }

  /** Number of elements of `s` that pass `keep`. */
  function CountIf<T>(s: seq<T>, keep: T -> bool): (n: nat)
    ensures n == |Filter(s, keep)|
    ensures n <= |s|
  {
    if s == [] then 0 else CountIf(s[..|s| - 1], keep) + (if keep(s[|s| - 1]) then 1 else 0)
  }

  /** The first index whose element passes `p`, or None. */
  function FirstIndex<T>(s: seq<T>, p: T -> bool): (k: Option<nat>)
    ensures k.Some? ==> k.value < |s| && p(s[k.value])
    ensures k.Some? ==> forall j :: 0 <= j < k.value ==> !p(s[j])
    ensures k.None? <==> forall j :: 0 <= j < |s| ==> !p(s[j])
  {
    if s == [] then None
    else if p(s[0]) then Some(0)
    else
      match FirstIndex(s[1..], p)
      case None => None
      case Some(j) => Some(j + 1)
  }

  /** The first index is the one before which nothing satisfies `p`. */
  lemma FirstIndexAt<T>(s: seq<T>, p: T -> bool, k: nat)
    requires k < |s| && p(s[k])
    requires forall j :: 0 <= j < k ==> !p(s[j])
    ensures FirstIndex(s, p) == Some(k)
  {
    var f := FirstIndex(s, p);
    assert f.Some?;
    assert !(f.value < k) && !(k < f.value);
  }

  /**
   * When exactly one element fails `keep`, filtering is deleting it: this is
   * how a list comprehension that drops one id removes one entry.
   */
  lemma {:induction false} FilterDropsOne<T>(s: seq<T>, k: nat, keep: T -> bool)
    requires k < |s| && !keep(s[k])
    requires forall j :: 0 <= j < |s| && j != k ==> keep(s[j])
    ensures Filter(s, keep) == s[..k] + s[k + 1..]
    decreases |s|
  {
    var init, last := s[..|s| - 1], s[|s| - 1];
    if k == |s| - 1 {
      FilterAll(init, keep);
      assert s[..k] + s[k + 1..] == init;
    } else {
      FilterDropsOne(init, k, keep);
      assert s[..k] + s[k + 1..] == (init[..k] + init[k + 1..]) + [last];
    }
  }

  /** The sum of `f` over `s`, accumulated from the front as `reduce` and `forEach` do. */
  method Sum<T>(s: seq<T>, f: T -> int) returns (total: int)
    ensures total == SumOf(s, f)
  {
    total := 0;
    for i := 0 to |s|
      invariant total == SumOf(s[..i], f)
    {
      assert s[..i + 1] == s[..i] + [s[i]];
      SumOfAppend(s[..i], s[i], f);
      total := total + f(s[i]);
    }
    assert s[..|s|] == s;
  }

  /** The first index whose element passes `p`, found by a left-to-right scan. */
  method Find<T>(s: seq<T>, p: T -> bool) returns (k: Option<nat>)
    ensures k == FirstIndex(s, p)
  {
    var i := 0;
    while i < |s|
      invariant 0 <= i <= |s|
      invariant forall j :: 0 <= j < i ==> !p(s[j])
    {
      if p(s[i]) {
        return Some(i);
      }
      i := i + 1;
    }
    return None;
  }
}
