/**
 Shared vocabulary for the tab-grouping engine: optional values (JavaScript's
 null/undefined) and the three array operations the engine is built from —
 `find`/`findIndex`, `filter` and `map`.
 */
module Base {

  /** A value that may be missing, as a JavaScript null or undefined. */
  datatype Option<T> = None | Some(value: T)

  /** The index of the first element of `s` that satisfies `p`, scanning from
      the front as `Array.prototype.findIndex` does; None when no element does. */
  function FirstWhere<T>(s: seq<T>, p: T -> bool): (r: Option<nat>)
    ensures r.Some? ==> r.value < |s| && p(s[r.value])
    ensures r.Some? ==> forall j :: 0 <= j < r.value ==> !p(s[j])
    ensures r.None? <==> forall j :: 0 <= j < |s| ==> !p(s[j])
  {
    if |s| == 0 then None
    else if p(s[0]) then Some(0)
    else
      match FirstWhere(s[1..], p)
      case None => None
      case Some(k) => Some(k + 1)
  }

  /** Elements appended after the first hit do not move it. */
  lemma FirstWhereAppend<T>(s: seq<T>, more: seq<T>, p: T -> bool)
    requires FirstWhere(s, p).Some?
    ensures FirstWhere(s + more, p) == FirstWhere(s, p)
  {
    var i := FirstWhere(s, p).value;
    assert forall j :: 0 <= j <= i ==> (s + more)[j] == s[j];
    var k := FirstWhere(s + more, p);
    assert k.Some? && k.value <= i by {
      assert p((s + more)[i]);
    }
  }

  /** `a` is obtained from `b` by deleting elements and keeping the order of
      the rest. */
  predicate IsSubsequence<T(==)>(a: seq<T>, b: seq<T>)
    decreases |b|
  {
    || |a| == 0
    || (&& |b| > 0
        && ((a[0] == b[0] && IsSubsequence(a[1..], b[1..])) || IsSubsequence(a, b[1..])))
  }

  /** `Array.prototype.filter`: the elements of `s` satisfying `p`, in order. */
  function Filter<T(==,!new)>(s: seq<T>, p: T -> bool): (r: seq<T>)
    ensures |r| <= |s|
    ensures IsSubsequence(r, s)
    ensures forall x :: x in r <==> x in s && p(x)
  {
    if |s| == 0 then []
    else
      assert s == [s[0]] + s[1..];
      if p(s[0]) then [s[0]] + Filter(s[1..], p) else Filter(s[1..], p)
  }

  /** `Array.prototype.map`. */
  function Map<T, U>(s: seq<T>, f: T -> U): (r: seq<U>)
    ensures |r| == |s|
    ensures forall i :: 0 <= i < |s| ==> r[i] == f(s[i])
  {
    seq(|s|, i requires 0 <= i < |s| => f(s[i]))
  }

  /** Mapping both sides keeps one sequence a subsequence of the other. */
  lemma {:induction false} MapKeepsSubsequence<T, U>(a: seq<T>, b: seq<T>, f: T -> U)
    requires IsSubsequence(a, b)
    ensures IsSubsequence(Map(a, f), Map(b, f))
    decreases |b|
  {
    if |a| > 0 {
      assert Map(b[1..], f) == Map(b, f)[1..];
      if a[0] == b[0] && IsSubsequence(a[1..], b[1..]) {
        MapKeepsSubsequence(a[1..], b[1..], f);
        assert Map(a[1..], f) == Map(a, f)[1..];
      } else {
        MapKeepsSubsequence(a, b[1..], f);
      }
    }
  }

  /** Filtering with two predicates that agree on every element of `s` gives
      the same result. */
  lemma {:induction false} FilterCongruent<T(!new)>(s: seq<T>, p: T -> bool, q: T -> bool)
    requires forall i :: 0 <= i < |s| ==> p(s[i]) == q(s[i])
    ensures Filter(s, p) == Filter(s, q)
  {
    if |s| > 0 {
      FilterCongruent(s[1..], p, q);
    }
  }
}
