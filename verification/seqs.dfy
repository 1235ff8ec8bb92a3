/**
 * The array combinators the source uses (`filter`, `find`, `findIndex`,
 * `reduce` to a sum, `filter(..).length`) with the contracts every caller
 * relies on: a filter keeps exactly the matching elements, in order.
 */
module Seqs {
  import opened Basics

  /** `a` can be obtained from `b` by deleting elements: order is kept. */
  predicate IsSubsequence<T(==)>(a: seq<T>, b: seq<T>)
    decreases |b|
  {
    if |a| == 0 then true
    else if |b| == 0 then false
    else if a[0] == b[0] then IsSubsequence(a[1..], b[1..])
    else IsSubsequence(a, b[1..])
  }

  /** How many elements of `s` satisfy `f`. */
  function CountIf<T>(s: seq<T>, f: T -> bool): nat
  {
    if |s| == 0 then 0 else (if f(s[0]) then 1 else 0) + CountIf(s[1..], f)
  }

  /**
   * `s.filter(f)`. The three clauses together pin the result down: an
   * order-preserving selection of `s`, only matching elements, and as many as
   * `s` has.
   */
  function Filter<T(==)>(s: seq<T>, f: T -> bool): (r: seq<T>)
    ensures forall i :: 0 <= i < |r| ==> f(r[i]) && r[i] in s
    ensures IsSubsequence(r, s)
    ensures |r| == CountIf(s, f)
    ensures forall x :: x in s && f(x) ==> x in r
  {
    if |s| == 0 then []
    else if f(s[0]) then
      var t := Filter(s[1..], f);
      assert ([s[0]] + t)[1..] == t;
      [s[0]] + t
    else
      var t := Filter(s[1..], f);
      assert |t| > 0 ==> t[0] != s[0];
      t
  }

  lemma {:induction false} CountIfAppend<T>(a: seq<T>, b: seq<T>, f: T -> bool)
    ensures CountIf(a + b, f) == CountIf(a, f) + CountIf(b, f)
    decreases |a|
  {
    if |a| > 0 {
      assert (a + b)[1..] == a[1..] + b;
      CountIfAppend(a[1..], b, f);
    } else {
      assert a + b == b;
    }
  }

  lemma {:induction false} CountIfBound<T>(s: seq<T>, f: T -> bool)
    ensures CountIf(s, f) <= |s|
    ensures CountIf(s, f) == |s| <==> forall i :: 0 <= i < |s| ==> f(s[i])
    decreases |s|
  {
    if |s| > 0 {
      CountIfBound(s[1..], f);
      assert forall i :: 1 <= i < |s| ==> s[i] == s[1..][i - 1];
    }
  }

  /** `s.findIndex(f)`, with `None` for the source's `-1`. */
  function FirstIndex<T>(s: seq<T>, f: T -> bool): (r: Option<nat>)
    ensures r.Some? ==> r.value < |s| && f(s[r.value])
    ensures r.Some? ==> forall j :: 0 <= j < r.value ==> !f(s[j])
    ensures r.None? ==> forall j :: 0 <= j < |s| ==> !f(s[j])
  {
    if |s| == 0 then None
    else if f(s[0]) then Some(0)
    else
      match FirstIndex(s[1..], f)
      case None => None
      case Some(k) => Some(k + 1)
  }

  /** `s.find(f)`: the first element satisfying `f`. */
  function Find<T>(s: seq<T>, f: T -> bool): (r: Option<T>)
    ensures r.Some? ==> r.value in s && f(r.value)
    ensures r.None? ==> forall j :: 0 <= j < |s| ==> !f(s[j])
    ensures r.Some? ==> exists k :: 0 <= k < |s| && s[k] == r.value && forall j :: 0 <= j < k ==> !f(s[j])
  {
    match FirstIndex(s, f)
    case None => None
    case Some(k) => Some(s[k])
  }

  /** `s.reduce((acc, x) => acc + f(x), 0)`. */
  function Sum<T>(s: seq<T>, f: T -> real): real
  {
    if |s| == 0 then 0.0 else f(s[0]) + Sum(s[1..], f)
  }

  lemma {:induction false} SumAppend<T>(a: seq<T>, b: seq<T>, f: T -> real)
    ensures Sum(a + b, f) == Sum(a, f) + Sum(b, f)
    decreases |a|
  {
    if |a| > 0 {
      assert (a + b)[1..] == a[1..] + b;
      SumAppend(a[1..], b, f);
    } else {
      assert a + b == b;
    }
  }

  lemma {:induction false} SumNonNegative<T>(s: seq<T>, f: T -> real)
    requires forall i :: 0 <= i < |s| ==> f(s[i]) >= 0.0
    ensures Sum(s, f) >= 0.0
    decreases |s|
  {
    if |s| > 0 {
      assert forall i :: 1 <= i < |s| ==> s[i] == s[1..][i - 1];
      SumNonNegative(s[1..], f);
    }
  }

  /** `s.reduce((acc, x) => acc + f(x), 0)` over integer-valued fields. */
  function SumInt<T>(s: seq<T>, f: T -> int): int
  {
    if |s| == 0 then 0 else f(s[0]) + SumInt(s[1..], f)
  }

  lemma {:induction false} SumIntAppend<T>(a: seq<T>, b: seq<T>, f: T -> int)
    ensures SumInt(a + b, f) == SumInt(a, f) + SumInt(b, f)
    decreases |a|
  {
    if |a| > 0 {
      assert (a + b)[1..] == a[1..] + b;
      SumIntAppend(a[1..], b, f);
    } else {
      assert a + b == b;
    }
  }

  /** A filter every element passes returns the sequence itself. */
  lemma {:induction false} FilterKeepsAll<T>(s: seq<T>, f: T -> bool)
    ensures (forall i :: 0 <= i < |s| ==> f(s[i])) ==> Filter(s, f) == s
    decreases |s|
  {
    if |s| > 0 && forall i :: 0 <= i < |s| ==> f(s[i]) {
      assert forall i :: 0 <= i < |s[1..]| ==> s[1..][i] == s[i + 1];
      FilterKeepsAll(s[1..], f);
    }
  }

  /** Filtering twice by the same test is filtering once. */
  lemma {:induction false} FilterIdempotent<T>(s: seq<T>, f: T -> bool)
    ensures Filter(Filter(s, f), f) == Filter(s, f)
    decreases |s|
  {
    if |s| > 0 {
      FilterIdempotent(s[1..], f);
      if f(s[0]) {
        var t := Filter(s, f);
        assert t[1..] == Filter(s[1..], f);
      }
    }
  }

  /** Tests that agree on every element of `s` count the same. */
  lemma {:induction false} CountIfExt<T>(s: seq<T>, f: T -> bool, g: T -> bool)
    requires forall i :: 0 <= i < |s| ==> f(s[i]) == g(s[i])
    ensures CountIf(s, f) == CountIf(s, g)
    decreases |s|
  {
    if |s| > 0 {
      assert forall i :: 0 <= i < |s[1..]| ==> s[1..][i] == s[i + 1];
      CountIfExt(s[1..], f, g);
    }
  }
}
