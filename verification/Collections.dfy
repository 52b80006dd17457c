/** Facts about finite sets and sequences that several models share. */
module Collections {

  datatype Option<+T> = None | Some(value: T)

  // ---- Sets ----------------------------------------------------------------------------------

  ghost function Range(lo: nat, hi: nat): (r: set<int>)
    ensures forall i :: i in r <==> lo <= i < hi
    decreases hi
  {
    if lo < hi then Range(lo, hi - 1) + {hi - 1} else {}
  }

  lemma {:induction false} RangeSize(lo: nat, hi: nat)
    requires lo <= hi
    ensures |Range(lo, hi)| == hi - lo
    decreases hi
  {
    if lo < hi { RangeSize(lo, hi - 1); }
  }

  lemma SubsetSize<T>(a: set<T>, b: set<T>)
    requires a <= b
    ensures |a| <= |b|
  {
    assert b == a + (b - a);
  }

  /** An element on which `f` is largest. */
  lemma {:induction false} LargestBy<T>(s: set<T>, f: T --> int) returns (p: T)
    requires s != {} && forall x :: x in s ==> f.requires(x)
    ensures p in s && forall x :: x in s ==> f(x) <= f(p)
    decreases s
  {
    p :| p in s;
    if s != {p} {
      var q := LargestBy(s - {p}, f);
      if f(p) < f(q) { p := q; }
    }
  }

  /** A set that `f` maps one-to-one into `codomain` is no larger than `codomain`. */
  lemma {:induction false} Pigeonhole<S, T>(s: set<S>, f: S --> T, codomain: set<T>)
    requires forall x :: x in s ==> f.requires(x) && f(x) in codomain
    requires forall x, y :: x in s && y in s && x != y ==> f(x) != f(y)
    ensures |s| <= |codomain|
    decreases s
  {
    if s != {} {
      var x :| x in s;
      Pigeonhole(s - {x}, f, codomain - {f(x)});
    }
  }

  lemma SubsetOfSameSize<T>(a: set<T>, b: set<T>)
    requires a <= b && |a| == |b|
    ensures a == b
  {
    assert b == a + (b - a);
  }
}
