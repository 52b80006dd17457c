/** A stable sort, as Python's `sorted` and `list.sort` promise, and what makes its result unique. */
module Sorting {

  /** `before(a, b)`: `a`'s key sorts strictly ahead of `b`'s. */
  ghost predicate IsKeyOrder<T(!new)>(before: (T, T) -> bool)
  {
    && (forall a, b :: before(a, b) ==> !before(b, a))
    && (forall a, b, c :: !before(b, a) && !before(c, b) ==> !before(c, a))
  }

  function StableSort<T>(xs: seq<T>, before: (T, T) -> bool): (sorted: seq<T>)
    ensures multiset(sorted) == multiset(xs)
  {
    if xs == [] then []
    else
      var front, last := xs[..|xs| - 1], xs[|xs| - 1];
      assert xs == front + [last];
      Place(StableSort(front, before), last, before)
  }

  /** Puts `x` behind every element it does not sort strictly ahead of. */
  function Place<T>(sorted: seq<T>, x: T, before: (T, T) -> bool): (placed: seq<T>)
    ensures multiset(placed) == multiset(sorted) + multiset{x}
  {
    if sorted == [] || !before(x, sorted[|sorted| - 1]) then sorted + [x]
    else
      var front, last := sorted[..|sorted| - 1], sorted[|sorted| - 1];
      assert sorted == front + [last];
      Place(front, x, before) + [last]
  }

  /** In order, and equal keys in order of `position`. */
  ghost predicate Arranged<T>(xs: seq<T>, before: (T, T) -> bool, position: T -> int)
  {
    forall i, j :: 0 <= i < j < |xs| ==>
      before(xs[i], xs[j]) || (!before(xs[j], xs[i]) && position(xs[i]) < position(xs[j]))
  }

  ghost predicate Increasing<T>(xs: seq<T>, position: T -> int)
  {
    forall i, j :: 0 <= i < j < |xs| ==> position(xs[i]) < position(xs[j])
  }

  lemma {:induction false} PlaceArranges<T(!new)>(sorted: seq<T>, x: T, before: (T, T) -> bool, position: T -> int)
    requires IsKeyOrder(before) && Arranged(sorted, before, position)
    requires forall y :: y in sorted ==> position(y) < position(x)
    ensures Arranged(Place(sorted, x, before), before, position)
  {
    if sorted == [] || !before(x, sorted[|sorted| - 1]) {
    } else {
      var front, last := sorted[..|sorted| - 1], sorted[|sorted| - 1];
      PlaceArranges(front, x, before, position);
      var placed := Place(front, x, before);
      forall i | 0 <= i < |placed|
        ensures before(placed[i], last) || (!before(last, placed[i]) && position(placed[i]) < position(last))
      {
        assert placed[i] in multiset(placed);
        assert placed[i] in front || placed[i] == x;
      }
    }
  }

  /** A list already in order of `position` comes out arranged. */
  lemma {:induction false} StableSortArranges<T(!new)>(xs: seq<T>, before: (T, T) -> bool, position: T -> int)
    requires IsKeyOrder(before) && Increasing(xs, position)
    ensures Arranged(StableSort(xs, before), before, position)
  {
    if xs != [] {
      var front, last := xs[..|xs| - 1], xs[|xs| - 1];
      StableSortArranges(front, before, position);
      forall y | y in StableSort(front, before) ensures position(y) < position(last) {
        assert y in multiset(front);
      }
      PlaceArranges(StableSort(front, before), last, before, position);
    }
  }

  lemma ArrangedHead<T(!new)>(xs: seq<T>, ys: seq<T>, before: (T, T) -> bool, position: T -> int)
    requires IsKeyOrder(before) && Arranged(xs, before, position) && Arranged(ys, before, position)
    requires xs != [] && ys != [] && xs[0] in ys && ys[0] in xs
    ensures xs[0] == ys[0]
  {}

  lemma ArrangedTail<T(!new)>(xs: seq<T>, before: (T, T) -> bool, position: T -> int)
    requires xs != [] && Arranged(xs, before, position)
    ensures Arranged(xs[1..], before, position)
  {}

  lemma TailElements<T>(xs: seq<T>)
    requires xs != []
    ensures multiset(xs[1..]) == multiset(xs) - multiset{xs[0]}
  {
    assert xs == [xs[0]] + xs[1..];
  }

  /** Two arrangements of the same elements are the same list. */
  lemma {:induction false} ArrangementIsUnique<T(!new)>(xs: seq<T>, ys: seq<T>, before: (T, T) -> bool,
                                                        position: T -> int)
    requires IsKeyOrder(before) && Arranged(xs, before, position) && Arranged(ys, before, position)
    requires multiset(xs) == multiset(ys)
    ensures xs == ys
  {
    hide IsKeyOrder, Arranged;
    assert |xs| == |multiset(xs)| == |multiset(ys)| == |ys|;
    if xs != [] {
      assert xs[0] in multiset(ys) && ys[0] in multiset(xs);
      ArrangedHead(xs, ys, before, position);
      TailElements(xs);
      TailElements(ys);
      ArrangedTail(xs, before, position);
      ArrangedTail(ys, before, position);
      ArrangementIsUnique(xs[1..], ys[1..], before, position);
      assert xs == [xs[0]] + xs[1..] && ys == [ys[0]] + ys[1..];
    }
  }

  /** In order, as far as the keys go. */
  ghost predicate Sorted<T>(xs: seq<T>, before: (T, T) -> bool)
  {
    forall i, j :: 0 <= i < j < |xs| ==> !before(xs[j], xs[i])
  }

  lemma {:induction false} PlaceSorts<T(!new)>(sorted: seq<T>, x: T, before: (T, T) -> bool)
    requires IsKeyOrder(before) && Sorted(sorted, before)
    ensures Sorted(Place(sorted, x, before), before)
  {
    if sorted == [] || !before(x, sorted[|sorted| - 1]) {
    } else {
      var front, last := sorted[..|sorted| - 1], sorted[|sorted| - 1];
      PlaceSorts(front, x, before);
      var placed := Place(front, x, before);
      forall i | 0 <= i < |placed| ensures !before(last, placed[i]) {
        assert placed[i] in multiset(placed);
        assert placed[i] in front || placed[i] == x;
      }
    }
  }

  lemma {:induction false} StableSortSorts<T(!new)>(xs: seq<T>, before: (T, T) -> bool)
    requires IsKeyOrder(before)
    ensures Sorted(StableSort(xs, before), before)
  {
    if xs != [] {
      StableSortSorts(xs[..|xs| - 1], before);
      PlaceSorts(StableSort(xs[..|xs| - 1], before), xs[|xs| - 1], before);
    }
  }

  /** When keys tell the elements apart, the sorted list does not depend on the order they came in. */
  lemma TotalSortIsUnique<T(!new)>(xs: seq<T>, ys: seq<T>, before: (T, T) -> bool)
    requires IsKeyOrder(before) && multiset(xs) == multiset(ys)
    requires forall i, j :: 0 <= i < j < |xs| ==> before(xs[i], xs[j]) || before(xs[j], xs[i])
    ensures StableSort(xs, before) == StableSort(ys, before)
  {
    var a, b := StableSort(xs, before), StableSort(ys, before);
    StableSortSorts(xs, before);
    StableSortSorts(ys, before);
    ApartArranged(xs, a, before);
    ApartArranged(xs, b, before);
    ArrangementIsUnique(a, b, before, (x: T) => 0);
  }

  lemma ApartArranged<T(!new)>(xs: seq<T>, sorted: seq<T>, before: (T, T) -> bool)
    requires IsKeyOrder(before) && Sorted(sorted, before) && multiset(sorted) == multiset(xs)
    requires forall i, j :: 0 <= i < j < |xs| ==> before(xs[i], xs[j]) || before(xs[j], xs[i])
    ensures Arranged(sorted, before, (x: T) => 0)
  {
    forall i, j | 0 <= i < j < |sorted| ensures before(sorted[i], sorted[j]) {
      Apart(xs, sorted, before, i, j);
    }
  }

  lemma Apart<T(!new)>(xs: seq<T>, sorted: seq<T>, before: (T, T) -> bool, i: nat, j: nat)
    requires IsKeyOrder(before) && multiset(sorted) == multiset(xs) && i < j < |sorted|
    requires forall m, n :: 0 <= m < n < |xs| ==> before(xs[m], xs[n]) || before(xs[n], xs[m])
    ensures before(sorted[i], sorted[j]) || before(sorted[j], sorted[i])
  {
    var x, y := sorted[i], sorted[j];
    assert x in multiset(xs) && y in multiset(xs);
    if x == y {
      TwiceCounted(sorted, i, j);
      var m, n := TwiceFound(xs, x);
    } else {
      var m :| 0 <= m < |xs| && xs[m] == x;
      var n :| 0 <= n < |xs| && xs[n] == y;
      if m < n {
        assert before(xs[m], xs[n]) || before(xs[n], xs[m]);
      } else {
        assert before(xs[n], xs[m]) || before(xs[m], xs[n]);
      }
    }
  }

  lemma TwiceCounted<T>(xs: seq<T>, i: nat, j: nat)
    requires i < j < |xs| && xs[i] == xs[j]
    ensures multiset(xs)[xs[i]] >= 2
  {
    assert xs == xs[..j] + xs[j..];
    assert xs[..j][i] == xs[i] && xs[j..][0] == xs[i];
    assert xs[i] in multiset(xs[..j]) && xs[i] in multiset(xs[j..]);
  }

  lemma {:induction false} TwiceFound<T>(xs: seq<T>, x: T) returns (m: nat, n: nat)
    requires multiset(xs)[x] >= 2
    ensures m < n < |xs| && xs[m] == x && xs[n] == x
  {
    var front, last := xs[..|xs| - 1], xs[|xs| - 1];
    assert xs == front + [last];
    if last == x {
      assert x in multiset(front);
      m :| 0 <= m < |front| && front[m] == x;
      n := |front|;
    } else {
      m, n := TwiceFound(front, x);
    }
  }
}
