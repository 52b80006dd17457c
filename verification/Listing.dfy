/** Lists built from lists, and what of them survives a reordering. */
module Listing {

  // ---- Mapping and filtering ----------------------------------------------------------------------------

  /** Each element replaced by a list: a comprehension with any number of results per element. */
  function FlatMap<S, T>(xs: seq<S>, f: S -> seq<T>): seq<T>
  {
    if xs == [] then [] else FlatMap(xs[..|xs| - 1], f) + f(xs[|xs| - 1])
  }

  lemma FlatMapPush<S, T>(xs: seq<S>, x: S, f: S -> seq<T>)
    ensures FlatMap(xs + [x], f) == FlatMap(xs, f) + f(x)
  {}

  lemma {:induction false} FlatMapAppend<S, T>(xs: seq<S>, ys: seq<S>, f: S -> seq<T>)
    ensures FlatMap(xs + ys, f) == FlatMap(xs, f) + FlatMap(ys, f)
  {
    if ys == [] {
      assert xs + ys == xs;
    } else {
      var n, all := |ys| - 1, xs + ys;
      FlatMapAppend(xs, ys[..n], f);
      assert all[..|all| - 1] == xs + ys[..n] && all[|all| - 1] == ys[n];
      assert FlatMap(all, f) == FlatMap(xs + ys[..n], f) + f(ys[n]);
    }
  }

  lemma {:induction false} FlatMapHolds<S, T>(xs: seq<S>, f: S -> seq<T>, t: T)
    ensures t in FlatMap(xs, f) <==> exists x :: x in xs && t in f(x)
  {
    if xs != [] {
      var front, last := xs[..|xs| - 1], xs[|xs| - 1];
      assert xs == front + [last];
      FlatMapHolds(front, f, t);
      assert last in xs;
    }
  }

  lemma {:induction false} FlatMapSame<S, T>(xs: seq<S>, f: S -> seq<T>, g: S -> seq<T>)
    requires forall x :: x in xs ==> f(x) == g(x)
    ensures FlatMap(xs, f) == FlatMap(xs, g)
  {
    if xs != [] { FlatMapSame(xs[..|xs| - 1], f, g); }
  }

  /** Lists of the same elements, element by element, give lists of the same elements. */
  lemma {:induction false} FlatMapSimilar<S, T>(xs: seq<S>, f: S -> seq<T>, g: S -> seq<T>)
    requires forall x :: x in xs ==> multiset(f(x)) == multiset(g(x))
    ensures multiset(FlatMap(xs, f)) == multiset(FlatMap(xs, g))
  {
    if xs != [] { FlatMapSimilar(xs[..|xs| - 1], f, g); }
  }

  function Nested<S, T, U>(f: S -> seq<T>, g: T -> seq<U>): S -> seq<U> { (x: S) => FlatMap(f(x), g) }

  lemma {:induction false} FlatMapNested<S, T, U>(xs: seq<S>, f: S -> seq<T>, g: T -> seq<U>)
    ensures FlatMap(FlatMap(xs, f), g) == FlatMap(xs, Nested(f, g))
  {
    if xs != [] {
      FlatMapNested(xs[..|xs| - 1], f, g);
      FlatMapAppend(FlatMap(xs[..|xs| - 1], f), f(xs[|xs| - 1]), g);
    }
  }

  /** The elements that `keep` holds of, in order. */
  function Filter<T(!new)>(xs: seq<T>, keep: T -> bool): (kept: seq<T>)
    ensures forall x :: x in kept <==> x in xs && keep(x)
  {
    if xs == [] then []
    else
      var last := xs[|xs| - 1];
      assert xs == xs[..|xs| - 1] + [last];
      Filter(xs[..|xs| - 1], keep) + if keep(last) then [last] else []
  }

  lemma {:induction false} FilterAppend<T(!new)>(xs: seq<T>, ys: seq<T>, keep: T -> bool)
    ensures Filter(xs + ys, keep) == Filter(xs, keep) + Filter(ys, keep)
  {
    if ys == [] {
      assert xs + ys == xs;
    } else {
      var n := |ys| - 1;
      FilterAppend(xs, ys[..n], keep);
      assert (xs + ys)[..|xs + ys| - 1] == xs + ys[..n];
    }
  }

  lemma TakeOut<T>(xs: seq<T>, x: T) returns (k: nat)
    requires x in xs
    ensures k < |xs| && xs == xs[..k] + [x] + xs[k + 1..]
    ensures multiset(xs[..k] + xs[k + 1..]) == multiset(xs) - multiset{x}
  {
    k :| 0 <= k < |xs| && xs[k] == x;
    assert xs == xs[..k] + [x] + xs[k + 1..];
  }

  lemma {:induction false} FlatMapPermutes<S, T>(xs: seq<S>, ys: seq<S>, f: S -> seq<T>)
    requires multiset(xs) == multiset(ys)
    ensures multiset(FlatMap(xs, f)) == multiset(FlatMap(ys, f))
  {
    if xs == [] {
      assert |ys| == |multiset(ys)| == 0;
    } else {
      var front, last := xs[..|xs| - 1], xs[|xs| - 1];
      assert xs == front + [last];
      assert last in multiset(ys);
      var k := TakeOut(ys, last);
      FlatMapPermutes(front, ys[..k] + ys[k + 1..], f);
      FlatMapAppend(ys[..k], ys[k + 1..], f);
      FlatMapAppend(ys[..k] + [last], ys[k + 1..], f);
      FlatMapPush(ys[..k], last, f);
    }
  }

  // ---- Lists of lists -----------------------------------------------------------------------------------

  function Flatten<T>(groups: seq<seq<T>>): seq<T>
  {
    if groups == [] then [] else Flatten(groups[..|groups| - 1]) + groups[|groups| - 1]
  }

  lemma FlattenAppend<T>(groups: seq<seq<T>>, group: seq<T>)
    ensures Flatten(groups + [group]) == Flatten(groups) + group
  {}

  lemma {:induction false} FlattenFirst<T>(groups: seq<seq<T>>)
    requires groups != []
    ensures Flatten(groups) == groups[0] + Flatten(groups[1..])
  {
    var n, rest := |groups|, groups[1..];
    if n == 1 {
      assert groups[..0] == [] == rest;
    } else {
      FlattenFirst(groups[..n - 1]);
      assert groups[..n - 1][1..] == rest[..n - 2];
      assert Flatten(rest) == Flatten(rest[..n - 2]) + groups[n - 1];
    }
  }

  lemma {:induction false} FlattenMembers<T>(groups: seq<seq<T>>, i: nat, x: T)
    requires i < |groups| && x in groups[i]
    ensures x in Flatten(groups)
  {
    var n := |groups| - 1;
    if i < n { FlattenMembers(groups[..n], i, x); }
  }

  // ---- Lists without repeats ----------------------------------------------------------------------------

  ghost predicate NoDuplicates<T>(xs: seq<T>)
  {
    forall i, j :: 0 <= i < j < |xs| ==> xs[i] != xs[j]
  }

  /** A list without repeats is as long as the set of its elements is large. */
  lemma {:induction false} DistinctSize<T>(xs: seq<T>, s: set<T>)
    requires NoDuplicates(xs) && forall x :: x in s <==> x in xs
    ensures |s| == |xs|
  {
    if xs == [] {
      assert s == {};
    } else {
      var front, last := xs[..|xs| - 1], xs[|xs| - 1];
      assert xs == front + [last];
      DistinctSize(front, s - {last});
    }
  }

  /** The keys of a dictionary filled in this order. */
  function Firsts<T(==)>(xs: seq<T>): seq<T>
  {
    if xs == [] then []
    else
      var seen := Firsts(xs[..|xs| - 1]);
      if xs[|xs| - 1] in seen then seen else seen + [xs[|xs| - 1]]
  }

  lemma FirstsPush<T>(xs: seq<T>, x: T)
    ensures Firsts(xs + [x]) == if x in Firsts(xs) then Firsts(xs) else Firsts(xs) + [x]
  {}

  lemma {:induction false} FirstsHold<T>(xs: seq<T>)
    ensures NoDuplicates(Firsts(xs)) && forall x :: x in Firsts(xs) <==> x in xs
  {
    if xs != [] {
      FirstsHold(xs[..|xs| - 1]);
      assert xs == xs[..|xs| - 1] + [xs[|xs| - 1]];
    }
  }

  /** Copies of one key add it once. */
  lemma {:induction false} FirstsOfCopies<T>(xs: seq<T>, copies: seq<T>, k: T)
    requires forall x :: x in copies ==> x == k
    ensures Firsts(xs + copies) == Firsts(xs) + if copies == [] || k in xs then [] else [k]
  {
    if copies == [] {
      assert xs + copies == xs;
    } else {
      var front := copies[..|copies| - 1];
      forall x | x in front ensures x == k { assert x in copies; }
      FirstsOfCopies(xs, front, k);
      assert copies[|copies| - 1] in copies;
      assert xs + copies == (xs + front) + [k];
      FirstsPush(xs + front, k);
      FirstsHold(xs);
    }
  }

  lemma SameMembers<T>(xs: seq<T>, ys: seq<T>)
    requires NoDuplicates(xs) && NoDuplicates(ys) && forall x :: x in xs <==> x in ys
    ensures multiset(xs) == multiset(ys)
  {
    CountsAtMostOne(xs);
    CountsAtMostOne(ys);
    forall x ensures multiset(xs)[x] == multiset(ys)[x] {
      assert x in xs <==> x in multiset(xs);
      assert x in ys <==> x in multiset(ys);
    }
  }

  lemma {:induction false} CountsAtMostOne<T>(xs: seq<T>)
    requires NoDuplicates(xs)
    ensures forall x :: multiset(xs)[x] <= 1
  {
    if xs != [] {
      var front, last := xs[..|xs| - 1], xs[|xs| - 1];
      CountsAtMostOne(front);
      assert xs == front + [last];
      assert last !in multiset(front);
    }
  }

  // ---- Grouping by a key --------------------------------------------------------------------------------

  function JustKey<S, K>(key: S -> K): S -> seq<K> { (x: S) => [key(x)] }

  function IfKey<S, K(==)>(key: S -> K, k: K): S -> seq<S> { (x: S) => if key(x) == k then [x] else [] }

  /** The elements with key `k`, in order. */
  function Bucket<S, K(==)>(xs: seq<S>, key: S -> K, k: K): seq<S> { FlatMap(xs, IfKey(key, k)) }

  /** The keys, in order of their first element. */
  function BucketKeys<S, K(==)>(xs: seq<S>, key: S -> K): seq<K> { Firsts(FlatMap(xs, JustKey(key))) }

  /** A dictionary of lists, with its keys in the order they were inserted. */
  ghost predicate Grouped<S, K(!new)>(buckets: map<K, seq<S>>, order: seq<K>, xs: seq<S>, key: S -> K)
  {
    && order == BucketKeys(xs, key)
    && (forall k :: k in buckets <==> k in order)
    && (forall k :: k in buckets ==> buckets[k] == Bucket(xs, key, k))
  }

  lemma BucketPush<S, K>(xs: seq<S>, x: S, key: S -> K, k: K)
    ensures Bucket(xs + [x], key, k) == Bucket(xs, key, k) + if key(x) == k then [x] else []
  {}

  lemma BucketKeysPush<S, K>(xs: seq<S>, x: S, key: S -> K)
    ensures BucketKeys(xs + [x], key) ==
              if key(x) in BucketKeys(xs, key) then BucketKeys(xs, key) else BucketKeys(xs, key) + [key(x)]
  {}

  lemma BucketHolds<S, K>(xs: seq<S>, key: S -> K, k: K, x: S)
    ensures x in Bucket(xs, key, k) <==> x in xs && key(x) == k
  {
    FlatMapHolds(xs, IfKey(key, k), x);
    if x in xs && key(x) == k { assert x in IfKey(key, k)(x); }
  }

  lemma BucketKeysHold<S, K>(xs: seq<S>, key: S -> K, k: K)
    ensures k in BucketKeys(xs, key) <==> Bucket(xs, key, k) != []
    ensures k in BucketKeys(xs, key) <==> exists x :: x in xs && key(x) == k
    ensures NoDuplicates(BucketKeys(xs, key))
  {
    FirstsHold(FlatMap(xs, JustKey(key)));
    FlatMapHolds(xs, JustKey(key), k);
    if x :| x in xs && key(x) == k {
      assert k in JustKey(key)(x);
      BucketHolds(xs, key, k, x);
    }
    if Bucket(xs, key, k) != [] {
      BucketHolds(xs, key, k, Bucket(xs, key, k)[0]);
    }
  }

  /** `buckets[k].append(x)`. */
  function Appended<S, K>(buckets: map<K, seq<S>>, k: K, x: S): map<K, seq<S>>
  {
    buckets[k := (if k in buckets then buckets[k] else []) + [x]]
  }

  lemma GroupStep<S, K(!new)>(buckets: map<K, seq<S>>, order: seq<K>, xs: seq<S>, key: S -> K, x: S)
    requires Grouped(buckets, order, xs, key)
    ensures Grouped(Appended(buckets, key(x), x), if key(x) in buckets then order else order + [key(x)], xs + [x], key)
  {
    hide Bucket, BucketKeys;
    BucketKeysPush(xs, x, key);
    BucketKeysHold(xs, key, key(x));
    BucketPush(xs, x, key, key(x));
    forall k | k != key(x) ensures Bucket(xs + [x], key, k) == Bucket(xs, key, k) {
      BucketPush(xs, x, key, k);
    }
  }

  lemma NothingGrouped<S, K(!new)>(key: S -> K)
    ensures Grouped(map[], [], [], key)
  {}

  lemma GroupedKnows<S, K(!new)>(buckets: map<K, seq<S>>, order: seq<K>, xs: seq<S>, key: S -> K)
    requires Grouped(buckets, order, xs, key)
    ensures order == BucketKeys(xs, key)
    ensures forall i :: 0 <= i < |order| ==>
              order[i] in buckets && buckets[order[i]] == Bucket(xs, key, order[i]) && buckets[order[i]] != []
  {
    hide Bucket, BucketKeys;
    forall i | 0 <= i < |order| ensures Bucket(xs, key, order[i]) != [] { BucketKeysHold(xs, key, order[i]); }
  }

  /** Filling a `defaultdict(list)`. */
  method GroupBy<S, K(==, !new)>(xs: seq<S>, key: S -> K) returns (buckets: map<K, seq<S>>, order: seq<K>)
    ensures Grouped(buckets, order, xs, key)
  {
    hide Grouped, Appended;
    buckets, order := map[], [];
    NothingGrouped<S, K>(key);
    for i := 0 to |xs|
      invariant Grouped(buckets, order, xs[..i], key)
    {
      var x := xs[i];
      GroupStep(buckets, order, xs[..i], key, x);
      assert xs[..i + 1] == xs[..i] + [x];
      order := if key(x) in buckets then order else order + [key(x)];
      buckets := Appended(buckets, key(x), x);
    }
    assert xs[..|xs|] == xs;
  }

  /** Reordering the elements reorders the keys and each bucket. */
  lemma BucketsPermute<S, K>(xs: seq<S>, ys: seq<S>, key: S -> K)
    requires multiset(xs) == multiset(ys)
    ensures multiset(BucketKeys(xs, key)) == multiset(BucketKeys(ys, key))
    ensures forall k :: multiset(Bucket(xs, key, k)) == multiset(Bucket(ys, key, k))
  {
    forall k ensures multiset(Bucket(xs, key, k)) == multiset(Bucket(ys, key, k)) {
      FlatMapPermutes(xs, ys, IfKey(key, k));
    }
    FlatMapPermutes(xs, ys, JustKey(key));
    var f, g := FlatMap(xs, JustKey(key)), FlatMap(ys, JustKey(key));
    FirstsHold(f);
    FirstsHold(g);
    assert forall k :: k in multiset(f) <==> k in multiset(g);
    assert forall k :: (k in f <==> k in multiset(f)) && (k in g <==> k in multiset(g));
    SameMembers(BucketKeys(xs, key), BucketKeys(ys, key));
  }

  function BucketOf<S, K(==)>(xs: seq<S>, key: S -> K): K -> seq<S> { (k: K) => Bucket(xs, key, k) }

  lemma {:induction false} AddToOne<K, T>(ks: seq<K>, f: K -> seq<T>, g: K -> seq<T>, k0: K, x: T)
    requires NoDuplicates(ks) && forall k :: k in ks && k != k0 ==> g(k) == f(k)
    requires multiset(g(k0)) == multiset(f(k0)) + multiset{x}
    ensures multiset(FlatMap(ks, g)) == multiset(FlatMap(ks, f)) + if k0 in ks then multiset{x} else multiset{}
  {
    if ks != [] {
      var front, last := ks[..|ks| - 1], ks[|ks| - 1];
      assert ks == front + [last];
      AddToOne(front, f, g, k0, x);
    }
  }

  /** The buckets hold every element once. */
  lemma {:induction false} BucketsPartition<S, K(!new)>(xs: seq<S>, key: S -> K)
    ensures multiset(FlatMap(BucketKeys(xs, key), BucketOf(xs, key))) == multiset(xs)
  {
    if xs != [] {
      var front, x := xs[..|xs| - 1], xs[|xs| - 1];
      assert xs == front + [x];
      var k0, ks := key(x), BucketKeys(xs, key);
      BucketsPartition(front, key);
      BucketKeysPush(front, x, key);
      BucketKeysHold(xs, key, k0);
      BucketKeysHold(front, key, k0);
      forall k
        ensures Bucket(xs, key, k) == Bucket(front, key, k) + if k == k0 then [x] else []
      {
        BucketPush(front, x, key, k);
      }
      AddToOne(ks, BucketOf(front, key), BucketOf(xs, key), k0, x);
      assert k0 in ks;
      if k0 !in BucketKeys(front, key) {
        FlatMapPush(BucketKeys(front, key), k0, BucketOf(front, key));
        assert BucketOf(front, key)(k0) == [];
      }
    }
  }

  /** As many keys as there are distinct ones. */
  lemma {:induction false} FirstsSize<T>(xs: seq<T>)
    ensures |Firsts(xs)| == |set x | x in xs| <= |xs|
  {
    var s := set x | x in xs;
    if xs == [] {
      assert s == {};
    } else {
      var front, last := xs[..|xs| - 1], xs[|xs| - 1];
      assert xs == front + [last];
      FirstsSize(front);
      FirstsHold(front);
      var t := set x | x in front;
      assert s == t + {last};
      assert last in t <==> last in Firsts(front);
      if last in t { assert s == t; }
    }
  }

  function IndexOf<T(==)>(xs: seq<T>, x: T): (k: nat)
    ensures x in xs ==> k < |xs| && xs[k] == x
  {
    if xs == [] || xs[0] == x then 0 else 1 + IndexOf(xs[1..], x)
  }

  lemma IndexWhere<T>(xs: seq<T>, k: nat)
    requires NoDuplicates(xs) && k < |xs|
    ensures IndexOf(xs, xs[k]) == k
  {}

  // ---- Sums ---------------------------------------------------------------------------------------------

  function Sum(xs: seq<real>): real
  {
    if xs == [] then 0.0 else Sum(xs[..|xs| - 1]) + xs[|xs| - 1]
  }

  lemma {:induction false} SumAppend(xs: seq<real>, ys: seq<real>)
    ensures Sum(xs + ys) == Sum(xs) + Sum(ys)
  {
    if ys == [] {
      assert xs + ys == xs;
    } else {
      SumAppend(xs, ys[..|ys| - 1]);
      assert (xs + ys)[..|xs + ys| - 1] == xs + ys[..|ys| - 1];
    }
  }

  lemma {:induction false} SumPermutes(xs: seq<real>, ys: seq<real>)
    requires multiset(xs) == multiset(ys)
    ensures Sum(xs) == Sum(ys) && |xs| == |ys|
  {
    if xs == [] {
      assert |ys| == |multiset(ys)| == 0;
    } else {
      var front, last := xs[..|xs| - 1], xs[|xs| - 1];
      assert xs == front + [last];
      assert last in multiset(ys);
      var k := TakeOut(ys, last);
      SumPermutes(front, ys[..k] + ys[k + 1..]);
      SumAppend(ys[..k], ys[k + 1..]);
      SumAppend(ys[..k] + [last], ys[k + 1..]);
      SumAppend(ys[..k], [last]);
      assert [last][..0] == [];
    }
  }
}
