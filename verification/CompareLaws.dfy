/**
 What a comparison promises: it does not depend on the order of its inputs, and it accounts for every
 candidate run once.
 */
module CompareLaws {
  import opened Collections
  import opened Listing
  import opened Sorting
  import opened ResultsAnalyzer
  import opened Compare

  // ---- Reordered inputs -----------------------------------------------------------------------------------

  /** The same experiment with its runs and results in another order. */
  ghost predicate SameBundle(a: Bundle, b: Bundle)
  {
    a.experiment == b.experiment && multiset(a.runs) == multiset(b.runs) && multiset(a.results) == multiset(b.results)
  }

  ghost predicate Pairwise(xs: seq<Bundle>, mid: seq<Bundle>)
  {
    |mid| == |xs| && forall i :: 0 <= i < |xs| ==> SameBundle(xs[i], mid[i])
  }

  /** Bundles in another order, each with its runs and results in another order. */
  ghost predicate Reordered(xs: seq<Bundle>, ys: seq<Bundle>)
  {
    exists mid :: Pairwise(xs, mid) && multiset(mid) == multiset(ys)
  }

  function IdOfRun(): RunDoc -> seq<RunId> { (r: RunDoc) => [r.id] }

  function RunIdsIn(): Bundle -> seq<RunId> { (b: Bundle) => FlatMap(b.runs, IdOfRun()) }

  /** No two runs of any experiments share an id. */
  ghost predicate DistinctRuns(bundles: seq<Bundle>) { NoDuplicates(FlatMap(bundles, RunIdsIn())) }

  ghost predicate DistinctIds(candidates: seq<Candidate>)
  {
    forall i, j :: 0 <= i < j < |candidates| ==> candidates[i].Id() != candidates[j].Id()
  }

  lemma {:induction false} PairwiseFlatMap<T>(xs: seq<Bundle>, mid: seq<Bundle>, f: Bundle -> seq<T>)
    requires |mid| == |xs| && forall i :: 0 <= i < |xs| ==> multiset(f(xs[i])) == multiset(f(mid[i]))
    ensures multiset(FlatMap(xs, f)) == multiset(FlatMap(mid, f))
  {
    if xs != [] { PairwiseFlatMap(xs[..|xs| - 1], mid[..|mid| - 1], f); }
  }

  lemma SameBundleCandidates(a: Bundle, b: Bundle, setup: Setup)
    requires SameBundle(a, b)
    ensures multiset(CandidatesOf(a, setup)) == multiset(CandidatesOf(b, setup))
  {
    assert forall q :: q in a.results <==> q in multiset(a.results);
    assert forall q :: q in b.results <==> q in multiset(b.results);
    assert WithResults(a.results) == WithResults(b.results);
    FlatMapPermutes(a.runs, b.runs,
                    CandidateFrom(a.experiment, WithResults(a.results), QuestionsSha(a.experiment, setup)));
  }

  lemma ReorderedCandidates(xs: seq<Bundle>, ys: seq<Bundle>, setup: Setup)
    requires Reordered(xs, ys)
    ensures multiset(AllCandidates(xs, setup)) == multiset(AllCandidates(ys, setup))
    ensures multiset(FlatMap(xs, ResultsIn())) == multiset(FlatMap(ys, ResultsIn()))
  {
    var mid :| Pairwise(xs, mid) && multiset(mid) == multiset(ys);
    forall i | 0 <= i < |xs| ensures multiset(CandidatesIn(setup)(xs[i])) == multiset(CandidatesIn(setup)(mid[i])) {
      SameBundleCandidates(xs[i], mid[i], setup);
    }
    PairwiseFlatMap(xs, mid, CandidatesIn(setup));
    PairwiseFlatMap(xs, mid, ResultsIn());
    FlatMapPermutes(mid, ys, CandidatesIn(setup));
    FlatMapPermutes(mid, ys, ResultsIn());
  }

  // ---- Distinct ids -----------------------------------------------------------------------------------------

  function IdOnly(): Candidate -> seq<RunId> { (c: Candidate) => [c.Id()] }

  lemma OneId(found: seq<Candidate>, r: RunDoc)
    requires found == [] || (|found| == 1 && found[0].Id() == r.id)
    ensures multiset(FlatMap(found, IdOnly())) <= multiset{r.id}
  {}

  lemma {:induction false} CandidateIdsIn(runs: seq<RunDoc>, from: RunDoc -> seq<Candidate>)
    requires forall r :: r in runs ==> from(r) == [] || (|from(r)| == 1 && from(r)[0].Id() == r.id)
    ensures multiset(FlatMap(FlatMap(runs, from), IdOnly())) <= multiset(FlatMap(runs, IdOfRun()))
  {
    if runs != [] {
      var front, last := runs[..|runs| - 1], runs[|runs| - 1];
      CandidateIdsIn(front, from);
      FlatMapAppend(FlatMap(front, from), from(last), IdOnly());
      OneId(from(last), last);
      var found, ids := FlatMap(FlatMap(front, from), IdOnly()), FlatMap(front, IdOfRun());
      assert multiset(found + FlatMap(from(last), IdOnly())) <= multiset(ids + [last.id]);
    }
  }

  lemma {:induction false} AllCandidateIdsIn(bundles: seq<Bundle>, setup: Setup)
    ensures multiset(FlatMap(AllCandidates(bundles, setup), IdOnly())) <= multiset(FlatMap(bundles, RunIdsIn()))
  {
    if bundles != [] {
      var front, b := bundles[..|bundles| - 1], bundles[|bundles| - 1];
      AllCandidateIdsIn(front, setup);
      FlatMapAppend(AllCandidates(front, setup), CandidatesOf(b, setup), IdOnly());
      if b.experiment.eligible {
        CandidateIdsIn(b.runs, CandidateFrom(b.experiment, WithResults(b.results), QuestionsSha(b.experiment, setup)));
      }
    }
  }

  lemma FewerDuplicates<T>(xs: seq<T>, ys: seq<T>)
    requires multiset(xs) <= multiset(ys) && NoDuplicates(ys)
    ensures NoDuplicates(xs)
  {
    CountsAtMostOne(ys);
    forall i, j | 0 <= i < j < |xs| ensures xs[i] != xs[j] {
      if xs[i] == xs[j] {
        TwiceCounted(xs, i, j);
      }
    }
  }

  lemma {:induction false} IdsInOrder(candidates: seq<Candidate>)
    ensures var ids := FlatMap(candidates, IdOnly());
            |ids| == |candidates| && forall i :: 0 <= i < |ids| ==> ids[i] == candidates[i].Id()
  {
    if candidates != [] { IdsInOrder(candidates[..|candidates| - 1]); }
  }

  lemma CandidatesDistinct(bundles: seq<Bundle>, setup: Setup)
    requires DistinctRuns(bundles)
    ensures DistinctIds(AllCandidates(bundles, setup))
  {
    var candidates := AllCandidates(bundles, setup);
    AllCandidateIdsIn(bundles, setup);
    FewerDuplicates(FlatMap(candidates, IdOnly()), FlatMap(bundles, RunIdsIn()));
    IdsInOrder(candidates);
  }

  lemma SameIdSame(candidates: seq<Candidate>, a: Candidate, b: Candidate)
    requires DistinctIds(candidates) && a in candidates && b in candidates && a.Id() == b.Id()
    ensures a == b
  {}

  lemma DistinctIdsPermute(xs: seq<Candidate>, ys: seq<Candidate>)
    requires DistinctIds(xs) && multiset(ys) <= multiset(xs)
    ensures DistinctIds(ys)
  {
    forall i, j | 0 <= i < j < |ys| ensures ys[i].Id() != ys[j].Id() {
      assert ys[i] in multiset(xs) && ys[j] in multiset(xs);
      if ys[i].Id() == ys[j].Id() {
        SameIdSame(xs, ys[i], ys[j]);
        TwiceCounted(ys, i, j);
        var m, n := TwiceFound(xs, ys[i]);
        assert false;
      }
    }
  }

  // ---- The choice in each slot --------------------------------------------------------------------------------

  lemma {:induction false} LatestIs(members: seq<Candidate>)
    requires members != []
    ensures Latest(members) in members
    ensures forall c :: c in members ==>
              || Latest(members).experiment.stamp > c.experiment.stamp
              || (Latest(members).experiment.stamp == c.experiment.stamp && Latest(members).Id() <= c.Id())
  {
    if |members| > 1 {
      var front, last := members[..|members| - 1], members[|members| - 1];
      assert members == front + [last];
      LatestIs(front);
    }
  }

  lemma LatestPermutes(xs: seq<Candidate>, ys: seq<Candidate>)
    requires xs != [] && multiset(xs) == multiset(ys) && DistinctIds(xs)
    ensures ys != [] && Latest(xs) == Latest(ys)
  {
    assert |xs| == |multiset(xs)| == |multiset(ys)| == |ys|;
    LatestIs(xs);
    LatestIs(ys);
    assert Latest(ys) in multiset(xs) && Latest(xs) in multiset(ys);
    assert Latest(ys) in xs && Latest(xs) in ys;
    SameIdSame(xs, Latest(xs), Latest(ys));
  }

  lemma BucketWithin<K>(xs: seq<Candidate>, key: Candidate -> K, k: K)
    ensures multiset(Bucket(xs, key, k)) <= multiset(xs)
  {
    BucketSub(xs, key, k);
  }

  lemma {:induction false} BucketSub<K>(xs: seq<Candidate>, key: Candidate -> K, k: K)
    ensures multiset(FlatMap(xs, IfKey(key, k))) <= multiset(xs)
  {
    if xs != [] {
      BucketSub(xs[..|xs| - 1], key, k);
      assert xs == xs[..|xs| - 1] + [xs[|xs| - 1]];
    }
  }

  lemma LatestPerSlotPermutes(xs: seq<Candidate>, ys: seq<Candidate>)
    requires multiset(xs) == multiset(ys) && DistinctIds(xs)
    ensures multiset(LatestPerSlot(xs)) == multiset(LatestPerSlot(ys))
  {
    BucketsPermute(xs, ys, SlotOf);
    forall slot | slot in Slots(xs) ensures LatestIn(xs)(slot) == LatestIn(ys)(slot) {
      BucketKeysHold(xs, SlotOf, slot);
      BucketWithin(xs, SlotOf, slot);
      DistinctIdsPermute(xs, Bucket(xs, SlotOf, slot));
      LatestPermutes(Bucket(xs, SlotOf, slot), Bucket(ys, SlotOf, slot));
    }
    FlatMapSame(Slots(xs), LatestIn(xs), LatestIn(ys));
    FlatMapPermutes(Slots(xs), Slots(ys), LatestIn(ys));
  }

  // ---- A group's ranking --------------------------------------------------------------------------------------

  ghost predicate DistinctKeys(members: seq<Candidate>)
  {
    forall i, j :: 0 <= i < j < |members| ==> members[i].ConfigKey() != members[j].ConfigKey()
  }

  function HitsAs(key: Key): QueryResult -> seq<Scored> { (q: QueryResult) => FlatMap(q.hits, ScoredAs(key, q.text)) }

  /** A member's own hits, under its own configuration. */
  function OwnHits(results: Results): Candidate -> seq<Scored>
  {
    (c: Candidate) => FlatMap(ResultsFor(results)(c), HitsAs(c.ConfigKey()))
  }

  /** Some query of the run retrieved something. */
  predicate HasHits(results: Results, c: Candidate) { OwnHits(results)(c) != [] }

  function KeyIfHit(results: Results): Candidate -> seq<Key>
  {
    (c: Candidate) => if HasHits(results, c) then [c.ConfigKey()] else []
  }

  lemma RunKeyOf(members: seq<Candidate>, c: Candidate)
    requires DistinctIds(members) && c in members
    ensures KeyFor(c.Id(), RunKeys(members)) == c.ConfigKey()
  {}

  lemma GroupHitsAreOwn(members: seq<Candidate>, results: Results)
    requires DistinctIds(members)
    ensures GroupHits(members, results) == FlatMap(members, OwnHits(results))
  {
    var keys := RunKeys(members);
    FlatMapNested(members, ResultsFor(results), HitsIn(keys));
    forall c | c in members ensures Nested(ResultsFor(results), HitsIn(keys))(c) == OwnHits(results)(c) {
      RunKeyOf(members, c);
      FlatMapSame(ResultsFor(results)(c), HitsIn(keys), HitsAs(c.ConfigKey()));
    }
    FlatMapSame(members, Nested(ResultsFor(results), HitsIn(keys)), OwnHits(results));
  }

  lemma OwnHitKeys(results: Results, c: Candidate)
    ensures forall k :: k in Nested(OwnHits(results), KeyOnly())(c) ==> k == c.ConfigKey()
    ensures Nested(OwnHits(results), KeyOnly())(c) == [] <==> !HasHits(results, c)
  {
    var own := OwnHits(results)(c);
    forall k | k in FlatMap(own, KeyOnly()) ensures k == c.ConfigKey() {
      FlatMapHolds(own, KeyOnly(), k);
      var h :| h in own && k in KeyOnly()(h);
      FlatMapHolds(ResultsFor(results)(c), HitsAs(c.ConfigKey()), h);
      var q :| q in ResultsFor(results)(c) && h in HitsAs(c.ConfigKey())(q);
      FlatMapHolds(q.hits, ScoredAs(c.ConfigKey(), q.text), h);
    }
    if own != [] {
      FlatMapHolds(own, KeyOnly(), own[0].key);
      assert own[0] in own && own[0].key in KeyOnly()(own[0]);
    }
  }

  /** Configurations appear in the order of the members that have hits. */
  lemma {:induction false} KeysInMemberOrder(members: seq<Candidate>, results: Results)
    requires DistinctKeys(members)
    ensures Firsts(FlatMap(members, Nested(OwnHits(results), KeyOnly()))) == FlatMap(members, KeyIfHit(results))
  {
    if members != [] {
      var front, last := members[..|members| - 1], members[|members| - 1];
      var f := Nested(OwnHits(results), KeyOnly());
      KeysInMemberOrder(front, results);
      OwnHitKeys(results, last);
      FirstsOfCopies(FlatMap(front, f), f(last), last.ConfigKey());
      if last.ConfigKey() in FlatMap(front, f) {
        FlatMapHolds(front, f, last.ConfigKey());
        var c :| c in front && last.ConfigKey() in f(c);
        OwnHitKeys(results, c);
        assert false;
      }
    }
  }

  lemma GroupKeys(members: seq<Candidate>, results: Results)
    requires DistinctIds(members) && DistinctKeys(members)
    ensures KeysOf(GroupHits(members, results)) == FlatMap(members, KeyIfHit(results))
  {
    GroupHitsAreOwn(members, results);
    FlatMapNested(members, OwnHits(results), KeyOnly());
    KeysInMemberOrder(members, results);
  }

  /** Two filings of the same results. */
  ghost predicate SameResults(a: Results, b: Results)
  {
    forall c: Candidate :: multiset(ResultsFor(a)(c)) == multiset(ResultsFor(b)(c))
  }

  lemma OwnHitsSimilar(a: Results, b: Results, c: Candidate)
    requires SameResults(a, b)
    ensures multiset(OwnHits(a)(c)) == multiset(OwnHits(b)(c))
    ensures HasHits(a, c) <==> HasHits(b, c)
  {
    FlatMapPermutes(ResultsFor(a)(c), ResultsFor(b)(c), HitsAs(c.ConfigKey()));
    assert |OwnHits(a)(c)| == |multiset(OwnHits(a)(c))| == |multiset(OwnHits(b)(c))| == |OwnHits(b)(c)|;
  }

  lemma EntriesSimilar(members: seq<Candidate>, a: Results, b: Results, setup: Setup)
    requires DistinctIds(members) && DistinctKeys(members) && SameResults(a, b)
    ensures RankedEntries(members, a, setup) == RankedEntries(members, b, setup)
  {
    var hitsA, hitsB := GroupHits(members, a), GroupHits(members, b);
    forall c | c in members
      ensures multiset(OwnHits(a)(c)) == multiset(OwnHits(b)(c)) && KeyIfHit(a)(c) == KeyIfHit(b)(c)
    {
      OwnHitsSimilar(a, b, c);
    }
    GroupHitsAreOwn(members, a);
    GroupHitsAreOwn(members, b);
    FlatMapSimilar(members, OwnHits(a), OwnHits(b));
    GroupKeys(members, a);
    GroupKeys(members, b);
    FlatMapSame(members, KeyIfHit(a), KeyIfHit(b));
    EntriesPermute(hitsA, hitsB, setup.round);
  }

  lemma EntriesPermute(a: seq<Scored>, b: seq<Scored>, round: real -> int)
    requires multiset(a) == multiset(b) && KeysOf(a) == KeysOf(b)
    ensures Entries(a, round) == Entries(b, round)
  {
    ScalePermutes(a, b, round);
    var scale := Scale(a, round);
    forall key ensures EntryOf(a, scale, round)(key) == EntryOf(b, scale, round)(key) {
      EntryPermutes(a, b, key, scale, round);
    }
    FlatMapSame(KeysOf(a), EntryOf(a, scale, round), EntryOf(b, scale, round));
  }

  lemma ByIdIsKeyOrder()
    ensures IsKeyOrder(ById())
  {}

  lemma RankedRowsPermute(xs: seq<Candidate>, ys: seq<Candidate>, a: Results, b: Results, setup: Setup)
    requires multiset(xs) == multiset(ys) && DistinctIds(xs) && DistinctKeys(xs) && SameResults(a, b)
    ensures RankedRows(xs, a, setup) == RankedRows(ys, b, setup)
  {
    ByIdIsKeyOrder();
    TotalSortIsUnique(xs, ys, ById());
    var ordered := StableSort(xs, ById());
    DistinctIdsPermute(xs, ordered);
    DistinctKeysPermute(xs, ordered);
    LookupNeverMisses(ordered, a, setup);
    LookupNeverMisses(ordered, b, setup);
    hide RankedEntries, RowsFor, StableSort;
    EntriesSimilar(ordered, a, b, setup);
  }

  lemma DistinctKeysPermute(xs: seq<Candidate>, ys: seq<Candidate>)
    requires DistinctKeys(xs) && multiset(ys) <= multiset(xs)
    ensures DistinctKeys(ys)
  {
    forall i, j | 0 <= i < j < |ys| ensures ys[i].ConfigKey() != ys[j].ConfigKey() {
      assert ys[i] in multiset(xs) && ys[j] in multiset(xs);
      var m :| 0 <= m < |xs| && xs[m] == ys[i];
      var n :| 0 <= n < |xs| && xs[n] == ys[j];
      if ys[i] == ys[j] {
        TwiceCounted(ys, i, j);
        var k, l := TwiceFound(xs, ys[i]);
      }
    }
  }

  // ---- The comparison does not depend on the order of its inputs ----------------------------------------------

  /** A candidate's group holds its configuration. */
  ghost predicate WellGrouped(c: Candidate)
  {
    c.group.columns == c.run.columns && c.group.chunkSize == c.run.chunkSize && c.group.overlap == c.run.overlap
    && c.group.padding == c.run.padding
  }

  lemma CandidateShape(bundles: seq<Bundle>, setup: Setup, c: Candidate)
    requires c in AllCandidates(bundles, setup)
    ensures WellGrouped(c)
  {
    FlatMapHolds(bundles, CandidatesIn(setup), c);
    var b :| b in bundles && c in CandidatesIn(setup)(b);
    var from := CandidateFrom(b.experiment, WithResults(b.results), QuestionsSha(b.experiment, setup));
    FlatMapHolds(b.runs, from, c);
  }

  lemma ChosenHold(candidates: seq<Candidate>, c: Candidate)
    requires c in LatestPerSlot(candidates)
    ensures c in candidates && Bucket(candidates, SlotOf, SlotOf(c)) != []
            && c == Latest(Bucket(candidates, SlotOf, SlotOf(c)))
  {
    FlatMapHolds(Slots(candidates), LatestIn(candidates), c);
    var slot :| slot in Slots(candidates) && c in LatestIn(candidates)(slot);
    LatestIs(Bucket(candidates, SlotOf, slot));
    BucketHolds(candidates, SlotOf, slot, c);
  }

  /** One choice per slot. */
  lemma {:induction false} ChosenSlots(candidates: seq<Candidate>, slots: seq<Slot>)
    requires NoDuplicates(slots) && forall slot :: slot in slots ==> Bucket(candidates, SlotOf, slot) != []
    ensures var chosen := FlatMap(slots, LatestIn(candidates));
            |chosen| == |slots| && forall i :: 0 <= i < |slots| ==> SlotOf(chosen[i]) == slots[i]
  {
    if slots != [] {
      var front, last := slots[..|slots| - 1], slots[|slots| - 1];
      assert slots == front + [last];
      ChosenSlots(candidates, front);
      LatestIs(Bucket(candidates, SlotOf, last));
      BucketHolds(candidates, SlotOf, last, Latest(Bucket(candidates, SlotOf, last)));
    }
  }

  lemma OnePerSlot(candidates: seq<Candidate>)
    ensures var chosen := LatestPerSlot(candidates);
            |chosen| == |Slots(candidates)|
            && forall i, j :: 0 <= i < j < |chosen| ==> SlotOf(chosen[i]) != SlotOf(chosen[j])
  {
    forall slot | slot in Slots(candidates)
      ensures Bucket(candidates, SlotOf, slot) != []
    {
      BucketKeysHold(candidates, SlotOf, slot);
    }
    FirstsHold(FlatMap(candidates, JustKey(SlotOf)));
    ChosenSlots(candidates, Slots(candidates));
  }

  /** What the later stages rely on of the chosen candidates. */
  ghost predicate Proper(chosen: seq<Candidate>)
  {
    && DistinctIds(chosen) && (forall c :: c in chosen ==> WellGrouped(c))
    && forall i, j :: 0 <= i < j < |chosen| ==> SlotOf(chosen[i]) != SlotOf(chosen[j])
  }

  lemma ChosenProper(bundles: seq<Bundle>, setup: Setup)
    requires DistinctRuns(bundles)
    ensures Proper(LatestPerSlot(AllCandidates(bundles, setup)))
  {
    var candidates := AllCandidates(bundles, setup);
    var chosen := LatestPerSlot(candidates);
    CandidatesDistinct(bundles, setup);
    OnePerSlot(candidates);
    forall c | c in chosen ensures c in candidates && WellGrouped(c) {
      ChosenHold(candidates, c);
      CandidateShape(bundles, setup, c);
    }
    forall i, j | 0 <= i < j < |chosen| ensures chosen[i].Id() != chosen[j].Id() {
      assert chosen[i] in chosen && chosen[j] in chosen;
      if chosen[i].Id() == chosen[j].Id() { SameIdSame(candidates, chosen[i], chosen[j]); }
    }
  }

  /** The members of one group differ in their store, and so in their configuration key. */
  lemma GroupProper(chosen: seq<Candidate>, id: GroupId)
    requires Proper(chosen)
    ensures var members := Bucket(chosen, GroupOf, id); DistinctIds(members) && DistinctKeys(members)
  {
    var members := Bucket(chosen, GroupOf, id);
    BucketWithin(chosen, GroupOf, id);
    DistinctIdsPermute(chosen, members);
    forall i, j | 0 <= i < j < |members| ensures members[i].ConfigKey() != members[j].ConfigKey() {
      BucketHolds(chosen, GroupOf, id, members[i]);
      BucketHolds(chosen, GroupOf, id, members[j]);
      var m :| 0 <= m < |chosen| && chosen[m] == members[i];
      var n :| 0 <= n < |chosen| && chosen[n] == members[j];
    }
  }

  function RunOf(q: QueryResult): RunId { q.run }

  lemma {:induction false} FiledUnder(all: seq<QueryResult>, c: Candidate)
    ensures ResultsFor(ResultsByRun(all))(c) == FlatMap(all, IfKey(RunOf, c.Id()))
  {
    if all != [] {
      var front, q := all[..|all| - 1], all[|all| - 1];
      FiledUnder(front, c);
      assert ResultsByRun(all) == Appended(ResultsByRun(front), q.run, q);
      assert FlatMap(front, IfKey(RunOf, c.Id())) + [] == FlatMap(front, IfKey(RunOf, c.Id()));
    }
  }

  lemma FilingPermutes(xs: seq<QueryResult>, ys: seq<QueryResult>)
    requires multiset(xs) == multiset(ys)
    ensures SameResults(ResultsByRun(xs), ResultsByRun(ys))
  {
    forall c: Candidate ensures multiset(ResultsFor(ResultsByRun(xs))(c)) == multiset(ResultsFor(ResultsByRun(ys))(c)) {
      FiledUnder(xs, c);
      FiledUnder(ys, c);
      FlatMapPermutes(xs, ys, IfKey(RunOf, c.Id()));
    }
  }

  lemma BestFirstIsKeyOrder(setup: Setup)
    ensures IsKeyOrder(BestFirst(setup))
  {}

  lemma {:induction false} GroupsCarryTheirIds(ids: seq<GroupId>, chosen: seq<Candidate>, results: Results,
                                               setup: Setup)
    requires NoDuplicates(ids)
    ensures var groups := FlatMap(ids, RankedGroup(chosen, results, setup));
            && (forall g :: g in groups ==> g.id in ids)
            && (forall i, j :: 0 <= i < j < |groups| ==> groups[i].id != groups[j].id)
  {
    hide RankedRows;
    if ids != [] {
      var front, last := ids[..|ids| - 1], ids[|ids| - 1];
      assert ids == front + [last];
      GroupsCarryTheirIds(front, chosen, results, setup);
      var groups := FlatMap(front, RankedGroup(chosen, results, setup));
      forall g | g in groups ensures g.id != last { assert g.id in front; }
    }
  }

  lemma RankedGroupsPermute(xs: seq<Candidate>, ys: seq<Candidate>, a: Results, b: Results, setup: Setup)
    requires multiset(xs) == multiset(ys) && Proper(xs) && SameResults(a, b)
    ensures multiset(RankedGroups(xs, a, setup)) == multiset(RankedGroups(ys, b, setup))
  {
    var ids := BucketKeys(xs, GroupOf);
    BucketsPermute(xs, ys, GroupOf);
    forall id ensures RankedGroup(xs, a, setup)(id) == RankedGroup(ys, b, setup)(id) {
      GroupProper(xs, id);
      RankedRowsPermute(Bucket(xs, GroupOf, id), Bucket(ys, GroupOf, id), a, b, setup);
    }
    hide RankedGroup;
    FlatMapSame(ids, RankedGroup(xs, a, setup), RankedGroup(ys, b, setup));
    FlatMapPermutes(ids, BucketKeys(ys, GroupOf), RankedGroup(ys, b, setup));
  }

  /** A digest that tells groups apart. */
  ghost predicate Injective(digest: GroupId -> int) { forall a, b :: digest(a) == digest(b) ==> a == b }

  lemma GroupsApart(groups: seq<Group>, setup: Setup)
    requires Injective(setup.digest) && forall i, j :: 0 <= i < j < |groups| ==> groups[i].id != groups[j].id
    ensures forall i, j :: 0 <= i < j < |groups| ==>
              BestFirst(setup)(groups[i], groups[j]) || BestFirst(setup)(groups[j], groups[i])
  {}

  lemma RankedGroupsApart(chosen: seq<Candidate>, results: Results, setup: Setup)
    ensures var groups := RankedGroups(chosen, results, setup);
            forall i, j :: 0 <= i < j < |groups| ==> groups[i].id != groups[j].id
  {
    hide RankedGroup;
    FirstsHold(FlatMap(chosen, JustKey(GroupOf)));
    GroupsCarryTheirIds(BucketKeys(chosen, GroupOf), chosen, results, setup);
    assert RankedGroups(chosen, results, setup) ==
        FlatMap(BucketKeys(chosen, GroupOf), RankedGroup(chosen, results, setup));
  }

  lemma GroupsSortTheSame(xs: seq<Candidate>, ys: seq<Candidate>, a: Results, b: Results, setup: Setup)
    requires multiset(xs) == multiset(ys) && Proper(xs) && SameResults(a, b) && Injective(setup.digest)
    ensures StableSort(RankedGroups(xs, a, setup), BestFirst(setup)) ==
              StableSort(RankedGroups(ys, b, setup), BestFirst(setup))
  {
    hide BestFirst, RankedGroups, Proper, SameResults, Injective, StableSort;
    RankedGroupsPermute(xs, ys, a, b, setup);
    BestFirstIsKeyOrder(setup);
    var groups := RankedGroups(xs, a, setup);
    RankedGroupsApart(xs, a, setup);
    GroupsApart(groups, setup);
    TotalSortIsUnique(groups, RankedGroups(ys, b, setup), BestFirst(setup));
  }

  lemma DuplicatesPermute(xs: seq<Candidate>, ys: seq<Candidate>)
    requires multiset(xs) == multiset(ys)
    ensures DuplicatesCollapsed(FlatMap(xs, JustKey(SlotOf))) == DuplicatesCollapsed(FlatMap(ys, JustKey(SlotOf)))
  {
    FlatMapPermutes(xs, ys, JustKey(SlotOf));
    BucketsPermute(xs, ys, SlotOf);
    SameSize(FlatMap(xs, JustKey(SlotOf)), FlatMap(ys, JustKey(SlotOf)));
    SameSize(Slots(xs), Slots(ys));
    FirstsSize(FlatMap(xs, JustKey(SlotOf)));
    FirstsSize(FlatMap(ys, JustKey(SlotOf)));
  }

  lemma SameSize<T>(xs: seq<T>, ys: seq<T>)
    requires multiset(xs) == multiset(ys)
    ensures |xs| == |ys|
  {
    assert |xs| == |multiset(xs)| == |multiset(ys)| == |ys|;
  }

  /** For distinct run ids, the whole report is the same for every order of the bundles, of the runs in
      them and of the results in them. */
  lemma OrderDoesNotMatter(xs: seq<Bundle>, ys: seq<Bundle>, setup: Setup)
    requires Reordered(xs, ys) && DistinctRuns(xs) && Injective(setup.digest)
    ensures Compared(xs, setup) == Compared(ys, setup)
  {
    var a, b := AllCandidates(xs, setup), AllCandidates(ys, setup);
    ReorderedCandidates(xs, ys, setup);
    CandidatesDistinct(xs, setup);
    LatestPerSlotPermutes(a, b);
    ChosenProper(xs, setup);
    FilingPermutes(FlatMap(xs, ResultsIn()), FlatMap(ys, ResultsIn()));
    DuplicatesPermute(a, b);
    hide AllCandidates, LatestPerSlot, ResultsByRun, RankedGroups, DuplicatesCollapsed, Summary;
    GroupsSortTheSame(LatestPerSlot(a), LatestPerSlot(b), ResultsByRun(FlatMap(xs, ResultsIn())),
                      ResultsByRun(FlatMap(ys, ResultsIn())), setup);
  }

  // ---- Every candidate is accounted for once ------------------------------------------------------------------

  function IfHit(results: Results): Candidate -> seq<Candidate>
  {
    (c: Candidate) => if HasHits(results, c) then [c] else []
  }

  function IfUnscored(results: Results): Candidate -> seq<Candidate>
  {
    (c: Candidate) => if HasHits(results, c) then [] else [c]
  }

  function RunOfRow(): Row -> seq<Candidate> { (r: Row) => [r.candidate] }

  function RunOfEntry(byKey: map<Key, Candidate>): Entry -> seq<Candidate>
  {
    (e: Entry) => if e.key in byKey then [byKey[e.key]] else []
  }

  function RunOfKey(byKey: map<Key, Candidate>): Key -> seq<Candidate>
  {
    (k: Key) => if k in byKey then [byKey[k]] else []
  }

  lemma {:induction false} RowsInEntryOrder(entries: seq<Entry>, byKey: map<Key, Candidate>)
    requires KeysKnown(entries, byKey)
    ensures var rows := RowsFor(entries, byKey);
            && |rows| == |entries|
            && (forall i :: 0 <= i < |rows| ==>
                 rows[i].entry == entries[i] && rows[i].rank == i + 1 && rows[i].candidate == byKey[entries[i].key])
            && FlatMap(rows, RunOfRow()) == FlatMap(entries, RunOfEntry(byKey))
  {
    if entries != [] { RowsInEntryOrder(entries[..|entries| - 1], byKey); }
  }

  lemma EntriesByKey(keys: seq<Key>, hits: seq<Scored>, scale: real -> int, round: real -> int,
                     byKey: map<Key, Candidate>)
    ensures FlatMap(FlatMap(keys, EntryOf(hits, scale, round)), RunOfEntry(byKey)) == FlatMap(keys, RunOfKey(byKey))
  {
    FlatMapNested(keys, EntryOf(hits, scale, round), RunOfEntry(byKey));
    forall k | k in keys ensures Nested(EntryOf(hits, scale, round), RunOfEntry(byKey))(k) == RunOfKey(byKey)(k) {
      assert EntryFor(hits, k, scale, round).key == k;
      assert EntryOf(hits, scale, round)(k) == [] + [EntryFor(hits, k, scale, round)];
      FlatMapPush([], EntryFor(hits, k, scale, round), RunOfEntry(byKey));
    }
    FlatMapSame(keys, Nested(EntryOf(hits, scale, round), RunOfEntry(byKey)), RunOfKey(byKey));
  }

  lemma HitsByKey(members: seq<Candidate>, results: Results)
    requires DistinctKeys(members)
    ensures FlatMap(FlatMap(members, KeyIfHit(results)), RunOfKey(ByKey(members))) == FlatMap(members, IfHit(results))
  {
    var byKey := ByKey(members);
    FlatMapNested(members, KeyIfHit(results), RunOfKey(byKey));
    forall c | c in members ensures Nested(KeyIfHit(results), RunOfKey(byKey))(c) == IfHit(results)(c) {
      ByKeyHolds(members, c.ConfigKey());
      SameKeySame(members, c, byKey[c.ConfigKey()]);
      if HasHits(results, c) {
        assert KeyIfHit(results)(c) == [] + [c.ConfigKey()];
        FlatMapPush([], c.ConfigKey(), RunOfKey(byKey));
      }
    }
    FlatMapSame(members, Nested(KeyIfHit(results), RunOfKey(byKey)), IfHit(results));
  }

  lemma SameKeySame(members: seq<Candidate>, a: Candidate, b: Candidate)
    requires DistinctKeys(members) && a in members && b in members && a.ConfigKey() == b.ConfigKey()
    ensures a == b
  {}

  /** A group's rows are its members with hits, each once. */
  lemma RowsAreScoredMembers(members: seq<Candidate>, results: Results, setup: Setup)
    requires DistinctIds(members) && DistinctKeys(members)
    ensures multiset(FlatMap(RankedRows(members, results, setup), RunOfRow())) ==
              multiset(FlatMap(members, IfHit(results)))
  {
    var ordered := StableSort(members, ById());
    var byKey, hits, scale :=
        ByKey(ordered), GroupHits(ordered, results), Scale(GroupHits(ordered, results), setup.round);
    DistinctIdsPermute(members, ordered);
    DistinctKeysPermute(members, ordered);
    LookupNeverMisses(ordered, results, setup);
    RowsInEntryOrder(RankedEntries(ordered, results, setup), byKey);
    FlatMapPermutes(RankedEntries(ordered, results, setup), Entries(hits, setup.round), RunOfEntry(byKey));
    EntriesByKey(KeysOf(hits), hits, scale, setup.round, byKey);
    GroupKeys(ordered, results);
    HitsByKey(ordered, results);
    FlatMapPermutes(ordered, members, IfHit(results));
  }

  lemma RowsOfOne(id: GroupId, rows: seq<Row>)
    ensures FlatMap(if rows == [] then [] else [Group(id, rows)], RowsOfGroup()) == rows
  {}

  lemma RowsOfRankedGroup(chosen: seq<Candidate>, results: Results, setup: Setup, id: GroupId)
    requires Proper(chosen)
    ensures multiset(FlatMap(FlatMap(RankedGroup(chosen, results, setup)(id), RowsOfGroup()), RunOfRow())) ==
            multiset(Nested(BucketOf(chosen, GroupOf), IfHit(results))(id))
  {
    var members := Bucket(chosen, GroupOf, id);
    GroupProper(chosen, id);
    RowsAreScoredMembers(members, results, setup);
    hide RankedRows, IfHit, FlatMap, Proper;
    RowsOfOne(id, RankedRows(members, results, setup));
  }

  lemma {:induction false} RowsOfRankedGroups(ids: seq<GroupId>, chosen: seq<Candidate>, results: Results, setup: Setup)
    requires Proper(chosen)
    ensures multiset(FlatMap(FlatMap(FlatMap(ids, RankedGroup(chosen, results, setup)), RowsOfGroup()), RunOfRow())) ==
            multiset(FlatMap(ids, Nested(BucketOf(chosen, GroupOf), IfHit(results))))
  {
    if ids != [] {
      var front, id := ids[..|ids| - 1], ids[|ids| - 1];
      var groups, last := FlatMap(front, RankedGroup(chosen, results, setup)), RankedGroup(chosen, results, setup)(id);
      RowsOfRankedGroups(front, chosen, results, setup);
      RowsOfRankedGroup(chosen, results, setup, id);
      hide RankedGroup, IfHit, Proper;
      FlatMapAppend(groups, last, RowsOfGroup());
      FlatMapAppend(FlatMap(groups, RowsOfGroup()), FlatMap(last, RowsOfGroup()), RunOfRow());
    }
  }

  /** The report's rows are exactly the chosen candidates with hits, each once. */
  lemma RowsAreScoredChoices(chosen: seq<Candidate>, results: Results, setup: Setup)
    requires Proper(chosen)
    ensures multiset(FlatMap(Rows(StableSort(RankedGroups(chosen, results, setup), BestFirst(setup))), RunOfRow())) ==
            multiset(FlatMap(chosen, IfHit(results)))
  {
    var groups := RankedGroups(chosen, results, setup);
    var sorted := StableSort(groups, BestFirst(setup));
    var ids := BucketKeys(chosen, GroupOf);
    FlatMapPermutes(sorted, groups, RowsOfGroup());
    FlatMapPermutes(Rows(sorted), Rows(groups), RunOfRow());
    RowsOfRankedGroups(ids, chosen, results, setup);
    FlatMapNested(ids, BucketOf(chosen, GroupOf), IfHit(results));
    BucketsPartition(chosen, GroupOf);
    FlatMapPermutes(FlatMap(ids, BucketOf(chosen, GroupOf)), chosen, IfHit(results));
  }

  lemma {:induction false} HitOrNot(chosen: seq<Candidate>, results: Results)
    ensures |FlatMap(chosen, IfHit(results))| + |FlatMap(chosen, IfUnscored(results))| == |chosen|
  {
    if chosen != [] { HitOrNot(chosen[..|chosen| - 1], results); }
  }

  lemma {:induction false} OneRunPerRow(rows: seq<Row>)
    ensures |FlatMap(rows, RunOfRow())| == |rows|
  {
    if rows != [] { OneRunPerRow(rows[..|rows| - 1]); }
  }

  lemma {:induction false} OneSlotEach(candidates: seq<Candidate>)
    ensures |FlatMap(candidates, JustKey(SlotOf))| == |candidates|
  {
    if candidates != [] { OneSlotEach(candidates[..|candidates| - 1]); }
  }

  /** Every candidate is a collapsed duplicate, a run without a scored hit, or a ranked row; the report's
      counts say how many there are of each. */
  lemma CandidatesAddUp(bundles: seq<Bundle>, setup: Setup)
    requires DistinctRuns(bundles)
    ensures var candidates, results := AllCandidates(bundles, setup), ResultsByRun(FlatMap(bundles, ResultsIn()));
            var chosen, report := LatestPerSlot(candidates), Compared(bundles, setup);
            && |candidates| == report.duplicates + |FlatMap(chosen, IfUnscored(results))| + report.runCount
            && multiset(FlatMap(Rows(report.groups), RunOfRow())) == multiset(FlatMap(chosen, IfHit(results)))
            && multiset(chosen) <= multiset(candidates)
  {
    var candidates, results := AllCandidates(bundles, setup), ResultsByRun(FlatMap(bundles, ResultsIn()));
    var chosen, rows := LatestPerSlot(candidates), Rows(Compared(bundles, setup).groups);
    ChosenProper(bundles, setup);
    OnePerSlot(candidates);
    FirstsSize(FlatMap(candidates, JustKey(SlotOf)));
    OneSlotEach(candidates);
    RowsAreScoredChoices(chosen, results, setup);
    OneRunPerRow(rows);
    HitOrNot(chosen, results);
    var ranked, scored := FlatMap(rows, RunOfRow()), FlatMap(chosen, IfHit(results));
    assert |ranked| == |multiset(ranked)| == |multiset(scored)| == |scored|;
    ChosenWithin(candidates);
  }

  lemma ChosenWithin(candidates: seq<Candidate>)
    ensures multiset(LatestPerSlot(candidates)) <= multiset(candidates)
  {
    var chosen := LatestPerSlot(candidates);
    OnePerSlot(candidates);
    assert NoDuplicates(chosen);
    CountsAtMostOne(chosen);
    forall c ensures multiset(chosen)[c] <= multiset(candidates)[c] {
      if c in multiset(chosen) {
        ChosenHold(candidates, c);
        assert c in multiset(candidates);
      }
    }
  }

  // ---- Inside a group -----------------------------------------------------------------------------------------

  lemma {:induction false} NoneOfStore(entries: seq<Entry>, store: Name)
    requires forall i :: 0 <= i < |entries| ==> entries[i].key.store != store
    ensures StoreCount(entries, store) == 0
  {
    if entries != [] { NoneOfStore(entries[..|entries| - 1], store); }
  }

  lemma {:induction false} OneStoreEach(entries: seq<Entry>, byKey: map<Key, Candidate>)
    requires KeysKnown(entries, byKey)
             && forall i, j :: 0 <= i < j < |entries| ==> entries[i].key.store != entries[j].key.store
    ensures forall i :: 0 <= i < |entries| ==> RowsFor(entries, byKey)[i].storeRank == 1
  {
    if entries != [] {
      var n := |entries| - 1;
      OneStoreEach(entries[..n], byKey);
      NoneOfStore(entries[..n], entries[n].key.store);
    }
  }

  /** A group of `members`: different stores, one configuration. */
  ghost predicate OneConfig(members: seq<Candidate>)
  {
    && DistinctIds(members) && (forall c, d :: c in members && d in members && c.store == d.store ==> c == d)
    && (forall c, d :: c in members && d in members ==> c.group == d.group)
    && forall c :: c in members ==> WellGrouped(c)
  }

  lemma GroupIsOneConfig(chosen: seq<Candidate>, id: GroupId)
    requires Proper(chosen)
    ensures OneConfig(Bucket(chosen, GroupOf, id))
    ensures forall c :: c in Bucket(chosen, GroupOf, id) ==> c.group == id
  {
    var members := Bucket(chosen, GroupOf, id);
    GroupProper(chosen, id);
    forall c | c in members ensures c in chosen && c.group == id { BucketHolds(chosen, GroupOf, id, c); }
    forall c, d | c in members && d in members && c.store == d.store ensures c == d {
      var m :| 0 <= m < |chosen| && chosen[m] == c;
      var n :| 0 <= n < |chosen| && chosen[n] == d;
      assert SlotOf(chosen[m]) == SlotOf(chosen[n]);
    }
  }

  lemma RankedKeysDiffer(hits: seq<Scored>, setup: Setup)
    ensures var entries := Ranking(hits, setup.round, setup.useQueryAvg);
            forall i, j :: 0 <= i < j < |entries| ==> entries[i].key != entries[j].key
  {
    var entries := Ranking(hits, setup.round, setup.useQueryAvg);
    RankingArranged(hits, setup.round, setup.useQueryAvg);
    FirstsHold(FlatMap(hits, KeyOnly()));
    EntriesFrom(KeysOf(hits), hits, Scale(hits, setup.round), setup.round);
    var before := Entries(hits, setup.round);
    forall i, j | 0 <= i < j < |entries| ensures entries[i].key != entries[j].key {
      if entries[i].key == entries[j].key {
        RankingHolds(hits, setup.round, setup.useQueryAvg, entries[i]);
        RankingHolds(hits, setup.round, setup.useQueryAvg, entries[j]);
        EntriesHold(hits, setup.round, entries[i]);
        EntriesHold(hits, setup.round, entries[j]);
      }
    }
  }

  lemma EntryKeysDiffer(ordered: seq<Candidate>, results: Results, setup: Setup)
    ensures var entries := RankedEntries(ordered, results, setup);
            forall i, j :: 0 <= i < j < |entries| ==> entries[i].key != entries[j].key
  {
    hide Ranking, GroupHits;
    RankedKeysDiffer(GroupHits(ordered, results), setup);
  }

  /** In every group: rank by position, each row's run is the one its scores belong to, one run per store,
      and so every store rank is 1. */
  lemma GroupRows(members: seq<Candidate>, results: Results, setup: Setup)
    requires OneConfig(members)
    ensures var rows := RankedRows(members, results, setup);
            forall i :: 0 <= i < |rows| ==>
              && rows[i].rank == i + 1 && rows[i].storeRank == 1
              && rows[i].candidate in members && rows[i].candidate.ConfigKey() == rows[i].entry.key
    ensures var rows := RankedRows(members, results, setup);
            forall i, j :: 0 <= i < j < |rows| ==> rows[i].candidate.store != rows[j].candidate.store
  {
    hide *;
    var ordered := StableSort(members, ById());
    RowsAre(members, results, setup);
    EntryKeysDiffer(ordered, results, setup);
    SortedMembers(members);
    RowsOfOneConfig(members, ordered, RankedEntries(ordered, results, setup));
  }

  lemma RowsAre(members: seq<Candidate>, results: Results, setup: Setup)
    ensures var ordered := StableSort(members, ById());
            && KeysKnown(RankedEntries(ordered, results, setup), ByKey(ordered))
            && RankedRows(members, results, setup) == RowsFor(RankedEntries(ordered, results, setup), ByKey(ordered))
  {
    LookupNeverMisses(StableSort(members, ById()), results, setup);
  }

  lemma SortedMembers(members: seq<Candidate>)
    ensures forall c :: c in StableSort(members, ById()) ==> c in members
  {
    assert forall c :: c in StableSort(members, ById()) ==> c in multiset(StableSort(members, ById()));
  }

  lemma RowsOfOneConfig(members: seq<Candidate>, ordered: seq<Candidate>, entries: seq<Entry>)
    requires OneConfig(members) && (forall c :: c in ordered ==> c in members) && KeysKnown(entries, ByKey(ordered))
    requires forall i, j :: 0 <= i < j < |entries| ==> entries[i].key != entries[j].key
    ensures var rows := RowsFor(entries, ByKey(ordered));
            && (forall i :: 0 <= i < |rows| ==>
                 && rows[i].rank == i + 1 && rows[i].storeRank == 1
                 && rows[i].candidate in members && rows[i].candidate.ConfigKey() == rows[i].entry.key)
            && forall i, j :: 0 <= i < j < |rows| ==> rows[i].candidate.store != rows[j].candidate.store
  {
    var byKey := ByKey(ordered);
    RowsInEntryOrder(entries, byKey);
    forall i | 0 <= i < |entries|
      ensures byKey[entries[i].key] in members && byKey[entries[i].key].ConfigKey() == entries[i].key
    {
      ByKeyHolds(ordered, entries[i].key);
    }
    hide ByKey, RowsFor;
    forall i, j | 0 <= i < j < |entries| ensures entries[i].key.store != entries[j].key.store {
      OneStorePerKey(members, byKey[entries[i].key], byKey[entries[j].key]);
    }
    hide OneConfig;
    OneStoreEach(entries, byKey);
  }

  lemma OneStorePerKey(members: seq<Candidate>, c: Candidate, d: Candidate)
    requires OneConfig(members) && c in members && d in members && c.ConfigKey() != d.ConfigKey()
    ensures c.store != d.store
  {}

  /** A group's best score is 100 when two raw scores in it differ, and 0 otherwise. */
  lemma GroupBestScore(members: seq<Candidate>, results: Results, setup: Setup)
    requires IsRounding(setup.round) && RankedRows(members, results, setup) != []
    ensures RankedRows(members, results, setup)[0].entry.maxScore ==
            if ScoresDiffer(GroupHits(StableSort(members, ById()), results)) then 100 else 0
  {
    var ordered := StableSort(members, ById());
    LookupNeverMisses(ordered, results, setup);
    RowsInEntryOrder(RankedEntries(ordered, results, setup), ByKey(ordered));
    BestIsHundredExactly(GroupHits(ordered, results), setup.round, setup.useQueryAvg);
  }

  /** The scored hits of the runs a report's group is made of. */
  function HitsOfGroup(bundles: seq<Bundle>, setup: Setup, id: GroupId): seq<Scored>
  {
    var chosen, results := LatestPerSlot(AllCandidates(bundles, setup)), ResultsByRun(FlatMap(bundles, ResultsIn()));
    GroupHits(StableSort(Bucket(chosen, GroupOf, id), ById()), results)
  }

  /** Both, for every group of a report. */
  lemma EveryGroup(bundles: seq<Bundle>, setup: Setup, g: Group)
    requires DistinctRuns(bundles) && g in Compared(bundles, setup).groups
    ensures g.rows != []
    ensures forall i :: 0 <= i < |g.rows| ==>
              && g.rows[i].rank == i + 1 && g.rows[i].storeRank == 1 && g.rows[i].candidate.group == g.id
              && g.rows[i].candidate.ConfigKey() == g.rows[i].entry.key
    ensures forall i, j :: 0 <= i < j < |g.rows| ==> g.rows[i].candidate.store != g.rows[j].candidate.store
    ensures IsRounding(setup.round) ==>
              g.rows[0].entry.maxScore == if ScoresDiffer(HitsOfGroup(bundles, setup, g.id)) then 100 else 0
  {
    var chosen, results := LatestPerSlot(AllCandidates(bundles, setup)), ResultsByRun(FlatMap(bundles, ResultsIn()));
    hide AllCandidates, LatestPerSlot, ResultsByRun, RankedGroups, Summary, StableSort, RankedRows, Proper, IsRounding,
        ScoresDiffer;
    ChosenProper(bundles, setup);
    SummaryGroups(StableSort(RankedGroups(chosen, results, setup), BestFirst(setup)),
                  DuplicatesCollapsed(FlatMap(AllCandidates(bundles, setup), JustKey(SlotOf))));
    GroupComesFrom(chosen, results, setup, g);
    hide Compared;
    GroupIsOneConfig(chosen, g.id);
    GroupRows(Bucket(chosen, GroupOf, g.id), results, setup);
    if IsRounding(setup.round) { GroupBestScore(Bucket(chosen, GroupOf, g.id), results, setup); }
  }

  /** The report lists each store of a ranked row once, in rising order. */
  lemma StoresInOrder(bundles: seq<Bundle>, setup: Setup)
    ensures var report := Compared(bundles, setup);
            && (forall i, j :: 0 <= i < j < |report.stores| ==> report.stores[i] < report.stores[j])
            && forall store :: store in report.stores <==> store in StoresOf(Rows(report.groups))
  {
    hide StableSort, AllCandidates, LatestPerSlot, ResultsByRun, RankedGroups, DuplicatesCollapsed, Ascending;
    var rows := Rows(Compared(bundles, setup).groups);
    AscendingIs(FlatMap(rows, StoreOfRow()));
    forall store ensures store in FlatMap(rows, StoreOfRow()) <==> store in StoresOf(rows) {
      FlatMapHolds(rows, StoreOfRow(), store);
      StoreHeld(rows, store);
    }
  }

  lemma StoreHeld(rows: seq<Row>, store: Name)
    ensures store in StoresOf(rows) <==> exists r :: r in rows && store in StoreOfRow()(r)
  {
    if r :| r in rows && r.candidate.store == store { assert store in StoreOfRow()(r); }
  }

  lemma SummaryGroups(groups: seq<Group>, duplicates: nat)
    ensures Summary(groups, duplicates).groups == groups
  {}

  lemma GroupComesFrom(chosen: seq<Candidate>, results: Results, setup: Setup, g: Group)
    requires g in StableSort(RankedGroups(chosen, results, setup), BestFirst(setup))
    ensures g.rows == RankedRows(Bucket(chosen, GroupOf, g.id), results, setup) && g.rows != []
  {
    var groups := RankedGroups(chosen, results, setup);
    assert g in multiset(StableSort(groups, BestFirst(setup)));
    hide StableSort, BestFirst;
    assert g in groups;
    GroupFrom(chosen, results, setup, g);
  }

  lemma GroupFrom(chosen: seq<Candidate>, results: Results, setup: Setup, g: Group)
    requires g in RankedGroups(chosen, results, setup)
    ensures g.rows == RankedRows(Bucket(chosen, GroupOf, g.id), results, setup) && g.rows != []
  {
    hide RankedRows, BucketKeys, Bucket;
    FlatMapHolds(BucketKeys(chosen, GroupOf), RankedGroup(chosen, results, setup), g);
    var id :| id in BucketKeys(chosen, GroupOf) && g in RankedGroup(chosen, results, setup)(id);
  }

  // ---- Who takes part, and in what order ----------------------------------------------------------------------

  /** The candidates are the completed runs of eligible experiments that have a store, some result and a
      group id; each under its own store, or else its experiment's. */
  lemma CandidatesExactly(bundles: seq<Bundle>, setup: Setup, c: Candidate)
    ensures c in AllCandidates(bundles, setup) <==>
              exists b :: b in bundles && TakesPart(b, c, setup)
  {
    FlatMapHolds(bundles, CandidatesIn(setup), c);
    forall b | b in bundles ensures c in CandidatesIn(setup)(b) <==> TakesPart(b, c, setup) {
      var from := CandidateFrom(b.experiment, WithResults(b.results), QuestionsSha(b.experiment, setup));
      FlatMapHolds(b.runs, from, c);
      if TakesPart(b, c, setup) {
        assert c in from(c.run);
      }
    }
  }

  ghost predicate TakesPart(b: Bundle, c: Candidate, setup: Setup)
  {
    && b.experiment.eligible && c.experiment == b.experiment && c.run in b.runs && c.run.complete && c.run.usable
    && (exists q :: q in b.results && q.run == c.Id())
    && c.store != NONE && c.store == (if c.run.store != NONE then c.run.store else b.experiment.store)
    && c.group ==
         GroupId(c.run.columns, c.run.chunkSize, c.run.overlap, c.run.padding, b.experiment.data,
                 b.experiment.questions,
                          if b.experiment.questions == NONE then NONE else setup.shaOf(b.experiment.questions))
  }

  /** Groups come best first, equal ones in order of their digest. */
  lemma GroupsInOrder(bundles: seq<Bundle>, setup: Setup, i: nat, j: nat)
    requires i < j < |Compared(bundles, setup).groups|
    ensures var groups := Compared(bundles, setup).groups;
            || TopScore(groups[i]) > TopScore(groups[j])
            || (TopScore(groups[i]) == TopScore(groups[j]) && setup.digest(groups[i].id) <= setup.digest(groups[j].id))
  {
    BestFirstIsKeyOrder(setup);
    var groups :=
        RankedGroups(LatestPerSlot(AllCandidates(bundles, setup)), ResultsByRun(FlatMap(bundles, ResultsIn())), setup);
    StableSortSorts(groups, BestFirst(setup));
    hide StableSort, AllCandidates, LatestPerSlot, ResultsByRun, RankedGroups, TopScore;
    var sorted := StableSort(groups, BestFirst(setup));
    assert !BestFirst(setup)(sorted[j], sorted[i]);
  }

  // ---- The counts ---------------------------------------------------------------------------------------------

  /** Two of the group's rows are of different stores. */
  ghost predicate CrossesStores(g: Group)
  {
    exists i, j :: 0 <= i < j < |g.rows| && g.rows[i].candidate.store != g.rows[j].candidate.store
  }

  lemma CrossesExactly(g: Group)
    ensures |StoresOf(g.rows)| > 1 <==> CrossesStores(g)
  {
    var stores := StoresOf(g.rows);
    if |stores| > 1 {
      var s :| s in stores;
      var others := stores - {s};
      assert |others| == |stores| - 1;
      var t :| t in others;
      var a :| a in g.rows && a.candidate.store == s;
      var b :| b in g.rows && b.candidate.store == t;
      var i :| 0 <= i < |g.rows| && g.rows[i] == a;
      var j :| 0 <= j < |g.rows| && g.rows[j] == b;
      assert if i < j then g.rows[i].candidate.store != g.rows[j].candidate.store
             else g.rows[j].candidate.store != g.rows[i].candidate.store;
    }
    if i, j :| 0 <= i < j < |g.rows| && g.rows[i].candidate.store != g.rows[j].candidate.store {
      var pair := {g.rows[i].candidate.store, g.rows[j].candidate.store};
      assert pair <= stores;
      SubsetSize(pair, stores);
    }
  }

  /** The indices below `n` of the groups with two stores. */
  ghost function Crossing(groups: seq<Group>, n: nat): set<nat>
    requires n <= |groups|
  {
    set i: nat | i < n && CrossesStores(groups[i])
  }

  lemma CrossingGrows(groups: seq<Group>, n: nat)
    requires n < |groups|
    ensures |Crossing(groups, n + 1)| == |Crossing(groups, n)| + if CrossesStores(groups[n]) then 1 else 0
  {
    hide CrossesStores;
    assert Crossing(groups, n + 1) == Crossing(groups, n) + if CrossesStores(groups[n]) then {n} else {};
  }

  lemma {:induction false} CrossStoreCounts(groups: seq<Group>, n: nat)
    requires n <= |groups|
    ensures CrossStore(groups[..n]) == |Crossing(groups, n)|
  {
    if n > 0 {
      CrossStoreCounts(groups, n - 1);
      CrossesExactly(groups[n - 1]);
      CrossingGrows(groups, n - 1);
      hide CrossesStores, StoresOf, Crossing;
      assert groups[..n][..n - 1] == groups[..n - 1];
    }
  }

  lemma {:induction false} RowsCounted(groups: seq<Group>)
    ensures |Rows(groups)| == RowTotal(groups)
  {
    if groups != [] { RowsCounted(groups[..|groups| - 1]); }
  }

  function RowTotal(groups: seq<Group>): nat
  {
    if groups == [] then 0 else RowTotal(groups[..|groups| - 1]) + |groups[|groups| - 1].rows|
  }

  /** The counts of a report are of what it lists: its groups, their rows, and the groups with two stores. */
  lemma CountsTell(bundles: seq<Bundle>, setup: Setup)
    ensures var report := Compared(bundles, setup);
            && report.groupCount == |report.groups| && report.runCount == RowTotal(report.groups)
            && report.crossStoreGroups == |Crossing(report.groups, |report.groups|)|
  {
    var groups := Compared(bundles, setup).groups;
    hide StableSort, AllCandidates, LatestPerSlot, ResultsByRun, RankedGroups, DuplicatesCollapsed, CrossesStores;
    RowsCounted(groups);
    CrossStoreCounts(groups, |groups|);
    assert groups[..|groups|] == groups;
  }

  // ---- Who is ranked, and by which hits -----------------------------------------------------------------------

  /** `d` is not chosen before `c`: it is of an older experiment, or of an equally old one and its id is no lower. */
  ghost predicate NotLater(d: Candidate, c: Candidate)
  {
    d.experiment.stamp < c.experiment.stamp || (d.experiment.stamp == c.experiment.stamp && c.run.id <= d.run.id)
  }

  lemma ChosenExactly(candidates: seq<Candidate>, c: Candidate)
    requires DistinctIds(candidates)
    ensures c in LatestPerSlot(candidates) <==>
              && c in candidates
              && forall d :: d in candidates && d.store == c.store && d.group == c.group ==> NotLater(d, c)
  {
    var members := Bucket(candidates, SlotOf, SlotOf(c));
    forall d { BucketHolds(candidates, SlotOf, SlotOf(c), d); }
    if c in LatestPerSlot(candidates) {
      ChosenHold(candidates, c);
      LatestIs(members);
    } else if c in candidates
              && forall d :: d in candidates && d.store == c.store && d.group == c.group ==> NotLater(d, c) {
      BucketKeysHold(candidates, SlotOf, SlotOf(c));
      assert c in members;
      LatestIs(members);
      SameIdSame(candidates, c, Latest(members));
      assert c in LatestIn(candidates)(SlotOf(c));
      FlatMapHolds(Slots(candidates), LatestIn(candidates), c);
    }
  }

  /** `c` takes part, and no run of its store and group that does is later. */
  ghost predicate Chosen(bundles: seq<Bundle>, setup: Setup, c: Candidate)
  {
    && (exists b :: b in bundles && TakesPart(b, c, setup))
    && forall b, d :: b in bundles && TakesPart(b, d, setup) && d.store == c.store && d.group == c.group ==>
         NotLater(d, c)
  }

  lemma ChosenTakesPart(bundles: seq<Bundle>, setup: Setup, c: Candidate)
    requires DistinctRuns(bundles)
    ensures c in LatestPerSlot(AllCandidates(bundles, setup)) <==> Chosen(bundles, setup, c)
  {
    CandidatesDistinct(bundles, setup);
    ChosenExactly(AllCandidates(bundles, setup), c);
    forall d { CandidatesExactly(bundles, setup, d); }
    hide AllCandidates, LatestPerSlot, TakesPart, NotLater;
  }

  /** `q` is a result of the run of `c`. */
  ghost predicate IsResultOf(bundles: seq<Bundle>, q: QueryResult, c: Candidate)
  {
    q.run == c.run.id && exists b :: b in bundles && q in b.results
  }

  lemma FiledExactly(bundles: seq<Bundle>, c: Candidate, q: QueryResult)
    ensures q in ResultsFor(ResultsByRun(FlatMap(bundles, ResultsIn())))(c) <==> IsResultOf(bundles, q, c)
  {
    var all := FlatMap(bundles, ResultsIn());
    FiledUnder(all, c);
    BucketHolds(all, RunOf, c.Id(), q);
    FlatMapHolds(bundles, ResultsIn(), q);
  }

  /** The run of `c` retrieved `h`: a hit of one of its results, counting for its rerank score, or else its dense
      one, or else nothing. */
  ghost predicate Retrieved(bundles: seq<Bundle>, c: Candidate, h: Scored)
  {
    exists q, hit: SearchHit :: IsResultOf(bundles, q, c) && hit in q.hits && CountsAs(hit, q, c, h)
  }

  ghost predicate CountsAs(hit: SearchHit, q: QueryResult, c: Candidate, h: Scored)
  {
    && h.key == Key(c.store, c.run.columns, c.run.chunkSize, c.run.overlap, c.run.padding) && h.text == q.text
    && h.raw == if hit.rerank.Some? then hit.rerank.value else if hit.dense.Some? then hit.dense.value else 0.0
  }

  lemma OwnHitsExactly(bundles: seq<Bundle>, c: Candidate, h: Scored)
    ensures h in OwnHits(ResultsByRun(FlatMap(bundles, ResultsIn())))(c) <==> Retrieved(bundles, c, h)
  {
    var results := ResultsByRun(FlatMap(bundles, ResultsIn()));
    FlatMapHolds(ResultsFor(results)(c), HitsAs(c.ConfigKey()), h);
    forall q ensures q in ResultsFor(results)(c) <==> IsResultOf(bundles, q, c) { FiledExactly(bundles, c, q); }
    hide ResultsFor, ResultsByRun, IsResultOf;
    forall q: QueryResult
      ensures h in HitsAs(c.ConfigKey())(q) <==> exists hit: SearchHit :: hit in q.hits && CountsAs(hit, q, c, h)
    {
      FlatMapHolds(q.hits, ScoredAs(c.ConfigKey(), q.text), h);
      if hit: SearchHit :| hit in q.hits && CountsAs(hit, q, c, h) {
        assert h in ScoredAs(c.ConfigKey(), q.text)(hit);
      }
    }
  }

  /** The runs of a report are exactly those that are chosen and have retrieved anything. */
  lemma RankedExactly(bundles: seq<Bundle>, setup: Setup, c: Candidate)
    requires DistinctRuns(bundles)
    ensures (exists g, r :: g in Compared(bundles, setup).groups && r in g.rows && r.candidate == c) <==>
              Chosen(bundles, setup, c) && exists q :: IsResultOf(bundles, q, c) && q.hits != []
  {
    var chosen, results := LatestPerSlot(AllCandidates(bundles, setup)), ResultsByRun(FlatMap(bundles, ResultsIn()));
    var groups := Compared(bundles, setup).groups;
    CandidatesAddUp(bundles, setup);
    ChosenTakesPart(bundles, setup, c);
    HasHitsExactly(bundles, c);
    hide AllCandidates, LatestPerSlot, ResultsByRun, Compared, Chosen, IsResultOf, HasHits, FlatMap;
    var ranked, scored := FlatMap(Rows(groups), RunOfRow()), FlatMap(chosen, IfHit(results));
    assert c in ranked <==> c in scored by { assert c in multiset(ranked) <==> c in multiset(scored); }
    ScoredHold(chosen, results, c);
    RowHeld(groups, c);
  }

  lemma ScoredHold(chosen: seq<Candidate>, results: Results, c: Candidate)
    ensures c in FlatMap(chosen, IfHit(results)) <==> c in chosen && HasHits(results, c)
  {
    FlatMapHolds(chosen, IfHit(results), c);
    if c in chosen && HasHits(results, c) { assert c in IfHit(results)(c); }
  }

  lemma RowHeld(groups: seq<Group>, c: Candidate)
    ensures c in FlatMap(Rows(groups), RunOfRow()) <==> exists g, r :: g in groups && r in g.rows && r.candidate == c
  {
    FlatMapHolds(Rows(groups), RunOfRow(), c);
    forall r { FlatMapHolds(groups, RowsOfGroup(), r); }
    if g, r :| g in groups && r in g.rows && r.candidate == c {
      assert r in RowsOfGroup()(g) && c in RunOfRow()(r);
    }
  }

  lemma HasHitsExactly(bundles: seq<Bundle>, c: Candidate)
    ensures HasHits(ResultsByRun(FlatMap(bundles, ResultsIn())), c) <==>
              exists q :: IsResultOf(bundles, q, c) && q.hits != []
  {
    var own := OwnHits(ResultsByRun(FlatMap(bundles, ResultsIn())))(c);
    forall h ensures h in own <==> Retrieved(bundles, c, h) { OwnHitsExactly(bundles, c, h); }
    hide OwnHits, ResultsByRun, IsResultOf;
    if own != [] {
      assert own[0] in own;
      var q, hit: SearchHit :| IsResultOf(bundles, q, c) && hit in q.hits && CountsAs(hit, q, c, own[0]);
    }
    if q :| IsResultOf(bundles, q, c) && q.hits != [] {
      var hit := q.hits[0];
      var raw := if hit.rerank.Some? then hit.rerank.value else if hit.dense.Some? then hit.dense.value else 0.0;
      var h := Scored(Key(c.store, c.run.columns, c.run.chunkSize, c.run.overlap, c.run.padding), q.text, raw);
      assert hit in q.hits && CountsAs(hit, q, c, h);
      assert h in own;
    }
  }

  /** A group is ranked by exactly what its chosen runs retrieved. */
  lemma HitsOfGroupExactly(bundles: seq<Bundle>, setup: Setup, id: GroupId, h: Scored)
    requires DistinctRuns(bundles)
    ensures h in HitsOfGroup(bundles, setup, id) <==>
              exists c :: Chosen(bundles, setup, c) && c.group == id && Retrieved(bundles, c, h)
  {
    var chosen, results := LatestPerSlot(AllCandidates(bundles, setup)), ResultsByRun(FlatMap(bundles, ResultsIn()));
    var members := StableSort(Bucket(chosen, GroupOf, id), ById());
    ChosenProper(bundles, setup);
    GroupProper(chosen, id);
    DistinctIdsPermute(Bucket(chosen, GroupOf, id), members);
    GroupHitsAreOwn(members, results);
    FlatMapHolds(members, OwnHits(results), h);
    forall c ensures c in members <==> Chosen(bundles, setup, c) && c.group == id {
      ChosenTakesPart(bundles, setup, c);
      BucketHolds(chosen, GroupOf, id, c);
      assert c in members <==> c in multiset(members);
    }
    forall c ensures h in OwnHits(results)(c) <==> Retrieved(bundles, c, h) { OwnHitsExactly(bundles, c, h); }
    hide OwnHits, ResultsByRun, Retrieved, Chosen, StableSort, Bucket;
  }

  /** Its rows carry the entries of the ranking of those hits, in order. */
  lemma GroupIsRanked(bundles: seq<Bundle>, setup: Setup, g: Group)
    requires g in Compared(bundles, setup).groups
    ensures var ranking := Ranking(HitsOfGroup(bundles, setup, g.id), setup.round, setup.useQueryAvg);
            |g.rows| == |ranking| && forall i :: 0 <= i < |ranking| ==> g.rows[i].entry == ranking[i]
  {
    var chosen, results := LatestPerSlot(AllCandidates(bundles, setup)), ResultsByRun(FlatMap(bundles, ResultsIn()));
    hide AllCandidates, LatestPerSlot, ResultsByRun, RankedGroups, Summary, StableSort, RankedRows, Ranking;
    SummaryGroups(StableSort(RankedGroups(chosen, results, setup), BestFirst(setup)),
                  DuplicatesCollapsed(FlatMap(AllCandidates(bundles, setup), JustKey(SlotOf))));
    GroupComesFrom(chosen, results, setup, g);
    hide Compared;
    var members := Bucket(chosen, GroupOf, g.id);
    RowsAre(members, results, setup);
    var ordered := StableSort(members, ById());
    RowsInEntryOrder(RankedEntries(ordered, results, setup), ByKey(ordered));
  }
}
