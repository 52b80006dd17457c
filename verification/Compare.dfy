/**
 Grouping, deduplicating and ranking runs across stores: server/core/compare.py:54-201.

 A group is "same data, same questions, same configuration, any store"; its id is a digest of exactly
 that, and groups with equal scores are ordered by the digest.  An experiment's data paths, questions
 file and store are the ones it resolves to.
 */
module Compare {
  import opened Collections
  import opened Listing
  import opened Sorting
  import opened ResultsAnalyzer

  /** No text. */
  const NONE: Name := 0

  datatype RunDoc = RunDoc(id: RunId, store: Name, complete: bool, usable: bool, columns: Name, chunkSize: int,
                           overlap: int, padding: int)

  datatype Experiment = Experiment(id: Name, eligible: bool, store: Name, data: Name, questions: Name, stamp: real)

  datatype Bundle = Bundle(experiment: Experiment, runs: seq<RunDoc>, results: seq<QueryResult>)

  datatype GroupId = GroupId(columns: Name, chunkSize: int, overlap: int, padding: int, data: Name, questions: Name,
                             sha: Name)

  datatype Candidate = Candidate(run: RunDoc, experiment: Experiment, store: Name, group: GroupId)
  {
    function Id(): RunId { run.id }

    function ConfigKey(): Key { Key(store, run.columns, run.chunkSize, run.overlap, run.padding) }
  }

  /** One run per slot is kept. */
  datatype Slot = Slot(store: Name, group: GroupId)

  function SlotOf(c: Candidate): Slot { Slot(c.store, c.group) }

  datatype Row = Row(candidate: Candidate, rank: nat, storeRank: nat, entry: Entry)

  datatype Group = Group(id: GroupId, rows: seq<Row>)

  datatype Report = Report(groups: seq<Group>, stores: seq<Name>, groupCount: nat, runCount: nat,
                           crossStoreGroups: nat, duplicates: nat)

  /** What the environment supplies: the digest of a questions file and of a group, rounding, and the
      tie-breaking metric. */
  datatype Setup = Setup(shaOf: Name -> Name, digest: GroupId -> int, round: real -> int, useQueryAvg: bool)

  // ---- Candidates -----------------------------------------------------------------------------------------

  function StoreOf(run: RunDoc, experiment: Experiment): Name
  {
    if run.store != NONE then run.store else experiment.store
  }

  function GroupIdFor(run: RunDoc, experiment: Experiment, sha: Name): GroupId
  {
    GroupId(run.columns, run.chunkSize, run.overlap, run.padding, experiment.data, experiment.questions, sha)
  }

  function QuestionsSha(experiment: Experiment, setup: Setup): Name
  {
    if experiment.questions != NONE then setup.shaOf(experiment.questions) else NONE
  }

  function WithResults(results: seq<QueryResult>): set<RunId> { set q | q in results :: q.run }

  function CandidateFrom(experiment: Experiment, withResults: set<RunId>, sha: Name): RunDoc -> seq<Candidate>
  {
    (run: RunDoc) =>
      var store := StoreOf(run, experiment);
      if !run.complete || store == NONE || run.id !in withResults || !run.usable then []
      else [Candidate(run, experiment, store, GroupIdFor(run, experiment, sha))]
  }

  function CandidatesOf(b: Bundle, setup: Setup): seq<Candidate>
  {
    if !b.experiment.eligible then []
    else FlatMap(b.runs, CandidateFrom(b.experiment, WithResults(b.results), QuestionsSha(b.experiment, setup)))
  }

  /** `_candidates`. */
  method Candidates(b: Bundle, setup: Setup) returns (found: seq<Candidate>)
    ensures found == CandidatesOf(b, setup)
  {
    found := [];
    if !b.experiment.eligible {
      return;
    }
    var withResults := WithResults(b.results);
    var sha := QuestionsSha(b.experiment, setup);
    ghost var from := CandidateFrom(b.experiment, withResults, sha);
    for i := 0 to |b.runs|
      invariant found == FlatMap(b.runs[..i], from)
    {
      var run := b.runs[i];
      FlatMapPush(b.runs[..i], run, from);
      assert b.runs[..i + 1] == b.runs[..i] + [run];
      var store := StoreOf(run, b.experiment);
      if !run.complete || store == NONE || run.id !in withResults {
        continue;
      }
      if !run.usable {
        continue;
      }
      found := found + [Candidate(run, b.experiment, store, GroupIdFor(run, b.experiment, sha))];
    }
    assert b.runs[..|b.runs|] == b.runs;
  }

  function CandidatesIn(setup: Setup): Bundle -> seq<Candidate> { (b: Bundle) => CandidatesOf(b, setup) }

  function AllCandidates(bundles: seq<Bundle>, setup: Setup): seq<Candidate> { FlatMap(bundles, CandidatesIn(setup)) }

  // ---- One run per store and group --------------------------------------------------------------------------

  predicate Later(a: Candidate, b: Candidate)
  {
    a.experiment.stamp > b.experiment.stamp || (a.experiment.stamp == b.experiment.stamp && a.Id() < b.Id())
  }

  /** The first of the latest; ties go to the lowest run id. */
  function Latest(members: seq<Candidate>): Candidate
    requires members != []
  {
    var last := members[|members| - 1];
    if |members| == 1 then last
    else
      var best := Latest(members[..|members| - 1]);
      if Later(last, best) then last else best
  }

  function Slots(candidates: seq<Candidate>): seq<Slot> { BucketKeys(candidates, SlotOf) }

  function LatestIn(candidates: seq<Candidate>): Slot -> seq<Candidate>
  {
    (slot: Slot) => var members := Bucket(candidates, SlotOf, slot); if members == [] then [] else [Latest(members)]
  }

  function LatestPerSlot(candidates: seq<Candidate>): seq<Candidate>
  {
    FlatMap(Slots(candidates), LatestIn(candidates))
  }

  /** `_latest_per_store_and_group`. */
  method LatestPerStoreAndGroup(candidates: seq<Candidate>) returns (chosen: seq<Candidate>)
    ensures chosen == LatestPerSlot(candidates)
  {
    hide Grouped, Latest, Bucket, BucketKeys;
    var slots, order := GroupBy(candidates, SlotOf);
    GroupedKnows(slots, order, candidates, SlotOf);
    chosen := [];
    for i := 0 to |order|
      invariant chosen == FlatMap(order[..i], LatestIn(candidates))
    {
      FlatMapPush(order[..i], order[i], LatestIn(candidates));
      assert order[..i + 1] == order[..i] + [order[i]];
      chosen := chosen + [Latest(slots[order[i]])];
    }
    assert order[..|order|] == order;
  }

  // ---- Ranking a group ------------------------------------------------------------------------------------

  function ById(): (Candidate, Candidate) -> bool { (a: Candidate, b: Candidate) => a.Id() < b.Id() }

  /** Results filed under their run. */
  ghost predicate Filed(results: map<RunId, seq<QueryResult>>)
  {
    forall run, q :: run in results && q in results[run] ==> q.run == run
  }

  type Results = r: map<RunId, seq<QueryResult>> | Filed(r) witness map[]

  function ResultsFor(results: Results): Candidate -> seq<QueryResult>
  {
    (c: Candidate) => if c.Id() in results then results[c.Id()] else []
  }

  function RunKeys(members: seq<Candidate>): map<RunId, Key>
  {
    if members == [] then map[]
    else RunKeys(members[..|members| - 1])[members[|members| - 1].Id() := members[|members| - 1].ConfigKey()]
  }

  function ByKey(members: seq<Candidate>): map<Key, Candidate>
  {
    if members == [] then map[]
    else ByKey(members[..|members| - 1])[members[|members| - 1].ConfigKey() := members[|members| - 1]]
  }

  /** The hits of a group's members, in order of run id. */
  function GroupHits(members: seq<Candidate>, results: Results): seq<Scored>
  {
    HitsOf(FlatMap(members, ResultsFor(results)), RunKeys(members))
  }

  function StoreCount(entries: seq<Entry>, store: Name): nat
  {
    if entries == [] then 0
    else StoreCount(entries[..|entries| - 1], store) + if entries[|entries| - 1].key.store == store then 1 else 0
  }

  /** Every ranked configuration is some member's. */
  ghost predicate KeysKnown(entries: seq<Entry>, byKey: map<Key, Candidate>)
  {
    forall i :: 0 <= i < |entries| ==> entries[i].key in byKey
  }

  function RowsFor(entries: seq<Entry>, byKey: map<Key, Candidate>): (rows: seq<Row>)
    requires KeysKnown(entries, byKey)
    ensures |rows| == |entries|
  {
    if entries == [] then []
    else
      var n := |entries| - 1;
      var c := byKey[entries[n].key];
      RowsFor(entries[..n], byKey) + [Row(c, n + 1, StoreCount(entries, entries[n].key.store), entries[n])]
  }

  lemma {:induction false} RunKeysHold(members: seq<Candidate>, run: RunId)
    ensures run in RunKeys(members) <==> exists c :: c in members && c.Id() == run
    ensures run in RunKeys(members) ==>
              exists c :: c in members && c.Id() == run && RunKeys(members)[run] == c.ConfigKey()
  {
    if members != [] {
      var front, last := members[..|members| - 1], members[|members| - 1];
      assert members == front + [last];
      RunKeysHold(front, run);
      assert last in members;
    }
  }

  lemma {:induction false} ByKeyHolds(members: seq<Candidate>, key: Key)
    ensures key in ByKey(members) <==> exists c :: c in members && c.ConfigKey() == key
    ensures key in ByKey(members) ==> ByKey(members)[key] in members && ByKey(members)[key].ConfigKey() == key
  {
    if members != [] {
      var front, last := members[..|members| - 1], members[|members| - 1];
      assert members == front + [last];
      ByKeyHolds(front, key);
      assert last in members;
    }
  }

  /** Every hit of a group counts for some member's configuration. */
  lemma GroupHitKnown(members: seq<Candidate>, results: Results, h: Scored)
    requires h in GroupHits(members, results)
    ensures h.key in ByKey(members)
  {
    var all, keys := FlatMap(members, ResultsFor(results)), RunKeys(members);
    FlatMapHolds(all, HitsIn(keys), h);
    var q :| q in all && h in HitsIn(keys)(q);
    FlatMapHolds(members, ResultsFor(results), q);
    var c :| c in members && q in ResultsFor(results)(c);
    FlatMapHolds(q.hits, ScoredAs(KeyFor(q.run, keys), q.text), h);
    RunKeysHold(members, q.run);
    ByKeyHolds(members, h.key);
  }

  function RankedEntries(members: seq<Candidate>, results: Results, setup: Setup): seq<Entry>
  {
    Ranking(GroupHits(members, results), setup.round, setup.useQueryAvg)
  }

  /** The lookup of a ranked configuration's run never misses. */
  lemma LookupNeverMisses(members: seq<Candidate>, results: Results, setup: Setup)
    ensures KeysKnown(RankedEntries(members, results, setup), ByKey(members))
  {
    var hits, entries := GroupHits(members, results), RankedEntries(members, results, setup);
    forall i | 0 <= i < |entries| ensures entries[i].key in ByKey(members) {
      RankingHolds(hits, setup.round, setup.useQueryAvg, entries[i]);
      EntriesHold(hits, setup.round, entries[i]);
      KeysOfHits(hits, entries[i].key);
      var h :| h in hits && h.key == entries[i].key;
      GroupHitKnown(members, results, h);
    }
  }

  /** A group's rows, best first; members are taken in order of run id. */
  function RankedRows(members: seq<Candidate>, results: Results, setup: Setup): seq<Row>
  {
    var ordered := StableSort(members, ById());
    LookupNeverMisses(ordered, results, setup);
    RowsFor(RankedEntries(ordered, results, setup), ByKey(ordered))
  }

  /** The dictionaries and the results of a group's members. */
  method Gather(ordered: seq<Candidate>, results: Results)
    returns (keys: map<RunId, Key>, byKey: map<Key, Candidate>, queryResults: seq<QueryResult>)
    ensures keys == RunKeys(ordered) && byKey == ByKey(ordered) && queryResults == FlatMap(ordered, ResultsFor(results))
  {
    hide ResultsFor;
    keys, byKey, queryResults := map[], map[], [];
    for i := 0 to |ordered|
      invariant keys == RunKeys(ordered[..i])
      invariant byKey == ByKey(ordered[..i])
      invariant queryResults == FlatMap(ordered[..i], ResultsFor(results))
    {
      var c := ordered[i];
      FlatMapPush(ordered[..i], c, ResultsFor(results));
      assert ordered[..i + 1] == ordered[..i] + [c] && ordered[..i + 1][..i] == ordered[..i];
      keys := keys[c.Id() := c.ConfigKey()];
      byKey := byKey[c.ConfigKey() := c];
      queryResults := queryResults + ResultsFor(results)(c);
    }
    assert ordered[..|ordered|] == ordered;
  }

  /** `_rank_group`. */
  method RankGroup(members: seq<Candidate>, results: Results, setup: Setup) returns (rows: seq<Row>)
    ensures rows == RankedRows(members, results, setup)
  {
    hide Ranking, HitsOf, StableSort, KeysKnown, RunKeys, ByKey, FlatMap, RowsFor;
    var ordered := StableSort(members, ById());
    LookupNeverMisses(ordered, results, setup);
    var keys, byKey, queryResults := Gather(ordered, results);
    var analysis := AnalyzeResults(queryResults, keys, setup.round, setup.useQueryAvg, None);
    var ranked := analysis.ranked;
    rows := RowsInOrder(ranked, byKey);
  }

  method RowsInOrder(ranked: seq<Entry>, byKey: map<Key, Candidate>) returns (rows: seq<Row>)
    requires KeysKnown(ranked, byKey)
    ensures rows == RowsFor(ranked, byKey)
  {
    rows := [];
    var perStore: map<Name, nat> := map[];
    for i := 0 to |ranked|
      invariant rows == RowsFor(ranked[..i], byKey)
      invariant forall s :: (if s in perStore then perStore[s] else 0) == StoreCount(ranked[..i], s)
    {
      var entry := ranked[i];
      assert ranked[..i + 1][..i] == ranked[..i];
      var c := byKey[entry.key];
      var store := entry.key.store;
      perStore := perStore[store := (if store in perStore then perStore[store] else 0) + 1];
      rows := rows + [Row(c, i + 1, perStore[store], entry)];
    }
    assert ranked[..|ranked|] == ranked;
  }

  // ---- The comparison ---------------------------------------------------------------------------------------

  function ResultsByRun(all: seq<QueryResult>): Results
  {
    if all == [] then map[]
    else
      var q := all[|all| - 1];
      Appended(ResultsByRun(all[..|all| - 1]), q.run, q)
  }

  function ResultsIn(): Bundle -> seq<QueryResult> { (b: Bundle) => b.results }

  function GroupOf(c: Candidate): GroupId { c.group }

  function RankedGroup(chosen: seq<Candidate>, results: Results, setup: Setup): GroupId -> seq<Group>
  {
    (id: GroupId) =>
      var rows := RankedRows(Bucket(chosen, GroupOf, id), results, setup);
      if rows == [] then [] else [Group(id, rows)]
  }

  /** The groups with a scored run, in order of their first run. */
  function RankedGroups(chosen: seq<Candidate>, results: Results, setup: Setup): seq<Group>
  {
    FlatMap(BucketKeys(chosen, GroupOf), RankedGroup(chosen, results, setup))
  }

  function TopScore(g: Group): int { if g.rows == [] then 0 else g.rows[0].entry.maxScore }

  /** Best top score first, then by digest. */
  function BestFirst(setup: Setup): (Group, Group) -> bool
  {
    (a: Group, b: Group) =>
      if TopScore(a) != TopScore(b) then TopScore(a) > TopScore(b) else setup.digest(a.id) < setup.digest(b.id)
  }

  function StoresOf(rows: seq<Row>): set<Name> { set r | r in rows :: r.candidate.store }

  function StoreOfRow(): Row -> seq<Name> { (r: Row) => [r.candidate.store] }

  function RowsOfGroup(): Group -> seq<Row> { (g: Group) => g.rows }

  function Rows(groups: seq<Group>): seq<Row> { FlatMap(groups, RowsOfGroup()) }

  function CrossStore(groups: seq<Group>): nat
  {
    if groups == [] then 0
    else CrossStore(groups[..|groups| - 1]) + if |StoresOf(groups[|groups| - 1].rows)| > 1 then 1 else 0
  }

  function Summary(groups: seq<Group>, duplicates: nat): Report
  {
    var stores := Ascending(FlatMap(Rows(groups), StoreOfRow()));
    Report(groups, stores, |groups|, |Rows(groups)|, CrossStore(groups), duplicates)
  }

  /** `count_duplicates_collapsed`. */
  function DuplicatesCollapsed(slots: seq<Slot>): nat
  {
    FirstsSize(slots);
    |slots| - |set s | s in slots|
  }

  function Compared(bundles: seq<Bundle>, setup: Setup): Report
  {
    var candidates := AllCandidates(bundles, setup);
    var groups := RankedGroups(LatestPerSlot(candidates), ResultsByRun(FlatMap(bundles, ResultsIn())), setup);
    Summary(StableSort(groups, BestFirst(setup)), DuplicatesCollapsed(FlatMap(candidates, JustKey(SlotOf))))
  }

  /** `build_compare`. */
  method BuildCompare(bundles: seq<Bundle>, setup: Setup) returns (report: Report)
    ensures report == Compared(bundles, setup)
  {
    hide ResultsByRun, CandidatesOf, LatestPerSlot, RankedGroups, Summary, DuplicatesCollapsed;
    var results := FileResults(bundles);
    var candidates: seq<Candidate>, slotKeys: seq<Slot> := [], [];
    for i := 0 to |bundles|
      invariant candidates == FlatMap(bundles[..i], CandidatesIn(setup))
    {
      var found := Candidates(bundles[i], setup);
      FlatMapPush(bundles[..i], bundles[i], CandidatesIn(setup));
      assert bundles[..i + 1] == bundles[..i] + [bundles[i]];
      candidates := candidates + found;
    }
    assert bundles[..|bundles|] == bundles;
    for i := 0 to |candidates|
      invariant slotKeys == FlatMap(candidates[..i], JustKey(SlotOf))
    {
      FlatMapPush(candidates[..i], candidates[i], JustKey(SlotOf));
      assert candidates[..i + 1] == candidates[..i] + [candidates[i]];
      slotKeys := slotKeys + [SlotOf(candidates[i])];
    }
    assert candidates[..|candidates|] == candidates;
    var chosen := LatestPerStoreAndGroup(candidates);
    var groups := RankAll(chosen, results, setup);
    report := Summary(StableSort(groups, BestFirst(setup)), DuplicatesCollapsed(slotKeys));
  }

  method FileResults(bundles: seq<Bundle>) returns (results: Results)
    ensures results == ResultsByRun(FlatMap(bundles, ResultsIn()))
  {
    var all: seq<QueryResult> := [];
    for i := 0 to |bundles|
      invariant all == FlatMap(bundles[..i], ResultsIn())
    {
      FlatMapPush(bundles[..i], bundles[i], ResultsIn());
      assert bundles[..i + 1] == bundles[..i] + [bundles[i]];
      all := all + bundles[i].results;
    }
    assert bundles[..|bundles|] == bundles;
    results := map[];
    for i := 0 to |all|
      invariant results == ResultsByRun(all[..i])
    {
      assert all[..i + 1][..i] == all[..i];
      results := Appended(results, all[i].run, all[i]);
    }
    assert all[..|all|] == all;
  }

  method RankAll(chosen: seq<Candidate>, results: Results, setup: Setup) returns (groups: seq<Group>)
    ensures groups == RankedGroups(chosen, results, setup)
  {
    hide Grouped, Bucket, BucketKeys, RankedRows;
    var byGroup, order := GroupBy(chosen, GroupOf);
    GroupedKnows(byGroup, order, chosen, GroupOf);
    groups := [];
    for i := 0 to |order|
      invariant groups == FlatMap(order[..i], RankedGroup(chosen, results, setup))
    {
      var rows := RankGroup(byGroup[order[i]], results, setup);
      FlatMapPush(order[..i], order[i], RankedGroup(chosen, results, setup));
      assert order[..i + 1] == order[..i] + [order[i]];
      if rows != [] {
        groups := groups + [Group(order[i], rows)];
      }
    }
    assert order[..|order|] == order;
  }
}
