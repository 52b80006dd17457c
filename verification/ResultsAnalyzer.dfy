/**
 Scoring and ranking of run configurations: server/core/results_analyzer.py:15-246.

 Scores are real numbers; `round` is any monotone function that leaves integers alone, as Python's is.
 A configuration key's columns other than the store and the three sizes are one value.
 */
module ResultsAnalyzer {
  import opened Collections
  import opened Listing
  import opened Sorting

  type RunId = int
  type Name = int

  datatype Key = Key(store: Name, columns: Name, chunkSize: int, overlap: int, padding: int)

  const UNKNOWN := Key(0, 0, 0, 0, 0)

  datatype SearchHit = SearchHit(rerank: Option<real>, dense: Option<real>)

  datatype QueryResult = QueryResult(run: RunId, text: Name, hits: seq<SearchHit>)

  /** A hit, with the configuration it counts for. */
  datatype Scored = Scored(key: Key, text: Name, raw: real)

  datatype Entry = Entry(key: Key, maxScore: int, avgScore: int, queryAvgScore: int, resultCount: nat)

  ghost predicate IsRounding(round: real -> int)
  {
    (forall x: real, y: real :: x <= y ==> round(x) <= round(y))
    && (forall x: real :: x == x.Floor as real ==> round(x) == x.Floor)
  }

  /** `_effective_score`. */
  function EffectiveScore(hit: SearchHit): real
  {
    if hit.rerank.Some? then hit.rerank.value else if hit.dense.Some? then hit.dense.value else 0.0
  }

  function KeyFor(run: RunId, keys: map<RunId, Key>): Key { if run in keys then keys[run] else UNKNOWN }

  function ScoredAs(key: Key, text: Name): SearchHit -> seq<Scored>
  {
    (hit: SearchHit) => [Scored(key, text, EffectiveScore(hit))]
  }

  function HitsIn(keys: map<RunId, Key>): QueryResult -> seq<Scored> { (q: QueryResult) => ScoredHits(q, keys) }

  function ScoredHits(q: QueryResult, keys: map<RunId, Key>): seq<Scored>
  {
    FlatMap(q.hits, ScoredAs(KeyFor(q.run, keys), q.text))
  }

  /** Every hit of every query, in order. */
  function HitsOf(results: seq<QueryResult>, keys: map<RunId, Key>): seq<Scored>
  {
    FlatMap(results, HitsIn(keys))
  }

  // ---- Normalising ----------------------------------------------------------------------------------------

  function Lowest(hits: seq<Scored>): real
    requires hits != []
  {
    if |hits| == 1 then hits[0].raw
    else
      var low, last := Lowest(hits[..|hits| - 1]), hits[|hits| - 1].raw;
      if last < low then last else low
  }

  function Highest(hits: seq<Scored>): real
    requires hits != []
  {
    if |hits| == 1 then hits[0].raw
    else
      var high, last := Highest(hits[..|hits| - 1]), hits[|hits| - 1].raw;
      if last > high then last else high
  }

  function MinRaw(hits: seq<Scored>): real { if hits == [] then 0.0 else Lowest(hits) }

  function ScoreRange(hits: seq<Scored>): (range: real)
    ensures range != 0.0
  {
    var range := (if hits == [] then 1.0 else Highest(hits)) - MinRaw(hits);
    if range == 0.0 then 1.0 else range
  }

  /** A raw score on the scale from 0 to 100. */
  function Normalized(raw: real, low: real, range: real, round: real -> int): int
    requires range != 0.0
  {
    round((raw - low) / range * 100.0)
  }

  function ScaleFrom(low: real, range: real, round: real -> int): real -> int
    requires range != 0.0
  {
    (raw: real) => if range != 0.0 then Normalized(raw, low, range, round) else 0
  }

  function Scale(hits: seq<Scored>, round: real -> int): real -> int
  {
    ScaleFrom(MinRaw(hits), ScoreRange(hits), round)
  }

  // ---- Per configuration ------------------------------------------------------------------------------------

  function KeyOnly(): Scored -> seq<Key> { (h: Scored) => [h.key] }

  function TextFor(key: Key): Scored -> seq<Name> { (h: Scored) => if h.key == key then [h.text] else [] }

  function ScoreFor(key: Key, scale: real -> int): Scored -> seq<int>
  {
    (h: Scored) => if h.key == key then [scale(h.raw)] else []
  }

  function QueryScoreFor(key: Key, text: Name, scale: real -> int): Scored -> seq<int>
  {
    (h: Scored) => if h.key == key && h.text == text then [scale(h.raw)] else []
  }

  function ScoresOf(hits: seq<Scored>, key: Key, scale: real -> int): seq<int>
  {
    FlatMap(hits, ScoreFor(key, scale))
  }

  function QueryScoresOf(hits: seq<Scored>, key: Key, text: Name, scale: real -> int): seq<int>
  {
    FlatMap(hits, QueryScoreFor(key, text, scale))
  }

  function TextsOf(hits: seq<Scored>, key: Key): seq<Name>
  {
    Firsts(FlatMap(hits, TextFor(key)))
  }

  function KeysOf(hits: seq<Scored>): seq<Key>
  {
    Firsts(FlatMap(hits, KeyOnly()))
  }

  function MaxOf(scores: seq<int>): int
  {
    if scores == [] then 0
    else if |scores| == 1 then scores[0]
    else
      var high, last := MaxOf(scores[..|scores| - 1]), scores[|scores| - 1];
      if last > high then last else high
  }

  function Mean(xs: seq<real>): real
  {
    if xs == [] then 0.0 else Sum(xs) / |xs| as real
  }

  function AsReal(): int -> seq<real> { (n: int) => [n as real] }

  function Reals(scores: seq<int>): seq<real> { FlatMap(scores, AsReal()) }

  function MeanOfQuery(hits: seq<Scored>, key: Key, scale: real -> int): Name -> seq<real>
  {
    (text: Name) => [Mean(Reals(QueryScoresOf(hits, key, text, scale)))]
  }

  /** The average of each query's average. */
  function QueryMean(hits: seq<Scored>, key: Key, scale: real -> int): real
  {
    Mean(FlatMap(TextsOf(hits, key), MeanOfQuery(hits, key, scale)))
  }

  function EntryFor(hits: seq<Scored>, key: Key, scale: real -> int, round: real -> int): Entry
  {
    var scores := ScoresOf(hits, key, scale);
    Entry(key, MaxOf(scores), round(Mean(Reals(scores))), round(QueryMean(hits, key, scale)), |scores|)
  }

  function EntryOf(hits: seq<Scored>, scale: real -> int, round: real -> int): Key -> seq<Entry>
  {
    (key: Key) => [EntryFor(hits, key, scale, round)]
  }

  function Entries(hits: seq<Scored>, round: real -> int): seq<Entry>
  {
    var scale := Scale(hits, round);
    FlatMap(KeysOf(hits), EntryOf(hits, scale, round))
  }

  // ---- Ranking ----------------------------------------------------------------------------------------------

  function ChosenAverage(e: Entry, useQueryAvg: bool): int { if useQueryAvg then e.queryAvgScore else e.avgScore }

  /** Best score first, then best average by the chosen metric, then small chunks, overlap and padding. */
  function Leads(useQueryAvg: bool): (Entry, Entry) -> bool
  {
    (a: Entry, b: Entry) =>
      var m, n := ChosenAverage(a, useQueryAvg), ChosenAverage(b, useQueryAvg);
      if a.maxScore != b.maxScore then a.maxScore > b.maxScore
      else if m != n then m > n
      else if a.key.chunkSize != b.key.chunkSize then a.key.chunkSize < b.key.chunkSize
      else if a.key.overlap != b.key.overlap then a.key.overlap < b.key.overlap
      else a.key.padding < b.key.padding
  }

  function Ranking(hits: seq<Scored>, round: real -> int, useQueryAvg: bool): seq<Entry>
  {
    StableSort(Entries(hits, round), Leads(useQueryAvg))
  }

  lemma LeadsIsKeyOrder(useQueryAvg: bool)
    ensures IsKeyOrder(Leads(useQueryAvg))
  {}

  // ---- The analysis -----------------------------------------------------------------------------------------

  /** A query as put to a configuration. */
  datatype Asked = Asked(key: Key, text: Name)

  /** The dictionaries of `analyze_results` after some hits. */
  datatype Tally = Tally(order: seq<Key>, scores: map<Key, seq<int>>, texts: map<Key, seq<Name>>,
                         byQuery: map<Asked, seq<int>>)

  ghost predicate Tallies(t: Tally, hits: seq<Scored>, scale: real -> int)
  {
    && t.order == KeysOf(hits)
    && (forall key :: key in t.order ==> key in t.scores && t.scores[key] == ScoresOf(hits, key, scale))
    && (forall key :: key in t.order ==> key in t.texts && t.texts[key] == TextsOf(hits, key))
    && (forall key, text :: key in t.order && text in t.texts[key] ==>
         Asked(key, text) in t.byQuery && t.byQuery[Asked(key, text)] == QueryScoresOf(hits, key, text, scale))
  }

  function Got(lists: map<Key, seq<int>>, key: Key): seq<int> { if key in lists then lists[key] else [] }

  /** One hit counted. */
  function Counted(t: Tally, h: Scored, scale: real -> int): Tally
  {
    var texts := if h.key in t.texts then t.texts[h.key] else [];
    var own := if Asked(h.key, h.text) in t.byQuery then t.byQuery[Asked(h.key, h.text)] else [];
    Tally(if h.key in t.order then t.order else t.order + [h.key],
          t.scores[h.key := Got(t.scores, h.key) + [scale(h.raw)]],
          t.texts[h.key := if h.text in texts then texts else texts + [h.text]],
          t.byQuery[Asked(h.key, h.text) := own + [scale(h.raw)]])
  }

  /** Nothing is kept for what was not hit. */
  ghost predicate Bare(t: Tally)
  {
    && (forall key :: key in t.scores || key in t.texts ==> key in t.order)
    && (forall key, text :: Asked(key, text) in t.byQuery ==> key in t.texts && text in t.texts[key])
  }

  lemma UnseenKey(hits: seq<Scored>, key: Key, scale: real -> int)
    requires key !in KeysOf(hits)
    ensures ScoresOf(hits, key, scale) == [] && TextsOf(hits, key) == []
  {
    FirstsHold(FlatMap(hits, KeyOnly()));
    forall h | h in hits ensures h.key != key { FlatMapHolds(hits, KeyOnly(), h.key); }
    NothingFrom(hits, ScoreFor(key, scale));
    NothingFrom(hits, TextFor(key));
  }

  lemma UnseenText(hits: seq<Scored>, key: Key, text: Name, scale: real -> int)
    requires text !in TextsOf(hits, key)
    ensures QueryScoresOf(hits, key, text, scale) == []
  {
    FirstsHold(FlatMap(hits, TextFor(key)));
    forall h | h in hits ensures h.key != key || h.text != text { FlatMapHolds(hits, TextFor(key), h.text); }
    NothingFrom(hits, QueryScoreFor(key, text, scale));
  }

  lemma {:induction false} NothingFrom<T>(hits: seq<Scored>, f: Scored -> seq<T>)
    requires forall h :: h in hits ==> f(h) == []
    ensures FlatMap(hits, f) == []
  {
    if hits != [] { NothingFrom(hits[..|hits| - 1], f); }
  }

  lemma PushHit(hits: seq<Scored>, h: Scored, key: Key, text: Name, scale: real -> int)
    ensures ScoresOf(hits + [h], key, scale) == ScoresOf(hits, key, scale) + if h.key == key then [scale(h.raw)] else []
    ensures QueryScoresOf(hits + [h], key, text, scale) ==
            QueryScoresOf(hits, key, text, scale) + if h.key == key && h.text == text then [scale(h.raw)] else []
    ensures TextsOf(hits + [h], key) ==
            if h.key != key || h.text in TextsOf(hits, key) then TextsOf(hits, key) else TextsOf(hits, key) + [h.text]
    ensures KeysOf(hits + [h]) == if h.key in KeysOf(hits) then KeysOf(hits) else KeysOf(hits) + [h.key]
  {
    FlatMapPush(hits, h, ScoreFor(key, scale));
    FlatMapPush(hits, h, QueryScoreFor(key, text, scale));
    FlatMapPush(hits, h, TextFor(key));
    FlatMapPush(hits, h, KeyOnly());
    FirstsPush(FlatMap(hits, KeyOnly()), h.key);
    if h.key == key {
      FirstsPush(FlatMap(hits, TextFor(key)), h.text);
    } else {
      assert FlatMap(hits, TextFor(key)) + [] == FlatMap(hits, TextFor(key));
    }
  }

  lemma CountHit(t: Tally, hits: seq<Scored>, h: Scored, scale: real -> int)
    requires Tallies(t, hits, scale) && Bare(t)
    ensures Tallies(Counted(t, h, scale), hits + [h], scale) && Bare(Counted(t, h, scale))
  {
    hide ScoresOf, QueryScoresOf, TextsOf, KeysOf;
    var t' := Counted(t, h, scale);
    PushHit(hits, h, h.key, h.text, scale);
    if h.key !in t.order { UnseenKey(hits, h.key, scale); }
    if h.text !in TextsOf(hits, h.key) { UnseenText(hits, h.key, h.text, scale); }
    forall key | key in t'.order
      ensures key in t'.scores && t'.scores[key] == ScoresOf(hits + [h], key, scale)
      ensures key in t'.texts && t'.texts[key] == TextsOf(hits + [h], key)
    {
      PushHit(hits, h, key, h.text, scale);
    }
    forall key, text | key in t'.order && text in t'.texts[key]
      ensures Asked(key, text) in t'.byQuery
              && t'.byQuery[Asked(key, text)] == QueryScoresOf(hits + [h], key, text, scale)
    {
      PushHit(hits, h, key, text, scale);
    }
  }

  /** The first pass over the results. */
  method CollectHits(results: seq<QueryResult>, keys: map<RunId, Key>) returns (hits: seq<Scored>)
    ensures hits == HitsOf(results, keys)
  {
    hits := [];
    for i := 0 to |results|
      invariant hits == HitsOf(results[..i], keys)
    {
      var q := results[i];
      var key := KeyFor(q.run, keys);
      ghost var before := hits;
      for j := 0 to |q.hits|
        invariant hits == before + FlatMap(q.hits[..j], ScoredAs(key, q.text))
      {
        hits := hits + [Scored(key, q.text, EffectiveScore(q.hits[j]))];
        FlatMapPush(q.hits[..j], q.hits[j], ScoredAs(key, q.text));
        assert q.hits[..j + 1] == q.hits[..j] + [q.hits[j]];
      }
      assert q.hits[..|q.hits|] == q.hits;
      FlatMapPush(results[..i], q, HitsIn(keys));
      assert results[..i + 1] == results[..i] + [q];
    }
    assert results[..|results|] == results;
  }

  /** The second pass: scores, queries and per-query scores by configuration. */
  method TallyHits(hits: seq<Scored>, scale: real -> int) returns (t: Tally)
    ensures Tallies(t, hits, scale)
  {
    hide Tallies, Bare;
    var order: seq<Key>, scores: map<Key, seq<int>>, texts: map<Key, seq<Name>>, byQuery: map<Asked, seq<int>> :=
        [], map[], map[], map[];
    NothingTallied(scale);
    for i := 0 to |hits|
      invariant Tallies(Tally(order, scores, texts, byQuery), hits[..i], scale)
                && Bare(Tally(order, scores, texts, byQuery))
    {
      var h := hits[i];
      CountHit(Tally(order, scores, texts, byQuery), hits[..i], h, scale);
      assert hits[..i + 1] == hits[..i] + [h];
      var normalized := scale(h.raw);
      var seen := if h.key in texts then texts[h.key] else [];
      var own := if Asked(h.key, h.text) in byQuery then byQuery[Asked(h.key, h.text)] else [];
      order := if h.key in order then order else order + [h.key];
      scores := scores[h.key := Got(scores, h.key) + [normalized]];
      texts := texts[h.key := if h.text in seen then seen else seen + [h.text]];
      byQuery := byQuery[Asked(h.key, h.text) := own + [normalized]];
    }
    assert hits[..|hits|] == hits;
    t := Tally(order, scores, texts, byQuery);
  }

  lemma NothingTallied(scale: real -> int)
    ensures Tallies(Tally([], map[], map[], map[]), [], scale) && Bare(Tally([], map[], map[], map[]))
  {}

  lemma TalliedQueries(t: Tally, hits: seq<Scored>, scale: real -> int, key: Key)
    requires Tallies(t, hits, scale) && key in t.order
    ensures key in t.texts && t.texts[key] == TextsOf(hits, key)
    ensures forall text :: text in t.texts[key] ==>
              Asked(key, text) in t.byQuery && t.byQuery[Asked(key, text)] == QueryScoresOf(hits, key, text, scale)
  {}

  /** The averages of a configuration's queries. */
  method QueryAverages(t: Tally, key: Key, ghost hits: seq<Scored>, ghost scale: real -> int)
    returns (averages: seq<real>)
    requires Tallies(t, hits, scale) && key in t.order
    ensures averages == FlatMap(TextsOf(hits, key), MeanOfQuery(hits, key, scale))
  {
    TalliedQueries(t, hits, scale, key);
    hide Tallies, TextsOf, QueryScoresOf, Mean, Reals;
    averages := [];
    var texts := t.texts[key];
    for i := 0 to |texts|
      invariant averages == FlatMap(texts[..i], MeanOfQuery(hits, key, scale))
    {
      assert texts[i] in t.texts[key];
      averages := averages + [Mean(Reals(t.byQuery[Asked(key, texts[i])]))];
      FlatMapPush(texts[..i], texts[i], MeanOfQuery(hits, key, scale));
      assert texts[..i + 1] == texts[..i] + [texts[i]];
    }
    assert texts[..|texts|] == texts;
  }

  method EntriesFromTally(t: Tally, hits: seq<Scored>, round: real -> int) returns (entries: seq<Entry>)
    requires Tallies(t, hits, Scale(hits, round))
    ensures entries == Entries(hits, round)
  {
    hide Scale, KeysOf, TextsOf, Mean, Reals, MaxOf;
    ghost var scale := Scale(hits, round);
    entries := [];
    for i := 0 to |t.order|
      invariant entries == FlatMap(t.order[..i], EntryOf(hits, scale, round))
    {
      var key := t.order[i];
      var averages := QueryAverages(t, key, hits, scale);
      var scores := t.scores[key];
      entries := entries + [Entry(key, MaxOf(scores), round(Mean(Reals(scores))), round(Mean(averages)), |scores|)];
      FlatMapPush(t.order[..i], key, EntryOf(hits, scale, round));
      assert t.order[..i + 1] == t.order[..i] + [key];
    }
    assert t.order[..|t.order|] == t.order;
  }

  // ---- The whole response -------------------------------------------------------------------------------------

  /** The queries in order, the configurations best first with how many tie for best, and every hit. */
  datatype Analysis = Analysis(queries: seq<Name>, ranked: seq<Entry>, tied: nat, detailed: seq<Scored>)

  function AsksFor(text: Name): QueryResult -> bool { (q: QueryResult) => q.text == text }

  const EMPTY_TEXT: Name := 0

  /** The results of the selected query, or of all; an empty query text selects all. */
  function Selected(results: seq<QueryResult>, selected: Option<Name>): seq<QueryResult>
  {
    if selected.Some? && selected.value != EMPTY_TEXT then Filter(results, AsksFor(selected.value)) else results
  }

  function TextIn(): QueryResult -> seq<Name> { (q: QueryResult) => [q.text] }

  function Below(): (Name, Name) -> bool { (a: Name, b: Name) => a < b }

  /** `sorted` of a set of names. */
  function Ascending(names: seq<Name>): seq<Name> { StableSort(Firsts(names), Below()) }

  lemma BelowIsKeyOrder()
    ensures IsKeyOrder(Below())
  {}

  /** Each name once, in rising order. */
  lemma AscendingIs(names: seq<Name>)
    ensures var sorted := Ascending(names);
            && (forall i, j :: 0 <= i < j < |sorted| ==> sorted[i] < sorted[j])
            && forall name :: name in sorted <==> name in names
  {
    var sorted := Ascending(names);
    FirstsHold(names);
    CountsAtMostOne(Firsts(names));
    BelowIsKeyOrder();
    StableSortSorts(Firsts(names), Below());
    forall i, j | 0 <= i < j < |sorted| ensures sorted[i] < sorted[j] {
      assert !Below()(sorted[j], sorted[i]);
      if sorted[i] == sorted[j] { TwiceCounted(sorted, i, j); }
    }
    assert forall name :: name in sorted <==> name in multiset(sorted);
    assert forall name :: name in Firsts(names) <==> name in multiset(Firsts(names));
  }

  function QueriesOf(results: seq<QueryResult>): seq<Name> { Ascending(FlatMap(results, TextIn())) }

  function Scores(score: int): Entry -> bool { (e: Entry) => e.maxScore == score }

  function TiedForBest(ranked: seq<Entry>): nat
  {
    if ranked == [] then 0 else |Filter(ranked, Scores(ranked[0].maxScore))|
  }

  function ScoresAbove(scale: real -> int): (Scored, Scored) -> bool
  {
    (a: Scored, b: Scored) => scale(a.raw) > scale(b.raw)
  }

  /** The hits by falling score, equal ones as they came. */
  function Detailed(hits: seq<Scored>, round: real -> int): seq<Scored>
  {
    StableSort(hits, ScoresAbove(Scale(hits, round)))
  }

  lemma NoneAsked()
    ensures Firsts(FlatMap([], TextIn())) == []
  {}

  /** The texts that `queries_seen` collects. */
  method QueriesSeen(results: seq<QueryResult>) returns (seen: seq<Name>)
    ensures seen == Firsts(FlatMap(results, TextIn()))
  {
    NoneAsked();
    hide FlatMap, Firsts;
    seen := [];
    for i := 0 to |results|
      invariant seen == Firsts(FlatMap(results[..i], TextIn()))
    {
      assert TextIn()(results[i]) == [results[i].text];
      FlatMapPush(results[..i], results[i], TextIn());
      FirstsPush(FlatMap(results[..i], TextIn()), results[i].text);
      assert results[..i + 1] == results[..i] + [results[i]];
      if results[i].text !in seen {
        seen := seen + [results[i].text];
      }
    }
    assert results[..|results|] == results;
  }

  method CountTied(ranked: seq<Entry>) returns (tied: nat)
    ensures tied == TiedForBest(ranked)
  {
    tied := 0;
    if ranked == [] { return; }
    for i := 0 to |ranked|
      invariant tied == |Filter(ranked[..i], Scores(ranked[0].maxScore))|
    {
      assert ranked[..i + 1][..i] == ranked[..i];
      if ranked[i].maxScore == ranked[0].maxScore {
        tied := tied + 1;
      }
    }
    assert ranked[..|ranked|] == ranked;
  }

  /** `analyze_results`. */
  method AnalyzeResults(results: seq<QueryResult>, keys: map<RunId, Key>, round: real -> int, useQueryAvg: bool,
                        selected: Option<Name>)
    returns (analysis: Analysis)
    ensures analysis.queries == QueriesOf(Selected(results, selected))
    ensures analysis.ranked == Ranking(HitsOf(Selected(results, selected), keys), round, useQueryAvg)
    ensures analysis.tied == TiedForBest(analysis.ranked)
    ensures analysis.detailed == Detailed(HitsOf(Selected(results, selected), keys), round)
  {
    hide Tallies, HitsOf, Entries, Scale;
    var chosen := Selected(results, selected);
    var hits := CollectHits(chosen, keys);
    var t := TallyHits(hits, Scale(hits, round));
    var entries := EntriesFromTally(t, hits, round);
    var ranked := StableSort(entries, Leads(useQueryAvg));
    var tied := CountTied(ranked);
    var queries := QueriesSeen(chosen);
    analysis := Analysis(StableSort(queries, Below()), ranked, tied, StableSort(hits, ScoresAbove(Scale(hits, round))));
  }

  // ---- The best score is 100, or everything is 0 --------------------------------------------------------------

  lemma {:induction false} ExtremesBound(hits: seq<Scored>, h: Scored)
    requires h in hits
    ensures Lowest(hits) <= h.raw <= Highest(hits)
  {
    if |hits| > 1 {
      var front, last := hits[..|hits| - 1], hits[|hits| - 1];
      assert hits == front + [last];
      if h in front { ExtremesBound(front, h); } else if front != [] { ExtremesOrdered(front); }
    }
  }

  lemma ExtremesOrdered(hits: seq<Scored>)
    requires hits != []
    ensures Lowest(hits) <= Highest(hits)
  {}

  lemma {:induction false} ExtremesReached(hits: seq<Scored>) returns (low: Scored, high: Scored)
    requires hits != []
    ensures low in hits && high in hits && low.raw == Lowest(hits) && high.raw == Highest(hits)
  {
    var last := hits[|hits| - 1];
    low, high := last, last;
    if |hits| > 1 {
      var l, g := ExtremesReached(hits[..|hits| - 1]);
      if l.raw <= last.raw { low := l; }
      if g.raw >= last.raw { high := g; }
    }
  }

  ghost predicate ScoresDiffer(hits: seq<Scored>)
  {
    exists a, b :: a in hits && b in hits && a.raw != b.raw
  }

  lemma DifferExactly(hits: seq<Scored>)
    requires hits != []
    ensures ScoresDiffer(hits) <==> Lowest(hits) < Highest(hits)
  {}

  lemma ScaleBounds(hits: seq<Scored>, round: real -> int, h: Scored)
    requires IsRounding(round) && h in hits
    ensures Scale(hits, round)(h.raw) <= if ScoresDiffer(hits) then 100 else 0
    ensures ScoresDiffer(hits) && h.raw == Highest(hits) ==> Scale(hits, round)(h.raw) == 100
    ensures !ScoresDiffer(hits) ==> Scale(hits, round)(h.raw) == 0
  {
    DifferExactly(hits);
    ExtremesBound(hits, h);
    hide ScoresDiffer, IsRounding, Lowest, Highest;
    if ScoresDiffer(hits) {
      NormalizedAtMost(h.raw, Lowest(hits), Highest(hits), round);
    } else {
      NormalizedZero(h.raw, round);
    }
  }

  lemma NormalizedAtMost(raw: real, low: real, high: real, round: real -> int)
    requires IsRounding(round) && low <= raw <= high && low < high
    ensures Normalized(raw, low, high - low, round) <= 100
    ensures raw == high ==> Normalized(raw, low, high - low, round) == 100
  {
    var part, whole := raw - low, high - low;
    AtMostOne(part, whole);
    RoundedEnds(round);
    var share := part / whole * 100.0;
    assert share <= 100.0;
    assert round(share) <= round(100.0);
  }

  lemma AtMostOne(part: real, whole: real)
    requires part <= whole && whole > 0.0
    ensures part / whole <= 1.0 && (part == whole ==> part / whole == 1.0)
  {
    assert part / whole <= whole / whole == 1.0;
  }

  lemma RoundedEnds(round: real -> int)
    requires IsRounding(round)
    ensures round(100.0) == 100 && round(0.0) == 0
  {
    assert (100.0).Floor == 100 && (0.0).Floor == 0;
  }

  lemma NormalizedZero(raw: real, round: real -> int)
    requires IsRounding(round)
    ensures Normalized(raw, raw, 1.0, round) == 0
  {
    RoundedEnds(round);
    assert (raw - raw) / 1.0 * 100.0 == 0.0;
  }

  lemma {:induction false} MaxOfIs(scores: seq<int>)
    requires scores != []
    ensures MaxOf(scores) in scores && forall n :: n in scores ==> n <= MaxOf(scores)
  {
    if |scores| > 1 {
      MaxOfIs(scores[..|scores| - 1]);
      assert scores == scores[..|scores| - 1] + [scores[|scores| - 1]];
    }
  }

  lemma ScoresOfHits(hits: seq<Scored>, key: Key, scale: real -> int, n: int)
    ensures n in ScoresOf(hits, key, scale) <==> exists h :: h in hits && h.key == key && scale(h.raw) == n
  {
    FlatMapHolds(hits, ScoreFor(key, scale), n);
    if exists h :: h in hits && h.key == key && scale(h.raw) == n {
      var h :| h in hits && h.key == key && scale(h.raw) == n;
      assert n in ScoreFor(key, scale)(h);
    }
  }

  lemma KeysOfHits(hits: seq<Scored>, key: Key)
    ensures key in KeysOf(hits) <==> exists h :: h in hits && h.key == key
  {
    FirstsHold(FlatMap(hits, KeyOnly()));
    FlatMapHolds(hits, KeyOnly(), key);
    if exists h :: h in hits && h.key == key {
      var h :| h in hits && h.key == key;
      assert key in KeyOnly()(h);
    }
  }

  lemma EntriesHold(hits: seq<Scored>, round: real -> int, e: Entry)
    ensures e in Entries(hits, round) <==>
              e.key in KeysOf(hits) && e == EntryFor(hits, e.key, Scale(hits, round), round)
  {
    hide KeysOf, EntryFor;
    var scale := Scale(hits, round);
    FlatMapHolds(KeysOf(hits), EntryOf(hits, scale, round), e);
    if e.key in KeysOf(hits) && e == EntryFor(hits, e.key, scale, round) {
      assert e in EntryOf(hits, scale, round)(e.key);
    }
    EntryKeys(hits, scale, round);
  }

  lemma EntryKeys(hits: seq<Scored>, scale: real -> int, round: real -> int)
    ensures forall key :: EntryFor(hits, key, scale, round).key == key
  {}

  lemma RankingHolds(hits: seq<Scored>, round: real -> int, useQueryAvg: bool, e: Entry)
    ensures e in Ranking(hits, round, useQueryAvg) <==> e in Entries(hits, round)
  {
    assert e in Ranking(hits, round, useQueryAvg) <==> e in multiset(Ranking(hits, round, useQueryAvg));
  }

  /** A configuration's best score is its best hit's. */
  lemma EntryMaxIs(hits: seq<Scored>, round: real -> int, e: Entry)
    requires e in Entries(hits, round)
    ensures exists h :: h in hits && h.key == e.key && Scale(hits, round)(h.raw) == e.maxScore
    ensures forall h :: h in hits && h.key == e.key ==> Scale(hits, round)(h.raw) <= e.maxScore
  {
    hide Scale;
    var scale := Scale(hits, round);
    EntriesHold(hits, round, e);
    KeysOfHits(hits, e.key);
    var h :| h in hits && h.key == e.key;
    ScoresOfHits(hits, e.key, scale, scale(h.raw));
    MaxOfIs(ScoresOf(hits, e.key, scale));
    ScoresOfHits(hits, e.key, scale, e.maxScore);
    forall g | g in hits && g.key == e.key ensures scale(g.raw) <= e.maxScore {
      ScoresOfHits(hits, e.key, scale, scale(g.raw));
    }
  }

  /** The highest score of any configuration. */
  lemma EntryScore(hits: seq<Scored>, round: real -> int, e: Entry)
    requires IsRounding(round) && e in Entries(hits, round)
    ensures e.maxScore <= if ScoresDiffer(hits) then 100 else 0
    ensures !ScoresDiffer(hits) ==> e.maxScore == 0
  {
    hide IsRounding, ScoresDiffer, Scale;
    EntryMaxIs(hits, round, e);
    var g :| g in hits && g.key == e.key && Scale(hits, round)(g.raw) == e.maxScore;
    ScaleBounds(hits, round, g);
  }

  lemma SomeEntryScores100(hits: seq<Scored>, round: real -> int) returns (e: Entry)
    requires IsRounding(round) && ScoresDiffer(hits)
    ensures e in Entries(hits, round) && e.maxScore >= 100
  {
    var low, high := ExtremesReached(hits);
    hide IsRounding, ScoresDiffer, Scale;
    var scale := Scale(hits, round);
    e := EntryFor(hits, high.key, scale, round);
    KeysOfHits(hits, high.key);
    EntriesHold(hits, round, e);
    ScaleBounds(hits, round, high);
    ScoresOfHits(hits, high.key, scale, 100);
    MaxOfIs(ScoresOf(hits, high.key, scale));
  }

  lemma {:induction false} EntriesFrom(keys: seq<Key>, hits: seq<Scored>, scale: real -> int, round: real -> int)
    ensures var entries := FlatMap(keys, EntryOf(hits, scale, round));
            |entries| == |keys| && forall i :: 0 <= i < |keys| ==> entries[i] == EntryFor(hits, keys[i], scale, round)
  {
    hide EntryFor;
    if keys != [] { EntriesFrom(keys[..|keys| - 1], hits, scale, round); }
  }

  /** Where an entry's configuration was first seen. */
  function FirstSeenAt(hits: seq<Scored>): Entry -> int { (e: Entry) => IndexOf(KeysOf(hits), e.key) }

  lemma RankingArranged(hits: seq<Scored>, round: real -> int, useQueryAvg: bool)
    ensures Arranged(Ranking(hits, round, useQueryAvg), Leads(useQueryAvg), FirstSeenAt(hits))
  {
    var keys, scale, entries := KeysOf(hits), Scale(hits, round), Entries(hits, round);
    FirstsHold(FlatMap(hits, KeyOnly()));
    EntriesFrom(keys, hits, scale, round);
    forall i, j | 0 <= i < j < |entries| ensures FirstSeenAt(hits)(entries[i]) < FirstSeenAt(hits)(entries[j]) {
      IndexWhere(keys, i);
      IndexWhere(keys, j);
    }
    hide Leads, Entries;
    LeadsIsKeyOrder(useQueryAvg);
    StableSortArranges(entries, Leads(useQueryAvg), FirstSeenAt(hits));
  }

  /** A ranking goes by best score, then the chosen average, both falling; then by chunk size, overlap and
      padding, all rising. */
  lemma RankedInOrder(hits: seq<Scored>, round: real -> int, useQueryAvg: bool, i: nat, j: nat)
    requires i < j < |Ranking(hits, round, useQueryAvg)|
    ensures var a, b := Ranking(hits, round, useQueryAvg)[i], Ranking(hits, round, useQueryAvg)[j];
            var m, n := ChosenAverage(a, useQueryAvg), ChosenAverage(b, useQueryAvg);
            && a.maxScore >= b.maxScore
            && (a.maxScore == b.maxScore ==> m >= n)
            && (a.maxScore == b.maxScore && m == n ==> a.key.chunkSize <= b.key.chunkSize)
            && (a.maxScore == b.maxScore && m == n && a.key.chunkSize == b.key.chunkSize ==>
                 a.key.overlap <= b.key.overlap)
            && (a.maxScore == b.maxScore && m == n && a.key.chunkSize == b.key.chunkSize
                && a.key.overlap == b.key.overlap ==>
                 a.key.padding <= b.key.padding)
  {
    LeadsIsKeyOrder(useQueryAvg);
    hide Entries, StableSort;
    StableSortSorts(Entries(hits, round), Leads(useQueryAvg));
    assert !Leads(useQueryAvg)(Ranking(hits, round, useQueryAvg)[j], Ranking(hits, round, useQueryAvg)[i]);
  }

  lemma RankedFirst(hits: seq<Scored>, round: real -> int, useQueryAvg: bool, e: Entry)
    requires e in Ranking(hits, round, useQueryAvg)
    ensures e.maxScore <= Ranking(hits, round, useQueryAvg)[0].maxScore
  {
    hide Entries;
    RankingArranged(hits, round, useQueryAvg);
    var ranked := Ranking(hits, round, useQueryAvg);
    var k :| 0 <= k < |ranked| && ranked[k] == e;
    if k > 0 { assert Leads(useQueryAvg)(ranked[0], ranked[k]) || !Leads(useQueryAvg)(ranked[k], ranked[0]); }
  }

  /** The winner of a ranking scores 100 if any two raw scores differ, and 0 if none do. */
  lemma BestIsHundredExactly(hits: seq<Scored>, round: real -> int, useQueryAvg: bool)
    requires IsRounding(round) && Ranking(hits, round, useQueryAvg) != []
    ensures Ranking(hits, round, useQueryAvg)[0].maxScore == if ScoresDiffer(hits) then 100 else 0
  {
    hide IsRounding, ScoresDiffer;
    var ranked := Ranking(hits, round, useQueryAvg);
    RankingHolds(hits, round, useQueryAvg, ranked[0]);
    EntryScore(hits, round, ranked[0]);
    if ScoresDiffer(hits) {
      var e := SomeEntryScores100(hits, round);
      RankingHolds(hits, round, useQueryAvg, e);
      RankedFirst(hits, round, useQueryAvg, e);
    }
  }

  // ---- What ties and details mean -----------------------------------------------------------------------------

  lemma {:induction false} HeadCount(ranked: seq<Entry>, score: int)
    requires forall i, j :: 0 <= i < j < |ranked| ==> ranked[i].maxScore >= ranked[j].maxScore
    requires forall i :: 0 <= i < |ranked| ==> ranked[i].maxScore <= score
    ensures var n := |Filter(ranked, Scores(score))|;
            n <= |ranked| && forall i :: 0 <= i < |ranked| ==> (ranked[i].maxScore == score <==> i < n)
  {
    if ranked != [] {
      var front, last := ranked[..|ranked| - 1], ranked[|ranked| - 1];
      HeadCount(front, score);
      var n := |Filter(front, Scores(score))|;
      if n < |front| { assert front[n].maxScore >= last.maxScore; }
    }
  }

  /** The configurations that tie for the best score are the first ones of the ranking, as many as counted. */
  lemma TiesLead(hits: seq<Scored>, round: real -> int, useQueryAvg: bool, i: nat)
    requires i < |Ranking(hits, round, useQueryAvg)|
    ensures var ranked := Ranking(hits, round, useQueryAvg);
            ranked[i].maxScore == ranked[0].maxScore <==> i < TiedForBest(ranked)
  {
    var ranked := Ranking(hits, round, useQueryAvg);
    forall m, n | 0 <= m < n < |ranked| ensures ranked[m].maxScore >= ranked[n].maxScore {
      RankedInOrder(hits, round, useQueryAvg, m, n);
    }
    hide Ranking;
    HeadCount(ranked, ranked[0].maxScore);
  }

  lemma ScoresAboveIsKeyOrder(scale: real -> int)
    ensures IsKeyOrder(ScoresAbove(scale))
  {}

  /** The detailed hits are all the hits by falling score, and the first one's score is the best
      configuration's best score. */
  lemma DetailsAgreeWithRanking(hits: seq<Scored>, round: real -> int, useQueryAvg: bool)
    ensures var detailed, ranked, scale := Detailed(hits, round), Ranking(hits, round, useQueryAvg), Scale(hits, round);
            && multiset(detailed) == multiset(hits)
            && (forall i, j :: 0 <= i < j < |detailed| ==> scale(detailed[i].raw) >= scale(detailed[j].raw))
            && (hits != [] ==> detailed != [] && ranked != [] && scale(detailed[0].raw) == ranked[0].maxScore)
  {
    var detailed, ranked, scale := Detailed(hits, round), Ranking(hits, round, useQueryAvg), Scale(hits, round);
    ScoresAboveIsKeyOrder(scale);
    StableSortSorts(hits, ScoresAbove(scale));
    forall i, j | 0 <= i < j < |detailed| ensures scale(detailed[i].raw) >= scale(detailed[j].raw) {
      assert !ScoresAbove(scale)(detailed[j], detailed[i]);
    }
    if hits != [] {
      assert |detailed| == |multiset(detailed)| == |hits|;
      FirstDetail(hits, round, useQueryAvg, detailed);
    }
  }

  lemma FirstDetail(hits: seq<Scored>, round: real -> int, useQueryAvg: bool, detailed: seq<Scored>)
    requires detailed != [] && multiset(detailed) == multiset(hits)
    requires forall i, j :: 0 <= i < j < |detailed| ==>
               Scale(hits, round)(detailed[i].raw) >= Scale(hits, round)(detailed[j].raw)
    ensures var ranked := Ranking(hits, round, useQueryAvg);
            ranked != [] && Scale(hits, round)(detailed[0].raw) == ranked[0].maxScore
  {
    hide Scale, Entries, Ranking;
    var top, ranked := detailed[0], Ranking(hits, round, useQueryAvg);
    assert top in multiset(hits);
    KeysOfHits(hits, top.key);
    var e := EntryFor(hits, top.key, Scale(hits, round), round);
    EntriesHold(hits, round, e);
    RankingHolds(hits, round, useQueryAvg, e);
    EntryMaxIs(hits, round, e);
    RankedFirst(hits, round, useQueryAvg, e);
    RankingHolds(hits, round, useQueryAvg, ranked[0]);
    EntryMaxIs(hits, round, ranked[0]);
    var h :| h in hits && h.key == ranked[0].key && Scale(hits, round)(h.raw) == ranked[0].maxScore;
    assert h in multiset(detailed);
    var k :| 0 <= k < |detailed| && detailed[k] == h;
  }

  // ---- The order of the results does not matter ---------------------------------------------------------------

  lemma ScalePermutes(a: seq<Scored>, b: seq<Scored>, round: real -> int)
    requires multiset(a) == multiset(b)
    ensures Scale(a, round) == Scale(b, round)
  {
    assert |a| == |multiset(a)| == |multiset(b)| == |b|;
    if a != [] {
      var lowA, highA := ExtremesReached(a);
      var lowB, highB := ExtremesReached(b);
      assert lowA in multiset(b) && highA in multiset(b) && lowB in multiset(a) && highB in multiset(a);
      ExtremesBound(b, lowA);
      ExtremesBound(b, highA);
      ExtremesBound(a, lowB);
      ExtremesBound(a, highB);
    }
  }

  lemma MaxOfPermutes(a: seq<int>, b: seq<int>)
    requires multiset(a) == multiset(b)
    ensures MaxOf(a) == MaxOf(b)
  {
    assert |a| == |multiset(a)| == |multiset(b)| == |b|;
    if a != [] {
      MaxOfIs(a);
      MaxOfIs(b);
      assert MaxOf(a) in multiset(b) && MaxOf(b) in multiset(a);
      assert MaxOf(a) in b && MaxOf(b) in a;
    }
  }

  lemma MeanOfRealsPermutes(a: seq<int>, b: seq<int>)
    requires multiset(a) == multiset(b)
    ensures Mean(Reals(a)) == Mean(Reals(b))
  {
    FlatMapPermutes(a, b, AsReal());
    SumPermutes(Reals(a), Reals(b));
  }

  lemma QueryMeanPermutes(a: seq<Scored>, b: seq<Scored>, key: Key, scale: real -> int)
    requires multiset(a) == multiset(b)
    ensures QueryMean(a, key, scale) == QueryMean(b, key, scale)
  {
    FlatMapPermutes(a, b, TextFor(key));
    var f, g := FlatMap(a, TextFor(key)), FlatMap(b, TextFor(key));
    FirstsHold(f);
    FirstsHold(g);
    assert forall text :: text in multiset(f) <==> text in multiset(g);
    assert forall text :: (text in f <==> text in multiset(f)) && (text in g <==> text in multiset(g));
    SameMembers(TextsOf(a, key), TextsOf(b, key));
    forall text | text in TextsOf(a, key) ensures MeanOfQuery(a, key, scale)(text) == MeanOfQuery(b, key, scale)(text) {
      FlatMapPermutes(a, b, QueryScoreFor(key, text, scale));
      MeanOfRealsPermutes(QueryScoresOf(a, key, text, scale), QueryScoresOf(b, key, text, scale));
    }
    FlatMapSame(TextsOf(a, key), MeanOfQuery(a, key, scale), MeanOfQuery(b, key, scale));
    FlatMapPermutes(TextsOf(a, key), TextsOf(b, key), MeanOfQuery(b, key, scale));
    SumPermutes(FlatMap(TextsOf(a, key), MeanOfQuery(a, key, scale)),
                FlatMap(TextsOf(b, key), MeanOfQuery(b, key, scale)));
  }

  /** A configuration's figures depend only on which hits there are. */
  lemma EntryPermutes(a: seq<Scored>, b: seq<Scored>, key: Key, scale: real -> int, round: real -> int)
    requires multiset(a) == multiset(b)
    ensures EntryFor(a, key, scale, round) == EntryFor(b, key, scale, round)
  {
    FlatMapPermutes(a, b, ScoreFor(key, scale));
    var f, g := ScoresOf(a, key, scale), ScoresOf(b, key, scale);
    assert |f| == |multiset(f)| == |multiset(g)| == |g|;
    MaxOfPermutes(f, g);
    MeanOfRealsPermutes(f, g);
    QueryMeanPermutes(a, b, key, scale);
  }
}
