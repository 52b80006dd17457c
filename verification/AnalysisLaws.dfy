/**
 What the figures of an analysis mean: which score a hit counts for, what averages are, and whether the highest
 score wins (server/core/results_analyzer.py:15-21, 64-118, 173-227).
 */
module AnalysisLaws {
  import opened Collections
  import opened Listing
  import opened Sorting
  import opened ResultsAnalyzer

  // ---- What a hit counts for ----------------------------------------------------------------------------------

  /** The hits of one more query result come behind the others, each under its run's configuration, with its rerank
      score if it has one, else its dense score, else zero. */
  lemma HitsInOrder(results: seq<QueryResult>, q: QueryResult, keys: map<RunId, Key>)
    ensures HitsOf([], keys) == []
    ensures HitsOf(results + [q], keys) == HitsOf(results, keys) + seq(|q.hits|, i requires 0 <= i < |q.hits| =>
              Scored(if q.run in keys then keys[q.run] else Key(0, 0, 0, 0, 0), q.text,
                     if q.hits[i].rerank.Some? then q.hits[i].rerank.value
                     else if q.hits[i].dense.Some? then q.hits[i].dense.value else 0.0))
  {
    FlatMapPush(results, q, HitsIn(keys));
    ScoredInOrder(q.hits, KeyFor(q.run, keys), q.text);
  }

  lemma {:induction false} ScoredInOrder(hits: seq<SearchHit>, key: Key, text: Name)
    ensures FlatMap(hits, ScoredAs(key, text)) == seq(|hits|, i requires 0 <= i < |hits| =>
              Scored(key, text, if hits[i].rerank.Some? then hits[i].rerank.value
                                else if hits[i].dense.Some? then hits[i].dense.value else 0.0))
  {
    if hits != [] { ScoredInOrder(hits[..|hits| - 1], key, text); }
  }

  /** Where a query text is selected, the results for it are analysed, in order; with none, or the empty text, all. */
  lemma SelectedInOrder(results: seq<QueryResult>, q: QueryResult, selected: Option<Name>)
    ensures Selected([], selected) == []
    ensures Selected(results + [q], selected) ==
            Selected(results, selected) + if selected in {None, Some(0), Some(q.text)} then [q] else []
  {
    assert (results + [q])[..|results|] == results;
  }

  /** The query texts of the results are listed once each, in rising order. */
  lemma QueriesInOrder(results: seq<QueryResult>)
    ensures forall i, j :: 0 <= i < j < |QueriesOf(results)| ==> QueriesOf(results)[i] < QueriesOf(results)[j]
    ensures forall text :: text in QueriesOf(results) <==> exists q :: q in results && q.text == text
  {
    AscendingIs(FlatMap(results, TextIn()));
    forall text ensures text in FlatMap(results, TextIn()) <==> exists q :: q in results && q.text == text {
      FlatMapHolds(results, TextIn(), text);
      if q :| q in results && q.text == text { assert text in TextIn()(q); }
    }
  }

  /** The two lists are the same but for the dense scores of hits that have a rerank score. */
  ghost predicate SameButDense(a: seq<QueryResult>, b: seq<QueryResult>)
  {
    && |a| == |b|
    && forall i :: 0 <= i < |a| ==>
         && a[i].run == b[i].run && a[i].text == b[i].text && |a[i].hits| == |b[i].hits|
         && forall j :: 0 <= j < |a[i].hits| ==>
              && a[i].hits[j].rerank == b[i].hits[j].rerank
              && (a[i].hits[j].rerank.None? ==> a[i].hits[j].dense == b[i].hits[j].dense)
  }

  lemma {:induction false} SameHits(a: seq<QueryResult>, b: seq<QueryResult>, keys: map<RunId, Key>)
    requires SameButDense(a, b)
    ensures HitsOf(a, keys) == HitsOf(b, keys) && FlatMap(a, TextIn()) == FlatMap(b, TextIn())
  {
    if a != [] {
      var n := |a| - 1;
      SameHits(a[..n], b[..n], keys);
      SameScored(a[n].hits, b[n].hits, KeyFor(a[n].run, keys), a[n].text);
    }
  }

  lemma {:induction false} SameScored(a: seq<SearchHit>, b: seq<SearchHit>, key: Key, text: Name)
    requires |a| == |b| && forall j :: 0 <= j < |a| ==>
               a[j].rerank == b[j].rerank && (a[j].rerank.None? ==> a[j].dense == b[j].dense)
    ensures FlatMap(a, ScoredAs(key, text)) == FlatMap(b, ScoredAs(key, text))
  {
    if a != [] { SameScored(a[..|a| - 1], b[..|b| - 1], key, text); }
  }

  /** The dense score of a reranked hit changes nothing of an analysis. */
  lemma RerankHidesDense(a: seq<QueryResult>, b: seq<QueryResult>, keys: map<RunId, Key>, round: real -> int,
                         useQueryAvg: bool)
    requires SameButDense(a, b)
    ensures QueriesOf(a) == QueriesOf(b)
    ensures Ranking(HitsOf(a, keys), round, useQueryAvg) == Ranking(HitsOf(b, keys), round, useQueryAvg)
    ensures Detailed(HitsOf(a, keys), round) == Detailed(HitsOf(b, keys), round)
  {
    SameHits(a, b, keys);
  }

  // ---- Does the highest score win? ----------------------------------------------------------------------------

  ghost predicate IsHighest(hits: seq<Scored>, h: Scored)
  {
    h in hits && forall g :: g in hits ==> g.raw <= h.raw
  }

  /** The configuration that comes first holds a highest raw score. */
  ghost predicate HighestWins(hits: seq<Scored>, round: real -> int, useQueryAvg: bool)
  {
    var ranked := Ranking(hits, round, useQueryAvg);
    ranked != [] && exists h :: IsHighest(hits, h) && h.key == ranked[0].key
  }

  /** No lower score is rounded up to where the highest is. */
  ghost predicate RoundsApart(hits: seq<Scored>, round: real -> int)
  {
    forall g, h :: IsHighest(hits, h) && g in hits && Scale(hits, round)(g.raw) == Scale(hits, round)(h.raw) ==>
      g.raw == h.raw
  }

  /** The same raw scores, for any configurations and queries. */
  ghost predicate SameRaws(a: seq<Scored>, b: seq<Scored>)
  {
    |a| == |b| && forall i :: 0 <= i < |a| ==> a[i].raw == b[i].raw
  }

  lemma SomeHighest(hits: seq<Scored>) returns (h: Scored)
    requires hits != []
    ensures IsHighest(hits, h) && h.raw == Highest(hits)
  {
    var low;
    low, h := ExtremesReached(hits);
    forall g | g in hits ensures g.raw <= h.raw { ExtremesBound(hits, g); }
  }

  lemma {:induction false} SameExtremes(a: seq<Scored>, b: seq<Scored>)
    requires SameRaws(a, b) && a != []
    ensures Lowest(a) == Lowest(b) && Highest(a) == Highest(b)
  {
    if |a| > 1 { SameExtremes(a[..|a| - 1], b[..|b| - 1]); }
  }

  lemma SameScale(a: seq<Scored>, b: seq<Scored>, round: real -> int)
    requires SameRaws(a, b)
    ensures Scale(a, round) == Scale(b, round)
  {
    if a != [] { SameExtremes(a, b); }
  }

  /** The winner has a hit that is rounded to where the highest is. */
  lemma WinnerIsAtTheTop(hits: seq<Scored>, round: real -> int, useQueryAvg: bool) returns (g: Scored, h: Scored)
    requires IsRounding(round) && hits != []
    ensures var ranked := Ranking(hits, round, useQueryAvg);
            && ranked != [] && g in hits && g.key == ranked[0].key && IsHighest(hits, h)
            && Scale(hits, round)(g.raw) == Scale(hits, round)(h.raw) == ranked[0].maxScore
  {
    h := SomeHighest(hits);
    DetailsAgreeWithRanking(hits, round, useQueryAvg);
    BestIsHundredExactly(hits, round, useQueryAvg);
    ScaleBounds(hits, round, h);
    var ranked := Ranking(hits, round, useQueryAvg);
    RankingHolds(hits, round, useQueryAvg, ranked[0]);
    EntryMaxIs(hits, round, ranked[0]);
    g :| g in hits && g.key == ranked[0].key && Scale(hits, round)(g.raw) == ranked[0].maxScore;
  }

  lemma RoundsApartAlike(a: seq<Scored>, b: seq<Scored>, round: real -> int)
    requires SameRaws(a, b) && RoundsApart(a, round)
    ensures RoundsApart(b, round)
  {
    SameScale(a, b, round);
    hide Scale;
    forall g, h | IsHighest(b, h) && g in b && Scale(b, round)(g.raw) == Scale(b, round)(h.raw) ensures g.raw == h.raw {
      var i :| 0 <= i < |b| && b[i] == g;
      var j :| 0 <= j < |b| && b[j] == h;
      forall f | f in a ensures f.raw <= a[j].raw {
        var k :| 0 <= k < |a| && a[k] == f;
        assert b[k] in b;
      }
      assert IsHighest(a, a[j]) && a[i] in a;
    }
  }

  const ALL: Key := Key(0, 0, 1, 0, 0)
  const ALONE: Key := Key(0, 0, 0, 0, 0)

  /** Hit `k` alone under one configuration, and all others under another with larger chunks. */
  function Apart(hits: seq<Scored>, k: nat): seq<Scored>
  {
    seq(|hits|, i requires 0 <= i < |hits| => Scored(if i == k then ALONE else ALL, 0, hits[i].raw))
  }

  lemma {:induction false} SumBounds(xs: seq<real>, low: real, high: real)
    requires forall x :: x in xs ==> low <= x <= high
    ensures low * |xs| as real <= Sum(xs) <= high * |xs| as real
  {
    if xs != [] {
      var n := |xs| - 1;
      assert xs[n] in xs && forall x :: x in xs[..n] ==> x in xs;
      SumBounds(xs[..n], low, high);
      assert |xs| as real == n as real + 1.0;
    }
  }

  /** An average lies between the lowest and the highest, and times their number is their sum. */
  lemma MeanIs(xs: seq<real>, low: real, high: real)
    requires xs != [] && forall x :: x in xs ==> low <= x <= high
    ensures low <= Mean(xs) <= high && Mean(xs) * |xs| as real == Sum(xs)
  {
    SumBounds(xs, low, high);
    hide Sum;
    Quotient(Sum(xs), |xs| as real, low, high);
  }

  lemma Quotient(sum: real, n: real, low: real, high: real)
    requires n > 0.0 && low * n <= sum <= high * n
    ensures low <= sum / n <= high && sum / n * n == sum
  {
    DividedBack(sum, n);
    LessWithout(low, sum / n, n);
    LessWithout(sum / n, high, n);
  }

  lemma DividedBack(x: real, n: real)
    requires n > 0.0
    ensures x / n * n == x
  {}

  lemma LessWithout(x: real, y: real, n: real)
    requires n > 0.0 && x * n <= y * n
    ensures x <= y
  {}

  lemma {:induction false} RealsHold(scores: seq<int>)
    ensures |Reals(scores)| == |scores| && forall i :: 0 <= i < |scores| ==> Reals(scores)[i] == scores[i] as real
  {
    if scores != [] { RealsHold(scores[..|scores| - 1]); }
  }

  lemma MeanOfScores(scores: seq<int>, low: int, high: int)
    requires scores != [] && forall n :: n in scores ==> low <= n <= high
    ensures low as real <= Mean(Reals(scores)) <= high as real
  {
    RealsHold(scores);
    forall x | x in Reals(scores) ensures low as real <= x <= high as real {
      var i :| 0 <= i < |Reals(scores)| && Reals(scores)[i] == x;
      assert scores[i] in scores;
    }
    MeanIs(Reals(scores), low as real, high as real);
  }

  lemma RoundBetween(round: real -> int, x: real, low: int, high: int)
    requires IsRounding(round) && low as real <= x <= high as real
    ensures low <= round(x) <= high
  {
    assert (low as real).Floor == low && (high as real).Floor == high;
    assert round(low as real) == low && round(high as real) == high;
  }

  lemma QueryScoresAreScores(hits: seq<Scored>, key: Key, text: Name, scale: real -> int, n: int)
    requires n in QueryScoresOf(hits, key, text, scale)
    ensures exists h :: h in hits && h.key == key && h.text == text && scale(h.raw) == n
  {
    FlatMapHolds(hits, QueryScoreFor(key, text, scale), n);
  }

  lemma TextHasScores(hits: seq<Scored>, key: Key, text: Name, scale: real -> int)
    requires text in TextsOf(hits, key)
    ensures QueryScoresOf(hits, key, text, scale) != []
  {
    FirstsHold(FlatMap(hits, TextFor(key)));
    FlatMapHolds(hits, TextFor(key), text);
    var h :| h in hits && text in TextFor(key)(h);
    FlatMapHolds(hits, QueryScoreFor(key, text, scale), scale(h.raw));
    assert scale(h.raw) in QueryScoreFor(key, text, scale)(h);
  }

  lemma KeyHasTexts(hits: seq<Scored>, key: Key, h: Scored)
    requires h in hits && h.key == key
    ensures TextsOf(hits, key) != []
  {
    FirstsHold(FlatMap(hits, TextFor(key)));
    FlatMapHolds(hits, TextFor(key), h.text);
    assert h.text in TextFor(key)(h);
  }

  lemma {:induction false} MeansBetween(texts: seq<Name>, hits: seq<Scored>, key: Key, scale: real -> int, low: int,
                                        high: int)
    requires forall text :: text in texts ==> text in TextsOf(hits, key)
    requires forall h :: h in hits && h.key == key ==> low <= scale(h.raw) <= high
    ensures |FlatMap(texts, MeanOfQuery(hits, key, scale))| == |texts|
    ensures forall x :: x in FlatMap(texts, MeanOfQuery(hits, key, scale)) ==> low as real <= x <= high as real
  {
    if texts != [] {
      var n := |texts| - 1;
      assert texts[n] in texts && forall t :: t in texts[..n] ==> t in texts;
      MeansBetween(texts[..n], hits, key, scale, low, high);
      var scores := QueryScoresOf(hits, key, texts[n], scale);
      TextHasScores(hits, key, texts[n], scale);
      forall m | m in scores ensures low <= m <= high { QueryScoresAreScores(hits, key, texts[n], scale, m); }
      MeanOfScores(scores, low, high);
    }
  }

  /** Both averages of a configuration lie between its lowest and its highest score. */
  lemma AveragesBetween(hits: seq<Scored>, key: Key, scale: real -> int, round: real -> int, low: int, high: int)
    requires IsRounding(round) && exists h :: h in hits && h.key == key
    requires forall h :: h in hits && h.key == key ==> low <= scale(h.raw) <= high
    ensures var e := EntryFor(hits, key, scale, round); low <= e.avgScore <= high && low <= e.queryAvgScore <= high
  {
    hide IsRounding, Mean, Reals;
    var h :| h in hits && h.key == key;
    var scores, texts := ScoresOf(hits, key, scale), TextsOf(hits, key);
    forall n | n in scores ensures low <= n <= high { ScoresOfHits(hits, key, scale, n); }
    ScoresOfHits(hits, key, scale, scale(h.raw));
    MeanOfScores(scores, low, high);
    RoundBetween(round, Mean(Reals(scores)), low, high);
    KeyHasTexts(hits, key, h);
    MeansBetween(texts, hits, key, scale, low, high);
    MeanIs(FlatMap(texts, MeanOfQuery(hits, key, scale)), low as real, high as real);
    RoundBetween(round, QueryMean(hits, key, scale), low, high);
  }

  /** Where a lower score is rounded up to the top it wins, if it is on its own: its average is no worse. */
  lemma LoneHitWins(hits: seq<Scored>, round: real -> int, useQueryAvg: bool, k: nat, j: nat)
    requires IsRounding(round) && k < |hits| && j < |hits| && hits[k].raw < hits[j].raw && IsHighest(hits, hits[j])
    requires Scale(hits, round)(hits[k].raw) == Scale(hits, round)(hits[j].raw)
    ensures !HighestWins(Apart(hits, k), round, useQueryAvg)
  {
    var others := Apart(hits, k);
    hide IsRounding, Scale, Ranking, HighestWins, EntryFor;
    ApartTop(hits, round, k, j);
    LoneEntry(others, round, k, j, hits);
    LoneEntryLeads(hits, round, useQueryAvg, k);
    NotHighestAlone(hits, k, j, round, useQueryAvg);
  }

  lemma ApartTop(hits: seq<Scored>, round: real -> int, k: nat, j: nat)
    requires IsRounding(round) && k < |hits| && j < |hits| && hits[k].raw < hits[j].raw && IsHighest(hits, hits[j])
    requires Scale(hits, round)(hits[k].raw) == Scale(hits, round)(hits[j].raw)
    ensures var others := Apart(hits, k);
            && Scale(others, round)(others[k].raw) == 100
            && forall f :: f in others ==> Scale(others, round)(f.raw) <= 100
  {
    var others := Apart(hits, k);
    SameScale(hits, others, round);
    hide IsRounding, Scale;
    forall g | g in others ensures g.raw <= others[j].raw {
      var i :| 0 <= i < |others| && others[i] == g;
      assert hits[i] in hits;
    }
    assert others[k] in others && others[j] in others;
    TopIsHundred(others, round, others[k], others[j]);
  }

  lemma LoneEntryLeads(hits: seq<Scored>, round: real -> int, useQueryAvg: bool, k: nat)
    requires k < |hits|
    requires var others := Apart(hits, k); var scale := Scale(others, round);
             var alone, all := EntryFor(others, ALONE, scale, round), EntryFor(others, ALL, scale, round);
             && alone in Entries(others, round)
             && alone.maxScore == 100 && alone.avgScore == 100 && alone.queryAvgScore == 100
             && all.maxScore <= 100 && all.avgScore <= 100 && all.queryAvgScore <= 100
    ensures var ranked := Ranking(Apart(hits, k), round, useQueryAvg); ranked != [] && ranked[0].key == ALONE
  {
    hide Scale, Ranking, EntryFor;
    var others := Apart(hits, k);
    var scale, ranked := Scale(others, round), Ranking(others, round, useQueryAvg);
    var alone, all := EntryFor(others, ALONE, scale, round), EntryFor(others, ALL, scale, round);
    EntryKeys(others, scale, round);
    RankingHolds(others, round, useQueryAvg, alone);
    FirstIsNotLed(others, round, useQueryAvg, alone);
    assert Leads(useQueryAvg)(alone, all);
    RankingHolds(others, round, useQueryAvg, ranked[0]);
    EntriesHold(others, round, ranked[0]);
    KeysOfHits(others, ranked[0].key);
  }

  lemma TopIsHundred(hits: seq<Scored>, round: real -> int, g: Scored, h: Scored)
    requires IsRounding(round) && g in hits && IsHighest(hits, h) && g.raw < h.raw
    ensures Scale(hits, round)(h.raw) == 100
    ensures forall f :: f in hits ==> Scale(hits, round)(f.raw) <= 100
  {
    var top := SomeHighest(hits);
    assert ScoresDiffer(hits);
    hide IsRounding, Scale, ScoresDiffer;
    ScaleBounds(hits, round, h);
    forall f | f in hits ensures Scale(hits, round)(f.raw) <= 100 { ScaleBounds(hits, round, f); }
  }

  lemma LoneEntry(others: seq<Scored>, round: real -> int, k: nat, j: nat, hits: seq<Scored>)
    requires IsRounding(round) && k < |hits| && j < |hits| && k != j && others == Apart(hits, k)
    requires Scale(others, round)(others[k].raw) == 100
    requires forall f :: f in others ==> Scale(others, round)(f.raw) <= 100
    ensures var scale := Scale(others, round);
            var alone, all := EntryFor(others, ALONE, scale, round), EntryFor(others, ALL, scale, round);
            && alone in Entries(others, round)
            && alone.maxScore == 100 && alone.avgScore == 100 && alone.queryAvgScore == 100
            && all.maxScore <= 100 && all.avgScore <= 100 && all.queryAvgScore <= 100
  {
    hide IsRounding, Scale, EntryFor, Entries;
    var scale := Scale(others, round);
    assert others[k] in others && others[k].key == ALONE && others[j] in others && others[j].key == ALL;
    forall h | h in others && h.key == ALONE ensures 100 <= scale(h.raw) <= 100 {
      var i :| 0 <= i < |others| && others[i] == h;
      assert i == k;
    }
    AveragesBetween(others, ALONE, scale, round, 100, 100);
    var low := LowestScore(others, scale);
    AveragesBetween(others, ALL, scale, round, low, 100);
    KeysOfHits(others, ALONE);
    KeysOfHits(others, ALL);
    EntriesHold(others, round, EntryFor(others, ALONE, scale, round));
    EntriesHold(others, round, EntryFor(others, ALL, scale, round));
    EntryKeys(others, scale, round);
    EntryMaxIs(others, round, EntryFor(others, ALONE, scale, round));
    EntryMaxIs(others, round, EntryFor(others, ALL, scale, round));
  }

  lemma {:induction false} LowestScore(hits: seq<Scored>, scale: real -> int) returns (low: int)
    ensures forall h :: h in hits ==> low <= scale(h.raw)
  {
    low := 0;
    if hits != [] {
      var n := |hits| - 1;
      assert hits == hits[..n] + [hits[n]];
      low := LowestScore(hits[..n], scale);
      if scale(hits[n].raw) < low { low := scale(hits[n].raw); }
    }
  }

  lemma FirstIsNotLed(hits: seq<Scored>, round: real -> int, useQueryAvg: bool, e: Entry)
    requires e in Ranking(hits, round, useQueryAvg)
    ensures var ranked := Ranking(hits, round, useQueryAvg); ranked != [] && !Leads(useQueryAvg)(e, ranked[0])
  {
    hide Entries;
    var ranked := Ranking(hits, round, useQueryAvg);
    LeadsIsKeyOrder(useQueryAvg);
    StableSortSorts(Entries(hits, round), Leads(useQueryAvg));
    var k :| 0 <= k < |ranked| && ranked[k] == e;
    if k == 0 { assert !Leads(useQueryAvg)(e, e); }
  }

  lemma NotHighestAlone(hits: seq<Scored>, k: nat, j: nat, round: real -> int, useQueryAvg: bool)
    requires k < |hits| && j < |hits| && hits[k].raw < hits[j].raw
    requires var ranked := Ranking(Apart(hits, k), round, useQueryAvg); ranked != [] && ranked[0].key == ALONE
    ensures !HighestWins(Apart(hits, k), round, useQueryAvg)
  {
    hide Ranking;
    var others := Apart(hits, k);
    assert others[j] in others;
    forall h | h in others && h.key == ALONE ensures !IsHighest(others, h) {
      var i :| 0 <= i < |others| && others[i] == h;
      assert i == k;
    }
  }

  /** Whatever configurations and queries the hits belong to, the winner holds a highest score: this is so exactly
      when no lower one is rounded up to the top. */
  lemma HighestWinsExactly(hits: seq<Scored>, round: real -> int, useQueryAvg: bool)
    requires IsRounding(round) && hits != []
    ensures (forall others: seq<Scored> :: SameRaws(hits, others) ==> HighestWins(others, round, useQueryAvg)) <==>
              RoundsApart(hits, round)
  {
    hide IsRounding, Scale, Ranking;
    if RoundsApart(hits, round) {
      forall others: seq<Scored> | SameRaws(hits, others) ensures HighestWins(others, round, useQueryAvg) {
        RoundsApartAlike(hits, others, round);
        var g, h := WinnerIsAtTheTop(others, round, useQueryAvg);
        assert IsHighest(others, g);
      }
    } else {
      var g, h :| IsHighest(hits, h) && g in hits && Scale(hits, round)(g.raw) == Scale(hits, round)(h.raw)
                  && g.raw != h.raw;
      var k :| 0 <= k < |hits| && hits[k] == g;
      var j :| 0 <= j < |hits| && hits[j] == h;
      LoneHitWins(hits, round, useQueryAvg, k, j);
      assert SameRaws(hits, Apart(hits, k));
    }
  }

  /** Rounding to the nearest whole number, halves up. */
  function Nearest(): real -> int { (x: real) => (x + 0.5).Floor }

  /** 999 of 1000 is rounded up to 100, and wins against the 1000 by its average. */
  lemma HighestCanLose(useQueryAvg: bool)
    ensures !HighestWins([Scored(ALL, 0, 0.0), Scored(ALL, 0, 1000.0), Scored(ALONE, 0, 999.0)], Nearest(), useQueryAvg)
  {
    var hits := [Scored(ALL, 0, 0.0), Scored(ALL, 0, 1000.0), Scored(ALONE, 0, 999.0)];
    assert IsRounding(Nearest());
    assert IsHighest(hits, hits[1]);
    ThousandScale(hits);
    assert Apart(hits, 2) == hits;
    LoneHitWins(hits, Nearest(), useQueryAvg, 2, 1);
  }

  lemma ThousandScale(hits: seq<Scored>)
    requires hits == [Scored(ALL, 0, 0.0), Scored(ALL, 0, 1000.0), Scored(ALONE, 0, 999.0)]
    ensures Scale(hits, Nearest())(999.0) == Scale(hits, Nearest())(1000.0) == 100
  {
    var low, high := ExtremesReached(hits);
    ExtremesBound(hits, hits[0]);
    ExtremesBound(hits, hits[1]);
    assert MinRaw(hits) == 0.0 && ScoreRange(hits) == 1000.0;
    assert 999.0 / 1000.0 * 100.0 == 99.9 && (99.9 + 0.5).Floor == 100 && (100.0 + 0.5).Floor == 100;
  }

  /** The scale is linear from the lowest raw score, at 0, to the highest, at 100; a single score is at 0. */
  lemma ScaleIs(hits: seq<Scored>, round: real -> int, low: Scored, high: Scored, raw: real)
    requires low in hits && IsHighest(hits, high) && forall g :: g in hits ==> low.raw <= g.raw
    ensures low.raw < high.raw ==> Scale(hits, round)(raw) == round((raw - low.raw) / (high.raw - low.raw) * 100.0)
    ensures low.raw == high.raw ==> Scale(hits, round)(low.raw) == round(0.0)
  {
    var l, h := ExtremesReached(hits);
    ExtremesBound(hits, low);
    ExtremesBound(hits, high);
    assert MinRaw(hits) == low.raw;
  }

  // ---- What the figures of a configuration are ----------------------------------------------------------------

  /** Which of the first `n` hits count for `key`. */
  ghost function HitsAt(hits: seq<Scored>, n: nat, key: Key): set<nat>
    requires n <= |hits|
  {
    set i: nat | i < n && hits[i].key == key
  }

  lemma {:induction false} ScoresCounted(hits: seq<Scored>, n: nat, key: Key, scale: real -> int)
    requires n <= |hits|
    ensures |ScoresOf(hits[..n], key, scale)| == |HitsAt(hits, n, key)|
  {
    if n > 0 {
      ScoresCounted(hits, n - 1, key, scale);
      assert hits[..n][..n - 1] == hits[..n - 1];
      if hits[n - 1].key == key {
        assert HitsAt(hits, n, key) == HitsAt(hits, n - 1, key) + {n - 1};
      } else {
        assert HitsAt(hits, n, key) == HitsAt(hits, n - 1, key);
      }
    }
  }

  /** `mean`, as often as there are `numbers`, is their sum. */
  ghost predicate AveragesTo(numbers: seq<real>, mean: real)
  {
    numbers != [] && mean * |numbers| as real == Sum(numbers)
  }

  lemma MeanAverages(numbers: seq<real>)
    requires numbers != []
    ensures AveragesTo(numbers, Mean(numbers))
  {
    DividedBack(Sum(numbers), |numbers| as real);
  }

  lemma {:induction false} QueryMeans(texts: seq<Name>, hits: seq<Scored>, key: Key, scale: real -> int)
    requires forall text :: text in texts ==> text in TextsOf(hits, key)
    ensures var means := FlatMap(texts, MeanOfQuery(hits, key, scale));
            && |means| == |texts|
            && forall i :: 0 <= i < |texts| ==> AveragesTo(Reals(QueryScoresOf(hits, key, texts[i], scale)), means[i])
  {
    hide Mean, AveragesTo, QueryScoresOf;
    if texts != [] {
      var n := |texts| - 1;
      assert texts[n] in texts && forall t :: t in texts[..n] ==> t in texts;
      QueryMeans(texts[..n], hits, key, scale);
      TextHasScores(hits, key, texts[n], scale);
      RealsHold(QueryScoresOf(hits, key, texts[n], scale));
      MeanAverages(Reals(QueryScoresOf(hits, key, texts[n], scale)));
    }
  }

  /** A configuration's entry: how many hits it has, its highest score, the average of its scores, and the average,
      over the queries it has hits for, of each query's average. */
  lemma EntryTells(hits: seq<Scored>, round: real -> int, e: Entry)
    returns (mean: real, queryMean: real, means: seq<real>)
    requires e in Entries(hits, round)
    ensures e.resultCount == |HitsAt(hits, |hits|, e.key)|
    ensures forall h :: h in hits && h.key == e.key ==> Scale(hits, round)(h.raw) <= e.maxScore
    ensures exists h :: h in hits && h.key == e.key && Scale(hits, round)(h.raw) == e.maxScore
    ensures e.avgScore == round(mean) && AveragesTo(Reals(ScoresOf(hits, e.key, Scale(hits, round))), mean)
    ensures e.queryAvgScore == round(queryMean) && AveragesTo(means, queryMean)
    ensures var texts := TextsOf(hits, e.key);
            && |means| == |texts|
            && (forall text :: text in texts <==> exists h :: h in hits && h.key == e.key && h.text == text)
            && forall i :: 0 <= i < |texts| ==>
                 AveragesTo(Reals(QueryScoresOf(hits, e.key, texts[i], Scale(hits, round))), means[i])
  {
    hide Mean, AveragesTo, Scale, QueryScoresOf, TextsOf, Reals;
    var scale, texts := Scale(hits, round), TextsOf(hits, e.key);
    EntryMaxIs(hits, round, e);
    EntriesHold(hits, round, e);
    var h :| h in hits && h.key == e.key && scale(h.raw) == e.maxScore;
    ScoresCounted(hits, |hits|, e.key, scale);
    assert hits[..|hits|] == hits;
    ScoresOfHits(hits, e.key, scale, scale(h.raw));
    RealsHold(ScoresOf(hits, e.key, scale));
    mean := Mean(Reals(ScoresOf(hits, e.key, scale)));
    MeanAverages(Reals(ScoresOf(hits, e.key, scale)));
    KeyHasTexts(hits, e.key, h);
    QueryMeans(texts, hits, e.key, scale);
    means := FlatMap(texts, MeanOfQuery(hits, e.key, scale));
    MeanAverages(means);
    queryMean := Mean(means);
    TextsAre(hits, e.key);
  }

  lemma TextsAre(hits: seq<Scored>, key: Key)
    ensures forall text :: text in TextsOf(hits, key) <==> exists h :: h in hits && h.key == key && h.text == text
    ensures NoDuplicates(TextsOf(hits, key))
  {
    var texts := FlatMap(hits, TextFor(key));
    FirstsHold(texts);
    forall text ensures text in texts <==> exists h :: h in hits && h.key == key && h.text == text {
      FlatMapHolds(hits, TextFor(key), text);
      if h :| h in hits && h.key == key && h.text == text { assert text in TextFor(key)(h); }
    }
  }
}
