/**
 Reciprocal Rank Fusion, server/core/retrieval/fusion.py.

 `_accumulate` fills two dictionaries in place; here they are the fields of a class, with the
 insertion order that Python dictionaries keep.  Scores are reals.
 */
module Fusion {
  import opened Collections
  import opened Listing
  import opened Sorting

  /** Chunk ids are only ever compared for equality. */
  type ChunkId = int

  datatype Chunk = Chunk(id: ChunkId, text: string)

  datatype SearchResult = SearchResult(
    chunk: Chunk, denseScore: real, rerankScore: Option<real>, retrievalMethod: string, rank: int)

  // ---- The reference definition ----------------------------------------------------------------

  predicate Occurs(results: seq<SearchResult>, id: ChunkId)
  {
    exists i :: 0 <= i < |results| && results[i].chunk.id == id
  }

  /** The reciprocal ranks of a chunk among the first `n` entries of one list. */
  function Reciprocals(results: seq<SearchResult>, n: nat, id: ChunkId, k: nat): real
    requires n <= |results|
  {
    if n == 0 then 0.0
    else Reciprocals(results, n - 1, id, k) + if results[n - 1].chunk.id == id then 1.0 / (n + k) as real else 0.0
  }

  function Score(dense: seq<SearchResult>, sparse: seq<SearchResult>, id: ChunkId, k: nat): real
  {
    Reciprocals(dense, |dense|, id, k) + Reciprocals(sparse, |sparse|, id, k)
  }

  /** Where a chunk is first seen, reading the dense list and then the sparse one. */
  function FirstSeen(results: seq<SearchResult>, id: ChunkId): nat
  {
    if results == [] || results[0].chunk.id == id then 0 else 1 + FirstSeen(results[1..], id)
  }

  /** Higher score first; on equal scores the chunk seen first. */
  predicate Outranks(dense: seq<SearchResult>, sparse: seq<SearchResult>, k: nat, a: ChunkId, b: ChunkId)
  {
    || Score(dense, sparse, a, k) > Score(dense, sparse, b, k)
    || (&& Score(dense, sparse, a, k) == Score(dense, sparse, b, k)
        && FirstSeen(dense + sparse, a) < FirstSeen(dense + sparse, b))
  }

  /** The chunk body kept for an id is that of its last occurrence. */
  predicate LastBody(results: seq<SearchResult>, id: ChunkId, chunk: Chunk)
  {
    exists i :: 0 <= i < |results| && results[i].chunk == chunk && chunk.id == id
                && forall j :: i < j < |results| ==> results[j].chunk.id != id
  }

  /** How many hits `ranked_ids[:top_k]` keeps of `n`; Python counts a negative bound from the end. */
  function Kept(n: nat, topK: int): nat
  {
    if topK < 0 then (if n + topK < 0 then 0 else n + topK) else if topK < n then topK else n
  }

  ghost function Seen(results: seq<SearchResult>): set<ChunkId>
  {
    set r | r in results :: r.chunk.id
  }

  ghost predicate IsFusion(dense: seq<SearchResult>, sparse: seq<SearchResult>, topK: int, k: nat,
                           fused: seq<SearchResult>)
  {
    var seen := Seen(dense + sparse);
    && (topK >= |seen| ==> |fused| == |seen|)
    && (0 <= topK <= |seen| ==> |fused| == topK)
    && (topK < 0 ==> |fused| == if |seen| + topK > 0 then |seen| + topK else 0)
    && (forall i :: 0 <= i < |fused| ==>
          && LastBody(dense + sparse, fused[i].chunk.id, fused[i].chunk)
          && fused[i].denseScore == Score(dense, sparse, fused[i].chunk.id, k)
          && fused[i].rerankScore == None && fused[i].retrievalMethod == "hybrid" && fused[i].rank == i + 1)
    && (forall i, j :: 0 <= i < j < |fused| ==> Outranks(dense, sparse, k, fused[i].chunk.id, fused[j].chunk.id))
    && (forall i, id :: 0 <= i < |fused| && id in seen && (forall j :: 0 <= j < |fused| ==> fused[j].chunk.id != id) ==>
          Outranks(dense, sparse, k, fused[i].chunk.id, id))
  }

  // ---- The dictionaries --------------------------------------------------------------------------

  ghost predicate OrderOf(order: seq<ChunkId>, results: seq<SearchResult>)
  {
    && (forall id :: id in order <==> Occurs(results, id))
    && forall i, j :: 0 <= i < j < |order| ==> FirstSeen(results, order[i]) < FirstSeen(results, order[j])
  }

  lemma {:induction false} FirstSeenWhere(results: seq<SearchResult>, id: ChunkId)
    ensures FirstSeen(results, id) <= |results|
    ensures Occurs(results, id) <==> FirstSeen(results, id) < |results|
    ensures FirstSeen(results, id) < |results| ==> results[FirstSeen(results, id)].chunk.id == id
    ensures forall i :: 0 <= i < FirstSeen(results, id) ==> results[i].chunk.id != id
  {
    if results != [] && results[0].chunk.id != id {
      FirstSeenWhere(results[1..], id);
      forall i | 0 <= i < FirstSeen(results, id) ensures results[i].chunk.id != id {
        if i > 0 { assert results[i] == results[1..][i - 1]; }
      }
      if Occurs(results, id) {
        var i :| 0 <= i < |results| && results[i].chunk.id == id;
        assert results[1..][i - 1].chunk.id == id;
      }
    }
  }

  lemma FirstSeenAppend(results: seq<SearchResult>, r: SearchResult, id: ChunkId)
    ensures Occurs(results, id) ==> FirstSeen(results + [r], id) == FirstSeen(results, id)
    ensures !Occurs(results, id) && id == r.chunk.id ==> FirstSeen(results + [r], id) == |results|
    ensures Occurs(results + [r], id) <==> Occurs(results, id) || id == r.chunk.id
  {
    FirstSeenWhere(results, id);
    FirstSeenWhere(results + [r], id);
    var all := results + [r];
    assert forall i :: 0 <= i < |results| ==> all[i] == results[i];
    assert all[|results|] == r;
  }

  /** The two dictionaries, whose keys `order` lists in order of insertion. */
  datatype Tally = Tally(order: seq<ChunkId>, scores: map<ChunkId, real>, bodies: map<ChunkId, Chunk>)

  function Took(t: Tally, r: SearchResult, rank: nat, k: nat): Tally
    requires rank > 0
  {
    var id := r.chunk.id;
    Tally(if id in t.scores then t.order else t.order + [id],
          t.scores[id := (if id in t.scores then t.scores[id] else 0.0) + 1.0 / (rank + k) as real],
          t.bodies[id := r.chunk])
  }

  function TookFirst(t: Tally, results: seq<SearchResult>, n: nat, k: nat): Tally
    requires n <= |results|
  {
    if n == 0 then t else Took(TookFirst(t, results, n - 1, k), results[n - 1], n, k)
  }

  class FusionTable {
    var order: seq<ChunkId>
    var scores: map<ChunkId, real>
    var bodies: map<ChunkId, Chunk>

    function Contents(): Tally reads this { Tally(order, scores, bodies) }

    constructor ()
      ensures Contents() == Tally([], map[], map[])
    {
      order, scores, bodies := [], map[], map[];
    }

    /** `_accumulate`. */
    method Accumulate(results: seq<SearchResult>, k: nat)
      modifies this
      ensures Contents() == TookFirst(old(Contents()), results, |results|, k)
    {
      for n := 0 to |results|
        invariant Contents() == TookFirst(old(Contents()), results, n, k)
      {
        var r := results[n];
        var id := r.chunk.id;
        var score := if id in scores then scores[id] else 0.0;
        if id !in scores {
          order := order + [id];
        }
        scores := scores[id := score + 1.0 / (n + 1 + k) as real];
        bodies := bodies[id := r.chunk];
      }
    }
  }

  ghost predicate SameKeys(t: Tally)
  {
    forall id :: (id in t.scores <==> id in t.order) && (id in t.bodies <==> id in t.order)
  }

  ghost predicate ScoresOf(scores: map<ChunkId, real>, dense: seq<SearchResult>, sparse: seq<SearchResult>, n: nat,
                           k: nat)
    requires n <= |sparse|
  {
    forall id :: id in scores ==> scores[id] == Reciprocals(dense, |dense|, id, k) + Reciprocals(sparse, n, id, k)
  }

  ghost predicate BodiesOf(bodies: map<ChunkId, Chunk>, taken: seq<SearchResult>)
  {
    forall id :: id in bodies ==> LastBody(taken, id, bodies[id])
  }

  ghost predicate Lists(t: Tally, taken: seq<SearchResult>)
  {
    OrderOf(t.order, taken) && SameKeys(t) && BodiesOf(t.bodies, taken)
  }

  /** `t` has taken in all of `dense` and the first `n` entries of `sparse`. */
  ghost predicate Holds(t: Tally, dense: seq<SearchResult>, sparse: seq<SearchResult>, n: nat, k: nat)
    requires n <= |sparse|
  {
    Lists(t, dense + sparse[..n]) && ScoresOf(t.scores, dense, sparse, n, k)
  }

  lemma OrderTakes(taken: seq<SearchResult>, r: SearchResult, order: seq<ChunkId>)
    requires OrderOf(order, taken)
    ensures OrderOf(if r.chunk.id in order then order else order + [r.chunk.id], taken + [r])
  {
    var all := taken + [r];
    var order' := if r.chunk.id in order then order else order + [r.chunk.id];
    forall id ensures (id in order' <==> Occurs(all, id)) {
      FirstSeenAppend(taken, r, id);
    }
    forall i, j | 0 <= i < j < |order'| ensures FirstSeen(all, order'[i]) < FirstSeen(all, order'[j]) {
      FirstSeenAppend(taken, r, order'[i]);
      FirstSeenAppend(taken, r, order'[j]);
      FirstSeenWhere(taken, order'[i]);
      assert order'[i] == order[i];
    }
  }

  lemma LastBodyTakes(taken: seq<SearchResult>, r: SearchResult, id: ChunkId, chunk: Chunk)
    requires if id == r.chunk.id then chunk == r.chunk else LastBody(taken, id, chunk)
    ensures LastBody(taken + [r], id, chunk)
  {
    var all := taken + [r];
    if id == r.chunk.id {
      assert all[|taken|].chunk == chunk;
    } else {
      var i :| 0 <= i < |taken| && taken[i].chunk == chunk && chunk.id == id
               && forall j :: i < j < |taken| ==> taken[j].chunk.id != id;
      assert all[i] == taken[i];
    }
  }

  lemma ScoresTake(t: Tally, dense: seq<SearchResult>, sparse: seq<SearchResult>, n: nat, k: nat)
    requires n < |sparse| && OrderOf(t.order, dense + sparse[..n]) && SameKeys(t)
             && ScoresOf(t.scores, dense, sparse, n, k)
    ensures ScoresOf(Took(t, sparse[n], n + 1, k).scores, dense, sparse, n + 1, k)
  {
    AbsentScoresZero(dense, sparse, n, sparse[n].chunk.id, k);
  }

  lemma BodiesTake(bodies: map<ChunkId, Chunk>, taken: seq<SearchResult>, r: SearchResult)
    requires BodiesOf(bodies, taken)
    ensures BodiesOf(bodies[r.chunk.id := r.chunk], taken + [r])
  {
    var bodies' := bodies[r.chunk.id := r.chunk];
    forall id | id in bodies' ensures LastBody(taken + [r], id, bodies'[id]) {
      LastBodyTakes(taken, r, id, bodies'[id]);
    }
  }

  lemma ListsTake(t: Tally, taken: seq<SearchResult>, r: SearchResult, rank: nat, k: nat)
    requires rank > 0 && Lists(t, taken)
    ensures Lists(Took(t, r, rank, k), taken + [r])
  {
    OrderTakes(taken, r, t.order);
    BodiesTake(t.bodies, taken, r);
    assert SameKeys(Took(t, r, rank, k));
  }

  lemma TakeOne(t: Tally, dense: seq<SearchResult>, sparse: seq<SearchResult>, n: nat, k: nat)
    requires n < |sparse| && Holds(t, dense, sparse, n, k)
    ensures Holds(Took(t, sparse[n], n + 1, k), dense, sparse, n + 1, k)
  {
    assert dense + sparse[..n + 1] == dense + sparse[..n] + [sparse[n]];
    ListsTake(t, dense + sparse[..n], sparse[n], n + 1, k);
    ScoresTake(t, dense, sparse, n, k);
  }

  lemma {:induction false} TakeAll(t: Tally, dense: seq<SearchResult>, sparse: seq<SearchResult>, n: nat, k: nat)
    requires n <= |sparse| && Holds(t, dense, sparse, 0, k)
    ensures Holds(TookFirst(t, sparse, n, k), dense, sparse, n, k)
  {
    if n > 0 {
      TakeAll(t, dense, sparse, n - 1, k);
      TakeOne(TookFirst(t, sparse, n - 1, k), dense, sparse, n - 1, k);
    }
  }

  lemma {:induction false} NoReciprocals(results: seq<SearchResult>, n: nat, id: ChunkId, k: nat)
    requires n <= |results| && forall i :: 0 <= i < n ==> results[i].chunk.id != id
    ensures Reciprocals(results, n, id, k) == 0.0
  {
    if n > 0 { NoReciprocals(results, n - 1, id, k); }
  }

  lemma AbsentScoresZero(dense: seq<SearchResult>, sparse: seq<SearchResult>, n: nat, id: ChunkId, k: nat)
    requires n <= |sparse|
    ensures !Occurs(dense + sparse[..n], id) ==>
              Reciprocals(dense, |dense|, id, k) == 0.0 && Reciprocals(sparse, n, id, k) == 0.0
  {
    var taken := dense + sparse[..n];
    if !Occurs(taken, id) {
      assert forall i :: 0 <= i < |dense| ==> taken[i] == dense[i];
      assert forall i :: 0 <= i < n ==> taken[|dense| + i] == sparse[i];
      NoReciprocals(dense, |dense|, id, k);
      NoReciprocals(sparse, n, id, k);
    }
  }

  // ---- The fusion --------------------------------------------------------------------------------

  /** `sorted(rrf_scores, key=..., reverse=True)`: higher scores first. */
  function ByScore(scores: map<ChunkId, real>): (ChunkId, ChunkId) -> bool
  {
    (a, b) => a in scores && (b !in scores || scores[a] > scores[b])
  }

  function Tallied(dense: seq<SearchResult>, sparse: seq<SearchResult>, k: nat): Tally
  {
    TookFirst(TookFirst(Tally([], map[], map[]), dense, |dense|, k), sparse, |sparse|, k)
  }

  lemma TalliedHolds(dense: seq<SearchResult>, sparse: seq<SearchResult>, k: nat)
    ensures Holds(Tallied(dense, sparse, k), dense, sparse, |sparse|, k)
  {
    EmptyTally(dense, k);
    var none := Tally([], map[], map[]);
    TakeAll(none, [], dense, |dense|, k);
    var t := TookFirst(none, dense, |dense|, k);
    DenseTaken(t, dense, sparse, k);
    TakeAll(t, dense, sparse, |sparse|, k);
  }

  /** `rrf_fuse`. */
  method RrfFuse(dense: seq<SearchResult>, sparse: seq<SearchResult>, topK: int, k: nat)
    returns (fused: seq<SearchResult>)
    ensures IsFusion(dense, sparse, topK, k, fused)
  {
    var table := new FusionTable();
    table.Accumulate(dense, k);
    table.Accumulate(sparse, k);
    fused := RankAndCut(table.Contents(), dense, sparse, topK, k);
  }

  function Hits(t: Tally, ids: seq<ChunkId>): (hits: seq<SearchResult>)
    requires forall i :: 0 <= i < |ids| ==> ids[i] in t.scores && ids[i] in t.bodies
    ensures |hits| == |ids|
    ensures forall i :: 0 <= i < |ids| ==> hits[i].chunk == t.bodies[ids[i]] && hits[i].denseScore == t.scores[ids[i]]
    ensures forall i :: 0 <= i < |ids| ==>
              hits[i].rerankScore == None && hits[i].retrievalMethod == "hybrid" && hits[i].rank == i + 1
  {
    seq(|ids|, i requires 0 <= i < |ids| && ids[i] in t.scores && ids[i] in t.bodies =>
          SearchResult(t.bodies[ids[i]], t.scores[ids[i]], None, "hybrid", i + 1))
  }

  /** The sort, the cut and the comprehension at the end of `rrf_fuse`. */
  method RankAndCut(t: Tally, ghost dense: seq<SearchResult>, ghost sparse: seq<SearchResult>, topK: int, ghost k: nat)
    returns (fused: seq<SearchResult>)
    requires t == Tallied(dense, sparse, k)
    ensures IsFusion(dense, sparse, topK, k, fused)
  {
    var ranked := StableSort(t.order, ByScore(t.scores));
    RankedIds(dense, sparse, k, ranked);
    fused := Hits(t, ranked[..Kept(|ranked|, topK)]);
    KeptHits(dense, sparse, topK, k, ranked, fused);
  }

  lemma EmptyTally(dense: seq<SearchResult>, k: nat)
    ensures Holds(Tally([], map[], map[]), [], dense, 0, k)
  {}

  lemma DenseTaken(t: Tally, dense: seq<SearchResult>, sparse: seq<SearchResult>, k: nat)
    requires Holds(t, [], dense, |dense|, k)
    ensures Holds(t, dense, sparse, 0, k)
  {
    assert [] + dense[..|dense|] == dense == dense + sparse[..0];
  }

  ghost predicate RanksAll(dense: seq<SearchResult>, sparse: seq<SearchResult>, k: nat, ranked: seq<ChunkId>)
  {
    var seen := Seen(dense + sparse);
    && |ranked| == |seen|
    && (forall id :: id in ranked <==> id in seen)
    && (forall i, j :: 0 <= i < j < |ranked| ==> Outranks(dense, sparse, k, ranked[i], ranked[j]))
  }

  lemma SeenIds(results: seq<SearchResult>, id: ChunkId)
    ensures Occurs(results, id) <==> id in Seen(results)
  {}

  lemma RankedMembers(t: Tally, ranked: seq<ChunkId>, id: ChunkId)
    requires ranked == StableSort(t.order, ByScore(t.scores))
    ensures id in ranked <==> id in t.order
  {
    assert id in ranked <==> id in multiset(ranked);
  }

  lemma RankedOrder(dense: seq<SearchResult>, sparse: seq<SearchResult>, k: nat, t: Tally, ranked: seq<ChunkId>)
    requires ranked == StableSort(t.order, ByScore(t.scores))
    requires OrderOf(t.order, dense + sparse) && ScoresOf(t.scores, dense, sparse, |sparse|, k)
    requires forall id :: id in t.scores <==> id in t.order
    ensures forall i, j :: 0 <= i < j < |ranked| ==> Outranks(dense, sparse, k, ranked[i], ranked[j])
  {
    StableSortArranges(t.order, ByScore(t.scores), id => FirstSeen(dense + sparse, id));
    forall i, j | 0 <= i < j < |ranked| ensures Outranks(dense, sparse, k, ranked[i], ranked[j]) {
      RankedMembers(t, ranked, ranked[i]);
      RankedMembers(t, ranked, ranked[j]);
    }
  }

  lemma RankedIds(dense: seq<SearchResult>, sparse: seq<SearchResult>, k: nat, ranked: seq<ChunkId>)
    requires var t := Tallied(dense, sparse, k); ranked == StableSort(t.order, ByScore(t.scores))
    ensures RanksAll(dense, sparse, k, ranked)
    ensures forall i :: 0 <= i < |ranked| ==>
              ranked[i] in Tallied(dense, sparse, k).scores && ranked[i] in Tallied(dense, sparse, k).bodies
  {
    var t, both := Tallied(dense, sparse, k), dense + sparse;
    TalliedHolds(dense, sparse, k);
    assert sparse[..|sparse|] == sparse;
    RankedOrder(dense, sparse, k, t, ranked);
    forall id ensures id in ranked <==> id in Seen(both) {
      RankedMembers(t, ranked, id);
      SeenIds(both, id);
    }
    forall i | 0 <= i < |ranked| ensures ranked[i] in t.order { RankedMembers(t, ranked, ranked[i]); }
    DistinctSize(ranked, Seen(both));
  }

  lemma KeptHits(dense: seq<SearchResult>, sparse: seq<SearchResult>, topK: int, k: nat, ranked: seq<ChunkId>,
                 fused: seq<SearchResult>)
    requires RanksAll(dense, sparse, k, ranked)
    requires forall i :: 0 <= i < |ranked| ==>
               ranked[i] in Tallied(dense, sparse, k).scores && ranked[i] in Tallied(dense, sparse, k).bodies
    requires fused == Hits(Tallied(dense, sparse, k), ranked[..Kept(|ranked|, topK)])
    ensures IsFusion(dense, sparse, topK, k, fused)
  {
    var t := Tallied(dense, sparse, k);
    TalliedHolds(dense, sparse, k);
    assert sparse[..|sparse|] == sparse;
    forall i | 0 <= i < |fused|
      ensures fused[i].chunk.id == ranked[i] && LastBody(dense + sparse, ranked[i], fused[i].chunk)
    {
      assert LastBody(dense + sparse, ranked[i], t.bodies[ranked[i]]);
    }
    forall i, id | 0 <= i < |fused| && id in Seen(dense + sparse)
                   && (forall j :: 0 <= j < |fused| ==> fused[j].chunk.id != id)
      ensures Outranks(dense, sparse, k, fused[i].chunk.id, id)
    {
      assert id in ranked;
      var j :| 0 <= j < |ranked| && ranked[j] == id;
      assert j >= |fused|;
    }
  }

  // ---- What fusion is for ------------------------------------------------------------------------

  ghost predicate DistinctChunks(results: seq<SearchResult>)
  {
    forall i, j :: 0 <= i < j < |results| ==> results[i].chunk.id != results[j].chunk.id
  }

  lemma {:induction false} OneReciprocal(results: seq<SearchResult>, n: nat, id: ChunkId, k: nat, i: nat)
    requires i < n <= |results| && results[i].chunk.id == id && DistinctChunks(results)
    ensures Reciprocals(results, n, id, k) == 1.0 / (i + 1 + k) as real
  {
    if i == n - 1 {
      NoReciprocals(results, i, id, k);
    } else {
      OneReciprocal(results, n - 1, id, k, i);
    }
  }

  lemma ReciprocalBounds(results: seq<SearchResult>, id: ChunkId, k: nat)
    requires DistinctChunks(results)
    ensures Occurs(results, id) ==>
              1.0 / (|results| + k) as real <= Reciprocals(results, |results|, id, k) <= 1.0 / (k + 1) as real
    ensures !Occurs(results, id) ==> Reciprocals(results, |results|, id, k) == 0.0
  {
    if Occurs(results, id) {
      var i :| 0 <= i < |results| && results[i].chunk.id == id;
      OneReciprocal(results, |results|, id, k, i);
      ReciprocalFalls(k + 1, i + 1 + k);
      ReciprocalFalls(i + 1 + k, |results| + k);
    } else {
      NoReciprocals(results, |results|, id, k);
    }
  }

  lemma ReciprocalFalls(a: nat, b: nat)
    requires 0 < a <= b
    ensures 1.0 / b as real <= 1.0 / a as real
  {}

  /** When the last ranks of two lists together beat the first rank of one. */
  lemma TwoBeatOneExactly(m: nat, n: nat, k: nat)
    requires m >= 1 && n >= 1
    ensures 1.0 / (m + k) as real + 1.0 / (n + k) as real > 1.0 / (1 + k) as real <==>
              (m - 1) * (n - 1) < (k + 1) * (k + 1)
  {
    var a, b, c := m + k, n + k, k + 1;
    Expanded(a, b, c);
    assert m - 1 == a - c && n - 1 == b - c;
    SumOfReciprocals(a as real, b as real, c as real);
    RealProduct(a, b);
    RealProduct(a + b, c);
  }

  lemma Expanded(a: int, b: int, c: int)
    ensures (a - c) * (b - c) < c * c <==> a * b < (a + b) * c
  {
    assert (a - c) * (b - c) == a * b - (a + b) * c + c * c;
  }

  lemma RealProduct(x: int, y: int)
    ensures (x * y) as real == x as real * y as real
  {}

  lemma SumOfReciprocals(a: real, b: real, c: real)
    requires a > 0.0 && b > 0.0 && c > 0.0
    ensures 1.0 / a + 1.0 / b > 1.0 / c <==> a * b < (a + b) * c
  {
    var sum, one, whole := 1.0 / a + 1.0 / b, 1.0 / c, a * b;
    assert sum * whole == a + b by {
      assert 1.0 / a * a == 1.0 && 1.0 / b * b == 1.0;
      assert 1.0 / a * whole == b && 1.0 / b * whole == a;
    }
    assert one * c == 1.0;
    if sum > one {
      Scaled(one, sum, whole * c);
      assert one * (whole * c) == whole && sum * (whole * c) == (a + b) * c;
    } else {
      Scaled(sum, one, whole * c);
      assert one * (whole * c) == whole && sum * (whole * c) == (a + b) * c;
    }
  }

  lemma Scaled(x: real, y: real, factor: real)
    requires x <= y && factor > 0.0
    ensures x * factor <= y * factor && (x < y ==> x * factor < y * factor)
  {}

  lemma AgreementScoresMore(dense: seq<SearchResult>, sparse: seq<SearchResult>, k: nat, both: ChunkId, one: ChunkId)
    requires DistinctChunks(dense) && DistinctChunks(sparse)
    requires (|dense| - 1) * (|sparse| - 1) < (k + 1) * (k + 1)
    requires Occurs(dense, both) && Occurs(sparse, both)
    requires Occurs(dense, one) != Occurs(sparse, one)
    ensures Score(dense, sparse, both, k) > Score(dense, sparse, one, k)
  {
    ReciprocalBounds(dense, both, k);
    ReciprocalBounds(sparse, both, k);
    ReciprocalBounds(dense, one, k);
    ReciprocalBounds(sparse, one, k);
    TwoBeatOneExactly(|dense|, |sparse|, k);
  }

  /** A hit that is outranked by some chunk comes after it. */
  lemma OutrankedFollows(dense: seq<SearchResult>, sparse: seq<SearchResult>, topK: int, k: nat,
                         fused: seq<SearchResult>, id: ChunkId, i: nat)
    requires IsFusion(dense, sparse, topK, k, fused) && i < |fused|
    requires Occurs(dense + sparse, id) && Score(dense, sparse, id, k) > Score(dense, sparse, fused[i].chunk.id, k)
    ensures exists j :: 0 <= j < i && fused[j].chunk.id == id
  {
    SeenIds(dense + sparse, id);
    assert !Outranks(dense, sparse, k, fused[i].chunk.id, id);
    var j :| 0 <= j < |fused| && fused[j].chunk.id == id;
    assert fused[i].chunk.id != id;
    if i < j {
      assert false;
    }
  }

  /** With lists this short, agreement beats any single rank: every chunk both lists found precedes, and is
      kept in preference to, every chunk only one list found.  Two lists of at most `k + 1` are short enough. */
  lemma AgreementLeads(dense: seq<SearchResult>, sparse: seq<SearchResult>, topK: int, k: nat, fused: seq<SearchResult>,
                       both: ChunkId, i: nat)
    requires IsFusion(dense, sparse, topK, k, fused)
    requires DistinctChunks(dense) && DistinctChunks(sparse)
    requires (|dense| - 1) * (|sparse| - 1) < (k + 1) * (k + 1)
    requires Occurs(dense, both) && Occurs(sparse, both)
    requires i < |fused| && Occurs(dense, fused[i].chunk.id) != Occurs(sparse, fused[i].chunk.id)
    ensures exists j :: 0 <= j < i && fused[j].chunk.id == both
  {
    AgreementScoresMore(dense, sparse, k, both, fused[i].chunk.id);
    var d :| 0 <= d < |dense| && dense[d].chunk.id == both;
    assert (dense + sparse)[d].chunk.id == both;
    OutrankedFollows(dense, sparse, topK, k, fused, both, i);
  }

  // ---- The bound is exact for any two lengths ----------------------------------------------------

  const SHARED: ChunkId := 0

  function Hit(id: ChunkId): SearchResult { SearchResult(Chunk(id, ""), 0.0, None, "", 1) }

  /** Chunks of one's own, of ids `base`, `base + 2`, ..., then the shared chunk at rank `n`. */
  function Tail(base: ChunkId, n: nat): seq<SearchResult>
    requires n >= 1
  {
    seq(n - 1, i requires 0 <= i => Hit(base + 2 * i)) + [Hit(SHARED)]
  }

  lemma TailShape(base: ChunkId, n: nat)
    requires base > SHARED && n >= 1
    ensures DistinctChunks(Tail(base, n)) && |Tail(base, n)| == n
    ensures forall i :: 0 <= i < n - 1 ==> Tail(base, n)[i].chunk.id == base + 2 * i
    ensures Tail(base, n)[n - 1].chunk.id == SHARED
  {}

  lemma TailScores(m: nat, n: nat, k: nat)
    requires m >= 2 && n >= 2
    ensures var dense, sparse := Tail(1, m), Tail(2, n);
            && Score(dense, sparse, SHARED, k) == 1.0 / (m + k) as real + 1.0 / (n + k) as real
            && Score(dense, sparse, 1, k) == 1.0 / (1 + k) as real
  {
    var dense, sparse := Tail(1, m), Tail(2, n);
    TailShape(1, m);
    TailShape(2, n);
    OneReciprocal(dense, |dense|, SHARED, k, m - 1);
    OneReciprocal(sparse, |sparse|, SHARED, k, n - 1);
    OneReciprocal(dense, |dense|, 1, k, 0);
    NoReciprocals(sparse, |sparse|, 1, k);
  }

  /** Beyond the bound, a chunk only the dense list found can come before one both found. */
  lemma AgreementCanLose(m: nat, n: nat, k: nat)
    requires m >= 2 && n >= 2 && (m - 1) * (n - 1) >= (k + 1) * (k + 1)
    ensures var dense, sparse := Tail(1, m), Tail(2, n);
            && DistinctChunks(dense) && DistinctChunks(sparse) && |dense| == m && |sparse| == n
            && Occurs(dense, SHARED) && Occurs(sparse, SHARED) && Occurs(dense, 1) && !Occurs(sparse, 1)
            && Outranks(dense, sparse, k, 1, SHARED)
  {
    var dense, sparse := Tail(1, m), Tail(2, n);
    TailShape(1, m);
    TailShape(2, n);
    TailScores(m, n, k);
    TwoBeatOneExactly(m, n, k);
    FirstSeenWhere(dense + sparse, SHARED);
    assert dense[0].chunk.id == 1 && dense[m - 1].chunk.id == SHARED && sparse[n - 1].chunk.id == SHARED;
    assert (dense + sparse)[0] == dense[0];
  }

  /** In all lists of `m` and `n` distinct chunks, what both found outranks what only one found. */
  ghost predicate AgreementAlwaysLeads(m: nat, n: nat, k: nat)
  {
    forall dense: seq<SearchResult>, sparse: seq<SearchResult>, both: ChunkId, one: ChunkId
      {:trigger Outranks(dense, sparse, k, both, one)} ::
      && |dense| == m && |sparse| == n && DistinctChunks(dense) && DistinctChunks(sparse)
      && Occurs(dense, both) && Occurs(sparse, both) && Occurs(dense, one) != Occurs(sparse, one)
      ==> Outranks(dense, sparse, k, both, one)
  }

  lemma AgreementLeadsExactly(m: nat, n: nat, k: nat)
    requires m >= 1 && n >= 1
    ensures AgreementAlwaysLeads(m, n, k) <==> (m - 1) * (n - 1) < (k + 1) * (k + 1)
  {
    if (m - 1) * (n - 1) < (k + 1) * (k + 1) {
      forall dense: seq<SearchResult>, sparse: seq<SearchResult>, both: ChunkId, one: ChunkId
        | && |dense| == m && |sparse| == n && DistinctChunks(dense) && DistinctChunks(sparse)
          && Occurs(dense, both) && Occurs(sparse, both) && Occurs(dense, one) != Occurs(sparse, one)
        ensures Outranks(dense, sparse, k, both, one)
      {
        AgreementScoresMore(dense, sparse, k, both, one);
      }
    } else {
      LongEnough(m, n, k);
      AgreementCanLose(m, n, k);
      assert !Outranks(Tail(1, m), Tail(2, n), k, SHARED, 1);
    }
  }

  lemma LongEnough(m: nat, n: nat, k: nat)
    requires m >= 1 && n >= 1 && (m - 1) * (n - 1) >= (k + 1) * (k + 1)
    ensures m >= 2 && n >= 2
  {}
}
