/**
 The sweep grid and the signatures that resume goes by: server/models/config.py:305-367, 420-455 and
 server/core/pipeline/signatures.py:22-60.

 Names (models, providers, methods' spellings) are compared only for equality, so they are integers;
 zero stands for the empty text.
 */
module SweepGrid {
  import opened Collections
  import opened Listing

  type Name = int
  const EMPTY: Name := 0
  const LOCAL: Name := 1

  /** A provider is one of a fixed list of non-empty texts. */
  type Provider = p: Name | p > EMPTY witness LOCAL

  datatype ChunkingMethod = Fixed | Recursive | Token | Sentence | Semantic
  datatype RetrievalMethod = Dense | Sparse | Hybrid
  datatype RetrieverKind = Traditional(search: RetrievalMethod) | Reranker | CrossEncoder
  datatype Retriever = Retriever(kind: RetrieverKind, provider: Option<Provider>, model: Option<Name>)

  /** What the deprecated `retrieval_*` fields say of a retriever. */
  datatype Legacy = Legacy(search: RetrievalMethod, provider: Provider, model: Option<Name>)

  datatype Config = Config(database: Provider, models: seq<Name>, methods: seq<ChunkingMethod>, sizes: seq<int>,
                           overlaps: seq<int>, paddings: seq<int>, retrievers: seq<Retriever>)

  datatype RunParams = RunParams(database: Provider, embeddingProvider: Provider, model: Name, chunking: ChunkingMethod,
                                 size: int, overlap: int, padding: int, retriever: Retriever, legacy: Legacy)

  // ---- Cartesian products ---------------------------------------------------------------------------

  /** `product(xs, ys)`: the last dimension turns fastest. */
  function Pairs<A, B>(xs: seq<A>, ys: seq<B>): (pairs: seq<(A, B)>)
    ensures |pairs| == |xs| * |ys|
  {
    if xs == [] then [] else Pairs(xs[..|xs| - 1], ys) + Row(xs[|xs| - 1], ys)
  }

  function Row<A, B>(x: A, ys: seq<B>): seq<(A, B)>
  {
    seq(|ys|, j requires 0 <= j < |ys| => (x, ys[j]))
  }

  /** Row-major order. */
  lemma {:induction false} PairsAt<A, B>(xs: seq<A>, ys: seq<B>, i: nat, j: nat)
    requires i < |xs| && j < |ys|
    ensures 0 <= i * |ys| + j < |xs| * |ys|
    ensures Pairs(xs, ys)[i * |ys| + j] == (xs[i], ys[j])
  {
    var n := |xs| - 1;
    assert |xs| * |ys| == n * |ys| + |ys|;
    if i < n {
      PairsAt(xs[..n], ys, i, j);
    }
  }

  lemma {:induction false} PairsHold<A, B>(xs: seq<A>, ys: seq<B>, p: (A, B))
    ensures p in Pairs(xs, ys) <==> p.0 in xs && p.1 in ys
  {
    if xs != [] {
      PairsHold(xs[..|xs| - 1], ys, p);
      var last := xs[|xs| - 1];
      assert p in Row(last, ys) <==> p.0 == last && p.1 in ys by {
        if p.0 == last && p.1 in ys {
          var j :| 0 <= j < |ys| && ys[j] == p.1;
          assert Row(last, ys)[j] == p;
        }
      }
    }
  }

  /** `f` tells the positions of `xs` apart. */
  ghost predicate DistinctUnder<T(!new), K>(xs: seq<T>, f: T -> K)
  {
    forall i, j :: 0 <= i < j < |xs| ==> f(xs[i]) != f(xs[j])
  }

  ghost function Both<A(!new), B(!new), K, L>(f: A -> K, g: B -> L): ((A, B)) -> (K, L)
  {
    (p: (A, B)) => (f(p.0), g(p.1))
  }

  lemma {:induction false} DistinctPairs<A(!new), B(!new), K, L>(xs: seq<A>, ys: seq<B>, f: A -> K, g: B -> L)
    requires DistinctUnder(xs, f) && DistinctUnder(ys, g)
    ensures DistinctUnder(Pairs(xs, ys), Both(f, g))
  {
    if xs != [] {
      var n := |xs| - 1;
      DistinctPairs(xs[..n], ys, f, g);
      var front, h := Pairs(xs[..n], ys), Both(f, g);
      forall i, j | 0 <= i < j < |Pairs(xs, ys)| ensures h(Pairs(xs, ys)[i]) != h(Pairs(xs, ys)[j]) {
        if i < |front| <= j {
          PairsHold(xs[..n], ys, front[i]);
          var k :| 0 <= k < n && xs[k] == front[i].0;
        }
      }
    }
  }

  lemma PositionsOrdered(m: nat, i: nat, j: nat, i': nat, j': nat)
    requires j < m && (i < i' || (i == i' && j < j'))
    ensures i * m + j < i' * m + j'
  {
    if i < i' { assert (i + 1) * m <= i' * m; }
  }

  lemma CombinationsApart<A(!new), B(!new), K, L>(xs: seq<A>, ys: seq<B>, f: A -> K, g: B -> L, i: nat, j: nat,
                                                  i': nat, j': nat)
    requires DistinctUnder(Pairs(xs, ys), Both(f, g))
    requires i < |xs| && i' < |xs| && j < |ys| && j' < |ys| && (i < i' || (i == i' && j < j'))
    ensures f(xs[i]) != f(xs[i']) || g(ys[j]) != g(ys[j'])
  {
    PairsAt(xs, ys, i, j);
    PairsAt(xs, ys, i', j');
    PositionsOrdered(|ys|, i, j, i', j');
    var pairs, a, b := Pairs(xs, ys), i * |ys| + j, i' * |ys| + j';
    assert Both(f, g)(pairs[a]) != Both(f, g)(pairs[b]);
  }

  /** And nothing less will do, unless the product is empty. */
  lemma DistinctPairsOnly<A(!new), B(!new), K, L>(xs: seq<A>, ys: seq<B>, f: A -> K, g: B -> L)
    requires xs != [] && ys != [] && DistinctUnder(Pairs(xs, ys), Both(f, g))
    ensures DistinctUnder(xs, f) && DistinctUnder(ys, g)
  {
    forall i, j | 0 <= i < j < |xs| ensures f(xs[i]) != f(xs[j]) {
      CombinationsApart(xs, ys, f, g, i, 0, j, 0);
    }
    forall i, j | 0 <= i < j < |ys| ensures g(ys[i]) != g(ys[j]) {
      CombinationsApart(xs, ys, f, g, 0, i, 0, j);
    }
  }

  // ---- The grid -------------------------------------------------------------------------------------

  const DENSE_ONLY := Retriever(Traditional(Dense), None, None)

  function PaddingsOf(config: Config): seq<int> { if config.paddings == [] then [0] else config.paddings }

  function RetrieversOf(config: Config): seq<Retriever>
  {
    if config.retrievers == [] then [DENSE_ONLY] else config.retrievers
  }

  function OrOne(n: nat): nat { if n == 0 then 1 else n }

  type Nested = (Name, (ChunkingMethod, (int, (int, (int, Retriever)))))

  function NestedGrid(config: Config): seq<Nested>
  {
    Pairs(config.models, Pairs(config.methods, Pairs(config.sizes, Pairs(config.overlaps,
      Pairs(PaddingsOf(config), RetrieversOf(config))))))
  }

  /** `_legacy_retrieval_fields`. */
  function LegacyFields(r: Retriever): Legacy
  {
    match r.kind
    case Traditional(search) => Legacy(search, LOCAL, None)
    case _ => Legacy(Dense, if r.provider.Some? then r.provider.value else LOCAL, r.model)
  }

  function ParamsOf(config: Config, providerOf: Name -> Provider, c: Nested): RunParams
  {
    var retriever := c.1.1.1.1.1;
    RunParams(config.database, providerOf(c.0), c.0, c.1.0, c.1.1.0, c.1.1.1.0, c.1.1.1.1.0, retriever,
              LegacyFields(retriever))
  }

  function Grid(config: Config, providerOf: Name -> Provider): seq<RunParams>
  {
    var combos := NestedGrid(config);
    seq(|combos|, i requires 0 <= i < |combos| => ParamsOf(config, providerOf, combos[i]))
  }

  /** `expand_sweep`. */
  method ExpandSweep(config: Config, providerOf: Name -> Provider) returns (runs: seq<RunParams>)
    ensures runs == Grid(config, providerOf)
  {
    var combos := NestedGrid(config);
    runs := [];
    for i := 0 to |combos|
      invariant runs == Grid(config, providerOf)[..i]
    {
      var (model, (chunking, (size, (overlap, (padding, retriever))))) := combos[i];
      var legacy := LegacyFields(retriever);
      var embeddingProvider := providerOf(model);
      runs := runs +
        [RunParams(config.database, embeddingProvider, model, chunking, size, overlap, padding, retriever, legacy)];
    }
  }

  /** `sweep_plan`'s `full_grid_count`. */
  function FullGridCount(config: Config): nat
  {
    |config.models| * |config.methods| * |config.sizes| * |config.overlaps| *
      OrOne(|config.paddings|) * OrOne(|config.retrievers|)
  }

  /** The plan shown before a sweep counts what the sweep will expand to. */
  lemma PlanCountsTheGrid(config: Config, providerOf: Name -> Provider)
    ensures FullGridCount(config) == |Grid(config, providerOf)|
  {
    var a, b, c, d := |config.models|, |config.methods|, |config.sizes|, |config.overlaps|;
    var e, f := OrOne(|config.paddings|), OrOne(|config.retrievers|);
    ProductRegroups(a, b, c, d, e, f);
  }

  lemma ProductRegroups(a: nat, b: nat, c: nat, d: nat, e: nat, f: nat)
    ensures a * b * c * d * e * f == a * (b * (c * (d * (e * f))))
  {}

  /** A combination is a choice from each dimension. */
  ghost predicate Chosen(config: Config, providerOf: Name -> Provider, p: RunParams)
  {
    && p.model in config.models && p.chunking in config.methods && p.size in config.sizes
    && p.overlap in config.overlaps
    && (if config.paddings == [] then p.padding == 0 else p.padding in config.paddings)
    && (if config.retrievers == [] then p.retriever == Retriever(Traditional(Dense), None, None)
        else p.retriever in config.retrievers)
    && p.database == config.database && p.embeddingProvider == providerOf(p.model)
    && IsLegacyOf(p.legacy, p.retriever)
  }

  /** A retriever that only searches leaves its way of searching; one that reranks counts as dense, and leaves its
      provider, or the local one, and its model. */
  ghost predicate IsLegacyOf(legacy: Legacy, r: Retriever)
  {
    && (r.kind.Traditional? ==> legacy == Legacy(r.kind.search, LOCAL, None))
    && (!r.kind.Traditional? ==> legacy.search == Dense && legacy.model == r.model)
    && (!r.kind.Traditional? && r.provider.Some? ==> legacy.provider == r.provider.value)
    && (!r.kind.Traditional? && r.provider.None? ==> legacy.provider == LOCAL)
  }

  /** Two retrievers look alike to a signature: both search the same way; or both rerank, by one provider (the local
      one if none is named) and one model; or one is plain dense search and the other reranks locally without a
      named model. */
  ghost predicate LegacyTwins(r: Retriever, s: Retriever)
  {
    if r.kind.Traditional? && s.kind.Traditional? then r.kind.search == s.kind.search
    else if !r.kind.Traditional? && !s.kind.Traditional? then
      && r.model == s.model
      && (r.provider == s.provider || {r.provider, s.provider} == {None, Some(LOCAL)})
    else
      var plain, other := if r.kind.Traditional? then r else s, if r.kind.Traditional? then s else r;
      plain.kind.search == Dense && other.model == None && (other.provider == None || other.provider == Some(LOCAL))
  }

  lemma LegacyTwinsExactly(r: Retriever, s: Retriever)
    ensures LegacyFields(r) == LegacyFields(s) <==> LegacyTwins(r, s)
  {}

  lemma NestedHolds(config: Config, c: Nested)
    ensures c in NestedGrid(config) <==>
              && c.0 in config.models && c.1.0 in config.methods && c.1.1.0 in config.sizes
              && c.1.1.1.0 in config.overlaps
              && c.1.1.1.1.0 in PaddingsOf(config) && c.1.1.1.1.1 in RetrieversOf(config)
  {
    var retrievers := Pairs(PaddingsOf(config), RetrieversOf(config));
    var overlaps := Pairs(config.overlaps, retrievers);
    var sizes := Pairs(config.sizes, overlaps);
    PairsHold(config.models, Pairs(config.methods, sizes), c);
    PairsHold(config.methods, sizes, c.1);
    PairsHold(config.sizes, overlaps, c.1.1);
    PairsHold(config.overlaps, retrievers, c.1.1.1);
    PairsHold(PaddingsOf(config), RetrieversOf(config), c.1.1.1.1);
  }

  /** The grid lists every combination and nothing else. */
  lemma GridHoldsExactlyTheCombinations(config: Config, providerOf: Name -> Provider, p: RunParams)
    ensures p in Grid(config, providerOf) <==> Chosen(config, providerOf, p)
  {
    var combos := NestedGrid(config);
    var c: Nested := (p.model, (p.chunking, (p.size, (p.overlap, (p.padding, p.retriever)))));
    NestedHolds(config, c);
    if p in Grid(config, providerOf) {
      var i :| 0 <= i < |combos| && p == ParamsOf(config, providerOf, combos[i]);
      assert combos[i] == c;
    }
    if Chosen(config, providerOf, p) {
      var i :| 0 <= i < |combos| && combos[i] == c;
      assert Grid(config, providerOf)[i] == p;
    }
  }

  lemma ThreeAt<A, B, C>(xs: seq<A>, ys: seq<B>, zs: seq<C>, i: nat, j: nat, k: nat) returns (at: nat)
    requires i < |xs| && j < |ys| && k < |zs|
    ensures at == i * (|ys| * |zs|) + (j * |zs| + k) < |Pairs(xs, Pairs(ys, zs))|
    ensures Pairs(xs, Pairs(ys, zs))[at] == (xs[i], (ys[j], zs[k]))
  {
    PairsAt(ys, zs, j, k);
    PairsAt(xs, Pairs(ys, zs), i, j * |zs| + k);
    at := i * (|ys| * |zs|) + (j * |zs| + k);
  }

  /** How many runs share a choice of model, chunking method and chunk size. */
  function RunsPerSize(config: Config): nat
  {
    |config.overlaps| * (OrOne(|config.paddings|) * OrOne(|config.retrievers|))
  }

  /** The grid is in row-major order, the retrievers turning fastest: where each combination of choices stands. */
  lemma GridAt(config: Config, providerOf: Name -> Provider, m: nat, c: nat, s: nat, o: nat, p: nat, r: nat)
    requires m < |config.models| && c < |config.methods| && s < |config.sizes| && o < |config.overlaps|
    requires p < |PaddingsOf(config)| && r < |RetrieversOf(config)|
    ensures var inner := o * (OrOne(|config.paddings|) * OrOne(|config.retrievers|))
                         + (p * OrOne(|config.retrievers|) + r);
            var middle := s * RunsPerSize(config) + inner;
            var k := m * (|config.methods| * (|config.sizes| * RunsPerSize(config)))
                     + (c * (|config.sizes| * RunsPerSize(config)) + middle);
            && 0 <= k < |Grid(config, providerOf)|
            && var run := Grid(config, providerOf)[k];
               && run.model == config.models[m] && run.chunking == config.methods[c] && run.size == config.sizes[s]
               && run.overlap == config.overlaps[o]
               && run.padding == (if config.paddings == [] then 0 else config.paddings[p])
               && run.retriever == if config.retrievers == [] then DENSE_ONLY else config.retrievers[r]
  {
    var inner := Pairs(config.overlaps, Pairs(PaddingsOf(config), RetrieversOf(config)));
    assert |inner| == RunsPerSize(config);
    var i := ThreeAt(config.overlaps, PaddingsOf(config), RetrieversOf(config), o, p, r);
    PairsAt(config.sizes, inner, s, i);
    var middle := Pairs(config.sizes, inner);
    var k := ThreeAt(config.models, config.methods, middle, m, c, s * |inner| + i);
    hide Pairs;
    assert NestedGrid(config) == Pairs(config.models, Pairs(config.methods, middle));
  }

  ghost function Same<T(!new)>(): T -> T { (x: T) => x }

  lemma PairsNoRepeats<A(!new), B(!new)>(xs: seq<A>, ys: seq<B>)
    requires NoDuplicates(xs) && NoDuplicates(ys)
    ensures NoDuplicates(Pairs(xs, ys))
  {
    DistinctPairs(xs, ys, Same<A>(), Same<B>());
    var pairs := Pairs(xs, ys);
    forall i, j | 0 <= i < j < |pairs| ensures pairs[i] != pairs[j] {
      assert Both(Same<A>(), Same<B>())(pairs[i]) != Both(Same<A>(), Same<B>())(pairs[j]);
    }
  }

  /** When no dimension lists a value twice, every combination appears once. */
  lemma GridHasNoRepeats(config: Config, providerOf: Name -> Provider)
    requires NoDuplicates(config.models) && NoDuplicates(config.methods) && NoDuplicates(config.sizes)
    requires NoDuplicates(config.overlaps) && NoDuplicates(config.paddings) && NoDuplicates(config.retrievers)
    ensures NoDuplicates(Grid(config, providerOf))
  {
    var g5 := Pairs(PaddingsOf(config), RetrieversOf(config));
    var g4 := Pairs(config.overlaps, g5);
    PairsNoRepeats(PaddingsOf(config), RetrieversOf(config));
    PairsNoRepeats(config.overlaps, g5);
    PairsNoRepeats(config.sizes, g4);
    PairsNoRepeats(config.methods, Pairs(config.sizes, g4));
    PairsNoRepeats(config.models, Pairs(config.methods, Pairs(config.sizes, g4)));
    var grid, combos := Grid(config, providerOf), NestedGrid(config);
    forall i, j | 0 <= i < j < |grid| ensures grid[i] != grid[j] {
      assert Same<Nested>()(combos[i]) != Same<Nested>()(combos[j]);
    }
  }

  // ---- Signatures -----------------------------------------------------------------------------------

  datatype Signature = Signature(database: Name, embeddingProvider: Name, model: Name, chunking: Option<ChunkingMethod>,
                                 size: int, overlap: int, legacyMethod: Option<RetrievalMethod>, legacyProvider: Name,
                                 legacyModel: Option<Name>)

  /** `_params_signature`: padding and the retriever's own type are left out. */
  function ParamsSignature(p: RunParams): Signature
  {
    Signature(p.database, p.embeddingProvider, p.model, Some(p.chunking), p.size, p.overlap,
              Some(p.legacy.search), p.legacy.provider, p.legacy.model)
  }

  /** A stored run row: any column may be missing. */
  datatype RunDoc = RunDoc(database: Option<Name>, embeddingProvider: Option<Name>, model: Option<Name>,
                           chunking: Option<ChunkingMethod>, size: Option<int>, overlap: Option<int>,
                           legacyMethod: Option<RetrievalMethod>, legacyProvider: Option<Name>,
                           legacyModel: Option<Name>)

  function TextOr(column: Option<Name>, default: Name): Name
  {
    if column.Some? && column.value != EMPTY then column.value else default
  }

  function NumberOr(column: Option<int>): int { if column.Some? then column.value else 0 }

  /** `_run_doc_signature`; `None` for a method stands for the empty text. */
  function RunDocSignature(row: RunDoc, defaultDatabase: Name): Signature
  {
    Signature(TextOr(row.database, defaultDatabase), TextOr(row.embeddingProvider, EMPTY), TextOr(row.model, EMPTY),
              row.chunking, NumberOr(row.size), NumberOr(row.overlap), row.legacyMethod,
              TextOr(row.legacyProvider, EMPTY),
              row.legacyModel)
  }

  /** The columns a new run's row gets from its parameters. */
  function Stored(p: RunParams): RunDoc
  {
    RunDoc(Some(p.database), Some(p.embeddingProvider), Some(p.model), Some(p.chunking), Some(p.size), Some(p.overlap),
           Some(p.legacy.search), Some(p.legacy.provider), p.legacy.model)
  }

  /** What resume reads back from a row is the signature its run had, whatever the default database. */
  lemma StoredSignatureSurvives(p: RunParams, defaultDatabase: Name)
    ensures RunDocSignature(Stored(p), defaultDatabase) == ParamsSignature(p)
  {}

  /** Two runs look alike exactly when they agree on everything but padding and the retriever's own type. */
  lemma SignatureTells(p: RunParams, q: RunParams)
    ensures ParamsSignature(p) == ParamsSignature(q) <==>
              q == p.(padding := q.padding, retriever := q.retriever)
  {}

  /** A missing column, or an empty text, reads as the default database, as an empty text or as zero. */
  lemma MissingColumns(row: RunDoc, defaultDatabase: Name)
    ensures var r := RunDocSignature(row, defaultDatabase);
            && (row.database in {None, Some(EMPTY)} ==> r.database == defaultDatabase)
            && (row.embeddingProvider == None ==> r.embeddingProvider == EMPTY)
            && (row.model == None ==> r.model == EMPTY)
            && (row.size == None ==> r.size == 0) && (row.overlap == None ==> r.overlap == 0)
            && (row.legacyProvider == None ==> r.legacyProvider == EMPTY)
  {}

  ghost predicate SignaturesDistinct(grid: seq<RunParams>)
  {
    DistinctUnder(grid, ParamsSignature)
  }

  ghost function Nothing(): int -> () { (x: int) => () }

  /** What a signature keeps of a combination. */
  ghost function Kept(): Nested -> (Name, (ChunkingMethod, (int, (int, ((), Legacy)))))
  {
    Both(Same(), Both(Same(), Both(Same(), Both(Same(), Both(Nothing(), LegacyFields)))))
  }

  lemma SignatureIsKept(config: Config, providerOf: Name -> Provider, c: Nested, d: Nested)
    ensures ParamsSignature(ParamsOf(config, providerOf, c)) == ParamsSignature(ParamsOf(config, providerOf, d)) <==>
              Kept()(c) == Kept()(d)
  {}

  lemma GridDistinctAsKept(config: Config, providerOf: Name -> Provider)
    ensures SignaturesDistinct(Grid(config, providerOf)) <==> DistinctUnder(NestedGrid(config), Kept())
  {
    var grid, combos := Grid(config, providerOf), NestedGrid(config);
    forall i, j | 0 <= i < j < |combos|
      ensures ParamsSignature(grid[i]) == ParamsSignature(grid[j]) <==> Kept()(combos[i]) == Kept()(combos[j])
    {
      SignatureIsKept(config, providerOf, combos[i], combos[j]);
    }
  }

  /** A caller can check this before a sweep: no value listed twice, at most one padding, and no two retrievers that
      look alike to a signature. */
  ghost predicate Resumable(config: Config)
  {
    && NoDuplicates(config.models) && NoDuplicates(config.methods) && NoDuplicates(config.sizes)
    && NoDuplicates(config.overlaps)
    && |config.paddings| <= 1
    && forall i, j :: 0 <= i < j < |config.retrievers| ==> !LegacyTwins(config.retrievers[i], config.retrievers[j])
  }

  lemma ResumableIs(config: Config)
    ensures Resumable(config) <==>
              && NoDuplicates(config.models) && NoDuplicates(config.methods) && NoDuplicates(config.sizes)
              && NoDuplicates(config.overlaps)
              && |PaddingsOf(config)| == 1 && DistinctUnder(RetrieversOf(config), LegacyFields)
  {
    forall r, s { LegacyTwinsExactly(r, s); }
    hide LegacyFields, LegacyTwins;
  }

  ghost predicate NonEmpty(config: Config)
  {
    config.models != [] && config.methods != [] && config.sizes != [] && config.overlaps != []
  }

  lemma KeptDistinct(config: Config)
    requires Resumable(config)
    ensures DistinctUnder(NestedGrid(config), Kept())
  {
    var paddings, retrievers := PaddingsOf(config), RetrieversOf(config);
    ResumableIs(config);
    DistinctPairs(paddings, retrievers, Nothing(), LegacyFields);
    var k5 := Both(Nothing(), LegacyFields);
    var g5 := Pairs(paddings, retrievers);
    DistinctPairs(config.overlaps, g5, Same<int>(), k5);
    var k4, g4 := Both(Same<int>(), k5), Pairs(config.overlaps, g5);
    DistinctPairs(config.sizes, g4, Same<int>(), k4);
    var k3, g3 := Both(Same<int>(), k4), Pairs(config.sizes, g4);
    DistinctPairs(config.methods, g3, Same<ChunkingMethod>(), k3);
    DistinctPairs(config.models, Pairs(config.methods, g3), Same<Name>(), Both(Same<ChunkingMethod>(), k3));
  }

  lemma KeptDistinctOnly(config: Config)
    requires NonEmpty(config) && DistinctUnder(NestedGrid(config), Kept())
    ensures Resumable(config)
  {
    var paddings, retrievers := PaddingsOf(config), RetrieversOf(config);
    var k5, g5 := Both(Nothing(), LegacyFields), Pairs(paddings, retrievers);
    var k4, g4 := Both(Same<int>(), k5), Pairs(config.overlaps, g5);
    var k3, g3 := Both(Same<int>(), k4), Pairs(config.sizes, g4);
    DistinctPairsOnly(config.models, Pairs(config.methods, g3), Same<Name>(), Both(Same<ChunkingMethod>(), k3));
    DistinctPairsOnly(config.methods, g3, Same<ChunkingMethod>(), k3);
    DistinctPairsOnly(config.sizes, g4, Same<int>(), k4);
    DistinctPairsOnly(config.overlaps, g5, Same<int>(), k5);
    DistinctPairsOnly(paddings, retrievers, Nothing(), LegacyFields);
    if |paddings| > 1 { TwoUnderConstant(paddings, Nothing()); }
    ResumableIs(config);
  }

  lemma TwoUnderConstant<T(!new)>(xs: seq<T>, f: T -> ())
    requires |xs| > 1
    ensures !DistinctUnder(xs, f)
  {
    assert f(xs[0]) == f(xs[1]);
  }

  /** Resume can tell the runs of a non-empty grid apart exactly when the configuration is resumable. */
  lemma SignaturesDistinctExactly(config: Config, providerOf: Name -> Provider)
    requires NonEmpty(config)
    ensures SignaturesDistinct(Grid(config, providerOf)) <==> Resumable(config)
  {
    GridDistinctAsKept(config, providerOf);
    if Resumable(config) {
      KeptDistinct(config);
    }
    if SignaturesDistinct(Grid(config, providerOf)) {
      KeptDistinctOnly(config);
    }
  }
}
