/**
 The Atlas search-index preflight: server/core/guards/search_index_guard.py:42-82, 269-368,
 server/core/guards/search_index_plan.py:130-219 and server/db/mongo/indexes.py:86-133, 204-249, 262-277,
 351-395, 420-452.

 Whatever else happens on the cluster while the preflight works - indexes building, failing, being
 created or dropped by others - happens between two of its listings.  Names are unique in a collection.
 */
module SearchIndexPreflight {
  import opened Collections
  import SweepGrid

  datatype IndexName = Text | Vector(dims: nat) | Unmanaged(id: nat)

  /** The names this project manages. */
  const MANAGED: set<IndexName> := {Vector(1024), Vector(384), Vector(30522), Text}

  const MAX_DIMENSIONS := 4096

  /** The embedding sizes of the model registry. */
  type Dimensions = d: nat | d in {384, 1024, 30522} witness 384

  datatype Place = Place(database: nat, collection: nat, name: IndexName)

  /** The project's own `chunks` collection. */
  predicate OnChunks(p: Place) { p.database == 0 && p.collection == 0 }

  function ChunksPlace(name: IndexName): Place { Place(0, 0, name) }

  /** Anything that is neither ready nor failed is on its way. */
  datatype Status = Ready | Failed | Building

  type Rows = map<Place, Status>

  // ---- Requirements -----------------------------------------------------------------------------------------

  /** The retrievers that search by words as well. */
  function NeedsText(r: SweepGrid.Retriever): bool
  {
    r.kind.Traditional? && r.kind.search != SweepGrid.Dense
  }

  /** `required_search_indexes`, from the sizes of the configured models and the retrievers. */
  function Required(models: seq<Dimensions>, retrievers: seq<SweepGrid.Retriever>): set<IndexName>
  {
    (set d | d in models :: Vector(d)) + if exists r :: r in retrievers && NeedsText(r) then {Text} else {}
  }

  /** A vector index for each model's size, and the text index for any sparse or hybrid retriever. */
  lemma RequiredExactly(models: seq<Dimensions>, retrievers: seq<SweepGrid.Retriever>, name: IndexName)
    ensures name in Required(models, retrievers) <==>
              || (exists d :: d in models && name == Vector(d))
              || (name == Text
                  && exists r ::
                    r in retrievers && (r.kind == SweepGrid.Traditional(SweepGrid.Sparse)
                                        || r.kind == SweepGrid.Traditional(SweepGrid.Hybrid)))
  {
    if r :| r in retrievers && NeedsText(r) {
      assert r.kind == SweepGrid.Traditional(SweepGrid.Sparse) || r.kind == SweepGrid.Traditional(SweepGrid.Hybrid);
    }
    if r :| r in retrievers && (r.kind == SweepGrid.Traditional(SweepGrid.Sparse)
                                || r.kind == SweepGrid.Traditional(SweepGrid.Hybrid)) {
      assert NeedsText(r);
    }
  }

  /** `validate_vector_index_feasibility`. */
  predicate Feasible(required: set<IndexName>)
  {
    forall name :: name in required ==> name.Vector? && name in MANAGED ==> name.dims <= MAX_DIMENSIONS
  }

  lemma RequiredAreManaged(models: seq<Dimensions>, retrievers: seq<SweepGrid.Retriever>)
    ensures Required(models, retrievers) <= MANAGED
  {}

  /** Only the models of 30,522 dimensions are too large to be indexed. */
  lemma FeasibleExactly(models: seq<Dimensions>, retrievers: seq<SweepGrid.Retriever>)
    ensures Feasible(Required(models, retrievers)) <==> 30522 !in models
  {
    if 30522 in models { assert Vector(30522) in Required(models, retrievers); }
  }

  /** What a feasible configuration needs always fits the smallest tier. */
  lemma FeasibleFitsTheTier(models: seq<Dimensions>, retrievers: seq<SweepGrid.Retriever>)
    requires Feasible(Required(models, retrievers))
    ensures |Required(models, retrievers)| <= 3
  {
    var usable := {Vector(1024), Vector(384), Text};
    assert Required(models, retrievers) <= usable;
    SubsetSize(Required(models, retrievers), usable);
  }

  // ---- Assessment -------------------------------------------------------------------------------------------

  datatype Snapshot = Snapshot(ready: set<IndexName>, building: set<IndexName>, total: nat, limit: nat, unknown: nat)

  function NamesAmong(rows: Rows, places: set<Place>, ready: bool): set<IndexName>
  {
    set p | p in places && p in rows && OnChunks(p) && (rows[p] == Ready) == ready :: p.name
  }

  function NamesOnChunks(rows: Rows, ready: bool): set<IndexName> { NamesAmong(rows, rows.Keys, ready) }

  function UnknownAmong(places: set<Place>): set<Place> { set p | p in places && p.name !in MANAGED }

  function UnknownIn(rows: Rows): set<Place> { UnknownAmong(rows.Keys) }

  function SnapshotOf(rows: Rows, limit: nat): Snapshot
  {
    Snapshot(NamesOnChunks(rows, true), NamesOnChunks(rows, false), |rows|, limit, |UnknownIn(rows)|)
  }

  datatype Assessment = Assessment(missing: set<IndexName>, building: set<IndexName>, slots: nat, satisfied: bool)

  /** `assess_search_index_readiness` and `_failure_reason`. */
  function Assess(required: set<IndexName>, s: Snapshot): Assessment
  {
    var building := required * s.building;
    var missing := required - s.ready - s.building;
    var slots := if s.limit > s.total then s.limit - s.total else 0;
    Assessment(missing, building, slots, |required| <= s.limit && building == {} && missing == {})
  }

  predicate AllReady(required: set<IndexName>, rows: Rows)
  {
    forall name :: name in required ==> ChunksPlace(name) in rows && rows[ChunksPlace(name)] == Ready
  }

  lemma NamesHold(rows: Rows, ready: bool, name: IndexName)
    ensures name in NamesOnChunks(rows, ready) <==>
              ChunksPlace(name) in rows && (rows[ChunksPlace(name)] == Ready) == ready
  {}

  /** An assessment is satisfied exactly when the requirements fit the tier and are all ready. */
  lemma SatisfiedExactly(required: set<IndexName>, rows: Rows, limit: nat)
    ensures Assess(required, SnapshotOf(rows, limit)).satisfied <==> |required| <= limit && AllReady(required, rows)
  {
    var s := SnapshotOf(rows, limit);
    var a := Assess(required, s);
    forall name | name in required
      ensures name in s.ready <==> ChunksPlace(name) in rows && rows[ChunksPlace(name)] == Ready
      ensures name in s.building <==> ChunksPlace(name) in rows && rows[ChunksPlace(name)] != Ready
    {
      NamesHold(rows, true, name);
      NamesHold(rows, false, name);
    }
    if a.building == {} && a.missing == {} {
      forall name | name in required ensures name in s.ready { assert name !in a.building && name !in a.missing; }
    }
    if AllReady(required, rows) {
      forall name | name in required ensures name !in a.building && name !in a.missing {}
    }
  }

  // ---- Drops ------------------------------------------------------------------------------------------------

  /** Failed indexes on chunks, and managed ones there that are not required. */
  predicate InTheWay(p: Place, status: Status, required: set<IndexName>)
  {
    OnChunks(p) && (status == Failed || (p.name in MANAGED && p.name !in required))
  }

  function ToReconcile(rows: Rows, required: set<IndexName>): set<Place>
  {
    set p | p in rows && InTheWay(p, rows[p], required)
  }

  /** A required index is only ever dropped if it failed. */
  lemma RequiredDroppedOnlyIfFailed(rows: Rows, required: set<IndexName>, name: IndexName)
    requires name in required && required <= MANAGED
    ensures ChunksPlace(name) in ToReconcile(rows, required) ==> rows[ChunksPlace(name)] == Failed
    ensures ChunksPlace(name) !in UnknownIn(rows)
  {}

  ghost predicate Summed(rows: Rows, seen: set<Place>, ready: set<IndexName>, building: set<IndexName>,
                         unknown: set<Place>)
  {
    ready == NamesAmong(rows, seen, true) && building == NamesAmong(rows, seen, false) && unknown == UnknownAmong(seen)
  }

  lemma SumOne(rows: Rows, seen: set<Place>, ready: set<IndexName>, building: set<IndexName>, unknown: set<Place>,
               p: Place)
    requires Summed(rows, seen, ready, building, unknown) && p in rows
    ensures Summed(rows, seen + {p}, if OnChunks(p) && rows[p] == Ready then ready + {p.name} else ready,
                   if OnChunks(p) && rows[p] != Ready then building + {p.name} else building,
                   if p.name !in MANAGED then unknown + {p} else unknown)
  {}

  lemma SummedUp(rows: Rows, limit: nat, ready: set<IndexName>, building: set<IndexName>, unknown: set<Place>)
    requires Summed(rows, rows.Keys, ready, building, unknown)
    ensures Snapshot(ready, building, |rows|, limit, |unknown|) == SnapshotOf(rows, limit)
  {}

  lemma NothingSeen(rows: Rows)
    ensures Summed(rows, {}, {}, {}, {})
  {}

  /** `collect_search_index_snapshot`, given the cluster's rows. */
  method Summarize(rows: Rows, limit: nat) returns (s: Snapshot)
    ensures s == SnapshotOf(rows, limit)
  {
    hide Summed, SnapshotOf;
    var ready: set<IndexName>, building: set<IndexName>, unknown: set<Place> := {}, {}, {};
    NothingSeen(rows);
    var todo := rows.Keys;
    assert rows.Keys - todo == {};
    while todo != {}
      invariant todo <= rows.Keys && Summed(rows, rows.Keys - todo, ready, building, unknown)
      decreases todo
    {
      var p :| p in todo;
      SumOne(rows, rows.Keys - todo, ready, building, unknown, p);
      assert rows.Keys - todo + {p} == rows.Keys - (todo - {p});
      todo := todo - {p};
      if OnChunks(p) {
        if rows[p] == Ready {
          ready := ready + {p.name};
        } else {
          building := building + {p.name};
        }
      }
      if p.name !in MANAGED {
        unknown := unknown + {p};
      }
    }
    s := Snapshot(ready, building, |rows|, limit, |unknown|);
    assert rows.Keys - {} == rows.Keys;
    SummedUp(rows, limit, ready, building, unknown);
  }

  predicate Short(a: Assessment) { a.missing != {} && |a.missing| > a.slots }

  predicate CanCreate(a: Assessment) { a.missing != {} && |a.missing| <= a.slots }

  // ---- What happens to a cluster ------------------------------------------------------------------------------

  /** Others change the cluster; the preflight looks at it, drops an index, or makes one. */
  datatype Deed =
    | Became(rows: Rows)
    | Seen(snapshot: Snapshot)
    | Dropped(place: Place, status: Status)
    | Made(name: IndexName, status: Status)

  function Effect(rows: Rows, d: Deed): Rows
  {
    match d
    case Became(others) => others
    case Seen(_) => rows
    case Dropped(p, _) => rows - {p}
    case Made(name, status) => rows[ChunksPlace(name) := status]
  }

  function RowsAfter(rows: Rows, deeds: seq<Deed>): Rows
  {
    if deeds == [] then rows else Effect(RowsAfter(rows, deeds[..|deeds| - 1]), deeds[|deeds| - 1])
  }

  function LastSeen(deeds: seq<Deed>): Option<Snapshot>
  {
    if deeds == [] then None
    else if deeds[|deeds| - 1].Seen? then Some(deeds[|deeds| - 1].snapshot)
    else LastSeen(deeds[..|deeds| - 1])
  }

  /** A preflight is asked for, on a cluster that looks like `before` after `mark` deeds. */
  datatype Asked = Asked(required: set<IndexName>, attemptEnsure: bool, limit: nat, before: Rows, mark: nat)

  /** It may act at all: on a feasible request, after a look that found the requirements not met. */
  predicate MayAct(a: Asked, seen: Option<Snapshot>)
  {
    a.attemptEnsure && Feasible(a.required) && seen.Some? && !Assess(a.required, seen.value).satisfied
  }

  /** A drop is of what is in the way, or of an unmanaged index when the last look found slots short; a
      creation is of a required index that is not there, when the last look found that the missing fit. */
  predicate Grounds(a: Asked, rows: Rows, seen: Option<Snapshot>, d: Deed)
  {
    match d
    case Became(_) => true
    case Seen(s) => s == SnapshotOf(rows, a.limit)
    case Dropped(p, status) =>
      && MayAct(a, seen) && p in rows && rows[p] == status
      && (InTheWay(p, status, a.required) || (p.name !in MANAGED && Short(Assess(a.required, seen.value))))
    case Made(name, _) =>
      && MayAct(a, seen) && name in a.required && name in MANAGED && ChunksPlace(name) !in rows
      && CanCreate(Assess(a.required, seen.value))
  }

  predicate Lawful(a: Asked, deeds: seq<Deed>)
  {
    deeds == [] ||
    var earlier := deeds[..|deeds| - 1];
    Lawful(a, earlier) && Grounds(a, RowsAfter(a.before, earlier), LastSeen(earlier), deeds[|deeds| - 1])
  }

  lemma NoDeeds(a: Asked)
    ensures Lawful(a, []) && RowsAfter(a.before, []) == a.before && LastSeen([]) == None
  {}

  lemma OneMoreDeed(a: Asked, deeds: seq<Deed>, d: Deed)
    requires a.mark <= |deeds| && Lawful(a, deeds[a.mark..])
    requires Grounds(a, RowsAfter(a.before, deeds[a.mark..]), LastSeen(deeds[a.mark..]), d)
    ensures var all := (deeds + [d])[a.mark..];
            && Lawful(a, all) && RowsAfter(a.before, all) == Effect(RowsAfter(a.before, deeds[a.mark..]), d)
            && LastSeen(all) == if d.Seen? then Some(d.snapshot) else LastSeen(deeds[a.mark..])
  {
    hide Grounds, Effect;
    assert (deeds + [d])[a.mark..] == deeds[a.mark..] + [d];
    assert (deeds[a.mark..] + [d])[..|deeds| - a.mark] == deeds[a.mark..];
  }

  // ---- The cluster ------------------------------------------------------------------------------------------

  /** The search indexes of a cluster.  On a `still` one nobody else acts and creating an index works at once. */
  class Cluster {
    const still: bool
    var rows: Rows
    ghost var deeds: seq<Deed>

    constructor (rows: Rows, still: bool)
      ensures this.rows == rows && this.still == still && deeds == []
    {
      this.rows, this.still, deeds := rows, still, [];
    }

    /** Since `a` was asked for, all that happened is on record, and every deed had its grounds. */
    ghost predicate Accounts(a: Asked)
      reads this
    {
      a.mark <= |deeds| && rows == RowsAfter(a.before, deeds[a.mark..]) && Lawful(a, deeds[a.mark..])
    }

    /** What was seen last since then. */
    ghost function Basis(a: Asked): Option<Snapshot>
      reads this
    {
      if a.mark <= |deeds| then LastSeen(deeds[a.mark..]) else None
    }

    /** Time passes. */
    method Elapse(ghost a: Asked)
      requires Accounts(a)
      modifies this
      ensures Accounts(a) && Basis(a) == old(Basis(a)) && old(deeds) <= deeds
      ensures still ==> rows == old(rows)
    {
      if !still {
        rows := *;
        OneMoreDeed(a, deeds, Became(rows));
        deeds := deeds + [Became(rows)];
      }
    }

    method Drop(p: Place, ghost a: Asked)
      requires Accounts(a) && p in rows && Grounds(a, rows, Basis(a), Dropped(p, rows[p]))
      modifies this
      ensures Accounts(a) && Basis(a) == old(Basis(a)) && old(deeds) <= deeds
      ensures rows == old(rows) - {p}
    {
      hide Lawful, RowsAfter, LastSeen, Grounds;
      ghost var d := Dropped(p, rows[p]);
      OneMoreDeed(a, deeds, d);
      rows := rows - {p};
      deeds := deeds + [d];
    }

    method CollectSnapshot(limit: nat, ghost a: Asked) returns (s: Snapshot)
      requires Accounts(a) && a.limit == limit
      modifies this
      ensures Accounts(a) && Basis(a) == Some(s) && old(deeds) <= deeds
      ensures s == SnapshotOf(rows, limit) && (still ==> rows == old(rows))
    {
      hide Lawful, RowsAfter, LastSeen, SnapshotOf;
      Elapse(a);
      s := Summarize(rows, limit);
      OneMoreDeed(a, deeds, Seen(s));
      deeds := deeds + [Seen(s)];
    }

    /** Drops `doomed`, one by one. */
    method DropAll(doomed: set<Place>, ghost a: Asked)
      requires Accounts(a) && doomed <= rows.Keys
      requires forall p :: p in doomed ==> Grounds(a, rows, Basis(a), Dropped(p, rows[p]))
      modifies this
      ensures Accounts(a) && Basis(a) == old(Basis(a)) && old(deeds) <= deeds
      ensures rows == old(rows) - doomed
    {
      hide Accounts, Basis, MayAct, InTheWay, Short;
      var todo := doomed;
      while todo != {}
        invariant Accounts(a) && Basis(a) == old(Basis(a)) && old(deeds) <= deeds
        invariant todo <= doomed && rows == old(rows) - (doomed - todo)
        decreases todo
      {
        var p :| p in todo;
        todo := todo - {p};
        assert Grounds(a, old(rows), Basis(a), Dropped(p, old(rows)[p]));
        Drop(p, a);
        assert old(rows) - (doomed - todo) == old(rows) - (doomed - todo - {p}) - {p};
      }
      assert doomed - {} == doomed;
    }

    /** `reconcile_chunks_search_indexes`. */
    method Reconcile(required: set<IndexName>, ghost a: Asked) returns (dropped: set<Place>, ghost listing: Rows)
      requires Accounts(a) && a.required == required && MayAct(a, Basis(a))
      modifies this
      ensures Accounts(a) && Basis(a) == old(Basis(a)) && old(deeds) <= deeds
      ensures (still ==> listing == old(rows)) && dropped == ToReconcile(listing, required) && rows == listing - dropped
    {
      hide Accounts, Basis, MayAct, InTheWay, Short;
      Elapse(a);
      listing := rows;
      dropped := ToReconcile(rows, required);
      DropAll(dropped, a);
    }

    /** `prune_unknown_search_indexes`. */
    method Prune(ghost a: Asked) returns (dropped: set<Place>, ghost listing: Rows)
      requires Accounts(a) && MayAct(a, Basis(a)) && Short(Assess(a.required, Basis(a).value))
      modifies this
      ensures Accounts(a) && Basis(a) == old(Basis(a)) && old(deeds) <= deeds
      ensures (still ==> listing == old(rows)) && dropped == UnknownIn(listing) && rows == listing - dropped
    {
      hide Accounts, Basis, InTheWay, Short, Assess;
      Elapse(a);
      listing := rows;
      dropped := UnknownIn(rows);
      DropAll(dropped, a);
    }

    /** `create_vector_index` or `create_text_search_index`: may be refused, or raise. */
    method Create(name: IndexName, ghost a: Asked) returns (created: bool, raised: bool)
      requires Accounts(a) && MayAct(a, Basis(a)) && CanCreate(Assess(a.required, Basis(a).value))
      requires name in a.required && name in MANAGED
      modifies this
      ensures Accounts(a) && Basis(a) == old(Basis(a)) && old(deeds) <= deeds
      ensures still ==> !raised && created == (ChunksPlace(name) !in old(rows))
      ensures still ==> rows == if created then old(rows)[ChunksPlace(name) := Ready] else old(rows)
    {
      hide Lawful, RowsAfter, LastSeen, CanCreate, Assess, MayAct;
      Elapse(a);
      if ChunksPlace(name) in rows {
        return false, false;
      }
      var refused: bool, raises: bool := *, *;
      if !still && (refused || raises) {
        return false, raises;
      }
      ghost var d := Made(name, if still then Ready else Building);
      OneMoreDeed(a, deeds, d);
      rows := rows[ChunksPlace(name) := if still then Ready else Building];
      deeds := deeds + [d];
      Elapse(a);
      created, raised := true, false;
    }

    /** `ensure_required_search_indexes`. */
    method EnsureRequired(required: set<IndexName>, ghost a: Asked) returns (names: set<IndexName>, raised: bool)
      requires Accounts(a) && MayAct(a, Basis(a)) && CanCreate(Assess(a.required, Basis(a).value))
      requires a.required == required
      modifies this
      ensures Accounts(a) && Basis(a) == old(Basis(a)) && old(deeds) <= deeds
      ensures names <= required
      ensures still ==> !raised && rows == WithReady(old(rows), required)
    {
      hide Accounts, Basis, MayAct, CanCreate, Assess;
      var todo := required;
      names, raised := {}, false;
      while todo != {}
        invariant Accounts(a) && Basis(a) == old(Basis(a)) && old(deeds) <= deeds
        invariant todo <= required && names <= required
        invariant still ==> rows == WithReady(old(rows), required - todo)
        decreases todo
      {
        var name :| name in todo;
        assert required - (todo - {name}) == (required - todo) + {name};
        WithOneMore(old(rows), required - todo, name);
        todo := todo - {name};
        if name in MANAGED {
          var created, failed := Create(name, a);
          if created {
            names := names + {name};
          }
          if failed {
            return names, true;
          }
        }
      }
      assert required - {} == required;
    }
  }

  /** The managed `names` that chunks lacks, created and ready. */
  function WithReady(rows: Rows, names: set<IndexName>): Rows
  {
    var added := set name | name in names && name in MANAGED && ChunksPlace(name) !in rows :: ChunksPlace(name);
    map p | p in rows.Keys + added :: if p in rows then rows[p] else Ready
  }

  lemma WithOneMore(rows: Rows, names: set<IndexName>, name: IndexName)
    requires name !in names
    ensures name in MANAGED && ChunksPlace(name) !in rows ==>
              WithReady(rows, names + {name}) == WithReady(rows, names)[ChunksPlace(name) := Ready]
              && ChunksPlace(name) !in WithReady(rows, names)
    ensures name !in MANAGED || ChunksPlace(name) in rows ==> WithReady(rows, names + {name}) == WithReady(rows, names)
    ensures ChunksPlace(name) in rows ==> ChunksPlace(name) in WithReady(rows, names)
  {}

  // ---- The preflight ------------------------------------------------------------------------------------------

  function AssessRows(required: set<IndexName>, rows: Rows, limit: nat): Assessment
  {
    Assess(required, SnapshotOf(rows, limit))
  }

  datatype Settlement = Settlement(ok: bool, rows: Rows)

  function Reduced(rows: Rows, required: set<IndexName>): Rows { rows - ToReconcile(rows, required) }

  function Freed(rows: Rows, required: set<IndexName>, limit: nat): Rows
  {
    if Short(AssessRows(required, rows, limit)) then rows - UnknownIn(rows) else rows
  }

  /** What the preflight comes to on a still cluster. */
  function Settled(rows: Rows, required: set<IndexName>, attemptEnsure: bool, limit: nat): Settlement
  {
    if !Feasible(required) then Settlement(false, rows)
    else if AssessRows(required, rows, limit).satisfied then Settlement(true, rows)
    else if !attemptEnsure then Settlement(false, rows)
    else
      var reduced := Reduced(rows, required);
      if AssessRows(required, reduced, limit).satisfied then Settlement(true, reduced)
      else
        var freed := Freed(reduced, required, limit);
        var created := if CanCreate(AssessRows(required, freed, limit)) then WithReady(freed, required) else freed;
        Settlement(AssessRows(required, created, limit).satisfied, created)
  }

  lemma NothingDropped(rows: Rows)
    ensures rows - {} == rows
  {}

  /** Drops what stands in the way, and assesses what is left. */
  method MakeRoom(cluster: Cluster, required: set<IndexName>, limit: nat, first: Assessment, ghost a: Asked)
    returns (assessment: Assessment)
    requires a.required == required && a.limit == limit && MayAct(a, cluster.Basis(a)) && cluster.Accounts(a)
    requires first == Assess(required, cluster.Basis(a).value)
    requires cluster.still ==> first == AssessRows(required, cluster.rows, limit)
    modifies cluster
    ensures cluster.Accounts(a) && old(cluster.deeds) <= cluster.deeds
    ensures cluster.Basis(a).Some? && assessment == Assess(required, cluster.Basis(a).value)
    ensures assessment.satisfied ==> assessment == AssessRows(required, cluster.rows, limit)
    ensures cluster.still ==> assessment == AssessRows(required, cluster.rows, limit)
    ensures cluster.still ==>
              var reduced := Reduced(old(cluster.rows), required);
              cluster.rows ==
                if AssessRows(required, reduced, limit).satisfied then reduced else Freed(reduced, required, limit)
  {
    hide SnapshotOf, Assess, ToReconcile, UnknownIn, Lawful, RowsAfter, LastSeen;
    assessment := first;
    var dropped, listing := cluster.Reconcile(required, a);
    NothingDropped(listing);
    if dropped != {} {
      var snapshot := cluster.CollectSnapshot(limit, a);
      assessment := Assess(required, snapshot);
      if assessment.satisfied {
        return;
      }
    }
    if Short(assessment) {
      var pruned, before := cluster.Prune(a);
      NothingDropped(before);
      if pruned != {} {
        var snapshot := cluster.CollectSnapshot(limit, a);
        assessment := Assess(required, snapshot);
      }
    }
  }

  /** `validate_experiment_search_indexes`; `ok` unless it raises.  Whoever else acts on the cluster, all that
      the preflight does to it is on record with its grounds, and it returns exactly when the last look found
      the requirements met. */
  method Validate(cluster: Cluster, required: set<IndexName>, attemptEnsure: bool, limit: nat) returns (ok: bool)
    modifies cluster
    ensures old(cluster.deeds) <= cluster.deeds
    ensures var a := Asked(required, attemptEnsure, limit, old(cluster.rows), |old(cluster.deeds)|);
            && Lawful(a, cluster.deeds[a.mark..]) && cluster.rows == RowsAfter(a.before, cluster.deeds[a.mark..])
            && var seen := LastSeen(cluster.deeds[a.mark..]);
               ok <==> Feasible(required) && seen.Some? && Assess(required, seen.value).satisfied
    ensures ok ==> |required| <= limit && AllReady(required, cluster.rows)
    ensures cluster.still ==> Settlement(ok, cluster.rows) == Settled(old(cluster.rows), required, attemptEnsure, limit)
  {
    hide SnapshotOf, Assess, ToReconcile, UnknownIn, WithReady, AllReady, Feasible, Lawful, RowsAfter, LastSeen;
    ghost var a := Asked(required, attemptEnsure, limit, cluster.rows, |cluster.deeds|);
    assert cluster.deeds[a.mark..] == [];
    NoDeeds(a);
    if !Feasible(required) {
      return false;
    }
    var snapshot := cluster.CollectSnapshot(limit, a);
    var assessment := Assess(required, snapshot);
    SatisfiedExactly(required, cluster.rows, limit);
    if assessment.satisfied {
      return true;
    }
    if !attemptEnsure {
      return false;
    }
    assessment := MakeRoom(cluster, required, limit, assessment, a);
    SatisfiedExactly(required, cluster.rows, limit);
    if assessment.satisfied {
      SatisfiedNeedsNothing(required, cluster.rows, limit);
      return true;
    }
    if CanCreate(assessment) {
      var names, raised := cluster.EnsureRequired(required, a);
      if raised {
        return false;
      }
      snapshot := cluster.CollectSnapshot(limit, a);
      assessment := Assess(required, snapshot);
      SatisfiedExactly(required, cluster.rows, limit);
    }
    ok := assessment.satisfied;
  }

  // ---- What a preflight does to any cluster -------------------------------------------------------------------

  /** Of every deed on record: what the cluster was and what had been seen last when it was done. */
  lemma {:induction false} EveryDeedHasGrounds(a: Asked, deeds: seq<Deed>, i: nat)
    requires Lawful(a, deeds) && i < |deeds|
    ensures Grounds(a, RowsAfter(a.before, deeds[..i]), LastSeen(deeds[..i]), deeds[i])
  {
    hide Grounds, RowsAfter, LastSeen;
    var n := |deeds| - 1;
    if i < n {
      EveryDeedHasGrounds(a, deeds[..n], i);
      assert deeds[..n][..i] == deeds[..i];
    }
  }

  /** Whoever else acts on the cluster, a preflight drops a required index only when it has failed. */
  lemma RequiredDroppedOnlyWhenFailed(a: Asked, deeds: seq<Deed>, i: nat, name: IndexName)
    requires Lawful(a, deeds) && i < |deeds| && a.required <= MANAGED && name in a.required
    requires deeds[i].Dropped? && deeds[i].place == ChunksPlace(name)
    ensures var rows := RowsAfter(a.before, deeds[..i]); ChunksPlace(name) in rows && rows[ChunksPlace(name)] == Failed
  {
    EveryDeedHasGrounds(a, deeds, i);
  }

  lemma SatisfiedNeedsNothing(required: set<IndexName>, rows: Rows, limit: nat)
    requires AssessRows(required, rows, limit).satisfied
    ensures AssessRows(required, rows, limit).missing == {}
  {}

  // ---- What a preflight does to a still cluster -----------------------------------------------------------------

  lemma FreedKeeps(rows: Rows, required: set<IndexName>, limit: nat, p: Place)
    ensures p in Freed(rows, required, limit) ==> p in rows && Freed(rows, required, limit)[p] == rows[p]
    ensures p in rows && (p.name in MANAGED || !Short(AssessRows(required, rows, limit))) ==>
              p in Freed(rows, required, limit)
  {}

  /** An index is only lost if it is on chunks and failed or is managed and not required, or if it is not
      managed and slots were short once those were gone. */
  lemma LostOnlyFor(rows: Rows, required: set<IndexName>, limit: nat, p: Place)
    requires p in rows && p !in Settled(rows, required, true, limit).rows
    ensures
      || (OnChunks(p) && (rows[p] == Failed || (p.name in MANAGED && p.name !in required)))
      || (p.name !in MANAGED && Short(AssessRows(required, Reduced(rows, required), limit)))
  {
    hide Assess, SnapshotOf, Feasible;
    FreedKeeps(Reduced(rows, required), required, limit, p);
  }

  lemma RequiredLostOnlyIfFailed(rows: Rows, required: set<IndexName>, limit: nat, name: IndexName)
    requires required <= MANAGED && name in required && ChunksPlace(name) in rows
    requires ChunksPlace(name) !in Settled(rows, required, true, limit).rows
    ensures rows[ChunksPlace(name)] == Failed
  {
    LostOnlyFor(rows, required, limit, ChunksPlace(name));
  }

  lemma MissingHolds(required: set<IndexName>, rows: Rows, limit: nat, name: IndexName)
    ensures name in AssessRows(required, rows, limit).missing <==> name in required && ChunksPlace(name) !in rows
  {}

  function PlacesOf(names: set<IndexName>): set<Place> { set name | name in names :: ChunksPlace(name) }

  lemma {:induction false} PlacesSize(names: set<IndexName>)
    ensures |PlacesOf(names)| == |names|
    decreases names
  {
    if names == {} {
      assert PlacesOf(names) == {};
    } else {
      var name :| name in names;
      PlacesSize(names - {name});
      assert PlacesOf(names) == PlacesOf(names - {name}) + {ChunksPlace(name)};
    }
  }

  lemma WithReadyHolds(rows: Rows, required: set<IndexName>, limit: nat)
    requires required <= MANAGED
    ensures WithReady(rows, required).Keys == rows.Keys + PlacesOf(AssessRows(required, rows, limit).missing)
    ensures |WithReady(rows, required)| == |rows| + |AssessRows(required, rows, limit).missing|
    ensures forall p :: p in rows ==> WithReady(rows, required)[p] == rows[p]
    ensures forall name :: name in AssessRows(required, rows, limit).missing ==>
              ChunksPlace(name) in WithReady(rows, required) && WithReady(rows, required)[ChunksPlace(name)] == Ready
  {
    var missing, after := AssessRows(required, rows, limit).missing, WithReady(rows, required);
    forall name
      ensures name in missing <==> name in required && ChunksPlace(name) !in rows
    {
      MissingHolds(required, rows, limit, name);
    }
    hide Assess, SnapshotOf;
    assert after.Keys == rows.Keys + PlacesOf(missing);
    PlacesSize(missing);
    assert rows.Keys !! PlacesOf(missing);
    assert |after.Keys| == |rows.Keys| + |PlacesOf(missing)|;
  }

  /** The cluster never outgrows its limit, unless it had already. */
  lemma QuotaKept(rows: Rows, required: set<IndexName>, limit: nat)
    requires required <= MANAGED
    ensures var after := Settled(rows, required, true, limit).rows; |after| <= |rows| || |after| <= limit
  {
    var reduced := Reduced(rows, required);
    var freed := Freed(reduced, required, limit);
    assert |reduced| <= |rows| by { SubsetSize(reduced.Keys, rows.Keys); }
    assert |freed| <= |reduced| by { SubsetSize(freed.Keys, reduced.Keys); }
    WithReadyHolds(freed, required, limit);
    RoomToCreate(required, freed, limit);
    hide SnapshotOf, Assess, Feasible, WithReady, Reduced, Freed;
  }

  /** How the cluster was at the last look. */
  function RowsSeen(a: Asked, deeds: seq<Deed>): Rows
  {
    if deeds == [] then a.before
    else if deeds[|deeds| - 1].Seen? then RowsAfter(a.before, deeds)
    else RowsSeen(a, deeds[..|deeds| - 1])
  }

  /** There was a look, and since then others have added no index. */
  predicate OthersAddNone(a: Asked, deeds: seq<Deed>)
  {
    deeds != [] &&
    var earlier, last := deeds[..|deeds| - 1], deeds[|deeds| - 1];
    || last.Seen?
    || (OthersAddNone(a, earlier) && (last.Became? ==> last.rows.Keys <= RowsAfter(a.before, earlier).Keys))
  }

  /** What can be there since the last look: what was there, and what was missing if that fits. */
  ghost predicate WithinSight(required: set<IndexName>, seen: Rows, limit: nat, rows: Rows)
  {
    var s := AssessRows(required, seen, limit);
    || rows.Keys <= seen.Keys
    || (CanCreate(s) && rows.Keys <= seen.Keys + PlacesOf(s.missing))
  }

  lemma MadeWithinSight(required: set<IndexName>, seen: Rows, limit: nat, rows: Rows, name: IndexName, status: Status)
    requires WithinSight(required, seen, limit, rows) && name in required
    requires CanCreate(AssessRows(required, seen, limit))
    ensures WithinSight(required, seen, limit, rows[ChunksPlace(name) := status])
  {
    MissingHolds(required, seen, limit, name);
    hide AssessRows, CanCreate;
  }

  lemma {:induction false} DeedsWithinSight(a: Asked, deeds: seq<Deed>)
    requires Lawful(a, deeds) && OthersAddNone(a, deeds)
    ensures LastSeen(deeds) == Some(SnapshotOf(RowsSeen(a, deeds), a.limit))
    ensures WithinSight(a.required, RowsSeen(a, deeds), a.limit, RowsAfter(a.before, deeds))
  {
    hide SnapshotOf, Assess, WithinSight, CanCreate, Short, InTheWay;
    var earlier, last := deeds[..|deeds| - 1], deeds[|deeds| - 1];
    var seen := RowsSeen(a, deeds);
    if last.Seen? {
      SightHolds(a.required, seen, a.limit, seen, seen);
    } else {
      DeedsWithinSight(a, earlier);
      var rows := RowsAfter(a.before, earlier);
      if last.Made? {
        MadeWithinSight(a.required, seen, a.limit, rows, last.name, last.status);
      } else {
        SightHolds(a.required, seen, a.limit, rows, Effect(rows, last));
      }
    }
  }

  lemma SightHolds(required: set<IndexName>, seen: Rows, limit: nat, rows: Rows, fewer: Rows)
    requires (rows == seen || WithinSight(required, seen, limit, rows)) && fewer.Keys <= rows.Keys
    ensures WithinSight(required, seen, limit, fewer)
  {}

  /** On a cluster where others act too, the preflight's own creations keep the quota: as long as others
      add nothing after its last look, the cluster is no larger than it was then or within its limit. */
  lemma QuotaKeptAsSeen(a: Asked, deeds: seq<Deed>)
    requires Lawful(a, deeds) && OthersAddNone(a, deeds)
    ensures |RowsAfter(a.before, deeds)| <= |RowsSeen(a, deeds)| || |RowsAfter(a.before, deeds)| <= a.limit
  {
    DeedsWithinSight(a, deeds);
    var seen, rows := RowsSeen(a, deeds), RowsAfter(a.before, deeds);
    var missing := AssessRows(a.required, seen, a.limit).missing;
    RoomToCreate(a.required, seen, a.limit);
    PlacesSize(missing);
    hide Lawful, OthersAddNone, RowsAfter, RowsSeen, AssessRows;
    if rows.Keys <= seen.Keys {
      SubsetSize(rows.Keys, seen.Keys);
    } else {
      SubsetSize(rows.Keys, seen.Keys + PlacesOf(missing));
      assert |seen.Keys + PlacesOf(missing)| <= |seen| + |missing|;
    }
  }

  lemma {:induction false} LastLookIs(a: Asked, deeds: seq<Deed>)
    requires Lawful(a, deeds) && LastSeen(deeds).Some?
    ensures LastSeen(deeds) == Some(SnapshotOf(RowsSeen(a, deeds), a.limit))
  {
    hide SnapshotOf;
    if !deeds[|deeds| - 1].Seen? { LastLookIs(a, deeds[..|deeds| - 1]); }
  }

  /** Whoever else acts on the cluster, an unmanaged index that is not a failed one of chunks is dropped only
      when, at the last look, what was there and what was missing did not fit the limit together. */
  lemma UnmanagedDroppedOnlyWhenShort(a: Asked, deeds: seq<Deed>, i: nat)
    requires Lawful(a, deeds) && i < |deeds| && deeds[i].Dropped?
    requires deeds[i].place.name !in MANAGED && !(OnChunks(deeds[i].place) && deeds[i].status == Failed)
    ensures var seen := RowsSeen(a, deeds[..i]);
            Absent(a.required, seen) != {} && |seen| + |Absent(a.required, seen)| > a.limit
  {
    EveryDeedHasGrounds(a, deeds, i);
    LawfulBefore(a, deeds, i);
    LastLookIs(a, deeds[..i]);
    ShortExactly(a.required, RowsSeen(a, deeds[..i]), a.limit);
  }

  /** Whatever it does, it was told to act, on sizes that can be indexed, and at the last look the requirements did
      not fit the tier or were not all ready; and it drops only what is there: failed indexes of chunks, managed
      ones of chunks that are not required, and unmanaged ones. */
  lemma ActsOnlyWhenNeeded(a: Asked, deeds: seq<Deed>, i: nat)
    requires Lawful(a, deeds) && i < |deeds| && (deeds[i].Dropped? || deeds[i].Made?)
    ensures a.attemptEnsure
    ensures forall name :: name in a.required && name in MANAGED && name.Vector? ==> name.dims <= 4096
    ensures !(|a.required| <= a.limit && AllReady(a.required, RowsSeen(a, deeds[..i])))
    ensures deeds[i].Dropped? ==>
              var p, rows := deeds[i].place, RowsAfter(a.before, deeds[..i]);
              && p in rows && rows[p] == deeds[i].status
              && (|| (p.database == 0 && p.collection == 0 && rows[p] == Failed)
                  || (p.database == 0 && p.collection == 0 && p.name in MANAGED && p.name !in a.required)
                  || p.name !in MANAGED)
  {
    EveryDeedHasGrounds(a, deeds, i);
    LawfulBefore(a, deeds, i);
    LastLookIs(a, deeds[..i]);
    SatisfiedExactly(a.required, RowsSeen(a, deeds[..i]), a.limit);
    hide SnapshotOf, Assess, AllReady, RowsAfter, RowsSeen, Lawful;
  }

  lemma {:induction false} LawfulBefore(a: Asked, deeds: seq<Deed>, i: nat)
    requires Lawful(a, deeds) && i <= |deeds|
    ensures Lawful(a, deeds[..i])
  {
    if i == |deeds| {
      assert deeds[..i] == deeds;
    } else {
      LawfulBefore(a, deeds[..|deeds| - 1], i);
      assert deeds[..|deeds| - 1][..i] == deeds[..i];
    }
  }

  /** And a creation is of a required name that was not there, with what was missing fitting the limit. */
  lemma CreatedOnlyWhenFitting(a: Asked, deeds: seq<Deed>, i: nat)
    requires Lawful(a, deeds) && i < |deeds| && deeds[i].Made?
    ensures var seen := RowsSeen(a, deeds[..i]);
            && deeds[i].name in a.required && ChunksPlace(deeds[i].name) !in RowsAfter(a.before, deeds[..i])
            && Absent(a.required, seen) != {} && |seen| + |Absent(a.required, seen)| <= a.limit
  {
    EveryDeedHasGrounds(a, deeds, i);
    LawfulBefore(a, deeds, i);
    LastLookIs(a, deeds[..i]);
    ShortExactly(a.required, RowsSeen(a, deeds[..i]), a.limit);
    RoomToCreate(a.required, RowsSeen(a, deeds[..i]), a.limit);
  }

  lemma RoomToCreate(required: set<IndexName>, rows: Rows, limit: nat)
    ensures CanCreate(AssessRows(required, rows, limit)) <==>
              AssessRows(required, rows, limit).missing != {}
              && |rows| + |AssessRows(required, rows, limit).missing| <= limit
  {}

  // ---- When an index is lost ------------------------------------------------------------------------------------

  /** The required names that chunks lacks. */
  function Absent(required: set<IndexName>, rows: Rows): set<IndexName>
  {
    set name | name in required && ChunksPlace(name) !in rows
  }

  /** What is left of the cluster without failed and surplus indexes of chunks. */
  function Cleared(rows: Rows, required: set<IndexName>): set<Place>
  {
    set p | p in rows && !(OnChunks(p) && (rows[p] == Failed || (p.name in MANAGED && p.name !in required)))
  }

  /** Slots are short when what is there and what is missing do not fit together. */
  lemma ShortExactly(required: set<IndexName>, rows: Rows, limit: nat)
    ensures AssessRows(required, rows, limit).missing == Absent(required, rows)
    ensures Short(AssessRows(required, rows, limit)) <==>
              Absent(required, rows) != {} && |rows| + |Absent(required, rows)| > limit
  {
    forall name ensures name in AssessRows(required, rows, limit).missing <==> name in Absent(required, rows) {
      MissingHolds(required, rows, limit, name);
    }
    assert AssessRows(required, rows, limit).missing == Absent(required, rows);
  }

  lemma ReducedIsCleared(rows: Rows, required: set<IndexName>)
    ensures Reduced(rows, required).Keys == Cleared(rows, required)
    ensures forall p :: p in Reduced(rows, required) ==> Reduced(rows, required)[p] == rows[p]
  {}

  /** Of an index that is not required: it is lost exactly if the request is feasible and not met, and it is
      on chunks and failed or managed, or it is unmanaged, something is missing once those are cleared, and
      the rest and what is missing do not fit the limit together. */
  lemma LostExactly(rows: Rows, required: set<IndexName>, limit: nat, p: Place)
    requires required <= MANAGED && p in rows && p.name !in required
    ensures p !in Settled(rows, required, true, limit).rows <==>
              && Feasible(required) && !(|required| <= limit && AllReady(required, rows))
              && (|| (OnChunks(p) && (rows[p] == Failed || p.name in MANAGED))
                  || (&& p.name !in MANAGED && Absent(required, Reduced(rows, required)) != {}
                      && |Cleared(rows, required)| + |Absent(required, Reduced(rows, required))| > limit))
  {
    var reduced := Reduced(rows, required);
    ReducedIsCleared(rows, required);
    assert |reduced| == |reduced.Keys| == |Cleared(rows, required)|;
    SatisfiedExactly(required, rows, limit);
    SatisfiedExactly(required, reduced, limit);
    ShortExactly(required, reduced, limit);
    hide AssessRows, Short, CanCreate, Feasible, AllReady;
    if AssessRows(required, reduced, limit).satisfied {
      AllReadyLacksNothing(required, reduced);
    } else {
      WithReadyKeeps(Freed(reduced, required, limit), required, p);
    }
  }

  lemma AllReadyLacksNothing(required: set<IndexName>, rows: Rows)
    requires AllReady(required, rows)
    ensures Absent(required, rows) == {}
  {}

  lemma WithReadyKeeps(rows: Rows, required: set<IndexName>, p: Place)
    requires p.name !in required
    ensures p in WithReady(rows, required) <==> p in rows
  {}

  // ---- When a preflight succeeds --------------------------------------------------------------------------------

  /** Managed indexes elsewhere on the cluster, which the preflight never drops. */
  function Foreign(rows: Rows): set<Place> { set p | p in rows && p.name in MANAGED && !OnChunks(p) }

  ghost predicate NoneBuilding(required: set<IndexName>, rows: Rows)
  {
    forall name :: name in required && ChunksPlace(name) in rows ==> rows[ChunksPlace(name)] != Building
  }

  /** Names of required indexes that are there. */
  function Present(required: set<IndexName>, rows: Rows): set<IndexName>
  {
    set name | name in required && ChunksPlace(name) in rows
  }

  lemma ReducedReadiness(rows: Rows, required: set<IndexName>)
    requires required <= MANAGED
    ensures AllReady(required, Reduced(rows, required)) <==> AllReady(required, rows)
  {}

  /** The missing names and the present ones make up the requirements. */
  lemma MissingAndPresent(required: set<IndexName>, rows: Rows, limit: nat)
    ensures |required| == |Present(required, rows)| + |AssessRows(required, rows, limit).missing|
    ensures |PlacesOf(Present(required, rows))| == |Present(required, rows)|
  {
    var present, missing := Present(required, rows), AssessRows(required, rows, limit).missing;
    forall name
      ensures name in missing <==> name in required && ChunksPlace(name) !in rows
    {
      MissingHolds(required, rows, limit, name);
    }
    assert required == present + missing && present !! missing;
    PlacesSize(present);
  }

  /** Present requirements and foreign indexes are always there; after a prune, nothing else is. */
  lemma ReducedParts(rows: Rows, required: set<IndexName>)
    requires required <= MANAGED
    ensures var reduced := Reduced(rows, required);
            && PlacesOf(Present(required, reduced)) + Foreign(rows) <= reduced.Keys
            && PlacesOf(Present(required, reduced)) !! Foreign(rows)
            && (reduced - UnknownIn(reduced)).Keys == PlacesOf(Present(required, reduced)) + Foreign(rows)
  {
    var reduced := Reduced(rows, required);
    var pruned := reduced - UnknownIn(reduced);
    forall p | p in pruned ensures p in PlacesOf(Present(required, reduced)) + Foreign(rows) {
      if OnChunks(p) { assert p == ChunksPlace(p.name) && p.name in Present(required, reduced); }
    }
  }

  lemma FreedPresent(rows: Rows, required: set<IndexName>, limit: nat)
    requires required <= MANAGED
    ensures Present(required, Freed(rows, required, limit)) == Present(required, rows)
    ensures AssessRows(required, Freed(rows, required, limit), limit).missing ==
              AssessRows(required, rows, limit).missing
  {
    hide AssessRows, Freed;
    var freed := Freed(rows, required, limit);
    forall name | name in required ensures ChunksPlace(name) in freed <==> ChunksPlace(name) in rows {
      FreedKeeps(rows, required, limit, ChunksPlace(name));
    }
    forall name
      ensures name in AssessRows(required, freed, limit).missing <==> name in AssessRows(required, rows, limit).missing
    {
      MissingHolds(required, freed, limit, name);
      MissingHolds(required, rows, limit, name);
    }
  }

  /** Whatever is missing can be created exactly when the requirements and the foreign indexes fit. */
  lemma FitsExactly(rows: Rows, required: set<IndexName>, limit: nat)
    requires required <= MANAGED && AssessRows(required, Reduced(rows, required), limit).missing != {}
    ensures var freed := Freed(Reduced(rows, required), required, limit);
            CanCreate(AssessRows(required, freed, limit)) <==> |required| + |Foreign(rows)| <= limit
  {
    var reduced := Reduced(rows, required);
    var freed, present, foreign := Freed(reduced, required, limit), Present(required, reduced), Foreign(rows);
    FreedPresent(reduced, required, limit);
    MissingAndPresent(required, reduced, limit);
    ReducedParts(rows, required);
    RoomToCreate(required, freed, limit);
    RoomToCreate(required, reduced, limit);
    assert |PlacesOf(present) + foreign| == |PlacesOf(present)| + |foreign|;
    SubsetSize(PlacesOf(present) + foreign, reduced.Keys);
    var a := AssessRows(required, reduced, limit);
    if Short(a) {
      assert freed == reduced - UnknownIn(reduced);
      assert |freed| == |freed.Keys| == |present| + |foreign|;
    } else {
      assert freed == reduced && CanCreate(a);
    }
  }

  lemma BuildingBlocks(rows: Rows, required: set<IndexName>, limit: nat)
    requires required <= MANAGED && !NoneBuilding(required, rows)
    ensures var freed := Freed(Reduced(rows, required), required, limit);
            !AllReady(required, freed) && !AllReady(required, WithReady(freed, required))
  {}

  /** With none building, what is present after the drops is ready. */
  lemma PresentIsReady(rows: Rows, required: set<IndexName>, limit: nat, name: IndexName)
    requires required <= MANAGED && NoneBuilding(required, rows) && name in required
    ensures var freed := Freed(Reduced(rows, required), required, limit);
            && (ChunksPlace(name) in freed <==> name !in AssessRows(required, Reduced(rows, required), limit).missing)
            && (ChunksPlace(name) in freed ==>
                 freed[ChunksPlace(name)] == Ready && ChunksPlace(name) in rows && rows[ChunksPlace(name)] == Ready)
  {}

  lemma AfterCreation(rows: Rows, required: set<IndexName>, limit: nat)
    requires required <= MANAGED && NoneBuilding(required, rows) && !(|required| <= limit && AllReady(required, rows))
    ensures var freed := Freed(Reduced(rows, required), required, limit);
            var fits := CanCreate(AssessRows(required, freed, limit));
            && (fits <==> |required| + |Foreign(rows)| <= limit)
            && (if fits then |required| <= limit && AllReady(required, WithReady(freed, required))
                else !(|required| <= limit && AllReady(required, freed)))
  {
    var reduced := Reduced(rows, required);
    var freed := Freed(reduced, required, limit);
    var missing := AssessRows(required, reduced, limit).missing;
    forall name | name in required
      ensures ChunksPlace(name) in freed <==> name !in missing
      ensures ChunksPlace(name) in freed ==>
                freed[ChunksPlace(name)] == Ready && ChunksPlace(name) in rows && rows[ChunksPlace(name)] == Ready
    {
      PresentIsReady(rows, required, limit, name);
    }
    FreedPresent(reduced, required, limit);
    hide AssessRows, Freed, Reduced, WithReady, Foreign, NoneBuilding;
    if missing == {} {
      assert AllReady(required, rows);
    } else {
      FitsExactly(rows, required, limit);
      CreatedReady(freed, required, limit);
      var name :| name in missing;
      MissingHolds(required, reduced, limit, name);
      assert !AllReady(required, freed);
    }
  }

  lemma CreatedReady(rows: Rows, required: set<IndexName>, limit: nat)
    requires required <= MANAGED
    requires forall name :: name in required && ChunksPlace(name) in rows ==> rows[ChunksPlace(name)] == Ready
    ensures AllReady(required, WithReady(rows, required))
  {}

  /** On a still cluster, a feasible preflight succeeds exactly when the requirements fit the tier and are
      all ready already, or none of them is building and they fit beside the managed indexes elsewhere. */
  lemma SucceedsExactly(rows: Rows, required: set<IndexName>, limit: nat)
    requires required <= MANAGED && Feasible(required)
    ensures Settled(rows, required, true, limit).ok <==>
              || (|required| <= limit && AllReady(required, rows))
              || (NoneBuilding(required, rows) && |required| + |Foreign(rows)| <= limit)
  {
    var reduced := Reduced(rows, required);
    var freed := Freed(reduced, required, limit);
    SatisfiedExactly(required, rows, limit);
    SatisfiedExactly(required, reduced, limit);
    SatisfiedExactly(required, freed, limit);
    SatisfiedExactly(required, WithReady(freed, required), limit);
    ReducedReadiness(rows, required);
    if !(|required| <= limit && AllReady(required, rows)) {
      if NoneBuilding(required, rows) {
        AfterCreation(rows, required, limit);
      } else {
        BuildingBlocks(rows, required, limit);
      }
    }
  }
}
