/**
 The checkpointed DoubleWord batches and the watcher that drains them:
 server/core/pipeline/doubleword_watcher.py:71-193, 247-264, server/core/pipeline/pre_embed.py:56-98, 170-227.

 The watcher's pass goes over the snapshot it loaded at its start; between any two of its steps a user
 may cancel an experiment and new experiments may checkpoint their batches.  Remote batch states,
 downloads and every failure of them are arbitrary.  The batch service never reuses a batch id.
 */
module DoubleWordWatcher {
  import opened Collections
  import opened Listing

  type BatchId = nat
  type ExperimentId = nat
  type Key = nat

  datatype Entry = Entry(batch: BatchId, experiment: ExperimentId)

  // ---- The checkpoint store ---------------------------------------------------------------------------

  function OtherBatch(batch: BatchId): Entry -> bool { (e: Entry) => e.batch != batch }

  function OtherExperiment(x: ExperimentId): Entry -> bool { (e: Entry) => e.experiment != x }

  function SameExperiment(x: ExperimentId): Entry -> bool { (e: Entry) => e.experiment == x }

  function WithoutBatch(entries: seq<Entry>, batch: BatchId): (rest: seq<Entry>)
    ensures forall e :: e in rest <==> e in entries && e.batch != batch
  {
    Filter(entries, OtherBatch(batch))
  }

  function WithoutExperiment(entries: seq<Entry>, x: ExperimentId): (rest: seq<Entry>)
    ensures forall e :: e in rest <==> e in entries && e.experiment != x
  {
    Filter(entries, OtherExperiment(x))
  }

  function OfExperiment(entries: seq<Entry>, x: ExperimentId): (own: seq<Entry>)
    ensures forall e :: e in own <==> e in entries && e.experiment == x
  {
    Filter(entries, SameExperiment(x))
  }

  /** The file of pending batches; every operation but `load` rewrites it under one lock. */
  class CheckpointStore {
    var entries: seq<Entry>

    constructor ()
      ensures entries == []
    {
      entries := [];
    }

    method AddEntries(added: seq<Entry>)
      modifies this
      ensures entries == old(entries) + added
    {
      entries := entries + added;
    }

    method RemoveByBatchId(batch: BatchId)
      modifies this
      ensures entries == WithoutBatch(old(entries), batch)
    {
      var filtered: seq<Entry> := [];
      for i := 0 to |entries|
        invariant entries == old(entries) && filtered == WithoutBatch(entries[..i], batch)
      {
        assert entries[..i + 1][..i] == entries[..i];
        if entries[i].batch != batch {
          filtered := filtered + [entries[i]];
        }
      }
      assert entries[..|entries|] == entries;
      entries := filtered;
    }

    method RemoveForExperiment(x: ExperimentId)
      modifies this
      ensures entries == WithoutExperiment(old(entries), x)
    {
      var filtered: seq<Entry> := [];
      for i := 0 to |entries|
        invariant entries == old(entries) && filtered == WithoutExperiment(entries[..i], x)
      {
        assert entries[..i + 1][..i] == entries[..i];
        if entries[i].experiment != x {
          filtered := filtered + [entries[i]];
        }
      }
      assert entries[..|entries|] == entries;
      entries := filtered;
    }

    method GetForExperiment(x: ExperimentId) returns (own: seq<Entry>)
      ensures own == OfExperiment(entries, x)
    {
      own := [];
      for i := 0 to |entries|
        invariant own == OfExperiment(entries[..i], x)
      {
        assert entries[..i + 1][..i] == entries[..i];
        if entries[i].experiment == x {
          own := own + [entries[i]];
        }
      }
      assert entries[..|entries|] == entries;
    }
  }

  // ---- The protocol -----------------------------------------------------------------------------------

  /** Where the watcher stands with the batch at hand. */
  datatype Stage =
    | Idle
    | Downloaded(entry: Entry, keys: set<Key>)
    | Cached(entry: Entry)
    | Removed(entry: Entry)
    | Triggering(experiment: ExperimentId)

  /** The store, the rest of the watcher's snapshot and its stage, the embedding cache and the sweeps
      scheduled.  For the statements: what each batch last delivered, all that was ever checkpointed,
      and the experiments that had a dead batch or were cancelled. */
  datatype World = World(store: seq<Entry>, snapshot: seq<Entry>, stage: Stage, cache: set<Key>,
                         scheduled: seq<ExperimentId>, delivered: map<BatchId, set<Key>>, checkpointed: set<Entry>,
                         known: set<ExperimentId>, failed: set<ExperimentId>, cancelled: set<ExperimentId>)

  datatype Action =
    | StartPass
    | Skip                                  // still running, or polling or downloading went wrong
    | Download(keys: set<Key>)              // the batch is completed
    | BatchDead                             // failed, expired or cancelled at the service
    | PutCache
    | RemoveEntry
    | CheckRemaining
    | Schedule
    | GiveUp                                // the experiment or its configuration is gone
    | Abandon                               // an exception or a restart ends the pass
    | MarkCancelled(x: ExperimentId)        // a user cancels, and then the checkpoints are cleaned up
    | CleanUp(x: ExperimentId)
    | Submit(x: ExperimentId, added: seq<Entry>)

  predicate DistinctBatches(entries: seq<Entry>)
  {
    forall i, j :: 0 <= i < j < |entries| ==> entries[i].batch != entries[j].batch
  }

  /** A new experiment's batches, all submitted before any is checkpointed. */
  predicate NewBatches(w: World, x: ExperimentId, added: seq<Entry>)
  {
    && x !in w.known && added != [] && DistinctBatches(added)
    && forall e :: e in added ==> e.experiment == x && forall f :: f in w.checkpointed ==> f.batch != e.batch
  }

  predicate Enabled(w: World, a: Action)
  {
    match a
    case StartPass => w.stage == Idle && w.snapshot == []
    case Skip => w.stage == Idle && w.snapshot != []
    case Download(_) => w.stage == Idle && w.snapshot != []
    case BatchDead => w.stage == Idle && w.snapshot != []
    case PutCache => w.stage.Downloaded?
    case RemoveEntry => w.stage.Cached?
    case CheckRemaining => w.stage.Removed?
    case Schedule => w.stage.Triggering?
    case GiveUp => w.stage.Triggering?
    case Abandon => true
    case MarkCancelled(_) => true
    case CleanUp(x) => x in w.cancelled
    case Submit(x, added) => NewBatches(w, x, added)
  }

  function Apply(w: World, a: Action): World
    requires Enabled(w, a)
  {
    match a
    case StartPass => w.(snapshot := w.store)
    case Skip => w.(snapshot := w.snapshot[1..])
    case Download(keys) =>
      var e := w.snapshot[0];
      w.(snapshot := w.snapshot[1..], stage := Downloaded(e, keys), delivered := w.delivered[e.batch := keys])
    case BatchDead =>
      var x := w.snapshot[0].experiment;
      w.(snapshot := w.snapshot[1..], store := WithoutExperiment(w.store, x), failed := w.failed + {x})
    case PutCache => w.(stage := Cached(w.stage.entry), cache := w.cache + w.stage.keys)
    case RemoveEntry => w.(stage := Removed(w.stage.entry), store := WithoutBatch(w.store, w.stage.entry.batch))
    case CheckRemaining =>
      var x := w.stage.entry.experiment;
      w.(stage := if OfExperiment(w.store, x) == [] then Triggering(x) else Idle)
    case Schedule => w.(stage := Idle, scheduled := w.scheduled + [w.stage.experiment])
    case GiveUp => w.(stage := Idle)
    case Abandon => w.(stage := Idle, snapshot := [])
    case MarkCancelled(x) => w.(cancelled := w.cancelled + {x})
    case CleanUp(x) => w.(store := WithoutExperiment(w.store, x))
    case Submit(x, added) =>
      w.(store := w.store + added, checkpointed := w.checkpointed + (set e | e in added), known := w.known + {x})
  }

  ghost predicate Next(w: World, w': World)
  {
    exists a :: Enabled(w, a) && w' == Apply(w, a)
  }

  const START := World([], [], Idle, {}, [], map[], {}, {}, {}, {})

  ghost predicate Path(path: seq<World>)
  {
    path != [] && forall i, j :: 0 <= i && j == i + 1 && j < |path| ==> Next(path[i], path[j])
  }

  ghost predicate Run(run: seq<World>) { Path(run) && run[0] == START }

  // ---- What every step keeps --------------------------------------------------------------------------

  /** Entries are told apart by their batch, and the watcher never meets one twice in a pass. */
  ghost predicate Tidy(w: World)
  {
    && (forall e, f :: e in w.checkpointed && f in w.checkpointed && e.batch == f.batch ==> e == f)
    && (forall e :: e in w.checkpointed ==> e.experiment in w.known)
    && DistinctBatches(w.store) && (forall e :: e in w.store ==> e in w.checkpointed)
    && DistinctBatches(w.snapshot) && (forall e :: e in w.snapshot ==> e in w.checkpointed)
    && (AtHand(w.stage) ==> w.stage.entry in w.checkpointed && w.stage.entry !in w.snapshot)
  }

  predicate AtHand(stage: Stage) { stage.Downloaded? || stage.Cached? || stage.Removed? }

  ghost predicate Clean(w: World, x: ExperimentId) { x !in w.failed && x !in w.cancelled }

  /** None of the experiment's batches is pending, and it was submitted. */
  ghost predicate Drained(w: World, x: ExperimentId)
  {
    x in w.known && forall e :: e in w.store ==> e.experiment != x
  }

  /** The snapshot and the batch at hand are up to date for `x`. */
  ghost predicate Current(w: World, x: ExperimentId)
  {
    && (forall e :: e in w.snapshot && e.experiment == x ==> e in w.store)
    && ((w.stage.Downloaded? || w.stage.Cached?) && w.stage.entry.experiment == x ==> w.stage.entry in w.store)
    && (w.stage.Removed? && w.stage.entry.experiment == x ==> x in w.known && w.stage.entry !in w.store)
    && (w.stage.Triggering? && w.stage.experiment == x ==> Drained(w, x))
  }

  /** `x` is scheduled at most once, drained, and nothing is under way that could schedule it again. */
  ghost predicate ScheduledOnce(w: World, x: ExperimentId)
  {
    && (forall i, j :: 0 <= i < j < |w.scheduled| ==> w.scheduled[i] != x || w.scheduled[j] != x)
    && (x in w.scheduled ==> Drained(w, x))
    && (x in w.scheduled ==> !(w.stage.Removed? && w.stage.entry.experiment == x) && w.stage != Triggering(x))
  }

  /** What the batch delivered is in the cache. */
  ghost predicate InCache(w: World, e: Entry)
  {
    e.batch in w.delivered && w.delivered[e.batch] <= w.cache
  }

  ghost predicate CachedFirst(w: World, x: ExperimentId)
  {
    && (forall e :: e in w.checkpointed && e.experiment == x && e !in w.store ==> InCache(w, e))
    && (w.stage.Downloaded? ==> w.stage.entry.batch in w.delivered && w.delivered[w.stage.entry.batch] == w.stage.keys)
    && (w.stage.Cached? ==> InCache(w, w.stage.entry))
  }

  ghost predicate Inv(w: World, x: ExperimentId)
  {
    Tidy(w) && (Clean(w, x) ==> Current(w, x) && ScheduledOnce(w, x) && CachedFirst(w, x))
  }

  lemma TailDistinct(entries: seq<Entry>)
    requires entries != [] && DistinctBatches(entries)
    ensures DistinctBatches(entries[1..]) && entries[0] !in entries[1..]
    ensures forall e :: e in entries[1..] ==> e in entries
  {}

  lemma {:induction false} FilterDistinct(entries: seq<Entry>, keep: Entry -> bool)
    requires DistinctBatches(entries)
    ensures DistinctBatches(Filter(entries, keep))
  {
    if entries != [] {
      var n := |entries| - 1;
      var front := Filter(entries[..n], keep);
      FilterDistinct(entries[..n], keep);
      forall i | 0 <= i < |front| ensures front[i].batch != entries[n].batch { assert front[i] in entries[..n]; }
    }
  }

  lemma AppendDistinct(entries: seq<Entry>, added: seq<Entry>)
    requires DistinctBatches(entries) && DistinctBatches(added)
    requires forall e, f :: e in entries && f in added ==> e.batch != f.batch
    ensures DistinctBatches(entries + added)
  {}

  lemma StepKeepsTidy(w: World, a: Action)
    requires Tidy(w) && Enabled(w, a)
    ensures Tidy(Apply(w, a))
  {
    hide DistinctBatches;
    match a {
      case Skip => TailDistinct(w.snapshot);
      case Download(_) => TailDistinct(w.snapshot);
      case BatchDead =>
        TailDistinct(w.snapshot);
        FilterDistinct(w.store, OtherExperiment(w.snapshot[0].experiment));
      case RemoveEntry => FilterDistinct(w.store, OtherBatch(w.stage.entry.batch));
      case CleanUp(x) => FilterDistinct(w.store, OtherExperiment(x));
      case Abandon => NoneDistinct();
      case Submit(x, added) =>
        NewDistinct(w, x, added);
        AppendDistinct(w.store, added);
      case _ =>
    }
  }

  lemma NoneDistinct()
    ensures DistinctBatches([])
  {}

  lemma NewDistinct(w: World, x: ExperimentId, added: seq<Entry>)
    requires NewBatches(w, x, added)
    ensures DistinctBatches(added)
    ensures forall e, f :: e in added && f in added && e.batch == f.batch ==> e == f
  {}

  lemma StepKeepsCurrent(w: World, a: Action, x: ExperimentId)
    requires Tidy(w) && Current(w, x) && Enabled(w, a) && Clean(Apply(w, a), x)
    ensures Current(Apply(w, a), x)
  {}

  lemma StepKeepsOnce(w: World, a: Action, x: ExperimentId)
    requires Tidy(w) && Current(w, x) && ScheduledOnce(w, x) && Enabled(w, a) && Clean(Apply(w, a), x)
    ensures ScheduledOnce(Apply(w, a), x)
  {}

  lemma StepKeepsCached(w: World, a: Action, x: ExperimentId)
    requires Tidy(w) && CachedFirst(w, x) && Current(w, x) && Enabled(w, a) && Clean(Apply(w, a), x)
    ensures CachedFirst(Apply(w, a), x)
  {}

  lemma StepKeepsInv(w: World, a: Action, x: ExperimentId)
    requires Inv(w, x) && Enabled(w, a)
    ensures Inv(Apply(w, a), x)
  {
    hide Tidy, Current, ScheduledOnce, CachedFirst;
    StepKeepsTidy(w, a);
    if Clean(Apply(w, a), x) {
      CleanBefore(w, a, x);
      StepKeepsCurrent(w, a, x);
      StepKeepsOnce(w, a, x);
      StepKeepsCached(w, a, x);
    }
  }

  lemma CleanBefore(w: World, a: Action, x: ExperimentId)
    requires Enabled(w, a) && Clean(Apply(w, a), x)
    ensures Clean(w, x)
  {}

  lemma {:induction false} RunKeepsInv(run: seq<World>, n: nat, x: ExperimentId)
    requires Run(run) && n < |run|
    ensures Inv(run[n], x)
  {
    if n > 0 {
      RunKeepsInv(run, n - 1, x);
      assert Next(run[n - 1], run[n]);
      var a :| Enabled(run[n - 1], a) && run[n] == Apply(run[n - 1], a);
      StepKeepsInv(run[n - 1], a, x);
    }
  }

  // ---- The watcher's promise ----------------------------------------------------------------------------

  /** In every run, an experiment with no dead batch and no cancel is scheduled at most once, only when
      none of its batches is pending any more, and with every batch's vectors in the cache. */
  lemma CleanExperimentSweepsOnce(run: seq<World>, n: nat, x: ExperimentId)
    requires Run(run) && n < |run| && Clean(run[n], x)
    ensures forall i, j :: 0 <= i < j < |run[n].scheduled| ==> run[n].scheduled[i] != x || run[n].scheduled[j] != x
    ensures x in run[n].scheduled ==> forall e :: e in run[n].store ==> e.experiment != x
    ensures x in run[n].scheduled ==> forall e :: e in run[n].checkpointed && e.experiment == x ==> InCache(run[n], e)
  {
    RunKeepsInv(run, n, x);
  }

  /** And a pending entry of such an experiment only leaves the store with its vectors cached. */
  lemma EntriesLeaveCached(run: seq<World>, n: nat, e: Entry)
    requires Run(run) && n + 1 < |run| && Clean(run[n + 1], e.experiment)
    requires e in run[n].store && e !in run[n + 1].store
    ensures InCache(run[n + 1], e)
  {
    RunKeepsInv(run, n, e.experiment);
    RunKeepsInv(run, n + 1, e.experiment);
    assert Next(run[n], run[n + 1]);
  }

  // ---- One pass, as the code runs it --------------------------------------------------------------------

  lemma Extend(path: seq<World>, a: Action) returns (longer: seq<World>)
    requires Path(path) && Enabled(path[|path| - 1], a)
    ensures Path(longer) && longer[0] == path[0] && longer[|longer| - 1] == Apply(path[|path| - 1], a)
  {
    longer := path + [Apply(path[|path| - 1], a)];
  }

  ghost predicate Reachable(w: World)
  {
    exists run :: Run(run) && run[|run| - 1] == w
  }

  /** Where a list of steps leads, if each is enabled in its turn. */
  function After(w: World, steps: seq<Action>): Option<World>
  {
    if steps == [] then Some(w)
    else
      var before, a := After(w, steps[..|steps| - 1]), steps[|steps| - 1];
      if before.Some? && Enabled(before.value, a) then Some(Apply(before.value, a)) else None
  }

  predicate IsWatchers(a: Action) { !a.MarkCancelled? && !a.CleanUp? && !a.Submit? }

  /** The watcher's own steps among all. */
  function Own(steps: seq<Action>): seq<Action> { Filter(steps, IsWatchers) }

  lemma {:induction false} AfterAppend(w: World, steps: seq<Action>, more: seq<Action>)
    requires After(w, steps).Some?
    ensures After(w, steps + more) == After(After(w, steps).value, more)
  {
    if more == [] {
      assert steps + more == steps;
    } else {
      var n, all := |more| - 1, steps + more;
      AfterAppend(w, steps, more[..n]);
      assert all[..|all| - 1] == steps + more[..n] && all[|all| - 1] == more[n];
    }
  }

  /** One step of the watcher, of a user or of a new experiment. */
  method Do(w: World, a: Action) returns (w': World)
    requires Reachable(w) && Enabled(w, a)
    ensures w' == Apply(w, a) && Reachable(w')
  {
    ghost var run :| Run(run) && run[|run| - 1] == w;
    ghost var longer := Extend(run, a);
    w' := Apply(w, a);
  }

  lemma TakeStep(w: World, steps: seq<Action>, a: Action)
    requires After(w, steps).Some? && Enabled(After(w, steps).value, a)
    ensures After(w, steps + [a]) == Some(Apply(After(w, steps).value, a))
    ensures Own(steps + [a]) == Own(steps) + if IsWatchers(a) then [a] else []
  {}

  lemma NoSteps(w: World)
    ensures After(w, []) == Some(w) && Own([]) == []
  {}

  /** What users and new experiments do while the watcher awaits something. */
  method Await(w: World) returns (w': World, ghost steps: seq<Action>)
    requires Reachable(w)
    ensures Reachable(w') && w'.snapshot == w.snapshot && w'.stage == w.stage
    ensures After(w, steps) == Some(w') && Own(steps) == []
  {
    hide Reachable, After, Own;
    w', steps := w, [];
    NoSteps(w);
    var more: int := *;
    for i := 0 to if more < 0 then 0 else more
      invariant Reachable(w') && w'.snapshot == w.snapshot && w'.stage == w.stage
      invariant After(w, steps) == Some(w') && Own(steps) == []
    {
      var x: ExperimentId, added: seq<Entry>, choice: nat := *, *, *;
      var a := if choice == 0 then MarkCancelled(x) else if choice == 1 then CleanUp(x) else Submit(x, added);
      if Enabled(w', a) {
        TakeStep(w, steps, a);
        w' := Do(w', a);
        steps := steps + [a];
      }
    }
  }

  /** A step of the watcher's own and what others do before its next; or an exception or a restart that
      ends the pass instead.  `steps` led from `w0` to `w`. */
  method Proceed(ghost w0: World, ghost steps: seq<Action>, w: World, a: Action)
    returns (w': World, raised: bool, ghost longer: seq<Action>)
    requires Reachable(w) && After(w0, steps) == Some(w) && Enabled(w, a) && IsWatchers(a)
    ensures Reachable(w') && After(w0, longer) == Some(w')
    ensures raised ==> w'.stage == Idle && w'.snapshot == [] && Own(longer) == Own(steps) + [Abandon]
    ensures !raised ==>
              w'.stage == Apply(w, a).stage && w'.snapshot == Apply(w, a).snapshot && Own(longer) == Own(steps) + [a]
  {
    hide Reachable, After, Own;
    raised := *;
    var taken := if raised then Abandon else a;
    TakeStep(w0, steps, taken);
    w' := Do(w, taken);
    longer := steps + [taken];
    if !raised {
      ghost var others;
      w', others := Await(w');
      AfterAppend(w0, longer, others);
      OwnAppend(longer, others);
      longer := longer + others;
    }
  }

  lemma OwnAppend(steps: seq<Action>, more: seq<Action>)
    ensures Own(steps + more) == Own(steps) + Own(more)
  {
    FilterAppend(steps, more, IsWatchers);
  }

  /** What a completed batch calls for, in order. */
  function Completion(keys: set<Key>): seq<Action> { [Download(keys), PutCache, RemoveEntry, CheckRemaining] }

  /** The watcher's own steps over one completed batch: all that it calls for and then the trigger, if
      nothing remains; or a first part of that, cut short by an exception. */
  ghost predicate Completes(own: seq<Action>, keys: set<Key>, raised: bool)
  {
    var whole := Completion(keys);
    if raised then exists k :: 0 <= k <= |whole| && own == whole[..k] + [Abandon]
    else own == whole || own == whole + [Schedule] || own == whole + [GiveUp]
  }

  lemma CutShort(own: seq<Action>, keys: set<Key>)
    requires own <= Completion(keys)
    ensures Completes(own + [Abandon], keys, true)
  {
    assert own == Completion(keys)[..|own|];
  }

  lemma Whole(own: seq<Action>, keys: set<Key>)
    requires own == Completion(keys)
    ensures Completes(own, keys, false)
    ensures Completes(own + [Schedule], keys, false) && Completes(own + [GiveUp], keys, false)
  {}

  /** `_trigger_sweep`, which lets no exception out; only a restart ends it. */
  method TriggerSweep(ghost w0: World, ghost steps: seq<Action>, w: World)
    returns (w': World, raised: bool, ghost longer: seq<Action>)
    requires Reachable(w) && After(w0, steps) == Some(w) && w.stage.Triggering?
    ensures Reachable(w') && After(w0, longer) == Some(w')
    ensures w'.stage == Idle && w'.snapshot == if raised then [] else w.snapshot
    ensures raised ==> Own(longer) == Own(steps) + [Abandon]
    ensures !raised ==> Own(longer) == Own(steps) + [Schedule] || Own(longer) == Own(steps) + [GiveUp]
  {
    hide Reachable, After, Own;
    var usable: bool := *;
    w', raised, longer := Proceed(w0, steps, w, if usable then Schedule else GiveUp);
  }

  /** `_on_batch_completed` from the download on. */
  method OnBatchCompleted(w: World, keys: set<Key>) returns (w': World, raised: bool, ghost steps: seq<Action>)
    requires Reachable(w) && w.stage == Idle && w.snapshot != []
    ensures Reachable(w') && w'.stage == Idle && w'.snapshot == if raised then [] else w.snapshot[1..]
    ensures After(w, steps) == Some(w') && Completes(Own(steps), keys, raised)
  {
    hide Reachable, After, Own, Completes;
    NoSteps(w);
    CutShort([], keys);
    w', raised, steps := Proceed(w, [], w, Download(keys));
    if raised { return; }
    CutShort(Own(steps), keys);
    w', raised, steps := Proceed(w, steps, w', PutCache);
    if raised { return; }
    CutShort(Own(steps), keys);
    w', raised, steps := Proceed(w, steps, w', RemoveEntry);
    if raised { return; }
    CutShort(Own(steps), keys);
    w', raised, steps := Proceed(w, steps, w', CheckRemaining);
    if raised { return; }
    CutShort(Own(steps), keys);
    Whole(Own(steps), keys);
    if w'.stage.Triggering? {
      w', raised, steps := TriggerSweep(w, steps, w');
    }
  }

  /** What a pass does with one entry: nothing, or all that a dead or a completed batch calls for. */
  ghost predicate DealsWith(own: seq<Action>)
  {
    own == [Skip] || own == [BatchDead] || exists keys :: Completes(own, keys, false)
  }

  /** What it may have done with an entry when an exception ends it. */
  ghost predicate BreaksOff(own: seq<Action>)
  {
    own == [Abandon] || exists keys :: Completes(own, keys, true)
  }

  /** The watcher's own steps over a pass, entry by entry: it deals with each of `n`, or breaks off at one. */
  ghost predicate Passes(own: seq<Action>, parts: seq<seq<Action>>, n: nat, raised: bool)
  {
    && own == [StartPass] + Flatten(parts)
    && (if raised then 0 < |parts| <= n && BreaksOff(parts[|parts| - 1]) else |parts| == n)
    && forall i :: 0 <= i < |parts| && !(raised && i == |parts| - 1) ==> DealsWith(parts[i])
  }

  lemma PassStarts()
    ensures Passes([StartPass], [], 0, false)
  {
    assert [StartPass] + Flatten<Action>([]) == [StartPass];
  }

  lemma PassGoesOn(own: seq<Action>, parts: seq<seq<Action>>, n: nat, part: seq<Action>, raised: bool)
    requires Passes(own, parts, n, false) && if raised then BreaksOff(part) else DealsWith(part)
    ensures Passes(own + part, parts + [part], n + 1, raised)
  {
    FlattenAppend(parts, part);
    assert [StartPass] + Flatten(parts) + part == [StartPass] + (Flatten(parts) + part);
  }

  lemma BrokenOffEarly(own: seq<Action>, parts: seq<seq<Action>>, m: nat, n: nat)
    requires Passes(own, parts, m, true) && m <= n
    ensures Passes(own, parts, n, true)
  {}

  /** A step of the watcher's own after `steps` have led from `w0` to `w`. */
  method Step(ghost w0: World, ghost steps: seq<Action>, w: World, a: Action)
    returns (w': World, ghost longer: seq<Action>)
    requires Reachable(w) && After(w0, steps) == Some(w) && Enabled(w, a) && IsWatchers(a)
    ensures Reachable(w') && w' == Apply(w, a)
    ensures longer == steps + [a] && After(w0, longer) == Some(w') && Own(longer) == Own(steps) + [a]
  {
    hide Reachable, After, Own;
    TakeStep(w0, steps, a);
    w' := Do(w, a);
    longer := steps + [a];
  }

  /** One turn of the loop of `_process_entries`: whatever happens while it polls, the entry is dealt with,
      unless an exception breaks the pass off. */
  method ProcessEntry(w: World) returns (w': World, raised: bool, ghost steps: seq<Action>)
    requires Reachable(w) && w.stage == Idle && w.snapshot != []
    ensures Reachable(w') && w'.stage == Idle && w'.snapshot == if raised then [] else w.snapshot[1..]
    ensures After(w, steps) == Some(w') && if raised then BreaksOff(Own(steps)) else DealsWith(Own(steps))
  {
    hide Reachable, After, Own, Completes;
    var polled: World;
    ghost var others: seq<Action>;
    polled, others := Await(w);
    var unpolled: bool, completed: bool, dead: bool, downloaded: bool, keys: set<Key> := *, *, *, *, *;
    raised := *;
    if raised {
      w', steps := Step(w, others, polled, Abandon);
    } else if !unpolled && completed && downloaded {
      w', raised, steps := OnBatchCompleted(polled, keys);
      AfterAppend(w, others, steps);
      OwnAppend(others, steps);
      assert [] + Own(steps) == Own(steps);
      steps := others + steps;
    } else {
      w', steps := Step(w, others, polled, if !unpolled && !completed && dead then BatchDead else Skip);
    }
  }

  /** `_process_entries`, with `_on_batch_completed` and `_on_batch_terminal`: the pass deals with every entry
      that was in the store when it began, in order, or breaks off, whatever happens while it awaits. */
  method ProcessEntries(w: World) returns (w': World, ghost raised: bool, ghost steps: seq<Action>,
                                           ghost parts: seq<seq<Action>>)
    requires Reachable(w) && w.stage == Idle && w.snapshot == []
    ensures Reachable(w') && w'.stage == Idle && w'.snapshot == []
    ensures After(w, steps) == Some(w') && Passes(Own(steps), parts, |w.store|, raised)
  {
    hide Reachable, After, Own, Passes, DealsWith, BreaksOff;
    NoSteps(w);
    PassStarts();
    w', steps := Step(w, [], w, StartPass);
    assert Own(steps) == [StartPass];
    raised, parts := false, [];
    while w'.snapshot != []
      invariant Reachable(w') && w'.stage == Idle && After(w, steps) == Some(w')
      invariant !raised ==> Passes(Own(steps), parts, |w.store| - |w'.snapshot|, false)
      invariant |w'.snapshot| <= |w.store|
      invariant raised ==> w'.snapshot == [] && Passes(Own(steps), parts, |w.store|, true)
      decreases |w'.snapshot|
    {
      ghost var done, more, before := |w.store| - |w'.snapshot|, [], w';
      var ended: bool;
      w', ended, more := ProcessEntry(w');
      AfterAppend(w, steps, more);
      OwnAppend(steps, more);
      PassGoesOn(Own(steps), parts, done, Own(more), ended);
      steps, parts, raised := steps + more, parts + [Own(more)], ended;
      if ended { BrokenOffEarly(Own(steps), parts, done + 1, |w.store|); }
    }
  }
}
