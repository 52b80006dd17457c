/**
 When an experiment whose checkpoints are gone is swept all the same: the watcher goes over the snapshot
 it loaded at the start of its pass (server/core/pipeline/doubleword_watcher.py:71-96), so an entry that
 a dead batch or a cancel has removed meanwhile can still complete and trigger a sweep.
 */
module StaleSnapshots {
  import opened DoubleWordWatcher

  /** `later` has scheduled no further sweep of `x`. */
  ghost predicate NotSweptSince(w: World, later: World, x: ExperimentId)
  {
    |w.scheduled| <= |later.scheduled| && x !in later.scheduled[|w.scheduled|..]
  }

  /** Whatever happens from here, `x` is not scheduled again. */
  ghost predicate NeverSwept(w: World, x: ExperimentId)
  {
    forall path :: Path(path) && path[0] == w ==> NotSweptSince(w, path[|path| - 1], x)
  }

  /** `x` was submitted, and none of its entries is in the store: how a dead batch or a cancel leaves it. */
  ghost predicate Unlisted(w: World, x: ExperimentId)
  {
    x in w.known && forall e :: e in w.store ==> e.experiment != x
  }

  /** The watcher is busy with a batch of `x`, or about to trigger it. */
  predicate BusyWith(stage: Stage, x: ExperimentId)
  {
    (AtHand(stage) && stage.entry.experiment == x) || stage == Triggering(x)
  }

  predicate InSnapshot(w: World, x: ExperimentId) { exists e :: e in w.snapshot && e.experiment == x }

  // ---- Nothing stale, no sweep --------------------------------------------------------------------------

  ghost predicate Settled(w: World, x: ExperimentId)
  {
    Unlisted(w, x) && !InSnapshot(w, x) && !BusyWith(w.stage, x)
  }

  lemma StepKeepsSettled(w: World, a: Action, x: ExperimentId)
    requires Settled(w, x) && Enabled(w, a)
    ensures Settled(Apply(w, a), x) && NotSweptSince(w, Apply(w, a), x)
  {}

  lemma {:induction false} PathKeepsSettled(path: seq<World>, n: nat, x: ExperimentId)
    requires Path(path) && n < |path| && Settled(path[0], x)
    ensures Settled(path[n], x) && NotSweptSince(path[0], path[n], x)
  {
    if n > 0 {
      PathKeepsSettled(path, n - 1, x);
      assert Next(path[n - 1], path[n]);
      var a :| Enabled(path[n - 1], a) && path[n] == Apply(path[n - 1], a);
      StepKeepsSettled(path[n - 1], a, x);
      SchedulesGrow(path[n - 1], a);
    }
  }

  lemma SchedulesGrow(w: World, a: Action)
    requires Enabled(w, a)
    ensures w.scheduled <= Apply(w, a).scheduled
  {}

  // ---- Anything stale, a sweep --------------------------------------------------------------------------

  /** How much of the batch at hand is left to do. */
  function StepsLeft(stage: Stage): nat
  {
    match stage
    case Idle => 0
    case Triggering(_) => 1
    case Removed(_) => 2
    case Cached(_) => 3
    case Downloaded(_, _) => 4
  }

  /** The watcher's next step with the batch at hand; it sweeps `x` and gives up on others. */
  function NextStep(stage: Stage, x: ExperimentId): Action
    requires !stage.Idle?
  {
    match stage
    case Downloaded(_, _) => PutCache
    case Cached(_) => RemoveEntry
    case Removed(_) => CheckRemaining
    case Triggering(y) => if y == x then Schedule else GiveUp
  }

  /** Only the watcher acts, and it swept `x` once more or not. */
  ghost predicate Ahead(w: World, later: World, x: ExperimentId, swept: bool)
  {
    && later.failed == w.failed && later.cancelled == w.cancelled
    && later.scheduled == w.scheduled + if swept then [x] else []
  }

  lemma HeadIsIn(entries: seq<Entry>)
    ensures entries == [] || entries[0] in entries
  {}

  lemma NextStepHolds(w: World, x: ExperimentId)
    requires Unlisted(w, x) && !w.stage.Idle?
    ensures var a := NextStep(w.stage, x);
            && Enabled(w, a) && Unlisted(Apply(w, a), x) && StepsLeft(Apply(w, a).stage) < StepsLeft(w.stage)
            && Apply(w, a).snapshot == w.snapshot && Ahead(w, Apply(w, a), x, w.stage == Triggering(x))
            && (BusyWith(Apply(w, a).stage, x) <==> BusyWith(w.stage, x) && w.stage != Triggering(x))
  {
    if w.stage.Removed? && w.stage.entry.experiment == x {
      HeadIsIn(OfExperiment(w.store, x));
    }
  }

  /** The batch at hand is finished; if it was of `x`, that sweeps `x`. */
  lemma {:induction false} FinishStage(path: seq<World>, x: ExperimentId) returns (longer: seq<World>)
    requires Path(path) && Unlisted(path[|path| - 1], x)
    ensures Path(longer) && longer[0] == path[0]
    ensures var w, later := path[|path| - 1], longer[|longer| - 1];
            && later.stage == Idle && later.snapshot == w.snapshot && Unlisted(later, x)
            && Ahead(w, later, x, BusyWith(w.stage, x))
    decreases StepsLeft(path[|path| - 1].stage)
  {
    var w := path[|path| - 1];
    if w.stage == Idle {
      longer := path;
    } else {
      NextStepHolds(w, x);
      hide Path, Unlisted;
      longer := Extend(path, NextStep(w.stage, x));
      longer := FinishStage(longer, x);
    }
  }

  /** The pass goes on to its `k`-th entry, which is of `x` and turns out completed. */
  lemma {:induction false} DrainTo(path: seq<World>, k: nat, x: ExperimentId) returns (longer: seq<World>)
    requires Path(path) && Unlisted(path[|path| - 1], x) && path[|path| - 1].stage == Idle
    requires k < |path[|path| - 1].snapshot| && path[|path| - 1].snapshot[k].experiment == x
    ensures Path(longer) && longer[0] == path[0]
    ensures Ahead(path[|path| - 1], longer[|longer| - 1], x, true)
    decreases k
  {
    hide Path;
    if k == 0 {
      longer := Extend(path, Download({}));
      longer := FinishStage(longer, x);
    } else {
      longer := Extend(path, Skip);
      longer := DrainTo(longer, k - 1, x);
    }
  }

  lemma StaleIsSwept(path: seq<World>, x: ExperimentId) returns (longer: seq<World>)
    requires Path(path) && Unlisted(path[|path| - 1], x)
    requires InSnapshot(path[|path| - 1], x) || BusyWith(path[|path| - 1].stage, x)
    ensures Path(longer) && longer[0] == path[0]
    ensures Ahead(path[|path| - 1], longer[|longer| - 1], x, true)
  {
    var w := path[|path| - 1];
    hide Path, Unlisted;
    longer := FinishStage(path, x);
    if !BusyWith(w.stage, x) {
      var e :| e in w.snapshot && e.experiment == x;
      var k :| 0 <= k < |w.snapshot| && w.snapshot[k] == e;
      longer := DrainTo(longer, k, x);
    }
  }

  // ---- Exactly when ---------------------------------------------------------------------------------------

  /** An experiment without checkpoints stays unswept in every continuation exactly when none of its
      entries is left in the pass's snapshot and the watcher is not busy with one. */
  lemma StaysUnsweptExactly(w: World, x: ExperimentId)
    requires Unlisted(w, x)
    ensures NeverSwept(w, x) <==> !InSnapshot(w, x) && !BusyWith(w.stage, x)
  {
    if InSnapshot(w, x) || BusyWith(w.stage, x) {
      assert Path([w]);
      var longer := StaleIsSwept([w], x);
      assert longer[|longer| - 1].scheduled[|w.scheduled|..] == [x];
    } else {
      forall path | Path(path) && path[0] == w ensures NotSweptSince(w, path[|path| - 1], x) {
        PathKeepsSettled(path, |path| - 1, x);
      }
    }
  }

  /** A dead batch keeps its experiment from ever being swept again exactly when it is the last of the
      experiment's in the pass's snapshot. */
  lemma DeadBatchEndsItExactly(w: World)
    requires Reachable(w) && Enabled(w, BatchDead)
    ensures var x, after := w.snapshot[0].experiment, Apply(w, BatchDead);
            NeverSwept(after, x) <==> forall i :: 1 <= i < |w.snapshot| ==> w.snapshot[i].experiment != x
  {
    var x, after := w.snapshot[0].experiment, Apply(w, BatchDead);
    ReachableTidy(w);
    assert w.snapshot[0] in w.snapshot;
    StaysUnsweptExactly(after, x);
    assert forall i :: 1 <= i < |w.snapshot| ==> w.snapshot[i] == after.snapshot[i - 1];
    forall e | e in after.snapshot ensures exists i :: 1 <= i < |w.snapshot| && w.snapshot[i] == e {
      var k :| 0 <= k < |after.snapshot| && after.snapshot[k] == e;
      assert w.snapshot[k + 1] == e;
    }
  }

  /** Cleaning up after a user's cancel does so exactly when nothing of the experiment is in the
      snapshot or at hand. */
  lemma CancelEndsItExactly(w: World, x: ExperimentId)
    requires x in w.known && Enabled(w, CleanUp(x))
    ensures NeverSwept(Apply(w, CleanUp(x)), x) <==> !InSnapshot(w, x) && !BusyWith(w.stage, x)
  {
    StaysUnsweptExactly(Apply(w, CleanUp(x)), x);
  }

  lemma ReachableTidy(w: World)
    requires Reachable(w)
    ensures Tidy(w)
  {
    var run :| Run(run) && run[|run| - 1] == w;
    RunKeepsInv(run, |run| - 1, 0);
  }

  // ---- It does happen ---------------------------------------------------------------------------------------

  lemma StartRuns()
    ensures Run([START])
  {}

  lemma {:induction false} OnlyOf(entries: seq<Entry>, x: ExperimentId)
    requires forall e :: e in entries ==> e.experiment == x
    ensures WithoutExperiment(entries, x) == []
  {
    if entries != [] { OnlyOf(entries[..|entries| - 1], x); }
  }

  /** An experiment's batches are checkpointed and a pass begins. */
  lemma PassBegins(x: ExperimentId, added: seq<Entry>) returns (run: seq<World>)
    requires NewBatches(START, x, added)
    ensures Run(run)
    ensures run[|run| - 1] ==
              START.(store := added, snapshot := added, checkpointed := (set e | e in added), known := {x})
  {
    StartRuns();
    hide NewBatches;
    run := Extend([START], Submit(x, added));
    assert run[|run| - 1].store == added;
    run := Extend(run, StartPass);
  }

  /** Experiment 7 has two batches, both in the pass's snapshot.  The first turns out dead, so the
      experiment fails and its checkpoints go; but the pass goes on to the second, which completed, finds
      nothing left and schedules a sweep of the failed experiment. */
  lemma FailedExperimentCanBeSwept() returns (run: seq<World>)
    ensures Run(run)
    ensures var w := run[|run| - 1]; 7 in w.failed && 7 !in w.cancelled && w.scheduled == [7]
  {
    var e, f := Entry(1, 7), Entry(2, 7);
    run := PassBegins(7, [e, f]);
    OnlyOf([e, f], 7);
    run := Extend(run, BatchDead);
    assert run[|run| - 1].snapshot == [f];
    assert InSnapshot(run[|run| - 1], 7) by { assert f in run[|run| - 1].snapshot; }
    run := StaleIsSwept(run, 7);
  }

  /** A user's cancel between a batch's snapshot and its completion has the same effect. */
  lemma CancelledExperimentCanBeSwept() returns (run: seq<World>)
    ensures Run(run)
    ensures var w := run[|run| - 1]; 7 in w.cancelled && 7 !in w.failed && w.scheduled == [7]
  {
    var e := Entry(1, 7);
    run := PassBegins(7, [e]);
    OnlyOf([e], 7);
    run := Extend(run, MarkCancelled(7));
    run := Extend(run, CleanUp(7));
    assert InSnapshot(run[|run| - 1], 7) by { assert e in run[|run| - 1].snapshot; }
    run := StaleIsSwept(run, 7);
  }
}
