/**
 Experiments left RUNNING by a restart: server/core/pipeline/startup_reconciliation.py:27-111, 113-192.

 Storage is a map of experiments and a map of runs.  The rows come in any order.
 */
module StartupReconciliation {
  import opened Collections
  import opened SweepRunner

  type ExperimentId = nat
  type RunId = nat

  datatype PreEmbed = Waiting | Ready | PreEmbedFailed

  datatype Experiment = Experiment(status: Status, preEmbed: Option<PreEmbed>, runCount: nat, failedCount: nat)

  datatype Run = Run(experiment: ExperimentId, phase: Phase)

  datatype Tables = Tables(experiments: map<ExperimentId, Experiment>, runs: map<RunId, Run>)

  // ---- What is counted --------------------------------------------------------------------------------

  function RunsOf(runs: map<RunId, Run>, x: ExperimentId): set<RunId>
  {
    set r | r in runs && runs[r].experiment == x
  }

  function InPhase(runs: map<RunId, Run>, x: ExperimentId, phase: Phase): set<RunId>
  {
    set r | r in runs && runs[r].experiment == x && runs[r].phase == phase
  }

  /** `_derive_experiment_status`. */
  function Derived(complete: nat, failed: nat, total: nat, expected: nat): Status
  {
    if complete == expected && failed == 0 then CompleteStatus
    else if failed == expected || (failed > 0 && complete == 0 && failed == total) then FailedStatus
    else PartialStatus
  }

  // ---- One experiment ---------------------------------------------------------------------------------

  predicate WaitsForBatches(e: Experiment) { e.preEmbed == Some(Waiting) }

  /** In-flight runs of `x` are interrupted. */
  function Interrupt(runs: map<RunId, Run>, x: ExperimentId): map<RunId, Run>
  {
    map r | r in runs ::
      if runs[r].experiment == x && !Terminal(runs[r].phase) then runs[r].(phase := Interrupted) else runs[r]
  }

  function Closed(e: Experiment, runs: map<RunId, Run>, x: ExperimentId): Experiment
  {
    var complete, failed := |InPhase(runs, x, Complete)|, |InPhase(runs, x, Failed)|;
    e.(status := Derived(complete, failed, |RunsOf(runs, x)|, e.runCount), failedCount := failed)
  }

  /** What boot does with one RUNNING experiment, given which experiments have checkpointed batches. */
  function ReconcileOne(t: Tables, x: ExperimentId, checkpointed: set<ExperimentId>): Tables
    requires x in t.experiments
  {
    var e := t.experiments[x];
    if WaitsForBatches(e) && x in checkpointed then t
    else if WaitsForBatches(e) then t.(experiments := t.experiments[x := e.(status := FailedStatus, failedCount := 0)])
    else
      var runs := Interrupt(t.runs, x);
      Tables(t.experiments[x := Closed(e, runs, x)], runs)
  }

  predicate Running(t: Tables, x: ExperimentId) { x in t.experiments && t.experiments[x].status == RunningStatus }

  predicate Orphaned(t: Tables, x: ExperimentId)
  {
    Running(t, x) && !WaitsForBatches(t.experiments[x])
  }

  // ---- The whole pass ---------------------------------------------------------------------------------

  /** What a pass makes of each experiment and of each run, whatever the order of the rows. */
  function ExperimentAfter(t: Tables, x: ExperimentId, checkpointed: set<ExperimentId>): Experiment
    requires x in t.experiments
  {
    if Running(t, x) then ReconcileOne(t, x, checkpointed).experiments[x] else t.experiments[x]
  }

  function RunAfter(t: Tables, r: RunId): Run
    requires r in t.runs
  {
    if Orphaned(t, t.runs[r].experiment) && !Terminal(t.runs[r].phase) then t.runs[r].(phase := Interrupted)
    else t.runs[r]
  }

  function Reconciled(t: Tables, checkpointed: set<ExperimentId>): Tables
  {
    Tables(map x | x in t.experiments :: ExperimentAfter(t, x, checkpointed), map r | r in t.runs :: RunAfter(t, r))
  }

  /** A pass that still has the experiments `todo` to look at. */
  ghost predicate Partly(t: Tables, checkpointed: set<ExperimentId>, todo: set<ExperimentId>, now: Tables)
  {
    && now.experiments.Keys == t.experiments.Keys && now.runs.Keys == t.runs.Keys
    && (forall x :: x in t.experiments ==>
         now.experiments[x] == if x in todo then t.experiments[x] else ExperimentAfter(t, x, checkpointed))
    && (forall r :: r in t.runs ==> now.runs[r] == if t.runs[r].experiment in todo then t.runs[r] else RunAfter(t, r))
  }

  lemma SameRunsSameCounts(a: map<RunId, Run>, b: map<RunId, Run>, x: ExperimentId)
    requires a.Keys == b.Keys
    requires forall r :: r in a ==> a[r].experiment == b[r].experiment && (a[r].experiment == x ==> a[r] == b[r])
    ensures RunsOf(a, x) == RunsOf(b, x) && forall phase :: InPhase(a, x, phase) == InPhase(b, x, phase)
  {}

  lemma PartlyKnows(t: Tables, checkpointed: set<ExperimentId>, todo: set<ExperimentId>, now: Tables, x: ExperimentId)
    requires Partly(t, checkpointed, todo, now) && x in todo && Running(t, x)
    ensures x in now.experiments && now.experiments[x] == t.experiments[x]
  {}

  lemma ClosedSame(t: Tables, checkpointed: set<ExperimentId>, todo: set<ExperimentId>, now: Tables, x: ExperimentId)
    requires Partly(t, checkpointed, todo, now) && x in todo && Running(t, x)
    ensures ReconcileOne(now, x, checkpointed).experiments ==
              now.experiments[x := ReconcileOne(t, x, checkpointed).experiments[x]]
  {
    SameRunsSameCounts(Interrupt(now.runs, x), Interrupt(t.runs, x), x);
    assert now.experiments == now.experiments[x := t.experiments[x]];
  }

  lemma RunsStep(t: Tables, checkpointed: set<ExperimentId>, todo: set<ExperimentId>, now: Tables, x: ExperimentId,
                 r: RunId)
    requires Partly(t, checkpointed, todo, now) && x in todo && Running(t, x) && r in t.runs
    ensures r in ReconcileOne(now, x, checkpointed).runs
    ensures ReconcileOne(now, x, checkpointed).runs[r] ==
            if t.runs[r].experiment in todo - {x} then t.runs[r] else RunAfter(t, r)
  {}

  lemma StepPartly(t: Tables, checkpointed: set<ExperimentId>, todo: set<ExperimentId>, now: Tables, x: ExperimentId)
    requires Partly(t, checkpointed, todo, now) && x in todo && Running(t, x)
    ensures Partly(t, checkpointed, todo - {x}, ReconcileOne(now, x, checkpointed))
  {
    ClosedSame(t, checkpointed, todo, now, x);
    var next := ReconcileOne(now, x, checkpointed);
    assert next.runs.Keys == t.runs.Keys;
    assert next.experiments[x] == ExperimentAfter(t, x, checkpointed);
    hide ReconcileOne, RunAfter, ExperimentAfter;
    forall r | r in t.runs
      ensures next.runs[r] == if t.runs[r].experiment in todo - {x} then t.runs[r] else RunAfter(t, r)
    {
      RunsStep(t, checkpointed, todo, now, x, r);
    }
  }

  lemma AllDone(t: Tables, checkpointed: set<ExperimentId>, now: Tables)
    requires Partly(t, checkpointed, {}, now)
    ensures now == Reconciled(t, checkpointed)
  {}

  lemma InterruptIs(runs: map<RunId, Run>, x: ExperimentId, inFlight: set<RunId>)
    requires inFlight == set r | r in runs && runs[r].experiment == x && !Terminal(runs[r].phase)
    ensures Interrupt(runs, x) == map r | r in runs :: if r in inFlight then runs[r].(phase := Interrupted) else runs[r]
    ensures inFlight == {} ==> Interrupt(runs, x) == runs
  {}

  /** The storage that the pass reads and writes. */
  class Storage {
    var experiments: map<ExperimentId, Experiment>
    var runs: map<RunId, Run>

    function Now(): Tables
      reads this
    {
      Tables(experiments, runs)
    }

    /** `_reconcile_one`. */
    method CloseOrphan(x: ExperimentId)
      requires x in experiments && !WaitsForBatches(experiments[x])
      modifies this
      ensures Now() == ReconcileOne(old(Now()), x, {})
    {
      var inFlight := set r | r in runs && runs[r].experiment == x && !Terminal(runs[r].phase);
      InterruptIs(runs, x, inFlight);
      if inFlight != {} {
        runs := map r | r in runs :: if r in inFlight then runs[r].(phase := Interrupted) else runs[r];
      }
      var complete, failed := |InPhase(runs, x, Complete)|, |InPhase(runs, x, Failed)|;
      var status := Derived(complete, failed, |RunsOf(runs, x)|, experiments[x].runCount);
      experiments := experiments[x := experiments[x].(status := status, failedCount := failed)];
    }

    /** One row of the loop; `closes` unless the experiment is exempt. */
    method ReconcileRow(x: ExperimentId, checkpointed: set<ExperimentId>) returns (closes: bool)
      requires x in experiments
      modifies this
      ensures Now() == ReconcileOne(old(Now()), x, checkpointed)
      ensures closes == !(WaitsForBatches(old(experiments)[x]) && x in checkpointed)
    {
      var experiment := experiments[x];
      if WaitsForBatches(experiment) && x in checkpointed {
        return false;
      }
      if WaitsForBatches(experiment) {
        experiments := experiments[x := experiment.(status := FailedStatus, failedCount := 0)];
      } else {
        CloseOrphan(x);
      }
      closes := true;
    }

    /** `reconcile_orphaned_experiments`; returns how many experiments it closed. */
    method ReconcileOrphanedExperiments(checkpointed: set<ExperimentId>) returns (reconciled: nat)
      modifies this
      ensures Now() == Reconciled(old(Now()), checkpointed)
      ensures reconciled == |ClosedBy(old(Now()), checkpointed)|
    {
      hide Partly, ReconcileOne, Reconciled, ClosedBy;
      ghost var start := Now();
      var todo := set x | x in experiments && experiments[x].status == RunningStatus;
      ghost var closed: set<ExperimentId> := {};
      reconciled := 0;
      StartPartly(start, checkpointed, todo);
      NoneClosed(start, checkpointed, todo);
      while todo != {}
        invariant Partly(start, checkpointed, todo, Now())
        invariant forall x :: x in todo ==> Running(start, x)
        invariant reconciled == |closed| && closed == ClosedBy(start, checkpointed) - todo
        decreases todo
      {
        var x :| x in todo;
        StepPartly(start, checkpointed, todo, Now(), x);
        PartlyKnows(start, checkpointed, todo, Now(), x);
        ClosedStep(start, checkpointed, todo, x);
        todo := todo - {x};
        var closes := ReconcileRow(x, checkpointed);
        if closes {
          reconciled, closed := reconciled + 1, closed + {x};
        }
      }
      AllDone(start, checkpointed, Now());
      assert ClosedBy(start, checkpointed) - {} == ClosedBy(start, checkpointed);
    }
  }

  ghost function ClosedBy(t: Tables, checkpointed: set<ExperimentId>): set<ExperimentId>
  {
    set x | x in t.experiments && t.experiments[x].status == RunningStatus
            && (t.experiments[x].preEmbed != Some(Waiting) || x !in checkpointed)
  }

  lemma NoneClosed(t: Tables, checkpointed: set<ExperimentId>, todo: set<ExperimentId>)
    requires forall x :: x in todo <==> Running(t, x)
    ensures ClosedBy(t, checkpointed) - todo == {}
  {}

  lemma ClosedStep(t: Tables, checkpointed: set<ExperimentId>, todo: set<ExperimentId>, x: ExperimentId)
    requires x in todo && Running(t, x)
    ensures ClosedBy(t, checkpointed) - (todo - {x}) ==
            ClosedBy(t, checkpointed) - todo +
              if WaitsForBatches(t.experiments[x]) && x in checkpointed then {} else {x}
    ensures x !in ClosedBy(t, checkpointed) - todo
  {}

  lemma StartPartly(t: Tables, checkpointed: set<ExperimentId>, todo: set<ExperimentId>)
    requires forall x :: x in todo <==> Running(t, x)
    ensures Partly(t, checkpointed, todo, t)
  {}

  // ---- What boot leaves ---------------------------------------------------------------------------------

  /** What was not RUNNING is as it was.  What waits for batches stays RUNNING if they are checkpointed, and has
      failed otherwise; every other RUNNING experiment is closed, with its failed runs counted. */
  lemma BootLeavesRunningExactly(t: Tables, checkpointed: set<ExperimentId>, x: ExperimentId)
    ensures Reconciled(t, checkpointed).experiments.Keys == t.experiments.Keys
    ensures x in t.experiments ==>
            var e, after := t.experiments[x], Reconciled(t, checkpointed).experiments[x];
            && (after.status == RunningStatus <==>
                  e.status == RunningStatus && e.preEmbed == Some(Waiting) && x in checkpointed)
            && (e.status != RunningStatus || after.status == RunningStatus ==> after == e)
            && (e.status == RunningStatus && e.preEmbed == Some(Waiting) && x !in checkpointed ==>
                  after == e.(status := FailedStatus, failedCount := 0))
            && (e.status == RunningStatus && e.preEmbed != Some(Waiting) ==>
                  after == e.(status := after.status, failedCount := |RunsIn(t.runs, x, Failed)|)
                  && after.status in {CompleteStatus, FailedStatus, PartialStatus})
  {
    InterruptedCounts(t.runs, x);
  }

  /** The runs of `x` in a phase. */
  ghost function RunsIn(runs: map<RunId, Run>, x: ExperimentId, phase: Phase): set<RunId>
  {
    set r | r in runs && runs[r] == Run(x, phase)
  }

  /** Interrupting what is in flight changes no complete or failed run. */
  lemma InterruptedCounts(runs: map<RunId, Run>, x: ExperimentId)
    ensures InPhase(Interrupt(runs, x), x, Complete) == RunsIn(runs, x, Complete)
    ensures InPhase(Interrupt(runs, x), x, Failed) == RunsIn(runs, x, Failed)
    ensures RunsOf(Interrupt(runs, x), x) == RunsOf(runs, x)
  {}

  /** Of a RUNNING experiment that does not wait for batches, the runs in flight are interrupted; no other run is
      touched. */
  lemma OrphansHaveTerminalRuns(t: Tables, checkpointed: set<ExperimentId>, r: RunId)
    requires r in t.runs
    ensures r in Reconciled(t, checkpointed).runs
    ensures var run, after := t.runs[r], Reconciled(t, checkpointed).runs[r];
            var ended := run.phase == Complete || run.phase == Failed || run.phase == Interrupted;
            var orphan := run.experiment in t.experiments && t.experiments[run.experiment].status == RunningStatus
                          && t.experiments[run.experiment].preEmbed != Some(Waiting);
            after == if orphan && !ended then run.(phase := Interrupted) else run
  {}

  /** The status of such an experiment, by its runs before boot: how many completed, how many failed, and whether
      all of them did. */
  lemma OrphanStatusByItsRuns(t: Tables, checkpointed: set<ExperimentId>, x: ExperimentId)
    requires x in t.experiments
    requires t.experiments[x].status == RunningStatus && t.experiments[x].preEmbed != Some(Waiting)
    ensures var status := Reconciled(t, checkpointed).experiments[x].status;
            var complete, failed := |RunsIn(t.runs, x, Complete)|, |RunsIn(t.runs, x, Failed)|;
            var expected := t.experiments[x].runCount;
            var allFailed := forall r :: r in t.runs && t.runs[r].experiment == x ==> t.runs[r].phase == Failed;
            && (status == CompleteStatus <==> complete == expected && failed == 0)
            && (status == FailedStatus <==>
                  !(complete == expected && failed == 0) && (failed == expected || (failed > 0 && allFailed)))
            && status in {CompleteStatus, FailedStatus, PartialStatus}
  {
    InterruptedCounts(t.runs, x);
    var failed, all := RunsIn(t.runs, x, Failed), RunsOf(t.runs, x);
    if |failed| == |all| {
      SubsetOfSameSize(failed, all);
      assert forall r :: r in t.runs && t.runs[r].experiment == x ==> r in failed;
    }
    if forall r :: r in t.runs && t.runs[r].experiment == x ==> t.runs[r].phase == Failed {
      assert failed == all;
      assert RunsIn(t.runs, x, Complete) == {};
    }
  }

  /** A second boot finds nothing to do. */
  lemma BootIsIdempotent(t: Tables, checkpointed: set<ExperimentId>)
    ensures var once := Reconciled(t, checkpointed);
            && Reconciled(once, checkpointed) == once
            && forall x :: x in once.experiments && once.experiments[x].status == RunningStatus ==>
                 once.experiments[x].preEmbed == Some(Waiting) && x in checkpointed
  {}

  /** Boot and a finished sweep judge the same counts differently in exactly one case: something failed,
      nothing completed, and not everything that ran failed.  Boot then says PARTIAL, the sweep FAILED. */
  lemma BootAgreesWithSweepExactly(rows: seq<Row>, expected: nat)
    ensures var complete, failed := CountPhase(rows, Complete), CountPhase(rows, Failed);
            && (Derived(complete, failed, |rows|, expected) == StatusByCounts(rows, expected) <==>
                 !(failed > 0 && complete == 0 && failed != |rows| && failed != expected))
            && (Derived(complete, failed, |rows|, expected) != StatusByCounts(rows, expected) ==>
                 Derived(complete, failed, |rows|, expected) == PartialStatus
                 && StatusByCounts(rows, expected) == FailedStatus)
  {}
}
