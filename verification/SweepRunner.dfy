/**
 One sweep: `_run_sweep_inner`, `_submit_next`, `_run_single` and `_compute_final_status` of
 server/core/pipeline/orchestrator.py:621-860, 863-1084.

 Which futures are done at each wait, how each run ends and when cancel or pause are signalled are all
 arbitrary.  A run's row is added when the run is submitted and closed when its future is reaped.
 */
module SweepRunner {
  import opened Collections
  import opened SweepGrid

  datatype Phase = Queued | Parsing | Chunking | Embedding | Storing | Querying | Complete | Failed | Interrupted

  datatype Row = Row(params: RunParams, phase: Phase)

  datatype Signal = Proceed | CancelSeen | PauseSeen

  /** How a run's future ends. */
  datatype Outcome = Completed | RunCancelled | RunPaused | SieUnavailable | RunFailed

  /** `ExperimentStatus`. */
  datatype Status = RunningStatus | PausedStatus | CompleteStatus | PartialStatus | FailedStatus | CancelledStatus

  /** The phase a run leaves its row in. */
  function Closing(outcome: Outcome): Phase
  {
    match outcome
    case Completed => Complete
    case RunCancelled => Interrupted
    case RunPaused => Interrupted
    case SieUnavailable => Failed
    case RunFailed => Failed
  }

  predicate Terminal(phase: Phase) { phase == Complete || phase == Failed || phase == Interrupted }

  /** The cancel and pause events of one experiment; they are never cleared. */
  class Control {
    var cancel: bool
    var pause: bool

    /** API handlers may raise either event at any time. */
    method Elapse()
      modifies this
      ensures (old(cancel) ==> cancel) && (old(pause) ==> pause)
    {
      var cancels: bool, pauses: bool := *, *;
      cancel, pause := cancel || cancels, pause || pauses;
    }

    /** `check_control`: a cancel hides a pause. */
    method Check() returns (signal: Signal)
      modifies this
      ensures (old(cancel) ==> cancel) && (old(pause) ==> pause)
      ensures signal == if cancel then CancelSeen else if pause then PauseSeen else Proceed
    {
      Elapse();
      signal := if cancel then CancelSeen else if pause then PauseSeen else Proceed;
    }

    /** A worker's check at some time since it started: what it saw still stands. */
    method CheckInWorker() returns (signal: Signal)
      modifies this
      ensures (old(cancel) ==> cancel) && (old(pause) ==> pause)
      ensures (signal == CancelSeen ==> cancel) && (signal == PauseSeen ==> pause)
    {
      Elapse();
      signal := *;
      if (signal == CancelSeen && !cancel) || (signal == PauseSeen && !pause) {
        signal := Proceed;
      }
    }
  }

  // ---- One run --------------------------------------------------------------------------------------

  const PIPELINE: seq<Phase> := [Parsing, Chunking, Embedding, Storing, Querying]

  /** Queued, then some of the pipeline in order, then the closing phase; a completed run did it all. */
  ghost predicate Trail(history: seq<Phase>, outcome: Outcome)
  {
    exists k: nat :: TrailTo(history, outcome, k)
  }

  ghost predicate TrailTo(history: seq<Phase>, outcome: Outcome, k: nat)
  {
    k <= |PIPELINE| && history == [Queued] + PIPELINE[..k] + [Closing(outcome)]
    && (outcome == Completed ==> k == |PIPELINE|)
  }

  /** One phase of a run: the control check, the phase update, then work that may fail or, where it
      checks the control itself, be interrupted. */
  method Stage(control: Control, history: seq<Phase>, n: nat, checksInside: bool)
    returns (entered: seq<Phase>, ended: Option<Outcome>)
    requires n < |PIPELINE| && history == [Queued] + PIPELINE[..n]
    modifies control
    ensures (old(control.cancel) ==> control.cancel) && (old(control.pause) ==> control.pause)
    ensures entered == [Queued] + PIPELINE[..n + 1] || (ended.Some? && entered == history)
    ensures ended != Some(Completed)
    ensures (ended == Some(RunCancelled) ==> control.cancel) && (ended == Some(RunPaused) ==> control.pause)
  {
    entered := history;
    var signal := control.CheckInWorker();
    if signal != Proceed {
      return entered, Some(if signal == CancelSeen then RunCancelled else RunPaused);
    }
    entered := entered + [PIPELINE[n]];
    assert PIPELINE[..n + 1] == PIPELINE[..n] + [PIPELINE[n]];
    if checksInside {
      signal := control.CheckInWorker();
      if signal != Proceed {
        return entered, Some(if signal == CancelSeen then RunCancelled else RunPaused);
      }
    }
    var fails: bool, unavailable: bool := *, *;
    ended := if unavailable then Some(SieUnavailable) else if fails then Some(RunFailed) else None;
  }

  /** The trail of a run that ended after entering `k` phases. */
  ghost predicate Halfway(history: seq<Phase>, ended: Option<Outcome>, k: nat)
  {
    && k <= |PIPELINE| && history == [Queued] + PIPELINE[..k] && ended != Some(Completed)
    && (ended.None? ==> k == |PIPELINE|)
  }

  lemma TrailEnds(history: seq<Phase>, ended: Option<Outcome>, k: nat)
    requires Halfway(history, ended, k)
    ensures var outcome := if ended.Some? then ended.value else Completed; Trail(history + [Closing(outcome)], outcome)
  {
    var outcome := if ended.Some? then ended.value else Completed;
    assert TrailTo(history + [Closing(outcome)], outcome, k);
  }

  lemma TrailCloses(history: seq<Phase>, outcome: Outcome)
    requires Trail(history, outcome)
    ensures history != [] && history[|history| - 1] == Closing(outcome)
  {}

  /** A run that did all its work is complete, one that was cancelled or paused is interrupted, and one that
      failed, or found the service gone, failed. */
  lemma ClosingTells(outcome: Outcome)
    ensures Closing(outcome) == Complete <==> outcome == Completed
    ensures Closing(outcome) == Interrupted <==> outcome == RunCancelled || outcome == RunPaused
    ensures Closing(outcome) == Failed <==> outcome == SieUnavailable || outcome == RunFailed
    ensures Terminal(Closing(outcome))
  {}

  /** `_run_single`: some of the pipeline's phases in order, and then the phase its outcome calls for. */
  method RunSingle(control: Control) returns (outcome: Outcome, history: seq<Phase>)
    modifies control
    ensures (old(control.cancel) ==> control.cancel) && (old(control.pause) ==> control.pause)
    ensures (outcome == RunCancelled ==> control.cancel) && (outcome == RunPaused ==> control.pause)
    ensures Trail(history, outcome) && history != []
    ensures history[|history| - 1] == Complete <==> outcome == Completed
    ensures history[|history| - 1] == Interrupted <==> outcome == RunCancelled || outcome == RunPaused
    ensures history[|history| - 1] == Failed <==> outcome == SieUnavailable || outcome == RunFailed
  {
    hide Trail, TrailTo;
    var ended: Option<Outcome>;
    history, ended := Stage(control, [Queued], 0, false);
    if ended.None? {
      history, ended := Stage(control, history, 1, false);
    }
    if ended.None? {
      history, ended := Stage(control, history, 2, true);
    }
    if ended.None? {
      history, ended := Stage(control, history, 3, false);
    }
    if ended.None? {
      history, ended := Stage(control, history, 4, true);
    }
    outcome := if ended.Some? then ended.value else Completed;
    TrailEnds(history, ended, |history| - 1);
    ClosingTells(outcome);
    history := history + [Closing(outcome)];
  }

  // ---- Counting rows --------------------------------------------------------------------------------

  function CountPhase(rows: seq<Row>, phase: Phase): (n: nat)
    ensures n <= |rows|
  {
    if rows == [] then 0 else CountPhase(rows[..|rows| - 1], phase) + if rows[|rows| - 1].phase == phase then 1 else 0
  }

  /** `_compute_final_status`. */
  function StatusByCounts(rows: seq<Row>, expected: nat): Status
  {
    var complete, failed := CountPhase(rows, Complete), CountPhase(rows, Failed);
    if complete == expected && failed == 0 then CompleteStatus
    else if failed == expected || (failed > 0 && complete == 0) then FailedStatus
    else PartialStatus
  }

  // ---- The log of a sweep ---------------------------------------------------------------------------

  /** Besides what the sweep does: the API raises an event, noted when the sweep next gets to run. */
  datatype Event =
    | Submit(run: nat)
    | Reap(run: nat, outcome: Outcome)
    | Checked(signal: Signal)
    | Raised(signal: Signal)

  predicate Cancels(e: Event) { e == Checked(CancelSeen) || (e.Reap? && e.outcome == RunCancelled) }

  predicate Pauses(e: Event) { e == Checked(PauseSeen) || (e.Reap? && e.outcome == RunPaused) }

  predicate Outage(e: Event) { e.Reap? && e.outcome == SieUnavailable }

  predicate Failure(e: Event) { e.Reap? && e.outcome == RunFailed }

  predicate SawCancel(log: seq<Event>) { exists e :: e in log && Cancels(e) }

  predicate SawPause(log: seq<Event>) { exists e :: e in log && Pauses(e) }

  predicate SawOutage(log: seq<Event>) { exists e :: e in log && Outage(e) }

  /** The reasons to submit nothing further. */
  predicate StopsSweep(e: Event, stopOnError: bool)
  {
    Cancels(e) || Pauses(e) || Outage(e) || (stopOnError && Failure(e))
  }

  predicate SawStop(log: seq<Event>, stopOnError: bool) { exists e :: e in log && StopsSweep(e, stopOnError) }

  predicate IsRaise(e: Event) { e == Raised(CancelSeen) || e == Raised(PauseSeen) }

  predicate SawRaise(log: seq<Event>) { exists e :: e in log && IsRaise(e) }

  /** The final write: cancel, then pause, then an outage, then the counts. */
  function Verdict(log: seq<Event>, rows: seq<Row>, expected: nat): Status
  {
    if SawCancel(log) then CancelledStatus
    else if SawPause(log) then PausedStatus
    else if SawOutage(log) then FailedStatus
    else StatusByCounts(rows, expected)
  }

  /** Which of the first `n` rows are in a phase. */
  ghost function RowsInPhase(rows: seq<Row>, n: nat, phase: Phase): set<nat>
    requires n <= |rows|
  {
    set k: nat | k < n && rows[k].phase == phase
  }

  lemma {:induction false} CountIs(rows: seq<Row>, n: nat, phase: Phase)
    requires n <= |rows|
    ensures CountPhase(rows[..n], phase) == |RowsInPhase(rows, n, phase)|
  {
    if n > 0 {
      CountIs(rows, n - 1, phase);
      assert rows[..n][..n - 1] == rows[..n - 1];
      if rows[n - 1].phase == phase {
        assert RowsInPhase(rows, n, phase) == RowsInPhase(rows, n - 1, phase) + {n - 1};
      } else {
        assert RowsInPhase(rows, n, phase) == RowsInPhase(rows, n - 1, phase);
      }
    }
  }

  /** The status a sweep's final write gives, from its log and the experiment's rows: a cancel it saw comes
      before a pause, a pause before an outage, and an outage before the number of rows complete and failed. */
  lemma VerdictTells(log: seq<Event>, rows: seq<Row>, expected: nat)
    ensures var status := Verdict(log, rows, expected);
            var cancelled := Checked(CancelSeen) in log || exists i :: Reap(i, RunCancelled) in log;
            var paused := Checked(PauseSeen) in log || exists i :: Reap(i, RunPaused) in log;
            var gone := exists i :: Reap(i, SieUnavailable) in log;
            var complete, failed := |RowsInPhase(rows, |rows|, Complete)|, |RowsInPhase(rows, |rows|, Failed)|;
            && (status == CancelledStatus <==> cancelled)
            && (status == PausedStatus <==> paused && !cancelled)
            && (gone && !cancelled && !paused ==> status == FailedStatus)
            && (!gone && !cancelled && !paused ==>
                  && (status == CompleteStatus <==> complete == expected && failed == 0)
                  && (status == FailedStatus <==>
                        (complete != expected || failed > 0) && (failed == expected || (failed > 0 && complete == 0))))
            && status != RunningStatus
  {
    CountIs(rows, |rows|, Complete);
    CountIs(rows, |rows|, Failed);
    assert rows[..|rows|] == rows;
    hide CountPhase, RowsInPhase;
    CancelsTold(log);
  }

  lemma CancelsTold(log: seq<Event>)
    ensures SawCancel(log) <==> Checked(CancelSeen) in log || exists i :: Reap(i, RunCancelled) in log
    ensures SawPause(log) <==> Checked(PauseSeen) in log || exists i :: Reap(i, RunPaused) in log
    ensures SawOutage(log) <==> exists i :: Reap(i, SieUnavailable) in log
  {
    if e :| e in log && Cancels(e) { assert e.Reap? ==> e == Reap(e.run, RunCancelled); }
    if e :| e in log && Pauses(e) { assert e.Reap? ==> e == Reap(e.run, RunPaused); }
    if e :| e in log && Outage(e) { assert e == Reap(e.run, SieUnavailable); }
    if i :| Reap(i, RunCancelled) in log { assert Cancels(Reap(i, RunCancelled)); }
    if i :| Reap(i, RunPaused) in log { assert Pauses(Reap(i, RunPaused)); }
    if i :| Reap(i, SieUnavailable) in log { assert Outage(Reap(i, SieUnavailable)); }
    assert Cancels(Checked(CancelSeen)) && Pauses(Checked(PauseSeen));
  }

  /** The run ids in order of submission. */
  function Submitted(log: seq<Event>): seq<nat>
  {
    if log == [] then []
    else Submitted(log[..|log| - 1]) + if log[|log| - 1].Submit? then [log[|log| - 1].run] else []
  }

  /** `0, 1, ..., n - 1`. */
  function Upto(n: nat): seq<nat> { if n == 0 then [] else Upto(n - 1) + [n - 1] }

  ghost predicate NoSubmitAfterStop(log: seq<Event>, stopOnError: bool)
  {
    forall i, j :: 0 <= i < j < |log| && StopsSweep(log[i], stopOnError) ==> !log[j].Submit?
  }

  ghost predicate NoSubmitAfterRaise(log: seq<Event>)
  {
    forall i, j :: 0 <= i < j < |log| && IsRaise(log[i]) ==> !log[j].Submit?
  }

  /** No future is reaped twice. */
  ghost predicate ReapedOnce(log: seq<Event>)
  {
    forall i, j :: 0 <= i < j < |log| && log[i].Reap? && log[j].Reap? ==> log[i].run != log[j].run
  }

  // ---- The state of a sweep ---------------------------------------------------------------------------

  datatype Flags = Flags(cancelled: bool, paused: bool, outage: bool, stop: bool)

  /** The variables of `_run_sweep_inner`, the rows of the experiment, and the log. */
  datatype Progress = Progress(pending: seq<RunParams>, prior: seq<Row>, stopOnError: bool,
                               taken: nat, submitted: nat, futures: set<nat>,
                               flags: Flags,
                               rows: seq<Row>, log: seq<Event>)

  /** Submitted runs are the first of the pending ones, in order; one more may have been drawn. */
  ghost predicate Prefixed(p: Progress)
  {
    && p.submitted <= p.taken <= |p.pending| && (!p.flags.stop ==> p.taken == p.submitted)
    && Submitted(p.log) == Upto(p.submitted)
    && (forall i :: i in p.futures ==> i < p.submitted)
  }

  /** Every submitted run has its row, still queued exactly while its future is out, and otherwise
      closed as the log says. */
  ghost predicate RowsKept(p: Progress)
  {
    && |p.rows| == |p.prior| + p.submitted && p.submitted <= |p.pending|
    && p.rows[..|p.prior|] == p.prior
    && (forall i :: 0 <= i < p.submitted ==> p.rows[|p.prior| + i].params == p.pending[i])
    && (forall i :: 0 <= i < p.submitted && i in p.futures ==> p.rows[|p.prior| + i].phase == Queued)
    && (forall i :: 0 <= i < p.submitted && i !in p.futures ==> ClosedAsLogged(p.log, i, p.rows[|p.prior| + i].phase))
  }

  ghost predicate ClosedAsLogged(log: seq<Event>, run: nat, phase: Phase)
  {
    exists e :: e in log && e.Reap? && e.run == run && phase == Closing(e.outcome)
  }

  ghost predicate ReapsKept(p: Progress)
  {
    ReapedOnce(p.log) && forall e :: e in p.log && e.Reap? ==> e.run < p.submitted && e.run !in p.futures
  }

  ghost predicate FlagsKept(p: Progress)
  {
    && (p.flags.cancelled <==> SawCancel(p.log)) && (p.flags.paused <==> SawPause(p.log))
    && (p.flags.outage <==> SawOutage(p.log))
    && (p.flags.stop <==> SawStop(p.log, p.stopOnError)) && NoSubmitAfterStop(p.log, p.stopOnError)
  }

  ghost predicate Sound(p: Progress)
  {
    Prefixed(p) && RowsKept(p) && ReapsKept(p) && FlagsKept(p) && NoSubmitAfterRaise(p.log)
  }

  function Fresh(pending: seq<RunParams>, prior: seq<Row>, stopOnError: bool): Progress
  {
    Progress(pending, prior, stopOnError, 0, 0, {}, Flags(false, false, false, false), prior, [])
  }

  /** The flags that a signal sets. */
  function FlagsAfterCheck(f: Flags, signal: Signal): Flags
  {
    match signal
    case Proceed => f
    case CancelSeen => f.(cancelled := true, stop := true)
    case PauseSeen => f.(paused := true, stop := true)
  }

  /** A control check in the sweep's own thread, after drawing `drawn` runs that will not be submitted. */
  function AfterCheck(p: Progress, signal: Signal, drawn: nat): Progress
  {
    p.(taken := if signal == Proceed then p.taken else p.taken + drawn, flags := FlagsAfterCheck(p.flags, signal),
       log := p.log + [Checked(signal)])
  }

  function AfterRaise(p: Progress, signal: Signal): Progress { p.(log := p.log + [Raised(signal)]) }

  /** The events that are raised by now and not yet on the log. */
  function AfterNote(p: Progress, cancel: bool, pause: bool): Progress
  {
    var q := if cancel && Raised(CancelSeen) !in p.log then AfterRaise(p, CancelSeen) else p;
    if pause && Raised(PauseSeen) !in q.log then AfterRaise(q, PauseSeen) else q
  }

  function AfterSubmit(p: Progress): Progress
    requires p.taken < |p.pending|
  {
    p.(taken := p.taken + 1, submitted := p.submitted + 1, futures := p.futures + {p.submitted},
       rows := p.rows + [Row(p.pending[p.taken], Queued)], log := p.log + [Submit(p.submitted)])
  }

  function FlagsAfterReap(f: Flags, outcome: Outcome, stopOnError: bool): Flags
  {
    match outcome
    case Completed => f
    case RunCancelled => f.(cancelled := true, stop := true)
    case RunPaused => f.(paused := true, stop := true)
    case SieUnavailable => f.(outage := true, stop := true)
    case RunFailed => f.(stop := f.stop || stopOnError)
  }

  /** `update_run_phase`. */
  function CloseRow(rows: seq<Row>, at: nat, phase: Phase): seq<Row>
    requires at < |rows|
  {
    rows[at := rows[at].(phase := phase)]
  }

  function AfterReap(p: Progress, run: nat, outcome: Outcome): Progress
    requires |p.prior| + run < |p.rows|
  {
    p.(futures := p.futures - {run}, rows := CloseRow(p.rows, |p.prior| + run, Closing(outcome)),
       flags := FlagsAfterReap(p.flags, outcome, p.stopOnError),
       log := p.log + [Reap(run, outcome)])
  }

  // ---- What every step keeps ------------------------------------------------------------------------

  lemma SubmittedPush(log: seq<Event>, e: Event)
    ensures Submitted(log + [e]) == Submitted(log) + if e.Submit? then [e.run] else []
  {}

  lemma FreshSound(pending: seq<RunParams>, prior: seq<Row>, stopOnError: bool)
    ensures Sound(Fresh(pending, prior, stopOnError))
  {}

  lemma LogPush(log: seq<Event>, e: Event, stopOnError: bool)
    ensures SawCancel(log + [e]) <==> SawCancel(log) || Cancels(e)
    ensures SawPause(log + [e]) <==> SawPause(log) || Pauses(e)
    ensures SawOutage(log + [e]) <==> SawOutage(log) || Outage(e)
    ensures SawStop(log + [e], stopOnError) <==> SawStop(log, stopOnError) || StopsSweep(e, stopOnError)
    ensures NoSubmitAfterStop(log + [e], stopOnError) <==>
              NoSubmitAfterStop(log, stopOnError) && (SawStop(log, stopOnError) ==> !e.Submit?)
    ensures NoSubmitAfterRaise(log + [e]) <==> NoSubmitAfterRaise(log) && (SawRaise(log) ==> !e.Submit?)
  {
    assert forall x :: x in log + [e] <==> x in log || x == e;
    assert forall i :: 0 <= i < |log| ==> (log + [e])[i] == log[i];
    assert (log + [e])[|log|] == e;
  }

  lemma CheckKeepsRows(p: Progress, signal: Signal, drawn: nat)
    requires RowsKept(p) && ReapsKept(p)
    ensures RowsKept(AfterCheck(p, signal, drawn)) && ReapsKept(AfterCheck(p, signal, drawn))
  {}

  lemma CheckKeepsFlags(p: Progress, signal: Signal, drawn: nat)
    requires FlagsKept(p)
    ensures FlagsKept(AfterCheck(p, signal, drawn))
  {
    hide SawCancel, SawPause, SawOutage, SawStop, NoSubmitAfterStop;
    LogPush(p.log, Checked(signal), p.stopOnError);
  }

  lemma CheckKeeps(p: Progress, signal: Signal, drawn: nat)
    requires Sound(p) && (signal != Proceed ==> p.taken + drawn <= |p.pending|)
    ensures Sound(AfterCheck(p, signal, drawn))
  {
    hide FlagsKept, RowsKept, ReapsKept;
    CheckKeepsRows(p, signal, drawn);
    CheckKeepsFlags(p, signal, drawn);
    SubmittedPush(p.log, Checked(signal));
    LogPush(p.log, Checked(signal), p.stopOnError);
    hide NoSubmitAfterRaise;
  }

  lemma RaiseKeeps(p: Progress, signal: Signal)
    requires Sound(p)
    ensures Sound(AfterRaise(p, signal))
  {
    RaiseKeepsRows(p, signal);
    RaiseKeepsFlags(p, signal);
    hide RowsKept, ReapsKept, FlagsKept, NoSubmitAfterRaise;
    SubmittedPush(p.log, Raised(signal));
  }

  lemma RaiseKeepsFlags(p: Progress, signal: Signal)
    requires FlagsKept(p) && NoSubmitAfterRaise(p.log)
    ensures FlagsKept(AfterRaise(p, signal)) && NoSubmitAfterRaise(AfterRaise(p, signal).log)
  {
    hide SawCancel, SawPause, SawOutage, SawStop, NoSubmitAfterStop, NoSubmitAfterRaise, SawRaise;
    LogPush(p.log, Raised(signal), p.stopOnError);
  }

  lemma RaiseKeepsRows(p: Progress, signal: Signal)
    requires RowsKept(p) && ReapsKept(p)
    ensures RowsKept(AfterRaise(p, signal)) && ReapsKept(AfterRaise(p, signal))
  {}

  lemma NoteKeeps(p: Progress, cancel: bool, pause: bool)
    requires Sound(p)
    ensures Sound(AfterNote(p, cancel, pause))
    ensures var q := AfterNote(p, cancel, pause); q == p.(log := q.log)
    ensures !cancel && !pause ==> AfterNote(p, cancel, pause) == p
  {
    hide Sound;
    RaiseKeeps(p, CancelSeen);
    RaiseKeeps(p, PauseSeen);
    RaiseKeeps(AfterRaise(p, CancelSeen), PauseSeen);
  }

  lemma NoteDrawn(p: Progress, taken: nat, cancel: bool, pause: bool)
    ensures AfterNote(p.(taken := taken), cancel, pause) == AfterNote(p, cancel, pause).(taken := taken)
  {}

  lemma SubmitKeepsRows(p: Progress)
    requires Prefixed(p) && RowsKept(p) && ReapsKept(p) && !p.flags.stop && p.taken < |p.pending|
    ensures RowsKept(AfterSubmit(p)) && ReapsKept(AfterSubmit(p))
  {
    hide Closing;
    var q := AfterSubmit(p);
    forall i | 0 <= i < q.submitted && i !in q.futures ensures ClosedAsLogged(q.log, i, q.rows[|q.prior| + i].phase) {
      assert ClosedAsLogged(p.log, i, p.rows[|p.prior| + i].phase);
    }
  }

  lemma SubmitKeepsFlags(p: Progress)
    requires FlagsKept(p) && !p.flags.stop && p.taken < |p.pending|
    ensures FlagsKept(AfterSubmit(p))
  {
    hide SawCancel, SawPause, SawOutage, SawStop, NoSubmitAfterStop;
    LogPush(p.log, Submit(p.submitted), p.stopOnError);
  }

  lemma SubmitKeeps(p: Progress)
    requires Sound(p) && !p.flags.stop && p.taken < |p.pending| && !SawRaise(p.log)
    ensures Sound(AfterSubmit(p))
  {
    hide FlagsKept, RowsKept, ReapsKept;
    SubmitKeepsRows(p);
    SubmitKeepsFlags(p);
    SubmittedPush(p.log, Submit(p.submitted));
    LogPush(p.log, Submit(p.submitted), p.stopOnError);
    hide NoSubmitAfterRaise, SawRaise;
  }

  lemma ReapKeepsRows(p: Progress, run: nat, outcome: Outcome)
    requires RowsKept(p) && ReapsKept(p) && run in p.futures && run < p.submitted
    ensures RowsKept(AfterReap(p, run, outcome)) && ReapsKept(AfterReap(p, run, outcome))
  {
    hide Closing;
    var q := AfterReap(p, run, outcome);
    assert Reap(run, outcome) in q.log by { assert q.log[|p.log|] == Reap(run, outcome); }
    assert forall e :: e in p.log ==> e in q.log;
    forall i | 0 <= i < q.submitted && i !in q.futures ensures ClosedAsLogged(q.log, i, q.rows[|q.prior| + i].phase) {
      if i != run { assert ClosedAsLogged(p.log, i, p.rows[|p.prior| + i].phase); }
    }
  }

  lemma ReapKeepsFlags(p: Progress, run: nat, outcome: Outcome)
    requires FlagsKept(p) && |p.prior| + run < |p.rows|
    ensures FlagsKept(AfterReap(p, run, outcome))
  {
    hide SawCancel, SawPause, SawOutage, SawStop, NoSubmitAfterStop;
    LogPush(p.log, Reap(run, outcome), p.stopOnError);
  }

  lemma ReapKeepsPrefix(p: Progress, run: nat, outcome: Outcome)
    requires Prefixed(p) && |p.prior| + run < |p.rows|
    ensures Prefixed(AfterReap(p, run, outcome))
  {
    hide CloseRow, Closing;
    SubmittedPush(p.log, Reap(run, outcome));
  }

  lemma ReapKeeps(p: Progress, run: nat, outcome: Outcome)
    requires Sound(p) && run in p.futures
    ensures |p.prior| + run < |p.rows| && Sound(AfterReap(p, run, outcome))
  {
    assert |p.rows| == |p.prior| + p.submitted && run < p.submitted;
    hide FlagsKept, ReapsKept, RowsKept, Prefixed, AfterReap;
    ReapKeepsRows(p, run, outcome);
    ReapKeepsFlags(p, run, outcome);
    ReapKeepsPrefix(p, run, outcome);
    ReapKeepsRaise(p, run, outcome);
    hide NoSubmitAfterRaise;
  }

  lemma ReapKeepsRaise(p: Progress, run: nat, outcome: Outcome)
    requires NoSubmitAfterRaise(p.log) && |p.prior| + run < |p.rows|
    ensures NoSubmitAfterRaise(AfterReap(p, run, outcome).log)
  {
    hide NoSubmitAfterRaise;
    LogPush(p.log, Reap(run, outcome), p.stopOnError);
  }

  /** What the sweep saw or noted was raised. */
  predicate TruthfulTo(f: Flags, log: seq<Event>, cancel: bool, pause: bool)
  {
    (f.cancelled || Raised(CancelSeen) in log ==> cancel) && (f.paused || Raised(PauseSeen) in log ==> pause)
  }

  /** And all that is raised is noted. */
  predicate HeededBy(f: Flags, log: seq<Event>, cancel: bool, pause: bool)
  {
    TruthfulTo(f, log, cancel, pause) && (cancel ==> Raised(CancelSeen) in log) && (pause ==> Raised(PauseSeen) in log)
  }

  lemma StaysTruthful(f: Flags, log: seq<Event>, cancel: bool, pause: bool, cancelNow: bool, pauseNow: bool)
    requires HeededBy(f, log, cancel, pause) && (cancel ==> cancelNow) && (pause ==> pauseNow)
    ensures TruthfulTo(f, log, cancelNow, pauseNow)
  {}

  lemma NoteHeeds(p: Progress, cancel: bool, pause: bool)
    requires TruthfulTo(p.flags, p.log, cancel, pause)
    ensures var q := AfterNote(p, cancel, pause); q.flags == p.flags && HeededBy(q.flags, q.log, cancel, pause)
  {}

  lemma SubmitHeeds(p: Progress)
    requires HeededBy(p.flags, p.log, false, false) && p.taken < |p.pending|
    ensures var q := AfterSubmit(p); HeededBy(q.flags, q.log, false, false) && !SawRaise(p.log)
  {}

  lemma ReapHeeds(p: Progress, run: nat, outcome: Outcome, cancel: bool, pause: bool)
    requires HeededBy(p.flags, p.log, cancel, pause) && |p.prior| + run < |p.rows|
    requires (outcome == RunCancelled ==> cancel) && (outcome == RunPaused ==> pause)
    ensures var q := AfterReap(p, run, outcome); HeededBy(q.flags, q.log, cancel, pause)
  {}

  // ---- The sweep ------------------------------------------------------------------------------------

  /** The local variables that `_submit_next` shares with the sweep. */
  class Sweep {
    const pending: seq<RunParams>
    const prior: seq<Row>
    const stopOnError: bool
    const control: Control
    var taken: nat
    var submitted: nat
    var futures: set<nat>
    var flags: Flags
    var rows: seq<Row>
    ghost var log: seq<Event>

    ghost function Now(): Progress
      reads this
    {
      Progress(pending, prior, stopOnError, taken, submitted, futures, flags, rows, log)
    }

    /** What the sweep saw or noted was raised. */
    ghost predicate Truthful()
      reads this, control
    {
      TruthfulTo(flags, log, control.cancel, control.pause)
    }

    /** And all that is raised is noted. */
    ghost predicate Heeded()
      reads this, control
    {
      HeededBy(flags, log, control.cancel, control.pause)
    }

    constructor (pending: seq<RunParams>, prior: seq<Row>, stopOnError: bool, control: Control)
      requires !control.cancel && !control.pause
      ensures Now() == Fresh(pending, prior, stopOnError) && this.control == control && Heeded()
    {
      this.pending, this.prior, this.stopOnError, this.control := pending, prior, stopOnError, control;
      taken, submitted, futures := 0, 0, {};
      flags := Flags(false, false, false, false);
      rows, log := prior, [];
    }

    /** Notes on the log what has been raised meanwhile. */
    ghost method Note()
      requires Truthful()
      modifies this
      ensures Heeded() && Now() == AfterNote(old(Now()), control.cancel, control.pause)
    {
      NoteHeeds(Now(), control.cancel, control.pause);
      log := AfterNote(Now(), control.cancel, control.pause).log;
    }

    /** A check of the control by the sweep's own thread: whatever is raised by then is seen. */
    method CheckControl() returns (signal: Signal)
      requires Truthful()
      modifies this, control
      ensures Heeded() && Now() == AfterCheck(AfterNote(old(Now()), control.cancel, control.pause), signal, 0)
      ensures (old(control.cancel) ==> control.cancel) && (old(control.pause) ==> control.pause)
      ensures signal == if control.cancel then CancelSeen else if control.pause then PauseSeen else Proceed
    {
      signal := control.Check();
      Note();
      if signal == CancelSeen {
        flags := flags.(cancelled := true, stop := true);
      } else if signal == PauseSeen {
        flags := flags.(paused := true, stop := true);
      }
      log := log + [Checked(signal)];
    }

    /** `_submit_next`: the run is drawn before the control is checked. */
    method SubmitNext() returns (more: bool)
      requires Sound(Now()) && Heeded()
      modifies this, control
      ensures Sound(Now()) && Heeded()
      ensures old(flags.stop) || old(taken) == |pending| ==> !more && Now() == old(Now())
      ensures more ==> old(taken) < |pending| && Now() == AfterSubmit(AfterCheck(old(Now()), Proceed, 0))
      ensures !more && Now() != old(Now()) ==>
                var noted := AfterNote(old(Now()), control.cancel, control.pause);
                exists signal :: signal != Proceed && Now() == AfterCheck(noted, signal, 1)
      ensures (old(control.cancel) ==> control.cancel) && (old(control.pause) ==> control.pause)
      ensures more ==> !control.cancel && !control.pause
      ensures !old(flags.stop) && old(taken) < |pending| ==>
                (old(control.cancel) ==> flags.cancelled) && (old(control.pause) ==> flags.cancelled || flags.paused)
      ensures more ==> submitted == old(submitted) + 1 && futures == old(futures) + {old(submitted)}
      ensures more ==> taken == old(taken) + 1 && rows == old(rows) + [Row(pending[old(taken)], Queued)]
      ensures !more ==> (flags.stop || taken == |pending|) && taken >= old(taken)
      ensures !more ==> submitted == old(submitted) && futures == old(futures) && rows == old(rows)
    {
      hide Sound, TruthfulTo, HeededBy, AfterNote, SawRaise;
      ghost var before := Now();
      SoundBounds(before);
      if flags.stop || taken == |pending| {
        return false;
      }
      StaysTruthful(flags, log, control.cancel, control.pause, control.cancel, control.pause);
      var params := pending[taken];
      taken := taken + 1;
      var signal := CheckControl();
      ghost var noted := AfterNote(before, control.cancel, control.pause);
      NoteDrawn(before, before.taken + 1, control.cancel, control.pause);
      NoteKeeps(before, control.cancel, control.pause);
      if signal != Proceed {
        assert Now() == AfterCheck(noted, signal, 1);
        CheckKeeps(noted, signal, 1);
        return false;
      }
      ghost var checked := AfterCheck(before, Proceed, 0);
      CheckKeeps(before, Proceed, 0);
      SubmitHeeds(checked);
      SubmitKeeps(checked);
      futures := futures + {submitted};
      rows := rows + [Row(params, Queued)];
      log := log + [Submit(submitted)];
      submitted := submitted + 1;
      assert Now() == AfterSubmit(checked);
      more := true;
    }

    /** A future that is done: its run closed its row, and its outcome decides how the sweep goes on. */
    method TakeResult(run: nat, outcome: Outcome, closing: Phase)
      requires Sound(Now()) && Heeded() && run in futures && closing == Closing(outcome)
      requires (outcome == RunCancelled ==> control.cancel) && (outcome == RunPaused ==> control.pause)
      modifies this
      ensures Sound(Now()) && Heeded()
      ensures |prior| + run < |old(rows)| && Now() == AfterReap(old(Now()), run, outcome)
    {
      hide Sound, Closing, TruthfulTo, HeededBy;
      ghost var before := Now();
      ReapKeeps(before, run, outcome);
      ReapHeeds(before, run, outcome, control.cancel, control.pause);
      SoundStops(before);
      futures := futures - {run};
      rows := CloseRow(rows, |prior| + run, closing);
      match outcome {
        case Completed =>
        case RunCancelled => flags := flags.(cancelled := true);
        case RunPaused => flags := flags.(paused := true);
        case SieUnavailable => flags := flags.(outage := true, stop := true);
        case RunFailed => flags := flags.(stop := flags.stop || stopOnError);
      }
      if flags.cancelled || flags.paused {
        flags := flags.(stop := true);
      }
      log := log + [Reap(run, outcome)];
    }

    /** The futures that are done, in any order. */
    method TakeDone(finished: set<nat>)
      requires Sound(Now()) && Heeded() && finished != {} && finished <= futures
      modifies this, control
      ensures Sound(Now()) && Heeded()
      ensures taken == old(taken) && futures == old(futures) - finished
    {
      hide Sound, Trail, Closing, TruthfulTo, HeededBy, FlagsAfterReap, CloseRow;
      var done := finished;
      while done != {}
        invariant Sound(Now()) && Heeded() && taken == old(taken)
        invariant done <= futures && done <= finished && futures == old(futures) - (finished - done)
      {
        var run :| run in done;
        done := done - {run};
        ghost var before, cancel, pause := Now(), control.cancel, control.pause;
        var outcome, history := RunSingle(control);
        StaysTruthful(flags, log, cancel, pause, control.cancel, control.pause);
        Note();
        NoteKeeps(before, control.cancel, control.pause);
        TrailCloses(history, outcome);
        TakeResult(run, outcome, history[|history| - 1]);
      }
    }

    /** After a completion: a check, and then everything that is left is submitted. */
    method SubmitRest()
      requires Sound(Now()) && Heeded()
      modifies this, control
      ensures Sound(Now()) && Heeded() && taken >= old(taken) && (taken == old(taken) ==> futures == old(futures))
      ensures flags.stop || taken == |pending|
    {
      hide Sound, TruthfulTo, HeededBy;
      ghost var before, drawn := Now(), taken;
      SoundBounds(before);
      if flags.stop {
        return;
      }
      StaysTruthful(flags, log, control.cancel, control.pause, control.cancel, control.pause);
      var signal := CheckControl();
      NoteKeeps(before, control.cancel, control.pause);
      CheckKeeps(AfterNote(before, control.cancel, control.pause), signal, 0);
      if signal != Proceed {
        return;
      }
      var more := true;
      while more
        invariant Sound(Now()) && Heeded() && taken >= drawn && (taken == drawn ==> futures == before.futures)
        invariant !more ==> flags.stop || taken == |pending|
        decreases |pending| - taken, more
      {
        more := SubmitNext();
        SoundBounds(Now());
      }
    }

    /** The body of the executor's `with` block. */
    method Drain(maxWorkers: nat)
      requires Sound(Now()) && Heeded() && futures == {} && maxWorkers >= 1
      modifies this, control
      ensures Sound(Now()) && Heeded() && futures == {}
      ensures flags.stop || taken == |pending|
    {
      hide Sound, TruthfulTo, HeededBy;
      for k := 0 to maxWorkers
        invariant Sound(Now()) && Heeded()
        invariant k > 0 ==> flags.stop || taken == |pending| || futures != {}
      {
        var more := SubmitNext();
        if !more {
          break;
        }
      }
      while futures != {}
        invariant Sound(Now()) && Heeded()
        invariant flags.stop || taken == |pending| || futures != {}
        decreases |pending| - taken, futures
      {
        var done :| done != {} && done <= futures;
        TakeDone(done);
        SubmitRest();
        SoundBounds(Now());
      }
    }
  }

  /** What a reaped future does to the flags and to the rows. */
  lemma ReapSets(p: Progress, run: nat, outcome: Outcome)
    requires |p.prior| + run < |p.rows|
    ensures var q := AfterReap(p, run, outcome);
            && q.flags.cancelled == (p.flags.cancelled || outcome == RunCancelled)
            && q.flags.paused == (p.flags.paused || outcome == RunPaused)
            && q.flags.outage == (p.flags.outage || outcome == SieUnavailable)
            && q.flags.stop == (p.flags.stop || StopsSweep(Reap(run, outcome), p.stopOnError))
            && (forall i :: 0 <= i < |p.rows| && i != |p.prior| + run ==> q.rows[i] == p.rows[i])
            && q.rows[|p.prior| + run] == Row(p.rows[|p.prior| + run].params, Closing(outcome))
  {}

  lemma SoundBounds(p: Progress)
    requires Sound(p)
    ensures p.submitted <= p.taken <= |p.pending|
  {}

  lemma SoundStops(p: Progress)
    requires Sound(p)
    ensures p.flags.cancelled || p.flags.paused ==> p.flags.stop
  {}

  // ---- The whole of `_run_sweep_inner` ----------------------------------------------------------------

  /** The runs of the grid whose signature is not to be skipped. */
  function Pending(grid: seq<RunParams>, skip: set<Signature>): seq<RunParams>
  {
    if grid == [] then []
    else
      var last := grid[|grid| - 1];
      Pending(grid[..|grid| - 1], skip) + if ParamsSignature(last) in skip then [] else [last]
  }

  /** How a sweep's body ends.  A pause signalled before the start is not caught: the exception escapes
      and nothing is written.  A cancel then, or a cancelled experiment, skips the sweep and writes
      nothing either.  A failed preflight is written as a failure by the caller. */
  datatype Exit = Skipped | PauseEscaped | PreflightFailed | Finished(status: Status)

  /** A finished sweep: it submitted a prefix of the pending runs, nothing after the stop flag; all of
      them are closed; unless it stopped, all pending runs were submitted. */
  ghost predicate Ran(pending: seq<RunParams>, prior: seq<Row>, stopOnError: bool, rows: seq<Row>, log: seq<Event>)
  {
    exists p: Progress :: Sound(p) && p.futures == {} && (p.flags.stop || p.taken == |pending|)
      && p.pending == pending && p.prior == prior && p.stopOnError == stopOnError && p.rows == rows && p.log == log
  }

  method RunSweepInner(control: Control, config: Config, providerOf: Name -> Provider, skip: set<Signature>,
                       prior: seq<Row>, cancelledInDb: bool, ready: bool, maxWorkers: nat, stopOnError: bool)
    returns (exit: Exit, rows: seq<Row>, ghost log: seq<Event>)
    requires maxWorkers >= 1
    modifies control
    ensures !exit.Finished? ==> rows == prior
    ensures cancelledInDb ==> exit == Skipped
    ensures old(control.cancel) ==> exit == Skipped
    ensures old(control.pause) ==> exit == Skipped || exit == PauseEscaped
    ensures exit == Skipped ==> cancelledInDb || control.cancel
    ensures exit == PauseEscaped ==> control.pause && !cancelledInDb
    ensures exit == PreflightFailed ==> !ready && !cancelledInDb
    ensures exit.Finished? ==>
              && ready && Ran(Pending(Grid(config, providerOf), skip), prior, stopOnError, rows, log)
              && exit.status == Verdict(log, rows, |Grid(config, providerOf)|)
    ensures exit.Finished? ==>
              (Raised(CancelSeen) in log <==> control.cancel) && (Raised(PauseSeen) in log <==> control.pause)
    ensures exit == Finished(CancelledStatus) ==> control.cancel
    ensures exit == Finished(PausedStatus) ==> control.pause
  {
    hide Sound, Grid, Pending;
    rows, log := prior, [];
    if cancelledInDb {
      return Skipped, rows, log;
    }
    var signal := control.Check();
    if signal == CancelSeen {
      return Skipped, rows, log;
    }
    if signal == PauseSeen {
      return PauseEscaped, rows, log;
    }
    if !ready {
      return PreflightFailed, rows, log;
    }
    var allRuns := ExpandSweep(config, providerOf);
    var runs := Pending(allRuns, skip);
    var sweep := new Sweep(runs, prior, stopOnError, control);
    FreshSound(runs, prior, stopOnError);
    sweep.Drain(maxWorkers);
    rows, log := sweep.rows, sweep.log;
    SoundFlags(sweep.Now());
    var status := if sweep.flags.cancelled then CancelledStatus else if sweep.flags.paused then PausedStatus
                  else StatusByCounts(rows, |allRuns|);
    if sweep.flags.outage && status != CancelledStatus && status != PausedStatus {
      status := FailedStatus;
    }
    exit := Finished(status);
  }

  lemma SoundFlags(p: Progress)
    requires Sound(p)
    ensures (p.flags.cancelled <==> SawCancel(p.log)) && (p.flags.paused <==> SawPause(p.log))
            && (p.flags.outage <==> SawOutage(p.log))
  {}

  /** `rows` adds to `prior` one closed row for each of the first `n` pending runs. */
  ghost predicate Added(pending: seq<RunParams>, prior: seq<Row>, rows: seq<Row>, n: nat)
  {
    && n <= |pending| && |rows| == |prior| + n && rows[..|prior|] == prior
    && forall k :: |prior| <= k < |rows| ==> rows[k].params == pending[k - |prior|] && Terminal(rows[k].phase)
  }

  /** The row of submitted run `i` is closed as its one reaping says: complete, interrupted or failed. */
  ghost predicate RowClosedAsLogged(log: seq<Event>, rows: seq<Row>, base: nat, i: nat)
  {
    base + i < |rows| &&
    var phase := rows[base + i].phase;
    || (phase == Complete && Reap(i, Completed) in log)
    || (phase == Interrupted && (Reap(i, RunCancelled) in log || Reap(i, RunPaused) in log))
    || (phase == Failed && (Reap(i, SieUnavailable) in log || Reap(i, RunFailed) in log))
  }

  /** Nothing that should keep the sweep from submitting: a submission, a check that found no signal, or a run
      that completed, or failed where the sweep goes on after failures. */
  ghost predicate Undisturbed(e: Event, stopOnError: bool)
  {
    match e
    case Submit(_) => true
    case Checked(signal) => signal == Proceed
    case Reap(_, outcome) => outcome == Completed || (outcome == RunFailed && !stopOnError)
    case Raised(signal) => signal == Proceed
  }

  lemma UndisturbedExactly(e: Event, stopOnError: bool)
    ensures Undisturbed(e, stopOnError) <==> !StopsSweep(e, stopOnError) && !IsRaise(e)
  {}

  lemma UndisturbedSoFar(log: seq<Event>, stopOnError: bool, i: nat, j: nat)
    requires NoSubmitAfterStop(log, stopOnError) && NoSubmitAfterRaise(log) && i < j < |log| && log[j].Submit?
    ensures Undisturbed(log[i], stopOnError)
  {
    UndisturbedExactly(log[i], stopOnError);
  }

  lemma DrainedRow(p: Progress, i: nat)
    requires RowsKept(p) && p.futures == {} && i < p.submitted
    ensures p.rows[|p.prior| + i].params == p.pending[i] && Terminal(p.rows[|p.prior| + i].phase)
    ensures RowClosedAsLogged(p.log, p.rows, |p.prior|, i)
  {
    assert i !in p.futures;
    assert ClosedAsLogged(p.log, i, p.rows[|p.prior| + i].phase);
  }

  lemma RowsSize(p: Progress)
    requires RowsKept(p)
    ensures p.submitted <= |p.pending| && |p.rows| == |p.prior| + p.submitted && p.rows[..|p.prior|] == p.prior
  {}

  lemma DrainedAdds(p: Progress)
    requires RowsKept(p) && p.futures == {}
    ensures Added(p.pending, p.prior, p.rows, p.submitted)
    ensures forall i :: 0 <= i < p.submitted ==> RowClosedAsLogged(p.log, p.rows, |p.prior|, i)
  {
    RowsSize(p);
    hide RowsKept, RowClosedAsLogged, Terminal;
    forall k | |p.prior| <= k < |p.rows|
      ensures p.rows[k].params == p.pending[k - |p.prior|] && Terminal(p.rows[k].phase)
    {
      DrainedRow(p, k - |p.prior|);
    }
    forall i | 0 <= i < p.submitted ensures RowClosedAsLogged(p.log, p.rows, |p.prior|, i) {
      DrainedRow(p, i);
    }
  }

  /** What a finished sweep did, whatever the order of completions and the timing of the signals. */
  lemma FinishedSweep(pending: seq<RunParams>, prior: seq<Row>, stopOnError: bool, rows: seq<Row>, log: seq<Event>)
    returns (n: nat)
    requires Ran(pending, prior, stopOnError, rows, log)
    ensures Added(pending, prior, rows, n)
    ensures Submitted(log) == Upto(n) && NoSubmitAfterStop(log, stopOnError) && NoSubmitAfterRaise(log)
    ensures forall i :: 0 <= i < n ==> RowClosedAsLogged(log, rows, |prior|, i)
    ensures ReapedOnce(log)
    ensures !SawStop(log, stopOnError) ==> n == |pending|
    ensures forall i, j :: 0 <= i < j < |log| && log[j].Submit? ==> Undisturbed(log[i], stopOnError)
    ensures n < |pending| ==> exists e :: e in log && !e.Raised? && !Undisturbed(e, stopOnError)
  {
    hide SawCancel, SawPause, SawOutage, SawStop, NoSubmitAfterStop, NoSubmitAfterRaise, ReapedOnce;
    hide Submitted, Added, RowsKept, RowClosedAsLogged;
    var p: Progress :| Sound(p) && p.futures == {} && (p.flags.stop || p.taken == |pending|)
      && p.pending == pending && p.prior == prior && p.stopOnError == stopOnError && p.rows == rows && p.log == log;
    n := p.submitted;
    DrainedAdds(p);
    FinishedUndisturbed(log, stopOnError);
  }

  lemma FinishedUndisturbed(log: seq<Event>, stopOnError: bool)
    requires NoSubmitAfterStop(log, stopOnError) && NoSubmitAfterRaise(log)
    ensures forall i, j :: 0 <= i < j < |log| && log[j].Submit? ==> Undisturbed(log[i], stopOnError)
    ensures SawStop(log, stopOnError) ==> exists e :: e in log && !e.Raised? && !Undisturbed(e, stopOnError)
  {
    forall i, j | 0 <= i < j < |log| && log[j].Submit? ensures Undisturbed(log[i], stopOnError) {
      UndisturbedSoFar(log, stopOnError, i, j);
    }
    if e :| e in log && StopsSweep(e, stopOnError) { UndisturbedExactly(e, stopOnError); }
  }
}
