/**
 An experiment over its first sweep and any number of resumes: server/core/pipeline/orchestrator.py:119-132,
 646-647, 848-860 with server/core/pipeline/signatures.py:57-60.

 A resume skips the combinations whose signature some completed row has.  Which of the pending runs a
 sweep gets to, and how they end, is arbitrary: any prefix, any closing phases.
 */
module SweepHistory {
  import opened Collections
  import opened SweepGrid
  import opened SweepRunner

  /** `_completed_param_signatures`. */
  function CompletedSignatures(rows: seq<Row>): set<Signature>
  {
    set r | r in rows && r.phase == Complete :: ParamsSignature(r.params)
  }

  /** One sweep, first or resumed. */
  ghost predicate Sweeps(grid: seq<RunParams>, before: seq<Row>, after: seq<Row>)
  {
    exists n :: Added(Pending(grid, CompletedSignatures(before)), before, after, n)
  }

  /** The rows after each sweep of a history. */
  ghost predicate History(grid: seq<RunParams>, run: seq<seq<Row>>)
  {
    && run != [] && run[0] == []
    && forall i, j :: 0 <= i && j == i + 1 && j < |run| ==> Sweeps(grid, run[i], run[j])
  }

  ghost predicate Reachable(grid: seq<RunParams>, rows: seq<Row>)
  {
    exists run :: History(grid, run) && run[|run| - 1] == rows
  }

  lemma HistoryStep(grid: seq<RunParams>, run: seq<seq<Row>>, after: seq<Row>)
    requires History(grid, run) && Sweeps(grid, run[|run| - 1], after)
    ensures Reachable(grid, after)
  {
    var longer := run + [after];
    assert longer[|longer| - 1] == after;
    assert History(grid, longer);
  }

  // ---- Pending runs -----------------------------------------------------------------------------------

  lemma {:induction false} PendingHolds(grid: seq<RunParams>, skip: set<Signature>, p: RunParams)
    ensures p in Pending(grid, skip) <==> p in grid && ParamsSignature(p) !in skip
  {
    if grid != [] {
      PendingHolds(grid[..|grid| - 1], skip, p);
      assert grid == grid[..|grid| - 1] + [grid[|grid| - 1]];
    }
  }

  /** A sweep goes through what is left of the grid in the grid's order. */
  lemma {:induction false} PendingInParts(before: seq<RunParams>, after: seq<RunParams>, skip: set<Signature>)
    ensures Pending(before + after, skip) == Pending(before, skip) + Pending(after, skip)
  {
    if after == [] {
      assert before + after == before;
    } else {
      var n := |after| - 1;
      PendingInParts(before, after[..n], skip);
      assert (before + after)[..|before + after| - 1] == before + after[..n];
    }
  }

  lemma {:induction false} PendingDistinct(grid: seq<RunParams>, skip: set<Signature>)
    requires SignaturesDistinct(grid)
    ensures SignaturesDistinct(Pending(grid, skip))
  {
    if grid != [] {
      var n := |grid| - 1;
      PendingDistinct(grid[..n], skip);
      var front := Pending(grid[..n], skip);
      forall i | 0 <= i < |front| ensures ParamsSignature(front[i]) != ParamsSignature(grid[n]) {
        PendingHolds(grid[..n], skip, front[i]);
        var k :| 0 <= k < n && grid[k] == front[i];
      }
    }
  }

  lemma {:induction false} PendingAll(grid: seq<RunParams>)
    ensures Pending(grid, {}) == grid
  {
    if grid != [] {
      PendingAll(grid[..|grid| - 1]);
      assert grid == grid[..|grid| - 1] + [grid[|grid| - 1]];
    }
  }

  // ---- What every history keeps -----------------------------------------------------------------------

  /** Rows are of the grid, and no two completed ones share a signature. */
  ghost predicate OncePerSignature(grid: seq<RunParams>, rows: seq<Row>)
  {
    && (forall r :: r in rows ==> r.params in grid)
    && forall i, j :: 0 <= i < j < |rows| && rows[i].phase == Complete && rows[j].phase == Complete
         ==> ParamsSignature(rows[i].params) != ParamsSignature(rows[j].params)
  }

  lemma AddedParams(pending: seq<RunParams>, before: seq<Row>, after: seq<Row>, n: nat, i: nat)
    requires Added(pending, before, after, n) && i < |after|
    ensures i < |before| ==> after[i] == before[i]
    ensures i >= |before| ==> after[i].params == pending[i - |before|]
  {}

  lemma SweepKeepsOnce(grid: seq<RunParams>, before: seq<Row>, after: seq<Row>)
    requires SignaturesDistinct(grid) && OncePerSignature(grid, before) && Sweeps(grid, before, after)
    ensures OncePerSignature(grid, after)
  {
    hide Added, Pending;
    var skip := CompletedSignatures(before);
    var pending, m := Pending(grid, skip), |before|;
    var n :| Added(pending, before, after, n);
    PendingDistinct(grid, skip);
    forall i | 0 <= i < |after|
      ensures after[i].params in grid && (i >= m ==> ParamsSignature(after[i].params) !in skip)
    {
      AddedParams(pending, before, after, n, i);
      PendingHolds(grid, skip, after[i].params);
      AddedSize(pending, before, after, n);
    }
    forall i, j | 0 <= i < j < |after| && after[i].phase == Complete && after[j].phase == Complete
      ensures ParamsSignature(after[i].params) != ParamsSignature(after[j].params)
    {
      AddedParams(pending, before, after, n, i);
      AddedParams(pending, before, after, n, j);
      AddedSize(pending, before, after, n);
      if i < m <= j {
        assert before[i] in before;
      }
    }
  }

  lemma AddedSize(pending: seq<RunParams>, before: seq<Row>, after: seq<Row>, n: nat)
    requires Added(pending, before, after, n)
    ensures |after| == |before| + n && n <= |pending|
  {}

  lemma {:induction false} HistoryKeepsOnce(grid: seq<RunParams>, run: seq<seq<Row>>, n: nat)
    requires SignaturesDistinct(grid) && History(grid, run) && n < |run|
    ensures OncePerSignature(grid, run[n])
  {
    if n > 0 {
      HistoryKeepsOnce(grid, run, n - 1);
      assert Sweeps(grid, run[n - 1], run[n]);
      SweepKeepsOnce(grid, run[n - 1], run[n]);
    }
  }

  /** The combination `p` has a completed row. */
  ghost predicate HasCompleted(rows: seq<Row>, p: RunParams)
  {
    exists r :: r in rows && r.phase == Complete && r.params == p
  }

  ghost predicate CompletedOnce(rows: seq<Row>)
  {
    forall i, j :: 0 <= i < j < |rows| && rows[i].phase == Complete && rows[j].phase == Complete ==>
      rows[i].params != rows[j].params
  }

  /** Whatever has no completed row yet is run by the next resume. */
  ghost predicate ResumeCovers(grid: seq<RunParams>, rows: seq<Row>)
  {
    forall p :: p in grid && !HasCompleted(rows, p) ==> p in Pending(grid, CompletedSignatures(rows))
  }

  lemma SameSignatureSameRun(grid: seq<RunParams>, p: RunParams, q: RunParams)
    requires SignaturesDistinct(grid) && p in grid && q in grid && ParamsSignature(p) == ParamsSignature(q)
    ensures p == q
  {}

  lemma OnceCovers(grid: seq<RunParams>, rows: seq<Row>)
    requires SignaturesDistinct(grid) && OncePerSignature(grid, rows)
    ensures CompletedOnce(rows) && ResumeCovers(grid, rows)
  {
    hide Pending;
    forall p | p in grid && !HasCompleted(rows, p) ensures p in Pending(grid, CompletedSignatures(rows)) {
      PendingHolds(grid, CompletedSignatures(rows), p);
      forall r | r in rows && ParamsSignature(r.params) == ParamsSignature(p) ensures r.params == p {
        SameSignatureSameRun(grid, r.params, p);
      }
    }
  }

  // ---- Resume is sound exactly when signatures are distinct -------------------------------------------

  /** In every history, no combination completes twice and a resume runs whatever is not completed. */
  ghost predicate ResumeIsSound(grid: seq<RunParams>)
  {
    forall rows :: Reachable(grid, rows) ==> CompletedOnce(rows) && ResumeCovers(grid, rows)
  }

  /** A first sweep over the first `n` runs that completes those in `done` and fails the others. */
  function FirstSweep(grid: seq<RunParams>, n: nat, done: set<nat>): seq<Row>
    requires n <= |grid|
  {
    seq(n, i requires 0 <= i < n => Row(grid[i], if i in done then Complete else Failed))
  }

  lemma FirstSweepReachable(grid: seq<RunParams>, n: nat, done: set<nat>)
    requires n <= |grid|
    ensures Reachable(grid, FirstSweep(grid, n, done))
  {
    var after := FirstSweep(grid, n, done);
    assert CompletedSignatures([]) == {};
    PendingAll(grid);
    assert Added(grid, [], after, n);
    assert History(grid, [[]]);
    HistoryStep(grid, [[]], after);
  }

  lemma TwinsBreakResume(grid: seq<RunParams>, i: nat, j: nat)
    requires i < j < |grid| && ParamsSignature(grid[i]) == ParamsSignature(grid[j])
    ensures !ResumeIsSound(grid)
  {
    hide Pending;
    var rows := if grid[i] == grid[j] then FirstSweep(grid, j + 1, {i, j}) else FirstSweep(grid, i + 1, {i});
    FirstSweepReachable(grid, if grid[i] == grid[j] then j + 1 else i + 1, if grid[i] == grid[j] then {i, j} else {i});
    assert rows[i] == Row(grid[i], Complete);
    if grid[i] == grid[j] {
      assert rows[j] == Row(grid[j], Complete) && !CompletedOnce(rows);
    } else {
      assert !HasCompleted(rows, grid[j]);
      assert rows[i] in rows && ParamsSignature(grid[j]) in CompletedSignatures(rows);
      PendingHolds(grid, CompletedSignatures(rows), grid[j]);
      assert !ResumeCovers(grid, rows);
    }
  }

  lemma ResumeIsSoundExactly(grid: seq<RunParams>)
    ensures ResumeIsSound(grid) <==> SignaturesDistinct(grid)
  {
    if SignaturesDistinct(grid) {
      forall rows | Reachable(grid, rows) ensures CompletedOnce(rows) && ResumeCovers(grid, rows) {
        var run :| History(grid, run) && run[|run| - 1] == rows;
        HistoryKeepsOnce(grid, run, |run| - 1);
        OnceCovers(grid, rows);
      }
    } else {
      var i, j :| 0 <= i < j < |grid| && ParamsSignature(grid[i]) == ParamsSignature(grid[j]);
      TwinsBreakResume(grid, i, j);
    }
  }

  /** In terms of the configuration: one padding, and nothing listed twice as far as signatures see. */
  lemma ResumeIsSoundForConfig(config: Config, providerOf: Name -> Provider)
    requires NonEmpty(config)
    ensures ResumeIsSound(Grid(config, providerOf)) <==> Resumable(config)
  {
    ResumeIsSoundExactly(Grid(config, providerOf));
    SignaturesDistinctExactly(config, providerOf);
  }

  // ---- When an experiment is complete ---------------------------------------------------------------

  lemma {:induction false} CountCompleted(rows: seq<Row>)
    requires forall i, j :: 0 <= i < j < |rows| && rows[i].phase == Complete && rows[j].phase == Complete
               ==> ParamsSignature(rows[i].params) != ParamsSignature(rows[j].params)
    ensures CountPhase(rows, Complete) == |CompletedSignatures(rows)|
  {
    if rows != [] {
      var front, last := rows[..|rows| - 1], rows[|rows| - 1];
      assert rows == front + [last];
      CountCompleted(front);
      if last.phase == Complete {
        assert CompletedSignatures(rows) == CompletedSignatures(front) + {ParamsSignature(last.params)};
        assert forall k :: 0 <= k < |front| ==> front[k] == rows[k];
        assert ParamsSignature(last.params) !in CompletedSignatures(front);
      } else {
        assert CompletedSignatures(rows) == CompletedSignatures(front);
      }
    }
  }

  function SignaturesOf(grid: seq<RunParams>): set<Signature>
  {
    set p | p in grid :: ParamsSignature(p)
  }

  lemma {:induction false} SignaturesOfSize(grid: seq<RunParams>)
    requires SignaturesDistinct(grid)
    ensures |SignaturesOf(grid)| == |grid|
  {
    if grid != [] {
      var n := |grid| - 1;
      assert grid == grid[..n] + [grid[n]];
      SignaturesOfSize(grid[..n]);
      assert SignaturesOf(grid) == SignaturesOf(grid[..n]) + {ParamsSignature(grid[n])};
      assert ParamsSignature(grid[n]) !in SignaturesOf(grid[..n]);
    }
  }

  lemma {:induction false} CountIsZero(rows: seq<Row>, phase: Phase)
    ensures CountPhase(rows, phase) == 0 <==> forall r :: r in rows ==> r.phase != phase
  {
    if rows != [] {
      var front, last := rows[..|rows| - 1], rows[|rows| - 1];
      assert rows == front + [last];
      CountIsZero(front, phase);
    }
  }

  /** The counts say COMPLETE exactly when every combination has a completed row and no row failed. */
  lemma CompleteExactly(grid: seq<RunParams>, rows: seq<Row>)
    requires SignaturesDistinct(grid) && Reachable(grid, rows)
    ensures StatusByCounts(rows, |grid|) == CompleteStatus <==>
              (forall p :: p in grid ==> HasCompleted(rows, p)) && (forall r :: r in rows ==> r.phase != Failed)
  {
    var run :| History(grid, run) && run[|run| - 1] == rows;
    HistoryKeepsOnce(grid, run, |run| - 1);
    CountCompleted(rows);
    SignaturesOfSize(grid);
    CountIsZero(rows, Failed);
    var done, all := CompletedSignatures(rows), SignaturesOf(grid);
    assert done <= all;
    if |done| == |all| {
      SubsetOfSameSize(done, all);
      forall p | p in grid ensures HasCompleted(rows, p) {
        assert ParamsSignature(p) in done;
        var r :| r in rows && r.phase == Complete && ParamsSignature(r.params) == ParamsSignature(p);
        SameSignatureSameRun(grid, r.params, p);
      }
    }
    if forall p :: p in grid ==> HasCompleted(rows, p) {
      forall s | s in all ensures s in done {
        var p :| p in grid && ParamsSignature(p) == s;
        assert HasCompleted(rows, p);
      }
      assert done == all;
    }
  }

  /** A sweep that ends with no cancel, pause or outage leaves the experiment COMPLETE exactly then. */
  lemma SweepEndsCompleteExactly(grid: seq<RunParams>, before: seq<Row>, stopOnError: bool, rows: seq<Row>,
                                 log: seq<Event>)
    requires SignaturesDistinct(grid) && Reachable(grid, before)
    requires Ran(Pending(grid, CompletedSignatures(before)), before, stopOnError, rows, log)
    requires !SawCancel(log) && !SawPause(log) && !SawOutage(log)
    ensures Verdict(log, rows, |grid|) == CompleteStatus <==>
              (forall p :: p in grid ==> HasCompleted(rows, p)) && (forall r :: r in rows ==> r.phase != Failed)
    ensures CompletedOnce(rows)
  {
    hide Ran, Added, Pending, Submitted, NoSubmitAfterStop, ReapedOnce, ClosedAsLogged;
    var n := FinishedSweep(Pending(grid, CompletedSignatures(before)), before, stopOnError, rows, log);
    assert Sweeps(grid, before, rows);
    var run :| History(grid, run) && run[|run| - 1] == before;
    HistoryStep(grid, run, rows);
    CompleteExactly(grid, rows);
    ResumeIsSoundExactly(grid);
  }

  // ---- Pausing and resuming to the end ----------------------------------------------------------------

  /** No run of the sweep failed, and the service did not go away. */
  ghost predicate NothingFailed(log: seq<Event>)
  {
    forall e :: e in log && e.Reap? ==> e.outcome != RunFailed && e.outcome != SieUnavailable
  }

  /** Such a sweep, however it was cancelled or paused, adds no failed row. */
  lemma NoFailedRowAdded(pending: seq<RunParams>, prior: seq<Row>, stopOnError: bool, rows: seq<Row>, log: seq<Event>)
    requires Ran(pending, prior, stopOnError, rows, log) && NothingFailed(log)
    ensures |prior| <= |rows| && forall k :: |prior| <= k < |rows| ==> rows[k].phase != Failed
  {
    hide Ran, Submitted, NoSubmitAfterStop, NoSubmitAfterRaise, ReapedOnce;
    var n := FinishedSweep(pending, prior, stopOnError, rows, log);
    forall k | |prior| <= k < |rows| ensures rows[k].phase != Failed {
      assert RowClosedAsLogged(log, rows, |prior|, k - |prior|);
    }
  }

  /** Every run the sweep started did all its work. */
  ghost predicate AllCompleted(log: seq<Event>)
  {
    forall e :: e in log && e.Reap? ==> e.outcome == Completed
  }

  lemma AllCompletedStopsNothing(log: seq<Event>, stopOnError: bool)
    requires AllCompleted(log) && !SawCancel(log) && !SawPause(log)
    ensures NothingFailed(log) && !SawOutage(log) && !SawStop(log, stopOnError)
  {}

  /** An experiment none of whose runs failed, however often it was paused and resumed, is COMPLETE once a
      sweep of it sees no signal and completes every run it starts. */
  lemma ResumedToTheEnd(grid: seq<RunParams>, before: seq<Row>, stopOnError: bool, rows: seq<Row>, log: seq<Event>)
    requires SignaturesDistinct(grid) && Reachable(grid, before) && forall r :: r in before ==> r.phase != Failed
    requires Ran(Pending(grid, CompletedSignatures(before)), before, stopOnError, rows, log)
    requires !SawCancel(log) && !SawPause(log) && AllCompleted(log)
    ensures Verdict(log, rows, |grid|) == CompleteStatus
  {
    var pending := Pending(grid, CompletedSignatures(before));
    hide Ran, Pending, Submitted, NoSubmitAfterStop, NoSubmitAfterRaise, ReapedOnce, Verdict;
    AllCompletedStopsNothing(log, stopOnError);
    hide SawCancel, SawPause, SawOutage, SawStop;
    var n := FinishedSweep(pending, before, stopOnError, rows, log);
    NoFailedRowAdded(pending, before, stopOnError, rows, log);
    forall r | r in rows ensures r.phase != Failed {
      var k :| 0 <= k < |rows| && rows[k] == r;
      if k < |before| { assert before[k] == rows[k]; }
    }
    forall p | p in grid ensures HasCompleted(rows, p) {
      if !HasCompleted(before, p) {
        CoveredByResume(grid, before, p);
        var i :| 0 <= i < |pending| && pending[i] == p;
        PendingCompleted(pending, before, rows, log, i);
      } else {
        var r :| r in before && r.phase == Complete && r.params == p;
        assert r in rows by { assert rows[..|before|] == before; }
      }
    }
    SweepEndsCompleteExactly(grid, before, stopOnError, rows, log);
  }

  lemma CoveredByResume(grid: seq<RunParams>, before: seq<Row>, p: RunParams)
    requires SignaturesDistinct(grid) && Reachable(grid, before) && p in grid && !HasCompleted(before, p)
    ensures p in Pending(grid, CompletedSignatures(before))
  {
    ResumeIsSoundExactly(grid);
    assert ResumeCovers(grid, before);
  }

  lemma PendingCompleted(pending: seq<RunParams>, before: seq<Row>, rows: seq<Row>, log: seq<Event>, i: nat)
    requires Added(pending, before, rows, |pending|) && i < |pending| && AllCompleted(log)
    requires RowClosedAsLogged(log, rows, |before|, i)
    ensures HasCompleted(rows, pending[i])
  {
    var r := rows[|before| + i];
    assert r in rows && r.phase == Complete && r.params == pending[i];
  }
}
