/**
 Merging two run-state databases: scripts/migrate/merge_run_state_dbs.py:268-453, over the keys that
 server/db/sqlite/schema.sql declares (experiments by id, runs by run id, runs and results belong to an
 experiment).

 The files' names, the table layouts and the backup manifest are checked elsewhere.  Rows are arbitrary
 values; the autoincremented result id is no part of a result.
 */
module RunStateMerge {
  import opened Collections
  import opened Listing

  type ExperimentId = nat
  type RunId = nat
  type Columns = nat

  datatype Experiment = Experiment(running: bool, columns: Columns)
  datatype Run = Run(experiment: ExperimentId, columns: Columns)
  datatype QueryResult = QueryResult(experiment: ExperimentId, run: RunId, columns: Columns)

  datatype Db = Db(experiments: map<ExperimentId, Experiment>, runs: map<RunId, Run>, results: seq<QueryResult>)

  /** The foreign keys hold. */
  ghost predicate Valid(db: Db)
  {
    && (forall r :: r in db.runs ==> db.runs[r].experiment in db.experiments)
    && (forall r :: r in db.results ==> r.experiment in db.experiments)
  }

  function RunsOf(db: Db, x: ExperimentId): map<RunId, Run>
  {
    map r | r in db.runs && db.runs[r].experiment == x :: db.runs[r]
  }

  function OfExperiment(x: ExperimentId): QueryResult -> bool { (r: QueryResult) => r.experiment == x }

  function ResultsOf(results: seq<QueryResult>, x: ExperimentId): seq<QueryResult> { Filter(results, OfExperiment(x)) }

  /** What the digest of an experiment covers: its row, its runs, and its results in no particular order. */
  datatype Content = Content(row: Option<Experiment>, runs: map<RunId, Run>, results: multiset<QueryResult>)

  function ContentOf(db: Db, x: ExperimentId): Content
  {
    var row := if x in db.experiments then Some(db.experiments[x]) else None;
    Content(row, RunsOf(db, x), multiset(ResultsOf(db.results, x)))
  }

  lemma {:induction false} ResultCount(results: seq<QueryResult>, x: ExperimentId, r: QueryResult)
    ensures multiset(ResultsOf(results, x))[r] == if r.experiment == x then multiset(results)[r] else 0
  {
    if results != [] {
      var front, last := results[..|results| - 1], results[|results| - 1];
      assert results == front + [last];
      ResultCount(front, x, r);
    }
  }

  /** Both databases tell the same of `x`: it is in both, with one row, or in neither; each has the runs of `x` that
      the other has, and each result of `x` as often. */
  ghost predicate SameOf(a: Db, b: Db, x: ExperimentId)
  {
    && (x in a.experiments <==> x in b.experiments)
    && (x in a.experiments && x in b.experiments ==> a.experiments[x] == b.experiments[x])
    && (forall r :: r in a.runs && a.runs[r].experiment == x ==> r in b.runs && b.runs[r] == a.runs[r])
    && (forall r :: r in b.runs && b.runs[r].experiment == x ==> r in a.runs && a.runs[r] == b.runs[r])
    && (forall r: QueryResult :: r.experiment == x ==> multiset(a.results)[r] == multiset(b.results)[r])
  }

  /** That is what equal digests say. */
  lemma SameContentExactly(a: Db, b: Db, x: ExperimentId)
    ensures ContentOf(a, x) == ContentOf(b, x) <==> SameOf(a, b, x)
  {
    forall r { ResultCount(a.results, x, r); }
    forall r { ResultCount(b.results, x, r); }
    SameRunsExactly(a, b, x);
    hide ResultsOf, RunsOf;
    if ContentOf(a, x) == ContentOf(b, x) {
      forall r: QueryResult | r.experiment == x ensures multiset(a.results)[r] == multiset(b.results)[r] {
        assert multiset(ResultsOf(a.results, x))[r] == multiset(ResultsOf(b.results, x))[r];
      }
    }
    if SameOf(a, b, x) {
      assert multiset(ResultsOf(a.results, x)) == multiset(ResultsOf(b.results, x));
    }
  }

  lemma SameRunsExactly(a: Db, b: Db, x: ExperimentId)
    ensures RunsOf(a, x) == RunsOf(b, x) <==>
              && (forall r :: r in a.runs && a.runs[r].experiment == x ==> r in b.runs && b.runs[r] == a.runs[r])
              && (forall r :: r in b.runs && b.runs[r].experiment == x ==> r in a.runs && a.runs[r] == b.runs[r])
  {
    if RunsOf(a, x) == RunsOf(b, x) {
      forall r | r in a.runs && a.runs[r].experiment == x ensures r in b.runs && b.runs[r] == a.runs[r] {
        assert r in RunsOf(b, x) && RunsOf(a, x)[r] == RunsOf(b, x)[r];
      }
      forall r | r in b.runs && b.runs[r].experiment == x ensures r in a.runs && a.runs[r] == b.runs[r] {
        assert r in RunsOf(a, x) && RunsOf(a, x)[r] == RunsOf(b, x)[r];
      }
    }
  }

  /** How many runs and results an experiment has. */
  datatype Counts = Counts(runs: nat, results: nat)

  function ChildCounts(db: Db, x: ExperimentId): Counts
  {
    Counts(|RunsOf(db, x)|, |ResultsOf(db.results, x)|)
  }

  function CountsFor(db: Db, ids: seq<ExperimentId>): map<ExperimentId, Counts>
  {
    map x | x in ids :: ChildCounts(db, x)
  }

  // ---- Ids in order -----------------------------------------------------------------------------------

  lemma {:induction false} HasLargest(s: set<nat>)
    requires s != {}
    ensures exists m :: m in s && forall y :: y in s ==> y <= m
    decreases |s|
  {
    var p :| p in s;
    if s != {p} {
      var others := s - {p};
      HasLargest(others);
      var m :| m in others && forall y :: y in others ==> y <= m;
      var largest := if m < p then p else m;
      assert largest in s && forall y :: y in s ==> y in others || y == p;
    }
  }

  function Largest(s: set<nat>): (m: nat)
    requires s != {}
    ensures m in s && forall y :: y in s ==> y <= m
  {
    HasLargest(s);
    var m :| m in s && forall y :: y in s ==> y <= m;
    m
  }

  /** The largest goes behind the others. */
  lemma LargestLast(others: seq<nat>, s: set<nat>, largest: nat)
    requires largest in s && forall y :: y in s ==> y <= largest
    requires forall y :: y in others <==> y in s - {largest}
    requires forall i, j :: 0 <= i < j < |others| ==> others[i] < others[j]
    ensures var ids := others + [largest];
            && (forall y :: y in ids <==> y in s) && forall i, j :: 0 <= i < j < |ids| ==> ids[i] < ids[j]
  {
    forall i | 0 <= i < |others| ensures others[i] < largest { assert others[i] in others; }
  }

  /** `ORDER BY experiment_id`. */
  function Ascending(s: set<nat>): (ids: seq<nat>)
    ensures forall y :: y in ids <==> y in s
    ensures forall i, j :: 0 <= i < j < |ids| ==> ids[i] < ids[j]
    ensures |ids| == |s|
    decreases |s|
  {
    if s == {} then []
    else
      var largest := Largest(s);
      var others := Ascending(s - {largest});
      LargestLast(others, s, largest);
      others + [largest]
  }

  function Ids(db: Db): seq<ExperimentId> { Ascending(db.experiments.Keys) }

  // ---- Planning ---------------------------------------------------------------------------------------

  datatype MergeError = RunningExperiments | Collision(x: ExperimentId) | RunIdTaken

  datatype Result<T> = Ok(value: T) | Err(error: MergeError)

  datatype Plan = Plan(toMove: seq<ExperimentId>, toSkip: seq<ExperimentId>)

  function PlanFor(base: Db, volume: Db, ids: seq<ExperimentId>): Result<Plan>
  {
    if ids == [] then Ok(Plan([], []))
    else
      var x := ids[|ids| - 1];
      match PlanFor(base, volume, ids[..|ids| - 1])
      case Err(e) => Err(e)
      case Ok(plan) =>
        if x !in base.experiments then Ok(plan.(toMove := plan.toMove + [x]))
        else if ContentOf(base, x) == ContentOf(volume, x) then Ok(plan.(toSkip := plan.toSkip + [x]))
        else Err(Collision(x))
  }

  lemma {:induction false} PlanErrStays(base: Db, volume: Db, ids: seq<ExperimentId>, n: nat)
    requires n <= |ids| && PlanFor(base, volume, ids[..n]).Err?
    ensures PlanFor(base, volume, ids) == PlanFor(base, volume, ids[..n])
    decreases |ids|
  {
    if n == |ids| {
      assert ids[..n] == ids;
    } else {
      assert ids[..|ids| - 1][..n] == ids[..n];
      PlanErrStays(base, volume, ids[..|ids| - 1], n);
    }
  }

  /** `_plan_moves`. */
  method PlanMoves(base: Db, volume: Db) returns (plan: Result<Plan>)
    ensures plan == PlanFor(base, volume, Ids(volume))
  {
    hide ContentOf, Ids;
    var ids := Ids(volume);
    var toMove: seq<ExperimentId>, toSkip: seq<ExperimentId> := [], [];
    for i := 0 to |ids|
      invariant PlanFor(base, volume, ids[..i]) == Ok(Plan(toMove, toSkip))
    {
      var x := ids[i];
      assert ids[..i + 1][..i] == ids[..i];
      if x !in base.experiments {
        toMove := toMove + [x];
        continue;
      }
      if ContentOf(base, x) == ContentOf(volume, x) {
        toSkip := toSkip + [x];
      } else {
        PlanErrStays(base, volume, ids, i + 1);
        return Err(Collision(x));
      }
    }
    assert ids[..|ids|] == ids;
    plan := Ok(Plan(toMove, toSkip));
  }

  /** `x` is in both databases with different content. */
  ghost predicate Collides(base: Db, volume: Db, x: ExperimentId)
  {
    x in base.experiments && x in volume.experiments && ContentOf(base, x) != ContentOf(volume, x)
  }

  /** A plan fails exactly on a collision; otherwise it moves what the base lacks and skips the rest. */
  lemma {:induction false} PlanSplits(base: Db, volume: Db, ids: seq<ExperimentId>)
    requires forall x :: x in ids ==> x in volume.experiments
    ensures PlanFor(base, volume, ids).Err? <==> exists x :: x in ids && Collides(base, volume, x)
    ensures PlanFor(base, volume, ids).Ok? ==>
              var plan := PlanFor(base, volume, ids).value;
              && (forall x :: x in plan.toMove <==> x in ids && x !in base.experiments)
              && (forall x :: x in plan.toSkip <==> x in ids && x in base.experiments)
  {
    hide ContentOf;
    if ids != [] {
      var front, x := ids[..|ids| - 1], ids[|ids| - 1];
      assert ids == front + [x];
      PlanSplits(base, volume, front);
      assert x in ids;
      if PlanFor(base, volume, front).Err? {
        var y :| y in front && Collides(base, volume, y);
        assert y in ids;
      } else if Collides(base, volume, x) {
        assert PlanFor(base, volume, ids).Err?;
      } else {
        assert forall y :: y in ids ==> !Collides(base, volume, y);
      }
    }
  }

  /** Ids in rising order, without repeats. */
  ghost predicate Rising(ids: seq<ExperimentId>)
  {
    forall i, j :: 0 <= i < j < |ids| ==> ids[i] < ids[j]
  }

  lemma RisingPush(ids: seq<ExperimentId>, x: ExperimentId)
    requires Rising(ids) && forall k :: 0 <= k < |ids| ==> ids[k] < x
    ensures Rising(ids + [x])
  {}

  lemma {:induction false} PlanAscends(base: Db, volume: Db, ids: seq<ExperimentId>)
    requires Rising(ids) && PlanFor(base, volume, ids).Ok? && forall x :: x in ids ==> x in volume.experiments
    ensures Rising(PlanFor(base, volume, ids).value.toMove) && Rising(PlanFor(base, volume, ids).value.toSkip)
  {
    if ids != [] {
      var front, x := ids[..|ids| - 1], ids[|ids| - 1];
      PlanAscends(base, volume, front);
      PlanSplits(base, volume, front);
      hide ContentOf, Rising;
      var plan := PlanFor(base, volume, front).value;
      RisingLast(ids);
      forall k | 0 <= k < |plan.toMove| ensures plan.toMove[k] < x { assert plan.toMove[k] in front; }
      forall k | 0 <= k < |plan.toSkip| ensures plan.toSkip[k] < x { assert plan.toSkip[k] in front; }
      RisingPush(plan.toMove, x);
      RisingPush(plan.toSkip, x);
    }
  }

  lemma RisingLast(ids: seq<ExperimentId>)
    requires Rising(ids) && ids != []
    ensures Rising(ids[..|ids| - 1]) && forall k :: 0 <= k < |ids| - 1 ==> ids[k] < ids[|ids| - 1]
  {}

  /** What a plan fails on is the first experiment that collides. */
  lemma {:induction false} FirstCollision(base: Db, volume: Db, ids: seq<ExperimentId>) returns (k: nat)
    requires PlanFor(base, volume, ids).Err? && forall x :: x in ids ==> x in volume.experiments
    ensures k < |ids| && PlanFor(base, volume, ids) == Err(Collision(ids[k])) && Collides(base, volume, ids[k])
    ensures forall j :: 0 <= j < k ==> !Collides(base, volume, ids[j])
  {
    hide ContentOf;
    var front := ids[..|ids| - 1];
    if PlanFor(base, volume, front).Err? {
      k := FirstCollision(base, volume, front);
    } else {
      k := |ids| - 1;
      PlanSplits(base, volume, front);
    }
  }

  // ---- Moving -----------------------------------------------------------------------------------------

  function Moved(db: Db, volume: Db, x: ExperimentId): Db
    requires x in volume.experiments
  {
    Db(db.experiments[x := volume.experiments[x]], db.runs + RunsOf(volume, x),
       db.results + ResultsOf(volume.results, x))
  }

  function MovedAll(db: Db, volume: Db, xs: seq<ExperimentId>): Db
    requires forall x :: x in xs ==> x in volume.experiments
  {
    if xs == [] then db else Moved(MovedAll(db, volume, xs[..|xs| - 1]), volume, xs[|xs| - 1])
  }

  /** The file the merge builds; inserts keep the primary keys unique. */
  class Database {
    var experiments: map<ExperimentId, Experiment>
    var runs: map<RunId, Run>
    var results: seq<QueryResult>

    function Now(): Db
      reads this
    {
      Db(experiments, runs, results)
    }

    /** A copy. */
    constructor (source: Db)
      ensures Now() == source
    {
      experiments, runs, results := source.experiments, source.runs, source.results;
    }

    /** The three `INSERT ... SELECT` statements for one experiment. */
    method InsertFrom(volume: Db, x: ExperimentId) returns (ok: bool)
      requires x in volume.experiments
      modifies this
      ensures ok <==> x !in old(experiments) && forall r :: r in RunsOf(volume, x) ==> r !in old(runs)
      ensures ok ==> Now() == Moved(old(Now()), volume, x)
    {
      if x in experiments {
        return false;
      }
      experiments := experiments[x := volume.experiments[x]];
      var selected := RunsOf(volume, x);
      if exists r :: r in selected && r in runs {
        return false;
      }
      runs := runs + selected;
      results := results + ResultsOf(volume.results, x);
      ok := true;
    }

    /** `_move_experiments`: one transaction. */
    method MoveExperiments(volume: Db, toMove: seq<ExperimentId>) returns (ok: bool)
      requires forall x :: x in toMove ==> x in volume.experiments
      requires forall i, j :: 0 <= i < j < |toMove| ==> toMove[i] != toMove[j]
      requires forall x :: x in toMove ==> x !in experiments
      modifies this
      ensures ok <==> NoRunTaken(old(Now()), volume, toMove)
      ensures ok ==> Now() == MovedAll(old(Now()), volume, toMove)
      ensures !ok ==> Now() == old(Now())
    {
      ghost var start := Now();
      var before := Db(experiments, runs, results);
      for i := 0 to |toMove|
        invariant Now() == MovedAll(start, volume, toMove[..i]) && NoRunTaken(start, volume, toMove[..i])
      {
        assert toMove[..i + 1][..i] == toMove[..i];
        MovedKeys(start, volume, toMove[..i]);
        TakenAlready(start, volume, toMove, i);
        var inserted := InsertFrom(volume, toMove[i]);
        if !inserted {
          experiments, runs, results := before.experiments, before.runs, before.results;
          return false;
        }
      }
      assert toMove[..|toMove|] == toMove;
      ok := true;
    }
  }

  /** No run of a moved experiment has its id taken in the base. */
  ghost predicate NoRunTaken(base: Db, volume: Db, xs: seq<ExperimentId>)
  {
    forall r :: r in volume.runs && volume.runs[r].experiment in xs ==> r !in base.runs
  }

  lemma {:induction false} MovedKeys(base: Db, volume: Db, xs: seq<ExperimentId>)
    requires forall x :: x in xs ==> x in volume.experiments
    ensures forall x :: x in MovedAll(base, volume, xs).experiments <==> x in base.experiments || x in xs
    ensures forall r :: r in MovedAll(base, volume, xs).runs <==>
              r in base.runs || (r in volume.runs && volume.runs[r].experiment in xs)
  {
    if xs != [] {
      MovedKeys(base, volume, xs[..|xs| - 1]);
      assert xs == xs[..|xs| - 1] + [xs[|xs| - 1]];
    }
  }

  lemma TakenAlready(base: Db, volume: Db, xs: seq<ExperimentId>, i: nat)
    requires i < |xs| && (forall x :: x in xs ==> x in volume.experiments) && forall j :: 0 <= j < i ==> xs[j] != xs[i]
    requires NoRunTaken(base, volume, xs[..i])
    ensures (forall r :: r in RunsOf(volume, xs[i]) ==> r !in MovedAll(base, volume, xs[..i]).runs) <==>
              NoRunTaken(base, volume, xs[..i + 1])
    ensures !NoRunTaken(base, volume, xs[..i + 1]) ==> !NoRunTaken(base, volume, xs)
  {
    MovedKeys(base, volume, xs[..i]);
    assert xs[..i + 1] == xs[..i] + [xs[i]];
    var moved := MovedAll(base, volume, xs[..i]).runs;
    if forall r :: r in RunsOf(volume, xs[i]) ==> r !in moved {
      forall r | r in volume.runs && volume.runs[r].experiment in xs[..i + 1] ensures r !in base.runs {
        if volume.runs[r].experiment == xs[i] { assert r in RunsOf(volume, xs[i]); }
      }
    } else {
      var r :| r in RunsOf(volume, xs[i]) && r in moved;
      assert volume.runs[r].experiment == xs[i] && xs[i] !in xs[..i];
      assert xs[i] in xs[..i + 1];
    }
  }

  // ---- What a move changes ----------------------------------------------------------------------------

  lemma {:induction false} ResultsOfOwn(results: seq<QueryResult>, x: ExperimentId, y: ExperimentId)
    ensures ResultsOf(ResultsOf(results, x), y) == if x == y then ResultsOf(results, x) else []
    ensures forall r :: r in ResultsOf(results, x) ==> r in results && r.experiment == x
  {
    if results != [] {
      var front, last := results[..|results| - 1], results[|results| - 1];
      assert results == front + [last];
      ResultsOfOwn(front, x, y);
      FilterAppend(ResultsOf(front, x), if last.experiment == x then [last] else [], OfExperiment(y));
      assert [last][..0] == [];
    }
  }

  lemma {:induction false} NoResults(results: seq<QueryResult>, x: ExperimentId)
    requires forall r :: r in results ==> r.experiment != x
    ensures ResultsOf(results, x) == []
  {
    if results != [] { NoResults(results[..|results| - 1], x); }
  }

  lemma MovedContent(db: Db, volume: Db, x: ExperimentId, y: ExperimentId)
    requires Valid(db) && x in volume.experiments && x !in db.experiments
    requires forall r :: r in RunsOf(volume, x) ==> r !in db.runs
    ensures ContentOf(Moved(db, volume, x), y) == if y == x then ContentOf(volume, x) else ContentOf(db, y)
  {
    var moved := Moved(db, volume, x);
    FilterAppend(db.results, ResultsOf(volume.results, x), OfExperiment(y));
    ResultsOfOwn(volume.results, x, y);
    assert RunsOf(moved, y) == if y == x then RunsOf(volume, x) else RunsOf(db, y);
    if y == x {
      NoResults(db.results, x);
      assert [] + ResultsOf(volume.results, x) == ResultsOf(volume.results, x);
    } else {
      assert ResultsOf(db.results, y) + [] == ResultsOf(db.results, y);
    }
  }

  lemma MovedValid(db: Db, volume: Db, x: ExperimentId)
    requires Valid(db) && x in volume.experiments
    ensures Valid(Moved(db, volume, x))
  {
    ResultsOfOwn(volume.results, x, x);
  }

  lemma {:induction false} MovedAllContent(base: Db, volume: Db, xs: seq<ExperimentId>, y: ExperimentId)
    requires Valid(base) && (forall x :: x in xs ==> x in volume.experiments && x !in base.experiments)
    requires forall i, j :: 0 <= i < j < |xs| ==> xs[i] != xs[j]
    requires NoRunTaken(base, volume, xs)
    ensures Valid(MovedAll(base, volume, xs))
    ensures ContentOf(MovedAll(base, volume, xs), y) == if y in xs then ContentOf(volume, y) else ContentOf(base, y)
  {
    hide ContentOf, Valid, Moved;
    if xs != [] {
      var n := |xs| - 1;
      var front := xs[..n];
      assert xs == front + [xs[n]];
      MovedAllContent(base, volume, front, y);
      MovedKeys(base, volume, front);
      var before := MovedAll(base, volume, front);
      TakenAlready(base, volume, xs, n);
      assert xs[..n + 1] == xs;
      MovedContent(before, volume, xs[n], y);
      MovedValid(before, volume, xs[n]);
    }
  }

  // ---- The merge --------------------------------------------------------------------------------------

  datatype Report = Report(hostExperiments: seq<ExperimentId>, moved: seq<ExperimentId>, skipped: seq<ExperimentId>,
                           total: nat, counts: map<ExperimentId, Counts>)

  predicate AnyRunning(db: Db) { exists x :: x in db.experiments && db.experiments[x].running }

  /** The checks before anything is written. */
  function Approved(host: Db, volume: Db): Result<Plan>
  {
    if AnyRunning(host) || AnyRunning(volume) then Err(RunningExperiments) else PlanFor(host, volume, Ids(volume))
  }

  /** What a dry run predicts. */
  function Predicted(host: Db, volume: Db, plan: Plan): Report
  {
    Report(Ids(host), plan.toMove, plan.toSkip, |Ids(host)| + |plan.toMove|,
           CountsFor(host, Ids(host)) + CountsFor(volume, plan.toMove))
  }

  /** What an executed merge reports of the file it built. */
  function Observed(host: Db, merged: Db, plan: Plan): Report
  {
    Report(Ids(host), plan.toMove, plan.toSkip, |merged.experiments|, CountsFor(merged, Ids(merged)))
  }

  lemma ApprovedMoves(host: Db, volume: Db)
    requires Approved(host, volume).Ok?
    ensures var plan := Approved(host, volume).value;
            && (forall x :: x in plan.toMove <==> x in volume.experiments && x !in host.experiments)
            && (forall x :: x in plan.toSkip <==> x in volume.experiments && x in host.experiments)
            && Rising(plan.toMove) && Rising(plan.toSkip)
            && (forall x :: x in host.experiments && x in volume.experiments ==>
                 ContentOf(host, x) == ContentOf(volume, x))
  {
    hide ContentOf;
    PlanSplits(host, volume, Ids(volume));
    PlanAscends(host, volume, Ids(volume));
    forall x | x in host.experiments && x in volume.experiments ensures ContentOf(host, x) == ContentOf(volume, x) {
      assert !Collides(host, volume, x);
    }
  }

  /** `merge_run_state`: the outcome, and the merged file if one is written.  The inputs are only read. */
  method MergeRunState(host: Db, volume: Db, dryRun: bool) returns (outcome: Result<Report>, file: Option<Db>)
    ensures dryRun ==> file == None
    ensures dryRun && Approved(host, volume).Ok? ==>
              outcome == Ok(Predicted(host, volume, Approved(host, volume).value))
    ensures dryRun && Approved(host, volume).Err? ==> outcome == Err(Approved(host, volume).error)
    ensures !dryRun ==> file.Some?
    ensures !dryRun && outcome.Err? ==> file == Some(host)
    ensures !dryRun ==>
              (outcome.Ok? <==>
                Approved(host, volume).Ok? && NoRunTaken(host, volume, Approved(host, volume).value.toMove))
    ensures !dryRun && outcome.Err? ==>
              outcome == Err(if Approved(host, volume).Err? then Approved(host, volume).error else RunIdTaken)
    ensures !dryRun && outcome.Ok? ==>
              var plan := Approved(host, volume).value;
              && (forall x :: x in plan.toMove ==> x in volume.experiments)
              && file == Some(MovedAll(host, volume, plan.toMove)) && outcome == Ok(Observed(host, file.value, plan))
  {
    hide PlanFor, ContentOf, ChildCounts, Ids, NoRunTaken, MovedAll;
    if dryRun {
      if AnyRunning(host) || AnyRunning(volume) {
        return Err(RunningExperiments), None;
      }
      var predicted := PlanMoves(host, volume);
      match predicted
      case Err(e) => return Err(e), None;
      case Ok(plan) => return Ok(Predicted(host, volume, plan)), None;
    }
    var merged := new Database(host);
    if AnyRunning(host) || AnyRunning(volume) {
      return Err(RunningExperiments), Some(Db(merged.experiments, merged.runs, merged.results));
    }
    var planned := PlanMoves(host, volume);
    if planned.Err? {
      return Err(planned.error), Some(Db(merged.experiments, merged.runs, merged.results));
    }
    var plan := planned.value;
    ApprovedMoves(host, volume);
    NothingMoved(host, volume);
    if plan.toMove != [] {
      var ok := merged.MoveExperiments(volume, plan.toMove);
      if !ok {
        return Err(RunIdTaken), Some(Db(merged.experiments, merged.runs, merged.results));
      }
    }
    var now := Db(merged.experiments, merged.runs, merged.results);
    outcome, file := Ok(Observed(host, now, plan)), Some(now);
  }

  lemma NothingMoved(host: Db, volume: Db)
    ensures MovedAll(host, volume, []) == host && NoRunTaken(host, volume, [])
  {}

  // ---- What a merge is for ------------------------------------------------------------------------------

  /** The merge of `volume` into `host` succeeded and left `merged`. */
  ghost predicate Merges(host: Db, volume: Db, merged: Db)
  {
    && Approved(host, volume).Ok?
    && NoRunTaken(host, volume, Approved(host, volume).value.toMove)
    && (forall x :: x in Approved(host, volume).value.toMove ==> x in volume.experiments)
    && merged == MovedAll(host, volume, Approved(host, volume).value.toMove)
  }

  lemma MergedContent(host: Db, volume: Db, merged: Db, x: ExperimentId)
    requires Valid(host) && Merges(host, volume, merged)
    ensures x in merged.experiments <==> x in host.experiments || x in volume.experiments
    ensures ContentOf(merged, x) ==
              if x in volume.experiments && x !in host.experiments then ContentOf(volume, x) else ContentOf(host, x)
    ensures x in host.experiments && x in volume.experiments ==> ContentOf(host, x) == ContentOf(volume, x)
    ensures Valid(merged)
  {
    hide Approved, ContentOf, Valid, NoRunTaken, MovedAll;
    var plan := Approved(host, volume).value;
    ApprovedMoves(host, volume);
    MovedKeys(host, volume, plan.toMove);
    MovedAllContent(host, volume, plan.toMove, x);
  }

  /** The experiment of the collision is in both, differs, and is the first that does. */
  ghost predicate RefusedFor(host: Db, volume: Db, error: MergeError)
  {
    && error.Collision? && error.x in host.experiments && error.x in volume.experiments
    && !SameOf(host, volume, error.x)
    && forall y :: y in host.experiments && y in volume.experiments && !SameOf(host, volume, y) ==> error.x <= y
  }

  lemma DiffersExactly(host: Db, volume: Db, x: ExperimentId)
    ensures Collides(host, volume, x) <==> x in host.experiments && x in volume.experiments && !SameOf(host, volume, x)
  {
    SameContentExactly(host, volume, x);
  }

  /** A merge is refused before anything is written exactly when an experiment is running, or one is in both
      databases and they do not tell the same of it; the first of those is what it is refused for. */
  lemma RefusedExactly(host: Db, volume: Db)
    ensures var running := (exists x :: x in host.experiments && host.experiments[x].running)
                           || exists x :: x in volume.experiments && volume.experiments[x].running;
            && (Approved(host, volume).Err? <==>
                  running || exists x :: x in host.experiments && x in volume.experiments && !SameOf(host, volume, x))
            && (running ==> Approved(host, volume) == Err(RunningExperiments))
            && (!running && Approved(host, volume).Err? ==> RefusedFor(host, volume, Approved(host, volume).error))
  {
    PlanSplits(host, volume, Ids(volume));
    IdsHold(volume);
    forall x { DiffersExactly(host, volume, x); }
    hide ContentOf, SameOf, Collides, PlanFor;
    if !AnyRunning(host) && !AnyRunning(volume) {
      if x :| x in host.experiments && x in volume.experiments && !SameOf(host, volume, x) {
        assert x in Ids(volume) && Collides(host, volume, x);
      }
      if PlanFor(host, volume, Ids(volume)).Err? { CollisionIsFirst(host, volume); }
    }
  }

  lemma CollisionIsFirst(host: Db, volume: Db)
    requires PlanFor(host, volume, Ids(volume)).Err?
    ensures RefusedFor(host, volume, PlanFor(host, volume, Ids(volume)).error)
  {
    hide ContentOf, SameOf, Collides, PlanFor, Ids;
    IdsHold(volume);
    var ids := Ids(volume);
    assert Rising(ids) by { IdsRise(volume); }
    var k := FirstCollision(host, volume, ids);
    forall x { DiffersExactly(host, volume, x); }
    forall y | y in host.experiments && y in volume.experiments && !SameOf(host, volume, y) ensures ids[k] <= y {
      var j :| 0 <= j < |ids| && ids[j] == y;
    }
  }

  lemma IdsRise(db: Db)
    ensures Rising(Ids(db))
  {}

  /** In the tables themselves: the merged file tells the same of each experiment as the databases it is in do. */
  lemma MergedTables(host: Db, volume: Db, merged: Db, x: ExperimentId)
    requires Valid(host) && Merges(host, volume, merged)
    ensures x in host.experiments ==> SameOf(merged, host, x)
    ensures x in volume.experiments ==> SameOf(merged, volume, x)
    ensures x in merged.experiments ==> x in host.experiments || x in volume.experiments
  {
    MergeKeepsBoth(host, volume, merged);
    SameContentExactly(merged, host, x);
    SameContentExactly(merged, volume, x);
    hide *;
  }

  /** It keeps every host experiment, gives every volume experiment its content, and has no others. */
  lemma MergeKeepsBoth(host: Db, volume: Db, merged: Db)
    requires Valid(host) && Merges(host, volume, merged)
    ensures merged.experiments.Keys == host.experiments.Keys + volume.experiments.Keys
    ensures forall x :: x in host.experiments ==> ContentOf(merged, x) == ContentOf(host, x)
    ensures forall x :: x in volume.experiments ==> ContentOf(merged, x) == ContentOf(volume, x)
    ensures Valid(merged)
  {
    hide Merges, ContentOf, Valid;
    forall x
      ensures x in merged.experiments <==> x in host.experiments || x in volume.experiments
      ensures x in host.experiments ==> ContentOf(merged, x) == ContentOf(host, x)
      ensures x in volume.experiments ==> ContentOf(merged, x) == ContentOf(volume, x)
    {
      MergedContent(host, volume, merged, x);
    }
    MergedContent(host, volume, merged, 0);
  }

  lemma CountsByContent(a: Db, b: Db, x: ExperimentId)
    requires ContentOf(a, x) == ContentOf(b, x)
    ensures ChildCounts(a, x) == ChildCounts(b, x)
  {
    assert |multiset(ResultsOf(a.results, x))| == |multiset(ResultsOf(b.results, x))|;
  }

  lemma CountsMatch(host: Db, volume: Db, merged: Db, plan: Plan)
    requires forall x :: x in merged.experiments <==> x in host.experiments || x in plan.toMove
    requires forall x :: x in plan.toMove ==> ChildCounts(merged, x) == ChildCounts(volume, x)
    requires forall x :: x in host.experiments && x !in plan.toMove ==> ChildCounts(merged, x) == ChildCounts(host, x)
    ensures Predicted(host, volume, plan).counts == Observed(host, merged, plan).counts
  {
    hide ChildCounts, Ids;
    IdsHold(host);
    IdsHold(merged);
    var a, b, c := CountsFor(host, Ids(host)), CountsFor(volume, plan.toMove), CountsFor(merged, Ids(merged));
    assert (a + b).Keys == c.Keys;
    assert a + b == c;
  }

  lemma SameChildren(host: Db, volume: Db, merged: Db, plan: Plan)
    requires forall x :: x in plan.toMove ==> ContentOf(merged, x) == ContentOf(volume, x)
    requires forall x :: x in host.experiments ==> ContentOf(merged, x) == ContentOf(host, x)
    requires forall x :: x in merged.experiments <==> x in host.experiments || x in plan.toMove
    ensures Predicted(host, volume, plan).counts == Observed(host, merged, plan).counts
  {
    hide ContentOf, ChildCounts, CountsFor, Ids;
    forall x | x in plan.toMove ensures ChildCounts(merged, x) == ChildCounts(volume, x) {
      CountsByContent(merged, volume, x);
    }
    forall x | x in host.experiments ensures ChildCounts(merged, x) == ChildCounts(host, x) {
      CountsByContent(merged, host, x);
    }
    CountsMatch(host, volume, merged, plan);
  }

  /** The dry run's report is the executed merge's report. */
  lemma DryRunPredicts(host: Db, volume: Db, merged: Db)
    requires Valid(host) && Merges(host, volume, merged)
    ensures Predicted(host, volume, Approved(host, volume).value) ==
              Observed(host, merged, Approved(host, volume).value)
  {
    MergedPlan(host, volume, merged);
    MergeKeepsBoth(host, volume, merged);
    hide *;
    var plan := Approved(host, volume).value;
    TotalCounts(host, merged, plan.toMove);
    SameChildren(host, volume, merged, plan);
    ReportsEqual(host, volume, merged, plan);
  }

  lemma ReportsEqual(host: Db, volume: Db, merged: Db, plan: Plan)
    requires Predicted(host, volume, plan).counts == Observed(host, merged, plan).counts
    requires |merged.experiments| == |host.experiments| + |plan.toMove|
    ensures Predicted(host, volume, plan) == Observed(host, merged, plan)
  {}

  lemma MergedPlan(host: Db, volume: Db, merged: Db)
    requires Merges(host, volume, merged)
    ensures Approved(host, volume).Ok?
    ensures var moves := Approved(host, volume).value.toMove;
            && (forall x :: x in moves <==> x in volume.experiments && x !in host.experiments)
            && (forall i, j :: 0 <= i < j < |moves| ==> moves[i] != moves[j])
  {
    ApprovedMoves(host, volume);
  }

  lemma TotalCounts(host: Db, merged: Db, moves: seq<ExperimentId>)
    requires forall x :: x in merged.experiments <==> x in host.experiments || x in moves
    requires forall x :: x in moves ==> x !in host.experiments
    requires forall i, j :: 0 <= i < j < |moves| ==> moves[i] != moves[j]
    ensures |merged.experiments| == |host.experiments| + |moves|
  {
    var s := set x | x in moves;
    DistinctSize(moves, s);
    assert merged.experiments.Keys == host.experiments.Keys + s;
  }

  /** The merged file holds as many experiments as there are ids in either database. */
  lemma MergeCountsTheUnion(host: Db, volume: Db, merged: Db)
    requires Valid(host) && Merges(host, volume, merged)
    ensures Observed(host, merged, Approved(host, volume).value).total ==
              |host.experiments.Keys + volume.experiments.Keys|
  {
    MergeKeepsBoth(host, volume, merged);
  }

  /** The first `n` results that are of `x`. */
  ghost function ResultsAt(results: seq<QueryResult>, n: nat, x: ExperimentId): set<nat>
    requires n <= |results|
  {
    set i: nat | i < n && results[i].experiment == x
  }

  lemma {:induction false} ResultsCounted(results: seq<QueryResult>, n: nat, x: ExperimentId)
    requires n <= |results|
    ensures |ResultsOf(results[..n], x)| == |ResultsAt(results, n, x)|
  {
    if n > 0 {
      ResultsCounted(results, n - 1, x);
      assert results[..n][..n - 1] == results[..n - 1];
      if results[n - 1].experiment == x {
        assert ResultsAt(results, n, x) == ResultsAt(results, n - 1, x) + {n - 1};
      } else {
        assert ResultsAt(results, n, x) == ResultsAt(results, n - 1, x);
      }
    }
  }

  lemma ChildrenCounted(db: Db, x: ExperimentId)
    ensures ChildCounts(db, x).runs == |set r | r in db.runs && db.runs[r].experiment == x|
    ensures ChildCounts(db, x).results == |ResultsAt(db.results, |db.results|, x)|
  {
    assert RunsOf(db, x).Keys == set r | r in db.runs && db.runs[r].experiment == x;
    ResultsCounted(db.results, |db.results|, x);
    assert db.results[..|db.results|] == db.results;
  }

  /** What a merge reports, of its own file: whose experiments it started from, which it moved and which it
      skipped, each in order of their ids, and the runs and results of every experiment. */
  lemma ReportTells(host: Db, volume: Db, merged: Db)
    requires Valid(host) && Merges(host, volume, merged)
    ensures var report := Observed(host, merged, Approved(host, volume).value);
            && Rising(report.hostExperiments) && Rising(report.moved) && Rising(report.skipped)
            && (forall x :: x in report.hostExperiments <==> x in host.experiments)
            && (forall x :: x in report.moved <==> x in volume.experiments && x !in host.experiments)
            && (forall x :: x in report.skipped <==> x in volume.experiments && x in host.experiments)
            && report.counts.Keys == host.experiments.Keys + volume.experiments.Keys
            && forall x :: x in report.counts ==>
                 && report.counts[x].runs == |set r | r in merged.runs && merged.runs[r].experiment == x|
                 && report.counts[x].results == |ResultsAt(merged.results, |merged.results|, x)|
  {
    MergedPlan(host, volume, merged);
    ApprovedMoves(host, volume);
    MergeKeepsBoth(host, volume, merged);
    forall x { ChildrenCounted(merged, x); }
    hide *;
    var plan := Approved(host, volume).value;
    ObservedTells(host, merged, plan);
  }

  lemma ObservedTells(host: Db, merged: Db, plan: Plan)
    ensures var report := Observed(host, merged, plan);
            && report.moved == plan.toMove && report.skipped == plan.toSkip
            && Rising(report.hostExperiments) && (forall x :: x in report.hostExperiments <==> x in host.experiments)
            && report.counts.Keys == merged.experiments.Keys
            && forall x :: x in report.counts ==> report.counts[x] == ChildCounts(merged, x)
  {
    IdsHold(host);
    IdsHold(merged);
    hide ChildCounts;
  }

  /** Merging the same volume again skips everything and changes nothing. */
  lemma MergingAgainSkipsAll(host: Db, volume: Db, merged: Db)
    requires Valid(host) && Merges(host, volume, merged)
    ensures Approved(merged, volume) == Ok(Plan([], Ids(volume)))
    ensures Merges(merged, volume, merged)
  {
    hide ContentOf, AnyRunning, PlanFor, Ids, MovedAll, NoRunTaken, Merges;
    MergeKeepsBoth(host, volume, merged);
    NoneRuns(host, volume, merged);
    IdsHold(volume);
    PlanSkips(merged, volume, Ids(volume));
    MergesItself(merged, volume);
  }

  lemma IdsHold(db: Db)
    ensures forall x :: x in Ids(db) <==> x in db.experiments
  {}

  lemma MergesItself(merged: Db, volume: Db)
    requires Approved(merged, volume) == Ok(Plan([], Ids(volume)))
    ensures Merges(merged, volume, merged)
  {}

  lemma NoneRuns(host: Db, volume: Db, merged: Db)
    requires Merges(host, volume, merged) && merged.experiments.Keys == host.experiments.Keys + volume.experiments.Keys
    requires forall x :: x in host.experiments ==> ContentOf(merged, x) == ContentOf(host, x)
    requires forall x :: x in volume.experiments ==> ContentOf(merged, x) == ContentOf(volume, x)
    ensures !AnyRunning(merged) && !AnyRunning(volume)
  {
    forall x | x in merged.experiments ensures !merged.experiments[x].running {
      if x in host.experiments { assert ContentOf(merged, x).row == ContentOf(host, x).row; }
      else { assert ContentOf(merged, x).row == ContentOf(volume, x).row; }
    }
  }

  lemma {:induction false} PlanSkips(base: Db, volume: Db, ids: seq<ExperimentId>)
    requires forall x :: x in ids ==> x in base.experiments && ContentOf(base, x) == ContentOf(volume, x)
    ensures PlanFor(base, volume, ids) == Ok(Plan([], ids))
  {
    hide ContentOf;
    if ids != [] {
      PlanSkips(base, volume, ids[..|ids| - 1]);
      assert ids == ids[..|ids| - 1] + [ids[|ids| - 1]];
    }
  }

  /** A run id of a new experiment that the host already uses passes every dry-run check, and only the
      executed merge finds it. */
  lemma DryRunCanMissATakenRunId() returns (host: Db, volume: Db)
    ensures Valid(host) && Valid(volume) && Approved(host, volume).Ok?
    ensures !NoRunTaken(host, volume, Approved(host, volume).value.toMove)
  {
    host, volume := OneRunIdTwice();
    hide *;
    DisjointApproved(host, volume);
    RunTaken(host, volume, Approved(host, volume).value.toMove, 5);
  }

  lemma OneRunIdTwice() returns (host: Db, volume: Db)
    ensures Valid(host) && Valid(volume) && !AnyRunning(host) && !AnyRunning(volume)
    ensures host.experiments.Keys !! volume.experiments.Keys
    ensures 5 in host.runs && 5 in volume.runs && volume.runs[5].experiment in volume.experiments
  {
    host := Db(map[1 := Experiment(false, 0)], map[5 := Run(1, 0)], []);
    volume := Db(map[2 := Experiment(false, 0)], map[5 := Run(2, 0)], []);
  }

  lemma RunTaken(base: Db, volume: Db, xs: seq<ExperimentId>, r: RunId)
    requires r in volume.runs && r in base.runs && volume.runs[r].experiment in xs
    ensures !NoRunTaken(base, volume, xs)
  {}

  lemma DisjointApproved(host: Db, volume: Db)
    requires !AnyRunning(host) && !AnyRunning(volume) && host.experiments.Keys !! volume.experiments.Keys
    ensures Approved(host, volume).Ok?
            && forall x :: x in volume.experiments ==> x in Approved(host, volume).value.toMove
  {
    hide PlanFor, Ids, ContentOf;
    IdsHold(volume);
    PlanSplits(host, volume, Ids(volume));
    assert !exists x :: x in Ids(volume) && Collides(host, volume, x);
  }
}
