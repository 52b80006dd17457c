/**
 Cancel, pause and resume across sweeps: server/core/pipeline/experiment_control.py:24-66,
 server/core/pipeline/executors.py:24-48, server/core/pipeline/orchestrator.py:141-169, 626-642 and the
 handlers of server/api/experiments.py:375-511.

 Each handler is one step; one worker takes queued sweeps in order.  Which runs a sweep submits, when
 it sees a signal and what it finally writes are arbitrary within what SweepRunner proves of a sweep.
 Sweeps are numbered; a raised event remembers the sweep that was first in line for its experiment.
 */
module ExperimentControl {
  import opened Collections
  import opened SweepRunner
  import BayesianSearch

  type ExperimentId = nat
  type SweepId = nat

  // ---- The control table ------------------------------------------------------------------------------

  /** The two events of an experiment; a raised one names the sweep it was raised against. */
  datatype Events = Events(cancel: Option<SweepId>, pause: Option<SweepId>)

  type Table = map<ExperimentId, Events>

  function WithEntry(table: Table, x: ExperimentId): Table
  {
    if x in table then table else table[x := Events(None, None)]
  }

  function RaisedBy(event: Option<SweepId>, sweep: SweepId): Option<SweepId>
  {
    if event.Some? then event else Some(sweep)
  }

  function CancelRaised(table: Table, x: ExperimentId, sweep: SweepId): Table
  {
    if x in table then table[x := table[x].(cancel := RaisedBy(table[x].cancel, sweep))] else table
  }

  function PauseRaised(table: Table, x: ExperimentId, sweep: SweepId): Table
  {
    if x in table then table[x := table[x].(pause := RaisedBy(table[x].pause, sweep))] else table
  }

  /** `check_control`: no entry means nothing is signalled, and a cancel hides a pause. */
  function SignalTo(table: Table, x: ExperimentId): Signal
  {
    if x !in table then Proceed
    else if table[x].cancel.Some? then CancelSeen
    else if table[x].pause.Some? then PauseSeen
    else Proceed
  }

  /** `_sweep_controls` and the functions over it. */
  class SweepControls {
    var table: Table

    constructor ()
      ensures table == map[]
    {
      table := map[];
    }

    method Register(x: ExperimentId)
      modifies this
      ensures table == WithEntry(old(table), x)
    {
      if x !in table {
        table := table[x := Events(None, None)];
      }
    }

    method Unregister(x: ExperimentId)
      modifies this
      ensures table == old(table) - {x}
    {
      table := table - {x};
    }

    method RequestCancel(x: ExperimentId, sweep: SweepId) returns (signalled: bool)
      modifies this
      ensures table == CancelRaised(old(table), x, sweep) && signalled == (x in old(table))
    {
      if x !in table {
        return false;
      }
      table := table[x := table[x].(cancel := RaisedBy(table[x].cancel, sweep))];
      signalled := true;
    }

    method RequestPause(x: ExperimentId, sweep: SweepId) returns (signalled: bool)
      modifies this
      ensures table == PauseRaised(old(table), x, sweep) && signalled == (x in old(table))
    {
      if x !in table {
        return false;
      }
      table := table[x := table[x].(pause := RaisedBy(table[x].pause, sweep))];
      signalled := true;
    }

    method CheckControl(x: ExperimentId) returns (signal: Signal)
      ensures signal == SignalTo(table, x)
    {
      if x !in table {
        return Proceed;
      }
      signal := if table[x].cancel.Some? then CancelSeen else if table[x].pause.Some? then PauseSeen else Proceed;
    }
  }

  // ---- The protocol -----------------------------------------------------------------------------------

  datatype Task = Task(experiment: ExperimentId, sweep: SweepId)

  /** Where the worker is in a sweep: taken from the queue; its control registered; past the check of storage,
      which a Bayesian sweep does not make; past the start-up control check; and only its `finally` left. */
  datatype Worker =
    | Idle
    | Dequeued(task: Task)
    | Entered(task: Task)
    | NotCancelled(task: Task)
    | Sweeping(task: Task, sawCancel: bool, sawPause: bool)
    | Leaving(task: Task)

  /** A sweep saw an event that had been raised against `against`. */
  datatype Sighting = Sighting(seenBy: SweepId, against: SweepId)

  datatype World = World(table: Table, status: map<ExperimentId, Status>, queue: seq<Task>, worker: Worker,
                         next: SweepId, known: set<ExperimentId>, bayesian: set<ExperimentId>, runs: seq<Task>,
                         sightings: seq<Sighting>)

  datatype Action =
    | Create(x: ExperimentId, bayesian: bool)         // and schedule its sweep
    | CreateWaiting(x: ExperimentId, bayesian: bool)  // its sweep is scheduled later, by the batch watcher
    | Trigger(x: ExperimentId)
    | Cancel(x: ExperimentId)
    | Pause(x: ExperimentId)
    | Resume(x: ExperimentId)
    | Delete(x: ExperimentId)
    | Dequeue
    | Enter
    | CheckStorage
    | CheckStart
    | NewRun
    | SeeCancel
    | SeePause
    | Write(final: Status)
    | Raise                              // an exception ends the sweep and writes nothing
    | Leave

  function TaskOf(worker: Worker): seq<Task> { if worker.Idle? then [] else [worker.task] }

  /** The sweeps not finished yet, in the order the worker takes them. */
  function Unfinished(w: World): seq<Task> { TaskOf(w.worker) + w.queue }

  /** The number of the sweep first in line for `x`. */
  function FirstInLine(tasks: seq<Task>, x: ExperimentId): Option<SweepId>
  {
    if tasks == [] then None
    else if tasks[0].experiment == x then Some(tasks[0].sweep)
    else FirstInLine(tasks[1..], x)
  }

  function Against(w: World, x: ExperimentId): SweepId
  {
    var first := FirstInLine(Unfinished(w), x);
    if first.Some? then first.value else w.next
  }

  /** `schedule_sweep`. */
  function Scheduled(w: World, x: ExperimentId): World
  {
    w.(table := WithEntry(w.table, x), queue := w.queue + [Task(x, w.next)], next := w.next + 1)
  }

  function Created(w: World, x: ExperimentId, bayesian: bool): World
  {
    w.(status := w.status[x := RunningStatus], known := w.known + {x},
       bayesian := w.bayesian + if bayesian then {x} else {})
  }

  /** Storage would not keep a sweep of `x` from starting. */
  predicate Unstopped(w: World, x: ExperimentId) { x in w.bayesian || !HasStatus(w, x, CancelledStatus) }

  predicate HasStatus(w: World, x: ExperimentId, s: Status) { x in w.status && w.status[x] == s }

  /** What a sweep may finally write, given what it saw; a Bayesian one without a run calls itself cancelled. */
  predicate MayWrite(worker: Worker, final: Status, bayesian: bool)
    requires worker.Sweeping?
  {
    if worker.sawCancel then final == CancelledStatus
    else if worker.sawPause then final == PausedStatus
    else final in {CompleteStatus, PartialStatus, FailedStatus} || (bayesian && final == CancelledStatus)
  }

  predicate Enabled(w: World, a: Action)
  {
    match a
    case Create(x, _) => x !in w.known
    case CreateWaiting(x, _) => x !in w.known
    case Trigger(x) => x in w.status
    case Cancel(x) => HasStatus(w, x, RunningStatus)
    case Pause(x) => HasStatus(w, x, RunningStatus)
    case Resume(x) => HasStatus(w, x, PausedStatus) && x !in w.bayesian
    case Delete(x) => x in w.status && w.status[x] != RunningStatus
    case Dequeue => w.worker.Idle? && w.queue != []
    case Enter => w.worker.Dequeued?
    case CheckStorage => w.worker.Entered?
    case CheckStart => w.worker.NotCancelled?
    case NewRun =>
      && w.worker.Sweeping? && !w.worker.sawCancel && !w.worker.sawPause
      && SignalTo(w.table, w.worker.task.experiment) == Proceed
    case SeeCancel =>
      && w.worker.Sweeping? && w.worker.task.experiment in w.table
      && w.table[w.worker.task.experiment].cancel.Some?
    case SeePause =>
      && w.worker.Sweeping? && w.worker.task.experiment in w.table
      && w.table[w.worker.task.experiment].pause.Some?
    case Write(final) => w.worker.Sweeping? && MayWrite(w.worker, final, w.worker.task.experiment in w.bayesian)
    case Raise => w.worker.Entered? || w.worker.NotCancelled? || w.worker.Sweeping?
    case Leave => w.worker.Leaving?
  }

  /** `UPDATE`: nothing happens to an experiment that is gone. */
  function Updated(w: World, x: ExperimentId, s: Status): map<ExperimentId, Status>
  {
    if x in w.status then w.status[x := s] else w.status
  }

  function Apply(w: World, a: Action): World
    requires Enabled(w, a)
  {
    match a
    case Create(x, bayesian) => Scheduled(Created(w, x, bayesian), x)
    case CreateWaiting(x, bayesian) => Created(w, x, bayesian)
    case Trigger(x) => Scheduled(w, x)
    case Cancel(x) => w.(table := CancelRaised(w.table, x, Against(w, x)), status := w.status[x := CancelledStatus])
    case Pause(x) =>
      if x in w.table then w.(table := PauseRaised(w.table, x, Against(w, x)))
      else w.(status := w.status[x := PausedStatus])
    case Resume(x) => Scheduled(w.(status := w.status[x := RunningStatus]), x)
    case Delete(x) => w.(status := w.status - {x})
    case Dequeue => w.(queue := w.queue[1..], worker := Dequeued(w.queue[0]))
    case Enter => w.(table := WithEntry(w.table, w.worker.task.experiment), worker := Entered(w.worker.task))
    case CheckStorage =>
      var goesOn := Unstopped(w, w.worker.task.experiment);
      w.(worker := if goesOn then NotCancelled(w.worker.task) else Leaving(w.worker.task))
    case CheckStart => CheckedStart(w)
    case NewRun => w.(runs := w.runs + [w.worker.task])
    case SeeCancel =>
      w.(worker := w.worker.(sawCancel := true),
         sightings := w.sightings + [Sighting(w.worker.task.sweep, w.table[w.worker.task.experiment].cancel.value)])
    case SeePause =>
      w.(worker := w.worker.(sawPause := true),
         sightings := w.sightings + [Sighting(w.worker.task.sweep, w.table[w.worker.task.experiment].pause.value)])
    case Write(final) => w.(status := Updated(w, w.worker.task.experiment, final), worker := Leaving(w.worker.task))
    case Raise => w.(worker := Leaving(w.worker.task))
    case Leave => w.(table := w.table - {w.worker.task.experiment}, worker := Idle)
  }

  /** A cancel before the start skips the sweep; a pause escapes as an exception.  Neither is written. */
  function CheckedStart(w: World): World
    requires w.worker.NotCancelled?
  {
    var x := w.worker.task.experiment;
    match SignalTo(w.table, x)
    case Proceed => w.(worker := Sweeping(w.worker.task, false, false))
    case CancelSeen =>
      w.(worker := Leaving(w.worker.task),
         sightings := w.sightings + [Sighting(w.worker.task.sweep, w.table[x].cancel.value)])
    case PauseSeen =>
      w.(worker := Leaving(w.worker.task),
         sightings := w.sightings + [Sighting(w.worker.task.sweep, w.table[x].pause.value)])
  }

  const START := World(map[], map[], [], Idle, 0, {}, {}, [], [])

  ghost predicate Next(w: World, a: Action, w': World) { Enabled(w, a) && w' == Apply(w, a) }

  /** `path` follows `actions`. */
  ghost predicate Follows(path: seq<World>, actions: seq<Action>)
  {
    |path| == |actions| + 1 && forall i, j :: 0 <= i && j == i + 1 && j < |path| ==> Next(path[i], actions[i], path[j])
  }

  ghost predicate Reachable(w: World)
  {
    exists path, actions :: Follows(path, actions) && path[0] == START && path[|path| - 1] == w
  }

  // ---- What every step keeps --------------------------------------------------------------------------

  predicate InBody(worker: Worker) { worker.Entered? || worker.NotCancelled? || worker.Sweeping? || worker.Leaving? }

  ghost predicate EntryThroughout(w: World)
  {
    InBody(w.worker) ==> w.worker.task.experiment in w.table
  }

  /** An entry is for a sweep still to finish, and its raised events are against the first in line. */
  ghost predicate Blamed(w: World)
  {
    forall x :: x in w.table ==> BlamedFor(w.table[x], FirstInLine(Unfinished(w), x))
  }

  ghost predicate BlamedFor(events: Events, first: Option<SweepId>)
  {
    first.Some? && (events.cancel.Some? ==> events.cancel == first) && (events.pause.Some? ==> events.pause == first)
  }

  ghost predicate OwnSightings(w: World)
  {
    forall i :: 0 <= i < |w.sightings| ==> w.sightings[i].against == w.sightings[i].seenBy
  }

  /** Sweeps are numbered in the order they were scheduled. */
  ghost predicate Numbered(w: World) { Increasing(Unfinished(w), w.next) }

  ghost predicate Increasing(tasks: seq<Task>, next: SweepId)
  {
    && (forall i :: 0 <= i < |tasks| ==> tasks[i].sweep < next)
    && (forall i, j :: 0 <= i < j < |tasks| ==> tasks[i].sweep < tasks[j].sweep)
  }

  lemma IncreasingTail(tasks: seq<Task>, t: Task, next: SweepId)
    requires Increasing([t] + tasks, next)
    ensures Increasing(tasks, next)
  {
    assert forall i :: 0 <= i < |tasks| ==> tasks[i] == ([t] + tasks)[i + 1];
  }

  ghost predicate Inv(w: World)
  {
    EntryThroughout(w) && Blamed(w) && OwnSightings(w) && Numbered(w) && w.status.Keys <= w.known
  }

  lemma {:induction false} FirstInLineAppend(tasks: seq<Task>, t: Task, x: ExperimentId)
    ensures FirstInLine(tasks + [t], x) ==
            if FirstInLine(tasks, x).Some? then FirstInLine(tasks, x)
            else if t.experiment == x then Some(t.sweep) else None
  {
    if tasks == [] {
      assert tasks + [t] == [t];
    } else {
      assert (tasks + [t])[1..] == tasks[1..] + [t];
      FirstInLineAppend(tasks[1..], t, x);
    }
  }

  /** The sweep that a step adds to the queue. */
  function Arriving(w: World, a: Action): seq<Task>
  {
    match a
    case Create(x, _) => [Task(x, w.next)]
    case Trigger(x) => [Task(x, w.next)]
    case Resume(x) => [Task(x, w.next)]
    case _ => []
  }

  /** Sweeps arrive at the end of the line and leave it at the front. */
  lemma UnfinishedAfter(w: World, a: Action)
    requires Enabled(w, a)
    ensures Arriving(w, a) != [] ==> Unfinished(Apply(w, a)) == Unfinished(w) + Arriving(w, a)
    ensures Arriving(w, a) == [] && a != Leave ==> Unfinished(Apply(w, a)) == Unfinished(w)
    ensures a == Leave ==> Unfinished(w) == [w.worker.task] + Unfinished(Apply(w, a))
  {
    match a {
      case Dequeue => assert w.queue == [w.queue[0]] + w.queue[1..];
      case Create(_, _) =>
      case Trigger(_) =>
      case Resume(_) =>
      case Leave =>
      case _ =>
    }
  }

  lemma StepKeepsEntry(w: World, a: Action)
    requires Inv(w) && Enabled(w, a)
    ensures EntryThroughout(Apply(w, a))
  {
    hide Blamed, Numbered, OwnSightings;
  }

  lemma StepKeepsNumbers(w: World, a: Action)
    requires Numbered(w) && Enabled(w, a)
    ensures Numbered(Apply(w, a))
  {
    UnfinishedAfter(w, a);
    hide Unfinished;
    if a == Leave {
      IncreasingTail(Unfinished(Apply(w, a)), w.worker.task, w.next);
    }
  }

  lemma StepKeepsBlame(w: World, a: Action, x: ExperimentId)
    requires Inv(w) && Enabled(w, a) && x in Apply(w, a).table
    ensures BlamedFor(Apply(w, a).table[x], FirstInLine(Unfinished(Apply(w, a)), x))
  {
    UnfinishedAfter(w, a);
    hide Unfinished, Numbered, OwnSightings;
    match a {
      case Create(y, _) => FirstInLineAppend(Unfinished(w), Task(y, w.next), x);
      case Trigger(y) => FirstInLineAppend(Unfinished(w), Task(y, w.next), x);
      case Resume(y) => FirstInLineAppend(Unfinished(w), Task(y, w.next), x);
      case Leave => assert Unfinished(w)[1..] == Unfinished(Apply(w, a));
      case Enter => WorkerFirst(w);
      case _ =>
    }
  }

  lemma WorkerFirst(w: World)
    requires !w.worker.Idle?
    ensures FirstInLine(Unfinished(w), w.worker.task.experiment) == Some(w.worker.task.sweep)
  {
    assert Unfinished(w)[0] == w.worker.task;
  }

  lemma StepKeepsSightings(w: World, a: Action)
    requires Inv(w) && Enabled(w, a)
    ensures OwnSightings(Apply(w, a))
  {
    if !w.worker.Idle? { WorkerFirst(w); }
    hide Unfinished, FirstInLine, Numbered;
  }

  lemma StepKeepsInv(w: World, a: Action)
    requires Inv(w) && Enabled(w, a)
    ensures Inv(Apply(w, a))
  {
    hide Numbered, OwnSightings, EntryThroughout, BlamedFor, Unfinished;
    StepKeepsEntry(w, a);
    StepKeepsNumbers(w, a);
    StepKeepsSightings(w, a);
    forall x | x in Apply(w, a).table ensures BlamedFor(Apply(w, a).table[x], FirstInLine(Unfinished(Apply(w, a)), x)) {
      StepKeepsBlame(w, a, x);
    }
  }

  lemma {:induction false} PathKeepsInv(path: seq<World>, actions: seq<Action>, n: nat)
    requires Follows(path, actions) && Inv(path[0]) && n < |path|
    ensures Inv(path[n])
  {
    if n > 0 {
      PathKeepsInv(path, actions, n - 1);
      assert Next(path[n - 1], actions[n - 1], path[n]);
      StepKeepsInv(path[n - 1], actions[n - 1]);
    }
  }

  lemma ReachableInv(w: World)
    requires Reachable(w)
    ensures Inv(w)
  {
    var path, actions :| Follows(path, actions) && path[0] == START && path[|path| - 1] == w;
    PathKeepsInv(path, actions, |path| - 1);
  }

  // ---- What becomes of an experiment's status -----------------------------------------------------------

  /** Only an experiment that is not RUNNING is deleted.  Besides by a sweep's final write, a status changes only by
      a cancel or a pause of a RUNNING experiment, the pause only where nothing is there to be signalled, or by
      resuming a PAUSED grid sweep. */
  lemma StatusChanges(w: World, a: Action, x: ExperimentId)
    requires Reachable(w) && Enabled(w, a) && x in w.status
    ensures var w' := Apply(w, a);
            && (x !in w'.status ==> a == Delete(x) && w.status[x] != RunningStatus)
            && (x in w'.status && w'.status[x] != w.status[x] ==>
                 || (a == Cancel(x) && w.status[x] == RunningStatus && w'.status[x] == CancelledStatus)
                 || (a == Pause(x) && w.status[x] == RunningStatus && w'.status[x] == PausedStatus && x !in w.table)
                 || (a == Resume(x) && w.status[x] == PausedStatus && w'.status[x] == RunningStatus
                     && x !in w.bayesian)
                 || (a.Write? && w.worker.Sweeping? && w.worker.task.experiment == x && w'.status[x] == a.final))
  {
    ReachableInv(w);
    hide Unfinished, FirstInLine, Blamed, Numbered;
  }

  // ---- What the control table is for ------------------------------------------------------------------

  /** A control entry exists throughout every sweep body. */
  lemma EntryExistsInBody(w: World)
    requires Reachable(w) && !w.worker.Idle? && !w.worker.Dequeued?
    ensures w.worker.task.experiment in w.table
  {
    ReachableInv(w);
  }

  /** A sweep only ever sees events raised while it was itself first in line: nothing raised against one
      sweep of an experiment is seen by a later one. */
  lemma EventsStayWithTheirSweep(w: World, i: nat)
    requires Reachable(w) && i < |w.sightings|
    ensures w.sightings[i].seenBy == w.sightings[i].against
  {
    ReachableInv(w);
  }

  // ---- Where a cancel can lead -------------------------------------------------------------------------

  /** `later` can come of `w` by steps that are not `barred`. */
  ghost predicate Reaches(w: World, later: World, barred: set<Action>)
  {
    exists path, actions ::
      Follows(path, actions) && path[0] == w && path[|path| - 1] == later && Avoids(actions, barred)
  }

  ghost predicate Avoids(actions: seq<Action>, barred: set<Action>) { forall a :: a in actions ==> a !in barred }

  ghost predicate NoNewRuns(w: World, later: World, x: ExperimentId)
  {
    |w.runs| <= |later.runs| && forall i :: |w.runs| <= i < |later.runs| ==> later.runs[i].experiment != x
  }

  /** Whatever happens from here, short of the `barred` steps, no run is created for `x`. */
  ghost predicate NeverRuns(w: World, x: ExperimentId, barred: set<Action>)
  {
    forall later :: Reaches(w, later, barred) ==> NoNewRuns(w, later, x)
  }

  lemma RunsGrow(w: World, a: Action)
    requires Enabled(w, a)
    ensures |w.runs| <= |Apply(w, a).runs| && Apply(w, a).runs[..|w.runs|] == w.runs
  {}

  lemma ReachesSelf(w: World, barred: set<Action>)
    ensures Reaches(w, w, barred)
  {
    assert Follows([w], []);
  }

  lemma ReachStep(w: World, now: World, a: Action, barred: set<Action>)
    requires Reaches(w, now, barred) && Enabled(now, a) && a !in barred
    ensures Reaches(w, Apply(now, a), barred)
  {
    var path, actions :| Follows(path, actions) && path[0] == w && path[|path| - 1] == now && Avoids(actions, barred);
    var longer, more := path + [Apply(now, a)], actions + [a];
    forall i, j | 0 <= i && j == i + 1 && j < |longer| ensures Next(longer[i], more[i], longer[j]) {
      if j < |path| { assert Next(path[i], actions[i], path[j]); }
    }
    assert Follows(longer, more) && longer[0] == w && longer[|longer| - 1] == Apply(now, a);
    assert forall b :: b in more ==> b in actions || b == a;
  }

  predicate Queued(w: World, x: ExperimentId) { exists t :: t in w.queue && t.experiment == x }

  predicate OnWorker(w: World, x: ExperimentId) { !w.worker.Idle? && w.worker.task.experiment == x }

  /** Steps of users and of the batch watcher that may be barred; the worker is never held up. */
  predicate UsersOnly(barred: set<Action>) { forall a :: a in barred ==> a.Trigger? || a.Delete? }

  /** The worker at `now` can finish with its sweep before anything else happens. */
  lemma {:induction false} ClearWorker(w: World, now: World, barred: set<Action>) returns (later: World)
    requires Reaches(w, now, barred) && UsersOnly(barred)
    ensures Reaches(w, later, barred) && later.worker == Idle
    ensures later.queue == now.queue && later.runs == now.runs
    ensures later.status == now.status && later.bayesian == now.bayesian
    ensures later.table == if now.worker.Idle? then now.table else now.table - {now.worker.task.experiment}
    decreases if now.worker.Dequeued? then 2 else if InBody(now.worker) && !now.worker.Leaving? then 1 else 0
  {
    hide Reaches;
    var a := if now.worker.Dequeued? then Enter else if now.worker.Leaving? then Leave else Raise;
    if now.worker.Idle? {
      later := now;
    } else {
      ReachStep(w, now, a, barred);
      later := Apply(now, a);
      if a != Leave { later := ClearWorker(w, later, barred); }
    }
  }

  /** The worker takes the first sweep of the queue and gets rid of it. */
  lemma PassOver(w: World, now: World, barred: set<Action>) returns (later: World)
    requires Reaches(w, now, barred) && UsersOnly(barred) && now.worker.Idle? && now.queue != []
    ensures Reaches(w, later, barred) && later.worker == Idle && later.queue == now.queue[1..]
    ensures later.table == now.table - {now.queue[0].experiment} && later.runs == now.runs
    ensures later.status == now.status && later.bayesian == now.bayesian
  {
    hide Reaches;
    ReachStep(w, now, Dequeue, barred);
    later := ClearWorker(w, Apply(now, Dequeue), barred);
  }

  /** A queued sweep that storage does not stop can create a run. */
  lemma {:induction false} QueuedSweepCanRun(w: World, now: World, x: ExperimentId, barred: set<Action>)
    returns (later: World)
    requires Reaches(w, now, barred) && UsersOnly(barred) && now.worker.Idle? && Queued(now, x)
    requires Unstopped(now, x) && SignalTo(now.table, x) == Proceed
    ensures Reaches(w, later, barred) && |later.runs| == |now.runs| + 1 && later.runs[|now.runs|].experiment == x
    decreases |now.queue|
  {
    hide Reaches;
    if now.queue[0].experiment != x {
      later := PassOver(w, now, barred);
      var t :| t in now.queue && t.experiment == x;
      assert t in later.queue by { assert now.queue == [now.queue[0]] + now.queue[1..]; }
      later := QueuedSweepCanRun(w, later, x, barred);
    } else {
      ReachStep(w, now, Dequeue, barred);
      later := Apply(now, Dequeue);
      ReachStep(w, later, Enter, barred);
      later := Apply(later, Enter);
      ReachStep(w, later, CheckStorage, barred);
      later := Apply(later, CheckStorage);
      ReachStep(w, later, CheckStart, barred);
      later := Apply(later, CheckStart);
      ReachStep(w, later, NewRun, barred);
      later := Apply(later, NewRun);
    }
  }

  // ---- When a cancel sticks, short of a delete ------------------------------------------------------------

  /** The cancel is in storage, where `x`'s sweeps look, and a sweep of `x` already past the storage check has
      its event raised or has seen it. */
  ghost predicate CancelHolds(w: World, x: ExperimentId)
  {
    && x in w.known && x !in w.bayesian && HasStatus(w, x, CancelledStatus)
    && (w.worker.NotCancelled? && w.worker.task.experiment == x ==> SignalTo(w.table, x) == CancelSeen)
    && (w.worker.Sweeping? && w.worker.task.experiment == x ==> w.worker.sawCancel)
  }

  lemma StepKeepsCancel(w: World, a: Action, x: ExperimentId)
    requires Inv(w) && CancelHolds(w, x) && Enabled(w, a) && a != Delete(x)
    ensures CancelHolds(Apply(w, a), x) && NoNewRuns(w, Apply(w, a), x)
  {
    hide Blamed, Numbered, OwnSightings, Unfinished, FirstInLine;
  }

  lemma {:induction false} PathKeepsCancel(path: seq<World>, actions: seq<Action>, n: nat, x: ExperimentId)
    requires Follows(path, actions) && Delete(x) !in actions && n < |path| && Inv(path[0]) && CancelHolds(path[0], x)
    ensures CancelHolds(path[n], x) && NoNewRuns(path[0], path[n], x)
  {
    if n > 0 {
      hide Inv, CancelHolds;
      PathKeepsCancel(path, actions, n - 1, x);
      PathKeepsInv(path, actions, n - 1);
      assert Next(path[n - 1], actions[n - 1], path[n]);
      StepKeepsCancel(path[n - 1], actions[n - 1], x);
      RunsGrow(path[n - 1], actions[n - 1]);
    }
  }

  lemma CancelHeld(w: World, x: ExperimentId, barred: set<Action>)
    requires Inv(w) && CancelHolds(w, x) && Delete(x) in barred
    ensures NeverRuns(w, x, barred)
  {
    forall later | Reaches(w, later, barred) ensures NoNewRuns(w, later, x) {
      var path, actions :|
        Follows(path, actions) && path[0] == w && path[|path| - 1] == later && Avoids(actions, barred);
      PathKeepsCancel(path, actions, |path| - 1, x);
    }
  }

  /** A sweep of `x` is past its start, has not seen a cancel and has not made its final write. */
  predicate WillStillWrite(w: World, x: ExperimentId)
  {
    w.worker.Sweeping? && w.worker.task.experiment == x && !w.worker.sawCancel
  }

  lemma LateWriteRevives(w: World, x: ExperimentId, barred: set<Action>)
    requires Inv(w) && HasStatus(w, x, CancelledStatus) && WillStillWrite(w, x) && Queued(w, x) && UsersOnly(barred)
    ensures !NeverRuns(w, x, barred)
  {
    ReachesSelf(w, barred);
    hide Reaches, Blamed, Numbered, OwnSightings;
    var final := if w.worker.sawPause then PausedStatus else PartialStatus;
    ReachStep(w, w, Write(final), barred);
    var left := ClearWorker(w, Apply(w, Write(final)), barred);
    assert left.queue == w.queue;
    var later := QueuedSweepCanRun(w, left, x, barred);
    assert !NoNewRuns(w, later, x);
  }

  /** Where a grid sweep's `x` is not deleted, a cancel handled while a sweep of `x` is queued keeps every
      further run from being created exactly when no sweep of `x` is under way that may yet make its final
      write without having seen a cancel, whether or not sweeps of `x` are still triggered. */
  lemma CancelSticksShortOfDelete(w: World, x: ExperimentId, barred: set<Action>)
    requires Reachable(w) && HasStatus(w, x, RunningStatus) && Queued(w, x)
    requires x !in w.bayesian && Delete(x) in barred && UsersOnly(barred)
    ensures NeverRuns(Apply(w, Cancel(x)), x, barred) <==> !WillStillWrite(w, x)
  {
    hide NeverRuns, Queued, UsersOnly;
    ReachableInv(w);
    StepKeepsInv(w, Cancel(x));
    var w' := Apply(w, Cancel(x));
    SameQueue(w, x);
    if WillStillWrite(w, x) {
      LateWriteRevives(w', x, barred);
    } else {
      CancelHeld(w', x, barred);
    }
  }

  lemma SameQueue(w: World, x: ExperimentId)
    requires HasStatus(w, x, RunningStatus) && Queued(w, x)
    ensures Queued(Apply(w, Cancel(x)), x)
  {}

  // ---- When a cancel sticks, deletes included ---------------------------------------------------------------

  predicate AtMostOneQueued(queue: seq<Task>, x: ExperimentId)
  {
    forall i, j :: 0 <= i < j < |queue| ==> queue[i].experiment != x || queue[j].experiment != x
  }

  /** `x` was cancelled, and at most one sweep of it is left, whose start will see the raised event. */
  ghost predicate Disarmed(w: World, x: ExperimentId)
  {
    && x in w.known && (x in w.status ==> w.status[x] == CancelledStatus)
    && AtMostOneQueued(w.queue, x) && (OnWorker(w, x) ==> !w.worker.Sweeping? && !Queued(w, x))
    && (Queued(w, x) || (OnWorker(w, x) && !w.worker.Leaving?) ==> x in w.table && w.table[x].cancel.Some?)
  }

  lemma StepKeepsDisarmed(w: World, a: Action, x: ExperimentId)
    requires Disarmed(w, x) && Enabled(w, a) && a != Trigger(x)
    ensures Disarmed(Apply(w, a), x) && NoNewRuns(w, Apply(w, a), x)
  {
    hide Unfinished, FirstInLine;
  }

  lemma {:induction false} PathKeepsDisarmed(path: seq<World>, actions: seq<Action>, n: nat, x: ExperimentId)
    requires Follows(path, actions) && Trigger(x) !in actions && n < |path| && Disarmed(path[0], x)
    ensures Disarmed(path[n], x) && NoNewRuns(path[0], path[n], x)
  {
    if n > 0 {
      hide Disarmed;
      PathKeepsDisarmed(path, actions, n - 1, x);
      assert Next(path[n - 1], actions[n - 1], path[n]);
      StepKeepsDisarmed(path[n - 1], actions[n - 1], x);
      RunsGrow(path[n - 1], actions[n - 1]);
    }
  }

  /** One sweep of `x` is queued, none is under way, and its control entry is there. */
  predicate OneSignalled(w: World, x: ExperimentId)
  {
    !OnWorker(w, x) && x in w.table && AtMostOneQueued(w.queue, x)
  }

  lemma DisarmedStays(w: World, x: ExperimentId, barred: set<Action>)
    requires Disarmed(w, x) && Trigger(x) in barred
    ensures NeverRuns(w, x, barred)
  {
    forall later | Reaches(w, later, barred) ensures NoNewRuns(w, later, x) {
      var path, actions :|
        Follows(path, actions) && path[0] == w && path[|path| - 1] == later && Avoids(actions, barred);
      PathKeepsDisarmed(path, actions, |path| - 1, x);
    }
  }

  /** With `x` not stopped by storage, its entry gone and a sweep queued, that sweep runs. */
  lemma GoneIsRun(w: World, now: World, x: ExperimentId, barred: set<Action>)
    requires Reaches(w, now, barred) && UsersOnly(barred) && now.runs == w.runs
    requires Unstopped(now, x) && Queued(now, x) && (OnWorker(now, x) || x !in now.table)
    ensures !NeverRuns(w, x, barred)
  {
    hide Reaches;
    var left := ClearWorker(w, now, barred);
    var later := QueuedSweepCanRun(w, left, x, barred);
    assert !NoNewRuns(w, later, x);
  }

  /** With two sweeps queued the first takes the entry with it, for the second to run. */
  lemma {:induction false} SecondIsRun(w: World, now: World, x: ExperimentId, barred: set<Action>)
    requires Reaches(w, now, barred) && UsersOnly(barred) && now.runs == w.runs
    requires Unstopped(now, x) && !AtMostOneQueued(now.queue, x) && now.worker.Idle?
    ensures !NeverRuns(w, x, barred)
    decreases |now.queue|
  {
    hide Reaches;
    var later := PassOver(w, now, barred);
    var i, j :| 0 <= i < j < |now.queue| && now.queue[i].experiment == x && now.queue[j].experiment == x;
    assert later.queue[j - 1] == now.queue[j];
    if now.queue[0].experiment == x {
      assert later.queue[j - 1] in later.queue;
      GoneIsRun(w, later, x, barred);
    } else {
      assert later.queue[i - 1] == now.queue[i];
      SecondIsRun(w, later, x, barred);
    }
  }

  /** Storage keeps telling the sweeps of `x` that it is cancelled: they look there, and it is not deleted. */
  predicate Guarded(w: World, x: ExperimentId, barred: set<Action>) { x !in w.bayesian && Delete(x) in barred }

  /** Otherwise a grid sweep's `x` is deleted, and a Bayesian one does not look. */
  lemma GetPastStorage(w: World, now: World, x: ExperimentId, barred: set<Action>) returns (later: World)
    requires Reaches(w, now, barred) && HasStatus(now, x, CancelledStatus) && !Guarded(now, x, barred)
    ensures Reaches(w, later, barred) && Unstopped(later, x)
    ensures later == now.(status := later.status)
  {
    if x in now.bayesian {
      later := now;
    } else {
      ReachStep(w, now, Delete(x), barred);
      later := Apply(now, Delete(x));
    }
  }

  /** A cancelled experiment that storage does not guard runs unless its one queued sweep is signalled. */
  lemma UnguardedIsRun(w: World, x: ExperimentId, barred: set<Action>)
    requires HasStatus(w, x, CancelledStatus) && Queued(w, x) && !OneSignalled(w, x)
    requires UsersOnly(barred) && !Guarded(w, x, barred)
    ensures !NeverRuns(w, x, barred)
  {
    ReachesSelf(w, barred);
    var now := GetPastStorage(w, w, x, barred);
    hide Reaches;
    if OnWorker(w, x) || x !in w.table {
      GoneIsRun(w, now, x, barred);
    } else {
      var left := ClearWorker(w, now, barred);
      SecondIsRun(w, left, x, barred);
    }
  }

  lemma CancelDisarms(w: World, x: ExperimentId)
    requires x in w.known && HasStatus(w, x, RunningStatus) && OneSignalled(w, x)
    ensures Disarmed(Apply(w, Cancel(x)), x)
  {}

  lemma CancelKeepsQueue(w: World, x: ExperimentId)
    requires HasStatus(w, x, RunningStatus)
    ensures var w' := Apply(w, Cancel(x));
            HasStatus(w', x, CancelledStatus) && (OneSignalled(w', x) <==> OneSignalled(w, x))
  {}

  lemma Known(w: World, x: ExperimentId)
    requires Inv(w) && x in w.status
    ensures x in w.known
  {}

  /** Where sweeps can be triggered and storage does not guard `x`, no cancel sticks: of two sweeps
      triggered after it, the second runs. */
  lemma TriggersUndoIt(w: World, x: ExperimentId, barred: set<Action>)
    requires HasStatus(w, x, CancelledStatus) && UsersOnly(barred)
    requires Trigger(x) !in barred && !Guarded(w, x, barred)
    ensures !NeverRuns(w, x, barred)
  {
    ReachesSelf(w, barred);
    ReachStep(w, w, Trigger(x), barred);
    hide Reaches;
    var now := Apply(w, Trigger(x));
    ReachStep(w, now, Trigger(x), barred);
    now := Apply(now, Trigger(x));
    var n := |w.queue|;
    assert now.queue[n].experiment == x && now.queue[n + 1].experiment == x;
    now := GetPastStorage(w, now, x, barred);
    var left := ClearWorker(w, now, barred);
    SecondIsRun(w, left, x, barred);
  }

  lemma SignalledStays(w: World, x: ExperimentId, barred: set<Action>)
    requires Reachable(w) && HasStatus(w, x, RunningStatus) && OneSignalled(w, x) && Trigger(x) in barred
    ensures NeverRuns(Apply(w, Cancel(x)), x, barred)
  {
    ReachableInv(w);
    Known(w, x);
    CancelDisarms(w, x);
    DisarmedStays(Apply(w, Cancel(x)), x, barred);
  }

  /** A cancel handled while a sweep of `x` is queued keeps every further run from being created, in all
      continuations without the `barred` triggers and deletes: where storage guards `x`, exactly when no
      sweep of it is yet to make a final write without having seen a cancel; where it does not, exactly
      when no sweep can be triggered, the queued one is its only one and its control entry is there. */
  lemma CancelOfQueuedSticksExactly(w: World, x: ExperimentId, barred: set<Action>)
    requires Reachable(w) && HasStatus(w, x, RunningStatus) && Queued(w, x) && UsersOnly(barred)
    ensures NeverRuns(Apply(w, Cancel(x)), x, barred) <==>
              if Guarded(w, x, barred) then !WillStillWrite(w, x) else Trigger(x) in barred && OneSignalled(w, x)
  {
    hide NeverRuns, Queued, Disarmed, UsersOnly, Reachable;
    if Guarded(w, x, barred) {
      CancelSticksShortOfDelete(w, x, barred);
    } else {
      SameQueue(w, x);
      CancelKeepsQueue(w, x);
      if Trigger(x) !in barred {
        TriggersUndoIt(Apply(w, Cancel(x)), x, barred);
      } else if OneSignalled(w, x) {
        SignalledStays(w, x, barred);
      } else {
        UnguardedIsRun(Apply(w, Cancel(x)), x, barred);
      }
    }
  }

  // ---- A signalled sweep stops ----------------------------------------------------------------------------

  lemma {:induction false} FirstInLineIs(tasks: seq<Task>, x: ExperimentId, s: SweepId)
    ensures FirstInLine(tasks, x) == Some(s) <==>
              exists i ::
                0 <= i < |tasks| && tasks[i] == Task(x, s) && forall j :: 0 <= j < i ==> tasks[j].experiment != x
  {
    if tasks != [] && tasks[0].experiment != x {
      FirstInLineIs(tasks[1..], x, s);
      if i :| 0 <= i < |tasks| && tasks[i] == Task(x, s) && forall j :: 0 <= j < i ==> tasks[j].experiment != x {
        assert tasks[1..][i - 1] == Task(x, s) && forall j :: 0 <= j < i - 1 ==> tasks[1..][j].experiment != x;
      }
      if i :| 0 <= i < |tasks[1..]| && tasks[1..][i] == Task(x, s)
              && forall j :: 0 <= j < i ==> tasks[1..][j].experiment != x {
        assert tasks[i + 1] == Task(x, s);
        forall j | 0 <= j < i + 1 ensures tasks[j].experiment != x {
          if j > 0 { assert tasks[1..][j - 1] == tasks[j]; }
        }
      }
    }
  }

  /** Sweep `s` is over, or it is the first of `x` in line and is signalled. */
  ghost predicate Held(w: World, x: ExperimentId, s: SweepId)
  {
    && s < w.next
    && forall t :: t in Unfinished(w) && t.sweep == s ==>
         t.experiment == x && FirstInLine(Unfinished(w), x) == Some(s) && SignalTo(w.table, x) != Proceed
  }

  ghost predicate NoRunsOf(w: World, later: World, s: SweepId)
  {
    |w.runs| <= |later.runs| && forall i :: |w.runs| <= i < |later.runs| ==> later.runs[i].sweep != s
  }

  /** A raised event stays raised until the sweep's `finally`. */
  lemma StepKeepsSignal(w: World, a: Action, x: ExperimentId)
    requires Enabled(w, a) && SignalTo(w.table, x) != Proceed && (a == Leave ==> w.worker.task.experiment != x)
    ensures SignalTo(Apply(w, a).table, x) != Proceed && w.next <= Apply(w, a).next
  {
    hide Unfinished, FirstInLine;
  }

  lemma StepKeepsHeld(w: World, a: Action, x: ExperimentId, s: SweepId)
    requires Inv(w) && Held(w, x, s) && Enabled(w, a)
    ensures Held(Apply(w, a), x, s)
  {
    var w' := Apply(w, a);
    var tasks, after := Unfinished(w), Unfinished(w');
    UnfinishedAfter(w, a);
    NextGrows(w, a);
    hide Unfinished, Blamed, OwnSightings, Apply, Enabled, SignalTo;
    forall t | t in after && t.sweep == s
      ensures t.experiment == x && FirstInLine(after, x) == Some(s) && SignalTo(w'.table, x) != Proceed
    {
      if a == Leave {
        var first := w.worker.task;
        assert tasks[0] == first && tasks[1..] == after && t in tasks;
        var k :| 0 <= k < |after| && after[k] == t;
        assert tasks[k + 1] == t;
        StepKeepsSignal(w, a, x);
      } else {
        assert t in tasks by {
          if Arriving(w, a) != [] { assert t in tasks + Arriving(w, a); }
        }
        StepKeepsSignal(w, a, x);
        if Arriving(w, a) != [] { FirstInLineAppend(tasks, Arriving(w, a)[0], x); }
      }
    }
  }

  lemma NextGrows(w: World, a: Action)
    requires Enabled(w, a)
    ensures w.next <= Apply(w, a).next
    ensures forall t :: t in Arriving(w, a) ==> t.sweep == w.next
  {
    hide Unfinished, FirstInLine;
  }

  lemma HeldRunsNothing(w: World, a: Action, x: ExperimentId, s: SweepId)
    requires Held(w, x, s) && Enabled(w, a)
    ensures NoRunsOf(w, Apply(w, a), s)
  {
    if a == NewRun { assert Unfinished(w)[0] == w.worker.task; }
    hide Unfinished, FirstInLine;
  }

  lemma {:induction false} PathKeepsHeld(path: seq<World>, actions: seq<Action>, n: nat, x: ExperimentId, s: SweepId)
    requires Follows(path, actions) && n < |path| && Inv(path[0]) && Held(path[0], x, s)
    ensures Held(path[n], x, s) && NoRunsOf(path[0], path[n], s)
  {
    if n > 0 {
      hide Inv, Held;
      PathKeepsHeld(path, actions, n - 1, x, s);
      PathKeepsInv(path, actions, n - 1);
      assert Next(path[n - 1], actions[n - 1], path[n]);
      StepKeepsHeld(path[n - 1], actions[n - 1], x, s);
      HeldRunsNothing(path[n - 1], actions[n - 1], x, s);
      RunsGrow(path[n - 1], actions[n - 1]);
    }
  }

  lemma SignalHolds(w: World, a: Action, x: ExperimentId, s: SweepId)
    requires Inv(w) && Enabled(w, a) && (a == Cancel(x) || a == Pause(x)) && x in w.table
    requires FirstInLine(Unfinished(w), x) == Some(s)
    ensures Held(Apply(w, a), x, s)
  {
    var tasks := Unfinished(w);
    FirstInLineIs(tasks, x, s);
    UnfinishedAfter(w, a);
    hide Unfinished, Blamed, OwnSightings;
    forall t | t in tasks && t.sweep == s ensures t.experiment == x {
      var k :| 0 <= k < |tasks| && tasks[k] == t;
    }
  }

  /** A cancel or a pause that finds a control entry stops the first unfinished sweep of its experiment: whatever
      happens then, that sweep creates no further run, in storage or out of it, resumed or not. */
  lemma SignalledSweepStops(w: World, a: Action, x: ExperimentId, i: nat)
    requires Reachable(w) && Enabled(w, a) && (a == Cancel(x) || a == Pause(x)) && x in w.table
    requires i < |Unfinished(w)| && Unfinished(w)[i].experiment == x
    requires forall j :: 0 <= j < i ==> Unfinished(w)[j].experiment != x
    ensures forall later :: Reaches(Apply(w, a), later, {}) ==> NoRunsOf(Apply(w, a), later, Unfinished(w)[i].sweep)
  {
    var s, w' := Unfinished(w)[i].sweep, Apply(w, a);
    ReachableInv(w);
    FirstInLineIs(Unfinished(w), x, s);
    SignalHolds(w, a, x, s);
    StepKeepsInv(w, a);
    hide Inv, Held, Apply, Unfinished;
    forall later | Reaches(w', later, {}) ensures NoRunsOf(w', later, s) {
      var path, actions :| Follows(path, actions) && path[0] == w' && path[|path| - 1] == later && Avoids(actions, {});
      PathKeepsHeld(path, actions, |path| - 1, x, s);
    }
  }

  // ---- When a pause takes hold ------------------------------------------------------------------------------

  /** `x` is not paused, and a sweep of it that is under way will not say so. */
  ghost predicate PauseLost(w: World, x: ExperimentId)
  {
    && x in w.known && !HasStatus(w, x, PausedStatus)
    && (w.worker.Sweeping? && w.worker.task.experiment == x ==>
          w.worker.sawCancel || (!w.worker.sawPause && (x in w.table ==> w.table[x].pause.None?)))
  }

  lemma StepKeepsLost(w: World, a: Action, x: ExperimentId)
    requires PauseLost(w, x) && Enabled(w, a) && a != Pause(x)
    ensures PauseLost(Apply(w, a), x)
  {
    hide Unfinished, FirstInLine;
  }

  lemma {:induction false} PathKeepsLost(path: seq<World>, actions: seq<Action>, n: nat, x: ExperimentId)
    requires Follows(path, actions) && Pause(x) !in actions && n < |path| && PauseLost(path[0], x)
    ensures PauseLost(path[n], x)
  {
    if n > 0 {
      hide PauseLost;
      PathKeepsLost(path, actions, n - 1, x);
      assert Next(path[n - 1], actions[n - 1], path[n]);
      StepKeepsLost(path[n - 1], actions[n - 1], x);
    }
  }

  /** `x` may yet be marked paused without another pause. */
  ghost predicate MayBePaused(w: World, x: ExperimentId, barred: set<Action>)
  {
    exists later :: Reaches(w, later, barred) && HasStatus(later, x, PausedStatus)
  }

  /** A pause can make the experiment PAUSED exactly when it finds no control entry, or a sweep of it is past its
      start and has seen no cancel.  Otherwise the sweep it was meant for is skipped, nothing is written, and the
      experiment stays as it is until somebody cancels or pauses it again. */
  lemma PauseTakesHoldExactly(w: World, x: ExperimentId, barred: set<Action>)
    requires Reachable(w) && HasStatus(w, x, RunningStatus)
    requires Pause(x) in barred && forall a :: a in barred ==> a.Pause? || a.Trigger? || a.Delete?
    ensures MayBePaused(Apply(w, Pause(x)), x, barred) <==>
              x !in w.table || (w.worker.Sweeping? && w.worker.task.experiment == x && !w.worker.sawCancel)
  {
    var w' := Apply(w, Pause(x));
    ReachableInv(w);
    ReachesSelf(w', barred);
    hide Reaches, Inv, Reachable;
    if x !in w.table {
      assert HasStatus(w', x, PausedStatus);
    } else if w.worker.Sweeping? && w.worker.task.experiment == x && !w.worker.sawCancel {
      ReachStep(w', w', SeePause, barred);
      var seen := Apply(w', SeePause);
      ReachStep(w', seen, Write(PausedStatus), barred);
      assert HasStatus(Apply(seen, Write(PausedStatus)), x, PausedStatus);
    } else {
      Known(w, x);
      assert PauseLost(w', x);
      forall later | Reaches(w', later, barred) ensures !HasStatus(later, x, PausedStatus) {
        LostReached(w', later, x, barred);
      }
    }
  }

  lemma LostReached(w: World, later: World, x: ExperimentId, barred: set<Action>)
    requires PauseLost(w, x) && Pause(x) in barred && Reaches(w, later, barred)
    ensures PauseLost(later, x)
  {
    var path, actions :| Follows(path, actions) && path[0] == w && path[|path| - 1] == later && Avoids(actions, barred);
    PathKeepsLost(path, actions, |path| - 1, x);
  }

  /** A resumed experiment is swept again, if nothing stops the worker from getting to it. */
  lemma ResumedExperimentCanRun(w: World, x: ExperimentId, barred: set<Action>)
    requires Reachable(w) && HasStatus(w, x, PausedStatus) && x !in w.bayesian && UsersOnly(barred)
    ensures HasStatus(Apply(w, Resume(x)), x, RunningStatus) && !NeverRuns(Apply(w, Resume(x)), x, barred)
  {
    ReachableInv(w);
    var w' := Apply(w, Resume(x));
    ReachesSelf(w', barred);
    var n := |w.queue|;
    assert w'.queue[n] == Task(x, w.next) && w'.queue[n] in w'.queue;
    hide Reaches, NeverRuns;
    if OnWorker(w', x) {
      GoneIsRun(w', w', x, barred);
    } else {
      var left := ClearWorker(w', w', barred);
      if SignalTo(w'.table, x) == Proceed {
        var later := QueuedSweepCanRun(w', left, x, barred);
        NotNever(w', later, x, barred);
      } else {
        QueuedToo(w, x);
        var k :| 0 <= k < n && w.queue[k].experiment == x;
        assert left.queue[k].experiment == x && left.queue[n].experiment == x;
        SecondIsRun(w', left, x, barred);
      }
    }
  }

  lemma NotNever(w: World, later: World, x: ExperimentId, barred: set<Action>)
    requires Reaches(w, later, barred) && |later.runs| == |w.runs| + 1 && later.runs[|w.runs|].experiment == x
    ensures !NeverRuns(w, x, barred)
  {
    assert !NoNewRuns(w, later, x);
  }

  /** An entry whose experiment is not on the worker belongs to a queued sweep. */
  lemma QueuedToo(w: World, x: ExperimentId)
    requires Inv(w) && x in w.table && !OnWorker(w, x)
    ensures exists k :: 0 <= k < |w.queue| && w.queue[k].experiment == x
  {
    assert BlamedFor(w.table[x], FirstInLine(Unfinished(w), x));
    var s := FirstInLine(Unfinished(w), x).value;
    FirstInLineIs(Unfinished(w), x, s);
    var i :| 0 <= i < |Unfinished(w)| && Unfinished(w)[i] == Task(x, s);
    assert w.queue[i - |TaskOf(w.worker)|] == Unfinished(w)[i];
  }

  /** A sweep's final write is one the protocol allows: a grid sweep's, and a Bayesian one's. */
  lemma VerdictMayBeWritten(task: Task, log: seq<Event>, rows: seq<Row>, expected: nat)
    ensures MayWrite(Sweeping(task, SawCancel(log), SawPause(log)), Verdict(log, rows, expected), false)
  {}

  lemma BayesianVerdictMayBeWritten(task: Task, s: BayesianSearch.Search, planned: nat)
    ensures MayWrite(Sweeping(task, s.flags.cancelled, s.flags.paused),
                     BayesianSearch.FinalStatus(s.flags, s.rows, planned), true)
  {}

  // ---- The exceptions are reachable ---------------------------------------------------------------------

  lemma ReachableStep(w: World, a: Action) returns (later: World)
    requires Reachable(w) && Enabled(w, a)
    ensures Reachable(later) && later == Apply(w, a)
  {
    var path, actions :| Follows(path, actions) && path[0] == START && path[|path| - 1] == w;
    var longer, more := path + [Apply(w, a)], actions + [a];
    forall i, j | 0 <= i && j == i + 1 && j < |longer| ensures Next(longer[i], more[i], longer[j]) {
      if j < |path| { assert Next(path[i], actions[i], path[j]); }
    }
    later := Apply(w, a);
    assert Follows(longer, more) && longer[0] == START && longer[|longer| - 1] == later;
  }

  lemma StartReachable()
    ensures Reachable(START)
  {
    assert Follows([START], []);
  }

  /** From the queue to past the start-up checks. */
  lemma Begin(w: World, x: ExperimentId) returns (later: World)
    requires Reachable(w) && w.worker.Idle? && w.queue != [] && w.queue[0].experiment == x
    requires Unstopped(w, x) && SignalTo(w.table, x) == Proceed
    ensures Reachable(later)
    ensures later ==
              w.(table := WithEntry(w.table, x), queue := w.queue[1..], worker := Sweeping(w.queue[0], false, false))
  {
    hide Reachable;
    later := ReachableStep(w, Dequeue);
    later := ReachableStep(later, Enter);
    later := ReachableStep(later, CheckStorage);
    later := ReachableStep(later, CheckStart);
  }

  lemma FirstSweepUnderWay() returns (w: World)
    ensures Reachable(w) && w.table == map[1 := Events(None, None)] && w.queue == [] && w.next == 1 && w.runs == []
    ensures w.bayesian == {} && w.status == map[1 := RunningStatus] && w.worker == Sweeping(Task(1, 0), false, false)
  {
    hide Reachable;
    StartReachable();
    w := ReachableStep(START, Create(1, false));
    assert w.queue == [Task(1, 0)] && w.table == map[1 := Events(None, None)];
    w := Begin(w, 1);
    assert w.queue == [];
  }

  /** The sweep under way sees a pause, writes it, and the user resumes before its `finally`: the new
      sweep's entry is the old one's, and goes with it. */
  lemma ResumedTooSoon() returns (w: World)
    ensures Reachable(w) && w.worker.Idle? && w.queue == [Task(1, 1)] && 1 !in w.table && w.next == 2 && w.runs == []
    ensures w.bayesian == {} && w.status == map[1 := RunningStatus]
  {
    w := FirstSweepUnderWay();
    hide Reachable;
    w := ReachableStep(w, Pause(1));
    w := ReachableStep(w, SeePause);
    w := ReachableStep(w, Write(PausedStatus));
    w := ReachableStep(w, Resume(1));
    w := ReachableStep(w, Leave);
  }

  /** A pause then finds no entry and marks the experiment paused under its queued sweep; resuming makes
      two sweeps of one experiment, and the first can be under way with the second still queued: the
      one situation in which a cancel does not stick. */
  lemma CancelCanFailToStick() returns (w: World)
    ensures Reachable(w) && HasStatus(w, 1, RunningStatus) && Queued(w, 1) && WillStillWrite(w, 1)
    ensures !NeverRuns(Apply(w, Cancel(1)), 1, {Delete(1)})
  {
    w := ResumedTooSoon();
    hide Reachable, NeverRuns;
    w := ReachableStep(w, Pause(1));
    w := ReachableStep(w, Resume(1));
    assert w.queue == [Task(1, 1), Task(1, 2)];
    w := Begin(w, 1);
    assert w.queue == [Task(1, 2)];
    assert Queued(w, 1) by { assert w.queue[0] == Task(1, 2); }
    CancelSticksShortOfDelete(w, 1, {Delete(1)});
  }

  /** Nor does a cancel that found no entry outlive a delete: the queued sweep runs an experiment that is
      gone. */
  lemma DeletedExperimentCanRun() returns (before: World, after: World)
    ensures Reachable(before) && HasStatus(before, 1, RunningStatus) && Queued(before, 1) && !OneSignalled(before, 1)
    ensures !NeverRuns(Apply(before, Cancel(1)), 1, {Trigger(1)})
    ensures Reachable(after) && 1 !in after.status && after.runs == [Task(1, 1)]
  {
    before := ResumedTooSoon();
    assert Queued(before, 1) by { assert before.queue[0] == Task(1, 1); }
    CancelOfQueuedSticksExactly(before, 1, {Trigger(1)});
    hide Reachable, NeverRuns;
    after := ReachableStep(before, Cancel(1));
    after := ReachableStep(after, Delete(1));
    after := Begin(after, 1);
    after := ReachableStep(after, NewRun);
  }

  /** With a second sweep triggered, a cancelled Bayesian experiment runs, though nobody deletes it and nothing is
      triggered any more: its sweeps do not look at storage. */
  lemma CancelledBayesianCanRun() returns (w: World)
    ensures Reachable(w) && 1 in w.bayesian && HasStatus(w, 1, RunningStatus) && Queued(w, 1)
    ensures !NeverRuns(Apply(w, Cancel(1)), 1, {Trigger(1), Delete(1)})
  {
    hide Reachable, NeverRuns;
    StartReachable();
    w := ReachableStep(START, Create(1, true));
    w := ReachableStep(w, Trigger(1));
    assert w.queue == [Task(1, 0), Task(1, 1)];
    assert Queued(w, 1) by { assert w.queue[0] in w.queue; }
    assert w.queue[0].experiment == 1 && w.queue[1].experiment == 1 && !AtMostOneQueued(w.queue, 1);
    CancelOfQueuedSticksExactly(w, 1, {Trigger(1), Delete(1)});
  }
}
