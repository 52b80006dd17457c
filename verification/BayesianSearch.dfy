/**
 The Bayesian trial loop: server/core/pipeline/orchestrator.py:154-332, 335-402 and the trial budget of
 server/models/config.py:365-373.

 The sampler may suggest any pair of a configured chunk size and overlap, as often as it likes, or fail;
 trials end in any way.  Scores only feed the sampler, and storage does not fail.
 */
module BayesianSearch {
  import opened Collections
  import opened Listing
  import opened SweepGrid
  import opened SweepRunner

  datatype Pair = Pair(size: int, overlap: int)

  /** `grid_equivalent_count`. */
  function Space(config: Config): nat { |config.sizes| * |config.overlaps| }

  /** `_bayesian_trial_budget`. */
  function TrialBudget(config: Config, configured: Option<nat>): nat
  {
    if configured.Some? && configured.value < Space(config) then configured.value else Space(config)
  }

  predicate Suggestible(config: Config, p: Pair) { p.size in config.sizes && p.overlap in config.overlaps }

  /** `_bayesian_trial_to_run_params`. */
  function TrialParams(template: RunParams, p: Pair): RunParams { template.(size := p.size, overlap := p.overlap) }

  // ---- The state of a search --------------------------------------------------------------------------------

  /** The variables of the loop; how each attempt ended and what each control check saw. */
  datatype Search = Search(template: RunParams, stopOnError: bool, visited: set<Pair>, attempts: seq<Pair>,
                           rows: seq<Row>, flags: Flags, outcomes: seq<Outcome>, checks: seq<Signal>,
                           failedSuggestions: nat)

  function FreshSearch(template: RunParams, stopOnError: bool): Search
  {
    Search(template, stopOnError, {}, [], [], Flags(false, false, false, false), [], [], 0)
  }

  /** No pair is attempted twice, and each attempt has its closed row. */
  ghost predicate Attempted(s: Search)
  {
    && NoDuplicates(s.attempts) && (forall p :: p in s.attempts ==> p in s.visited)
    && |s.rows| == |s.attempts| == |s.outcomes|
    && forall i :: 0 <= i < |s.rows| ==>
         s.rows[i] == Row(TrialParams(s.template, s.attempts[i]), Closing(s.outcomes[i]))
  }

  /** The flags say what was seen. */
  ghost predicate FlagsSeen(s: Search)
  {
    && (s.flags.cancelled <==> RunCancelled in s.outcomes || CancelSeen in s.checks)
    && (s.flags.paused <==> RunPaused in s.outcomes || PauseSeen in s.checks)
    && (s.flags.outage <==> SieUnavailable in s.outcomes)
    && (s.stopOnError && RunFailed in s.outcomes ==> s.flags.stop)
  }

  predicate Ended(flags: Flags) { flags.cancelled || flags.paused || flags.outage || flags.stop }

  /** Until something stops it, the search attempts whatever it visits. */
  ghost predicate VisitsAttempted(s: Search)
  {
    !Ended(s.flags) ==> forall p :: p in s.visited ==> p in s.attempts
  }

  /** A trial after which the search goes on. */
  ghost predicate GoesOn(outcome: Outcome, stopOnError: bool)
  {
    outcome == Completed || (outcome == RunFailed && !stopOnError)
  }

  ghost predicate AllQuiet(s: Search)
  {
    && (forall i :: 0 <= i < |s.outcomes| ==> GoesOn(s.outcomes[i], s.stopOnError))
    && forall i :: 0 <= i < |s.checks| ==> s.checks[i] == Proceed
  }

  /** Once a trial or a check calls for the end, there is no further trial and no further check. */
  ghost predicate StopsAtOnce(s: Search)
  {
    && (!s.flags.stop ==> AllQuiet(s))
    && (forall i :: 0 <= i < |s.outcomes| - 1 ==> GoesOn(s.outcomes[i], s.stopOnError))
    && (forall i :: 0 <= i < |s.checks| - 1 ==> s.checks[i] == Proceed)
    && (s.checks != [] && s.checks[|s.checks| - 1] != Proceed ==>
          forall i :: 0 <= i < |s.outcomes| ==> GoesOn(s.outcomes[i], s.stopOnError))
  }

  ghost predicate SearchSound(s: Search)
  {
    Attempted(s) && FlagsSeen(s) && VisitsAttempted(s) && StopsAtOnce(s)
  }

  function AfterVisit(s: Search, p: Pair): Search { s.(visited := s.visited + {p}) }

  function AfterSignal(s: Search, signal: Signal): Search
  {
    s.(flags := FlagsAfterCheck(s.flags, signal), checks := s.checks + [signal])
  }

  function AfterTrial(s: Search, p: Pair, outcome: Outcome): Search
  {
    s.(attempts := s.attempts + [p], rows := s.rows + [Row(TrialParams(s.template, p), Closing(outcome))],
       flags := FlagsAfterReap(s.flags, outcome, s.stopOnError), outcomes := s.outcomes + [outcome])
  }

  function AfterFailedSuggestion(s: Search): Search
  {
    s.(flags := s.flags.(stop := s.flags.stop || s.stopOnError), failedSuggestions := s.failedSuggestions + 1)
  }

  lemma FreshIsSound(template: RunParams, stopOnError: bool)
    ensures SearchSound(FreshSearch(template, stopOnError))
  {}

  lemma SignalKeeps(s: Search, signal: Signal)
    requires Attempted(s) && FlagsSeen(s) && (VisitsAttempted(s) || signal != Proceed) && StopsAtOnce(s)
    requires !s.flags.stop
    ensures SearchSound(AfterSignal(s, signal))
  {}

  lemma VisitStopped(s: Search, p: Pair)
    requires SearchSound(s) && Ended(s.flags)
    ensures SearchSound(AfterVisit(s, p))
  {}

  lemma VisitOnly(s: Search, p: Pair)
    requires SearchSound(s)
    ensures Attempted(AfterVisit(s, p)) && FlagsSeen(AfterVisit(s, p)) && StopsAtOnce(AfterVisit(s, p))
  {}

  /** A new pair, past the control check. */
  lemma TrialKeeps(s: Search, p: Pair, outcome: Outcome)
    requires SearchSound(s) && p !in s.visited && !s.flags.stop
    ensures SearchSound(AfterTrial(AfterVisit(AfterSignal(s, Proceed), p), p, outcome))
  {}

  // ---- The loop ---------------------------------------------------------------------------------------------

  /** What bounds the loop: `asks` calls of the sampler, within a space and a budget. */
  ghost predicate WithinBudget(config: Config, s: Search, planned: nat, asks: nat)
  {
    asks <= 3 * planned && |s.attempts| <= planned && forall p :: p in s.visited ==> Suggestible(config, p)
  }

  /** The local variables that `_try_run_trial` shares with the loop. */
  class TrialLoop {
    const template: RunParams
    const stopOnError: bool
    const control: Control
    var visited: set<Pair>
    var attempts: seq<Pair>
    var rows: seq<Row>
    var flags: Flags
    ghost var outcomes: seq<Outcome>
    ghost var checks: seq<Signal>
    ghost var failedSuggestions: nat

    ghost function Now(): Search
      reads this
    {
      Search(template, stopOnError, visited, attempts, rows, flags, outcomes, checks, failedSuggestions)
    }

    constructor (template: RunParams, stopOnError: bool, control: Control)
      ensures Now() == FreshSearch(template, stopOnError) && this.control == control
    {
      this.template, this.stopOnError, this.control := template, stopOnError, control;
      visited, attempts, rows, flags := {}, [], [], Flags(false, false, false, false);
      outcomes, checks, failedSuggestions := [], [], 0;
    }

    /** Whatever is raised by then is seen. */
    method CheckControl() returns (signal: Signal)
      modifies this, control
      ensures Now() == AfterSignal(old(Now()), signal)
      ensures (old(control.cancel) ==> control.cancel) && (old(control.pause) ==> control.pause)
      ensures signal == if control.cancel then CancelSeen else if control.pause then PauseSeen else Proceed
    {
      signal := control.Check();
      flags := FlagsAfterCheck(flags, signal);
      checks := checks + [signal];
    }

    /** `visited.add(candidate)` and `_try_run_trial`. */
    method Visit(p: Pair)
      requires SearchSound(Now()) && p !in visited
      modifies this, control
      ensures SearchSound(Now()) && visited == old(visited) + {p}
      ensures attempts == old(attempts) || attempts == old(attempts) + [p]
      ensures attempts != old(attempts) ==> !old(control.cancel) && !old(control.pause) && !old(flags.stop)
      ensures !old(flags.stop) && old(control.cancel) ==> flags.cancelled
      ensures !old(flags.stop) && old(control.pause) ==> flags.cancelled || flags.paused
      ensures (old(control.cancel) ==> control.cancel) && (old(control.pause) ==> control.pause)
    {
      hide SearchSound, Closing, FlagsAfterReap;
      ghost var before := Now();
      visited := visited + {p};
      if flags.stop {
        VisitStopped(before, p);
        return;
      }
      VisitOnly(before, p);
      var signal := CheckControl();
      if signal != Proceed {
        SignalKeeps(AfterVisit(before, p), signal);
        return;
      }
      TrialKeeps(before, p, Completed);
      var outcome, history := RunSingle(control);
      TrailCloses(history, outcome);
      TrialKeeps(before, p, outcome);
      RecordTrial(p, outcome, history[|history| - 1]);
    }

    /** A new suggestion, and whether it ends the loop. */
    method VisitAndCheck(p: Pair) returns (ended: bool)
      requires SearchSound(Now()) && p !in visited
      modifies this, control
      ensures SearchSound(Now()) && visited == old(visited) + {p}
      ensures attempts == old(attempts) || attempts == old(attempts) + [p]
      ensures (old(control.cancel) ==> control.cancel) && (old(control.pause) ==> control.pause)
      ensures ended ==> Ended(flags)
      ensures old(control.cancel) || old(control.pause) ==> ended
    {
      hide SearchSound;
      Visit(p);
      if flags.stop {
        return true;
      }
      SoundParts(Now());
      ghost var visited := Now();
      var signal := CheckControl();
      SignalKeeps(visited, signal);
      ended := signal != Proceed;
    }

    /** The sampler failed. */
    method NoteFailedSuggestion()
      modifies this
      ensures Now() == AfterFailedSuggestion(old(Now()))
    {
      if stopOnError {
        flags := flags.(stop := true);
      }
      failedSuggestions := failedSuggestions + 1;
    }

    method RecordTrial(p: Pair, outcome: Outcome, closing: Phase)
      requires closing == Closing(outcome)
      modifies this
      ensures Now() == AfterTrial(old(Now()), p, outcome)
    {
      attempts := attempts + [p];
      rows := rows + [Row(TrialParams(template, p), closing)];
      flags := FlagsAfterReap(flags, outcome, stopOnError);
      outcomes := outcomes + [outcome];
    }
  }

  /** An Optuna study: whatever it suggests, if it makes a suggestion at all, is put on record. */
  class Sampler {
    ghost var answers: seq<Option<Pair>>

    constructor ()
      ensures answers == []
    {
      answers := [];
    }

    /** `study.ask` and the suggestions of the trial. */
    method Suggest(config: Config) returns (suggested: bool, p: Pair)
      requires config.sizes != [] && config.overlaps != []
      modifies this
      ensures answers == old(answers) + [if suggested then Some(p) else None] && Suggestible(config, p)
    {
      var i: int, j: int, fails: bool := *, *, *;
      p := Pair(config.sizes[if 0 <= i < |config.sizes| then i else 0],
                config.overlaps[if 0 <= j < |config.overlaps| then j else 0]);
      suggested := !fails;
      answers := answers + [if suggested then Some(p) else None];
    }
  }

  /** The pairs among the answers. */
  ghost function Suggested(answers: seq<Option<Pair>>): set<Pair>
  {
    set answer | answer in answers && answer.Some? :: answer.value
  }

  /** Fewer attempts than planned have a reason. */
  ghost predicate Justified(config: Config, s: Search, planned: nat, asks: nat)
  {
    || |s.attempts| >= planned || Ended(s.flags) || asks == 3 * planned
    || |s.visited| >= |config.sizes| * |config.overlaps|
  }

  /** The loop of `_run_bayesian_inner`. */
  method RunTrials(trials: TrialLoop, sampler: Sampler, config: Config, planned: nat) returns (asks: nat)
    requires config.sizes != [] && config.overlaps != []
    requires trials.Now() == FreshSearch(trials.template, trials.stopOnError) && sampler.answers == []
    modifies trials, trials.control, sampler
    ensures asks == |sampler.answers| && trials.visited == Suggested(sampler.answers)
    ensures old(trials.control.cancel) ==> trials.control.cancel
    ensures old(trials.control.pause) ==> trials.control.pause
    ensures SearchSound(trials.Now()) && WithinBudget(config, trials.Now(), planned, asks)
            && Justified(config, trials.Now(), planned, asks)
  {
    hide SearchSound;
    FreshIsSound(trials.template, trials.stopOnError);
    asks := 0;
    while asks < 3 * planned
      invariant SearchSound(trials.Now()) && WithinBudget(config, trials.Now(), planned, asks)
      invariant asks == |sampler.answers| && trials.visited == Suggested(sampler.answers)
      invariant old(trials.control.cancel) ==> trials.control.cancel
      invariant old(trials.control.pause) ==> trials.control.pause
    {
      if |trials.visited| >= Space(config) || |trials.attempts| >= planned {
        break;
      }
      asks := asks + 1;
      ghost var before := sampler.answers;
      var suggested, p := sampler.Suggest(config);
      OneMoreAnswer(before, if suggested then Some(p) else None);
      if !suggested {
        if trials.flags.cancelled || trials.flags.paused || trials.flags.stop {
          break;
        }
        FailedSuggestionKeeps(trials.Now());
        trials.NoteFailedSuggestion();
        continue;
      }
      if p in trials.visited {
        continue;
      }
      var ended := trials.VisitAndCheck(p);
      if ended {
        break;
      }
    }
  }

  lemma OneMoreAnswer(answers: seq<Option<Pair>>, answer: Option<Pair>)
    ensures Suggested(answers + [answer]) == Suggested(answers) + if answer.Some? then {answer.value} else {}
  {
    if answer.Some? { assert answer in answers + [answer]; }
    assert forall a :: a in answers ==> a in answers + [answer];
  }

  lemma SoundParts(s: Search)
    requires SearchSound(s)
    ensures Attempted(s) && FlagsSeen(s) && VisitsAttempted(s) && StopsAtOnce(s)
  {}

  lemma FailedSuggestionKeeps(s: Search)
    requires SearchSound(s)
    ensures SearchSound(AfterFailedSuggestion(s))
  {}

  // ---- The final status -------------------------------------------------------------------------------------

  /** `_finalise_bayesian_experiment`. */
  function FinalStatus(flags: Flags, rows: seq<Row>, planned: nat): Status
  {
    var failed := CountPhase(rows, Failed);
    var counted := StatusByCounts(rows, planned);
    var lenient := if counted == PartialStatus && failed == 0 then CompleteStatus else counted;
    var status :=
      if flags.cancelled then CancelledStatus
      else if flags.paused then PausedStatus
      else if rows == [] then CancelledStatus
      else if failed == planned then FailedStatus
      else lenient;
    if flags.outage && status != CancelledStatus && status != PausedStatus then FailedStatus else status
  }

  lemma {:induction false} CountAny(rows: seq<Row>, phase: Phase)
    ensures CountPhase(rows, phase) > 0 <==> exists i :: 0 <= i < |rows| && rows[i].phase == phase
    ensures CountPhase(rows, phase) == |rows| ==> forall i :: 0 <= i < |rows| ==> rows[i].phase == phase
  {
    if rows != [] {
      CountAny(rows[..|rows| - 1], phase);
    }
  }

  /** Some attempt ended so. */
  ghost predicate SawOutcome(s: Search, outcome: Outcome) { outcome in s.outcomes }

  ghost predicate SawSignal(s: Search, outcome: Outcome, signal: Signal) { outcome in s.outcomes || signal in s.checks }

  /** What a finished search is finally called, in terms of how its attempts ended and what it was told. */
  lemma BayesianStatusMeans(s: Search, planned: nat)
    requires SearchSound(s) && |s.attempts| <= planned
    ensures var cancelled, paused := SawSignal(s, RunCancelled, CancelSeen), SawSignal(s, RunPaused, PauseSeen);
            var outage, failed, completed :=
                SawOutcome(s, SieUnavailable), SawOutcome(s, RunFailed), SawOutcome(s, Completed);
            FinalStatus(s.flags, s.rows, planned) ==
              if cancelled then CancelledStatus
              else if paused then PausedStatus
              else if s.attempts == [] then CancelledStatus
              else if outage then FailedStatus
              else if !failed then CompleteStatus
              else if !completed then FailedStatus
              else PartialStatus
  {
    CountAny(s.rows, Failed);
    CountAny(s.rows, Complete);
    if s.attempts != [] && !s.flags.cancelled && !s.flags.paused && !s.flags.outage {
      PhasesByOutcome(s);
    }
  }

  lemma PhasesByOutcome(s: Search)
    requires SearchSound(s) && !s.flags.cancelled && !s.flags.paused && !s.flags.outage
    ensures SawOutcome(s, RunFailed) <==> exists i :: 0 <= i < |s.rows| && s.rows[i].phase == Failed
    ensures SawOutcome(s, Completed) <==> exists i :: 0 <= i < |s.rows| && s.rows[i].phase == Complete
    ensures forall i :: 0 <= i < |s.rows| ==> s.rows[i].phase == Complete || s.rows[i].phase == Failed
  {}

  // ---- The whole of `_run_bayesian_inner` ---------------------------------------------------------------------

  /** The counts of `bayesian_summary`. */
  datatype Summary = Summary(planned: nat, attempted: nat, discarded: nat, notStarted: nat)

  /** How the body ends: as a grid sweep's does, or with an exception because the grid is empty. */
  datatype BayesianExit = EmptyGrid | Exited(exit: Exit)

  function AtLeastZero(n: int): nat { if n < 0 then 0 else n }

  /** The budget is the configured number of trials, or the space of pairs if that is smaller or none is
      configured. */
  lemma BudgetIsCapped(config: Config, configured: Option<nat>)
    ensures TrialBudget(config, configured) <= |config.sizes| * |config.overlaps|
    ensures configured.Some? && configured.value <= |config.sizes| * |config.overlaps| ==>
              TrialBudget(config, configured) == configured.value
    ensures configured.None? || configured.value > |config.sizes| * |config.overlaps| ==>
              TrialBudget(config, configured) == |config.sizes| * |config.overlaps|
  {}

  method RunBayesianInner(control: Control, sampler: Sampler, config: Config, providerOf: Name -> Provider,
                          configured: Option<nat>, ready: bool, stopOnError: bool)
    returns (exit: BayesianExit, ghost s: Search, asks: nat, summary: Summary)
    requires sampler.answers == []
    modifies control, sampler
    ensures asks == |sampler.answers| && s.visited == Suggested(sampler.answers)
    ensures old(control.cancel) ==> exit == Exited(Skipped)
    ensures old(control.pause) ==> exit == Exited(Skipped) || exit == Exited(PauseEscaped)
    ensures exit.Exited? && exit.exit.Finished? ==>
              && SearchSound(s) && summary.planned == TrialBudget(config, configured)
              && summary.planned <= |config.sizes| * |config.overlaps|
              && WithinBudget(config, s, summary.planned, asks) && Justified(config, s, summary.planned, asks)
              && summary.attempted == |s.attempts| && summary.planned == summary.attempted + summary.discarded
              && summary.notStarted == 0
              && exit.exit.status == FinalStatus(s.flags, s.rows, summary.planned)
    ensures exit.Exited? && exit.exit.Finished? ==>
              Grid(config, providerOf) != [] && s.template == Grid(config, providerOf)[0]
    ensures exit.Exited? && exit.exit.Skipped? ==> control.cancel
    ensures exit.Exited? && exit.exit.PauseEscaped? ==> control.pause
    ensures exit.EmptyGrid? ==> ready && Grid(config, providerOf) == []
  {
    hide SearchSound, FinalStatus, Justified, Grid;
    var none := RunParams(config.database, LOCAL, EMPTY, Fixed, 0, 0, 0, DENSE_ONLY, LegacyFields(DENSE_ONLY));
    s, asks, summary := FreshSearch(none, stopOnError), 0, Summary(0, 0, 0, 0);
    var signal := control.Check();
    if signal == CancelSeen {
      return Exited(Skipped), s, asks, summary;
    }
    if signal == PauseSeen {
      return Exited(PauseEscaped), s, asks, summary;
    }
    if !ready {
      return Exited(PreflightFailed), s, asks, summary;
    }
    var expanded := ExpandSweep(config, providerOf);
    if expanded == [] {
      return EmptyGrid, s, asks, summary;
    }
    GridNeedsPairs(config, providerOf);
    BudgetIsCapped(config, configured);
    var planned := TrialBudget(config, configured);
    var trials := new TrialLoop(expanded[0], stopOnError, control);
    asks := RunTrials(trials, sampler, config, planned);
    var attempted := |trials.attempts|;
    var discarded := AtLeastZero(planned - attempted);
    summary := Summary(planned, attempted, discarded, AtLeastZero(planned - attempted - discarded));
    exit := Exited(Finished(FinalStatus(trials.flags, trials.rows, planned)));
    s := trials.Now();
  }

  lemma GridNeedsPairs(config: Config, providerOf: Name -> Provider)
    requires Grid(config, providerOf) != []
    ensures config.sizes != [] && config.overlaps != []
  {
    var p := Grid(config, providerOf)[0];
    assert p in Grid(config, providerOf);
    GridHoldsExactlyTheCombinations(config, providerOf, p);
  }

  /** Every trial is a run of the grid: the first one but for its own chunk size and overlap, closed as it ended. */
  lemma TrialsAreOfTheGrid(config: Config, providerOf: Name -> Provider, s: Search, planned: nat, asks: nat, i: nat)
    requires SearchSound(s) && WithinBudget(config, s, planned, asks)
    requires Grid(config, providerOf) != [] && s.template == Grid(config, providerOf)[0] && i < |s.rows|
    ensures |s.attempts| == |s.outcomes| == |s.rows|
    ensures s.rows[i].params in Grid(config, providerOf)
    ensures var first, run := Grid(config, providerOf)[0], s.rows[i].params;
            && run.size == s.attempts[i].size && run.overlap == s.attempts[i].overlap
            && run == first.(size := run.size, overlap := run.overlap)
    ensures s.rows[i].phase == Complete <==> s.outcomes[i] == Completed
    ensures s.rows[i].phase == Interrupted <==> s.outcomes[i] == RunCancelled || s.outcomes[i] == RunPaused
  {
    SoundParts(s);
    hide Grid, SearchSound;
    var first, run := Grid(config, providerOf)[0], s.rows[i].params;
    assert first in Grid(config, providerOf);
    GridHoldsExactlyTheCombinations(config, providerOf, first);
    assert s.attempts[i] in s.attempts;
    GridHoldsExactlyTheCombinations(config, providerOf, run);
    ClosingTells(s.outcomes[i]);
  }

  /** Unless something ended it, a search that attempts fewer pairs than planned has asked the sampler
      three times per planned trial. */
  lemma ShortfallMeansAsked(config: Config, s: Search, configured: Option<nat>, asks: nat)
    requires SearchSound(s) && Justified(config, s, TrialBudget(config, configured), asks) && !Ended(s.flags)
    requires |s.attempts| < TrialBudget(config, configured)
    ensures asks == 3 * TrialBudget(config, configured)
  {
    DistinctSize(s.attempts, s.visited);
  }
}
