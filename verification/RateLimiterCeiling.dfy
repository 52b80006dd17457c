/**
 When the request ceiling of server/core/embedding/rate_limiter.py:20-21 is really a ceiling.

 A thread that sleeps on the token budget keeps its RPM clearance, so other threads can spend the
 same allowance meanwhile.  The ceiling holds in every run exactly when that cannot happen; `Peak` is by
 how much it can be exceeded.
 */
module RateLimiterCeiling {
  import opened Collections
  import opened RateLimiter
  import opened RateLimiterProtocol

  ghost predicate KeepsRequestCeiling(c: Config)
  {
    forall s: State, a: real {:trigger Within(s.history, a), Reachable(c, s)} ::
      Reachable(c, s) ==> |Within(s.history, a)| <= c.rpm
  }

  /** Nothing is granted between a thread's RPM check and its own grant. */
  predicate PassIsAtomic(c: Config) { c.tpm <= 0 || c.rpm == 1 }

  // ---- Atomic passes keep the ceiling ----------------------------------------------------------

  ghost predicate NothingSince(h: seq<Grant>, a: real)
  {
    forall i :: 0 <= i < |h| ==> h[i].time < a
  }

  /** A thread past RPM still holds the lock it was cleared under. */
  ghost predicate StillClear(c: Config, s: State, pc: Pc)
  {
    pc.Passed() ==>
      && pc.HoldsLock() && pc.base == |s.history|
      && (c.rpm == 1 ==> NothingSince(s.history, s.clock - WINDOW))
  }

  ghost predicate AtomicInv(c: Config, s: State)
  {
    && Inv(c, s)
    && (forall t :: 0 <= t < c.callers ==> StillClear(c, s, s.threads[t]))
    && forall i :: 0 <= i < |s.history| ==> s.history[i].base == i
  }

  lemma EmptySince(h: seq<Grant>, a: real)
    requires |Since(h, |h|, a)| == 0
    ensures NothingSince(h, a)
  {
    forall i | 0 <= i < |h| ensures h[i].time < a {
      var recent := i in Since(h, |h|, a);
    }
  }

  lemma AtomicPass(c: Config, s: State, t: ThreadId, now: real)
    requires PassIsAtomic(c) && AtomicInv(c, s) && Enabled(c, s, Check(t, now))
    ensures var s' := After(c, s, Check(t, now)); StillClear(c, s', s'.threads[t])
  {
    var s' := After(c, s, Check(t, now));
    var pc := s.threads[t];
    if pc.loop == Rpm {
      PurgeCountsRequests(s, now);
      RpmSleepOutlastsHead(c.rpm, s.window, now);
      if c.rpm == 1 && s'.threads[t].Passed() { EmptySince(s.history, now - WINDOW); }
    } else {
      assert StillClear(c, s, pc);
      if c.rpm == 1 { QuietWindowHasNoTokens(s, now); }
      assert s'.threads[t] == Granting(pc.tokens, pc.base);
    }
  }

  lemma AtomicCheck(c: Config, s: State, t: ThreadId, now: real)
    requires PassIsAtomic(c) && AtomicInv(c, s) && Enabled(c, s, Check(t, now))
    ensures AtomicInv(c, After(c, s, Check(t, now)))
  {
    var s' := After(c, s, Check(t, now));
    CheckKeepsInv(c, s, t, now);
    forall u | 0 <= u < c.callers ensures StillClear(c, s', s'.threads[u]) {
      if u == t { AtomicPass(c, s, t, now); } else { assert StillClear(c, s, s.threads[u]); }
    }
    assert s'.history == s.history;
  }

  lemma AtomicStep(c: Config, s: State, step: Step)
    requires PassIsAtomic(c) && AtomicInv(c, s) && Enabled(c, s, step)
    ensures AtomicInv(c, After(c, s, step))
  {
    if step.Check? {
      AtomicCheck(c, s, step.t, step.now);
    } else {
      StepKeepsInv(c, s, step);
      var s' := After(c, s, step);
      assert StillClear(c, s, s.threads[step.t]);
      forall u | 0 <= u < c.callers ensures StillClear(c, s', s'.threads[u]) {
        assert StillClear(c, s, s.threads[u]);
      }
    }
  }

  lemma {:induction false} AtomicRun(c: Config, run: seq<State>, n: nat)
    requires PassIsAtomic(c) && IsRun(c, run) && n < |run|
    ensures AtomicInv(c, run[n])
  {
    if n == 0 {
      InitInv(c, run[0]);
    } else {
      AtomicRun(c, run, n - 1);
      assert Next(c, run[n - 1], run[n]);
      var step :| Enabled(c, run[n - 1], step) && run[n] == After(c, run[n - 1], step);
      AtomicStep(c, run[n - 1], step);
    }
  }

  lemma AtomicCeiling(c: Config, s: State, a: real)
    requires AtomicInv(c, s) && c.rpm >= 1
    ensures |Within(s.history, a)| <= c.rpm
  {
    var all := Within(s.history, a);
    if all != {} {
      var p := LargestBy(all, i => i);
      GrantsBeforePass(c, s, a, p);
      var before := set i | i in all && i < s.history[p].base;
      assert s.history[p].base == p;
      assert all == before + {p};
    }
  }

  lemma AtomicPassesKeepCeiling(c: Config, s: State, a: real)
    requires PassIsAtomic(c) && c.rpm >= 1 && Reachable(c, s)
    ensures |Within(s.history, a)| <= c.rpm
  {
    var run :| IsRun(c, run) && run[|run| - 1] == s;
    AtomicRun(c, run, |run| - 1);
    AtomicCeiling(c, s, a);
  }

  // ---- Each late grant costs a token --------------------------------------------------------------

  /** A thread past RPM that is not held to the token budget still has the lock it was cleared under. */
  ghost predicate LockedUnlessLimited(c: Config, s: State, pc: Pc)
  {
    pc.Passed() && !Limited(c.tpm, pc.tokens) ==> pc.HoldsLock() && pc.base == |s.history|
  }

  ghost predicate LateIsLimited(c: Config, h: seq<Grant>)
  {
    forall i :: 0 <= i < |h| && h[i].base != i ==> Limited(c.tpm, h[i].tokens)
  }

  ghost predicate LateInv(c: Config, s: State)
  {
    && Inv(c, s) && LateIsLimited(c, s.history)
    && forall t :: 0 <= t < c.callers ==> LockedUnlessLimited(c, s, s.threads[t])
  }

  lemma LateStep(c: Config, s: State, step: Step)
    requires LateInv(c, s) && Enabled(c, s, step)
    ensures LateInv(c, After(c, s, step))
  {
    StepKeepsInv(c, s, step);
    hide Inv, Limited;
    assert |s.threads| == c.callers && OneHolder(s) by { InvParts(c, s); }
    var s' := After(c, s, step);
    assert LockedUnlessLimited(c, s, s.threads[step.t]);
    forall u | 0 <= u < c.callers ensures LockedUnlessLimited(c, s', s'.threads[u]) {
      assert LockedUnlessLimited(c, s, s.threads[u]);
    }
  }

  lemma InvParts(c: Config, s: State)
    requires Inv(c, s)
    ensures |s.threads| == c.callers && OneHolder(s)
  {}

  lemma {:induction false} LateRun(c: Config, run: seq<State>, n: nat)
    requires IsRun(c, run) && n < |run|
    ensures LateInv(c, run[n])
  {
    if n == 0 {
      InitInv(c, run[0]);
    } else {
      LateRun(c, run, n - 1);
      assert Next(c, run[n - 1], run[n]);
      var step :| Enabled(c, run[n - 1], step) && run[n] == After(c, run[n - 1], step);
      LateStep(c, run[n - 1], step);
    }
  }

  /** Grants that followed their own RPM pass at once are within the allowance. */
  lemma PromptGrants(c: Config, s: State, a: real)
    requires Inv(c, s) && c.rpm >= 1
    ensures |set i | i in Within(s.history, a) && s.history[i].base == i| <= c.rpm
  {
    var all := Within(s.history, a);
    var prompt := set i | i in all && s.history[i].base == i;
    if prompt != {} {
      var p := LargestBy(prompt, i => i);
      GrantsBeforePass(c, s, a, p);
      var before := set i | i in all && i < s.history[p].base;
      SubsetSize(prompt, before + {p});
    }
  }

  /** There are no more token-bearing grants than tokens. */
  lemma {:induction false} BearersCost(h: seq<Grant>, n: nat, a: real)
    requires n <= |h|
    ensures |set i | 0 <= i < n && a <= h[i].time <= a + WINDOW && h[i].tokens > 0| <= TokensWithin(h, n, a)
  {
    var all := set i | 0 <= i < n && a <= h[i].time <= a + WINDOW && h[i].tokens > 0;
    if n == 0 {
      assert all == {};
    } else {
      BearersCost(h, n - 1, a);
      var before := set i | 0 <= i < n - 1 && a <= h[i].time <= a + WINDOW && h[i].tokens > 0;
      assert all ==
        before + if a <= h[n - 1].time <= a + WINDOW && h[n - 1].tokens > 0 then {n - 1} else {};
    }
  }

  lemma BearersWithinBudget(c: Config, s: State, a: real)
    requires Reachable(c, s) && c.tpm >= 1
    ensures |TokenBearing(s.history, a)| <= c.tpm
  {
    var h := s.history;
    TokenCeiling(c, s, a);
    BearersCost(h, |h|, a);
    assert TokenBearing(h, a) == set i | 0 <= i < |h| && a <= h[i].time <= a + WINDOW && h[i].tokens > 0;
  }

  lemma LateGrantsCostTokens(c: Config, s: State, a: real)
    requires Reachable(c, s) && c.rpm >= 1 && c.tpm >= 1
    ensures |Within(s.history, a)| <= c.rpm + c.tpm
  {
    var run :| IsRun(c, run) && run[|run| - 1] == s;
    LateRun(c, run, |run| - 1);
    PromptGrants(c, s, a);
    BearersWithinBudget(c, s, a);
    var all := Within(s.history, a);
    var prompt := set i | i in all && s.history[i].base == i;
    assert forall i :: i in all && i !in prompt ==> i in TokenBearing(s.history, a);
    SubsetSize(all, prompt + TokenBearing(s.history, a));
    assert |prompt + TokenBearing(s.history, a)| <= |prompt| + |TokenBearing(s.history, a)|;
  }

  // ---- Runs whose calls all carry tokens ---------------------------------------------------------

  /** Every call under way and every grant is for at least `least` tokens. */
  ghost predicate AtLeast(s: State, least: int)
  {
    && (forall t :: 0 <= t < |s.threads| && !s.threads[t].Idle? ==> s.threads[t].tokens >= least)
    && forall i :: 0 <= i < |s.history| ==> s.history[i].tokens >= least
  }

  /** `s` can be reached by calls for at least `least` tokens each. */
  ghost predicate ReachableWith(c: Config, s: State, least: int)
  {
    exists run :: IsRun(c, run) && run[|run| - 1] == s && forall i :: 0 <= i < |run| ==> AtLeast(run[i], least)
  }

  ghost predicate KeepsCeilingWithTokens(c: Config)
  {
    forall s: State, a: real {:trigger Within(s.history, a), ReachableWith(c, s, 1)} ::
      ReachableWith(c, s, 1) ==> |Within(s.history, a)| <= c.rpm
  }

  lemma WithIsReachable(c: Config, s: State, least: int)
    requires ReachableWith(c, s, least)
    ensures Reachable(c, s) && AtLeast(s, least)
  {}

  /** Where every call carries tokens, a token budget of at most `rpm` is a request ceiling too. */
  lemma BudgetKeepsCeiling(c: Config, s: State, a: real)
    requires ReachableWith(c, s, 1) && c.rpm >= 1 && 0 < c.tpm <= c.rpm
    ensures |Within(s.history, a)| <= c.rpm
  {
    WithIsReachable(c, s, 1);
    BearersWithinBudget(c, s, a);
    assert Within(s.history, a) == TokenBearing(s.history, a);
  }

  // ---- Otherwise some run exceeds it -----------------------------------------------------------

  lemma StepAtLeast(c: Config, s: State, step: Step, least: int)
    requires AtLeast(s, least) && Enabled(c, s, step) && (step.Call? ==> step.tokens >= least)
    ensures AtLeast(After(c, s, step), least)
  {
    var s' := After(c, s, step);
    forall t | 0 <= t < |s'.threads| && !s'.threads[t].Idle? ensures s'.threads[t].tokens >= least {
      if t != step.t { assert s'.threads[t] == s.threads[t]; }
    }
  }

  lemma Advance(c: Config, s: State, step: Step, least: int) returns (s': State)
    requires ReachableWith(c, s, least) && Enabled(c, s, step) && (step.Call? ==> step.tokens >= least)
    ensures s' == After(c, s, step) && ReachableWith(c, s', least)
  {
    hide AtLeast;
    s' := After(c, s, step);
    var run :| IsRun(c, run) && run[|run| - 1] == s && forall i :: 0 <= i < |run| ==> AtLeast(run[i], least);
    StepAtLeast(c, s, step, least);
    var longer := run + [s'];
    assert IsRun(c, longer) && longer[|longer| - 1] == s';
  }

  /** A whole call of `wait` that never sleeps. */
  lemma Request(c: Config, s: State, t: ThreadId, tokens: int, now: real, least: int) returns (s': State)
    requires ReachableWith(c, s, least) && t < |s.threads| && s.threads[t].Idle? && LockFree(s) && s.clock <= now
    requires tokens >= least && |Since(s.history, |s.history|, now - WINDOW)| < c.rpm
    requires !Limited(c.tpm, tokens) || TokensSince(s.history, |s.history|, now - WINDOW) + tokens <= c.tpm
    ensures ReachableWith(c, s', least)
    ensures s'.threads == s.threads && s'.clock == now
    ensures s'.history == s.history + [Grant(t, now, tokens, |s.history|)]
  {
    hide ReachableWith;
    var s1 := Advance(c, s, Call(t, tokens), least);
    var s2 := Advance(c, s1, Acquire(t), least);
    WithIsReachable(c, s2, least);
    RpmDecision(c, s2, now);
    var s3 := Advance(c, s2, Check(t, now), least);
    if Limited(c.tpm, tokens) {
      WithIsReachable(c, s3, least);
      TpmDecision(c, s3, now, tokens);
    }
    var s4 := Advance(c, s3, Check(t, now), least);
    s' := Advance(c, s4, Append(t, now), least);
    assert s'.threads == s.threads;
  }

  lemma FirstTokenHead(c: Config, s: State)
    requires c.tpm >= 1 && Reachable(c, s) && s.clock == 0.0 && s.history == [Grant(0, 0.0, c.tpm, 0)]
    ensures Purged(s.window, 0.0).tokens == [TokenEntry(0.0, c.tpm)]
  {
    ReachableInv(c, s);
    var full := TokenLog(s.history, 1);
    assert full == TokenLog(s.history, 0) + [TokenEntry(0.0, c.tpm)];
    TokenLogOrdered(s.history, 1, 0.0);
    PurgeKeepsExactlyFresh(s.window.tokens, full, EntryTime, 0.0, 0.0);
    assert |DropStale(s.window.tokens, EntryTime, 0.0)| == 1 by { assert !Stale(EntryTime(full[0]), 0.0); }
  }

  /** Thread 0's first request takes the whole token budget. */
  lemma FillWindow(c: Config, least: int) returns (s: State)
    requires c.rpm >= 1 && c.tpm >= 1 && c.callers >= 1 && least <= 1
    ensures ReachableWith(c, s, least) && LockFree(s) && s.clock == 0.0 && s.history == [Grant(0, 0.0, c.tpm, 0)]
    ensures s.threads == Line(c.callers, 1, 1)
  {
    hide ReachableWith;
    var start := Start(c, least);
    s := Request(c, start, 0, c.tpm, 0.0, least);
  }

  lemma Start(c: Config, least: int) returns (s: State)
    ensures ReachableWith(c, s, least) && LockFree(s) && s.clock == 0.0 && s.history == []
    ensures s.threads == seq(c.callers, _ => Idle)
  {
    s := State(Window([], []), 0.0, seq(c.callers, _ => Idle), []);
    assert IsRun(c, [s]) && [s][|[s]| - 1] == s && AtLeast(s, least);
  }

  /** Another thread, with one token, clears RPM while thread 0's grant fills the token window. */
  lemma ClearRpm(c: Config, s: State, t: ThreadId, least: int) returns (s': State)
    requires c.rpm >= 2 && c.tpm >= 1 && least <= 1
    requires ReachableWith(c, s, least) && LockFree(s) && t < |s.threads| && s.threads[t] == Idle && s.clock == 0.0
    requires s.history == [Grant(0, 0.0, c.tpm, 0)]
    ensures ReachableWith(c, s', least) && s'.clock == 0.0 && s'.history == s.history
    ensures s'.threads == s.threads[t := Checking(Tpm, 1, 1)]
  {
    hide ReachableWith;
    var s1 := Advance(c, s, Call(t, 1), least);
    var s2 := Advance(c, s1, Acquire(t), least);
    SubsetSize(Since(s.history, 1, 0.0 - WINDOW), {0});
    WithIsReachable(c, s2, least);
    RpmDecision(c, s2, 0.0);
    s' := Advance(c, s2, Check(t, 0.0), least);
    assert s'.threads[t] == Checking(Tpm, 1, 1);
  }

  const PARKED: Pc := Sleeping(Tpm, 1, 1, WINDOW + SLACK)

  /** It finds no room for its token and goes to sleep. */
  lemma Park(c: Config, s: State, t: ThreadId, least: int) returns (s': State)
    requires c.rpm >= 2 && c.tpm >= 1 && least <= 1
    requires ReachableWith(c, s, least) && LockFree(s) && t < |s.threads| && s.threads[t] == Idle && s.clock == 0.0
    requires s.history == [Grant(0, 0.0, c.tpm, 0)]
    ensures ReachableWith(c, s', least) && LockFree(s') && s'.clock == 0.0 && s'.history == s.history
    ensures s'.threads == s.threads[t := PARKED]
  {
    hide ReachableWith;
    var s3 := ClearRpm(c, s, t, least);
    assert TokensSince(s.history, 1, 0.0 - WINDOW) == TokensSince(s.history, 0, 0.0 - WINDOW) + c.tpm;
    WithIsReachable(c, s3, least);
    TpmDecision(c, s3, 0.0, 1);
    FirstTokenHead(c, s3);
    s' := Advance(c, s3, Check(t, 0.0), least);
    assert s'.threads[t] == PARKED;
  }

  /** Threads `from` to `to - 1` are parked, and all others idle. */
  function Line(callers: nat, from: nat, to: nat): seq<Pc>
  {
    seq(callers, i => if from <= i < to then PARKED else Idle)
  }

  lemma {:induction false} ParkMany(c: Config, s: State, parked: nat, least: int) returns (s': State)
    requires c.rpm >= 2 && c.tpm >= 1 && parked < c.callers && least <= 1
    requires ReachableWith(c, s, least) && s.threads == Line(c.callers, 1, 1) && s.clock == 0.0
    requires s.history == [Grant(0, 0.0, c.tpm, 0)]
    ensures ReachableWith(c, s', least) && s'.clock == 0.0 && s'.history == s.history
    ensures s'.threads == Line(c.callers, 1, parked + 1)
    decreases parked
  {
    hide ReachableWith;
    if parked == 0 {
      s' := s;
    } else {
      var r := ParkMany(c, s, parked - 1, least);
      s' := Park(c, r, parked, least);
    }
  }

  /** The history after the first grant and `k` grants of `each` tokens once it has left the window. */
  function Ladder(first: int, each: int, k: nat): seq<Grant>
  {
    if k == 0 then [Grant(0, 0.0, first, 0)] else Ladder(first, each, k - 1) + [Grant(0, WINDOW + SLACK, each, k)]
  }

  lemma {:induction false} LadderShape(first: int, each: int, k: nat)
    ensures |Ladder(first, each, k)| == k + 1
    ensures Ladder(first, each, k)[0] == Grant(0, 0.0, first, 0)
    ensures forall i :: 1 <= i <= k ==> Ladder(first, each, k)[i] == Grant(0, WINDOW + SLACK, each, i)
  {
    if k > 0 { LadderShape(first, each, k - 1); }
  }

  /** What the ladder has granted of the last minute. */
  lemma {:induction false} LadderTokens(first: int, each: int, k: nat)
    requires 0 <= each <= 1
    ensures |Ladder(first, each, k)| == k + 1
    ensures TokensSince(Ladder(first, each, k), k + 1, SLACK) == if each == 1 then k else 0
  {
    if k > 0 {
      LadderTokens(first, each, k - 1);
      TokensSinceSteady(Ladder(first, each, k - 1), k, SLACK, Grant(0, WINDOW + SLACK, each, k));
    }
  }

  lemma LadderRequests(first: int, each: int, k: nat)
    ensures |Ladder(first, each, k)| == k + 1
    ensures |Since(Ladder(first, each, k), k + 1, SLACK)| <= k
  {
    LadderShape(first, each, k);
    RangeSize(1, k + 1);
    SubsetSize(Since(Ladder(first, each, k), k + 1, SLACK), Range(1, k + 1));
  }

  lemma {:induction false} Climb(c: Config, s: State, each: int, k: nat) returns (s': State)
    requires 0 <= each <= 1 && k <= c.rpm && (each == 1 ==> c.rpm <= c.tpm)
    requires ReachableWith(c, s, each) && LockFree(s) && |s.threads| >= 1 && s.threads[0] == Idle && s.clock == 0.0
    requires s.history == Ladder(c.tpm, each, 0)
    ensures ReachableWith(c, s', each) && LockFree(s') && s'.clock <= WINDOW + SLACK
    ensures s'.threads == s.threads && s'.history == Ladder(c.tpm, each, k)
  {
    hide ReachableWith;
    if k == 0 {
      s' := s;
    } else {
      var r := Climb(c, s, each, k - 1);
      LadderRequests(c.tpm, each, k - 1);
      LadderTokens(c.tpm, each, k - 1);
      assert WINDOW + SLACK - WINDOW == SLACK;
      s' := Request(c, r, 0, each, WINDOW + SLACK, each);
    }
  }

  /** A parked thread finds room for its token and is granted on its old RPM clearance. */
  lemma WakeParked(c: Config, s: State, t: ThreadId, now: real, least: int) returns (s': State)
    requires c.tpm >= 1 && ReachableWith(c, s, least) && LockFree(s) && t < |s.threads| && s.clock <= now
    requires s.threads[t] == Sleeping(Tpm, 1, 1, now)
    requires TokensSince(s.history, |s.history|, now - WINDOW) + 1 <= c.tpm
    ensures ReachableWith(c, s', least) && s'.history == s.history + [Grant(t, now, 1, 1)]
    ensures s'.threads == s.threads[t := Idle] && s'.clock == now
  {
    hide ReachableWith;
    var s1 := Advance(c, s, Wake(t, now), least);
    assert LockFree(s1);
    var s2 := Advance(c, s1, Acquire(t), least);
    WithIsReachable(c, s2, least);
    TpmDecision(c, s2, now, 1);
    var s3 := Advance(c, s2, Check(t, now), least);
    s' := Advance(c, s3, Append(t, now), least);
  }

  /** One grant at the start, and all others once it has left the window. */
  ghost predicate OneThenLate(h: seq<Grant>)
  {
    h != [] && h[0].time == 0.0 && forall i :: 1 <= i < |h| ==> h[i].time == WINDOW + SLACK
  }

  lemma LateSize(h: seq<Grant>)
    requires OneThenLate(h)
    ensures |Within(h, WINDOW + SLACK)| == |h| - 1
  {
    RangeSize(1, |h|);
    assert Within(h, WINDOW + SLACK) == Range(1, |h|);
  }

  lemma LateTokens(h: seq<Grant>, g: Grant)
    requires g.time == WINDOW + SLACK && g.tokens == 1
    ensures TokensSince(h + [g], |h| + 1, SLACK) == TokensSince(h, |h|, SLACK) + 1
  {
    TokensSinceSteady(h, |h|, SLACK, g);
  }

  /** The parked threads wake in turn. */
  lemma {:induction false} WakeMany(c: Config, s: State, parked: nat, woken: nat, least: int) returns (s': State)
    requires c.tpm >= 1 && woken <= parked < c.callers
    requires ReachableWith(c, s, least) && s.threads == Line(c.callers, 1, parked + 1) && s.clock <= WINDOW + SLACK
    requires OneThenLate(s.history) && TokensSince(s.history, |s.history|, SLACK) + parked <= c.tpm
    ensures ReachableWith(c, s', least) && s'.clock <= WINDOW + SLACK
    ensures s'.threads == Line(c.callers, woken + 1, parked + 1)
    ensures OneThenLate(s'.history) && |s'.history| == |s.history| + woken
    ensures TokensSince(s'.history, |s'.history|, SLACK) == TokensSince(s.history, |s.history|, SLACK) + woken
    decreases woken
  {
    hide ReachableWith;
    if woken == 0 {
      s' := s;
    } else {
      var r := WakeMany(c, s, parked, woken - 1, least);
      assert WINDOW + SLACK - WINDOW == SLACK;
      s' := WakeParked(c, r, woken, WINDOW + SLACK, least);
      LateTokens(r.history, Grant(woken, WINDOW + SLACK, 1, 1));
    }
  }

  /** With a token budget and an allowance of two or more, a run exceeds the allowance by as many grants as
      callers are `parked`, if the budget has a token for each of them and for `each` other request. */
  lemma OverrunExists(c: Config, each: int, parked: nat) returns (s: State)
    requires c.rpm >= 2 && c.tpm >= 1 && parked < c.callers
    requires 0 <= each <= 1 && (if each == 1 then c.rpm + parked <= c.tpm else parked <= c.tpm)
    ensures ReachableWith(c, s, each) && |Within(s.history, WINDOW + SLACK)| == c.rpm + parked
  {
    hide ReachableWith, TokensSince, Within;
    var s1 := FillWindow(c, each);
    var s2 := ParkMany(c, s1, parked, each);
    var s3 := Climb(c, s2, each, c.rpm);
    LadderTokens(c.tpm, each, c.rpm);
    LadderShape(c.tpm, each, c.rpm);
    s := WakeMany(c, s3, parked, parked, each);
    LateSize(s.history);
  }

  // ---- How far the ceiling is exceeded -----------------------------------------------------------

  /** The most grants a window can hold: each further caller adds one, as long as there is a token for it. */
  function Peak(c: Config): int
  {
    if c.callers == 1 || PassIsAtomic(c) then c.rpm
    else c.rpm + if c.callers - 1 <= c.tpm then c.callers - 1 else c.tpm
  }

  lemma SinceAtMostAll(h: seq<Grant>, a: real)
    ensures |Since(h, |h|, a)| <= |h|
  {
    RangeSize(0, |h|);
    SubsetSize(Since(h, |h|, a), Range(0, |h|));
  }

  /** `k` requests for no tokens, one after the other. */
  lemma {:induction false} PlainRequests(c: Config, k: nat) returns (s: State)
    requires k <= c.rpm && c.callers >= 1
    ensures ReachableWith(c, s, 0) && LockFree(s) && s.clock == 0.0 && s.threads == seq(c.callers, _ => Idle)
    ensures |s.history| == k && forall i :: 0 <= i < k ==> s.history[i].time == 0.0
    decreases k
  {
    hide ReachableWith, Since, TokensSince;
    if k == 0 {
      s := Start(c, 0);
    } else {
      var r := PlainRequests(c, k - 1);
      SinceAtMostAll(r.history, 0.0 - WINDOW);
      s := Request(c, r, 0, 0, 0.0, 0);
    }
  }

  lemma PlainSize(h: seq<Grant>)
    requires forall i :: 0 <= i < |h| ==> h[i].time == 0.0
    ensures |Within(h, 0.0)| == |h|
  {
    RangeSize(0, |h|);
    assert Within(h, 0.0) == Range(0, |h|);
  }

  lemma PeakReached(c: Config) returns (s: State, a: real)
    requires c.rpm >= 1 && c.callers >= 1
    ensures Reachable(c, s) && |Within(s.history, a)| == Peak(c)
  {
    if c.callers == 1 || PassIsAtomic(c) {
      s := PlainRequests(c, c.rpm);
      a := 0.0;
      PlainSize(s.history);
    } else {
      s := OverrunExists(c, 0, Peak(c) - c.rpm);
      a := WINDOW + SLACK;
    }
    WithIsReachable(c, s, 0);
  }

  /** No window of any run holds more than the peak, and some window of some run holds that many. */
  lemma PeakExactly(c: Config)
    requires c.rpm >= 1 && c.callers >= 1
    ensures forall s: State, a: real {:trigger Within(s.history, a), Reachable(c, s)} ::
              Reachable(c, s) ==> |Within(s.history, a)| <= Peak(c)
    ensures exists s: State, a: real {:trigger Within(s.history, a), Reachable(c, s)} ::
              Reachable(c, s) && |Within(s.history, a)| == Peak(c)
  {
    forall s: State, a: real | Reachable(c, s) ensures |Within(s.history, a)| <= Peak(c) {
      if PassIsAtomic(c) {
        AtomicPassesKeepCeiling(c, s, a);
      } else {
        RequestCeiling(c, s, a);
        LateGrantsCostTokens(c, s, a);
      }
    }
    var s, a := PeakReached(c);
    assert Reachable(c, s) && |Within(s.history, a)| == Peak(c);
  }

  /** The documented request ceiling holds in every run if and only if there is one caller, no token
      budget, or an allowance of a single request. */
  lemma RequestCeilingExactly(c: Config)
    requires c.rpm >= 1 && c.callers >= 1
    ensures KeepsRequestCeiling(c) <==> c.callers == 1 || PassIsAtomic(c)
  {
    if c.callers == 1 || PassIsAtomic(c) {
      forall s: State, a: real | Reachable(c, s) ensures |Within(s.history, a)| <= c.rpm {
        if c.callers == 1 { RequestCeiling(c, s, a); } else { AtomicPassesKeepCeiling(c, s, a); }
      }
    } else {
      var s := OverrunExists(c, 0, 1);
      WithIsReachable(c, s, 0);
      assert |Within(s.history, WINDOW + SLACK)| > c.rpm;
    }
  }

  /** Where every call carries tokens, as a caller's estimate of at least one does, it holds also when the
      token budget is no larger than the allowance, and in no other case. */
  lemma CeilingWithTokensExactly(c: Config)
    requires c.rpm >= 1 && c.callers >= 1
    ensures KeepsCeilingWithTokens(c) <==> c.callers == 1 || PassIsAtomic(c) || c.tpm <= c.rpm
  {
    if c.callers == 1 || PassIsAtomic(c) || c.tpm <= c.rpm {
      forall s: State, a: real | ReachableWith(c, s, 1) ensures |Within(s.history, a)| <= c.rpm {
        WithIsReachable(c, s, 1);
        if c.callers == 1 { RequestCeiling(c, s, a); }
        else if PassIsAtomic(c) { AtomicPassesKeepCeiling(c, s, a); }
        else { BudgetKeepsCeiling(c, s, a); }
      }
    } else {
      var s := OverrunExists(c, 1, 1);
      assert |Within(s.history, WINDOW + SLACK)| > c.rpm;
    }
  }
}
