/**
 Any number of threads inside `RateLimiter.wait` (server/core/embedding/rate_limiter.py:39-79).

 A thread takes the lock, runs RPM passes until one proceeds, then TPM passes until one proceeds,
 then appends; a pass that has to sleep gives the lock up, and the RPM check is not repeated after a
 TPM sleep.  Steps of different threads interleave in every way the lock allows, and every reading
 of the clock may be later than the one before.
 */
module RateLimiterProtocol {
  import opened Collections
  import opened RateLimiter

  type ThreadId = nat

  datatype Loop = Rpm | Tpm

  /** Where a thread is.  `base` is a history variable: how many grants had been made when the
      thread's RPM check let it through. */
  datatype Pc =
    | Idle
    | Blocked(loop: Loop, tokens: int, base: nat)                // waits for the lock
    | Checking(loop: Loop, tokens: int, base: nat)               // holds the lock, before a pass
    | Sleeping(loop: Loop, tokens: int, base: nat, until: real)  // gave the lock up
    | Granting(tokens: int, base: nat)                           // holds the lock, before the append
  {
    predicate HoldsLock() { Checking? || Granting? }

    /** Past the RPM check, not yet granted. */
    predicate Passed() { Granting? || (!Idle? && loop == Tpm) }
  }

  datatype Grant = Grant(thread: ThreadId, time: real, tokens: int, base: nat)

  datatype Config = Config(rpm: int, tpm: int, callers: nat)

  datatype State = State(window: Window, clock: real, threads: seq<Pc>, history: seq<Grant>)

  datatype Step =
    | Call(t: ThreadId, tokens: int)
    | Acquire(t: ThreadId)
    | Check(t: ThreadId, now: real)
    | Append(t: ThreadId, now: real)
    | Wake(t: ThreadId, now: real)

  ghost predicate Init(c: Config, s: State)
  {
    && s.window == Window([], []) && s.history == []
    && |s.threads| == c.callers && forall t :: 0 <= t < c.callers ==> s.threads[t] == Idle
  }

  ghost predicate LockFree(s: State)
  {
    forall t :: 0 <= t < |s.threads| ==> !s.threads[t].HoldsLock()
  }

  ghost predicate Enabled(c: Config, s: State, step: Step)
  {
    step.t < |s.threads| &&
    var pc := s.threads[step.t];
    match step
    case Call(_, _) => pc.Idle?
    case Acquire(_) => pc.Blocked? && LockFree(s)
    case Check(_, now) => pc.Checking? && s.clock <= now
    case Append(_, now) => pc.Granting? && s.clock <= now
    case Wake(_, now) => pc.Sleeping? && s.clock <= now && pc.until <= now
  }

  function At(s: State, t: ThreadId, pc: Pc): State
    requires t < |s.threads|
  {
    s.(threads := s.threads[t := pc])
  }

  /** Where a pass over window `w` sends its thread, `granted` grants having been made so far. */
  function AfterPass(c: Config, pc: Pc, w: Window, now: real, granted: nat): Pc
    requires pc.Checking?
  {
    match pc.loop
    case Rpm =>
      (match RpmVerdict(c.rpm, w, now)
       case Proceed => Checking(Tpm, pc.tokens, granted)
       case Sleep(until) => Sleeping(Rpm, pc.tokens, pc.base, until)
       case IndexError => Idle)
    case Tpm =>
      if !Limited(c.tpm, pc.tokens) then Granting(pc.tokens, pc.base)
      else match TpmVerdict(c.tpm, w, now, pc.tokens)
           case Sleep(until) => Sleeping(Tpm, pc.tokens, pc.base, until)
           case _ => Granting(pc.tokens, pc.base)
  }

  /** The state after an enabled step.  Only an RPM pass with a ceiling of zero or less can fail; it
      leaves the call, and `with self._lock` frees the lock. */
  function After(c: Config, s: State, step: Step): State
    requires step.t < |s.threads|
  {
    var pc := s.threads[step.t];
    match step
    case Call(t, tokens) => At(s, t, Blocked(Rpm, tokens, 0))
    case Acquire(t) => if pc.Blocked? then At(s, t, Checking(pc.loop, pc.tokens, pc.base)) else s
    case Wake(t, now) =>
      if pc.Sleeping? then At(s.(clock := now), t, Blocked(pc.loop, pc.tokens, pc.base)) else s
    case Append(t, now) =>
      if pc.Granting? then
        At(s.(clock := now,
              window := Granted(s.window, now, pc.tokens),
              history := s.history + [Grant(t, now, pc.tokens, pc.base)]), t, Idle)
      else s
    case Check(t, now) =>
      if !pc.Checking? then s
      else
        var w := if pc.loop == Rpm || Limited(c.tpm, pc.tokens) then Purged(s.window, now) else s.window;
        At(s.(clock := now, window := w), t, AfterPass(c, pc, w, now, |s.history|))
  }

  ghost predicate Next(c: Config, s: State, s': State)
  {
    exists step :: Enabled(c, s, step) && s' == After(c, s, step)
  }

  ghost predicate IsRun(c: Config, run: seq<State>)
  {
    && run != []
    && Init(c, run[0])
    && forall i, j :: 0 <= i && j == i + 1 && j < |run| ==> Next(c, run[i], run[j])
  }

  ghost predicate Reachable(c: Config, s: State)
  {
    exists run :: IsRun(c, run) && run[|run| - 1] == s
  }

  // ---- Measuring a history -------------------------------------------------------------------

  /** The grants among the first `n` made at or after instant `a`. */
  ghost function Since(h: seq<Grant>, n: nat, a: real): set<int>
    requires n <= |h|
  {
    set i | 0 <= i < n && a <= h[i].time
  }

  /** The grants of the closed minute that begins at `a`. */
  ghost function Within(h: seq<Grant>, a: real): set<int>
  {
    set i | 0 <= i < |h| && a <= h[i].time <= a + 60.0
  }

  ghost function TokenBearing(h: seq<Grant>, a: real): set<int>
  {
    set i | i in Within(h, a) && h[i].tokens > 0
  }

  function TokensOf(g: Grant): int { if g.tokens > 0 then g.tokens else 0 }

  /** Tokens granted at or after `a` among the first `n` grants. */
  function TokensSince(h: seq<Grant>, n: nat, a: real): int
    requires n <= |h|
  {
    if n == 0 then 0
    else TokensSince(h, n - 1, a) + if a <= h[n - 1].time then TokensOf(h[n - 1]) else 0
  }

  /** Tokens granted in the closed minute that begins at `a`, among the first `n` grants. */
  function TokensWithin(h: seq<Grant>, n: nat, a: real): int
    requires n <= |h|
  {
    if n == 0 then 0
    else TokensWithin(h, n - 1, a) + if a <= h[n - 1].time <= a + 60.0 then TokensOf(h[n - 1]) else 0
  }

  ghost predicate NoTokensSince(h: seq<Grant>, n: nat, a: real)
    requires n <= |h|
  {
    forall i :: 0 <= i < n && a <= h[i].time ==> h[i].tokens <= 0
  }

  function RequestLog(h: seq<Grant>): seq<real>
  {
    seq(|h|, i requires 0 <= i < |h| => h[i].time)
  }

  function TokenLog(h: seq<Grant>, n: nat): seq<TokenEntry>
    requires n <= |h|
  {
    if n == 0 then []
    else TokenLog(h, n - 1) + if h[n - 1].tokens > 0 then [TokenEntry(h[n - 1].time, h[n - 1].tokens)] else []
  }

  // ---- The invariant -------------------------------------------------------------------------

  ghost predicate Chronological(h: seq<Grant>, clock: real)
  {
    && (forall i, j :: 0 <= i < j < |h| ==> h[i].time <= h[j].time)
    && forall i :: 0 <= i < |h| ==> h[i].time <= clock
  }

  ghost predicate WindowTracksHistory(s: State)
  {
    && IsWindowOf(s.window.requests, RequestLog(s.history), Instant, s.clock)
    && IsWindowOf(s.window.tokens, TokenLog(s.history, |s.history|), EntryTime, s.clock)
  }

  ghost predicate OneHolder(s: State)
  {
    forall t, u :: 0 <= t < u < |s.threads| ==> !(s.threads[t].HoldsLock() && s.threads[u].HoldsLock())
  }

  /** When RPM let it through, fewer than `rpm` of the grants so far were less than a window old. */
  ghost predicate RpmCleared(c: Config, h: seq<Grant>, base: nat, now: real)
  {
    base <= |h| && |Since(h, base, now - WINDOW)| < c.rpm
  }

  ghost predicate TpmCleared(c: Config, h: seq<Grant>, n: nat, now: real, tokens: int)
    requires n <= |h|
  {
    Limited(c.tpm, tokens) ==>
      NoTokensSince(h, n, now - WINDOW) || TokensSince(h, n, now - WINDOW) + tokens <= c.tpm
  }

  ghost predicate GrantsOlderThan(h: seq<Grant>, t: ThreadId, base: nat)
  {
    forall i :: 0 <= i < |h| && h[i].thread == t ==> i < base
  }

  ghost predicate ThreadInv(c: Config, s: State, t: ThreadId)
    requires t < |s.threads|
  {
    var pc := s.threads[t];
    && (pc.Passed() ==> RpmCleared(c, s.history, pc.base, s.clock) && GrantsOlderThan(s.history, t, pc.base))
    && (pc.Granting? ==> TpmCleared(c, s.history, |s.history|, s.clock, pc.tokens))
  }

  ghost predicate GrantInv(c: Config, h: seq<Grant>, i: nat)
    requires i < |h|
  {
    && h[i].thread < c.callers
    && RpmCleared(c, h, h[i].base, h[i].time)
    && h[i].base <= i
    && TpmCleared(c, h, i, h[i].time, h[i].tokens)
    && forall j :: 0 <= j < i && h[j].thread == h[i].thread ==> j < h[i].base
  }

  ghost predicate Inv(c: Config, s: State)
  {
    && |s.threads| == c.callers
    && Chronological(s.history, s.clock)
    && WindowTracksHistory(s)
    && OneHolder(s)
    && (forall t :: 0 <= t < c.callers ==> ThreadInv(c, s, t))
    && forall i :: 0 <= i < |s.history| ==> GrantInv(c, s.history, i)
  }

  // ---- Small facts ---------------------------------------------------------------------------

  lemma {:induction false} TokenLogOrdered(h: seq<Grant>, n: nat, clock: real)
    requires n <= |h| && Chronological(h, clock)
    ensures Ordered(TokenLog(h, n), EntryTime)
    ensures forall i :: 0 <= i < |TokenLog(h, n)| ==> n > 0 && TokenLog(h, n)[i].time <= h[n - 1].time
  {
    if n > 0 {
      TokenLogOrdered(h, n - 1, clock);
    }
  }

  lemma {:induction false} TokenLogSteady(h: seq<Grant>, n: nat, g: Grant)
    requires n <= |h|
    ensures TokenLog(h + [g], n) == TokenLog(h, n)
  {
    if n > 0 { TokenLogSteady(h, n - 1, g); }
  }

  lemma {:induction false} TokensSinceSteady(h: seq<Grant>, n: nat, a: real, g: Grant)
    requires n <= |h|
    ensures TokensSince(h + [g], n, a) == TokensSince(h, n, a)
  {
    if n > 0 { TokensSinceSteady(h, n - 1, a, g); }
  }

  lemma {:induction false} TokensSinceShrinks(h: seq<Grant>, n: nat, a: real, b: real)
    requires n <= |h| && a <= b
    ensures TokensSince(h, n, b) <= TokensSince(h, n, a)
  {
    if n > 0 { TokensSinceShrinks(h, n - 1, a, b); }
  }

  /** The window's token total is what the history granted since the window opened. */
  lemma {:induction false} WindowTotal(h: seq<Grant>, n: nat, k: nat, now: real)
    requires n <= |h| && k <= |TokenLog(h, n)|
    requires forall i :: 0 <= i < |TokenLog(h, n)| ==> (i >= k <==> !Stale(TokenLog(h, n)[i].time, now))
    ensures SumTokens(TokenLog(h, n)[k..]) == TokensSince(h, n, now - WINDOW)
    ensures k == |TokenLog(h, n)| ==> NoTokensSince(h, n, now - WINDOW)
    decreases n
  {
    if n > 0 {
      var shorter := TokenLog(h, n - 1);
      var log := TokenLog(h, n);
      assert forall i :: 0 <= i < |shorter| ==> log[i] == shorter[i];
      if h[n - 1].tokens > 0 {
        var e := TokenEntry(h[n - 1].time, h[n - 1].tokens);
        assert log[|shorter|] == e;
        if k <= |shorter| {
          WindowTotal(h, n - 1, k, now);
          assert log[k..] == shorter[k..] + [e];
          SumTokensConcat(shorter[k..], [e]);
        } else {
          WindowTotal(h, n - 1, |shorter|, now);
          assert log[k..] == [] == shorter[|shorter|..];
        }
      } else {
        assert log == shorter;
        WindowTotal(h, n - 1, k, now);
      }
    }
  }

  // ---- The invariant holds in every reachable state --------------------------------------------

  lemma InitWindow(c: Config, s: State)
    requires Init(c, s)
    ensures WindowTracksHistory(s)
  {
    assert RequestLog(s.history) == [];
    assert TokenLog(s.history, 0) == [];
  }

  lemma InitInv(c: Config, s: State)
    requires Init(c, s)
    ensures Inv(c, s)
  {
    InitWindow(c, s);
    forall t | 0 <= t < c.callers ensures ThreadInv(c, s, t) {
      assert s.threads[t] == Idle;
    }
  }

  /** Time passing, with the history unchanged, weakens nothing that was cleared. */
  lemma ClearanceAges(c: Config, h: seq<Grant>, base: nat, now: real, later: real, tokens: int)
    requires base <= |h| && now <= later
    ensures RpmCleared(c, h, base, now) ==> RpmCleared(c, h, base, later)
    ensures TpmCleared(c, h, base, now, tokens) ==> TpmCleared(c, h, base, later, tokens)
  {
    SubsetSize(Since(h, base, later - WINDOW), Since(h, base, now - WINDOW));
    TokensSinceShrinks(h, base, now - WINDOW, later - WINDOW);
  }

  lemma ClearanceSteady(c: Config, h: seq<Grant>, g: Grant, base: nat, now: real, tokens: int)
    requires base <= |h|
    ensures RpmCleared(c, h + [g], base, now) == RpmCleared(c, h, base, now)
    ensures TpmCleared(c, h + [g], base, now, tokens) == TpmCleared(c, h, base, now, tokens)
  {
    assert Since(h + [g], base, now - WINDOW) == Since(h, base, now - WINDOW);
    TokensSinceSteady(h, base, now - WINDOW, g);
    assert forall i :: 0 <= i < base ==> (h + [g])[i] == h[i];
  }

  lemma ThreadAges(c: Config, s: State, s': State, t: ThreadId)
    requires t < |s.threads| == |s'.threads| && ThreadInv(c, s, t)
    requires s'.history == s.history && s.clock <= s'.clock && s'.threads[t] == s.threads[t]
    ensures ThreadInv(c, s', t)
  {
    var pc := s.threads[t];
    if pc.Passed() { ClearanceAges(c, s.history, pc.base, s.clock, s'.clock, pc.tokens); }
    if pc.Granting? { ClearanceAges(c, s.history, |s.history|, s.clock, s'.clock, pc.tokens); }
  }

  lemma FreshSuffixSize(h: seq<Grant>, k: nat, now: real)
    requires k <= |h| && forall i :: 0 <= i < |h| ==> (k <= i <==> !Stale(h[i].time, now))
    ensures |Since(h, |h|, now - WINDOW)| == |h| - k
  {
    assert Since(h, |h|, now - WINDOW) == Range(k, |h|);
    RangeSize(k, |h|);
  }

  /** Purging at `now` leaves a window whose size and total are those of the last window length. */
  lemma PurgeCountsRequests(s: State, now: real)
    requires Chronological(s.history, s.clock) && s.clock <= now
    requires IsWindowOf(s.window.requests, RequestLog(s.history), Instant, s.clock)
    ensures var requests := DropStale(s.window.requests, Instant, now);
            && IsWindowOf(requests, RequestLog(s.history), Instant, now)
            && |requests| == |Since(s.history, |s.history|, now - WINDOW)|
  {
    var log := RequestLog(s.history);
    assert forall i :: 0 <= i < |log| ==> log[i] == s.history[i].time;
    PurgeKeepsExactlyFresh(s.window.requests, log, Instant, s.clock, now);
    FreshSuffixSize(s.history, |log| - |DropStale(s.window.requests, Instant, now)|, now);
  }

  lemma PurgeSumsTokens(s: State, now: real)
    requires Chronological(s.history, s.clock) && s.clock <= now
    requires IsWindowOf(s.window.tokens, TokenLog(s.history, |s.history|), EntryTime, s.clock)
    ensures var tokens := DropStale(s.window.tokens, EntryTime, now);
            && IsWindowOf(tokens, TokenLog(s.history, |s.history|), EntryTime, now)
            && SumTokens(tokens) == TokensSince(s.history, |s.history|, now - WINDOW)
            && (tokens == [] ==> NoTokensSince(s.history, |s.history|, now - WINDOW))
  {
    var h, n := s.history, |s.history|;
    TokenLogOrdered(h, n, s.clock);
    PurgeKeepsExactlyFresh(s.window.tokens, TokenLog(h, n), EntryTime, s.clock, now);
    WindowTotal(h, n, |TokenLog(h, n)| - |DropStale(s.window.tokens, EntryTime, now)|, now);
  }

  /** What an RPM pass that proceeds has established for its own thread. */
  lemma RpmPassClears(c: Config, s: State, t: ThreadId, now: real)
    requires Inv(c, s) && Enabled(c, s, Check(t, now)) && s.threads[t].loop == Rpm
    ensures ThreadInv(c, After(c, s, Check(t, now)), t)
  {
    var s' := After(c, s, Check(t, now));
    PurgeCountsRequests(s, now);
    RpmSleepOutlastsHead(c.rpm, s.window, now);
    if s'.threads[t].Passed() {
      assert GrantsOlderThan(s.history, t, |s.history|);
      assert RpmCleared(c, s.history, |s.history|, now);
    }
  }

  lemma TpmPassClears(c: Config, s: State, t: ThreadId, now: real)
    requires Inv(c, s) && Enabled(c, s, Check(t, now)) && s.threads[t].loop == Tpm
    ensures ThreadInv(c, After(c, s, Check(t, now)), t)
  {
    var s' := After(c, s, Check(t, now));
    var pc := s.threads[t];
    assert ThreadInv(c, s, t);
    ClearanceAges(c, s.history, pc.base, s.clock, now, pc.tokens);
    PurgeSumsTokens(s, now);
    TpmSleepOutlastsHead(c.tpm, s.window, now, pc.tokens);
    if s'.threads[t].Granting? {
      assert TpmCleared(c, s.history, |s.history|, now, pc.tokens);
    }
  }

  lemma CheckKeepsWindow(c: Config, s: State, t: ThreadId, now: real)
    requires Inv(c, s) && Enabled(c, s, Check(t, now))
    ensures WindowTracksHistory(After(c, s, Check(t, now)))
  {
    PurgeCountsRequests(s, now);
    PurgeSumsTokens(s, now);
    WindowAges(s.window.requests, RequestLog(s.history), Instant, s.clock, now);
    WindowAges(s.window.tokens, TokenLog(s.history, |s.history|), EntryTime, s.clock, now);
  }

  lemma CheckKeepsInv(c: Config, s: State, t: ThreadId, now: real)
    requires Inv(c, s) && Enabled(c, s, Check(t, now))
    ensures Inv(c, After(c, s, Check(t, now)))
  {
    var s' := After(c, s, Check(t, now));
    assert s'.history == s.history && s'.clock == now && |s'.threads| == c.callers;
    CheckKeepsWindow(c, s, t, now);
    forall u | 0 <= u < c.callers ensures ThreadInv(c, s', u) {
      if u == t {
        if s.threads[t].loop == Rpm { RpmPassClears(c, s, t, now); } else { TpmPassClears(c, s, t, now); }
      } else {
        assert ThreadInv(c, s, u);
        ThreadAges(c, s, s', u);
      }
    }
  }

  lemma AppendKeepsInv(c: Config, s: State, t: ThreadId, now: real)
    requires Inv(c, s) && Enabled(c, s, Append(t, now))
    ensures Inv(c, After(c, s, Append(t, now)))
  {
    var s' := After(c, s, Append(t, now));
    var pc := s.threads[t];
    var h := s.history;
    var g := Grant(t, now, pc.tokens, pc.base);
    assert ThreadInv(c, s, t);
    AppendKeepsWindow(c, s, t, now);
    forall u | 0 <= u < c.callers ensures ThreadInv(c, s', u) {
      var qc := s.threads[u];
      assert ThreadInv(c, s, u);
      if u != t && qc.Passed() {
        ClearanceAges(c, h, qc.base, s.clock, now, qc.tokens);
        ClearanceSteady(c, h, g, qc.base, now, qc.tokens);
      }
    }
    forall i | 0 <= i < |h + [g]| ensures GrantInv(c, h + [g], i) {
      if i < |h| {
        assert GrantInv(c, h, i);
        ClearanceSteady(c, h, g, h[i].base, h[i].time, 0);
        ClearanceSteady(c, h, g, i, h[i].time, h[i].tokens);
      } else {
        ClearanceAges(c, h, pc.base, s.clock, now, 0);
        ClearanceAges(c, h, |h|, s.clock, now, pc.tokens);
        ClearanceSteady(c, h, g, pc.base, now, 0);
        ClearanceSteady(c, h, g, |h|, now, pc.tokens);
      }
    }
  }

  lemma AppendKeepsWindow(c: Config, s: State, t: ThreadId, now: real)
    requires Inv(c, s) && Enabled(c, s, Append(t, now))
    ensures WindowTracksHistory(After(c, s, Append(t, now)))
  {
    var h := s.history;
    var pc := s.threads[t];
    var g := Grant(t, now, pc.tokens, pc.base);
    WindowAges(s.window.requests, RequestLog(h), Instant, s.clock, now);
    WindowAges(s.window.tokens, TokenLog(h, |h|), EntryTime, s.clock, now);
    AppendToWindow(s.window.requests, RequestLog(h), Instant, now, now);
    assert RequestLog(h + [g]) == RequestLog(h) + [now];
    TokenLogSteady(h, |h|, g);
    if pc.tokens > 0 {
      AppendToWindow(s.window.tokens, TokenLog(h, |h|), EntryTime, now, TokenEntry(now, pc.tokens));
    }
  }

  lemma StepKeepsInv(c: Config, s: State, step: Step)
    requires Inv(c, s) && Enabled(c, s, step)
    ensures Inv(c, After(c, s, step))
  {
    match step
    case Check(t, now) => CheckKeepsInv(c, s, t, now);
    case Append(t, now) => AppendKeepsInv(c, s, t, now);
    case Wake(t, now) =>
      var s' := After(c, s, step);
      assert ThreadInv(c, s, t);
      WindowAges(s.window.requests, RequestLog(s.history), Instant, s.clock, now);
      WindowAges(s.window.tokens, TokenLog(s.history, |s.history|), EntryTime, s.clock, now);
      forall u | 0 <= u < c.callers ensures ThreadInv(c, s', u) {
        assert ThreadInv(c, s, u);
        if u != t {
          ThreadAges(c, s, s', u);
        } else if s.threads[t].Passed() {
          ClearanceAges(c, s.history, s.threads[t].base, s.clock, now, 0);
        }
      }
    case _ =>
      var s' := After(c, s, step);
      forall u | 0 <= u < c.callers ensures ThreadInv(c, s', u) {
        assert ThreadInv(c, s, u);
      }
  }

  lemma {:induction false} RunInv(c: Config, run: seq<State>, n: nat)
    requires IsRun(c, run) && n < |run|
    ensures Inv(c, run[n])
  {
    if n == 0 {
      InitInv(c, run[0]);
    } else {
      RunInv(c, run, n - 1);
      assert Next(c, run[n - 1], run[n]);
      var step :| Enabled(c, run[n - 1], step) && run[n] == After(c, run[n - 1], step);
      StepKeepsInv(c, run[n - 1], step);
    }
  }

  lemma ReachableInv(c: Config, s: State)
    requires Reachable(c, s)
    ensures Inv(c, s)
  {
    var run :| IsRun(c, run) && run[|run| - 1] == s;
    RunInv(c, run, |run| - 1);
  }

  // ---- What the two checks decide, in terms of the history -------------------------------------

  lemma RpmDecision(c: Config, s: State, now: real)
    requires Reachable(c, s) && s.clock <= now
    ensures RpmVerdict(c.rpm, Purged(s.window, now), now) == Proceed
            <==> |Since(s.history, |s.history|, now - 60.0)| < c.rpm
  {
    ReachableInv(c, s);
    PurgeCountsRequests(s, now);
    RpmSleepOutlastsHead(c.rpm, s.window, now);
  }

  lemma TpmDecision(c: Config, s: State, now: real, tokens: int)
    requires Reachable(c, s) && s.clock <= now && tokens > 0
    ensures TpmVerdict(c.tpm, Purged(s.window, now), now, tokens) == Proceed
            <==> NoTokensSince(s.history, |s.history|, now - 60.0)
                 || TokensSince(s.history, |s.history|, now - 60.0) + tokens <= c.tpm
  {
    ReachableInv(c, s);
    PurgeSumsTokens(s, now);
    TpmSleepOutlastsHead(c.tpm, s.window, now, tokens);
    if NoTokensSince(s.history, |s.history|, now - WINDOW) { QuietWindowHasNoTokens(s, now); }
  }

  lemma {:induction false} TokenEntriesAreGrants(h: seq<Grant>, n: nat, e: TokenEntry)
    requires n <= |h| && e in TokenLog(h, n)
    ensures exists i :: 0 <= i < n && h[i].time == e.time && h[i].tokens > 0
  {
    if n > 0 && e in TokenLog(h, n - 1) {
      TokenEntriesAreGrants(h, n - 1, e);
    }
  }

  /** With no tokens granted in the last window length, the token deque purges to empty. */
  lemma QuietWindowHasNoTokens(s: State, now: real)
    requires Chronological(s.history, s.clock) && s.clock <= now
    requires IsWindowOf(s.window.tokens, TokenLog(s.history, |s.history|), EntryTime, s.clock)
    requires NoTokensSince(s.history, |s.history|, now - WINDOW)
    ensures Purged(s.window, now).tokens == []
  {
    var full := TokenLog(s.history, |s.history|);
    TokenLogOrdered(s.history, |s.history|, s.clock);
    PurgeKeepsExactlyFresh(s.window.tokens, full, EntryTime, s.clock, now);
    if DropStale(s.window.tokens, EntryTime, now) != [] {
      TokenEntriesAreGrants(s.history, |s.history|, full[|full| - 1]);
      assert false;
    }
  }

  // ---- The token ceiling -----------------------------------------------------------------------

  lemma {:induction false} WithinAtMostSince(h: seq<Grant>, n: nat, a: real, b: real)
    requires n <= |h| && b <= a
    ensures 0 <= TokensWithin(h, n, a) <= TokensSince(h, n, b)
  {
    if n > 0 { WithinAtMostSince(h, n - 1, a, b); }
  }

  lemma {:induction false} SilentTail(h: seq<Grant>, n: nat, m: nat, a: real)
    requires m <= n <= |h|
    requires forall i :: m <= i < n && a <= h[i].time <= a + WINDOW ==> h[i].tokens <= 0
    ensures TokensWithin(h, n, a) == TokensWithin(h, m, a)
    decreases n
  {
    if m < n { SilentTail(h, n - 1, m, a); }
  }

  /** The last token-bearing grant of an interval, when there is one. */
  lemma {:induction false} LastTokenBearing(h: seq<Grant>, n: nat, a: real) returns (i: int)
    requires n <= |h|
    ensures -1 <= i < n
    ensures i >= 0 ==> i in TokenBearing(h, a)
    ensures forall j :: i < j < n && a <= h[j].time <= a + WINDOW ==> h[j].tokens <= 0
  {
    if n == 0 {
      i := -1;
    } else if n - 1 in TokenBearing(h, a) {
      i := n - 1;
    } else {
      i := LastTokenBearing(h, n - 1, a);
    }
  }

  lemma LastTokenBearingSettles(c: Config, h: seq<Grant>, a: real, i: nat)
    requires c.tpm > 0 && i in TokenBearing(h, a) && GrantInv(c, h, i)
    requires forall j :: i < j < |h| && a <= h[j].time <= a + WINDOW ==> h[j].tokens <= 0
    ensures TokensWithin(h, |h|, a) <= c.tpm || (TokenBearing(h, a) == {i} && h[i].tokens > c.tpm)
  {
    var b := h[i].time - WINDOW;
    SilentTail(h, |h|, i + 1, a);
    assert TokensWithin(h, i + 1, a) == TokensWithin(h, i, a) + h[i].tokens;
    if NoTokensSince(h, i, b) {
      SilentTail(h, i, 0, a);
      assert TokenBearing(h, a) == {i};
    } else {
      WithinAtMostSince(h, i, a, b);
    }
  }

  /** In every closed window of every run, however callers interleave, either the tokens granted
      stay within the ceiling or a single oversized request had the window to itself. */
  lemma TokenCeiling(c: Config, s: State, a: real)
    requires Reachable(c, s) && c.tpm > 0
    ensures TokensWithin(s.history, |s.history|, a) <= c.tpm
         || exists i ::
              i in TokenBearing(s.history, a) && TokenBearing(s.history, a) == {i} && s.history[i].tokens > c.tpm
  {
    ReachableInv(c, s);
    var i := LastTokenBearing(s.history, |s.history|, a);
    if i >= 0 {
      assert GrantInv(c, s.history, i);
      LastTokenBearingSettles(c, s.history, a, i);
    } else {
      SilentTail(s.history, |s.history|, 0, a);
    }
  }

  // ---- The request ceiling ---------------------------------------------------------------------

  /** Of the grants of a window, those made before its latest RPM pass number fewer than `rpm`. */
  lemma GrantsBeforePass(c: Config, s: State, a: real, p: int)
    requires Inv(c, s) && p in Within(s.history, a)
    ensures |set i | i in Within(s.history, a) && i < s.history[p].base| < c.rpm
  {
    var h := s.history;
    assert GrantInv(c, h, p);
    SubsetSize((set i | i in Within(h, a) && i < h[p].base), Since(h, h[p].base, h[p].time - WINDOW));
  }

  /** Grants made after the latest pass of a window belong to different threads: a thread's next
      grant needs a pass of its own, later than its previous grant. */
  lemma OneGrantEachAfterLatestPass(c: Config, s: State, a: real, base: nat)
    requires Inv(c, s)
    requires forall i :: i in Within(s.history, a) ==> s.history[i].base <= base
    ensures |set i | i in Within(s.history, a) && i >= base| <= c.callers
  {
    var h := s.history;
    var late := set i | i in Within(h, a) && i >= base;
    forall i | i in late ensures h[i].thread < c.callers { assert GrantInv(c, h, i); }
    forall i, j | i in late && j in late && i < j ensures h[i].thread != h[j].thread {
      assert GrantInv(c, h, j);
    }
    RangeSize(0, c.callers);
    Pigeonhole(late, i requires 0 <= i < |h| => h[i].thread, Range(0, c.callers));
  }

  /** Every closed window holds at most `rpm + callers - 1` grants: `rpm` for a single caller. */
  lemma RequestCeiling(c: Config, s: State, a: real)
    requires Reachable(c, s) && c.rpm >= 1 && c.callers >= 1
    ensures |Within(s.history, a)| <= c.rpm + c.callers - 1
  {
    ReachableInv(c, s);
    var h, all := s.history, Within(s.history, a);
    if all != {} {
      var p := LargestBy(all, i requires 0 <= i < |h| => h[i].base);
      GrantsBeforePass(c, s, a, p);
      OneGrantEachAfterLatestPass(c, s, a, h[p].base);
      assert all == (set i | i in all && i < h[p].base) + (set i | i in all && i >= h[p].base);
    }
  }
}
