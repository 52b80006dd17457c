/**
 The sliding-window limiter of server/core/embedding/rate_limiter.py.

 The two deques are the fields of a class whose methods are the lock-held sections of
 `RateLimiter.wait`: one pass through the RPM loop, one pass through the TPM loop, and the final
 append.  Each method is proved against a function on plain values; RateLimiterProtocol.dfy
 interleaves those functions over any number of threads.  Instants are reals.
 */
module RateLimiter {
  import opened Collections

  const WINDOW: real := 60.0
  const SLACK: real := 0.1

  datatype TokenEntry = TokenEntry(time: real, tokens: int)

  /** The contents of the two deques. */
  datatype Window = Window(requests: seq<real>, tokens: seq<TokenEntry>)

  /** What one pass through a limiter loop decides: go on, release the lock and sleep until an
      instant, or fail because the head of an empty deque was read. */
  datatype Verdict = Proceed | Sleep(until: real) | IndexError

  function Instant(t: real): real { t }

  function EntryTime(e: TokenEntry): real { e.time }

  predicate Stale(t: real, now: real) { now - t > WINDOW }

  /** What is left of a deque once stale heads have been popped. */
  function DropStale<E>(log: seq<E>, at: E -> real, now: real): seq<E>
  {
    if log != [] && Stale(at(log[0]), now) then DropStale(log[1..], at, now) else log
  }

  function SumTokens(log: seq<TokenEntry>): int
  {
    if log == [] then 0 else log[0].tokens + SumTokens(log[1..])
  }

  function Purged(w: Window, now: real): Window
  {
    Window(DropStale(w.requests, Instant, now), DropStale(w.tokens, EntryTime, now))
  }

  /** The RPM loop's decision on a purged window. */
  function RpmVerdict(rpm: int, w: Window, now: real): Verdict
  {
    if |w.requests| < rpm then Proceed
    else if w.requests == [] then IndexError
    else
      var sleepFor := w.requests[0] + WINDOW - now + SLACK;
      if sleepFor <= 0.0 then Proceed else Sleep(now + sleepFor)
  }

  /** The TPM loop's decision on a purged window. */
  function TpmVerdict(tpm: int, w: Window, now: real, estimated: int): Verdict
  {
    if SumTokens(w.tokens) + estimated <= tpm || w.tokens == [] then Proceed
    else
      var sleepFor := w.tokens[0].time + WINDOW - now + SLACK;
      if sleepFor <= 0.0 then Proceed else Sleep(now + sleepFor)
  }

  predicate Limited(tpm: int, estimated: int) { tpm > 0 && estimated > 0 }

  function Granted(w: Window, now: real, estimated: int): Window
  {
    Window(w.requests + [now],
           if estimated > 0 then w.tokens + [TokenEntry(now, estimated)] else w.tokens)
  }

  /** `time.monotonic()`: any instant not before the previous reading. */
  method ReadClock(previous: real) returns (now: real)
    ensures previous <= now
  {
    now := *;
    if now < previous { now := previous; }
  }

  class RateLimiter {
    const rpm: int
    const tpm: int
    var requestTimes: seq<real>
    var tokenLog: seq<TokenEntry>

    function Contents(): Window reads this { Window(requestTimes, tokenLog) }

    constructor (rpm: int, tpm: int)
      ensures this.rpm == rpm && this.tpm == tpm && Contents() == Window([], [])
    {
      this.rpm := rpm;
      this.tpm := tpm;
      requestTimes := [];
      tokenLog := [];
    }

    method PurgeWindow(now: real)
      modifies this
      ensures Contents() == Purged(old(Contents()), now)
    {
      while requestTimes != [] && now - requestTimes[0] > WINDOW
        invariant tokenLog == old(tokenLog)
        invariant DropStale(requestTimes, Instant, now) == DropStale(old(requestTimes), Instant, now)
        decreases |requestTimes|
      {
        requestTimes := requestTimes[1..];
      }
      while tokenLog != [] && now - tokenLog[0].time > WINDOW
        invariant requestTimes == DropStale(old(requestTimes), Instant, now)
        invariant DropStale(tokenLog, EntryTime, now) == DropStale(old(tokenLog), EntryTime, now)
        decreases |tokenLog|
      {
        tokenLog := tokenLog[1..];
      }
    }

    method TokensInWindow() returns (total: int)
      ensures total == SumTokens(tokenLog)
    {
      total := 0;
      for i := 0 to |tokenLog|
        invariant total + SumTokens(tokenLog[i..]) == SumTokens(tokenLog)
      {
        assert tokenLog[i..][1..] == tokenLog[i + 1..];
        total := total + tokenLog[i].tokens;
      }
    }

    /** One pass of `_wait_for_rpm`, from reading the clock to returning or releasing the lock. */
    method RpmPass(now: real) returns (v: Verdict)
      modifies this
      ensures Contents() == Purged(old(Contents()), now)
      ensures v == RpmVerdict(rpm, Contents(), now)
    {
      PurgeWindow(now);
      if |requestTimes| < rpm {
        return Proceed;
      }
      if requestTimes == [] {
        return IndexError;
      }
      var sleepFor := requestTimes[0] + WINDOW - now + SLACK;
      if sleepFor <= 0.0 {
        return Proceed;
      }
      v := Sleep(now + sleepFor);
    }

    /** One pass of `_wait_for_tpm`.  A call with no tokens, or no ceiling, leaves the deques alone. */
    method TpmPass(now: real, estimated: int) returns (v: Verdict)
      modifies this
      ensures !Limited(tpm, estimated) ==> Contents() == old(Contents()) && v == Proceed
      ensures Limited(tpm, estimated) ==>
                Contents() == Purged(old(Contents()), now) && v == TpmVerdict(tpm, Contents(), now, estimated)
    {
      if tpm <= 0 || estimated <= 0 {
        return Proceed;
      }
      PurgeWindow(now);
      var total := TokensInWindow();
      if total + estimated <= tpm || tokenLog == [] {
        return Proceed;
      }
      var sleepFor := tokenLog[0].time + WINDOW - now + SLACK;
      if sleepFor <= 0.0 {
        return Proceed;
      }
      v := Sleep(now + sleepFor);
    }

    method Append(now: real, estimated: int)
      modifies this
      ensures Contents() == Granted(old(Contents()), now, estimated)
    {
      requestTimes := requestTimes + [now];
      if estimated > 0 {
        tokenLog := tokenLog + [TokenEntry(now, estimated)];
      }
    }

    /** `wait` for a caller nobody overlaps.  Any clock reading may be later than the one before, and any
        sleep may overrun.  The call ends with a grant and leaves both deques within their ceilings, or
        the token deque holding one oversized request alone; but a request ceiling of zero or less makes
        it wait for the deque to empty and then fail.  Either way the deques lose just what was stale at
        the last purge, and a grant is the only addition. */
    method Wait(estimated: int, start: real) returns (at: Option<real>, ghost purged: real)
      modifies this
      ensures at.None? <==> rpm <= 0
      ensures start <= purged && (at.None? ==> Contents() == Purged(old(Contents()), purged) && requestTimes == [])
      ensures at.Some? ==> purged <= at.value
      ensures at.Some? ==> Contents() == Granted(Purged(old(Contents()), purged), at.value, estimated)
      ensures at.Some? ==> start <= at.value && requestTimes != [] && requestTimes[|requestTimes| - 1] == at.value
      ensures at.Some? ==> |requestTimes| <= rpm
      ensures at.Some? && Limited(tpm, estimated) ==>
                SumTokens(tokenLog) <= tpm || tokenLog == [TokenEntry(at.value, estimated)]
    {
      var now := start;
      purged := now;
      RpmSleepOutlastsHead(rpm, Contents(), now);
      var v := RpmPass(now);
      while v.Sleep?
        invariant start <= now == purged && Contents() == Purged(old(Contents()), purged)
        invariant v.Sleep? ==> requestTimes != [] && Stale(requestTimes[0], v.until) && now < v.until
        invariant v.Proceed? ==> |requestTimes| < rpm
        invariant v.IndexError? ==> rpm <= 0 && requestTimes == []
        decreases |requestTimes|, v.Sleep?
      {
        now := ReadClock(v.until);
        RpmSleepOutlastsHead(rpm, Contents(), now);
        DropStaleDropsHead(requestTimes, Instant, v.until, now);
        PurgedTwice(old(Contents()), purged, now);
        purged := now;
        v := RpmPass(now);
      }
      if v.IndexError? {
        return None, purged;
      }
      now := ReadClock(now);
      TpmSleepOutlastsHead(tpm, Contents(), now, estimated);
      DropStaleShortens(requestTimes, Instant, now);
      PurgedTwice(old(Contents()), purged, now);
      purged := if Limited(tpm, estimated) then now else purged;
      v := TpmPass(now, estimated);
      while v.Sleep?
        invariant start <= purged <= now && Contents() == Purged(old(Contents()), purged)
        invariant !v.IndexError? && |requestTimes| < rpm
        invariant Limited(tpm, estimated) ==>
                    if v.Sleep? then tokenLog != [] && Stale(tokenLog[0].time, v.until) && now < v.until
                    else SumTokens(tokenLog) + estimated <= tpm || tokenLog == []
        invariant v.Sleep? ==> Limited(tpm, estimated)
        decreases |tokenLog|, v.Sleep?
      {
        now := ReadClock(v.until);
        TpmSleepOutlastsHead(tpm, Contents(), now, estimated);
        DropStaleShortens(requestTimes, Instant, now);
        DropStaleDropsHead(tokenLog, EntryTime, v.until, now);
        PurgedTwice(old(Contents()), purged, now);
        purged := now;
        v := TpmPass(now, estimated);
      }
      now := ReadClock(now);
      SumTokensConcat(tokenLog, [TokenEntry(now, estimated)]);
      Append(now, estimated);
      at := Some(now);
    }
  }

  lemma {:induction false} DropStaleShortens<E>(log: seq<E>, at: E -> real, now: real)
    ensures |DropStale(log, at, now)| <= |log|
  {
    if log != [] && Stale(at(log[0]), now) { DropStaleShortens(log[1..], at, now); }
  }

  lemma {:induction false} DropStaleTwice<E>(log: seq<E>, at: E -> real, now: real, later: real)
    requires now <= later
    ensures DropStale(DropStale(log, at, now), at, later) == DropStale(log, at, later)
  {
    if log != [] && Stale(at(log[0]), now) { DropStaleTwice(log[1..], at, now, later); }
  }

  lemma PurgedTwice(w: Window, now: real, later: real)
    requires now <= later
    ensures Purged(Purged(w, now), later) == Purged(w, later)
  {
    DropStaleTwice(w.requests, Instant, now, later);
    DropStaleTwice(w.tokens, EntryTime, now, later);
  }

  /** Waking once the head has left the window, the next purge pops it: waiting makes progress. */
  lemma DropStaleDropsHead<E>(log: seq<E>, at: E -> real, until: real, now: real)
    requires log != [] && Stale(at(log[0]), until) && until <= now
    ensures |DropStale(log, at, now)| < |log|
  {
    DropStaleShortens(log[1..], at, now);
  }

  lemma {:induction false} SumTokensConcat(xs: seq<TokenEntry>, ys: seq<TokenEntry>)
    ensures SumTokens(xs + ys) == SumTokens(xs) + SumTokens(ys)
  {
    if xs == [] {
      assert xs + ys == ys;
    } else {
      assert (xs + ys)[1..] == xs[1..] + ys;
      SumTokensConcat(xs[1..], ys);
    }
  }

  // ---- What a purge leaves -------------------------------------------------------------------

  ghost predicate Ordered<E>(log: seq<E>, at: E -> real)
  {
    forall i, j :: 0 <= i < j < |log| ==> at(log[i]) <= at(log[j])
  }

  /** `w` is what remains of the complete log `full` when only entries stale at `clock` were popped. */
  ghost predicate IsWindowOf<E>(w: seq<E>, full: seq<E>, at: E -> real, clock: real)
  {
    && |w| <= |full|
    && w == full[|full| - |w|..]
    && forall i :: 0 <= i < |full| - |w| ==> Stale(at(full[i]), clock)
  }

  /** On an ordered log, popping stale heads keeps exactly the entries at most a window old. */
  lemma {:induction false} PurgeKeepsExactlyFresh<E>(w: seq<E>, full: seq<E>, at: E -> real, clock: real, now: real)
    requires clock <= now && IsWindowOf(w, full, at, clock) && Ordered(full, at)
    ensures IsWindowOf(DropStale(w, at, now), full, at, now)
    ensures forall i :: 0 <= i < |full| ==>
              (i >= |full| - |DropStale(w, at, now)| <==> now - at(full[i]) <= 60.0)
    decreases |w|
  {
    if w != [] && Stale(at(w[0]), now) {
      assert w[0] == full[|full| - |w|];
      PurgeKeepsExactlyFresh(w[1..], full, at, now, now);
    }
  }

  lemma AppendToWindow<E>(w: seq<E>, full: seq<E>, at: E -> real, clock: real, e: E)
    requires IsWindowOf(w, full, at, clock)
    ensures IsWindowOf(w + [e], full + [e], at, clock)
  {}

  lemma WindowAges<E>(w: seq<E>, full: seq<E>, at: E -> real, clock: real, now: real)
    requires clock <= now && IsWindowOf(w, full, at, clock)
    ensures IsWindowOf(w, full, at, now)
  {}

  /** With a positive request ceiling the head of the deque is read only when there is one, and
      every sleep ends after the head has left the window, so a waiter always makes progress. */
  lemma RpmSleepOutlastsHead(rpm: int, w: Window, now: real)
    ensures RpmVerdict(rpm, Purged(w, now), now) == IndexError <==> rpm <= 0 && Purged(w, now).requests == []
    ensures var p := Purged(w, now);
            var v := RpmVerdict(rpm, p, now);
            && (|p.requests| < rpm <==> v == Proceed)
            && (v.Sleep? ==> now < v.until == p.requests[0] + 60.1 && Stale(p.requests[0], v.until))
  {
    DropStaleHeadFresh(w.requests, Instant, now);
  }

  lemma TpmSleepOutlastsHead(tpm: int, w: Window, now: real, estimated: int)
    ensures var p := Purged(w, now);
            var v := TpmVerdict(tpm, p, now, estimated);
            && (SumTokens(p.tokens) + estimated <= tpm || p.tokens == [] <==> v == Proceed)
            && (v.Sleep? ==> now < v.until == p.tokens[0].time + 60.1 && Stale(p.tokens[0].time, v.until))
  {
    DropStaleHeadFresh(w.tokens, EntryTime, now);
  }

  lemma {:induction false} DropStaleHeadFresh<E>(log: seq<E>, at: E -> real, now: real)
    ensures var d := DropStale(log, at, now); d != [] ==> !Stale(at(d[0]), now)
  {
    if log != [] && Stale(at(log[0]), now) {
      DropStaleHeadFresh(log[1..], at, now);
    }
  }
}
