/**
 `_apply_padding`, server/core/chunkers/__init__.py:7-36: undersized chunks merge forward until they
 reach a minimum length, whatever chunker produced them.

 Which characters `str.strip` removes is an arbitrary predicate `ws` that holds of the space.
 */
module Padding {
  import opened Chunkers
  import opened Listing

  function StripLeft(s: string, ws: char -> bool): string
  {
    if s != "" && ws(s[0]) then StripLeft(s[1..], ws) else s
  }

  function StripRight(s: string, ws: char -> bool): string
  {
    if s != "" && ws(s[|s| - 1]) then StripRight(s[..|s| - 1], ws) else s
  }

  function Strip(s: string, ws: char -> bool): string
  {
    StripRight(StripLeft(s, ws), ws)
  }

  /** The chunks pushed so far, and the text waiting for more. */
  datatype Pending = Pending(merged: seq<string>, buffer: string)

  function Absorb(st: Pending, chunk: string, padding: int, ws: char -> bool): Pending
  {
    var buffer := if st.buffer != "" then Strip(st.buffer + " " + chunk, ws) else chunk;
    if |buffer| >= padding then Pending(st.merged + [buffer], "") else st.(buffer := buffer)
  }

  function Absorbed(chunks: seq<string>, n: nat, padding: int, ws: char -> bool): Pending
    requires n <= |chunks|
  {
    if n == 0 then Pending([], "") else Absorb(Absorbed(chunks, n - 1, padding, ws), chunks[n - 1], padding, ws)
  }

  /** A remainder joins the last chunk, or stands alone. */
  function Settled(st: Pending, ws: char -> bool): seq<string>
  {
    if st.buffer == "" then st.merged
    else if st.merged == [] then [st.buffer]
    else st.merged[|st.merged| - 1 := Strip(st.merged[|st.merged| - 1] + " " + st.buffer, ws)]
  }

  function Padded(chunks: seq<string>, padding: int, ws: char -> bool): seq<string>
  {
    if padding <= 0 || |chunks| <= 1 then chunks
    else Settled(Absorbed(chunks, |chunks|, padding, ws), ws)
  }

  method ApplyPadding(chunks: seq<string>, padding: int, ws: char -> bool) returns (merged: seq<string>)
    ensures merged == Padded(chunks, padding, ws)
  {
    if padding <= 0 || |chunks| <= 1 {
      return chunks;
    }
    merged := [];
    var buffer := "";
    for n := 0 to |chunks|
      invariant Pending(merged, buffer) == Absorbed(chunks, n, padding, ws)
    {
      buffer := if buffer != "" then Strip(buffer + " " + chunks[n], ws) else chunks[n];
      if |buffer| >= padding {
        merged := merged + [buffer];
        buffer := "";
      }
    }
    if buffer != "" {
      if merged != [] {
        merged := merged[|merged| - 1 := Strip(merged[|merged| - 1] + " " + buffer, ws)];
      } else {
        merged := [buffer];
      }
    }
  }

  // ---- No ink is lost ------------------------------------------------------------------------------

  function Ink(s: string, ws: char -> bool): string
  {
    if s == "" then "" else Ink(s[..|s| - 1], ws) + if ws(s[|s| - 1]) then "" else [s[|s| - 1]]
  }

  function InkOf(chunks: seq<string>, ws: char -> bool): string
  {
    if chunks == [] then "" else InkOf(chunks[..|chunks| - 1], ws) + Ink(chunks[|chunks| - 1], ws)
  }

  lemma {:induction false} InkConcat(a: string, b: string, ws: char -> bool)
    ensures Ink(a + b, ws) == Ink(a, ws) + Ink(b, ws)
  {
    if b == "" {
      assert a + b == a;
    } else {
      InkConcat(a, b[..|b| - 1], ws);
      assert (a + b)[..|a + b| - 1] == a + b[..|b| - 1];
    }
  }

  lemma {:induction false} StripLeftKeepsInk(s: string, ws: char -> bool)
    ensures Ink(StripLeft(s, ws), ws) == Ink(s, ws)
  {
    if s != "" && ws(s[0]) {
      StripLeftKeepsInk(s[1..], ws);
      InkConcat([s[0]], s[1..], ws);
      assert s == [s[0]] + s[1..] && [s[0]][..0] == "";
    }
  }

  lemma {:induction false} StripRightKeepsInk(s: string, ws: char -> bool)
    ensures Ink(StripRight(s, ws), ws) == Ink(s, ws)
  {
    if s != "" && ws(s[|s| - 1]) {
      StripRightKeepsInk(s[..|s| - 1], ws);
    }
  }

  lemma SpacedKeepsInk(a: string, b: string, ws: char -> bool)
    requires ws(' ')
    ensures Ink(Strip(a + " " + b, ws), ws) == Ink(a, ws) + Ink(b, ws)
  {
    StripLeftKeepsInk(a + " " + b, ws);
    StripRightKeepsInk(StripLeft(a + " " + b, ws), ws);
    InkConcat(a + " ", b, ws);
    InkConcat(a, " ", ws);
    assert " "[..0] == "";
    assert Ink(" ", ws) == "";
  }

  lemma InkOfPush(chunks: seq<string>, x: string, ws: char -> bool)
    ensures InkOf(chunks + [x], ws) == InkOf(chunks, ws) + Ink(x, ws)
  {}

  lemma AbsorbKeepsInk(st: Pending, chunk: string, padding: int, ws: char -> bool)
    requires ws(' ')
    ensures var next := Absorb(st, chunk, padding, ws);
            InkOf(next.merged, ws) + Ink(next.buffer, ws) == InkOf(st.merged, ws) + Ink(st.buffer, ws) + Ink(chunk, ws)
  {
    hide Strip, Ink, InkOf;
    var buffer := if st.buffer != "" then Strip(st.buffer + " " + chunk, ws) else chunk;
    SpacedKeepsInk(st.buffer, chunk, ws);
    InkEmpty(ws);
    assert Ink(buffer, ws) == Ink(st.buffer, ws) + Ink(chunk, ws);
    InkOfPush(st.merged, buffer, ws);
  }

  lemma {:induction false} AbsorbedKeepsInk(chunks: seq<string>, n: nat, padding: int, ws: char -> bool)
    requires n <= |chunks| && ws(' ')
    ensures var st := Absorbed(chunks, n, padding, ws);
            InkOf(st.merged, ws) + Ink(st.buffer, ws) == InkOf(chunks[..n], ws)
  {
    hide Strip, Ink, Absorb;
    if n == 0 {
      InkEmpty(ws);
    } else {
      AbsorbedKeepsInk(chunks, n - 1, padding, ws);
      AbsorbKeepsInk(Absorbed(chunks, n - 1, padding, ws), chunks[n - 1], padding, ws);
      assert chunks[..n] == chunks[..n - 1] + [chunks[n - 1]];
      InkOfPush(chunks[..n - 1], chunks[n - 1], ws);
    }
  }

  lemma SettledKeepsInk(st: Pending, ws: char -> bool)
    requires ws(' ')
    ensures InkOf(Settled(st, ws), ws) == InkOf(st.merged, ws) + Ink(st.buffer, ws)
  {
    hide Strip, Ink;
    if st.buffer == "" {
      InkEmpty(ws);
    } else if st.merged == [] {
      InkOfPush([], st.buffer, ws);
      assert [] + [st.buffer] == [st.buffer];
    } else {
      var front, last := st.merged[..|st.merged| - 1], st.merged[|st.merged| - 1];
      SpacedKeepsInk(last, st.buffer, ws);
      assert Settled(st, ws) == front + [Strip(last + " " + st.buffer, ws)];
      InkOfPush(front, Strip(last + " " + st.buffer, ws), ws);
      InkOfPush(front, last, ws);
      assert st.merged == front + [last];
    }
  }

  lemma InkEmpty(ws: char -> bool)
    ensures Ink("", ws) == ""
  {}

  /** Padding keeps every non-whitespace character, in order, whatever the chunks. */
  lemma PaddingKeepsInk(chunks: seq<string>, padding: int, ws: char -> bool)
    requires ws(' ')
    ensures InkOf(Padded(chunks, padding, ws), ws) == InkOf(chunks, ws)
  {
    hide Ink, InkOf, Settled, Absorbed;
    if padding > 0 && |chunks| > 1 {
      AbsorbedKeepsInk(chunks, |chunks|, padding, ws);
      assert chunks[..|chunks|] == chunks;
      SettledKeepsInk(Absorbed(chunks, |chunks|, padding, ws), ws);
    }
  }

  // ---- Trimmed chunks are only regrouped ------------------------------------------------------------

  predicate Trimmed(s: string, ws: char -> bool)
  {
    s != "" && !ws(s[0]) && !ws(s[|s| - 1])
  }

  ghost predicate AllTrimmed(chunks: seq<string>, ws: char -> bool)
  {
    forall i :: 0 <= i < |chunks| ==> Trimmed(chunks[i], ws)
  }

  /** Each output is a non-empty group of chunks joined by single spaces. */
  ghost predicate Joins(outputs: seq<string>, groups: seq<seq<string>>)
  {
    |outputs| == |groups| && forall i :: 0 <= i < |outputs| ==> groups[i] != [] && outputs[i] == Join(groups[i])
  }

  ghost predicate Regroups(outputs: seq<string>, chunks: seq<string>)
  {
    exists groups :: Joins(outputs, groups) && Flatten(groups) == chunks
  }

  ghost predicate Reaches(outputs: seq<string>, padding: int)
  {
    forall i :: 0 <= i < |outputs| ==> |outputs[i]| >= padding
  }

  lemma {:induction false} JoinTrimmed(parts: seq<string>, ws: char -> bool)
    requires parts != [] && AllTrimmed(parts, ws)
    ensures Trimmed(Join(parts), ws)
  {
    if |parts| > 1 {
      JoinTrimmed(parts[..|parts| - 1], ws);
    }
  }

  /** The open group behind a buffer. */
  ghost predicate Opens(st: Pending, groups: seq<seq<string>>, open: seq<string>, ws: char -> bool)
  {
    Joins(st.merged, groups) && st.buffer == Join(open) && AllTrimmed(open, ws)
  }

  lemma AbsorbTrimmed(st: Pending, groups: seq<seq<string>>, open: seq<string>, chunk: string, padding: int,
                      ws: char -> bool)
    requires Opens(st, groups, open, ws) && Trimmed(chunk, ws) && Reaches(st.merged, padding)
    ensures var buffer := Join(open + [chunk]);
            && Absorb(st, chunk, padding, ws) ==
                 (if |buffer| >= padding then Pending(st.merged + [buffer], "") else st.(buffer := buffer))
            && AllTrimmed(open + [chunk], ws)
  {
    JoinPush(open, chunk);
    if open != [] {
      JoinTrimmed(open, ws);
    }
  }

  lemma PushGroup(outputs: seq<string>, groups: seq<seq<string>>, group: seq<string>)
    requires Joins(outputs, groups) && group != []
    ensures Joins(outputs + [Join(group)], groups + [group]) && Flatten(groups + [group]) == Flatten(groups) + group
  {}

  /** A group is closed by the chunk with which it reaches the minimum, and no sooner; the open one has not got
      there. */
  ghost predicate Forward(groups: seq<seq<string>>, open: seq<string>, padding: int)
  {
    && (forall i :: 0 <= i < |groups| ==> ReachesLast(groups[i], padding))
    && forall k :: 1 <= k <= |open| ==> |Join(open[..k])| < padding
  }

  ghost predicate ReachesLast(group: seq<string>, padding: int)
  {
    |Join(group)| >= padding && forall k :: 1 <= k < |group| ==> |Join(group[..k])| < padding
  }

  lemma ForwardGrows(groups: seq<seq<string>>, open: seq<string>, chunk: string, padding: int)
    requires Forward(groups, open, padding)
    ensures |Join(open + [chunk])| < padding ==> Forward(groups, open + [chunk], padding)
    ensures |Join(open + [chunk])| >= padding ==> Forward(groups + [open + [chunk]], [], padding)
  {
    hide Join;
    var grown := open + [chunk];
    assert grown[..|grown|] == grown;
    forall k | 1 <= k < |grown| ensures |Join(grown[..k])| < padding { assert grown[..k] == open[..k]; }
  }

  lemma AbsorbRegroups(st: Pending, groups: seq<seq<string>>, open: seq<string>, chunk: string, padding: int,
                       ws: char -> bool)
    returns (groups': seq<seq<string>>, open': seq<string>)
    requires Opens(st, groups, open, ws) && Trimmed(chunk, ws) && Reaches(st.merged, padding) && padding > 0
    requires Forward(groups, open, padding)
    ensures var next := Absorb(st, chunk, padding, ws);
            Opens(next, groups', open', ws) && Reaches(next.merged, padding) && Forward(groups', open', padding)
    ensures Flatten(groups') + open' == Flatten(groups) + open + [chunk]
  {
    AbsorbTrimmed(st, groups, open, chunk, padding, ws);
    ForwardGrows(groups, open, chunk, padding);
    hide Join, Absorb, Flatten, Trimmed, Forward;
    groups', open' := groups, open + [chunk];
    if |Join(open')| >= padding {
      PushGroup(st.merged, groups, open');
      groups', open' := groups + [open'], [];
      EmptyJoin();
    }
  }

  lemma {:induction false} AbsorbedRegroups(chunks: seq<string>, n: nat, padding: int, ws: char -> bool)
    returns (groups: seq<seq<string>>, open: seq<string>)
    requires n <= |chunks| && AllTrimmed(chunks, ws) && padding > 0
    ensures var st := Absorbed(chunks, n, padding, ws);
            && Opens(st, groups, open, ws) && Reaches(st.merged, padding) && Forward(groups, open, padding)
            && Flatten(groups) + open == chunks[..n]
  {
    hide Join, Absorb, Flatten, Opens, Trimmed, Reaches, Forward;
    if n == 0 {
      groups, open := [], [];
      NothingOpen(ws, padding);
      assert chunks[..0] == [];
    } else {
      groups, open := AbsorbedRegroups(chunks, n - 1, padding, ws);
      groups, open := AbsorbRegroups(Absorbed(chunks, n - 1, padding, ws), groups, open, chunks[n - 1], padding, ws);
      assert chunks[..n] == chunks[..n - 1] + [chunks[n - 1]];
    }
  }

  lemma NothingOpen(ws: char -> bool, padding: int)
    ensures Opens(Pending([], ""), [], [], ws) && Reaches([], padding) && Forward([], [], padding)
    ensures Flatten<string>([]) + [] == []
  {}

  /** The remainder goes to the last group, or is a group of its own. */
  ghost function Attached(groups: seq<seq<string>>, open: seq<string>): seq<seq<string>>
  {
    if open == [] then groups
    else if groups == [] then [open]
    else groups[|groups| - 1 := groups[|groups| - 1] + open]
  }

  lemma SettleLast(st: Pending, groups: seq<seq<string>>, open: seq<string>, padding: int, ws: char -> bool)
    requires Opens(st, groups, open, ws) && Reaches(st.merged, padding) && groups != [] && open != []
    requires AllTrimmed(groups[|groups| - 1], ws) && ws(' ')
    ensures Joins(Settled(st, ws), Attached(groups, open)) && Reaches(Settled(st, ws), padding)
    ensures Flatten(Attached(groups, open)) == Flatten(groups) + open
  {
    hide Join, Strip, Flatten, Settled;
    var n := |groups| - 1;
    SettledLast(st, groups[n], open, ws);
    hide Trimmed, AllTrimmed;
    JoinsLast(st.merged, groups, open);
    FlattenLast(groups, open);
  }

  lemma JoinsLast(outputs: seq<string>, groups: seq<seq<string>>, open: seq<string>)
    requires Joins(outputs, groups) && groups != []
    ensures var n := |groups| - 1;
            Joins(outputs[n := Join(groups[n] + open)], groups[n := groups[n] + open])
  {}

  lemma FlattenLast(groups: seq<seq<string>>, open: seq<string>)
    requires groups != []
    ensures var n := |groups| - 1; Flatten(groups[n := groups[n] + open]) == Flatten(groups) + open
  {}

  lemma SettledLast(st: Pending, last: seq<string>, open: seq<string>, ws: char -> bool)
    requires st.merged != [] && st.merged[|st.merged| - 1] == Join(last) && st.buffer == Join(open)
    requires open != [] && last != [] && AllTrimmed(last, ws) && AllTrimmed(open, ws)
    ensures Settled(st, ws) == st.merged[|st.merged| - 1 := Join(last + open)]
    ensures |Join(last + open)| >= |Join(last)|
  {
    hide Join, Strip;
    JoinTrimmed(open, ws);
    JoinConcat(last, open);
    TrimmedStays(last + open, ws);
  }

  lemma TrimmedStays(parts: seq<string>, ws: char -> bool)
    requires parts != [] && AllTrimmed(parts, ws)
    ensures Strip(Join(parts), ws) == Join(parts)
  {
    JoinTrimmed(parts, ws);
  }

  lemma SettleTrimmed(st: Pending, groups: seq<seq<string>>, open: seq<string>, padding: int, ws: char -> bool)
    requires Opens(st, groups, open, ws) && Reaches(st.merged, padding) && ws(' ')
    requires forall i :: 0 <= i < |groups| ==> AllTrimmed(groups[i], ws)
    ensures Joins(Settled(st, ws), Attached(groups, open)) && Flatten(Attached(groups, open)) == Flatten(groups) + open
    ensures |Settled(st, ws)| == 1 || Reaches(Settled(st, ws), padding)
  {
    hide Join, Strip;
    if open == [] {
      EmptyJoin();
      assert Flatten(groups) == Flatten(groups) + open;
    } else if groups == [] {
      JoinTrimmed(open, ws);
      PushGroup([], [], open);
      assert Settled(st, ws) == [] + [Join(open)];
    } else {
      SettleLast(st, groups, open, padding, ws);
    }
  }

  lemma {:induction false} GroupsTrimmed(groups: seq<seq<string>>, rest: seq<string>, ws: char -> bool)
    requires AllTrimmed(Flatten(groups) + rest, ws)
    ensures forall i :: 0 <= i < |groups| ==> AllTrimmed(groups[i], ws)
  {
    if groups != [] {
      var front, last := groups[..|groups| - 1], groups[|groups| - 1];
      assert Flatten(groups) + rest == Flatten(front) + (last + rest);
      GroupsTrimmed(front, last + rest, ws);
      forall k | 0 <= k < |last| ensures Trimmed(last[k], ws) {
        assert last[k] == (Flatten(groups) + rest)[|Flatten(front)| + k];
      }
    }
  }

  lemma FewStayAsTheyAre(chunks: seq<string>)
    requires |chunks| <= 1
    ensures Regroups(chunks, chunks)
  {
    var groups := if chunks == [] then [] else [[chunks[0]]];
    assert Joins(chunks, groups);
    if chunks != [] { FlattenAppend([], [chunks[0]]); }
    assert Flatten(groups) == chunks;
  }

  /** On trimmed chunks, padding only regroups them in order, joined by single spaces, and every
      output reaches the minimum unless there is just one. */
  lemma PaddingRegroups(chunks: seq<string>, padding: int, ws: char -> bool)
    requires ws(' ') && AllTrimmed(chunks, ws) && padding > 0
    ensures Regroups(Padded(chunks, padding, ws), chunks)
    ensures |Padded(chunks, padding, ws)| <= 1 || Reaches(Padded(chunks, padding, ws), padding)
  {
    if |chunks| <= 1 {
      FewStayAsTheyAre(chunks);
    } else {
      hide Join, Strip, Flatten, Opens, AllTrimmed, Regroups, Settled;
      var groups, open := AbsorbedRegroups(chunks, |chunks|, padding, ws);
      assert chunks[..|chunks|] == chunks;
      GroupsTrimmed(groups, open, ws);
      SettleTrimmed(Absorbed(chunks, |chunks|, padding, ws), groups, open, padding, ws);
      RegroupedBy(Padded(chunks, padding, ws), Attached(groups, open), chunks);
    }
  }

  lemma RegroupedBy(outputs: seq<string>, groups: seq<seq<string>>, chunks: seq<string>)
    requires Joins(outputs, groups) && Flatten(groups) == chunks
    ensures Regroups(outputs, chunks)
  {}

  /** Which groups these are: going forward, each ends with the chunk that takes it to the minimum, and what is
      left at the end, short of it, joins the last. */
  lemma PaddingMergesForward(chunks: seq<string>, padding: int, ws: char -> bool)
    returns (groups: seq<seq<string>>, open: seq<string>)
    requires ws(' ') && AllTrimmed(chunks, ws) && padding > 0 && |chunks| > 1
    ensures Flatten(groups) + open == chunks && Forward(groups, open, padding)
    ensures Joins(Padded(chunks, padding, ws), Attached(groups, open))
  {
    hide Join, Strip, Flatten, Opens, AllTrimmed, Settled, Forward, Attached, Joins;
    groups, open := AbsorbedRegroups(chunks, |chunks|, padding, ws);
    assert chunks[..|chunks|] == chunks;
    GroupsTrimmed(groups, open, ws);
    SettleTrimmed(Absorbed(chunks, |chunks|, padding, ws), groups, open, padding, ws);
  }

  // ---- Padding twice ---------------------------------------------------------------------------------

  lemma {:induction false} LongChunksPass(chunks: seq<string>, n: nat, padding: int, ws: char -> bool)
    requires n <= |chunks| && Reaches(chunks, padding)
    ensures Absorbed(chunks, n, padding, ws) == Pending(chunks[..n], "")
  {
    if n > 0 {
      LongChunksPass(chunks, n - 1, padding, ws);
      assert chunks[..n] == chunks[..n - 1] + [chunks[n - 1]];
    }
  }

  /** A push consumes at least a chunk, so as many pushes as chunks means no chunk was short. */
  lemma {:induction false} FewerPushesThanChunks(chunks: seq<string>, n: nat, padding: int, ws: char -> bool)
    requires n <= |chunks| && padding > 0
    ensures var st := Absorbed(chunks, n, padding, ws);
            && |st.merged| <= n
            && (|st.merged| == n ==> st == Pending(chunks[..n], "") && Reaches(chunks[..n], padding))
  {
    if n > 0 {
      FewerPushesThanChunks(chunks, n - 1, padding, ws);
      assert chunks[..n] == chunks[..n - 1] + [chunks[n - 1]];
    }
  }

  /** Padding leaves exactly these lists alone. */
  lemma PaddingFixesExactly(chunks: seq<string>, padding: int, ws: char -> bool)
    ensures Padded(chunks, padding, ws) == chunks <==> padding <= 0 || |chunks| <= 1 || Reaches(chunks, padding)
  {
    if padding > 0 && |chunks| > 1 {
      if Reaches(chunks, padding) { LongChunksPass(chunks, |chunks|, padding, ws); }
      FewerPushesThanChunks(chunks, |chunks|, padding, ws);
      assert chunks[..|chunks|] == chunks;
    }
  }

  // ---- Any chunks at all -------------------------------------------------------------------------------

  lemma {:induction false} PushedReach(chunks: seq<string>, n: nat, padding: int, ws: char -> bool)
    requires n <= |chunks|
    ensures Reaches(Absorbed(chunks, n, padding, ws).merged, padding)
  {
    hide Strip;
    if n > 0 { PushedReach(chunks, n - 1, padding, ws); }
  }

  /** There is no remainder, or nothing else, or the last pushed chunk is still long enough once the
      remainder has joined it and the whole is stripped. */
  predicate RemainderFits(st: Pending, padding: int, ws: char -> bool)
  {
    || st.buffer == "" || |st.merged| <= 1
    || |Strip(st.merged[|st.merged| - 1] + " " + st.buffer, ws)| >= padding
  }

  lemma SettledReachesExactly(st: Pending, padding: int, ws: char -> bool)
    requires Reaches(st.merged, padding)
    ensures |Settled(st, ws)| <= 1 || Reaches(Settled(st, ws), padding) <==> RemainderFits(st, padding, ws)
  {
    hide Strip;
    var n, once := |st.merged| - 1, Settled(st, ws);
    if st.buffer != "" && n >= 1 {
      assert once[n] == Strip(st.merged[n] + " " + st.buffer, ws);
      assert forall i :: 0 <= i < n ==> once[i] == st.merged[i];
    }
  }

  /** Whatever the chunks, the outputs reach the minimum, unless there is just one, exactly when the
      remainder fits; and exactly then padding a second time changes nothing. */
  lemma PaddingReachesExactly(chunks: seq<string>, padding: int, ws: char -> bool)
    requires padding > 0 && |chunks| > 1
    ensures var once, fits :=
              Padded(chunks, padding, ws), RemainderFits(Absorbed(chunks, |chunks|, padding, ws), padding, ws);
            && (|once| <= 1 || Reaches(once, padding) <==> fits)
            && (Padded(once, padding, ws) == once <==> fits)
  {
    hide RemainderFits, Reaches, Settled, Absorbed;
    PushedReach(chunks, |chunks|, padding, ws);
    SettledReachesExactly(Absorbed(chunks, |chunks|, padding, ws), padding, ws);
    PaddingFixesExactly(Padded(chunks, padding, ws), padding, ws);
  }

  // ---- Which chunks are safe ---------------------------------------------------------------------------

  /** A chunk that is long enough is so without the white space at its ends. */
  predicate Sturdy(chunk: string, padding: int, ws: char -> bool)
  {
    |chunk| >= padding ==> |Strip(chunk, ws)| >= padding
  }

  ghost predicate AllSturdy(chunks: seq<string>, padding: int, ws: char -> bool)
  {
    forall i :: 0 <= i < |chunks| ==> Sturdy(chunks[i], padding, ws)
  }

  lemma {:induction false} StripRightGrows(a: string, b: string, ws: char -> bool)
    ensures |StripRight(a + b, ws)| >= |StripRight(a, ws)|
    ensures (forall i :: 0 <= i < |b| ==> ws(b[i])) ==> StripRight(a + b, ws) == StripRight(a, ws)
  {
    if b == "" {
      assert a + b == a;
    } else {
      var front := b[..|b| - 1];
      StripRightGrows(a, front, ws);
      assert (a + b)[..|a + b| - 1] == a + front && (a + b)[|a + b| - 1] == b[|b| - 1];
      StripRightShortens(a, ws);
    }
  }

  lemma {:induction false} StripRightShortens(s: string, ws: char -> bool)
    ensures |StripRight(s, ws)| <= |s| && StripRight(s, ws) == s[..|StripRight(s, ws)|]
    ensures StripRight(s, ws) != "" ==> !ws(StripRight(s, ws)[|StripRight(s, ws)| - 1])
  {
    if s != "" && ws(s[|s| - 1]) { StripRightShortens(s[..|s| - 1], ws); }
  }

  lemma {:induction false} StripLeftAppend(a: string, b: string, ws: char -> bool)
    ensures StripLeft(a + b, ws) == if StripLeft(a, ws) != "" then StripLeft(a, ws) + b else StripLeft(b, ws)
    ensures StripLeft(a, ws) != "" ==> !ws(StripLeft(a, ws)[0])
  {
    if a == "" {
      assert a + b == b;
    } else if ws(a[0]) {
      assert (a + b)[1..] == a[1..] + b;
      StripLeftAppend(a[1..], b, ws);
    }
  }

  lemma StripGrows(a: string, b: string, ws: char -> bool)
    ensures |Strip(a + b, ws)| >= |Strip(a, ws)|
    ensures (forall i :: 0 <= i < |b| ==> ws(b[i])) ==> Strip(a + b, ws) == Strip(a, ws)
  {
    StripLeftAppend(a, b, ws);
    StripRightGrows(StripLeft(a, ws), b, ws);
    if forall i :: 0 <= i < |b| ==> ws(b[i]) { NothingLeft(b, ws); }
  }

  lemma {:induction false} NothingLeft(s: string, ws: char -> bool)
    requires forall i :: 0 <= i < |s| ==> ws(s[i])
    ensures StripLeft(s, ws) == ""
  {
    if s != "" { NothingLeft(s[1..], ws); }
  }

  lemma StripTwice(s: string, ws: char -> bool)
    ensures Strip(Strip(s, ws), ws) == Strip(s, ws)
  {
    var left := StripLeft(s, ws);
    StripLeftAppend(s, "", ws);
    StripRightShortens(left, ws);
    if Strip(s, ws) != "" { StripNone(Strip(s, ws), ws); }
  }

  lemma AbsorbSturdy(st: Pending, chunk: string, padding: int, ws: char -> bool)
    requires Sturdy(chunk, padding, ws) && AllSturdy(st.merged, padding, ws)
    ensures AllSturdy(Absorb(st, chunk, padding, ws).merged, padding, ws)
  {
    StripTwice(st.buffer + " " + chunk, ws);
    hide Strip;
    var buffer := if st.buffer != "" then Strip(st.buffer + " " + chunk, ws) else chunk;
    assert Sturdy(buffer, padding, ws);
  }

  lemma {:induction false} PushedSturdy(chunks: seq<string>, n: nat, padding: int, ws: char -> bool)
    requires n <= |chunks| && AllSturdy(chunks, padding, ws)
    ensures AllSturdy(Absorbed(chunks, n, padding, ws).merged, padding, ws)
  {
    hide Absorb, Sturdy;
    if n > 0 {
      PushedSturdy(chunks, n - 1, padding, ws);
      AbsorbSturdy(Absorbed(chunks, n - 1, padding, ws), chunks[n - 1], padding, ws);
    }
  }

  lemma SturdyChunksFit(chunks: seq<string>, padding: int, ws: char -> bool)
    requires padding > 0 && AllSturdy(chunks, padding, ws)
    ensures RemainderFits(Absorbed(chunks, |chunks|, padding, ws), padding, ws)
  {
    var st := Absorbed(chunks, |chunks|, padding, ws);
    PushedReach(chunks, |chunks|, padding, ws);
    PushedSturdy(chunks, |chunks|, padding, ws);
    hide Strip, Absorbed;
    if st.buffer != "" && |st.merged| > 1 {
      var last := st.merged[|st.merged| - 1];
      assert Sturdy(last, padding, ws);
      StripGrows(last, " " + st.buffer, ws);
      assert last + " " + st.buffer == last + (" " + st.buffer);
    }
  }

  /** With a minimum of one there is never a remainder. */
  lemma {:induction false} NoRemainderOfOne(chunks: seq<string>, n: nat, ws: char -> bool)
    requires n <= |chunks|
    ensures Absorbed(chunks, n, 1, ws).buffer == ""
  {
    hide Strip;
    if n > 0 { NoRemainderOfOne(chunks, n - 1, ws); }
  }

  /** A chunk that is long only by its white space, twice, and then a blank one. */
  lemma FlimsyChunkFails(chunk: string, padding: int, ws: char -> bool)
    requires padding > 1 && ws(' ') && !Sturdy(chunk, padding, ws)
    ensures !RemainderFits(Absorbed([chunk, chunk, " "], 3, padding, ws), padding, ws)
  {
    var chunks := [chunk, chunk, " "];
    LongChunksPass(chunks[..2], 2, padding, ws);
    AbsorbedPrefix(chunks, chunks[..2], 2, padding, ws);
    assert chunks[..2][..2] == [chunk, chunk];
    assert Absorbed(chunks, 3, padding, ws) == Pending([chunk, chunk], " ");
    StripGrows(chunk, "  ", ws);
    assert chunk + " " + " " == chunk + "  ";
  }

  /** All lists made of `chunk` and of short chunks come out long enough and stay as they are when padded
      again. */
  ghost predicate SafeToPad(chunk: string, padding: int, ws: char -> bool)
  {
    forall chunks: seq<string> {:trigger Padded(chunks, padding, ws)} ::
      |chunks| > 1 && (forall i :: 0 <= i < |chunks| ==> chunks[i] == chunk || |chunks[i]| < padding) ==>
        var once := Padded(chunks, padding, ws);
        (|once| <= 1 || Reaches(once, padding)) && Padded(once, padding, ws) == once
  }

  /** A chunk is safe exactly when its white space is not what makes it long enough. */
  lemma SafeExactly(chunk: string, padding: int, ws: char -> bool)
    requires padding > 0 && ws(' ')
    ensures SafeToPad(chunk, padding, ws) <==> padding == 1 || Sturdy(chunk, padding, ws)
  {
    hide Padded, Absorbed, Reaches, RemainderFits, Strip;
    if padding == 1 || Sturdy(chunk, padding, ws) {
      forall chunks: seq<string>
        | |chunks| > 1 && forall i :: 0 <= i < |chunks| ==> chunks[i] == chunk || |chunks[i]| < padding
        ensures var once := Padded(chunks, padding, ws);
                (|once| <= 1 || Reaches(once, padding)) && Padded(once, padding, ws) == once
      {
        FitsWhenSafe(chunks, chunk, padding, ws);
        PaddingReachesExactly(chunks, padding, ws);
      }
    } else {
      var chunks := [chunk, chunk, " "];
      FlimsyChunkFails(chunk, padding, ws);
      PaddingReachesExactly(chunks, padding, ws);
      assert |" "| < padding;
    }
  }

  lemma FitsWhenSafe(chunks: seq<string>, chunk: string, padding: int, ws: char -> bool)
    requires padding == 1 || (padding > 0 && Sturdy(chunk, padding, ws))
    requires forall i :: 0 <= i < |chunks| ==> chunks[i] == chunk || |chunks[i]| < padding
    ensures RemainderFits(Absorbed(chunks, |chunks|, padding, ws), padding, ws)
  {
    hide Strip, Absorbed;
    if padding == 1 {
      NoRemainderOfOne(chunks, |chunks|, ws);
    } else {
      SturdyChunksFit(chunks, padding, ws);
    }
  }

  /** On trimmed chunks, padding a second time changes nothing. */
  lemma PaddingIsIdempotent(chunks: seq<string>, padding: int, ws: char -> bool)
    requires ws(' ') && AllTrimmed(chunks, ws)
    ensures Padded(Padded(chunks, padding, ws), padding, ws) == Padded(chunks, padding, ws)
  {
    if padding > 0 { PaddingRegroups(chunks, padding, ws); }
    PaddingFixesExactly(Padded(chunks, padding, ws), padding, ws);
  }

  /** Of untrimmed chunks, the last can shrink below the minimum when a remainder joins it and the
      whole is stripped; padding again then changes the list. */
  lemma UntrimmedPaddingChangesTwice(ws: char -> bool)
    requires ws(' ') && !ws('x') && !ws('a') && !ws('b')
    ensures var once := Padded(["xxxxx", "    a", "b"], 5, ws);
            once == ["xxxxx", "a b"] && Padded(once, 5, ws) != once
  {
    var chunks := ["xxxxx", "    a", "b"];
    LongChunksPass(chunks[..2], 2, 5, ws);
    AbsorbedPrefix(chunks, chunks[..2], 2, 5, ws);
    assert chunks[..2][..2] == ["xxxxx", "    a"];
    assert Absorbed(chunks, 3, 5, ws) == Pending(["xxxxx", "    a"], "b");
    StripFour("a b", ws);
    assert "    a" + " " + "b" == "    " + "a b";
    PaddingReachesExactly(chunks, 5, ws);
  }

  lemma {:induction false} AbsorbedPrefix(chunks: seq<string>, others: seq<string>, n: nat, padding: int,
                                          ws: char -> bool)
    requires n <= |chunks| && n <= |others| && chunks[..n] == others[..n]
    ensures Absorbed(chunks, n, padding, ws) == Absorbed(others, n, padding, ws)
  {
    if n > 0 {
      assert chunks[..n][n - 1] == others[..n][n - 1] && chunks[..n - 1] == chunks[..n][..n - 1];
      AbsorbedPrefix(chunks, others, n - 1, padding, ws);
    }
  }

  lemma StripFour(s: string, ws: char -> bool)
    requires Trimmed(s, ws) && ws(' ')
    ensures Strip("    " + s, ws) == s
  {
    hide StripLeft, StripRight;
    StripTwo("  " + s, ws);
    StripTwo(s, ws);
    assert "    " + s == "  " + ("  " + s);
    StripNone(s, ws);
  }

  lemma StripNone(s: string, ws: char -> bool)
    requires Trimmed(s, ws)
    ensures StripLeft(s, ws) == s && StripRight(s, ws) == s
  {}

  lemma StripTwo(s: string, ws: char -> bool)
    requires ws(' ')
    ensures StripLeft("  " + s, ws) == StripLeft(s, ws)
  {
    StripSpace(" " + s, ws);
    StripSpace(s, ws);
    assert "  " + s == " " + (" " + s);
  }

  lemma StripSpace(s: string, ws: char -> bool)
    requires ws(' ')
    ensures StripLeft(" " + s, ws) == StripLeft(s, ws)
  {
    assert (" " + s)[1..] == s;
  }
}
