/**
 The greedy splitters of server/core/embedding/embedder.py:236-308 and the token estimate of
 server/core/embedding/rate_limiter.py:122-123 that they budget with.

 Both splitters close the current group when the next item would not fit: by token cost alone for
 batches and segments, by token cost or item count for requests.
 */
module Batching {
  import opened Collections
  import opened Listing

  /** A group fits a limit of `budget` cost and, when `most` is given, that many items. */
  datatype Limit = Limit(budget: int, most: Option<nat>)
  {
    ghost predicate Fits<T>(cost: T -> nat, group: seq<T>)
    {
      TotalCost(cost, group) <= budget && (most.Some? ==> |group| <= most.value)
    }
  }

  function TotalCost<T>(cost: T -> nat, group: seq<T>): nat
  {
    if group == [] then 0 else TotalCost(cost, group[..|group| - 1]) + cost(group[|group| - 1])
  }

  /** What a greedy split leaves: no empty group, only lone items over the limit, and no group that
      could have taken the first item of the next. */
  ghost predicate Greedy<T>(limit: Limit, cost: T -> nat, groups: seq<seq<T>>)
  {
    && (forall i :: 0 <= i < |groups| ==> groups[i] != [])
    && (forall i :: 0 <= i < |groups| ==> limit.Fits(cost, groups[i]) || |groups[i]| == 1)
    && (forall i, j :: 0 <= i && j == i + 1 && j < |groups| ==> !limit.Fits(cost, groups[i] + [groups[j][0]]))
  }

  lemma TotalCostAppend<T>(cost: T -> nat, group: seq<T>, x: T)
    ensures TotalCost(cost, group + [x]) == TotalCost(cost, group) + cost(x)
  {}

  /** Where a splitter stands after `n` items: closed groups, and one group still open. */
  ghost predicate Underway<T>(limit: Limit, cost: T -> nat, items: seq<T>, n: nat, groups: seq<seq<T>>, open: seq<T>)
  {
    && n <= |items|
    && Flatten(groups) + open == items[..n]
    && (open == [] ==> groups == [])
    && (open != [] ==> Greedy(limit, cost, groups + [open]))
  }

  lemma GreedyPush<T>(limit: Limit, cost: T -> nat, groups: seq<seq<T>>, last: seq<T>, x: T)
    requires Greedy(limit, cost, groups + [last]) && last != []
    ensures limit.Fits(cost, last + [x]) ==> Greedy(limit, cost, groups + [last + [x]])
    ensures !limit.Fits(cost, last + [x]) ==> Greedy(limit, cost, groups + [last] + [[x]])
  {
    var before, grown, pushed := groups + [last], groups + [last + [x]], groups + [last] + [[x]];
    var n := |groups|;
    assert forall i :: 0 <= i < n ==> grown[i] == before[i];
    assert grown[n][0] == before[n][0];
    assert forall i :: 0 <= i <= n ==> pushed[i] == before[i];
    assert pushed[n + 1] == [x];
  }

  lemma Grow<T>(limit: Limit, cost: T -> nat, items: seq<T>, n: nat, groups: seq<seq<T>>, open: seq<T>)
    requires n < |items| && Underway(limit, cost, items, n, groups, open)
    requires open != [] ==> limit.Fits(cost, open + [items[n]])
    ensures Underway(limit, cost, items, n + 1, groups, open + [items[n]])
  {
    assert items[..n + 1] == items[..n] + [items[n]];
    if open != [] {
      GreedyPush(limit, cost, groups, open, items[n]);
    }
  }

  lemma CloseAndOpen<T>(limit: Limit, cost: T -> nat, items: seq<T>, n: nat, groups: seq<seq<T>>, open: seq<T>)
    requires n < |items| && Underway(limit, cost, items, n, groups, open)
    requires open != [] && !limit.Fits(cost, open + [items[n]])
    ensures Underway(limit, cost, items, n + 1, groups + [open], [items[n]])
  {
    assert items[..n + 1] == items[..n] + [items[n]];
    FlattenAppend(groups, open);
    GreedyPush(limit, cost, groups, open, items[n]);
  }

  lemma TotalCostOne<T>(cost: T -> nat, x: T)
    ensures TotalCost(cost, [x]) == cost(x)
  {}

  /** `_split_into_batches`. */
  method SplitIntoBatches<T>(texts: seq<T>, budget: int, cost: T -> nat) returns (batches: seq<seq<T>>)
    ensures Flatten(batches) == texts
    ensures Greedy(Limit(budget, None), cost, batches)
  {
    ghost var limit := Limit(budget, None);
    batches := [];
    var current: seq<T>, currentTokens := [], 0;
    for i := 0 to |texts|
      invariant Underway(limit, cost, texts, i, batches, current)
      invariant currentTokens == TotalCost(cost, current)
    {
      var text := texts[i];
      var textTokens := cost(text);
      TotalCostAppend(cost, current, text);
      TotalCostOne(cost, text);
      if current != [] && currentTokens + textTokens > budget {
        CloseAndOpen(limit, cost, texts, i, batches, current);
        batches := batches + [current];
        current, currentTokens := [], 0;
      } else {
        Grow(limit, cost, texts, i, batches, current);
      }
      current := current + [text];
      currentTokens := currentTokens + textTokens;
    }
    assert texts[..|texts|] == texts;
    if current != [] {
      FlattenAppend(batches, current);
      batches := batches + [current];
    }
  }

  /** `_split_context_requests`: the limit also counts the items of a request. */
  method SplitIntoRequests<T>(segments: seq<T>, budget: int, most: nat, cost: T -> nat) returns (requests: seq<seq<T>>)
    requires most >= 1
    ensures Flatten(requests) == segments
    ensures Greedy(Limit(budget, Some(most)), cost, requests)
  {
    ghost var limit := Limit(budget, Some(most));
    requests := [];
    var current: seq<T>, currentTokens := [], 0;
    for i := 0 to |segments|
      invariant Underway(limit, cost, segments, i, requests, current)
      invariant currentTokens == TotalCost(cost, current)
    {
      var segment := segments[i];
      var segmentTokens := cost(segment);
      TotalCostAppend(cost, current, segment);
      TotalCostOne(cost, segment);
      if current != [] && (currentTokens + segmentTokens > budget || |current| >= most) {
        CloseAndOpen(limit, cost, segments, i, requests, current);
        requests := requests + [current];
        current, currentTokens := [], 0;
      } else {
        Grow(limit, cost, segments, i, requests, current);
      }
      current := current + [segment];
      currentTokens := currentTokens + segmentTokens;
    }
    assert segments[..|segments|] == segments;
    if current != [] {
      FlattenAppend(requests, current);
      requests := requests + [current];
    }
  }

  // ---- Greedy is optimal -----------------------------------------------------------------------

  lemma {:induction false} TotalCostConcat<T>(cost: T -> nat, xs: seq<T>, ys: seq<T>)
    ensures TotalCost(cost, xs + ys) == TotalCost(cost, xs) + TotalCost(cost, ys)
  {
    if ys == [] {
      assert xs + ys == xs;
    } else {
      var front := ys[..|ys| - 1];
      TotalCostConcat(cost, xs, front);
      assert (xs + ys)[..|xs + ys| - 1] == xs + front;
    }
  }

  /** A group was closed for being full, or for the next item's cost. */
  lemma ClosedWhenFull<T>(limit: Limit, cost: T -> nat, groups: seq<seq<T>>, i: nat)
    requires Greedy(limit, cost, groups) && i + 1 < |groups| && groups[i + 1] != []
    ensures || (limit.most.Some? && |groups[i]| >= limit.most.value)
            || TotalCost(cost, groups[i]) + cost(groups[i + 1][0]) > limit.budget
  {
    TotalCostAppend(cost, groups[i], groups[i + 1][0]);
  }

  /** Every contiguous part of a group that fits also fits. */
  lemma PartFits<T>(limit: Limit, cost: T -> nat, before: seq<T>, part: seq<T>, after: seq<T>)
    requires limit.Fits(cost, before + part + after)
    ensures limit.Fits(cost, part)
  {
    TotalCostConcat(cost, before + part, after);
    TotalCostConcat(cost, before, part);
  }

  lemma GreedyTail<T>(limit: Limit, cost: T -> nat, groups: seq<seq<T>>)
    requires groups != [] && Greedy(limit, cost, groups)
    ensures Greedy(limit, cost, groups[1..])
  {}

  /** A greedy split of what is left of a list stays ahead of any fitting split that still has
      `lag` items before it. */
  lemma {:induction false} StaysAhead<T>(limit: Limit, cost: T -> nat, greedy: seq<seq<T>>, other: seq<seq<T>>,
                                         lag: seq<T>)
    requires Greedy(limit, cost, greedy)
    requires forall i :: 0 <= i < |other| ==> limit.Fits(cost, other[i])
    requires Flatten(other) == lag + Flatten(greedy)
    ensures |greedy| <= |other|
    decreases |other|
  {
    if greedy != [] {
      FlattenFirst(greedy);
      assert Flatten(greedy) != [] by { assert greedy[0] != []; }
      FlattenFirst(other);
      var first, rest := other[0], other[1..];
      if |first| <= |lag| {
        assert first == lag[..|first|] by { assert (lag + Flatten(greedy))[..|first|] == first; }
        assert Flatten(rest) == lag[|first|..] + Flatten(greedy) by {
          assert Flatten(rest) == (lag + Flatten(greedy))[|first|..];
        }
        StaysAhead(limit, cost, greedy, rest, lag[|first|..]);
      } else {
        FirstGroupReachesAsFar(limit, cost, greedy, first, rest, lag);
        var k := |first| - |lag|;
        GreedyTail(limit, cost, greedy);
        assert Flatten(rest) == greedy[0][k..] + Flatten(greedy[1..]) by {
          assert Flatten(rest) == (lag + greedy[0] + Flatten(greedy[1..]))[|first|..];
        }
        StaysAhead(limit, cost, greedy[1..], rest, greedy[0][k..]);
      }
    }
  }

  lemma LongerPrefix<T>(first: seq<T>, afterFirst: seq<T>, before: seq<T>, beyond: seq<T>)
    requires first + afterFirst == before + beyond && |first| > |before| && beyond != []
    ensures first == before + [beyond[0]] + first[|before| + 1..]
  {
    assert first == (before + beyond)[..|first|];
  }

  lemma FirstGroupReachesAsFar<T>(limit: Limit, cost: T -> nat, greedy: seq<seq<T>>, first: seq<T>, rest: seq<seq<T>>,
                                  lag: seq<T>)
    requires greedy != [] && Greedy(limit, cost, greedy) && limit.Fits(cost, first)
    requires |first| > |lag| && first + Flatten(rest) == lag + Flatten(greedy)
    ensures |first| - |lag| <= |greedy[0]|
  {
    FlattenFirst(greedy);
    var g, beyond := greedy[0], Flatten(greedy[1..]);
    if |first| - |lag| > |g| {
      OverlapTooLong(limit, cost, greedy, first, rest, lag);
      assert false;
    }
  }

  /** A fitting group that took the whole of the first greedy one and more would have the part that does
      not fit inside it. */
  lemma OverlapTooLong<T>(limit: Limit, cost: T -> nat, greedy: seq<seq<T>>, first: seq<T>, rest: seq<seq<T>>,
                          lag: seq<T>)
    requires greedy != [] && |first| > |lag| + |greedy[0]|
    requires first + Flatten(rest) == lag + (greedy[0] + Flatten(greedy[1..])) && Greedy(limit, cost, greedy)
    ensures !limit.Fits(cost, first)
  {
    hide Limit.Fits;
    var g, beyond := greedy[0], Flatten(greedy[1..]);
    assert lag + (g + beyond) == (lag + g) + beyond;
    assert beyond != [] by { assert |first| <= |lag + g| + |beyond|; }
    LongerPrefix(first, Flatten(rest), lag + g, beyond);
    FlattenFirst(greedy[1..]);
    var part := g + [greedy[1][0]];
    assert !limit.Fits(cost, part);
    assert lag + g + [beyond[0]] == lag + part;
    if limit.Fits(cost, first) {
      assert first == lag + part + first[|lag + g| + 1..];
      PartFits(limit, cost, lag, part, first[|lag + g| + 1..]);
    }
  }

  /** No contiguous split whose groups all fit uses fewer groups than the greedy one. */
  lemma GreedyIsOptimal<T>(limit: Limit, cost: T -> nat, items: seq<T>, greedy: seq<seq<T>>, other: seq<seq<T>>)
    requires Greedy(limit, cost, greedy) && Flatten(greedy) == items
    requires Flatten(other) == items && forall i :: 0 <= i < |other| ==> limit.Fits(cost, other[i])
    ensures |greedy| <= |other|
  {
    StaysAhead(limit, cost, greedy, other, []);
  }

  /** The greedy conditions pin the split down: a second greedy split of the same items is the same. */
  lemma {:induction false} GreedyIsUnique<T>(limit: Limit, cost: T -> nat, a: seq<seq<T>>, b: seq<seq<T>>)
    requires Greedy(limit, cost, a) && Greedy(limit, cost, b) && Flatten(a) == Flatten(b)
    ensures a == b
    decreases |a|
  {
    if a == [] {
      if b != [] { FlattenFirst(b); }
    } else {
      FlattenFirst(a);
      assert Flatten(b) != [] by { assert a[0] != []; }
      FlattenFirst(b);
      SameFirstGroup(limit, cost, a, b);
      SameFirstGroup(limit, cost, b, a);
      assert a[0] == Flatten(a)[..|a[0]|] == b[0];
      assert Flatten(a[1..]) == Flatten(a)[|a[0]|..] == Flatten(b[1..]);
      GreedyTail(limit, cost, a);
      GreedyTail(limit, cost, b);
      GreedyIsUnique(limit, cost, a[1..], b[1..]);
    }
  }

  lemma SameFirstGroup<T>(limit: Limit, cost: T -> nat, a: seq<seq<T>>, b: seq<seq<T>>)
    requires a != [] && b != [] && Greedy(limit, cost, a) && Greedy(limit, cost, b) && Flatten(a) == Flatten(b)
    ensures |a[0]| <= |b[0]|
  {
    if |a[0]| > |b[0]| {
      FlattenFirst(a);
      assert b[0] != [];
      assert a[0] + Flatten(a[1..]) == [] + Flatten(b);
      FirstGroupReachesAsFar(limit, cost, b, a[0], a[1..], []);
    }
  }

  // ---- The character estimate --------------------------------------------------------------------

  const CHARS_PER_TOKEN: nat := 4

  function Chars(texts: seq<string>): nat
  {
    if texts == [] then 0 else Chars(texts[..|texts| - 1]) + |texts[|texts| - 1]|
  }

  function EstimateTokens(texts: seq<string>): nat
  {
    var estimate := Chars(texts) / CHARS_PER_TOKEN;
    if estimate < 1 then 1 else estimate
  }

  function EstimateOne(text: string): nat { EstimateTokens([text]) }

  lemma {:induction false} CharsOfAll(texts: seq<string>)
    ensures Chars(texts) == |Flatten(texts)|
  {
    if texts != [] { CharsOfAll(texts[..|texts| - 1]); }
  }

  /** Four characters of all the texts together count as a token, a remainder as none; but something is
      always counted. */
  lemma EstimateIs(texts: seq<string>)
    ensures var e, length := EstimateTokens(texts), |Flatten(texts)|;
            e >= 1 && length < 4 * e + 4 && (4 * e <= length || e == 1)
  {
    CharsOfAll(texts);
  }

  lemma {:induction false} CharsAgainstCost(texts: seq<string>)
    ensures Chars(texts) <= 4 * TotalCost(EstimateOne, texts) + 3 * |texts|
  {
    if texts != [] {
      var front, last := texts[..|texts| - 1], texts[|texts| - 1];
      CharsAgainstCost(front);
      assert Chars([last]) == Chars([]) + |last| by { assert [last][..0] == []; }
    }
  }

  /** The splitter adds up per-text estimates, each rounded down, so the estimate the limiter is given
      for a whole batch of `n` texts can exceed the budget, by at most three quarters of `n`. */
  lemma BatchEstimate(texts: seq<string>, budget: int, batches: seq<seq<string>>, i: nat)
    requires Flatten(batches) == texts && Greedy(Limit(budget, None), EstimateOne, batches)
    requires i < |batches| && |batches[i]| >= 2
    ensures EstimateTokens(batches[i]) <= budget + 3 * |batches[i]| / 4
  {
    assert Limit(budget, None).Fits(EstimateOne, batches[i]);
    CharsAgainstCost(batches[i]);
  }

  function Sevens(n: nat): seq<string>
  {
    if n == 0 then [] else Sevens(n - 1) + ["seven.."]
  }

  lemma {:induction false} SevensMeasure(n: nat)
    ensures |Sevens(n)| == n && Chars(Sevens(n)) == 7 * n && TotalCost(EstimateOne, Sevens(n)) == n
  {
    if n > 0 {
      SevensMeasure(n - 1);
      assert Sevens(n)[..n - 1] == Sevens(n - 1);
      assert Chars(["seven.."]) == 7 by { assert ["seven.."][..0] == []; }
    }
  }

  /** The three-quarters bound is met exactly, for every batch size and a budget of that size. */
  lemma BatchEstimateIsTight(n: nat)
    requires n >= 2
    ensures Greedy(Limit(n, None), EstimateOne, [Sevens(n)]) && Flatten([Sevens(n)]) == Sevens(n)
    ensures EstimateTokens(Sevens(n)) == n + 3 * n / 4
  {
    SevensMeasure(n);
    assert [Sevens(n)][..0] == [];
  }

  // ---- Contextualised requests -------------------------------------------------------------------

  const WINDOW_TOKENS := 32000
  const SEGMENT_BUDGET := 30000
  const REQUEST_TOKEN_CAP := 120000
  const MAX_INPUTS: nat := 1000

  /** `_count_context_tokens` over an arbitrary encoder. */
  function CountTokens(encoded: string -> nat, texts: seq<string>): nat
  {
    var total := TotalCost(encoded, texts);
    if total < 1 then 1 else total
  }

  /** A list of texts costs what it costs in two parts, unless a part has no tokens at all. */
  lemma CountInParts(encoded: string -> nat, before: seq<string>, after: seq<string>)
    ensures CountTokens(encoded, []) == 1
    ensures |before| == 1 && encoded(before[0]) >= 1 ==> CountTokens(encoded, before) == encoded(before[0])
    ensures var parts := TotalCost(encoded, before) + TotalCost(encoded, after);
            CountTokens(encoded, before + after) == if parts == 0 then 1 else parts
  {
    TotalCostConcat(encoded, before, after);
  }

  function CountOne(encoded: string -> nat): string -> nat
  {
    text => CountTokens(encoded, [text])
  }

  function CountSegment(encoded: string -> nat): seq<string> -> nat
  {
    segment => CountTokens(encoded, segment)
  }

  /** `_validate_context_chunk_sizes`: the first chunk over the window, if any. */
  method ValidateChunkSizes(encoded: string -> nat, texts: seq<string>) returns (oversized: Option<nat>)
    ensures oversized.None? <==> forall i :: 0 <= i < |texts| ==> CountTokens(encoded, [texts[i]]) <= WINDOW_TOKENS
    ensures oversized.Some? ==>
              && oversized.value < |texts|
              && CountTokens(encoded, [texts[oversized.value]]) > WINDOW_TOKENS
              && forall i :: 0 <= i < oversized.value ==> CountTokens(encoded, [texts[i]]) <= WINDOW_TOKENS
  {
    for i := 0 to |texts|
      invariant forall k :: 0 <= k < i ==> CountTokens(encoded, [texts[k]]) <= WINDOW_TOKENS
    {
      if CountTokens(encoded, [texts[i]]) > WINDOW_TOKENS {
        return Some(i);
      }
    }
    oversized := None;
  }

  ghost predicate SegmentWithinLimits(encoded: string -> nat, segment: seq<string>)
  {
    && segment != []
    && CountTokens(encoded, segment) <= 32000
    && (|segment| > 1 ==> CountTokens(encoded, segment) <= 30000)
  }

  ghost predicate RequestWithinLimits(encoded: string -> nat, request: seq<seq<string>>)
  {
    && 1 <= |request| <= 1000
    && CountTokens(encoded, Flatten(request)) <= 120000
    && forall i :: 0 <= i < |request| ==> SegmentWithinLimits(encoded, request[i])
  }

  lemma {:induction false} CountAtMostSum(encoded: string -> nat, texts: seq<string>)
    requires texts != []
    ensures CountTokens(encoded, texts) <= TotalCost(CountOne(encoded), texts)
  {
    var front, last := texts[..|texts| - 1], texts[|texts| - 1];
    TotalCostOne(encoded, last);
    if front == [] {
      assert texts == [last];
    } else {
      CountAtMostSum(encoded, front);
    }
  }

  lemma {:induction false} FlatCountAtMostSum(encoded: string -> nat, request: seq<seq<string>>)
    requires request != []
    ensures CountTokens(encoded, Flatten(request)) <= TotalCost(CountSegment(encoded), request)
  {
    var front, last := request[..|request| - 1], request[|request| - 1];
    TotalCostConcat(encoded, Flatten(front), last);
    if front == [] {
      assert request == [last];
    } else {
      FlatCountAtMostSum(encoded, front);
    }
  }

  /** `_embed_documents_voyage_context`, from validation to the requests that are sent: either a chunk
      is rejected, or the requests flatten to the chunks in order, within every published limit, and
      both segments and requests are as large as the limits let them be. */
  method ContextRequests(encoded: string -> nat, texts: seq<string>)
    returns (oversized: Option<nat>, requests: seq<seq<seq<string>>>)
    ensures oversized.None? <==> forall i :: 0 <= i < |texts| ==> CountTokens(encoded, [texts[i]]) <= 32000
    ensures oversized.None? ==> Flatten(Flatten(requests)) == texts
    ensures oversized.None? ==> forall r :: 0 <= r < |requests| ==> RequestWithinLimits(encoded, requests[r])
    ensures oversized.None? ==> Greedy(Limit(30000, None), CountOne(encoded), Flatten(requests))
    ensures oversized.None? ==> Greedy(Limit(120000, Some(1000)), CountSegment(encoded), requests)
  {
    oversized := ValidateChunkSizes(encoded, texts);
    if oversized.Some? {
      return oversized, [];
    }
    var segments := SplitIntoBatches(texts, SEGMENT_BUDGET, CountOne(encoded));
    forall s | 0 <= s < |segments| ensures SegmentWithinLimits(encoded, segments[s]) {
      SegmentLimits(encoded, texts, segments, s);
    }
    requests := SplitIntoRequests(segments, REQUEST_TOKEN_CAP, MAX_INPUTS, CountSegment(encoded));
    forall r | 0 <= r < |requests| ensures RequestWithinLimits(encoded, requests[r]) {
      RequestLimits(encoded, segments, requests, r);
    }
  }

  lemma SegmentLimits(encoded: string -> nat, texts: seq<string>, segments: seq<seq<string>>, s: nat)
    requires Flatten(segments) == texts && s < |segments|
    requires Greedy(Limit(SEGMENT_BUDGET, None), CountOne(encoded), segments)
    requires forall i :: 0 <= i < |texts| ==> CountTokens(encoded, [texts[i]]) <= WINDOW_TOKENS
    ensures SegmentWithinLimits(encoded, segments[s])
  {
    var segment := segments[s];
    assert segment != [];
    if |segment| == 1 {
      FlattenMembers(segments, s, segment[0]);
      assert segment == [segment[0]];
    } else {
      CountAtMostSum(encoded, segment);
    }
  }

  lemma RequestLimits(encoded: string -> nat, segments: seq<seq<string>>, requests: seq<seq<seq<string>>>, r: nat)
    requires Flatten(requests) == segments && r < |requests|
    requires Greedy(Limit(REQUEST_TOKEN_CAP, Some(MAX_INPUTS)), CountSegment(encoded), requests)
    requires forall s :: 0 <= s < |segments| ==> SegmentWithinLimits(encoded, segments[s])
    ensures RequestWithinLimits(encoded, requests[r])
  {
    var limit, cost := Limit(REQUEST_TOKEN_CAP, Some(MAX_INPUTS)), CountSegment(encoded);
    var request := requests[r];
    assert request != [];
    forall i | 0 <= i < |request| ensures SegmentWithinLimits(encoded, request[i]) {
      FlattenMembers(requests, r, request[i]);
    }
    FlatCountAtMostSum(encoded, request);
    if |request| == 1 {
      assert request == [request[0]];
      TotalCostOne(cost, request[0]);
      assert SegmentWithinLimits(encoded, request[0]);
    }
  }
}
