/**
 The grouping loops of the sentence and semantic chunkers: server/core/chunkers/sentence.py:34-61
 and server/core/chunkers/semantic.py:9-30, 70-103.

 Sentences arrive already split.  For the semantic chunker, whether two neighbours are dissimilar is
 an arbitrary function of the position.  A chunking is specified by how each chunk is built: the text
 carried over from the chunk before, and the sentences that are new.
 */
module Chunkers {

  /** `" ".join(parts)`. */
  function Join(parts: seq<string>): string
  {
    if parts == [] then ""
    else if |parts| == 1 then parts[0]
    else Join(parts[..|parts| - 1]) + " " + parts[|parts| - 1]
  }

  /** A chunk is its seed and its new sentences, joined; the first of these is sentence `start`. */
  datatype Piece = Piece(start: nat, seed: seq<string>, added: seq<string>)
  {
    function Text(): string { Join(seed + added) }
  }

  function AddedOf(pieces: seq<Piece>): seq<string>
  {
    if pieces == [] then [] else AddedOf(pieces[..|pieces| - 1]) + pieces[|pieces| - 1].added
  }

  /** What remains of a chunk once its seed, and the space after it, are cut off. */
  function WithoutSeed(p: Piece): string
  {
    var cut := if p.seed == [] then 0 else |Join(p.seed)| + 1;
    if cut <= |p.Text()| then p.Text()[cut..] else ""
  }

  ghost predicate IsSuffix(tail: string, text: string)
  {
    |tail| <= |text| && text[|text| - |tail|..] == tail
  }

  // ---- Joining -----------------------------------------------------------------------------------

  lemma JoinPush(parts: seq<string>, x: string)
    ensures parts != [] ==> Join(parts + [x]) == Join(parts) + " " + x
    ensures parts == [] ==> Join(parts + [x]) == x
  {}

  lemma {:induction false} JoinConcat(xs: seq<string>, ys: seq<string>)
    requires xs != [] && ys != []
    ensures Join(xs + ys) == Join(xs) + " " + Join(ys)
  {
    var front, last := ys[..|ys| - 1], ys[|ys| - 1];
    assert xs + ys == (xs + front) + [last] && ys == front + [last];
    JoinPush(xs + front, last);
    JoinPush(front, last);
    if front == [] {
      assert xs + front == xs;
    } else {
      JoinConcat(xs, front);
      assert Join(xs) + " " + Join(front) + " " + last == Join(xs) + " " + (Join(front) + " " + last);
    }
  }

  lemma SeedCutsOff(p: Piece)
    requires p.added != []
    ensures WithoutSeed(p) == Join(p.added)
  {
    if p.seed == [] {
      assert p.seed + p.added == p.added;
    } else {
      JoinConcat(p.seed, p.added);
    }
  }

  function Cut(pieces: seq<Piece>): seq<string>
  {
    if pieces == [] then [] else Cut(pieces[..|pieces| - 1]) + [WithoutSeed(pieces[|pieces| - 1])]
  }

  /** Cutting every seed off and joining what is left gives back all the sentences in order. */
  lemma {:induction false} SeedsRemovedRejoin(pieces: seq<Piece>)
    requires forall i :: 0 <= i < |pieces| ==> pieces[i].added != []
    ensures Join(Cut(pieces)) == Join(AddedOf(pieces))
    ensures pieces != [] ==> AddedOf(pieces) != [] && Cut(pieces) != []
  {
    if pieces != [] {
      var front, last := pieces[..|pieces| - 1], pieces[|pieces| - 1];
      SeedsRemovedRejoin(front);
      SeedCutsOff(last);
      JoinPush(Cut(front), Join(last.added));
      if front == [] {
        assert AddedOf(pieces) == last.added;
      } else {
        JoinConcat(AddedOf(front), last.added);
      }
    }
  }

  // ---- Runs of chunks ------------------------------------------------------------------------------

  ghost predicate Texts(chunks: seq<string>, pieces: seq<Piece>)
  {
    |chunks| == |pieces| && forall i :: 0 <= i < |chunks| ==> chunks[i] == pieces[i].Text()
  }

  /** How a chunker decides: `joins(i, open, s)` says whether the next sentence, `s`, joins chunk number `i`, so
      far `open`; `linked` says how a chunk follows on the one before. */
  datatype Rule = Rule(joins: (nat, Piece, string) -> bool, linked: (Piece, Piece) -> bool)

  /** The chunks are the texts of linked pieces whose new sentences are exactly `sentences`, in order, each
      split from the next where the rule says. */
  ghost predicate Chunking(sentences: seq<string>, chunks: seq<string>, chunkSize: int, rule: Rule)
  {
    exists pieces :: BuiltFrom(sentences, chunks, pieces, chunkSize, rule)
  }

  ghost predicate BuiltFrom(sentences: seq<string>, chunks: seq<string>, pieces: seq<Piece>, chunkSize: int, rule: Rule)
  {
    && Texts(chunks, pieces) && AddedOf(pieces) == sentences && Chain(pieces, Sized(chunkSize), rule.linked)
    && Ruled(pieces, rule.joins)
  }

  /** A piece before its `j`-th new sentence came. */
  function Before(p: Piece, j: nat): Piece
    requires j <= |p.added|
  {
    p.(added := p.added[..j])
  }

  /** Every sentence that joined a chunk was to join it, and every one that opened a chunk was not to join the
      one before. */
  ghost predicate Ruled(pieces: seq<Piece>, joins: (nat, Piece, string) -> bool)
  {
    && (forall i, j :: 0 <= i < |pieces| && 1 <= j < |pieces[i].added| ==>
          joins(i, Before(pieces[i], j), pieces[i].added[j]))
    && (forall i, k :: 0 <= i && k == i + 1 && k < |pieces| && pieces[k].added != [] ==>
          !joins(i, pieces[i], pieces[k].added[0]))
  }

  lemma RuledGrows(pieces: seq<Piece>, open: Piece, sentence: string, joins: (nat, Piece, string) -> bool)
    requires Ruled(pieces + [open], joins) && open.added != [] && joins(|pieces|, open, sentence)
    ensures Ruled(pieces + [Grown(open, sentence)], joins)
  {
    var grown, was, now := Grown(open, sentence), pieces + [open], pieces + [Grown(open, sentence)];
    forall i, j | 0 <= i < |now| && 1 <= j < |now[i].added| ensures joins(i, Before(now[i], j), now[i].added[j]) {
      if i < |pieces| {
        assert now[i] == was[i];
      } else if j < |open.added| {
        assert Before(grown, j) == Before(open, j) && was[i] == open;
      } else {
        assert Before(grown, j) == open;
      }
    }
    forall i, k | 0 <= i && k == i + 1 && k < |now| && now[k].added != []
      ensures !joins(i, now[i], now[k].added[0])
    {
      assert was[i] == now[i] && was[k].added != [] && was[k].added[0] == now[k].added[0];
    }
  }

  lemma RuledOpens(pieces: seq<Piece>, open: Piece, next: Piece, joins: (nat, Piece, string) -> bool)
    requires Ruled(pieces + [open], joins) && |next.added| == 1 && !joins(|pieces|, open, next.added[0])
    ensures Ruled(pieces + [open] + [next], joins)
  {}

  /** Every piece is `fit`, the first opens the text, and neighbours are `linked`. */
  ghost predicate Chain(pieces: seq<Piece>, fit: Piece -> bool, linked: (Piece, Piece) -> bool)
  {
    && (forall i :: 0 <= i < |pieces| ==> fit(pieces[i]))
    && (pieces != [] ==> pieces[0].seed == [] && pieces[0].start == 0)
    && (forall i, j :: 0 <= i && j == i + 1 && j < |pieces| ==> linked(pieces[i], pieces[j]))
  }

  /** `open` may follow `pieces`. */
  ghost predicate Follows(pieces: seq<Piece>, open: Piece, linked: (Piece, Piece) -> bool)
  {
    if pieces == [] then open.seed == [] && open.start == 0 else linked(pieces[|pieces| - 1], open)
  }

  lemma ChainPush(pieces: seq<Piece>, open: Piece, fit: Piece -> bool, linked: (Piece, Piece) -> bool)
    requires Chain(pieces, fit, linked) && Follows(pieces, open, linked) && fit(open)
    ensures Chain(pieces + [open], fit, linked)
    ensures AddedOf(pieces + [open]) == AddedOf(pieces) + open.added
  {
    assert (pieces + [open])[..|pieces|] == pieces;
  }

  /** A chunk with two or more new sentences stayed within one character of the size. */
  ghost function Sized(chunkSize: int): Piece -> bool
  {
    (p: Piece) => p.added != [] && (|p.added| >= 2 ==> |p.Text()| <= chunkSize + 1)
  }

  /** After `n` sentences: closed chunks, and a chunk still open. */
  ghost predicate Underway(sentences: seq<string>, n: nat, chunks: seq<string>, pieces: seq<Piece>, open: Piece,
                           chunkSize: int, rule: Rule)
  {
    && n <= |sentences|
    && Texts(chunks, pieces) && Chain(pieces, Sized(chunkSize), rule.linked)
    && Follows(pieces, open, rule.linked) && Sized(chunkSize)(open) && Ruled(pieces + [open], rule.joins)
    && AddedOf(pieces) + open.added == sentences[..n] && open.start + |open.added| == n
  }

  function Grown(open: Piece, sentence: string): Piece
  {
    open.(added := open.added + [sentence])
  }

  lemma GrownText(open: Piece, sentence: string)
    ensures open.seed + Grown(open, sentence).added == open.seed + open.added + [sentence]
    ensures open.seed + open.added != [] ==> Grown(open, sentence).Text() == open.Text() + " " + sentence
    ensures open.seed + open.added == [] ==> Grown(open, sentence).Text() == sentence
  {
    assert open.seed + (open.added + [sentence]) == (open.seed + open.added) + [sentence];
    JoinPush(open.seed + open.added, sentence);
  }

  lemma Continue(sentences: seq<string>, n: nat, chunks: seq<string>, pieces: seq<Piece>, open: Piece,
                 chunkSize: int, rule: Rule)
    requires n < |sentences| && Underway(sentences, n, chunks, pieces, open, chunkSize, rule)
    requires |open.Text()| + |sentences[n]| <= chunkSize && rule.joins(|pieces|, open, sentences[n])
    requires Follows(pieces, Grown(open, sentences[n]), rule.linked)
    ensures Underway(sentences, n + 1, chunks, pieces, Grown(open, sentences[n]), chunkSize, rule)
  {
    hide Ruled;
    RuledGrows(pieces, open, sentences[n], rule.joins);
    GrownText(open, sentences[n]);
    assert sentences[..n + 1] == sentences[..n] + [sentences[n]];
  }

  lemma Close(sentences: seq<string>, n: nat, chunks: seq<string>, pieces: seq<Piece>, open: Piece,
              chunkSize: int, rule: Rule)
    requires Underway(sentences, n, chunks, pieces, open, chunkSize, rule)
    ensures BuiltFrom(sentences[..n], chunks + [open.Text()], pieces + [open], chunkSize, rule)
  {
    hide Ruled;
    ChainPush(pieces, open, Sized(chunkSize), rule.linked);
  }

  lemma CloseAndOpen(sentences: seq<string>, n: nat, chunks: seq<string>, pieces: seq<Piece>, open: Piece, next: Piece,
                     chunkSize: int, rule: Rule)
    requires n < |sentences| && Underway(sentences, n, chunks, pieces, open, chunkSize, rule)
    requires next.start == n && next.added == [sentences[n]] && rule.linked(open, next)
    requires !rule.joins(|pieces|, open, sentences[n])
    ensures Underway(sentences, n + 1, chunks + [open.Text()], pieces + [open], next, chunkSize, rule)
  {
    hide Ruled;
    Close(sentences, n, chunks, pieces, open, chunkSize, rule);
    RuledOpens(pieces, open, next, rule.joins);
    assert sentences[..n + 1] == sentences[..n] + [sentences[n]];
  }

  lemma StartFirst(sentences: seq<string>, chunkSize: int, rule: Rule)
    requires sentences != []
    ensures Underway(sentences, 1, [], [], Piece(0, [], [sentences[0]]), chunkSize, rule)
  {
    assert sentences[..1] == [sentences[0]];
  }

  // ---- The rule leaves no choice -------------------------------------------------------------------

  /** A chunk's start and seed depend on the chunk before alone. */
  ghost predicate Determined(linked: (Piece, Piece) -> bool)
  {
    forall p, q, r :: linked(p, q) && linked(p, r) ==> q.seed == r.seed && q.start == r.start
  }

  /** Chunks follow on each other without a gap. */
  ghost predicate Consecutive(linked: (Piece, Piece) -> bool)
  {
    forall p, q :: linked(p, q) ==> q.start == p.start + |p.added|
  }

  lemma {:induction false} LastEnds(pieces: seq<Piece>, fit: Piece -> bool, linked: (Piece, Piece) -> bool)
    requires Chain(pieces, fit, linked) && Consecutive(linked) && pieces != []
    ensures pieces[|pieces| - 1].start + |pieces[|pieces| - 1].added| == |AddedOf(pieces)|
  {
    var front, last := pieces[..|pieces| - 1], pieces[|pieces| - 1];
    if front != [] {
      assert pieces[|front| - 1] == front[|front| - 1] && linked(front[|front| - 1], last);
      LastEnds(front, fit, linked);
    }
  }

  /** A piece's new sentences are where it says they start. */
  ghost predicate InPlace(sentences: seq<string>, p: Piece)
  {
    p.start + |p.added| <= |sentences| && sentences[p.start..p.start + |p.added|] == p.added
  }

  lemma StaysInPlace(front: seq<string>, last: seq<string>, p: Piece)
    requires InPlace(front, p)
    ensures InPlace(front + last, p)
  {}

  lemma LastInPlace(front: seq<string>, p: Piece)
    requires p.start == |front|
    ensures InPlace(front + p.added, p)
  {}

  lemma {:induction false} PieceHolds(pieces: seq<Piece>, fit: Piece -> bool, linked: (Piece, Piece) -> bool, i: nat)
    requires Chain(pieces, fit, linked) && Consecutive(linked) && i < |pieces|
    ensures InPlace(AddedOf(pieces), pieces[i])
    ensures i == |pieces| - 1 ==> pieces[i].start + |pieces[i].added| == |AddedOf(pieces)|
  {
    LastEnds(pieces, fit, linked);
    var n := |pieces| - 1;
    var front, last := AddedOf(pieces[..n]), pieces[n].added;
    assert AddedOf(pieces) == front + last;
    FrontChain(pieces, fit, linked);
    hide Chain, AddedOf, Consecutive, InPlace;
    if i < n {
      PieceHolds(pieces[..n], fit, linked, i);
      assert pieces[..n][i] == pieces[i];
      StaysInPlace(front, last, pieces[i]);
    } else {
      LastInPlace(front, pieces[i]);
    }
  }

  lemma FrontChain(pieces: seq<Piece>, fit: Piece -> bool, linked: (Piece, Piece) -> bool)
    requires Chain(pieces, fit, linked) && pieces != []
    ensures Chain(pieces[..|pieces| - 1], fit, linked)
  {}

  /** Two lists of pieces agree on a piece if they agree on where it starts and what it is seeded with. */
  lemma SamePiece(sentences: seq<string>, a: seq<Piece>, b: seq<Piece>, chunkSize: int, rule: Rule, i: nat)
    requires i < |a| && i < |b| && a[i].seed == b[i].seed && a[i].start == b[i].start
    requires AddedOf(a) == AddedOf(b) == sentences && Consecutive(rule.linked)
    requires Chain(a, Sized(chunkSize), rule.linked) && Ruled(a, rule.joins)
    requires Chain(b, Sized(chunkSize), rule.linked) && Ruled(b, rule.joins)
    ensures |a[i].added| >= |b[i].added|
  {
    hide *;
    var p, q, m := a[i], b[i], |a[i].added|;
    PieceNotEmpty(a, chunkSize, rule.linked, i);
    PieceHolds(a, Sized(chunkSize), rule.linked, i);
    PieceHolds(b, Sized(chunkSize), rule.linked, i);
    if m < |q.added| {
      LongerGoesOn(p, q, sentences);
      RuledJoins(b, rule.joins, i, m);
      NextOpens(sentences, a, chunkSize, rule, i);
    }
  }

  lemma LongerGoesOn(p: Piece, q: Piece, sentences: seq<string>)
    requires InPlace(sentences, p) && InPlace(sentences, q) && p.seed == q.seed && p.start == q.start
    requires |p.added| < |q.added|
    ensures p.start + |p.added| < |sentences| && Before(q, |p.added|) == p
    ensures q.added[|p.added|] == sentences[p.start + |p.added|]
  {
    var all := sentences[q.start..q.start + |q.added|];
    assert all[..|p.added|] == p.added;
  }

  lemma RuledJoins(pieces: seq<Piece>, joins: (nat, Piece, string) -> bool, i: nat, j: nat)
    requires Ruled(pieces, joins) && i < |pieces| && 1 <= j < |pieces[i].added|
    ensures joins(i, Before(pieces[i], j), pieces[i].added[j])
  {}

  lemma PieceNotEmpty(pieces: seq<Piece>, chunkSize: int, linked: (Piece, Piece) -> bool, i: nat)
    requires Chain(pieces, Sized(chunkSize), linked) && i < |pieces|
    ensures pieces[i].added != []
  {
    assert Sized(chunkSize)(pieces[i]);
  }

  lemma NextOpens(sentences: seq<string>, a: seq<Piece>, chunkSize: int, rule: Rule, i: nat)
    requires i < |a| && AddedOf(a) == sentences && Consecutive(rule.linked)
    requires Chain(a, Sized(chunkSize), rule.linked) && Ruled(a, rule.joins)
    requires a[i].start + |a[i].added| < |sentences|
    ensures i + 1 < |a| && !rule.joins(i, a[i], sentences[a[i].start + |a[i].added|])
  {
    PieceHolds(a, Sized(chunkSize), rule.linked, i);
    var k := i + 1;
    if k < |a| {
      PieceHolds(a, Sized(chunkSize), rule.linked, k);
      PieceNotEmpty(a, chunkSize, rule.linked, k);
      assert rule.linked(a[i], a[k]);
      assert a[k].added[0] == sentences[a[k].start..a[k].start + |a[k].added|][0] == sentences[a[k].start];
    }
  }

  lemma {:induction false} SamePieces(sentences: seq<string>, a: seq<Piece>, b: seq<Piece>, chunkSize: int, rule: Rule,
                                      i: nat)
    requires i < |a| && i < |b| && AddedOf(a) == AddedOf(b) == sentences
    requires Consecutive(rule.linked) && Determined(rule.linked)
    requires Chain(a, Sized(chunkSize), rule.linked) && Ruled(a, rule.joins)
    requires Chain(b, Sized(chunkSize), rule.linked) && Ruled(b, rule.joins)
    ensures a[i] == b[i]
  {
    if i > 0 {
      SamePieces(sentences, a, b, chunkSize, rule, i - 1);
      assert rule.linked(a[i - 1], a[i]) && rule.linked(b[i - 1], b[i]);
    }
    SamePiece(sentences, a, b, chunkSize, rule, i);
    SamePiece(sentences, b, a, chunkSize, rule, i);
    PieceHolds(a, Sized(chunkSize), rule.linked, i);
    PieceHolds(b, Sized(chunkSize), rule.linked, i);
  }

  lemma NoFewerPieces(sentences: seq<string>, a: seq<Piece>, b: seq<Piece>, chunkSize: int, rule: Rule)
    requires AddedOf(a) == AddedOf(b) == sentences && Consecutive(rule.linked) && Determined(rule.linked)
    requires Chain(a, Sized(chunkSize), rule.linked) && Ruled(a, rule.joins)
    requires Chain(b, Sized(chunkSize), rule.linked) && Ruled(b, rule.joins)
    ensures |a| >= |b|
  {
    var m := |a|;
    if m < |b| {
      assert Sized(chunkSize)(b[m]);
      PieceHolds(b, Sized(chunkSize), rule.linked, m);
      if m > 0 {
        SamePieces(sentences, a, b, chunkSize, rule, m - 1);
        PieceHolds(a, Sized(chunkSize), rule.linked, m - 1);
      }
    }
  }

  /** There is only one way to chunk a text by a rule. */
  lemma ChunkingIsUnique(sentences: seq<string>, a: seq<string>, b: seq<string>, chunkSize: int, rule: Rule)
    requires Consecutive(rule.linked) && Determined(rule.linked)
    requires Chunking(sentences, a, chunkSize, rule) && Chunking(sentences, b, chunkSize, rule)
    ensures a == b
  {
    var p :| BuiltFrom(sentences, a, p, chunkSize, rule);
    var q :| BuiltFrom(sentences, b, q, chunkSize, rule);
    NoFewerPieces(sentences, p, q, chunkSize, rule);
    NoFewerPieces(sentences, q, p, chunkSize, rule);
    forall i | 0 <= i < |p| ensures p[i] == q[i] {
      SamePieces(sentences, p, q, chunkSize, rule, i);
    }
  }

  // ---- Sentence chunking ---------------------------------------------------------------------------

  /** `chunk_text[-overlap:]`. */
  function LastChars(text: string, overlap: nat): (tail: string)
    ensures |tail| == (if overlap < |text| then overlap else |text|) && IsSuffix(tail, text)
  {
    if overlap >= |text| then text else text[|text| - overlap..]
  }

  function TailSeed(chunk: string, overlap: int): seq<string>
  {
    if overlap > 0 then [LastChars(chunk, overlap)] else []
  }

  /** The next chunk starts with the tail of this one, and its first sentence had no room here. */
  ghost function SentenceLink(chunkSize: int, overlap: int): (Piece, Piece) -> bool
  {
    (p: Piece, q: Piece) =>
      && q.seed == TailSeed(p.Text(), overlap) && q.start == p.start + |p.added|
      && (q.added != [] ==> |p.Text()| + 1 + |q.added[0]| > chunkSize)
  }

  /** How the running length of the sentence chunker relates to the open chunk: the space after a
      sentence is counted, the space after a seed is not. */
  function SentenceLength(open: Piece): int
  {
    if open.seed == [] && open.added == [] then 0
    else if open.seed == [] then |open.Text()| + 1 else |open.Text()|
  }

  predicate SentenceFlushes(open: Piece, sentence: string, chunkSize: int)
  {
    open.seed + open.added != [] && SentenceLength(open) + |sentence| > chunkSize
  }

  ghost function SentenceJoins(chunkSize: int): (nat, Piece, string) -> bool
  {
    (i: nat, open: Piece, sentence: string) => !SentenceFlushes(open, sentence, chunkSize)
  }

  ghost function SentenceRule(chunkSize: int, overlap: int): Rule
  {
    Rule(SentenceJoins(chunkSize), SentenceLink(chunkSize, overlap))
  }

  /** The open chunk once `sentence`, number `n`, has been dealt with. */
  function SentenceNext(open: Piece, n: nat, sentence: string, chunkSize: int, overlap: int): Piece
  {
    if SentenceFlushes(open, sentence, chunkSize) then Piece(n, TailSeed(open.Text(), overlap), [sentence])
    else Grown(open, sentence)
  }

  ghost predicate SentenceInv(sentences: seq<string>, n: nat, chunks: seq<string>, pieces: seq<Piece>, open: Piece,
                              chunkSize: int, overlap: int)
  {
    if n == 0 then chunks == [] && pieces == [] && open == Piece(0, [], [])
    else Underway(sentences, n, chunks, pieces, open, chunkSize, SentenceRule(chunkSize, overlap))
  }

  lemma SentenceStart(sentences: seq<string>, chunkSize: int, overlap: int)
    ensures SentenceInv(sentences, 0, [], [], Piece(0, [], []), chunkSize, overlap)
  {}

  lemma SentenceStep(sentences: seq<string>, n: nat, chunks: seq<string>, pieces: seq<Piece>, open: Piece,
                     chunkSize: int, overlap: int)
    requires n < |sentences| && SentenceInv(sentences, n, chunks, pieces, open, chunkSize, overlap)
    ensures var next := SentenceNext(open, n, sentences[n], chunkSize, overlap);
            if SentenceFlushes(open, sentences[n], chunkSize)
            then SentenceInv(sentences, n + 1, chunks + [open.Text()], pieces + [open], next, chunkSize, overlap)
            else SentenceInv(sentences, n + 1, chunks, pieces, next, chunkSize, overlap)
  {
    var rule := SentenceRule(chunkSize, overlap);
    var next := SentenceNext(open, n, sentences[n], chunkSize, overlap);
    if n == 0 {
      StartFirst(sentences, chunkSize, rule);
      assert next == Piece(0, [], [sentences[0]]);
    } else if SentenceFlushes(open, sentences[n], chunkSize) {
      CloseAndOpen(sentences, n, chunks, pieces, open, next, chunkSize, rule);
    } else {
      assert Follows(pieces, next, rule.linked);
      Continue(sentences, n, chunks, pieces, open, chunkSize, rule);
    }
  }

  /** The parts and the running length of the open chunk after a sentence. */
  lemma SentenceNextParts(open: Piece, n: nat, sentence: string, chunkSize: int, overlap: int)
    ensures var next := SentenceNext(open, n, sentence, chunkSize, overlap);
            var flushes := SentenceFlushes(open, sentence, chunkSize);
            var kept := if flushes then TailSeed(open.Text(), overlap) else open.seed + open.added;
            var length := if !flushes then SentenceLength(open)
                          else if overlap > 0 then |LastChars(open.Text(), overlap)| else 0;
            && next.seed + next.added == kept + [sentence]
            && SentenceLength(next) == length + |sentence| + 1
  {
    if SentenceFlushes(open, sentence, chunkSize) {
      JoinPush(TailSeed(open.Text(), overlap), sentence);
    } else {
      GrownText(open, sentence);
    }
  }

  lemma SentenceEnd(sentences: seq<string>, chunks: seq<string>, pieces: seq<Piece>, open: Piece, chunkSize: int,
                    overlap: int)
    requires SentenceInv(sentences, |sentences|, chunks, pieces, open, chunkSize, overlap)
    ensures var chunks' := if open.seed + open.added == [] then chunks else chunks + [open.Text()];
            Chunking(sentences, chunks', chunkSize, SentenceRule(chunkSize, overlap))
  {
    var rule := SentenceRule(chunkSize, overlap);
    if sentences == [] {
      assert BuiltFrom([], [], [], chunkSize, rule);
    } else {
      Close(sentences, |sentences|, chunks, pieces, open, chunkSize, rule);
      assert sentences[..|sentences|] == sentences;
    }
  }

  /** The loop of `chunk_sentence`. */
  method ChunkSentence(sentences: seq<string>, chunkSize: int, overlap: int) returns (chunks: seq<string>)
    ensures Chunking(sentences, chunks, chunkSize, SentenceRule(chunkSize, overlap))
  {
    hide SentenceInv, SentenceNext, Chunking;
    chunks := [];
    ghost var pieces: seq<Piece> := [];
    var current: seq<string>, currentLen := [], 0;
    ghost var open := Piece(0, [], []);
    SentenceStart(sentences, chunkSize, overlap);
    for n := 0 to |sentences|
      invariant SentenceInv(sentences, n, chunks, pieces, open, chunkSize, overlap)
      invariant current == open.seed + open.added && currentLen == SentenceLength(open)
    {
      var sentence := sentences[n];
      SentenceStep(sentences, n, chunks, pieces, open, chunkSize, overlap);
      SentenceNextParts(open, n, sentence, chunkSize, overlap);
      ghost var next := SentenceNext(open, n, sentence, chunkSize, overlap);
      if current != [] && currentLen + |sentence| > chunkSize {
        var text := Join(current);
        chunks, pieces := chunks + [text], pieces + [open];
        if overlap > 0 {
          var tail := LastChars(text, overlap);
          current, currentLen := [tail], |tail|;
        } else {
          current, currentLen := [], 0;
        }
      }
      current := current + [sentence];
      currentLen := currentLen + |sentence| + 1;
      open := next;
    }
    SentenceEnd(sentences, chunks, pieces, open, chunkSize, overlap);
    if current != [] {
      chunks := chunks + [Join(current)];
    }
  }

  lemma SentenceJoinsExactly(i: nat, open: Piece, sentence: string, chunkSize: int)
    requires open.added != []
    ensures SentenceJoins(chunkSize)(i, open, sentence) <==>
              |Join(open.seed + open.added)| + (if open.seed == [] then 1 else 0) + |sentence| <= chunkSize
  {
    assert (open.seed + open.added)[|open.seed|] == open.added[0];
  }

  /** The sentence chunker closes a chunk exactly where the next sentence does not fit: in a chunk without a seed
      a space after each sentence counts, in one with a seed the space after the seed does not.  The next chunk is
      seeded with the last `overlap` characters of it, or all of a shorter one. */
  lemma SentenceBreaksExactly(sentences: seq<string>, chunks: seq<string>, pieces: seq<Piece>, chunkSize: int,
                              overlap: int, i: nat, j: nat)
    requires BuiltFrom(sentences, chunks, pieces, chunkSize, SentenceRule(chunkSize, overlap)) && i < |pieces|
    ensures pieces[i].seed == [] <==> i == 0 || overlap <= 0
    ensures 1 <= j < |pieces[i].added| ==>
              |Join(pieces[i].seed + pieces[i].added[..j])| + (if pieces[i].seed == [] then 1 else 0)
                + |pieces[i].added[j]| <= chunkSize
    ensures i + 1 < |pieces| ==> pieces[i + 1].added != []
    ensures i + 1 < |pieces| ==>
              |chunks[i]| + (if pieces[i].seed == [] then 1 else 0) + |pieces[i + 1].added[0]| > chunkSize
    ensures i + 1 < |pieces| && overlap > 0 ==>
              && |pieces[i + 1].seed| == 1 && IsSuffix(pieces[i + 1].seed[0], chunks[i])
              && |pieces[i + 1].seed[0]| == if overlap < |chunks[i]| then overlap else |chunks[i]|
  {
    var p, k, linked := pieces[i], i + 1, SentenceLink(chunkSize, overlap);
    PieceNotEmpty(pieces, chunkSize, linked, i);
    if i > 0 { assert linked(pieces[i - 1], p); }
    if 1 <= j < |p.added| {
      assert SentenceJoins(chunkSize)(i, Before(p, j), p.added[j]);
      SentenceJoinsExactly(i, Before(p, j), p.added[j], chunkSize);
    }
    if k < |pieces| {
      PieceNotEmpty(pieces, chunkSize, linked, k);
      SentenceJoinsExactly(i, p, pieces[k].added[0], chunkSize);
      assert linked(p, pieces[k]);
    }
    hide Join;
  }

  /** The chunks are a function of the sentences. */
  lemma SentenceChunksUnique(sentences: seq<string>, a: seq<string>, b: seq<string>, chunkSize: int, overlap: int)
    requires Chunking(sentences, a, chunkSize, SentenceRule(chunkSize, overlap))
    requires Chunking(sentences, b, chunkSize, SentenceRule(chunkSize, overlap))
    ensures a == b
  {
    hide Chunking;
    ChunkingIsUnique(sentences, a, b, chunkSize, SentenceRule(chunkSize, overlap));
  }

  // ---- Semantic chunking -----------------------------------------------------------------------------

  /** The longest run of trailing sentences that, joined, fits in `overlap` characters; the last
      sentence alone when none does. */
  ghost predicate CarriesLongestTail(carried: seq<string>, flushed: seq<string>, overlap: int)
  {
    && |carried| <= |flushed| && carried == flushed[|flushed| - |carried|..]
    && (overlap <= 0 || flushed == [] ==> carried == [])
    && (overlap > 0 && flushed != [] ==> carried != [])
    && (|carried| >= 2 ==> |Join(carried)| <= overlap)
    && (overlap > 0 ==> forall k :: 0 <= k < |flushed| - |carried| ==> |Join(flushed[k..])| > overlap)
  }

  lemma JoinPrefixed(x: string, parts: seq<string>)
    ensures parts != [] ==> |Join([x] + parts)| == |x| + 1 + |Join(parts)|
    ensures parts == [] ==> Join([x] + parts) == x
  {
    if parts == [] { assert [x] + parts == [x]; } else { JoinConcat([x], parts); }
  }

  lemma {:induction false} LongerTailsAreLonger(flushed: seq<string>, k: nat, m: nat)
    requires k <= m < |flushed|
    ensures |Join(flushed[m..])| <= |Join(flushed[k..])|
    decreases m - k
  {
    if k < m {
      LongerTailsAreLonger(flushed, k + 1, m);
      assert flushed[k..] == [flushed[k]] + flushed[k + 1..];
      JoinPrefixed(flushed[k], flushed[k + 1..]);
    }
  }

  /** `_overlap_sentences`. */
  method OverlapSentences(flushed: seq<string>, overlap: int) returns (carried: seq<string>)
    ensures CarriesLongestTail(carried, flushed, overlap)
  {
    if overlap <= 0 || flushed == [] {
      return [];
    }
    carried := [];
    var carriedLen := 0;
    var n := |flushed|;
    while n > 0
      invariant 0 <= n <= |flushed| && carried == flushed[n..]
      invariant carriedLen == if carried == [] then 0 else |Join(carried)| + 1
      invariant |carried| >= 2 ==> |Join(carried)| <= overlap
    {
      var sentence := flushed[n - 1];
      JoinPrefixed(sentence, carried);
      assert flushed[n - 1..] == [sentence] + carried;
      if carried != [] && carriedLen + |sentence| > overlap {
        forall k | 0 <= k < n ensures |Join(flushed[k..])| > overlap {
          LongerTailsAreLonger(flushed, k, n - 1);
        }
        break;
      }
      carried := [sentence] + carried;
      carriedLen := carriedLen + |sentence| + 1;
      n := n - 1;
    }
  }

  /** The next chunk starts with the longest fitting tail of this one, which was closed for a semantic
      break or for want of room. */
  ghost function SemanticLink(dissimilar: nat -> bool, chunkSize: int, overlap: int): (Piece, Piece) -> bool
  {
    (p: Piece, q: Piece) =>
      && CarriesLongestTail(q.seed, p.seed + p.added, overlap) && q.start == p.start + |p.added|
      && (q.added != [] ==> dissimilar(q.start) || |p.Text()| + 1 + |q.added[0]| > chunkSize)
  }

  /** The first group's length leaves out the space that later groups' lengths count. */
  function SemanticLength(closed: nat, open: Piece): int
  {
    if open.seed + open.added == [] then 0 else if closed == 0 then |open.Text()| else |open.Text()| + 1
  }

  predicate SemanticFlushes(closed: nat, open: Piece, n: nat, sentence: string, dissimilar: nat -> bool, chunkSize: int)
  {
    dissimilar(n) || SemanticLength(closed, open) + |sentence| > chunkSize
  }

  ghost function SemanticJoins(dissimilar: nat -> bool, chunkSize: int): (nat, Piece, string) -> bool
  {
    (i: nat, open: Piece, sentence: string) =>
      !SemanticFlushes(i, open, open.start + |open.added|, sentence, dissimilar, chunkSize)
  }

  ghost function SemanticRule(dissimilar: nat -> bool, chunkSize: int, overlap: int): Rule
  {
    Rule(SemanticJoins(dissimilar, chunkSize), SemanticLink(dissimilar, chunkSize, overlap))
  }

  lemma SemanticStep(sentences: seq<string>, n: nat, chunks: seq<string>, pieces: seq<Piece>, open: Piece,
                     carried: seq<string>, dissimilar: nat -> bool, chunkSize: int, overlap: int)
    requires n < |sentences|
    requires Underway(sentences, n, chunks, pieces, open, chunkSize, SemanticRule(dissimilar, chunkSize, overlap))
    requires CarriesLongestTail(carried, open.seed + open.added, overlap)
    ensures var rule := SemanticRule(dissimilar, chunkSize, overlap);
            if SemanticFlushes(|pieces|, open, n, sentences[n], dissimilar, chunkSize)
            then Underway(sentences, n + 1, chunks + [open.Text()], pieces + [open],
                          Piece(n, carried, [sentences[n]]), chunkSize, rule)
            else Underway(sentences, n + 1, chunks, pieces, Grown(open, sentences[n]), chunkSize, rule)
  {
    var rule := SemanticRule(dissimilar, chunkSize, overlap);
    if SemanticFlushes(|pieces|, open, n, sentences[n], dissimilar, chunkSize) {
      CloseAndOpen(sentences, n, chunks, pieces, open, Piece(n, carried, [sentences[n]]), chunkSize, rule);
    } else {
      assert Follows(pieces, Grown(open, sentences[n]), rule.linked);
      Continue(sentences, n, chunks, pieces, open, chunkSize, rule);
    }
  }

  /** The loop of `chunk_semantic`. */
  method ChunkSemantic(sentences: seq<string>, dissimilar: nat -> bool, chunkSize: int, overlap: int)
    returns (chunks: seq<string>)
    ensures Chunking(sentences, chunks, chunkSize, SemanticRule(dissimilar, chunkSize, overlap))
  {
    hide Underway, CarriesLongestTail, BuiltFrom, SemanticLink, SemanticRule;
    chunks := [];
    ghost var pieces: seq<Piece> := [];
    if sentences == [] {
      NoChunks(SemanticRule(dissimilar, chunkSize, overlap), chunkSize);
      return;
    }
    var group := [sentences[0]];
    var groupLen := |sentences[0]|;
    ghost var open, rule := Piece(0, [], group), SemanticRule(dissimilar, chunkSize, overlap);
    assert [] + group == group;
    StartFirst(sentences, chunkSize, rule);
    for n := 1 to |sentences|
      invariant Underway(sentences, n, chunks, pieces, open, chunkSize, rule)
      invariant group == open.seed + open.added && group != [] && groupLen == SemanticLength(|pieces|, open)
    {
      var sentence := sentences[n];
      var shouldFlush := dissimilar(n) || groupLen + |sentence| > chunkSize;
      var carried := OverlapSentences(group, overlap);
      SemanticStep(sentences, n, chunks, pieces, open, carried, dissimilar, chunkSize, overlap);
      if shouldFlush && group != [] {
        chunks, pieces := chunks + [Join(group)], pieces + [open];
        group := carried;
        groupLen := LengthWithSpaces(group);
        open := Piece(n, carried, []);
        assert carried + [] == carried && [] + [sentence] == [sentence];
      }
      GrownText(open, sentence);
      group := group + [sentence];
      groupLen := groupLen + |sentence| + 1;
      open := Grown(open, sentence);
    }
    assert sentences[..|sentences|] == sentences;
    Close(sentences, |sentences|, chunks, pieces, open, chunkSize, rule);
    chunks := chunks + [Join(group)];
  }

  lemma NoChunks(rule: Rule, chunkSize: int)
    ensures BuiltFrom([], [], [], chunkSize, rule)
  {}

  lemma SemanticJoinsExactly(i: nat, open: Piece, sentence: string, dissimilar: nat -> bool, chunkSize: int)
    requires open.added != []
    ensures SemanticJoins(dissimilar, chunkSize)(i, open, sentence) <==>
              && !dissimilar(open.start + |open.added|)
              && |Join(open.seed + open.added)| + (if i == 0 then 0 else 1) + |sentence| <= chunkSize
  {
    assert (open.seed + open.added)[|open.seed|] == open.added[0];
  }

  /** The semantic chunker closes a chunk exactly before a sentence that is dissimilar to its neighbour or that
      does not fit: in the first chunk the text before it counts, in later ones a space after it too. */
  lemma SemanticBreaksExactly(sentences: seq<string>, chunks: seq<string>, pieces: seq<Piece>, dissimilar: nat -> bool,
                              chunkSize: int, overlap: int, i: nat, j: nat)
    requires BuiltFrom(sentences, chunks, pieces, chunkSize, SemanticRule(dissimilar, chunkSize, overlap))
    requires i < |pieces|
    ensures 1 <= j < |pieces[i].added| ==> !dissimilar(pieces[i].start + j)
    ensures 1 <= j < |pieces[i].added| ==>
              |Join(pieces[i].seed + pieces[i].added[..j])| + (if i == 0 then 0 else 1)
                + |pieces[i].added[j]| <= chunkSize
    ensures i + 1 < |pieces| ==> pieces[i + 1].added != []
    ensures i + 1 < |pieces| ==>
              || dissimilar(pieces[i + 1].start)
              || |chunks[i]| + (if i == 0 then 0 else 1) + |pieces[i + 1].added[0]| > chunkSize
  {
    hide Join, CarriesLongestTail, SemanticJoins;
    var p, k, linked := pieces[i], i + 1, SemanticLink(dissimilar, chunkSize, overlap);
    PieceNotEmpty(pieces, chunkSize, linked, i);
    if 1 <= j < |p.added| {
      assert SemanticJoins(dissimilar, chunkSize)(i, Before(p, j), p.added[j]);
      SemanticJoinsExactly(i, Before(p, j), p.added[j], dissimilar, chunkSize);
    }
    if k < |pieces| {
      PieceNotEmpty(pieces, chunkSize, linked, k);
      assert linked(p, pieces[k]);
      SemanticJoinsExactly(i, p, pieces[k].added[0], dissimilar, chunkSize);
    }
  }

  lemma LongestTailIsUnique(a: seq<string>, b: seq<string>, flushed: seq<string>, overlap: int)
    requires CarriesLongestTail(a, flushed, overlap) && CarriesLongestTail(b, flushed, overlap)
    ensures |a| <= |b|
  {
    var k := |flushed| - |a|;
    assert a == flushed[k..] && |Join(flushed[k..])| == |Join(a)|;
  }

  lemma SemanticSeedsDetermined(dissimilar: nat -> bool, chunkSize: int, overlap: int)
    ensures Determined(SemanticLink(dissimilar, chunkSize, overlap))
  {
    hide CarriesLongestTail;
    var linked := SemanticLink(dissimilar, chunkSize, overlap);
    forall p, q, r | linked(p, q) && linked(p, r) ensures q.seed == r.seed && q.start == r.start {
      LongestTailIsUnique(q.seed, r.seed, p.seed + p.added, overlap);
      LongestTailIsUnique(r.seed, q.seed, p.seed + p.added, overlap);
      LongestTailIsTail(q.seed, p.seed + p.added, overlap);
      LongestTailIsTail(r.seed, p.seed + p.added, overlap);
    }
  }

  lemma LongestTailIsTail(carried: seq<string>, flushed: seq<string>, overlap: int)
    requires CarriesLongestTail(carried, flushed, overlap)
    ensures |carried| <= |flushed| && carried == flushed[|flushed| - |carried|..]
  {}

  /** The chunks are a function of the sentences and of where they are dissimilar. */
  lemma SemanticChunksUnique(sentences: seq<string>, a: seq<string>, b: seq<string>, dissimilar: nat -> bool,
                             chunkSize: int, overlap: int)
    requires Chunking(sentences, a, chunkSize, SemanticRule(dissimilar, chunkSize, overlap))
    requires Chunking(sentences, b, chunkSize, SemanticRule(dissimilar, chunkSize, overlap))
    ensures a == b
  {
    hide Chunking;
    SemanticSeedsDetermined(dissimilar, chunkSize, overlap);
    ChunkingIsUnique(sentences, a, b, chunkSize, SemanticRule(dissimilar, chunkSize, overlap));
  }

  /** `sum(len(s) + 1 for s in group)`. */
  function LengthWithSpaces(group: seq<string>): (n: nat)
    ensures n == if group == [] then 0 else |Join(group)| + 1
  {
    if group == [] then 0
    else
      JoinPush(group[..|group| - 1], group[|group| - 1]);
      assert group == group[..|group| - 1] + [group[|group| - 1]];
      LengthWithSpaces(group[..|group| - 1]) + |group[|group| - 1]| + 1
  }

  /** Either chunker's seed is a suffix of the text of the chunk before it. */
  lemma SeedIsSuffix(p: Piece, q: Piece, overlap: int)
    requires p.added != []
    requires q.seed == TailSeed(p.Text(), overlap) || CarriesLongestTail(q.seed, p.seed + p.added, overlap)
    ensures IsSuffix(Join(q.seed), p.Text())
    ensures q.seed != [] <==> overlap > 0
  {
    hide Join;
    if q.seed == [] {
      EmptyJoin();
    } else if q.seed == TailSeed(p.Text(), overlap) {
      JoinPush([], q.seed[0]);
      assert [] + [q.seed[0]] == q.seed;
    } else {
      var all := p.seed + p.added;
      var cut := |all| - |q.seed|;
      assert all == all[..cut] + q.seed;
      if cut == 0 { assert all == q.seed; } else { JoinConcat(all[..cut], q.seed); }
    }
  }

  lemma EmptyJoin()
    ensures Join([]) == ""
  {}

  /** For either chunker: cutting off every seed, a suffix of the chunk before, and joining the rest
      gives back the sentences; and no chunk that grew is more than one character over. */
  lemma ChunkingLosesNothing(sentences: seq<string>, chunks: seq<string>, chunkSize: int, rule: Rule)
    returns (pieces: seq<Piece>)
    requires Chunking(sentences, chunks, chunkSize, rule)
    ensures BuiltFrom(sentences, chunks, pieces, chunkSize, rule)
    ensures Join(Cut(pieces)) == Join(sentences)
    ensures forall i :: 0 <= i < |chunks| && |pieces[i].added| >= 2 ==> |chunks[i]| <= chunkSize + 1
  {
    pieces :| BuiltFrom(sentences, chunks, pieces, chunkSize, rule);
    assert forall i :: 0 <= i < |pieces| ==> Sized(chunkSize)(pieces[i]);
    SeedsRemovedRejoin(pieces);
  }
}
