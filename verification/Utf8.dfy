/**
 Holding back what a token cut in half (utf8.go, and pieceSink in stream.go).
 Characters are those of section 4 of RFC 3629.
 */
module Utf8 {
  import opened Bytes

  // ----- utf8.go ------------------------------------------------------------------------

  /** The length of the sequence that a byte begins; 0 for a continuation byte, 1 for a byte
      that begins none. */
  function SequenceLen(c: byte): nat {
    if c <= 0x7F || 0xF8 <= c then 1
    else if c <= 0xBF then 0
    else if c <= 0xDF then 2
    else if c <= 0xEF then 3
    else 4
  }

  /** A mask of a byte's high bits selects a range. */
  lemma MasksAreRanges(bits: bv8)
    ensures bits & 0x80 == 0x00 <==> bits as int <= 0x7F
    ensures bits & 0xC0 == 0x80 <==> 0x80 <= bits as int <= 0xBF
    ensures bits & 0xE0 == 0xC0 <==> 0xC0 <= bits as int <= 0xDF
    ensures bits & 0xF0 == 0xE0 <==> 0xE0 <= bits as int <= 0xEF
    ensures bits & 0xF8 == 0xF0 <==> 0xF0 <= bits as int <= 0xF7
  {}

  /** leadByteLen. */
  method LeadByteLen(c: byte) returns (n: nat)
    ensures n == SequenceLen(c)
    ensures n == 1 <==> c <= 0x7F || 0xF8 <= c
    ensures n == 0 <==> 0x80 <= c <= 0xBF
    ensures n == 2 <==> 0xC0 <= c <= 0xDF
    ensures n == 3 <==> 0xE0 <= c <= 0xEF
    ensures n == 4 <==> 0xF0 <= c <= 0xF7
  {
    var bits := c as bv8;
    MasksAreRanges(bits);
    BitsOfByte(c);
    if bits & 0x80 == 0x00 {
      return 1;
    }
    if bits & 0xC0 == 0x80 {
      return 0;
    }
    if bits & 0xE0 == 0xC0 {
      return 2;
    }
    if bits & 0xF0 == 0xE0 {
      return 3;
    }
    if bits & 0xF8 == 0xF0 {
      return 4;
    }
    return 1;
  }

  /** What the look back from the i-th last byte answers. */
  function CompleteFrom(b: seq<byte>, i: nat): (n: nat)
    requires i > 0
    ensures n <= |b| && |b| - n < 4
    decreases 5 - i
  {
    if i > 4 || i > |b| then |b|
    else
      var n := SequenceLen(b[|b| - i]);
      if n == 0 then CompleteFrom(b, i + 1) else if n > i then |b| - i else |b|
  }

  /** The length of the longest prefix that does not end inside a sequence. */
  function Complete(b: seq<byte>): (n: nat)
    ensures n <= |b| && |b| - n <= 3
  {
    CompleteFrom(b, 1)
  }

  /** completeUTF8Prefix. */
  method CompleteUTF8Prefix(b: seq<byte>) returns (n: nat)
    ensures n == Complete(b)
  {
    var i := 1;
    while i <= 4 && i <= |b|
      invariant 1 <= i <= 5 && CompleteFrom(b, i) == Complete(b)
    {
      var len := LeadByteLen(b[|b| - i]);
      if len == 0 {
        i := i + 1;
        continue;
      }
      if len > i {
        return |b| - i;
      }
      return |b|;
    }
    return |b|;
  }

  predicate Continuation(c: byte) { SequenceLen(c) == 0 }

  /** The last bytes, fewer than i of them, are continuation bytes. */
  predicate EndsInContinuation(b: seq<byte>, i: nat) {
    forall j :: 0 <= j < |b| && |b| - i < j ==> Continuation(b[j])
  }

  /** The last k bytes are a lead byte with some of its continuation bytes but not all. */
  predicate Truncated(b: seq<byte>, k: nat) {
    0 < k <= |b| && SequenceLen(b[|b| - k]) > k && EndsInContinuation(b, k)
  }

  /** The look back passes over continuation bytes. */
  lemma {:induction false} LookBack(b: seq<byte>, i: nat)
    requires 0 < i <= 5 && i <= |b| + 1 && EndsInContinuation(b, i)
    ensures Complete(b) == CompleteFrom(b, i)
  {
    if i > 1 {
      LookBack(b, i - 1);
      assert Continuation(b[|b| - (i - 1)]);
    }
  }

  lemma {:induction false} HeldFrom(b: seq<byte>, i: nat, k: nat)
    requires 0 < i && EndsInContinuation(b, i) && 0 < k <= |b| && CompleteFrom(b, i) == |b| - k
    ensures Truncated(b, k)
    decreases 5 - i
  {
    if SequenceLen(b[|b| - i]) == 0 {
      HeldFrom(b, i + 1, k);
    }
  }

  /** What is held back is exactly a truncated sequence at the end, if there is one. */
  lemma HeldIffTruncated(b: seq<byte>, k: nat)
    requires 0 < k <= |b|
    ensures Complete(b) == |b| - k <==> Truncated(b, k)
  {
    if Complete(b) == |b| - k {
      HeldFrom(b, 1, k);
    }
    if Truncated(b, k) {
      LookBack(b, k);
    }
  }

  // ----- pieces ---------------------------------------------------------------------------

  function Concat(ps: seq<seq<byte>>): seq<byte> {
    if ps == [] then [] else Concat(ps[..|ps| - 1]) + ps[|ps| - 1]
  }

  /** What a pieceSink holds back, and what it has handed over. */
  datatype Sink = Sink(held: seq<byte>, chunks: seq<seq<byte>>)

  function Feed(s: Sink, piece: seq<byte>): Sink {
    var buf := s.held + piece;
    var n := Complete(buf);
    if n > 0 then Sink(buf[n..], s.chunks + [buf[..n]]) else Sink(buf, s.chunks)
  }

  function Flushed(s: Sink): Sink { if s.held != [] then Sink([], s.chunks + [s.held]) else s }

  /** The sink after a sequence of pieces. */
  function FeedAll(ps: seq<seq<byte>>): Sink {
    if ps == [] then Sink([], []) else Feed(FeedAll(ps[..|ps| - 1]), ps[|ps| - 1])
  }

  class PieceSink {
    var held: seq<byte>
    var chunks: seq<seq<byte>>   // what onPiece was called with

    function State(): Sink
      reads this
    {
      Sink(held, chunks)
    }

    constructor ()
      ensures State() == FeedAll([])
    {
      held := [];
      chunks := [];
    }

    method OnPiece(piece: seq<byte>)
      modifies this
      ensures State() == Feed(old(State()), piece)
    {
      held := held + piece;
      var n := CompleteUTF8Prefix(held);
      if n > 0 {
        chunks := chunks + [held[..n]];
        held := held[n..];
      }
    }

    method Flush()
      modifies this
      ensures State() == Flushed(old(State()))
    {
      if |held| > 0 {
        chunks := chunks + [held];
        held := [];
      }
    }
  }

  // ----- chunking does not matter --------------------------------------------------------------

  /** Continuation bytes after a complete end leave it complete. */
  lemma {:induction false} CompleteStays(a: seq<byte>, b: seq<byte>, j: nat)
    requires 0 < j && CompleteFrom(a, j) == |a|
    ensures CompleteFrom(a + b, |b| + j) == |a + b|
    decreases |a| + 1 - j
  {
    if j <= |a| && |b| + j <= 4 {
      assert (a + b)[|a + b| - (|b| + j)] == a[|a| - j];
      if SequenceLen(a[|a| - j]) == 0 {
        CompleteStays(a, b, j + 1);
      }
    }
  }

  /** Bytes before a lead byte, or before a complete end, do not change what is held back. */
  lemma {:induction false} CompleteFromAppend(a: seq<byte>, b: seq<byte>, i: nat)
    requires 0 < i <= |b| + 1 && EndsInContinuation(b, i)
    requires Complete(a) == |a| || (b != [] && !Continuation(b[0]))
    ensures CompleteFrom(a + b, i) == |a| + CompleteFrom(b, i)
    decreases 5 - i
  {
    if i == |b| + 1 {
      assert b != [] ==> Continuation(b[0]);
      CompleteStays(a, b, 1);
    } else if i <= 4 {
      assert (a + b)[|a + b| - i] == b[|b| - i];
      if SequenceLen(b[|b| - i]) == 0 {
        CompleteFromAppend(a, b, i + 1);
      }
    }
  }

  lemma CompleteAppend(a: seq<byte>, b: seq<byte>)
    requires Complete(a) == |a| || (b != [] && !Continuation(b[0]))
    ensures Complete(a + b) == |a| + Complete(b)
  {
    CompleteFromAppend(a, b, 1);
  }

  /** The part of a stream that is not held back, and the part that is. */
  lemma CompleteMore(stream: seq<byte>, piece: seq<byte>)
    ensures var n := Complete(stream); Complete(stream + piece) == n + Complete(stream[n..] + piece)
  {
    var n := Complete(stream);
    var done, held := stream[..n], stream[n..];
    assert stream + piece == done + (held + piece);
    if held != [] {
      HeldIffTruncated(stream, |held|);
      assert (held + piece)[0] == stream[n];
    } else {
      assert done == stream;
    }
    CompleteAppend(done, held + piece);
  }

  lemma ConcatOne(ps: seq<seq<byte>>, p: seq<byte>)
    ensures Concat(ps + [p]) == Concat(ps) + p
  {
    assert (ps + [p])[..|ps + [p]| - 1] == ps;
  }

  /** The sink of a stream: what it holds is what the whole stream holds back. */
  predicate Follows(s: Sink, stream: seq<byte>) {
    Concat(s.chunks) == stream[..Complete(stream)] && s.held == stream[Complete(stream)..]
  }

  lemma CutAcross(a: seq<byte>, b: seq<byte>, n: nat)
    requires n <= |b|
    ensures (a + b)[..|a| + n] == a + b[..n] && (a + b)[|a|..|a| + n] == b[..n] && (a + b)[|a| + n..] == b[n..]
  {}

  lemma FeedFollows(s: Sink, stream: seq<byte>, p: seq<byte>)
    requires Follows(s, stream)
    ensures Follows(Feed(s, p), stream + p)
    ensures (stream + p)[Complete(stream)..Complete(stream + p)] == (s.held + p)[..Complete(s.held + p)]
  {
    var c, n := Complete(stream), Complete(s.held + p);
    CompleteMore(stream, p);
    assert stream + p == stream[..c] + (s.held + p);
    CutAcross(stream[..c], s.held + p, n);
    ConcatOne(s.chunks, (s.held + p)[..n]);
  }

  lemma {:induction false} SinkFollows(ps: seq<seq<byte>>)
    ensures Follows(FeedAll(ps), Concat(ps))
  {
    if ps != [] {
      SinkFollows(ps[..|ps| - 1]);
      FeedFollows(FeedAll(ps[..|ps| - 1]), Concat(ps[..|ps| - 1]), ps[|ps| - 1]);
    }
  }

  lemma Rejoin(bs: seq<byte>, n: nat)
    requires n <= |bs|
    ensures bs[..n] + bs[n..] == bs && |bs[n..]| == |bs| - n
  {}

  /** However the stream is split: what was handed over, then what is held, is the input;
      what is held is what the whole stream holds back, at most three bytes. */
  lemma ChunkingDoesNotMatter(ps: seq<seq<byte>>)
    ensures Concat(FeedAll(ps).chunks) + FeedAll(ps).held == Concat(ps)
    ensures FeedAll(ps).held == Concat(ps)[Complete(Concat(ps))..]
    ensures |FeedAll(ps).held| <= 3
  {
    SinkFollows(ps);
    Rejoin(Concat(ps), Complete(Concat(ps)));
  }

  lemma {:induction false} ConcatAppend(ps: seq<seq<byte>>, qs: seq<seq<byte>>)
    ensures Concat(ps + qs) == Concat(ps) + Concat(qs)
  {
    if qs == [] {
      assert ps + qs == ps;
    } else {
      var before, last := qs[..|qs| - 1], qs[|qs| - 1];
      ConcatAppend(ps, before);
      assert ps + qs == (ps + before) + [last];
      ConcatOne(ps + before, last);
      assert Concat(ps) + Concat(before) + last == Concat(ps) + (Concat(before) + last);
    }
  }

  /** What is held is handed over once three more bytes have come. */
  lemma HeldAtMostThreeMore(ps: seq<seq<byte>>, qs: seq<seq<byte>>)
    requires |Concat(qs)| >= 3
    ensures |Concat(FeedAll(ps + qs).chunks)| >= |Concat(ps)|
    ensures Concat(ps) <= Concat(FeedAll(ps + qs).chunks)
  {
    ChunkingDoesNotMatter(ps + qs);
    ConcatAppend(ps, qs);
    var all, given := Concat(ps + qs), Concat(FeedAll(ps + qs).chunks);
    assert given == all[..|given|];
    assert all[..|Concat(ps)|] == Concat(ps);
  }

  /** After the flush everything has been handed over and nothing is held. */
  lemma FlushGivesAll(ps: seq<seq<byte>>)
    ensures Concat(Flushed(FeedAll(ps)).chunks) == Concat(ps) && Flushed(FeedAll(ps)).held == []
  {
    ChunkingDoesNotMatter(ps);
    ConcatOne(FeedAll(ps).chunks, FeedAll(ps).held);
  }

  // ----- well-formed streams ---------------------------------------------------------------------

  predicate Tail(c: byte) { 0x80 <= c <= 0xBF }

  /** One character: UTF8-1 to UTF8-4 of section 4 of RFC 3629. */
  predicate Char(bs: seq<byte>) {
    || (|bs| == 1 && bs[0] <= 0x7F)
    || (|bs| == 2 && 0xC2 <= bs[0] <= 0xDF && Tail(bs[1]))
    || (|bs| == 3 && Tail(bs[2]) &&
          ((bs[0] == 0xE0 && 0xA0 <= bs[1] <= 0xBF) || (0xE1 <= bs[0] <= 0xEC && Tail(bs[1])) ||
           (bs[0] == 0xED && 0x80 <= bs[1] <= 0x9F) || (0xEE <= bs[0] <= 0xEF && Tail(bs[1]))))
    || (|bs| == 4 && Tail(bs[2]) && Tail(bs[3]) &&
          ((bs[0] == 0xF0 && 0x90 <= bs[1] <= 0xBF) || (0xF1 <= bs[0] <= 0xF3 && Tail(bs[1])) ||
           (bs[0] == 0xF4 && 0x80 <= bs[1] <= 0x8F)))
  }

  /** A sequence of characters. */
  ghost predicate WellFormed(bs: seq<byte>)
    decreases |bs|
  {
    bs == [] || exists n :: 0 < n <= |bs| && Char(bs[..n]) && WellFormed(bs[n..])
  }

  lemma CharLead(ch: seq<byte>)
    requires Char(ch)
    ensures SequenceLen(ch[0]) == |ch| && forall i :: 0 < i < |ch| ==> Continuation(ch[i])
  {}

  /** A character is complete, and held back as long as it is not. */
  lemma CharComplete(ch: seq<byte>, m: nat)
    requires Char(ch) && m <= |ch|
    ensures Complete(ch[..m]) == if m == |ch| then m else 0
  {
    CharLead(ch);
    if m > 0 {
      LookBack(ch[..m], m);
    }
  }

  /** A character before it moves the cut along. */
  lemma CutAfterChar(ch: seq<byte>, s: seq<byte>)
    requires Char(ch)
    ensures Complete(ch + s) == |ch| + Complete(s)
  {
    CharComplete(ch, |ch|);
    assert ch[..|ch|] == ch;
    CompleteAppend(ch, s);
  }

  lemma WellFormedAppend(ch: seq<byte>, rest: seq<byte>)
    requires Char(ch) && WellFormed(rest)
    ensures WellFormed(ch + rest)
  {
    assert (ch + rest)[..|ch|] == ch && (ch + rest)[|ch|..] == rest;
  }

  lemma CutInChar(ch: seq<byte>, rest: seq<byte>, m: nat)
    requires Char(ch) && m < |ch|
    ensures Complete((ch + rest)[..m]) == 0
  {
    assert (ch + rest)[..m] == ch[..m];
    CharComplete(ch, m);
  }

  lemma CutInRest(ch: seq<byte>, rest: seq<byte>, m: nat)
    requires Char(ch) && m <= |rest| && WellFormed(rest[..Complete(rest[..m])])
    ensures WellFormed((ch + rest)[..Complete((ch + rest)[..|ch| + m])])
  {
    assert (ch + rest)[..|ch| + m] == ch + rest[..m];
    CutAfterChar(ch, rest[..m]);
    var n := Complete(rest[..m]);
    WellFormedAppend(ch, rest[..n]);
    assert (ch + rest)[..|ch| + n] == ch + rest[..n];
  }

  /** The first character of a well-formed stream, and the rest of it. */
  lemma FirstChar(w: seq<byte>) returns (ch: seq<byte>, rest: seq<byte>)
    requires WellFormed(w) && w != []
    ensures w == ch + rest && Char(ch) && WellFormed(rest)
  {
    var n :| 0 < n <= |w| && Char(w[..n]) && WellFormed(w[n..]);
    ch, rest := w[..n], w[n..];
  }

  /** Cut anywhere, a well-formed stream is held back to a character's boundary. */
  lemma {:induction false} CutAtBoundary(w: seq<byte>, m: nat)
    requires WellFormed(w) && m <= |w|
    ensures WellFormed(w[..Complete(w[..m])])
    decreases |w|
  {
    if w != [] {
      var ch, rest := FirstChar(w);
      if m < |ch| {
        CutInChar(ch, rest, m);
      } else {
        CutAtBoundary(rest, m - |ch|);
        CutInRest(ch, rest, m - |ch|);
      }
    }
  }

  lemma SameFirstChar(ch: seq<byte>, rest: seq<byte>, ch': seq<byte>, rest': seq<byte>)
    requires Char(ch) && Char(ch') && ch + rest == ch' + rest'
    ensures ch == ch' && rest == rest'
  {
    CharLead(ch);
    CharLead(ch');
    assert (ch + rest)[0] == ch[0] && (ch' + rest')[0] == ch'[0];
    assert ch == (ch + rest)[..|ch|] && rest == (ch + rest)[|ch|..];
    assert ch' == (ch' + rest')[..|ch'|] && rest' == (ch' + rest')[|ch'|..];
  }

  /** A well-formed stream that begins with a character goes on well-formed. */
  lemma StripChar(ch: seq<byte>, rest: seq<byte>)
    requires Char(ch) && WellFormed(ch + rest)
    ensures WellFormed(rest)
  {
    var ch', rest' := FirstChar(ch + rest);
    SameFirstChar(ch, rest, ch', rest');
  }

  lemma DropFirst(ch: seq<byte>, rest: seq<byte>, b: seq<byte>)
    requires Char(ch) && WellFormed(ch + rest + b)
    ensures WellFormed(rest + b)
  {
    assert ch + rest + b == ch + (rest + b);
    StripChar(ch, rest + b);
  }

  /** What a longer well-formed stream adds to a well-formed one is well-formed. */
  lemma {:induction false} Difference(a: seq<byte>, b: seq<byte>)
    requires WellFormed(a) && WellFormed(a + b)
    ensures WellFormed(b)
    decreases |a|
  {
    if a == [] {
      assert a + b == b;
    } else {
      var ch, rest := FirstChar(a);
      DropFirst(ch, rest, b);
      Difference(rest, b);
    }
  }

  lemma BetweenBoundaries(w: seq<byte>, p: nat, q: nat)
    requires p <= q <= |w| && WellFormed(w[..p]) && WellFormed(w[..q])
    ensures WellFormed(w[p..q])
  {
    assert w[..q] == w[..p] + w[p..q];
    Difference(w[..p], w[p..q]);
  }

  lemma BetweenCuts(w: seq<byte>, m: nat, m': nat)
    requires WellFormed(w) && m <= m' <= |w| && Complete(w[..m]) <= Complete(w[..m'])
    ensures WellFormed(w[Complete(w[..m])..Complete(w[..m'])])
  {
    CutAtBoundary(w, m);
    CutAtBoundary(w, m');
    BetweenBoundaries(w, Complete(w[..m]), Complete(w[..m']));
  }

  lemma SliceOfPrefix(w: seq<byte>, v: seq<byte>, m: nat, n: nat)
    requires v <= w && m <= n <= |v|
    ensures v[m..n] == w[m..n]
  {}

  lemma BetweenPrefixes(w: seq<byte>, u: seq<byte>, v: seq<byte>)
    requires WellFormed(w) && u <= v <= w && Complete(u) <= Complete(v)
    ensures WellFormed(v[Complete(u)..Complete(v)])
  {
    assert w[..|u|] == u && w[..|v|] == v;
    BetweenCuts(w, |u|, |v|);
    SliceOfPrefix(w, v, Complete(u), Complete(v));
  }

  /** What becomes complete with the next piece. */
  lemma NextChunkWellFormed(stream: seq<byte>, p: seq<byte>, w: seq<byte>)
    requires WellFormed(w) && stream + p <= w
    ensures Complete(stream) <= Complete(stream + p) <= |stream + p|
    ensures WellFormed((stream + p)[Complete(stream)..Complete(stream + p)])
  {
    CompleteMore(stream, p);
    BetweenPrefixes(w, stream, stream + p);
  }

  /** If the whole stream is well-formed, then however it is split every chunk handed over
      before the flush is well-formed. */
  lemma {:induction false} ChunksWellFormed(ps: seq<seq<byte>>, w: seq<byte>)
    requires WellFormed(w) && Concat(ps) <= w
    ensures forall c :: c in FeedAll(ps).chunks ==> WellFormed(c)
    decreases |ps|
  {
    if ps != [] {
      var s, stream, p := FeedAll(ps[..|ps| - 1]), Concat(ps[..|ps| - 1]), ps[|ps| - 1];
      ChunksWellFormed(ps[..|ps| - 1], w);
      SinkFollows(ps[..|ps| - 1]);
      FeedFollows(s, stream, p);
      NextChunkWellFormed(stream, p, w);
    }
  }

  /** A well-formed stream is complete. */
  lemma {:induction false} WellFormedComplete(w: seq<byte>)
    requires WellFormed(w)
    ensures Complete(w) == |w|
    decreases |w|
  {
    if w != [] {
      var ch, rest := FirstChar(w);
      WellFormedComplete(rest);
      CutAfterChar(ch, rest);
    }
  }

  /** And the flush hands over nothing more. */
  lemma FlushGivesNothing(ps: seq<seq<byte>>)
    requires WellFormed(Concat(ps))
    ensures FeedAll(ps).held == [] && Flushed(FeedAll(ps)) == FeedAll(ps)
  {
    SinkFollows(ps);
    WellFormedComplete(Concat(ps));
  }
}
