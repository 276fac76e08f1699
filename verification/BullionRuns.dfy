/** Whole runs of the stream client: what it emits does not depend on how the stream was cut into chunks, and
  * which streams it never answers.
  */
module BullionRuns {
  import opened BullionClients

  function Concat(parts: seq<Bytes>): Bytes {
    if parts == [] then [] else parts[0] + Concat(parts[1..])
  }

  lemma {:induction false} ConcatLast(parts: seq<Bytes>, last: Bytes)
    ensures Concat(parts + [last]) == Concat(parts) + last
    decreases |parts|
  {
    if parts == [] {
      assert [last][1..] == [];
    } else {
      assert (parts + [last])[1..] == parts[1..] + [last];
      ConcatLast(parts[1..], last);
    }
  }

  /** What the client holds and has emitted after some chunks. */
  datatype Progress = Progress(data: Bytes, emitted: seq<Bytes>)

  ghost function Receive(p: Progress, chunk: Bytes): Progress {
    var (frames, rest) := Drain(p.data + chunk);
    Progress(rest, p.emitted + frames)
  }

  ghost function ReceiveAll(chunks: seq<Bytes>): Progress {
    if chunks == [] then Progress([], [])
    else Receive(ReceiveAll(chunks[..|chunks| - 1]), chunks[|chunks| - 1])
  }

  predicate Untrimmed(b: Bytes) {
    HasWaitingPacket(b) ==> |b| <= MAX_PACKET_LENGTH
  }

  /** No chunk ever found an overlong buffer with a packet waiting. */
  ghost predicate NeverTrimmed(chunks: seq<Bytes>) {
    chunks == []
    || (NeverTrimmed(chunks[..|chunks| - 1])
        && Untrimmed(ReceiveAll(chunks[..|chunks| - 1]).data + chunks[|chunks| - 1]))
  }

  lemma {:induction false} RestHasNoFrames(b: Bytes)
    ensures Frames(Rest(b)) == [] && Rest(Rest(b)) == Rest(b)
    decreases |b|
  {
    if s, e :| FirstFrame(b, s, e) {
      FramesStep(b, s, e);
      RestHasNoFrames(b[e..]);
    }
  }

  /** Everything received is accounted for: emitted, or still to be found in the buffer. */
  ghost predicate Accounts(p: Progress, all: Bytes) {
    p.emitted + Frames(p.data) == Frames(all) && Rest(p.data) == Rest(all)
  }

  lemma MoreAccounts(p: Progress, all: Bytes, c: Bytes)
    requires Accounts(p, all)
    ensures Accounts(Progress(p.data + c, p.emitted), all + c)
  {
    FramesAppend(all, c);
    FramesAppend(p.data, c);
    Associate(p.emitted, Frames(p.data), Frames(Rest(p.data) + c));
  }

  lemma DrainAccounts(b: Bytes, emitted: seq<Bytes>, all: Bytes)
    requires Accounts(Progress(b, emitted), all)
    ensures Accounts(Progress(Rest(b), emitted + Frames(b)), all)
  {
    RestHasNoFrames(b);
    assert emitted + Frames(b) + [] == emitted + Frames(b);
  }

  lemma StepAccounts(p: Progress, all: Bytes, c: Bytes)
    requires Accounts(p, all) && Untrimmed(p.data + c)
    ensures Accounts(Receive(p, c), all + c)
  {
    MoreAccounts(p, all, c);
    if HasWaitingPacket(p.data + c) {
      DrainIsFrames(p.data + c);
      DrainAccounts(p.data + c, p.emitted, all + c);
    } else {
      assert p.emitted + [] == p.emitted;
    }
  }

  lemma LastChunk(chunks: seq<Bytes>, init: seq<Bytes>, c: Bytes)
    requires chunks == init + [c]
    ensures ReceiveAll(chunks) == Receive(ReceiveAll(init), c) && Concat(chunks) == Concat(init) + c
    ensures NeverTrimmed(chunks) ==> NeverTrimmed(init) && Untrimmed(ReceiveAll(init).data + c)
  {
    assert chunks[..|chunks| - 1] == init;
    ConcatLast(init, c);
  }

  /** While nothing was trimmed, the frames emitted and those still in the buffer are exactly the frames of the
    * whole stream, for every way of cutting it.
    */
  lemma {:induction false} NothingLost(chunks: seq<Bytes>)
    requires NeverTrimmed(chunks)
    ensures Accounts(ReceiveAll(chunks), Concat(chunks))
    decreases |chunks|
  {
    if chunks != [] {
      var init, c := chunks[..|chunks| - 1], chunks[|chunks| - 1];
      LastChunk(chunks, init, c);
      NothingLost(init);
      StepAccounts(ReceiveAll(init), Concat(init), c);
    }
  }

  lemma BothPrefixes(f: seq<Bytes>, e: seq<Bytes>, e': seq<Bytes>)
    requires e <= f && e' <= f
    ensures e <= e' || e' <= e
  {
  }

  /** Two ways of cutting one stream emit the same frames, up to how many of them. */
  lemma ChunkingDoesNotMatter(chunks: seq<Bytes>, chunks': seq<Bytes>)
    requires Concat(chunks) == Concat(chunks') && NeverTrimmed(chunks) && NeverTrimmed(chunks')
    ensures ReceiveAll(chunks).emitted <= Frames(Concat(chunks))
    ensures ReceiveAll(chunks).emitted <= ReceiveAll(chunks').emitted
         || ReceiveAll(chunks').emitted <= ReceiveAll(chunks).emitted
  {
    NothingLost(chunks);
    NothingLost(chunks');
    BothPrefixes(Frames(Concat(chunks)), ReceiveAll(chunks).emitted, ReceiveAll(chunks').emitted);
  }

  /** When a packet was waiting, no complete frame stays behind, trimmed or not. */
  lemma FullDrain(p: Progress, chunk: Bytes)
    requires HasWaitingPacket(p.data + chunk)
    ensures Frames(Receive(p, chunk).data) == []
  {
    DrainIsFull(p.data + chunk);
  }

  // ---------- streams of nothing but frames ----------

  predicate PlainFrame(f: Bytes) {
    |f| >= 4 && f[0] == '*' && EndsAt(f, |f|) && forall i | 1 <= i < |f| - 3 :: !Special(f[i])
  }

  predicate PlainFrames(fs: seq<Bytes>) {
    forall f | f in fs :: PlainFrame(f)
  }

  /** In such a stream the byte behind a terminator is the star of the next frame. */
  lemma {:induction false} StarFollowsEnd(fs: seq<Bytes>, e: int)
    requires PlainFrames(fs) && EndsAt(Concat(fs), e) && e < |Concat(fs)|
    ensures Concat(fs)[e] == '*'
    decreases |fs|
  {
    var f, rest := fs[0], Concat(fs[1..]);
    assert f in fs && Concat(fs) == f + rest;
    if e - 3 < |f| {
      assert f[e - 3] == ';' && e == |f|;
      assert fs[1] in fs && rest == fs[1] + Concat(fs[2..]) by { assert fs[1..][1..] == fs[2..]; }
    } else {
      StarFollowsEnd(fs[1..], e - |f|);
    }
  }

  /** A stream of back-to-back frames never makes the test succeed, wherever it stops. */
  lemma FramesNeverWait(fs: seq<Bytes>, n: nat)
    requires PlainFrames(fs) && n <= |Concat(fs)|
    ensures !HasWaitingPacket(Concat(fs)[..n])
  {
    var b := Concat(fs)[..n];
    WaitingMeans(b);
    if e :| e < |b| && LastEnd(b, e) {
      assert EndsAt(Concat(fs), e);
      StarFollowsEnd(fs, e);
    }
  }

  lemma PrefixNeverWaits(fs: seq<Bytes>, b: Bytes)
    requires PlainFrames(fs) && b <= Concat(fs)
    ensures !HasWaitingPacket(b)
  {
    assert b == Concat(fs)[..|b|];
    FramesNeverWait(fs, |b|);
  }

  /** So, however such a stream is cut into chunks, the client emits nothing and keeps it all. */
  lemma {:induction false} PureStreamEmitsNothing(fs: seq<Bytes>, chunks: seq<Bytes>)
    requires PlainFrames(fs) && Concat(chunks) <= Concat(fs)
    ensures ReceiveAll(chunks) == Progress(Concat(chunks), [])
    decreases |chunks|
  {
    if chunks != [] {
      var init, c := chunks[..|chunks| - 1], chunks[|chunks| - 1];
      LastChunk(chunks, init, c);
      PureStreamEmitsNothing(fs, init);
      PrefixNeverWaits(fs, Concat(chunks));
    }
  }

  // ---------- the client itself ----------

  lemma FramesFitPart(b: Bytes, k: nat, n: nat)
    requires FramesFit(b) && k <= n <= |b|
    ensures FramesFit(b[k..n])
  {
    var c := b[..n];
    assert forall i | i <= n :: EndsAt(c, i) <==> EndsAt(b, i);
    assert FramesFit(c);
    SuffixFits(c, k);
    assert c[k..] == b[k..n];
  }

  /** part is an end piece of whole. */
  predicate EndPiece(part: Bytes, whole: Bytes) {
    |part| <= |whole| && part == whole[|whole| - |part|..]
  }

  lemma {:induction false} DrainIsEndPiece(b: Bytes)
    ensures EndPiece(Drain(b).1, b)
    decreases |b|
  {
    if HasWaitingPacket(b) {
      var k := OnceIsSuffix(b);
      DrainIsEndPiece(Once(b).1);
      EndPieces(Drain(b).1, Once(b).1, b);
    }
  }

  /** The buffer is always an end piece of what has been received. */
  lemma EndPieces(a: Bytes, b: Bytes, c: Bytes)
    requires EndPiece(a, b) && EndPiece(b, c)
    ensures EndPiece(a, c)
  {
  }

  lemma EndPieceMore(part: Bytes, whole: Bytes, more: Bytes)
    requires EndPiece(part, whole)
    ensures EndPiece(part + more, whole + more)
  {
  }

  lemma ReceiveEndPiece(p: Progress, all: Bytes, c: Bytes)
    requires EndPiece(p.data, all)
    ensures EndPiece(Receive(p, c).data, all + c)
  {
    var b := p.data + c;
    EndPieceMore(p.data, all, c);
    DrainIsEndPiece(b);
    EndPieces(Drain(b).1, b, all + c);
  }

  lemma FitsNext(part: Bytes, whole: Bytes, more: Bytes)
    requires EndPiece(part, whole) && FramesFit(whole + more)
    ensures FramesFit(part) && FramesFit(whole)
  {
    FramesFitPart(whole + more, |whole| - |part|, |whole|);
    FramesFitPart(whole + more, 0, |whole|);
    assert (whole + more)[|whole| - |part|..|whole|] == part && (whole + more)[0..|whole|] == whole;
  }

  /** Feeding the real client chunk by chunk gives exactly the runs above. */
  method Feed(chunks: seq<Bytes>) returns (client: BullionClient)
    requires FramesFit(Concat(chunks))
    ensures fresh(client)
    ensures Progress(client.data, client.emitted) == ReceiveAll(chunks)
  {
    client := new BullionClient();
    ghost var all: Bytes := [];
    for i := 0 to |chunks|
      invariant fresh(client)
      invariant Progress(client.data, client.emitted) == ReceiveAll(chunks[..i])
      invariant EndPiece(client.data, all)
      invariant all + Concat(chunks[i..]) == Concat(chunks)
    {
      ghost var p, c := ReceiveAll(chunks[..i]), chunks[i];
      ConcatNext(chunks, i, all);
      EndPieceMore(p.data, all, c);
      ReceiveEndPiece(p, all, c);
      FitsNext(p.data + c, all + c, Concat(chunks[i + 1..]));
      ReceiveNext(chunks, i);
      client.ReadyRead(chunks[i]);
      all := all + c;
    }
    assert chunks[..|chunks|] == chunks;
  }

  lemma ConcatNext(chunks: seq<Bytes>, i: nat, all: Bytes)
    requires i < |chunks|
    ensures all + Concat(chunks[i..]) == (all + chunks[i]) + Concat(chunks[i + 1..])
  {
  }

  lemma ReceiveNext(chunks: seq<Bytes>, i: nat)
    requires i < |chunks|
    ensures ReceiveAll(chunks[..i + 1]) == Receive(ReceiveAll(chunks[..i]), chunks[i])
  {
    assert chunks[..i + 1][..i] == chunks[..i];
  }
}
