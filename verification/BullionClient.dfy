/** Cutting '*'...";\n\r" frames out of a byte stream that arrives in arbitrary chunks. Bytes are modelled as
  * characters, since the code only compares them.
  */
module BullionClients {

  type Bytes = seq<char>

  const MAX_PACKET_LENGTH := 1000000
  const PACK_LEN := 1000

  // ---------- what a frame is ----------

  /** A terminator ";\n\r" ends just before position e. */
  predicate EndsAt(b: Bytes, e: int) {
    3 <= e <= |b| && b[e - 3] == ';' && b[e - 2] == '\n' && b[e - 1] == '\r'
  }

  /** b[s..e] is the first frame of b: s is the first star, e the first end after it. */
  predicate FirstFrame(b: Bytes, s: int, e: int) {
    && 0 <= s < e - 3 && EndsAt(b, e) && b[s] == '*'
    && (forall i | 0 <= i < s :: b[i] != '*')
    && (forall i | s < i < e :: !EndsAt(b, i))
  }

  ghost predicate HasFrame(b: Bytes) {
    exists s, e :: FirstFrame(b, s, e)
  }

  lemma FirstFrameUnique(b: Bytes, s: int, e: int, s': int, e': int)
    requires FirstFrame(b, s, e) && FirstFrame(b, s', e')
    ensures s == s' && e == e'
  {
  }

  ghost function First(b: Bytes): (r: (int, int))
    requires HasFrame(b)
    ensures FirstFrame(b, r.0, r.1)
  {
    var s, e :| FirstFrame(b, s, e);
    (s, e)
  }

  /** All frames of b, cut greedily from the left. */
  ghost function Frames(b: Bytes): seq<Bytes>
    decreases |b|
  {
    if !HasFrame(b) then []
    else
      var (s, e) := First(b);
      [b[s..e]] + Frames(b[e..])
  }

  /** Bytes before the first star are dropped; a star within a frame belongs to it. */
  lemma StarWithin()
    ensures Frames("x*y*;\n\rz") == ["*y*;\n\r"]
  {
    var b: Bytes := "x*y*;\n\rz";
    assert FirstFrame(b, 1, 7);
    FramesStep(b, 1, 7);
    assert b[1..7] == "*y*;\n\r" && b[7..] == "z";
    assert !HasFrame(b[7..]);
  }

  /** What follows the last frame of b. */
  ghost function Rest(b: Bytes): Bytes
    decreases |b|
  {
    if !HasFrame(b) then b
    else
      var (s, e) := First(b);
      Rest(b[e..])
  }

  lemma FramesStep(b: Bytes, s: int, e: int)
    requires FirstFrame(b, s, e)
    ensures Frames(b) == [b[s..e]] + Frames(b[e..]) && Rest(b) == Rest(b[e..])
  {
    var (s', e') := First(b);
    FirstFrameUnique(b, s, e, s', e');
  }

  /** More bytes behind a frame do not change it. */
  lemma FrameStays(b: Bytes, more: Bytes, s: int, e: int)
    requires FirstFrame(b, s, e)
    ensures FirstFrame(b + more, s, e) && (b + more)[s..e] == b[s..e] && (b + more)[e..] == b[e..] + more
  {
    assert forall i | 0 <= i < |b| :: (b + more)[i] == b[i];
    assert forall i | i <= |b| :: EndsAt(b + more, i) <==> EndsAt(b, i);
  }

  lemma AppendStep(b: Bytes, more: Bytes, s: int, e: int)
    requires FirstFrame(b, s, e)
    ensures Frames(b) == [b[s..e]] + Frames(b[e..]) && Frames(b + more) == [b[s..e]] + Frames(b[e..] + more)
    ensures Rest(b) == Rest(b[e..]) && Rest(b + more) == Rest(b[e..] + more)
  {
    FramesStep(b, s, e);
    FrameStays(b, more, s, e);
    FramesStep(b + more, s, e);
  }

  lemma Associate(a: seq<Bytes>, b: seq<Bytes>, c: seq<Bytes>)
    ensures (a + b) + c == a + (b + c)
  {
  }

  /** The frames of a stream are those already complete, then those of what is left and what follows. */
  lemma {:induction false} FramesAppend(b: Bytes, more: Bytes)
    ensures Frames(b + more) == Frames(b) + Frames(Rest(b) + more)
    ensures Rest(b + more) == Rest(Rest(b) + more)
    decreases |b|
  {
    if HasFrame(b) {
      var (s, e) := First(b);
      AppendStep(b, more, s, e);
      FramesAppend(b[e..], more);
      Associate([b[s..e]], Frames(b[e..]), Frames(Rest(b) + more));
    }
  }

  // ---------- the code's test ----------

  function LastIndexOf(b: Bytes, c: char): (i: int)
    ensures -1 <= i < |b|
    ensures i >= 0 ==> b[i] == c
    ensures forall j | i < j < |b| :: b[j] != c
  {
    if b == [] then -1 else if b[|b| - 1] == c then |b| - 1 else LastIndexOf(b[..|b| - 1], c)
  }

  predicate HasWaitingPacket(b: Bytes) {
    var prefix := LastIndexOf(b, '*');
    var suffix := LastIndexOf(b, ';');
    var suffix1 := LastIndexOf(b, '\n');
    var suffix2 := LastIndexOf(b, '\r');
    && prefix >= 0 && suffix > 0
    && suffix > prefix
    && |b| > suffix + 3
    && suffix1 == suffix + 1
    && suffix2 == suffix1 + 1
  }

  predicate Special(c: char) {
    c == '*' || c == ';' || c == '\n' || c == '\r'
  }

  /** b ends in a terminator before e and then only plain bytes, and has a star before. */
  predicate LastEnd(b: Bytes, e: int) {
    EndsAt(b, e) && (forall i | e <= i < |b| :: !Special(b[i])) && (exists i | 0 <= i < e :: b[i] == '*')
  }

  /** The test asks for more than a complete frame: at least one byte must follow the last terminator, and
    * none that could belong to the next frame's ends.
    */
  lemma WaitingMeans(b: Bytes)
    ensures HasWaitingPacket(b) <==> exists e :: e < |b| && LastEnd(b, e)
  {
    if HasWaitingPacket(b) {
      var e := LastIndexOf(b, ';') + 3;
      assert LastEnd(b, e);
    }
    if e :| e < |b| && LastEnd(b, e) {
      assert LastIndexOf(b, ';') == e - 3;
    }
  }

  /** A star with a terminator somewhere behind it makes a frame. */
  lemma FrameExists(b: Bytes, i: nat, e: int) returns (s: int, e': int)
    requires i < |b| && b[i] == '*' && i < e && EndsAt(b, e)
    ensures FirstFrame(b, s, e') && s <= i && e' <= e
  {
    s := 0;
    while b[s] != '*'
      decreases i - s
      invariant 0 <= s <= i && forall k | 0 <= k < s :: b[k] != '*'
    {
      s := s + 1;
    }
    e' := s + 1;
    while !EndsAt(b, e')
      decreases e - e'
      invariant s < e' <= e && forall k | s < k < e' :: !EndsAt(b, k)
    {
      e' := e' + 1;
    }
  }

  /** Cutting the front off a buffer with a waiting packet leaves either a waiting packet or no star at all. */
  lemma SuffixWaits(b: Bytes, k: nat)
    requires HasWaitingPacket(b) && k <= |b|
    ensures HasWaitingPacket(b[k..]) || forall i | k <= i < |b| :: b[i] != '*'
  {
  }

  lemma WaitingHasFrame(b: Bytes)
    requires HasWaitingPacket(b)
    ensures HasFrame(b)
  {
    WaitingMeans(b);
    var e :| e < |b| && LastEnd(b, e);
    var i :| 0 <= i < e && b[i] == '*';
    var s, e' := FrameExists(b, i, e);
  }

  /** What an overlong buffer is cut to: its bytes beyond the first MAX_PACKET_LENGTH. */
  function Trim(b: Bytes): Bytes {
    if |b| > MAX_PACKET_LENGTH then b[MAX_PACKET_LENGTH..] else b
  }

  /** The code announces that the oldest bytes of an overlong buffer go. The newest MAX_PACKET_LENGTH stay exactly
    * when it is twice as long as allowed.
    */
  lemma TrimKeepsNewest(b: Bytes)
    requires |b| > MAX_PACKET_LENGTH
    ensures Trim(b) == b[|b| - MAX_PACKET_LENGTH..] <==> |b| == 2 * MAX_PACKET_LENGTH
  {
    assert |Trim(b)| == |b| - MAX_PACKET_LENGTH && |b[|b| - MAX_PACKET_LENGTH..]| == MAX_PACKET_LENGTH;
  }

  /** Every star's frame fits the scratch buffer. */
  ghost predicate FramesFit(b: Bytes) {
    forall s, e | 0 <= s < e - 3 && EndsAt(b, e) && b[s] == '*' && (forall i | s < i < e :: !EndsAt(b, i)) ::
      e - s <= PACK_LEN
  }

  lemma SuffixFits(b: Bytes, k: nat)
    requires FramesFit(b) && k <= |b|
    ensures FramesFit(b[k..])
  {
    var c := b[k..];
    forall s, e | 0 <= s < e - 3 && EndsAt(c, e) && c[s] == '*' && (forall i | s < i < e :: !EndsAt(c, i))
      ensures e - s <= PACK_LEN
    {
      forall i | s + k < i < e + k
        ensures !EndsAt(b, i)
      {
        if i - 3 >= s + k { assert !EndsAt(c, i - k); }
      }
      assert EndsAt(b, e + k) && b[s + k] == '*';
    }
  }

  lemma NothingFound(b: Bytes, s: int)
    requires 0 <= s <= |b| && (forall k | 0 <= k < s :: b[k] != '*')
    requires s == |b| || (b[s] == '*' && forall k | s < k <= |b| :: !EndsAt(b, k))
    ensures !HasFrame(b)
  {
  }

  lemma NoStarNoFrame(b: Bytes)
    requires forall i | 0 <= i < |b| :: b[i] != '*'
    ensures !HasFrame(b) && !HasWaitingPacket(b)
  {
  }

  /** What is left of a waiting buffer, a suffix of it, either waits still or has no star at all. */
  lemma Remainder(b: Bytes, k: nat, c: Bytes)
    requires HasWaitingPacket(b) && k <= |b| && c == b[k..]
    ensures HasWaitingPacket(c) || forall i | 0 <= i < |c| :: c[i] != '*'
    ensures HasFrame(c) <==> HasWaitingPacket(c)
  {
    SuffixWaits(b, k);
    if HasWaitingPacket(c) {
      WaitingHasFrame(c);
    } else {
      NoStarNoFrame(c);
    }
  }

  lemma TrimIsSuffix(b: Bytes) returns (k: nat)
    ensures k <= |b| && Trim(b) == b[k..] && k == if |b| <= MAX_PACKET_LENGTH then 0 else MAX_PACKET_LENGTH
  {
    k := if |b| > MAX_PACKET_LENGTH then MAX_PACKET_LENGTH else 0;
  }

  /** The frames of b that one round emits, one or none, and what it leaves of b. */
  ghost function Once(b: Bytes): (r: (seq<Bytes>, Bytes))
    requires HasWaitingPacket(b)
    ensures |r.1| < |b|
  {
    var t := Trim(b);
    if HasFrame(t) then
      var (s, e) := First(t);
      ([t[s..e]], t[e..])
    else
      WaitingHasFrame(b);
      ([], t)
  }

  /** The frames that all rounds emit, and what they leave. */
  ghost function Drain(b: Bytes): (seq<Bytes>, Bytes)
    decreases |b|
  {
    if !HasWaitingPacket(b) then ([], b)
    else
      var (frames, c) := Once(b);
      var (more, rest) := Drain(c);
      (frames + more, rest)
  }

  lemma OnceIsSuffix(b: Bytes) returns (k: nat)
    requires HasWaitingPacket(b)
    ensures k <= |b| && Once(b).1 == b[k..]
  {
    k := TrimIsSuffix(b);
    if HasFrame(Trim(b)) {
      var (s, e) := First(Trim(b));
      assert Trim(b)[e..] == b[k + e..];
      k := k + e;
    }
  }

  /** However often the buffer is trimmed, no complete frame stays behind. */
  lemma {:induction false} DrainIsFull(b: Bytes)
    requires HasWaitingPacket(b)
    ensures !HasFrame(Drain(b).1)
    decreases |b|
  {
    var k := OnceIsSuffix(b);
    var c := Once(b).1;
    Remainder(b, k, c);
    if HasWaitingPacket(c) { DrainIsFull(c); }
  }

  lemma DrainNothing(c: Bytes)
    requires !HasWaitingPacket(c) && !HasFrame(c)
    ensures Drain(c) == (Frames(c), Rest(c))
  {
  }

  lemma DrainOnce(b: Bytes, frames: seq<Bytes>, c: Bytes)
    requires HasWaitingPacket(b) && Once(b) == (frames, c) && Drain(c) == (Frames(c), Rest(c))
    ensures Drain(b) == (frames + Frames(c), Rest(c))
  {
  }

  lemma OnceIsFirst(b: Bytes, frames: seq<Bytes>, c: Bytes)
    requires HasWaitingPacket(b) && Once(b) == (frames, c)
    ensures frames + Frames(c) == Frames(Trim(b)) && Rest(c) == Rest(Trim(b))
  {
    if HasFrame(Trim(b)) {
      FramesStep(Trim(b), First(Trim(b)).0, First(Trim(b)).1);
    }
  }

  /** Up to twice the allowed length, the buffer is trimmed at most once and then every frame in it is emitted. */
  lemma {:induction false} DrainIsFrames(b: Bytes)
    requires HasWaitingPacket(b) && |b| <= 2 * MAX_PACKET_LENGTH
    ensures Drain(b) == (Frames(Trim(b)), Rest(Trim(b)))
    decreases |b|
  {
    var (frames, c) := Once(b);
    var k := OnceIsSuffix(b);
    Remainder(b, k, c);
    if HasWaitingPacket(c) {
      assert Trim(c) == c;
      DrainIsFrames(c);
    } else {
      DrainNothing(c);
    }
    DrainOnce(b, frames, c);
    OnceIsFirst(b, frames, c);
  }

  /** Plain bytes, one frame and one byte more: a byte longer than allowed. */
  const OVERLONG := seq(MAX_PACKET_LENGTH - 4, _ => ' ') + "*;\n\rx"

  /** One byte too many, and a complete frame at the end of the buffer is dropped unseen. */
  lemma OverflowLosesFrame()
    ensures |OVERLONG| == MAX_PACKET_LENGTH + 1 && HasWaitingPacket(OVERLONG) && HasFrame(OVERLONG)
    ensures Drain(OVERLONG) == ([], "x")
  {
    var b, c: Bytes, none: seq<Bytes> := OVERLONG, "x", [];
    assert b[MAX_PACKET_LENGTH - 4] == '*' && LastEnd(b, MAX_PACKET_LENGTH);
    WaitingMeans(b);
    WaitingHasFrame(b);
    assert Trim(b) == c;
    NoStarNoFrame(c);
    assert Drain(b) == (none + Drain(c).0, Drain(c).1);
    assert none + none == none;
  }

  predicate NoStarBefore(b: Bytes, s: int) {
    forall k | 0 <= k < s && k < |b| :: b[k] != '*'
  }

  /** From the star at s no frame has ended up to i. */
  predicate Scanning(b: Bytes, s: int, i: int) {
    0 <= s <= i <= |b| && s < |b| && b[s] == '*' && forall k | s < k <= i :: !EndsAt(b, k)
  }

  /** While scanning behind the first star, the frame's end is still ahead and within reach. */
  lemma FrameFits(b: Bytes, s: int, i: int)
    requires FramesFit(b) && HasFrame(b) && i < |b|
    requires Scanning(b, s, i) && NoStarBefore(b, s)
    ensures i - s < PACK_LEN
  {
  }

  /** One more byte: the frame ends there, or the scan goes on. */
  lemma ScanNext(b: Bytes, s: int, i: int)
    requires i < |b| && Scanning(b, s, i) && NoStarBefore(b, s)
    ensures if i > 1 && b[i - 2] == ';' && b[i - 1] == '\n' && b[i] == '\r' then FirstFrame(b, s, i + 1)
            else Scanning(b, s, i + 1)
  {
  }

  // ---------- the client ----------

  class BullionClient {
    var data: Bytes
    var emitted: seq<Bytes>

    constructor ()
      ensures data == [] && emitted == []
    {
      data, emitted := [], [];
    }

    /** The scan for one frame: emits it and cuts the buffer behind it; does nothing without one. */
    method TakeFrame()
      requires FramesFit(data)
      requires HasFrame(data) || forall i | 0 <= i < |data| :: data[i] != '*'
      modifies this
      ensures !HasFrame(old(data)) ==> data == old(data) && emitted == old(emitted)
      ensures HasFrame(old(data)) ==>
                exists s, e :: FirstFrame(old(data), s, e)
                            && data == old(data)[e..] && emitted == old(emitted) + [old(data)[s..e]]
    {
      var minBuf := new char[PACK_LEN];
      var j := 0;
      var startWrite := false;
      var len := |data|;
      ghost var b, s := data, 0;
      for i := 0 to len
        invariant data == b && emitted == old(emitted) && fresh(minBuf)
        invariant !startWrite ==> s == i
        invariant startWrite ==> s + j == i && 0 < j <= PACK_LEN && Scanning(b, s, i) && minBuf[..j] == b[s..i]
        invariant NoStarBefore(b, s)
      {
        if !startWrite && data[i] == '*' {
          startWrite := true;
          j := 0;
        }
        if startWrite {
          ScanNext(b, s, i);
          FrameFits(b, s, i);
          minBuf[j] := data[i];
          j := j + 1;
          assert minBuf[..j] == b[s..i + 1];
        } else {
          s := i + 1;
        }
        if startWrite && i > 1 && data[i - 2] == ';' && data[i - 1] == '\n' && data[i] == '\r' {
          emitted := emitted + [minBuf[..j]];
          data := if i + 1 < len then data[i + 1..] else [];
          assert FirstFrame(b, s, i + 1);
          assert data == b[i + 1..];
          return;
        }
      }
      NothingFound(b, s);
    }

    /** One round of the loop: trim, then take a frame. */
    method Round()
      requires HasWaitingPacket(data) && FramesFit(data)
      modifies this
      ensures |data| < |old(data)| && FramesFit(data)
      ensures emitted == old(emitted) + Once(old(data)).0 && data == Once(old(data)).1
    {
      ghost var k := OnceIsSuffix(data);
      SuffixFits(data, k);
      k := TrimIsSuffix(data);
      Remainder(data, k, Trim(data));
      SuffixFits(data, k);
      if |data| > MAX_PACKET_LENGTH {
        data := data[|data| - (|data| - MAX_PACKET_LENGTH)..];
      }
      ghost var trimmed := data;
      TakeFrame();
      if HasFrame(trimmed) {
        ghost var s, e :|
          FirstFrame(trimmed, s, e) && data == trimmed[e..] && emitted == old(emitted) + [trimmed[s..e]];
        FirstFrameUnique(trimmed, s, e, First(trimmed).0, First(trimmed).1);
      }
    }

    /** New bytes arrive. Nothing happens until a packet is waiting; then frames are emitted, and an overlong buffer is
      * cut, until none is.
      */
    method ReadyRead(chunk: Bytes)
      requires FramesFit(data + chunk)
      modifies this
      ensures var (frames, rest) := Drain(old(data) + chunk); emitted == old(emitted) + frames && data == rest
    {
      data := data + chunk;
      ghost var b := data;
      while HasWaitingPacket(data)
        invariant FramesFit(data)
        invariant emitted + Drain(data).0 == old(emitted) + Drain(b).0 && Drain(data).1 == Drain(b).1
        decreases |data|
      {
        ghost var before, frames := emitted, Once(data).0;
        Associate(before, frames, Drain(Once(data).1).0);
        Round();
      }
    }
  }
}
