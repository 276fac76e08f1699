/** The receiving end of a message between two instances: a length and that many bytes, put together from however
  * the socket hands them over.
  */
module LocalPeers {

  import opened DataStreams
  import opened Numbers

  /** What happens on the socket next: some bytes come in, or it breaks. A wait that meets the break may return
    * either answer.
    */
  datatype Arrival = Data(bytes: seq<Byte>) | Break(ready: bool)

  /** The bytes that come in before the socket breaks. */
  function Coming(arrivals: seq<Arrival>): seq<Byte> {
    if |arrivals| == 0 || arrivals[0].Break? then [] else arrivals[0].bytes + Coming(arrivals[1..])
  }

  /** The socket breaks, and the wait that meets the break says that there is something to read. */
  predicate BreaksReady(arrivals: seq<Arrival>) {
    |arrivals| > 0 && if arrivals[0].Break? then arrivals[0].ready else BreaksReady(arrivals[1..])
  }

  class LocalSocket {
    var buffered: seq<Byte>
    var broken: bool
    var arrivals: seq<Arrival>
    var readFailed: bool
    var acknowledged: bool

    /** All that can still be read: a broken socket still has what it has buffered. */
    function Unread(): seq<Byte>
      reads this
    {
      buffered + if broken then [] else Coming(arrivals)
    }

    /** False is a timeout, nothing more being on its way, or a broken socket. */
    method WaitForReadyRead() returns (ready: bool)
      modifies this`buffered, this`broken, this`arrivals
      ensures old(broken) || old(arrivals) == [] ==> !ready && unchanged(this)
      ensures !old(broken) && old(arrivals) != [] ==>
                && arrivals == old(arrivals)[1..] && broken == old(arrivals)[0].Break?
                && ready == (broken ==> old(arrivals)[0].ready)
                && Unread() == old(Unread()) && (broken ==> buffered == old(buffered))
                && BreaksReady(old(arrivals)) == if broken then ready else BreaksReady(arrivals)
    {
      if broken || arrivals == [] {
        return false;
      }
      match arrivals[0] {
        case Data(bytes) => buffered, ready := buffered + bytes, true;
        case Break(answer) => broken, ready := true, answer;
      }
      if !broken {
        Joins(old(buffered), arrivals);
      }
      arrivals := arrivals[1..];
    }

    /** At most length bytes of what has come in, copied into the buffer at the given place; -1 when there are none and
      * the socket is broken.
      */
    method ReadRawData(buffer: array<Byte>, at: nat, length: nat) returns (got: int, ghost chunk: seq<Byte>)
      requires at + length <= buffer.Length
      modifies this`buffered, this`readFailed, buffer
      ensures got == -1 || 0 <= got <= length
      ensures got == -1 <==> length > 0 && old(buffered) == [] && broken
      ensures readFailed == (old(readFailed) || got == -1)
      ensures got == -1 ==> buffered == []
      ensures got >= 0 ==> got == |chunk| && buffer[..at + got] == old(buffer[..at]) + chunk
      ensures got >= 0 ==> old(Unread()) == chunk + Unread() && (got < length ==> buffered == [])
    {
      chunk := [];
      if length > 0 && buffered == [] && broken {
        readFailed := true;
        return -1, chunk;
      }
      got := if length < |buffered| then length else |buffered|;
      forall i | 0 <= i < got {
        buffer[at + i] := buffered[i];
      }
      chunk := buffered[..got];
      buffered := buffered[got..];
    }
  }

  lemma Joins(buffered: seq<Byte>, arrivals: seq<Arrival>)
    requires arrivals != [] && arrivals[0].Data?
    ensures (buffered + arrivals[0].bytes) + Coming(arrivals[1..]) == buffered + Coming(arrivals)
  {
  }

  datatype Received = Message(bytes: seq<Byte>) | Dropped

  /** Some read returns -1 once the bytes that come in have run out: the socket is broken with nothing behind the
    * length, or it breaks and the wait says that there is something to read.
    */
  predicate ReadFails(broken: bool, coming: seq<Byte>, arrivals: seq<Arrival>) {
    if broken then coming == [] else BreaksReady(arrivals)
  }

  /** What is in a buffer of the declared length when the reading ends; got is negative after a failed read. */
  predicate Fills(declared: nat, coming: seq<Byte>, fails: bool, got: int, bytes: seq<Byte>) {
    && |bytes| == declared
    && if |coming| >= declared then got >= 0 && bytes == coming[..declared]
       else if fails then got < 0
       else got >= 0 && coming <= bytes
  }

  /** What is handed over for a declared length, what comes in after it, and whether a read would then fail. */
  predicate Delivers(declared: nat, coming: seq<Byte>, fails: bool, r: Received) {
    if |coming| < declared && fails then r == Dropped
    else r.Message? && Fills(declared, coming, fails, 0, r.bytes)
  }

  /** The length is waited for as long as it takes. */
  method ReadLength(socket: LocalSocket) returns (declared: nat)
    requires |socket.Unread()| >= 4
    modifies socket`buffered, socket`broken, socket`arrivals
    ensures socket.broken == old(socket.broken)
    ensures !socket.broken ==> BreaksReady(socket.arrivals) == old(BreaksReady(socket.arrivals))
    ensures GetUint32(old(socket.Unread())) == Ok(declared, socket.Unread())
  {
    ghost var all := socket.Unread();
    while |socket.buffered| < 4
      invariant socket.broken == old(socket.broken) && socket.Unread() == all
      invariant !socket.broken ==> BreaksReady(socket.arrivals) == old(BreaksReady(socket.arrivals))
      decreases |socket.arrivals|
    {
      var _ := socket.WaitForReadyRead();
    }
    var header := socket.buffered[..4];
    socket.buffered := socket.buffered[4..];
    assert all == header + socket.Unread();
    declared := GetUint32(header).value;
  }

  /** One round: waits for more and reads it behind what the buffer holds already. */
  method ReadMore(socket: LocalSocket, uMsg: array<Byte>, at: nat, length: nat)
    returns (ready: bool, got: int, ghost chunk: seq<Byte>)
    requires socket.buffered == [] && 0 < length && at + length <= uMsg.Length
    modifies socket`buffered, socket`broken, socket`arrivals, socket`readFailed, uMsg
    ensures ready ==> |socket.arrivals| < |old(socket.arrivals)|
    ensures socket.readFailed == (old(socket.readFailed) || got == -1)
    ensures !ready ==> got == 0 && uMsg[..] == old(uMsg[..]) && old(socket.Unread()) == []
                       && (old(socket.broken) || !old(BreaksReady(socket.arrivals)))
    ensures ready ==> !old(socket.broken)
    ensures ready && got < 0 ==> got == -1 && old(socket.Unread()) == [] && old(BreaksReady(socket.arrivals))
    ensures ready && got >= 0 ==>
              && !socket.broken && BreaksReady(socket.arrivals) == old(BreaksReady(socket.arrivals))
              && got <= length && (got < length ==> socket.buffered == [])
              && uMsg[..at + got] == old(uMsg[..at]) + chunk && old(socket.Unread()) == chunk + socket.Unread()
  {
    got, chunk := 0, [];
    ready := socket.WaitForReadyRead();
    if ready {
      got, chunk := socket.ReadRawData(uMsg, at, length);
    }
  }

  /** Reads until the buffer is full, a read fails or the wait for more does. */
  method ReadMessage(socket: LocalSocket, uMsg: array<Byte>) returns (got: int)
    requires !socket.readFailed
    modifies socket`buffered, socket`broken, socket`arrivals, socket`readFailed, uMsg
    ensures Fills(uMsg.Length, old(socket.Unread()),
                  old(ReadFails(socket.broken, socket.Unread(), socket.arrivals)), got, uMsg[..])
    ensures got < 0 <==> socket.readFailed
  {
    ghost var coming, fails := socket.Unread(), ReadFails(socket.broken, socket.Unread(), socket.arrivals);
    var remaining: int, at := uMsg.Length, 0;
    ghost var copied, chunk;
    got, copied := socket.ReadRawData(uMsg, at, remaining);
    remaining, at := remaining - got, at + got;
    while remaining != 0 && got >= 0
      invariant got < 0 <==> socket.readFailed
      invariant got >= 0 ==> 0 <= at <= uMsg.Length && at + remaining == uMsg.Length && copied == uMsg[..at]
      invariant got >= 0 ==> coming == copied + socket.Unread() && (remaining > 0 ==> socket.buffered == [])
      invariant got >= 0 && remaining > 0 ==> fails == (!socket.broken && BreaksReady(socket.arrivals))
      invariant got < 0 ==> |coming| < uMsg.Length && fails
      decreases |socket.arrivals|
    {
      ghost var unread := socket.Unread();
      var ready;
      ready, got, chunk := ReadMore(socket, uMsg, at, remaining);
      if !ready {
        FillsCut(uMsg[..], at, coming, got);
        return;
      }
      remaining, at := remaining - got, at + got;
      if got >= 0 {
        Regroup(coming, copied, unread, chunk, socket.Unread());
        copied := copied + chunk;
      }
    }
    if got >= 0 {
      assert uMsg[..at] == uMsg[..];
      FillsWhole(uMsg[..], socket.Unread(), coming, fails, got);
    }
  }

  lemma Regroup(all: seq<Byte>, a: seq<Byte>, unread: seq<Byte>, b: seq<Byte>, c: seq<Byte>)
    requires all == a + unread && unread == b + c
    ensures all == (a + b) + c
  {
  }

  lemma FillsWhole(bytes: seq<Byte>, unread: seq<Byte>, coming: seq<Byte>, fails: bool, got: int)
    requires coming == bytes + unread && got >= 0
    ensures Fills(|bytes|, coming, fails, got, bytes)
  {
  }

  lemma FillsCut(bytes: seq<Byte>, at: nat, coming: seq<Byte>, got: int)
    requires at < |bytes| && coming == bytes[..at] && got >= 0
    ensures Fills(|bytes|, coming, false, got, bytes)
  {
  }

  /** The next pending connection is read, dropped exactly when a read returned -1. What is left of a message cut short
    * otherwise is whatever the buffer held, and it is acknowledged all the same.
    */
  method ReceiveConnection(socket: LocalSocket) returns (r: Received)
    requires !socket.readFailed && !socket.acknowledged && |socket.Unread()| >= 4
    requires GetUint32(socket.Unread()).value < INT_SIZE
    modifies socket
    ensures var coming := old(socket.Unread())[4..];
            Delivers(GetUint32(old(socket.Unread())).value, coming,
                     ReadFails(old(socket.broken), coming, old(socket.arrivals)), r)
    ensures r.Dropped? <==> socket.readFailed
    ensures socket.acknowledged <==> r.Message?
  {
    var declared := ReadLength(socket);
    var uMsg := new Byte[declared];
    var got := ReadMessage(socket, uMsg);
    if got < 0 {
      return Dropped;
    }
    socket.acknowledged := true;
    return Message(uMsg[..]);
  }

  // ---------- from one peer to the other ----------

  function Sent(message: seq<Byte>): seq<Byte>
    requires |message| < INT_SIZE
  {
    PutUint32(|message|) + message
  }

  /** However the sent bytes are split on the way, whatever comes after them and whether the socket then breaks, the
    * message handed over is the one that was sent.
    */
  lemma SentIsReceived(message: seq<Byte>, all: seq<Byte>, more: seq<Byte>, fails: bool, r: Received)
    requires |message| < INT_SIZE && all == Sent(message) + more
    requires Delivers(GetUint32(all).value, all[4..], fails, r)
    ensures r == Message(message)
  {
    Uint32RoundTrip(|message|, message + more);
    assert all == PutUint32(|message|) + (message + more);
    assert (message + more)[..|message|] == message;
  }

  /** Cut short after the length, the message is dropped exactly when the next read fails; after a timeout, or a break
    * that the wait reports, its beginning is handed over at full length.
    */
  lemma CutShort(message: seq<Byte>, m: nat, broken: bool, arrivals: seq<Arrival>, r: Received)
    requires m < |message| < INT_SIZE
    requires var all := Sent(message)[..4 + m];
             Delivers(GetUint32(all).value, all[4..], ReadFails(broken, all[4..], arrivals), r)
    ensures r.Dropped? <==> if broken then m == 0 else BreaksReady(arrivals)
    ensures r.Message? ==> |r.bytes| == |message| && r.bytes[..m] == message[..m]
  {
    Uint32RoundTrip(|message|, message[..m]);
    assert Sent(message)[..4 + m] == PutUint32(|message|) + message[..m];
  }
}
