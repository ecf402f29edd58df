/** Length-prefixed framing on streams and datagrams (src/avails/wire.py:31-105). */
module Wire {
  import opened Octets

  datatype Received = Message(data: Bytes) | ConnectionError

  function Frame(data: Bytes): Bytes { Pack(4, |data|) + data }

  /** One whole frame at the head of a stream, if it is all there. */
  predicate Complete(stream: Bytes) {
    |stream| >= 4 && |stream| >= 4 + Unpack(stream[..4])
  }

  /** What `receive` makes of all the bytes a peer sends before it closes. */
  function ReadFrame(stream: Bytes): (Received, Bytes) {
    if Complete(stream)
    then var n := 4 + Unpack(stream[..4]); (Message(stream[4..n]), stream[n..])
    else (ConnectionError, [])
  }

  datatype RecvResult = Data(bytes: Bytes) | WouldBlock

  /** The reading end of a non-blocking stream socket: `pending` is what the peer
      sends before closing, `stalls` how often a read still finds nothing there. */
  class Socket {
    var pending: Bytes
    var stalls: nat

    constructor (pending: Bytes, stalls: nat)
      ensures this.pending == pending && this.stalls == stalls
    {
      this.pending, this.stalls := pending, stalls;
    }

    /** `recv(n)`: a stall, some bytes but at most n, or b"" once the peer closed. */
    method Recv(n: nat) returns (r: RecvResult)
      requires n > 0
      modifies this
      ensures r.WouldBlock? ==> pending == old(pending) && stalls < old(stalls)
      ensures r.Data? ==> stalls == old(stalls) && old(pending) == r.bytes + pending && |r.bytes| <= n
      ensures r.Data? && old(pending) != [] ==> r.bytes != []
    {
      var stall: bool := *;
      if stalls > 0 && stall {
        stalls := stalls - 1;
        return WouldBlock;
      }
      var k: nat := 0;
      if pending != [] {
        k :| 1 <= k <= n && k <= |pending|;
      }
      r := Data(pending[..k]);
      pending := pending[k..];
    }
  }

  /** The two loops of `receive`: read until `n` bytes are there. */
  method ReadExactly(sock: Socket, n: nat) returns (ok: bool, buf: Bytes)
    modifies sock
    ensures ok == (|old(sock.pending)| >= n)
    ensures ok ==> buf == old(sock.pending)[..n] && sock.pending == old(sock.pending)[n..]
    ensures !ok ==> sock.pending == []
  {
    buf := [];
    while |buf| < n
      invariant |buf| <= n && buf + sock.pending == old(sock.pending)
      decreases n - |buf|, sock.stalls
    {
      var r := sock.Recv(n - |buf|);
      if r.Data? {
        if r.bytes == [] { return false, buf; }
        buf := buf + r.bytes;
      }
    }
    ok := true;
  }

  method Receive(sock: Socket) returns (r: Received)
    modifies sock
    ensures (r, sock.pending) == ReadFrame(old(sock.pending))
  {
    var ok, length := ReadExactly(sock, 4);
    if !ok { return ConnectionError; }
    ghost var all, n := old(sock.pending), Unpack(length);
    assert |all| >= 4 + n ==> all[4..][..n] == all[4..4 + n] && all[4..][n..] == all[4 + n..];
    var ok', data := ReadExactly(sock, Unpack(length));
    if !ok' { return ConnectionError; }
    r := Message(data);
  }

  /** A sent frame is read back, and the reader stops right behind it. */
  lemma FrameRoundTrip(data: Bytes, rest: Bytes)
    requires |data| < UINT32_LIMIT
    ensures ReadFrame(Frame(data) + rest) == (Message(data), rest)
  {
    var stream := Frame(data) + rest;
    Widths();
    UnpackPack(4, |data|);
    assert stream[..4] == Pack(4, |data|);
    assert stream[4..4 + |data|] == data;
  }

  function Frames(messages: seq<Bytes>): Bytes {
    if messages == [] then [] else Frame(messages[0]) + Frames(messages[1..])
  }

  /** Successive calls of `receive` return the messages in order, whatever the
      segmentation of the stream, and consume exactly their frames. */
  method ReceiveAll(sock: Socket, ghost messages: seq<Bytes>, count: nat, ghost rest: Bytes) returns (got: seq<Received>)
    requires count == |messages| && sock.pending == Frames(messages) + rest
    requires forall m :: m in messages ==> |m| < UINT32_LIMIT
    modifies sock
    ensures sock.pending == rest && |got| == |messages|
    ensures forall i :: 0 <= i < |messages| ==> got[i] == Message(messages[i])
  {
    got := [];
    for i := 0 to count
      invariant sock.pending == Frames(messages[i..]) + rest && |got| == i
      invariant forall k :: 0 <= k < i ==> got[k] == Message(messages[k])
    {
      assert messages[i..][1..] == messages[i + 1..];
      FrameRoundTrip(messages[i], Frames(messages[i + 1..]) + rest);
      assert sock.pending == Frame(messages[i]) + (Frames(messages[i + 1..]) + rest);
      var r := Receive(sock);
      got := got + [r];
    }
  }

  const MAX_DATAGRAM_SEND_SIZE := 1024 * 63

  datatype Datagram = Payload(data: Bytes) | ValueError | StructError

  /** `send_datagram` refuses what does not fit. */
  function SendDatagram(data: Bytes): Datagram {
    if |data| > MAX_DATAGRAM_SEND_SIZE then ValueError else Payload(Frame(data))
  }

  /** `load_datagram`; Python's slice stops at the end of the payload. */
  function LoadDatagram(payload: Bytes): Datagram {
    if |payload| < 4 then StructError
    else
      var n := 4 + Unpack(payload[..4]);
      Payload(payload[4..if n < |payload| then n else |payload|])
  }

  /** Datagrams come back as sent, also with bytes behind the frame; a truncated one
      gives a prefix, which the length prefix cannot reveal. */
  lemma DatagramRoundTrip(data: Bytes, more: Bytes, cut: nat)
    requires SendDatagram(data).Payload? && cut <= |data|
    ensures LoadDatagram(SendDatagram(data).data + more) == Payload(data)
    ensures LoadDatagram(SendDatagram(data).data[..4 + cut]) == Payload(data[..cut])
  {
    Widths();
    UnpackPack(4, |data|);
    assert (Frame(data) + more)[..4] == Pack(4, |data|);
    assert (Frame(data) + more)[4..4 + |data|] == data;
    assert Frame(data)[..4 + cut][..4] == Pack(4, |data|);
    assert Frame(data)[..4 + cut][4..4 + cut] == data[..cut];
  }

  /** What goes out: the data of at most 64512 bytes behind its length in network byte order. */
  lemma DatagramFormat(data: Bytes)
    ensures |data| > 64512 ==> SendDatagram(data) == ValueError
    ensures |data| <= 64512 ==> SendDatagram(data) == Payload([0, 0, |data| / 256, |data| % 256] + data)
  {
    if |data| <= 64512 {
      LengthPrefix(|data|);
      assert |data| / 0x100_0000 == 0 && |data| / 0x1_0000 == 0;
    }
  }

  /** A frame that is cut anywhere is a connection error, a datagram without a whole length
      a struct error. */
  lemma CutFrameFails(data: Bytes, cut: nat)
    requires |data| < UINT32_LIMIT && cut < 4 + |data|
    ensures ReadFrame(Frame(data)[..cut]) == (ConnectionError, [])
    ensures cut < 4 ==> LoadDatagram(Frame(data)[..cut]) == StructError
  {
    if cut >= 4 {
      Widths();
      UnpackPack(4, |data|);
      assert Frame(data)[..cut][..4] == Pack(4, |data|);
    }
  }
}
