/** Framed messages over a byte stream: a 16-octet header with a checksum of the payload, then the
payload. The kernel may hand the stream over in pieces of any size.
 */
module Frames {
  import opened Types
  import opened Octets
  import opened Crc
  import Records

  const FRAME_MAGIC: nat := 0x4347_5301
  const FRAME_VERSION: nat := 1
  const MAX_PAYLOAD: nat := 0x10_0000

  datatype Message = Message(kind: u8, payload: Bytes)

  /** One call of the receiver: a message, a frame refused with an exception, or the end of the stream. */
  datatype Receipt = Received(message: Message) | Refused | Closed

  predicate Sendable(m: Message) {
    |m.payload| <= MAX_PAYLOAD
  }

  function Header(kind: u8, length: nat, crc: nat): (h: Bytes)
    ensures |h| == 16
  {
    ToOctets(FRAME_MAGIC, 4) + ToOctets(FRAME_VERSION, 2) + [kind, 0] + ToOctets(length, 4) + ToOctets(crc, 4)
  }

  function Frame(m: Message): Bytes {
    Header(m.kind, |m.payload|, Checksum(m.payload)) + m.payload
  }

  /** A receive on a stream: the outcome and what is left. A refused header costs only itself; a refused
  payload is skipped. */
  function Receive(s: Bytes): (r: (Receipt, Bytes))
    ensures r.0 != Closed ==> |r.1| < |s|
  {
    if |s| < 16 then (Closed, [])
    else if OfOctets(s[..4]) != FRAME_MAGIC || OfOctets(s[4..6]) != FRAME_VERSION then (Refused, s[16..])
    else
      var length := OfOctets(s[8..12]);
      if length > MAX_PAYLOAD then (Refused, s[16..])
      else if length > |s| - 16 then (Closed, [])
      else
        var payload, rest := s[16..16 + length], s[16 + length..];
        if Checksum(payload) != OfOctets(s[12..16]) then (Refused, rest)
        else (Received(Message(s[6], payload)), rest)
  }

  type Receiver = Bytes -> (Receipt, Bytes)

  /** A receiver that always uses some of its input unless it closes. */
  ghost predicate Advances(receive: Receiver) {
    forall s: Bytes :: receive(s).0 != Closed ==> |receive(s).1| < |s|
  }

  function Drain(receive: Receiver, s: Bytes): seq<Receipt>
    requires Advances(receive)
    decreases |s|
  {
    var (receipt, rest) := receive(s);
    if receipt == Closed then [] else [receipt] + Drain(receive, rest)
  }

  function TheReceiver(): (receive: Receiver)
    ensures Advances(receive)
  {
    (s: Bytes) => Receive(s)
  }

  /** Everything a session receives before its stream ends. */
  function ReceiveAll(s: Bytes): seq<Receipt> {
    Drain(TheReceiver(), s)
  }

  function Framer(): Message -> Bytes {
    (m: Message) => Frame(m)
  }

  function FramesOf(ms: seq<Message>): Bytes {
    Records.PrintEach(ms, Framer())
  }

  function ReceiptsOf(ms: seq<Message>): seq<Receipt> {
    seq(|ms|, i requires 0 <= i < |ms| => Received(ms[i]))
  }

  // ---- one frame ------------------------------------------------------------------------

  lemma HeaderParts(kind: u8, length: nat, crc: nat, tail: Bytes)
    ensures var s := Header(kind, length, crc) + tail;
            && s[..4] == ToOctets(FRAME_MAGIC, 4) && s[4..6] == ToOctets(FRAME_VERSION, 2) && s[6] == kind && s[7] == 0
            && s[8..12] == ToOctets(length, 4) && s[12..16] == ToOctets(crc, 4) && s[16..] == tail
  {
    SixParts(ToOctets(FRAME_MAGIC, 4), ToOctets(FRAME_VERSION, 2), [kind, 0], ToOctets(length, 4), ToOctets(crc, 4),
             tail);
  }

  lemma SixParts(a: Bytes, b: Bytes, c: Bytes, d: Bytes, e: Bytes, tail: Bytes)
    requires |a| == 4 && |b| == 2 && |c| == 2 && |d| == 4 && |e| == 4
    ensures var s := a + b + c + d + e + tail;
            && s[..4] == a && s[4..6] == b && s[6] == c[0] && s[7] == c[1]
            && s[8..12] == d && s[12..16] == e && s[16..] == tail
  {}

  /** A well-formed header with any checksum and payload: the payload passes exactly when the checksum is its own. */
  lemma ReceiveFramed(kind: u8, crc: u32, payload: Bytes, rest: Bytes)
    requires |payload| <= MAX_PAYLOAD
    ensures Receive(Header(kind, |payload|, crc) + payload + rest) ==
            (if crc == Checksum(payload) then (Received(Message(kind, payload)), rest) else (Refused, rest))
  {
    var h, tail := Header(kind, |payload|, crc), payload + rest;
    var s := h + tail;
    Records.Regroup(h, payload, rest);
    HeaderParts(kind, |payload|, crc, tail);
    U32RoundTrip(FRAME_MAGIC);
    U16RoundTrip(FRAME_VERSION);
    U32RoundTrip(|payload|);
    U32RoundTrip(crc);
    assert s[16..16 + |payload|] == tail[..|payload|] == payload;
    assert s[16 + |payload|..] == tail[|payload|..] == rest;
  }

  lemma ReceiveFrame(m: Message, rest: Bytes)
    requires Sendable(m)
    ensures Receive(Frame(m) + rest) == (Received(m), rest)
  {
    ReceiveFramed(m.kind, Checksum(m.payload), m.payload, rest);
  }

  // ---- whole streams --------------------------------------------------------------------

  ghost predicate Delivers(receive: Receiver, frame: Message -> Bytes, m: Message) {
    forall rest: Bytes :: receive(frame(m) + rest) == (Received(m), rest)
  }

  lemma TheReceiverDelivers(m: Message)
    requires Sendable(m)
    ensures Delivers(TheReceiver(), Framer(), m)
  {
    forall rest: Bytes ensures TheReceiver()(Framer()(m) + rest) == (Received(m), rest) {
      ReceiveFrame(m, rest);
    }
  }

  lemma {:induction false} DrainSent(receive: Receiver, frame: Message -> Bytes, ms: seq<Message>, rest: Bytes)
    requires Advances(receive) && forall i :: 0 <= i < |ms| ==> Delivers(receive, frame, ms[i])
    ensures Drain(receive, Records.PrintEach(ms, frame) + rest) == ReceiptsOf(ms) + Drain(receive, rest)
  {
    if |ms| == 0 {
      assert Records.PrintEach(ms, frame) + rest == rest;
    } else {
      var tail := Records.PrintEach(ms[1..], frame) + rest;
      Records.Regroup(frame(ms[0]), Records.PrintEach(ms[1..], frame), rest);
      assert Delivers(receive, frame, ms[0]);
      assert receive(frame(ms[0]) + tail) == (Received(ms[0]), tail);
      DrainSent(receive, frame, ms[1..], rest);
      assert ReceiptsOf(ms) == [Received(ms[0])] + ReceiptsOf(ms[1..]);
    }
  }

  /** The messages sent are the messages received, and what follows them is received as if alone. */
  lemma ReceiveSent(ms: seq<Message>, rest: Bytes)
    requires forall i :: 0 <= i < |ms| ==> Sendable(ms[i])
    ensures ReceiveAll(FramesOf(ms) + rest) == ReceiptsOf(ms) + ReceiveAll(rest)
  {
    forall i | 0 <= i < |ms| ensures Delivers(TheReceiver(), Framer(), ms[i]) { TheReceiverDelivers(ms[i]); }
    DrainSent(TheReceiver(), Framer(), ms, rest);
  }

  /** A stream that ends early, anywhere inside a frame, loses that message and nothing before it. */
  lemma Truncated(ms: seq<Message>, m: Message, n: nat)
    requires forall i :: 0 <= i < |ms| ==> Sendable(ms[i])
    requires Sendable(m) && n < |Frame(m)|
    ensures ReceiveAll(FramesOf(ms) + Frame(m)[..n]) == ReceiptsOf(ms)
  {
    var part := Frame(m)[..n];
    ReceiveSent(ms, part);
    PartIsClosed(m, n);
    assert ReceiptsOf(ms) + [] == ReceiptsOf(ms);
  }

  lemma PartIsClosed(m: Message, n: nat)
    requires Sendable(m) && n < |Frame(m)|
    ensures Receive(Frame(m)[..n]).0 == Closed
  {
    var s, part := Frame(m), Frame(m)[..n];
    if n >= 16 {
      HeaderParts(m.kind, |m.payload|, Checksum(m.payload), m.payload);
      assert part[..4] == s[..4] && part[4..6] == s[4..6] && part[8..12] == s[8..12];
      U32RoundTrip(FRAME_MAGIC);
      U16RoundTrip(FRAME_VERSION);
      U32RoundTrip(|m.payload|);
    }
  }

  /** The frame of `m` whose payload arrives as `payload`. */
  function Damaged(m: Message, payload: Bytes): Bytes {
    Header(m.kind, |m.payload|, Checksum(m.payload)) + payload
  }

  /** Damage within 32 consecutive bits of one payload is noticed and costs exactly that message: the session
  stays in step. */
  lemma DamageCostsOneMessage(before: seq<Message>, m: Message, got: Bytes, i: nat, after: seq<Message>)
    requires forall j :: 0 <= j < |before| ==> Sendable(before[j])
    requires forall j :: 0 <= j < |after| ==> Sendable(after[j])
    requires Sendable(m) && WithinBurst(m.payload, got, i) && got != m.payload
    ensures ReceiveAll(FramesOf(before) + (Damaged(m, got) + FramesOf(after))) ==
            ReceiptsOf(before) + ([Refused] + ReceiptsOf(after))
  {
    var tail := FramesOf(after);
    if Checksum(got) == Checksum(m.payload) { BurstDetected(m.payload, got, i); }
    ReceiveFramed(m.kind, Checksum(m.payload), got, tail);
    ReceiveSent(after, []);
    assert tail + [] == tail && ReceiptsOf(after) + ReceiveAll([]) == ReceiptsOf(after);
    assert ReceiveAll(Damaged(m, got) + tail) == [Refused] + ReceiptsOf(after);
    ReceiveSent(before, Damaged(m, got) + tail);
  }

  // ---- one damaged header octet -----------------------------------------------------------

  /** What a receive makes of a header and the octets after it. */
  function Judge(h: Bytes, tail: Bytes): (Receipt, Bytes)
    requires |h| == 16
  {
    var length := OfOctets(h[8..12]);
    if OfOctets(h[..4]) != FRAME_MAGIC || OfOctets(h[4..6]) != FRAME_VERSION then (Refused, tail)
    else if length > MAX_PAYLOAD then (Refused, tail)
    else if length > |tail| then (Closed, [])
    else if Checksum(tail[..length]) != OfOctets(h[12..16]) then (Refused, tail[length..])
    else (Received(Message(h[6], tail[..length])), tail[length..])
  }

  lemma ReceiveIsJudge(h: Bytes, tail: Bytes)
    requires |h| == 16
    ensures Receive(h + tail) == Judge(h, tail)
  {
    var s, length := h + tail, OfOctets(h[8..12]);
    assert s[..4] == h[..4] && s[4..6] == h[4..6] && s[8..12] == h[8..12] && s[12..16] == h[12..16] && s[16..] == tail;
    if length <= |tail| {
      assert s[16..16 + length] == tail[..length] && s[16 + length..] == tail[length..];
    }
  }

  /** The header of a message, as the receiver reads it. */
  ghost predicate HeaderOf(h: Bytes, m: Message) {
    && |h| == 16 && OfOctets(h[..4]) == FRAME_MAGIC && OfOctets(h[4..6]) == FRAME_VERSION && h[6] == m.kind
    && OfOctets(h[8..12]) == |m.payload| && OfOctets(h[12..16]) == Checksum(m.payload)
  }

  lemma HeaderReads(m: Message)
    requires Sendable(m)
    ensures HeaderOf(Header(m.kind, |m.payload|, Checksum(m.payload)), m)
  {
    var h := Header(m.kind, |m.payload|, Checksum(m.payload));
    HeaderParts(m.kind, |m.payload|, Checksum(m.payload), []);
    assert h + [] == h;
    U32RoundTrip(FRAME_MAGIC);
    U16RoundTrip(FRAME_VERSION);
    U32RoundTrip(|m.payload|);
    U32RoundTrip(Checksum(m.payload));
  }

  /** Changing one octet of a number changes the number, and no number beside it. */
  lemma OctetInSlice(h: Bytes, i: nat, v: u8, lo: nat, hi: nat)
    requires i < |h| && lo <= hi <= |h| && v != h[i]
    ensures lo <= i < hi ==> OfOctets(h[i := v][lo..hi]) != OfOctets(h[lo..hi])
    ensures !(lo <= i < hi) ==> h[i := v][lo..hi] == h[lo..hi]
  {
    var a, b := h[i := v][lo..hi], h[lo..hi];
    if lo <= i < hi {
      assert a[i - lo] == v && b[i - lo] == h[i];
      if OfOctets(a) == OfOctets(b) { OfOctetsInjective(a, b); }
    }
  }

  lemma JudgeDamaged(h: Bytes, m: Message, i: nat, v: u8, rest: Bytes)
    requires Sendable(m) && HeaderOf(h, m) && i < 16 && v != h[i]
    ensures var h', tail := h[i := v], m.payload + rest; var r := Judge(h', tail); var length := OfOctets(h'[8..12]);
            && (i < 6 ==> r == (Refused, tail))
            && (i == 6 ==> r == (Received(Message(v, m.payload)), rest))
            && (i == 7 ==> r == (Received(m), rest))
            && (8 <= i < 12 ==> length != |m.payload| && (r.0.Received? ==> HeldBy(r, m, tail, length)))
            && (8 <= i < 12 ==> (r.0.Received? <==> Passes(m, tail, length)))
            && (12 <= i ==> r == (Refused, rest))
  {
    var tail := m.payload + rest;
    OctetInSlice(h, i, v, 0, 4);
    OctetInSlice(h, i, v, 4, 6);
    OctetInSlice(h, i, v, 8, 12);
    OctetInSlice(h, i, v, 12, 16);
    assert tail[..|m.payload|] == m.payload && tail[|m.payload|..] == rest;
  }

  /** A payload of another length, cut from what follows, has the checksum of the one sent. */
  predicate Passes(m: Message, tail: Bytes, length: nat) {
    length <= MAX_PAYLOAD && length <= |tail| && Checksum(tail[..length]) == Checksum(m.payload)
  }

  predicate HeldBy(r: (Receipt, Bytes), m: Message, tail: Bytes, length: nat) {
    length <= |tail| && r == (Received(Message(m.kind, tail[..length])), tail[length..])
  }

  /** What becomes of a frame with any one header octet changed: a changed magic, version or checksum is
      refused; a changed kind is another message; the flags do not matter; a changed length is accepted
      exactly when the differently cut payload happens to have the stored checksum. */
  lemma HeaderOctetChanged(m: Message, i: nat, v: u8, rest: Bytes)
    requires Sendable(m) && i < 16 && v != (Frame(m) + rest)[i]
    ensures var s, tail := (Frame(m) + rest)[i := v], m.payload + rest;
            var r, length := Receive(s), OfOctets(s[8..12]);
            && (i < 6 ==> r == (Refused, tail))
            && (i == 6 ==> r == (Received(Message(v, m.payload)), rest))
            && (i == 7 ==> r == (Received(m), rest))
            && (8 <= i < 12 ==> length != |m.payload| && (r.0.Received? ==> HeldBy(r, m, tail, length)))
            && (8 <= i < 12 ==> (r.0.Received? <==> Passes(m, tail, length)))
            && (12 <= i ==> r == (Refused, rest))
  {
    var h, tail := Header(m.kind, |m.payload|, Checksum(m.payload)), m.payload + rest;
    Records.Regroup(h, m.payload, rest);
    Rewritten(h, tail, i, v);
    HeaderReads(m);
    JudgeDamaged(h, m, i, v, rest);
    ReceiveIsJudge(h[i := v], tail);
  }

  lemma Rewritten(h: Bytes, tail: Bytes, i: nat, v: u8)
    requires |h| == 16 && i < 16
    ensures (h + tail)[i := v] == h[i := v] + tail && (h + tail)[i] == h[i]
    ensures (h + tail)[i := v][8..12] == h[i := v][8..12]
  {}

  // ---- the socket and the endpoint --------------------------------------------------------

  function Flatten(chunks: seq<Bytes>): Bytes {
    if |chunks| == 0 then [] else chunks[0] + Flatten(chunks[1..])
  }

  /** A connected socket: the pieces the kernel will hand over, how many octets each coming send will
  take, and what has been sent. */
  class Sock {
    var arriving: seq<Bytes>
    var room: seq<nat>
    var sent: Bytes

    constructor (arriving: seq<Bytes>, room: seq<nat>)
      requires forall i :: 0 <= i < |arriving| ==> |arriving[i]| > 0
      ensures this.arriving == arriving && this.room == room && sent == []
      ensures Valid()
    {
      this.arriving := arriving;
      this.room := room;
      sent := [];
    }

    /** No piece is empty: an empty read means the peer closed. */
    predicate Valid()
      reads this
    {
      forall i :: 0 <= i < |arriving| ==> |arriving[i]| > 0
    }

    function Stream(): Bytes
      reads this
    {
      Flatten(arriving)
    }

    /** One read of at most `n` octets; nothing only at the end of the stream. */
    method ReadSome(n: nat) returns (d: Bytes)
      requires Valid() && n > 0
      modifies this`arriving
      ensures Valid() && |d| <= n && d + Stream() == old(Stream())
      ensures d == [] <==> old(arriving) == []
      ensures |d| > 0 || old(Stream()) == []
    {
      if arriving == [] { return []; }
      var first := arriving[0];
      if |first| <= n {
        d := first;
        arriving := arriving[1..];
      } else {
        d := first[..n];
        arriving := [first[n..]] + arriving[1..];
        assert first == first[..n] + first[n..];
        assert arriving[1..] == old(arriving)[1..];
        Records.Regroup(first[..n], first[n..], Flatten(arriving[1..]));
      }
    }

    /** Exactly `n` octets, or failure with the stream used up. */
    method ReceiveExactly(n: nat) returns (d: Option<Bytes>)
      requires Valid()
      modifies this`arriving
      ensures Valid()
      ensures n <= |old(Stream())| ==> d == Some(old(Stream())[..n]) && Stream() == old(Stream())[n..]
      ensures n > |old(Stream())| ==> d == None && Stream() == []
    {
      var got: Bytes := [];
      ghost var all := Stream();
      while |got| < n
        invariant Valid() && |got| <= n && got + Stream() == all
        decreases n - |got|
      {
        var more := ReadSome(n - |got|);
        if more == [] {
          assert got + [] == got;
          return None;
        }
        Records.Regroup(got, more, Stream());
        got := got + more;
      }
      assert all[..n] == got && all[n..] == Stream();
      return Some(got);
    }

    /** One write; the kernel takes some octets, or the connection is gone. */
    method WriteSome(d: Bytes) returns (n: nat)
      requires d != []
      modifies this`room, this`sent
      ensures n <= |d| && sent == old(sent) + d[..n]
      ensures n == 0 <==> old(room) == [] || old(room)[0] == 0
      ensures n > 0 ==> room == old(room)[1..]
    {
      if room == [] || room[0] == 0 { return 0; }
      n := if room[0] < |d| then room[0] else |d|;
      sent := sent + d[..n];
      room := room[1..];
    }

    /** Writes everything, or fails having written a prefix. */
    method SendAll(d: Bytes) returns (ok: bool)
      modifies this`room, this`sent
      ensures old(sent) <= sent <= old(sent) + d
      ensures ok <==> sent == old(sent) + d
    {
      var off := 0;
      assert d[..0] == [];
      while off < |d|
        invariant off <= |d| && sent == old(sent) + d[..off]
        decreases |d| - off
      {
        var n := WriteSome(d[off..]);
        assert d[..off] + d[off..][..n] == d[..off + n];
        if n == 0 { return false; }
        off := off + n;
      }
      return true;
    }
  }

  /** The framed endpoint over a socket. */
  class FramedEndpoint {
    const sock: Sock

    constructor (sock: Sock)
      ensures this.sock == sock
    {
      this.sock := sock;
    }

    /** Whatever the sizes of the pieces, a receive depends on the stream alone. */
    method Recv() returns (receipt: Receipt)
      requires sock.Valid()
      modifies sock`arriving
      ensures sock.Valid()
      ensures receipt == Receive(old(sock.Stream())).0
      ensures sock.Stream() == Receive(old(sock.Stream())).1
    {
      ghost var s := sock.Stream();
      var header := sock.ReceiveExactly(16);
      if header == None { return Closed; }
      var h := header.value;
      assert h[..4] == s[..4] && h[4..6] == s[4..6] && h[8..12] == s[8..12] && h[12..16] == s[12..16];
      if OfOctets(h[..4]) != FRAME_MAGIC { return Refused; }
      if OfOctets(h[4..6]) != FRAME_VERSION { return Refused; }
      var length := OfOctets(h[8..12]);
      if length > MAX_PAYLOAD { return Refused; }
      var payload := sock.ReceiveExactly(length);
      if payload == None { return Closed; }
      assert s[16..][..length] == s[16..16 + length] && s[16..][length..] == s[16 + length..];
      var crc := ComputeChecksum(payload.value);
      if crc != OfOctets(h[12..16]) { return Refused; }
      return Received(Message(h[6], payload.value));
    }

    /** Sends a frame; a payload over the bound is refused before anything is written. */
    method Send(m: Message) returns (r: Result<bool>)
      modifies sock`room, sock`sent
      ensures r.Err? <==> !Sendable(m)
      ensures r.Err? ==> sock.sent == old(sock.sent)
      ensures r.Ok? ==> old(sock.sent) <= sock.sent <= old(sock.sent) + Frame(m)
      ensures r.Ok? ==> (r.value <==> sock.sent == old(sock.sent) + Frame(m))
    {
      if |m.payload| > MAX_PAYLOAD { return Err(Thrown(PROTOCOL_ERROR)); }
      var crc := ComputeChecksum(m.payload);
      var header := BuildHeader(m.kind, |m.payload|, crc);
      var ok := SendBoth(header, m.payload);
      return Ok(ok);
    }

    method BuildHeader(kind: u8, length: nat, crc: nat) returns (h: Bytes)
      ensures h == Header(kind, length, crc)
    {
      var w := new Records.Writer(None);
      w.PutNumber(FRAME_MAGIC, 4);
      w.PutNumber(FRAME_VERSION, 2);
      w.buf := w.buf + [kind, 0];
      w.PutNumber(length, 4);
      w.PutNumber(crc, 4);
      return w.buf;
    }

    method SendBoth(header: Bytes, payload: Bytes) returns (ok: bool)
      modifies sock`room, sock`sent
      ensures old(sock.sent) <= sock.sent <= old(sock.sent) + (header + payload)
      ensures ok <==> sock.sent == old(sock.sent) + (header + payload)
    {
      Records.Regroup(sock.sent, header, payload);
      ok := sock.SendAll(header);
      if ok && payload != [] { ok := sock.SendAll(payload); }
    }

    method RecvStep(ghost receive: Receiver) returns (receipt: Receipt)
      requires sock.Valid() && receive == TheReceiver()
      modifies sock`arriving
      ensures sock.Valid()
      ensures (receipt, sock.Stream()) == receive(old(sock.Stream()))
    {
      receipt := Recv();
    }

    /** The receive loop of a session: a refused frame is answered and the loop goes on. */
    method ReceiveEverything() returns (receipts: seq<Receipt>)
      requires sock.Valid()
      modifies sock`arriving
      ensures receipts == ReceiveAll(old(sock.Stream()))
    {
      receipts := [];
      ghost var receive := TheReceiver();
      ghost var all := Drain(receive, sock.Stream());
      while true
        invariant sock.Valid() && receipts + Drain(receive, sock.Stream()) == all
        decreases |sock.Stream()|
      {
        var receipt := RecvStep(receive);
        if receipt == Closed { break; }
        receipts := receipts + [receipt];
      }
    }
  }

  /** Any list of messages, cut into any non-empty pieces, is received as that list. */
  method DeliverPieces(ms: seq<Message>, pieces: seq<Bytes>) returns (receipts: seq<Receipt>)
    requires forall i :: 0 <= i < |ms| ==> Sendable(ms[i])
    requires (forall i :: 0 <= i < |pieces| ==> |pieces[i]| > 0) && Flatten(pieces) == FramesOf(ms)
    ensures receipts == ReceiptsOf(ms)
  {
    ReceiveSent(ms, []);
    assert FramesOf(ms) + [] == FramesOf(ms) && ReceiptsOf(ms) + ReceiveAll([]) == ReceiptsOf(ms);
    var sock := new Sock(pieces, []);
    var endpoint := new FramedEndpoint(sock);
    receipts := endpoint.ReceiveEverything();
  }
}
