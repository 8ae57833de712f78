/** NetQuake datagrams: framing, reliable packets, control packets. */
module QuakeWire {
  import opened FleetState
  import opened Octets

  const U32 := 0x1_0000_0000
  type Word32 = n: int | 0 <= n < U32

  const LENGTHS := 0x1_0000

  const CONTROL := 0x8000_0000
  const DATA := 0x0001_0000
  const ACK := 0x0002_0000
  const NAK := 0x0004_0000
  const EOM := 0x0008_0000
  const UNRELIABLE := 0x0010_0000

  // -- Words --------------------------------------------------------------------------------------

  function BigEndian(n: int): (p: Packet)
    requires 0 <= n < U32
    ensures |p| == 4
  {
    [n / 256 / 256 / 256, n / 256 / 256 % 256, n / 256 % 256, n % 256]
  }

  function Word(p: Packet): (n: int)
    requires |p| >= 4
    ensures 0 <= n < U32
  {
    (p[0] as int) * 0x100_0000 + (p[1] as int) * 0x1_0000 + (p[2] as int) * 0x100 + p[3]
  }

  lemma WordInverts(n: int, rest: Packet)
    requires 0 <= n < U32
    ensures Word(BigEndian(n) + rest) == n
  {
    var a := n / 256;
    var b := a / 256;
    assert n == 256 * a + n % 256 && a == 256 * b + a % 256 && b == 256 * (b / 256) + b % 256;
    assert (BigEndian(n) + rest)[..4] == BigEndian(n);
  }

  lemma BigEndianInverts(p: Packet)
    requires |p| == 4
    ensures BigEndian(Word(p)) == p
  {
    var n := Word(p);
    var b := (p[0] as int) * 256 + p[1];
    var a := b * 256 + p[2];
    assert n == a * 256 + p[3] && n % 256 == p[3] && n / 256 == a;
    assert a % 256 == p[2] && a / 256 == b;
  }

  // -- Frames -------------------------------------------------------------------------------------

  datatype Header = Header(flags: int, sequence: int)

  /** Whether a flag, a power of two, is set. */
  predicate Has(flags: int, flag: int)
    requires flag > 0
  {
    flags / flag % 2 == 1
  }

  /** Flags and sequence of a datagram whose length field matches; control packets are no frames. */
  function Frame(p: Packet): (h: Option<Header>)
    ensures h.Some? ==> |p| >= 8 && 0 <= h.value.sequence < U32
  {
    if |p| < 8 then None
    else
      var word := Word(p);
      if word >= CONTROL || word % LENGTHS != |p| then None
      else Some(Header(word - word % LENGTHS, Word(p[4..])))
  }

  /** Sets the DATA and EOM bits of the flag half of a header word. */
  function WithDataBits(half: int): int {
    half + (if half % 2 == 0 then 1 else 0) + (if half / 8 % 2 == 0 then 8 else 0)
  }

  /** Flags and length share one word without overlap only below 64 KiB; a longer length spills into the flags. */
  function DataHeader(length: nat): (n: int)
    ensures 0 <= n < U32
    ensures length < LENGTHS ==> n == DATA + EOM + length
  {
    length % LENGTHS + LENGTHS * WithDataBits(length / LENGTHS % LENGTHS)
  }

  function DataPacket(sequence: int, payload: Packet): (p: Packet)
    requires 0 <= sequence < U32
  {
    BigEndian(DataHeader(8 + |payload|)) + BigEndian(sequence) + payload
  }

  /** Framing inverts packet building exactly for packets that fit the 16-bit length field. */
  lemma FrameInvertsData(sequence: int, payload: Packet)
    requires 0 <= sequence < U32
    ensures Frame(DataPacket(sequence, payload)).Some? <==> 8 + |payload| < LENGTHS
    ensures 8 + |payload| < LENGTHS ==>
              Frame(DataPacket(sequence, payload)).value == Header(DATA + EOM, sequence)
              && DataPacket(sequence, payload)[8..] == payload
  {
    var p := DataPacket(sequence, payload);
    WordInverts(DataHeader(8 + |payload|), BigEndian(sequence) + payload);
    assert p == BigEndian(DataHeader(8 + |payload|)) + (BigEndian(sequence) + payload);
    WordInverts(sequence, payload);
    assert p[4..] == BigEndian(sequence) + payload;
  }

  method BuildDataPacket(sequence: int, payload: Packet) returns (packet: array<Byte>)
    requires 0 <= sequence < U32
    ensures fresh(packet) && packet[..] == DataPacket(sequence, payload)
  {
    hide BigEndian, DataHeader;
    packet := new Byte[8 + |payload|];
    PutWord(packet, 0, DataHeader(8 + |payload|));
    PutWord(packet, 4, sequence);
    ghost var head := packet[..8];
    assert head == BigEndian(DataHeader(8 + |payload|)) + BigEndian(sequence);
    var i := 0;
    while i < |payload|
      invariant 0 <= i <= |payload|
      invariant packet[..8 + i] == head + payload[..i]
    {
      packet[8 + i] := payload[i];
      i := i + 1;
    }
    assert packet[..] == packet[..8 + i];
  }

  /** Overwrites four bytes of a buffer. */
  method PutWord(packet: array<Byte>, at: nat, n: int)
    requires at + 4 <= packet.Length && 0 <= n < U32
    modifies packet
    ensures packet[..] == old(packet[..at]) + BigEndian(n) + old(packet[at + 4..])
  {
    packet[at] := n / 256 / 256 / 256;
    packet[at + 1] := n / 256 / 256 % 256;
    packet[at + 2] := n / 256 % 256;
    packet[at + 3] := n % 256;
  }

  // -- Sequences ----------------------------------------------------------------------------------

  function WithSequence(p: Packet, sequence: int): (r: Packet)
    requires |p| >= 8 && 0 <= sequence < U32
    ensures |r| == |p|
  {
    p[..4] + BigEndian(sequence) + p[8..]
  }

  /** Rewriting the sequence of a frame keeps its flags, its length and its payload. */
  lemma SequenceIsSeparate(p: Packet, sequence: int)
    requires Frame(p).Some? && 0 <= sequence < U32
    ensures Frame(WithSequence(p, sequence)) == Some(Header(Frame(p).value.flags, sequence))
    ensures WithSequence(p, sequence)[8..] == p[8..]
  {
    var r := WithSequence(p, sequence);
    assert r[..4] == p[..4];
    assert r[0] == p[0] && r[1] == p[1] && r[2] == p[2] && r[3] == p[3];
    assert r[4..] == BigEndian(sequence) + p[8..];
    WordInverts(sequence, p[8..]);
  }

  lemma SameSequence(p: Packet)
    requires Frame(p).Some?
    ensures WithSequence(p, Frame(p).value.sequence) == p
  {
    BigEndianInverts(p[4..8]);
    assert Word(p[4..]) == Word(p[4..8]);
    assert p == p[..4] + p[4..8] + p[8..];
  }

  lemma LastSequenceWins(p: Packet, m: int, n: int)
    requires |p| >= 8 && 0 <= m < U32 && 0 <= n < U32
    ensures WithSequence(WithSequence(p, m), n) == WithSequence(p, n)
  {
    var r := WithSequence(p, m);
    assert r[..4] == p[..4] && r[8..] == p[8..];
  }

  /** Shifting up wraps around; shifting down refuses sequences below the prefix. */
  function ShiftUp(p: Packet, prefix: Word32): (r: Packet)
    requires Frame(p).Some?
  {
    WithSequence(p, (Frame(p).value.sequence + prefix) % U32)
  }

  function ShiftDown(p: Packet, prefix: Word32): (r: Option<Packet>)
    requires Frame(p).Some?
  {
    if Frame(p).value.sequence < prefix then None
    else Some(WithSequence(p, (Frame(p).value.sequence - prefix) % U32))
  }

  /** Up and down again is the identity on bytes exactly while the shifted sequence does not wrap. */
  lemma ShiftRoundTrips(p: Packet, prefix: Word32)
    requires Frame(p).Some?
    ensures Frame(ShiftUp(p, prefix)).Some?
    ensures ShiftDown(ShiftUp(p, prefix), prefix) ==
            if Frame(p).value.sequence + prefix < U32 then Some(p) else None
  {
    hide Frame, WithSequence;
    var n := Frame(p).value.sequence;
    var m := (n + prefix) % U32;
    SequenceIsSeparate(p, m);
    if n + prefix < U32 {
      assert m == n + prefix;
      LastSequenceWins(p, m, n);
      SameSequence(p);
    } else {
      assert m == n + prefix - U32;
    }
  }

  // -- Control packets ----------------------------------------------------------------------------

  function ControlPacket(command: Byte, payload: Packet): Packet {
    BigEndian(CONTROL + (5 + |payload|) % CONTROL) + [command] + payload
  }

  const QUAKE: Packet := [81, 85, 65, 75, 69, 0]

  predicate ControlRequest(p: Packet, command: Byte) {
    && 12 <= |p| <= 1024 && Word(p) == CONTROL + |p|
    && p[4] == command && p[5..11] == QUAKE && p[11] == 3
  }

  const BACKEND_CONNECT: Packet := [0x80, 0, 0, 12, 1] + QUAKE + [3]

  function LittleEndian(n: int): Packet
    requires 0 <= n < U32
  {
    [n % 256, n / 256 % 256, n / 256 / 256 % 256, n / 256 / 256 / 256]
  }

  function Accept(port: nat): Packet
    requires port < U32
  {
    ControlPacket(0x81, LittleEndian(port))
  }

  function Rejection(message: Packet): Packet {
    ControlPacket(0x82, message + [0])
  }

  /** What a connect handshake makes of one reply; other packets are ignored. */
  datatype Reply = Ignored | Rejected(reason: Packet) | Extended | Accepted(port: int)

  function BeforeNul(text: Packet): Packet {
    if text == [] || text[0] == 0 then [] else [text[0]] + BeforeNul(text[1..])
  }

  function ReplyOf(p: Packet): Reply {
    if |p| < 5 || Word(p) != CONTROL + |p| % CONTROL then Ignored
    else if p[4] == 0x82 then Rejected(BeforeNul(p[5..]))
    else if p[4] != 0x81 || |p| < 9 then Ignored
    else if |p| != 9 then Extended
    else Accepted(p[5] + (p[6] as int) * 0x100)
  }

  lemma ConnectIsARequest()
    ensures ControlRequest(BACKEND_CONNECT, 1)
  {
    assert BACKEND_CONNECT[5..11] == QUAKE;
  }

  /**
   * One gateway can sit behind another: what it sends to connect is a request its own kind answers, and the accept that
   * comes back is understood, for every port, despite the two byte orders.
   */
  lemma AcceptIsUnderstood(port: nat)
    requires port < LENGTHS
    ensures ControlRequest(BACKEND_CONNECT, 1) && ReplyOf(Accept(port)) == Accepted(port)
    ensures Frame(BACKEND_CONNECT).None? && Frame(Accept(port)).None?
  {
    ConnectIsARequest();
    ControlIsNoFrame(BACKEND_CONNECT, 1);
    var p := Accept(port);
    WordInverts(CONTROL + 9, [0x81] + LittleEndian(port));
    assert p == BigEndian(CONTROL + 9) + ([0x81] + LittleEndian(port));
    assert p[5] == port % 256 && p[6] == port / 256 % 256;
  }

  lemma {:induction false} BeforeNulStops(text: Packet)
    requires 0 !in text
    ensures BeforeNul(text + [0]) == text
  {
    if text != [] {
      assert (text + [0])[1..] == text[1..] + [0];
      BeforeNulStops(text[1..]);
    }
  }

  lemma RejectionIsUnderstood(message: Packet)
    requires 0 !in message && 6 + |message| < CONTROL
    ensures ReplyOf(Rejection(message)) == Rejected(message)
  {
    hide BeforeNul;
    var p := Rejection(message);
    assert |p| == 6 + |message| && |p| % CONTROL == |p|;
    WordInverts(CONTROL + |p|, [0x82] + (message + [0]));
    assert p == BigEndian(CONTROL + |p|) + ([0x82] + (message + [0]));
    assert p[5..] == message + [0];
    BeforeNulStops(message);
  }

  /** A datagram is never both a control request and part of a connection. */
  lemma ControlIsNoFrame(p: Packet, command: Byte)
    requires ControlRequest(p, command)
    ensures Frame(p).None?
  {
  }
}
