/** One held player: reliable loading messages while a game starts, then a relay with shifted sequences. */
module QuakeSession {
  import opened FleetState
  import opened Octets
  import opened QuakeWire

  // -- Times, in milliseconds ---------------------------------------------------------------------

  const SECOND := 1000
  const MESSAGE_SPACING := 2 * SECOND
  const NOTICE_SPACING := 5 * SECOND
  const CLIENT_TIMEOUT := 60 * SECOND
  const ATTEMPT_TIMEOUT := 180 * SECOND

  // -- Messages -----------------------------------------------------------------------------------

  function Bytes(text: string): Packet {
    seq(|text|, i requires 0 <= i < |text| => (text[i] as int) % 256)
  }

  function Digits(n: nat): (s: string)
    ensures n < 10 ==> |s| == 1
    ensures n < 100 ==> |s| <= 2
    ensures n < 1000 ==> |s| <= 3
  {
    if n < 10 then ["0123456789"[n]] else Digits(n / 10) + ["0123456789"[n % 10]]
  }

  /** Whole seconds, truncated toward zero. */
  function Elapsed(milliseconds: int): string {
    if milliseconds >= 0 then Digits(milliseconds / SECOND)
    else if milliseconds > -SECOND then "0"
    else "-" + Digits(-milliseconds / SECOND)
  }

  function PrintMessage(text: string): Packet {
    [8] + Bytes(text) + [0]
  }

  function Notice(milliseconds: int): Packet {
    PrintMessage("Starting server... " + Elapsed(milliseconds) + "s elapsed. Please wait.\n")
  }

  /** An unreliable disconnect: a data packet whose header is replaced. */
  function FailurePacket(message: string): Packet {
    var packet := DataPacket(0, PrintMessage(message + "\n") + [2]);
    BigEndian(UNRELIABLE + |packet| % UNRELIABLE) + packet[4..]
  }

  // -- The session as a value ---------------------------------------------------------------------

  /**
   * `prefix` counts the acknowledged loading messages and `pending` is the one in flight; `initial` is the client's
   * first reliable packet. A session is attached once it owns a backend socket.
   */
  datatype State = State(prefix: Word32, pending: Option<Packet>, initial: Option<Packet>, target: string,
                         attached: bool, lastSeen: int, nextMessage: int, nextNotice: int, began: int, sentAt: int)

  /** What one turn of the session's loop does. */
  datatype Reaction = Reaction(state: State, toClient: seq<Packet>, toBackend: seq<Packet>, over: bool)

  function Opened(now: int): State {
    State(0, None, None, "", false, now, now, now, now, 0)
  }

  predicate ReadyToAttach(s: State) {
    !s.attached && s.target != "" && s.pending.None?
  }

  function AfterAttach(s: State): Reaction {
    Reaction(s.(attached := true), [], if s.initial.Some? then [s.initial.value] else [], false)
  }

  predicate Disconnects(h: Header, p: Packet) {
    (Has(h.flags, DATA) || Has(h.flags, UNRELIABLE)) && |p| == 9 && p[8] == 2
  }

  function Seen(s: State, h: Header, p: Packet, now: int): State {
    s.(lastSeen := now,
       initial := if Has(h.flags, DATA) && h.sequence == 0 && s.initial.None? then Some(p) else s.initial)
  }

  function AfterInput(s: State, p: Packet, now: int): Reaction
  {
    if Frame(p).None? then Reaction(s, [], [], false)
    else
      var h := Frame(p).value;
      var seen := Seen(s, h, p, now);
      if !s.attached then
        Reaction(if Has(h.flags, ACK) && s.pending.Some? && h.sequence == s.prefix
                 then seen.(prefix := (s.prefix + 1) % U32, pending := None) else seen,
                 [], [], Disconnects(h, p))
      else if Has(h.flags, ACK) || Has(h.flags, NAK) then
        if ShiftDown(p, s.prefix).None? then Reaction(seen, [], [], false)
        else Reaction(seen, [], [ShiftDown(p, s.prefix).value], Disconnects(h, p))
      else Reaction(seen, [], [p], Disconnects(h, p))
  }

  function AfterBackend(s: State, p: Packet): Reaction
  {
    if Frame(p).None? then Reaction(s, [], [], false)
    else if Has(Frame(p).value.flags, DATA) then Reaction(s, [ShiftUp(p, s.prefix)], [], false)
    else Reaction(s, [p], [], false)
  }

  const TIMED_OUT := "Server did not start in time. Please try again."

  function Payload(s: State, now: int): Packet {
    if now >= s.nextNotice then Notice(now - s.began) else [1]
  }

  predicate WantsMessage(s: State, now: int) {
    s.pending.None? && s.target == "" && now >= s.nextMessage
  }

  function AfterTick(s: State, now: int, bootOver: bool): Reaction
  {
    if now - s.lastSeen > CLIENT_TIMEOUT then Reaction(s, [], [], true)
    else if s.attached then Reaction(s, [], [], false)
    else if bootOver then Reaction(s, [FailurePacket(TIMED_OUT), FailurePacket(TIMED_OUT), FailurePacket(TIMED_OUT)],
                                   [], true)
    else if s.pending.Some? then
      if now - s.sentAt >= SECOND then Reaction(s.(sentAt := now), [s.pending.value], [], false)
      else Reaction(s, [], [], false)
    else if WantsMessage(s, now) then
      var packet := DataPacket(s.prefix, Payload(s, now));
      Reaction(s.(pending := Some(packet), sentAt := now, nextMessage := now + MESSAGE_SPACING,
                  nextNotice := if now >= s.nextNotice then now + NOTICE_SPACING else s.nextNotice),
               [packet], [], false)
    else Reaction(s, [], [], false)
  }

  // -- The session object -------------------------------------------------------------------------

  class Session {
    var prefix: Word32
    var pending: Option<Packet>
    var initial: Option<Packet>
    var target: string
    var attached: bool
    var lastSeen: int
    var nextMessage: int
    var nextNotice: int
    const began: int
    var sentAt: int

    function Value(): State
      reads this
    {
      State(prefix, pending, initial, target, attached, lastSeen, nextMessage, nextNotice, began, sentAt)
    }

    constructor (now: int)
      ensures Value() == Opened(now)
    {
      prefix, pending, initial, target, attached := 0, None, None, "", false;
      lastSeen, nextMessage, nextNotice, began, sentAt := now, now, now, now, 0;
    }

    /** A client datagram: its buffer is rewritten in place before it is relayed. */
    method OnInput(packet: array<Byte>, now: int) returns (toBackend: seq<Packet>, over: bool)
      modifies this, packet
      ensures Reaction(Value(), [], toBackend, over) == AfterInput(old(Value()), old(packet[..]), now)
    {
      hide Has, Frame, BigEndian;
      toBackend, over := [], false;
      var frame := Frame(packet[..]);
      if frame.None? {
        return;
      }
      var flags, sequence := frame.value.flags, frame.value.sequence;
      lastSeen := now;
      var disconnect := (Has(flags, DATA) || Has(flags, UNRELIABLE)) && packet.Length == 9 && packet[8] == 2;
      if Has(flags, DATA) && sequence == 0 && initial == None {
        initial := Some(packet[..]);
      }
      if !attached {
        if Has(flags, ACK) && pending != None && sequence == prefix {
          prefix := (prefix + 1) % U32;
          pending := None;
        }
        return [], disconnect;
      }
      if Has(flags, ACK) || Has(flags, NAK) {
        if sequence < prefix {
          return;
        }
        PutWord(packet, 4, (sequence - prefix) % U32);
      }
      return [packet[..]], disconnect;
    }

    method OnBackend(packet: array<Byte>) returns (toClient: seq<Packet>)
      modifies packet
      ensures Reaction(Value(), toClient, [], false) == AfterBackend(old(Value()), old(packet[..]))
    {
      var frame := Frame(packet[..]);
      if frame.None? {
        return [];
      }
      if Has(frame.value.flags, DATA) {
        PutWord(packet, 4, (frame.value.sequence + prefix) % U32);
      }
      return [packet[..]];
    }

    method OnTick(now: int, bootOver: bool) returns (toClient: seq<Packet>, over: bool)
      modifies this
      ensures Reaction(Value(), toClient, [], over) == AfterTick(old(Value()), now, bootOver)
    {
      hide DataPacket, FailurePacket, Notice;
      toClient, over := [], false;
      if now - lastSeen > CLIENT_TIMEOUT {
        return [], true;
      }
      if attached {
        return;
      }
      if bootOver {
        return [FailurePacket(TIMED_OUT), FailurePacket(TIMED_OUT), FailurePacket(TIMED_OUT)], true;
      }
      if pending != None {
        if now - sentAt >= SECOND {
          toClient := [pending.value];
          sentAt := now;
        }
      } else if target == "" && now >= nextMessage {
        var payload := [1];
        if now >= nextNotice {
          payload := Notice(now - began);
          nextNotice := now + NOTICE_SPACING;
        }
        var packet := BuildDataPacket(prefix, payload);
        pending := Some(packet[..]);
        toClient := [packet[..]];
        sentAt := now;
        nextMessage := now + MESSAGE_SPACING;
      }
    }

    /** The backend is taken on only with nothing pending; the first reliable packet is handed over. */
    method Attach() returns (toBackend: seq<Packet>)
      requires ReadyToAttach(Value())
      modifies this
      ensures Reaction(Value(), [], toBackend, false) == AfterAttach(old(Value()))
    {
      attached := true;
      toBackend := if initial == None then [] else [initial.value];
    }
  }
}
