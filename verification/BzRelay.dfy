/** BZFlag streams and datagrams: many messages in one buffer, and the queue held while a server starts. */
module BzRelay {
  import opened FleetState
  import opened Octets
  import opened BzWire

  // -- Building and reading messages --------------------------------------------------------------

  function ShortBytes(n: nat): (p: Packet)
    ensures |p| == 2
  {
    [n / 256 % 256, n % 256]
  }

  /** The length field keeps only sixteen bits of the payload's length. */
  function MessageOf(code: nat, payload: Packet): (m: Packet)
    ensures |m| == 4 + |payload|
  {
    ShortBytes(|payload|) + ShortBytes(code) + payload
  }

  method BuildMessage(code: nat, payload: Packet) returns (message: array<Byte>)
    ensures fresh(message) && message[..] == MessageOf(code, payload)
  {
    message := new Byte[4 + |payload|];
    message[0], message[1] := |payload| / 256 % 256, |payload| % 256;
    message[2], message[3] := code / 256 % 256, code % 256;
    for i := 0 to |payload|
      invariant message[..4] == ShortBytes(|payload|) + ShortBytes(code)
      invariant message[4..4 + i] == payload[..i]
    {
      message[4 + i] := payload[i];
    }
    assert message[..] == message[..4] + message[4..4 + |payload|];
  }

  datatype Read = Message(message: Packet, rest: Packet) | TooLong | Truncated

  /** Takes the next message off a byte stream. */
  function ReadMessage(stream: Packet): Read {
    if |stream| < 4 then Truncated
    else
      var n := Short(stream, 0);
      if n > 1020 then TooLong
      else if 4 + n > |stream| then Truncated
      else Message(stream[..4 + n], stream[4 + n..])
  }

  lemma ShortInverts(n: nat, more: Packet)
    ensures Short(ShortBytes(n) + more, 0) == n % 0x1_0000
  {
    assert n % 0x1_0000 == n / 256 % 256 * 256 + n % 256;
  }

  /**
   * A reader takes back exactly what was built, however the stream goes on, if and only if the payload fits: a longer
   * one is refused, or its length wraps around and the reader stops too early.
   */
  lemma ReadInvertsBuild(code: nat, payload: Packet, rest: Packet)
    ensures ReadMessage(MessageOf(code, payload) + rest) == Message(MessageOf(code, payload), rest)
            <==> |payload| <= 1020
    ensures |payload| <= 1020 ==> Framed(MessageOf(code, payload))
    ensures Short(MessageOf(code, payload), 2) == code % 0x1_0000
  {
    hide ShortBytes;
    var m := MessageOf(code, payload);
    ShortInverts(|payload|, ShortBytes(code) + payload + rest);
    assert m + rest == ShortBytes(|payload|) + (ShortBytes(code) + payload + rest);
    ShortInverts(|payload|, ShortBytes(code) + payload);
    assert m == ShortBytes(|payload|) + (ShortBytes(code) + payload);
    assert (m + rest)[..4 + |payload|] == m && (m + rest)[4 + |payload|..] == rest;
    ShortInverts(code, payload);
    assert m[2..] == ShortBytes(code) + payload;
    assert Short(m, 2) == Short(m[2..], 0);
  }

  // -- Datagrams ----------------------------------------------------------------------------------

  /** The length of the first message of a datagram, or none when it is cut short. */
  function FirstLength(p: Packet): (n: Option<nat>)
    ensures n.Some? ==> 4 <= n.value <= |p|
  {
    if |p| < 4 || 4 + Short(p, 0) > |p| then None else Some(4 + Short(p, 0))
  }

  /** How many messages are accepted, from the front, before the datagram ends or one is not. */
  function AcceptedMessages(p: Packet): (messages: seq<Packet>)
    ensures forall m | m in messages :: Acceptable(m, true)
    ensures |Joined(messages)| <= |p| && p[..|Joined(messages)|] == Joined(messages)
  {
    if FirstLength(p).None? || !Acceptable(p[..FirstLength(p).value], true) then []
    else
      var first := p[..FirstLength(p).value];
      var rest := AcceptedMessages(p[|first|..]);
      assert p[..|first| + |Joined(rest)|] == first + p[|first|..][..|Joined(rest)|];
      assert Joined([first] + rest) == first + Joined(rest) by { assert ([first] + rest)[1..] == rest; }
      [first] + rest
  }

  function Joined(messages: seq<Packet>): Packet {
    if messages == [] then [] else messages[0] + Joined(messages[1..])
  }

  function AllTranslated(messages: seq<Packet>, virtual: Byte, actual: Byte, fromServer: bool): (r: seq<Packet>)
    ensures |r| == |messages|
  {
    seq(|messages|, i requires 0 <= i < |messages| => Translated(messages[i], virtual, actual, fromServer))
  }

  predicate DatagramAccepted(p: Packet) {
    0 < |p| <= 1024 && |Joined(AcceptedMessages(p))| == |p|
  }

  lemma {:induction false} JoinedAppends(messages: seq<Packet>, m: Packet)
    ensures Joined(messages + [m]) == Joined(messages) + m
  {
    if messages == [] {
      assert [m][1..] == [];
    } else {
      assert (messages + [m])[1..] == messages[1..] + [m];
      JoinedAppends(messages[1..], m);
    }
  }

  lemma {:induction false} TranslatedLength(messages: seq<Packet>, virtual: Byte, actual: Byte, fromServer: bool)
    ensures |Joined(AllTranslated(messages, virtual, actual, fromServer))| == |Joined(messages)|
  {
    if messages != [] {
      var r := AllTranslated(messages, virtual, actual, fromServer);
      assert r[1..] == AllTranslated(messages[1..], virtual, actual, fromServer);
      TranslatedLength(messages[1..], virtual, actual, fromServer);
    }
  }

  /** What a datagram's buffer holds after its accepted messages were exchanged one by one. */
  function DatagramAfter(p: Packet, virtual: Byte, actual: Byte): Packet {
    var messages := AcceptedMessages(p);
    Joined(AllTranslated(messages, virtual, actual, true)) + p[|Joined(messages)|..]
  }

  /** One more accepted message at the front moves the rest along. */
  lemma FirstAccepted(p: Packet)
    requires FirstLength(p).Some? && Acceptable(p[..FirstLength(p).value], true)
    ensures var n := FirstLength(p).value; AcceptedMessages(p) == [p[..n]] + AcceptedMessages(p[n..])
  {
  }

  lemma AllTranslatedAppends(messages: seq<Packet>, m: Packet, virtual: Byte, actual: Byte)
    ensures Joined(AllTranslated(messages + [m], virtual, actual, true))
         == Joined(AllTranslated(messages, virtual, actual, true)) + Translated(m, virtual, actual, true)
  {
    hide Translated;
    assert AllTranslated(messages + [m], virtual, actual, true)
        == AllTranslated(messages, virtual, actual, true) + [Translated(m, virtual, actual, true)];
    JoinedAppends(AllTranslated(messages, virtual, actual, true), Translated(m, virtual, actual, true));
  }

  /** The buffer of a datagram `p` when the messages before `at` were accepted and exchanged. */
  ghost predicate Progress(now: Packet, p: Packet, at: nat, done: seq<Packet>, virtual: Byte, actual: Byte) {
    && at <= |p| == |now| && now[at..] == p[at..] && at == |Joined(done)|
    && AcceptedMessages(p) == done + AcceptedMessages(p[at..])
    && now[..at] == Joined(AllTranslated(done, virtual, actual, true))
  }

  lemma Begins(p: Packet, virtual: Byte, actual: Byte)
    ensures Progress(p, p, 0, [], virtual, actual)
  {
    assert p[0..] == p && [] + AcceptedMessages(p) == AcceptedMessages(p);
  }

  lemma Advances(now: Packet, next: Packet, p: Packet, at: nat, n: nat, done: seq<Packet>, virtual: Byte, actual: Byte)
    requires Progress(now, p, at, done, virtual, actual)
    requires FirstLength(p[at..]) == Some(n) && Acceptable(p[at..][..n], true)
    requires |next| == |now| && next[..at] == now[..at] && next[at + n..] == now[at + n..]
    requires next[at..at + n] == Translated(p[at..][..n], virtual, actual, true)
    ensures Progress(next, p, at + n, done + [p[at..][..n]], virtual, actual)
  {
    hide Acceptable, Translated, AllTranslated, Joined, AcceptedMessages;
    var m := p[at..][..n];
    FirstAccepted(p[at..]);
    JoinedAppends(done, m);
    AllTranslatedAppends(done, m, virtual, actual);
    assert next[..at + n] == next[..at] + next[at..at + n];
    assert p[at..][n..] == p[at + n..];
    assert next[at + n..] == now[at..][n..] == p[at + n..];
    assert done + ([m] + AcceptedMessages(p[at + n..])) == (done + [m]) + AcceptedMessages(p[at + n..]);
  }

  lemma Stops(now: Packet, p: Packet, at: nat, done: seq<Packet>, virtual: Byte, actual: Byte)
    requires Progress(now, p, at, done, virtual, actual) && AcceptedMessages(p[at..]) == []
    ensures AcceptedMessages(p) == done && now == DatagramAfter(p, virtual, actual)
    ensures |Joined(AcceptedMessages(p))| == at
  {
    hide AllTranslated, AcceptedMessages;
    assert done + [] == done;
    assert now == now[..at] + now[at..];
  }

  lemma NothingAccepted(p: Packet)
    requires FirstLength(p).Some? ==> !Acceptable(p[..FirstLength(p).value], true)
    ensures AcceptedMessages(p) == []
  {
  }

  /** Exchanges IDs message by message; the first message that is not accepted ends the work where it is. */
  method TranslateDatagram(packet: array<Byte>, virtual: Byte, actual: Byte) returns (ok: bool)
    modifies packet
    ensures ok <==> DatagramAccepted(old(packet[..]))
    ensures packet[..] == if 0 < packet.Length <= 1024 then DatagramAfter(old(packet[..]), virtual, actual)
                          else old(packet[..])
  {
    hide Progress, DatagramAfter, Acceptable, Translated, AcceptedMessages, Joined;
    if packet.Length == 0 || packet.Length > 1024 {
      return false;
    }
    ghost var p := packet[..];
    ghost var done: seq<Packet> := [];
    var at := 0;
    Begins(p, virtual, actual);
    while at < packet.Length
      invariant 0 <= at <= packet.Length && packet[at..] == p[at..]
      invariant Progress(packet[..], p, at, done, virtual, actual)
      decreases packet.Length - at
    {
      var rest := packet[at..];
      if |rest| < 4 || 4 + Short(rest, 0) > |rest| {
        NothingAccepted(p[at..]);
        Stops(packet[..], p, at, done, virtual, actual);
        return false;
      }
      var n := 4 + Short(rest, 0);
      ghost var now := packet[..];
      assert packet[at..at + n] == p[at..][..n];
      var accepted := Translate(packet, at, at + n, virtual, actual, true);
      if !accepted {
        assert packet[..] == packet[..at] + packet[at..at + n] + packet[at + n..] == now;
        NothingAccepted(p[at..]);
        Stops(packet[..], p, at, done, virtual, actual);
        return false;
      }
      Advances(now, packet[..], p, at, n, done, virtual, actual);
      done := done + [p[at..][..n]];
      at := at + n;
      assert packet[at..] == now[at..] == p[at..];
    }
    NothingAccepted(p[at..]);
    Stops(packet[..], p, at, done, virtual, actual);
    return true;
  }

  lemma {:induction false} AcceptedAgain(messages: seq<Packet>, rest: Packet, virtual: Byte, actual: Byte)
    requires (forall m | m in messages :: Acceptable(m, true)) && AcceptedMessages(rest) == []
    ensures AcceptedMessages(Joined(AllTranslated(messages, virtual, actual, true)) + rest)
         == AllTranslated(messages, virtual, actual, true)
  {
    hide Translated, Acceptable;
    var r := AllTranslated(messages, virtual, actual, true);
    if messages == [] {
      assert [] + rest == rest;
    } else {
      assert r[1..] == AllTranslated(messages[1..], virtual, actual, true);
      AcceptedAgain(messages[1..], rest, virtual, actual);
      TranslationIsAnInvolution(messages[0], virtual, actual, true);
      AcceptedInFront(r[0], Joined(r[1..]) + rest);
      assert Joined(r) + rest == r[0] + (Joined(r[1..]) + rest);
    }
  }

  lemma AcceptedInFront(m: Packet, rest: Packet)
    requires Acceptable(m, true)
    ensures AcceptedMessages(m + rest) == [m] + AcceptedMessages(rest)
  {
    hide Shaped;
    var p := m + rest;
    assert p[0] == m[0] && p[1] == m[1];
    assert p[..|m|] == m && p[|m|..] == rest;
    FirstAccepted(p);
  }

  lemma JoinedOne(m: Packet)
    ensures Joined([m]) == m
  {
    JoinedAppends([], m);
  }

  lemma TranslatedTwice(messages: seq<Packet>, virtual: Byte, actual: Byte)
    requires forall m | m in messages :: Acceptable(m, true)
    ensures AllTranslated(AllTranslated(messages, virtual, actual, true), virtual, actual, true) == messages
  {
    hide Translated, Acceptable;
    forall i | 0 <= i < |messages|
      ensures Translated(Translated(messages[i], virtual, actual, true), virtual, actual, true) == messages[i]
    {
      TranslationIsAnInvolution(messages[i], virtual, actual, true);
    }
  }

  /** For whole datagrams: an accepted one stays accepted, and translating it again restores it. */
  lemma DatagramIsAnInvolution(p: Packet, virtual: Byte, actual: Byte)
    requires DatagramAccepted(p)
    ensures var r := DatagramAfter(p, virtual, actual);
      DatagramAccepted(r) && |r| == |p| && DatagramAfter(r, virtual, actual) == p
  {
    hide Translated, Acceptable, AllTranslated;
    var messages := AcceptedMessages(p);
    var r := DatagramAfter(p, virtual, actual);
    TranslatedLength(messages, virtual, actual, true);
    assert p[|Joined(messages)|..] == [];
    assert r == Joined(AllTranslated(messages, virtual, actual, true)) + [];
    AcceptedAgain(messages, [], virtual, actual);
    TranslatedTwice(messages, virtual, actual);
    assert p == Joined(messages) + [];
  }

  // -- A datagram that is refused -----------------------------------------------------------------

  /** A message names one of the two exchanged players. */
  predicate Names(m: Packet, virtual: Byte, actual: Byte) {
    exists k :: 0 <= k < |m| && IsIdIn(m, true, k) && (m[k] == virtual || m[k] == actual)
  }

  lemma TranslatedSame(m: Packet, virtual: Byte, actual: Byte)
    ensures Translated(m, virtual, actual, true) == m <==> virtual == actual || !Names(m, virtual, actual)
  {
    hide IsIdIn;
    var r := Translated(m, virtual, actual, true);
    assert r == m <==> forall k | 0 <= k < |m| :: r[k] == m[k];
  }

  lemma {:induction false} JoinedSame(messages: seq<Packet>, others: seq<Packet>)
    requires |messages| == |others| && forall i | 0 <= i < |messages| :: |messages[i]| == |others[i]|
    ensures Joined(messages) == Joined(others) <==> messages == others
  {
    if messages != [] {
      JoinedSame(messages[1..], others[1..]);
      assert Joined(messages)[..|messages[0]|] == messages[0] && Joined(others)[..|others[0]|] == others[0];
      assert Joined(messages)[|messages[0]|..] == Joined(messages[1..]);
      assert Joined(others)[|others[0]|..] == Joined(others[1..]);
      assert messages == [messages[0]] + messages[1..] && others == [others[0]] + others[1..];
    }
  }

  /**
   * A buffer, refused or not, is left as it was exactly when none of the messages before the first refused one names
   * an exchanged player; a refusal alone does not leave it untouched.
   */
  lemma UntouchedExactly(p: Packet, virtual: Byte, actual: Byte)
    ensures DatagramAfter(p, virtual, actual) == p
       <==> virtual == actual || forall m | m in AcceptedMessages(p) :: !Names(m, virtual, actual)
  {
    hide Translated, Names, Acceptable, IsIdIn;
    var messages := AcceptedMessages(p);
    var others := AllTranslated(messages, virtual, actual, true);
    TranslatedLength(messages, virtual, actual, true);
    JoinedSame(messages, others);
    assert p == Joined(messages) + p[|Joined(messages)|..];
    assert DatagramAfter(p, virtual, actual)[..|Joined(messages)|] == Joined(others);
    forall i | 0 <= i < |messages|
      ensures others[i] == messages[i] <==> virtual == actual || !Names(messages[i], virtual, actual)
    {
      TranslatedSame(messages[i], virtual, actual);
    }
  }

  /** A removal of player 3, then a truncated message: the datagram is refused, yet its buffer has changed. */
  lemma RefusedButRewritten()
    ensures var p := [0, 1, 0x72, 0x70, 3, 0];
      !DatagramAccepted(p) && DatagramAfter(p, 3, 7) == [0, 1, 0x72, 0x70, 7, 0]
  {
    var m: Packet := [0, 1, 0x72, 0x70, 3];
    var p: Packet := m + [0];
    assert m[4..] == [3] && Short(m, 2) == REMOVE_PLAYER;
    AcceptedInFront(m, [0]);
    assert AcceptedMessages([0]) == [];
    assert AcceptedMessages(p) == [m];
    assert Joined([m]) == m by { JoinedOne(m); }
    assert IsIdIn(m, true, 4);
    var r := Translated(m, 3, 7, true);
    assert r == [0, 1, 0x72, 0x70, 7];
    assert AllTranslated([m], 3, 7, true) == [r];
    assert Joined([r]) == r by { JoinedOne(r); }
    assert p[|m|..] == [0];
    assert p == [0, 1, 0x72, 0x70, 3, 0];
  }

  // -- The startup queue --------------------------------------------------------------------------

  const QUEUE := 8

  datatype Held = Left | QueueFull | Refused | Kept

  /** A client's messages between its greeting and the server's: checked on arrival, translated on delivery. */
  class StartupQueue {
    const virtual: Byte
    var pending: seq<Packet>

    predicate Valid()
      reads this
    {
      |pending| <= QUEUE && forall m | m in pending :: Acceptable(m, false)
    }

    constructor (virtual: Byte)
      ensures Valid() && this.virtual == virtual && pending == []
    {
      this.virtual, pending := virtual, [];
    }

    method Hold(packet: array<Byte>) returns (held: Held)
      requires Valid() && packet.Length >= 4
      modifies this, packet
      ensures Valid() && packet[..] == old(packet[..])
      ensures held == if Short(packet[..], 2) == EXIT then Left
                      else if |old(pending)| >= QUEUE then QueueFull
                      else if !Acceptable(packet[..], false) then Refused
                      else Kept
      ensures pending == if held == Kept then old(pending) + [packet[..]] else old(pending)
    {
      if Short(packet[..], 2) == EXIT {
        return Left;
      }
      if |pending| >= QUEUE {
        return QueueFull;
      }
      ghost var m := packet[..];
      assert packet[0..packet.Length] == m;
      var ok := Translate(packet, 0, packet.Length, virtual, virtual, false);
      TranslationToSelf(m, virtual, false);
      assert packet[..] == packet[0..packet.Length];
      if !ok {
        return Refused;
      }
      pending := pending + [packet[..]];
      return Kept;
    }

    /** Whatever ID the server assigned, everything held is delivered: no message that was kept can be refused now. */
    method Replay(actual: Byte) returns (delivered: bool, written: seq<Packet>)
      requires Valid()
      ensures delivered && written == AllTranslated(pending, virtual, actual, false)
    {
      written := [];
      for i := 0 to |pending|
        invariant written == AllTranslated(pending[..i], virtual, actual, false)
      {
        var message := pending[i];
        var packet := new Byte[|message|](k requires 0 <= k < |message| => message[k]);
        assert packet[0..packet.Length] == message;
        assert pending[i] in pending;
        var ok := Translate(packet, 0, packet.Length, virtual, actual, false);
        if !ok {
          assert false;
        }
        assert packet[..] == packet[0..packet.Length];
        assert pending[..i + 1] == pending[..i] + [pending[i]];
        written := written + [packet[..]];
      }
      assert pending[..|pending|] == pending;
      return true, written;
    }
  }
}
