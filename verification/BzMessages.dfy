/** BZFlag messages as typed fields: the relay accepts exactly their encodings, and exchanges exactly their players. */
module BzMessages {
  import opened Octets
  import opened BzWire

  // -- Fields -------------------------------------------------------------------------------------

  datatype Field = Player(id: Byte) | Data(bytes: Packet)

  function Bytes(fields: seq<Field>): Packet {
    if fields == [] then []
    else (if fields[0].Player? then [fields[0].id] else fields[0].bytes) + Bytes(fields[1..])
  }

  /** The message with two players exchanged. */
  function Swapped(fields: seq<Field>, virtual: Byte, actual: Byte): (r: seq<Field>)
    ensures |r| == |fields|
  {
    seq(|fields|, i requires 0 <= i < |fields| =>
      if fields[i].Player? then Player(Exchanged(fields[i].id, virtual, actual)) else fields[i])
  }

  /** Byte `k` of the encoded fields is a player. */
  predicate PlayerAt(fields: seq<Field>, k: int) {
    fields != []
    && if fields[0].Player? then k == 0 || PlayerAt(fields[1..], k - 1)
       else k >= |fields[0].bytes| && PlayerAt(fields[1..], k - |fields[0].bytes|)
  }

  lemma {:induction false} PlayerIsInside(fields: seq<Field>, k: int)
    requires PlayerAt(fields, k)
    ensures 0 <= k < |Bytes(fields)|
  {
    if fields[0].Player? {
      if k != 0 { PlayerIsInside(fields[1..], k - 1); }
    } else {
      PlayerIsInside(fields[1..], k - |fields[0].bytes|);
    }
  }

  lemma {:induction false} SwappedBytes(fields: seq<Field>, virtual: Byte, actual: Byte)
    ensures var p, r := Bytes(fields), Bytes(Swapped(fields, virtual, actual));
      && |r| == |p|
      && forall k | 0 <= k < |p| :: r[k] == if PlayerAt(fields, k) then Exchanged(p[k], virtual, actual) else p[k]
  {
    if fields != [] {
      var rest := fields[1..];
      SwappedBytes(rest, virtual, actual);
      assert Swapped(fields, virtual, actual)[1..] == Swapped(rest, virtual, actual);
    }
  }

  // -- Messages -----------------------------------------------------------------------------------

  /** Opcodes are two letters. */
  datatype Opcode = Op(first: char, second: char)

  function Code(op: Opcode): int {
    op.first as int * 256 + op.second as int
  }

  /** Accept, score over, add, remove, alive, autopilot, pause, capture, rabbit, shot end, teleport: one player. */
  const SERVER_ABOUT :=
    {Op('a', 'c'), Op('s', 'o'), Op('a', 'p'), Op('r', 'p'), Op('a', 'l'), Op('a', 'u'), Op('p', 'a'), Op('c', 'f'),
     Op('n', 'R'), Op('s', 'e'), Op('t', 'p')}

  /** Killed and chat: victim and killer, sender and receiver. */
  const SERVER_BETWEEN := {Op('k', 'l'), Op('m', 'g')}

  /** Grab and drop: the player, and the flag with its owner. */
  const SERVER_FLAG := {Op('g', 'f'), Op('d', 'f')}

  /** Player updates and new shots: a time stamp comes first. */
  const STAMPED := {Op('p', 'u'), Op('p', 's'), Op('s', 'b')}

  /** Messages of the server that name no player. */
  const SERVER_PLAIN :=
    {Op('c', 's'), Op('c', 'u'), Op('f', 't'), Op('f', 'r'), Op('g', 'w'), Op('g', 's'), Op('g', 't'), Op('N', 'f'),
     Op('n', 'f'), Op('q', 'g'), Op('q', 'p'), Op('r', 'j'), Op('s', 'k'), Op('s', 'v'), Op('t', 'o'), Op('t', 'u'),
     Op('w', 'h'), Op('o', 'f'), Op('o', 'g'), Op('p', 'i')}

  /** Killer, shot end, chat receiver, link request: about one player. */
  const CLIENT_ABOUT := {Op('k', 'l'), Op('s', 'e'), Op('m', 'g'), Op('o', 'f')}

  /** Messages of the client that name no player. */
  const CLIENT_PLAIN :=
    {Op('e', 'n'), Op('e', 'x'), Op('n', 'f'), Op('g', 'w'), Op('w', 's'), Op('w', 'h'), Op('q', 'g'), Op('q', 'p'),
     Op('a', 'l'), Op('g', 'f'), Op('d', 'f'), Op('c', 'f'), Op('t', 'p'), Op('o', 'g'), Op('n', 'R'), Op('p', 'a'),
     Op('a', 'u'), Op('p', 'i')}

  datatype Shape = Someone | Exactly(n: nat) | Anything

  /** The fields are a player, or data of a given or of any length. */
  predicate Fits(fields: seq<Field>, shape: seq<Shape>) {
    && |fields| == |shape|
    && forall i | 0 <= i < |fields| ::
         match shape[i]
         case Someone => fields[i].Player?
         case Exactly(n) => fields[i].Data? && |fields[i].bytes| == n
         case Anything => fields[i].Data?
  }

  /** A flag as it is listed: its number, kind and state, its owner, and how it flies. */
  predicate IsFlagList(fields: seq<Field>, count: nat)
    decreases count
  {
    if count == 0 then fields == []
    else |fields| >= 3 && Fits(fields[..3], [Exactly(8), Someone, Exactly(48)]) && IsFlagList(fields[3..], count - 1)
  }

  /** Players, each with the given number of bytes. */
  predicate IsPlayerList(fields: seq<Field>, size: nat, count: nat)
    decreases count
  {
    if count == 0 then fields == []
    else |fields| >= 2 && Fits(fields[..2], [Someone, Exactly(size)]) && IsPlayerList(fields[2..], size, count - 1)
  }

  /** Players, each behind the length of its address. */
  predicate IsAddressList(fields: seq<Field>, count: nat)
    decreases count
  {
    if count == 0 then fields == []
    else
      && |fields| >= 3 && fields[0].Data? && |fields[0].bytes| == 1 && fields[0].bytes[0] >= 2
      && Fits(fields[1..3], [Someone, Exactly(fields[0].bytes[0])])
      && IsAddressList(fields[3..], count - 1)
  }

  predicate IsFromServer(op: Opcode, fields: seq<Field>) {
    || (op in SERVER_ABOUT && Fits(fields, [Someone, Anything]))
    || (op in SERVER_BETWEEN && Fits(fields, [Someone, Someone, Anything]))
    || (op in SERVER_FLAG && Fits(fields, [Someone, Exactly(8), Someone, Anything]))
    || (op == Op('t', 'f') && Fits(fields, [Someone, Someone, Exactly(8), Someone, Anything]))
    || (op in STAMPED && Fits(fields, [Exactly(4), Someone, Anything]))
    || (op == Op('g', 'm') && Fits(fields, [Someone, Exactly(32), Someone, Anything]))
    || (op in SERVER_PLAIN && Fits(fields, [Anything]))
    || (op == Op('f', 'u') && fields != [] && Fits(fields[..1], [Exactly(2)])
        && IsFlagList(fields[1..], fields[0].bytes[0] as int * 256 + fields[0].bytes[1]))
    || (op in {Op('h', 'c'), Op('s', 'c'), Op('p', 'b')} && fields != [] && Fits(fields[..1], [Exactly(1)])
        && IsPlayerList(fields[1..], if op == Op('h', 'c') then 2 else if op == Op('s', 'c') then 6 else 1,
                        fields[0].bytes[0]))
    || (op == Op('a', 'i') && fields != [] && Fits(fields[..1], [Exactly(1)])
        && IsAddressList(fields[1..], fields[0].bytes[0]))
  }

  predicate IsFromClient(op: Opcode, fields: seq<Field>) {
    || (op in CLIENT_ABOUT && Fits(fields, [Someone, Anything]))
    || (op == Op('t', 'f') && Fits(fields, [Someone, Someone, Anything]))
    || (op in STAMPED && Fits(fields, [Exactly(4), Someone, Anything]))
    || (op == Op('g', 'm') && Fits(fields, [Someone, Exactly(32), Someone, Anything]))
    || (op in CLIENT_PLAIN && Fits(fields, [Anything]))
  }

  predicate IsMessage(op: Opcode, fields: seq<Field>, fromServer: bool) {
    if fromServer then IsFromServer(op, fields) else IsFromClient(op, fields)
  }

  /** Length, letters, fields. */
  function Encoded(op: Opcode, fields: seq<Field>): Packet
    requires op.first as int < 256 && op.second as int < 256
  {
    var n := |Bytes(fields)|;
    [n / 256 % 256, n % 256, op.first as int, op.second as int] + Bytes(fields)
  }

  // -- Opcodes ------------------------------------------------------------------------------------

  /** How the fields of an opcode are laid out. */
  function Grammar(op: Opcode, fromServer: bool): Layout {
    if fromServer then
      if op in SERVER_ABOUT then Fixed([0])
      else if op in SERVER_BETWEEN then Fixed([0, 1])
      else if op in SERVER_FLAG then Fixed([0, 9])
      else if op == Op('t', 'f') then Fixed([0, 1, 10])
      else if op in STAMPED then Fixed([4])
      else if op == Op('g', 'm') then Fixed([0, 33])
      else if op in SERVER_PLAIN then Fixed([])
      else if op == Op('f', 'u') then FlagList
      else if op == Op('h', 'c') then PlayerList(3)
      else if op == Op('s', 'c') then PlayerList(7)
      else if op == Op('p', 'b') then PlayerList(2)
      else if op == Op('a', 'i') then AddressList
      else Unsupported
    else if op in CLIENT_ABOUT then Fixed([0])
    else if op == Op('t', 'f') then Fixed([0, 1])
    else if op in STAMPED then Fixed([4])
    else if op == Op('g', 'm') then Fixed([0, 33])
    else if op in CLIENT_PLAIN then Fixed([])
    else Unsupported
  }

  lemma ServerCodes(op: Opcode)
    requires op.first as int < 256 && op.second as int < 256
    ensures op in SERVER_ABOUT <==>
            Code(op) in {ACCEPT, SCORE_OVER, ADD_PLAYER, REMOVE_PLAYER, ALIVE, AUTO_PILOT, PAUSE, CAPTURE_FLAG,
                         NEW_RABBIT, SHOT_END, TELEPORT}
    ensures op in SERVER_BETWEEN <==> Code(op) in {KILLED, MESSAGE}
    ensures op in SERVER_FLAG <==> Code(op) in {GRAB_FLAG, DROP_FLAG}
    ensures Code(op) == TRANSFER_FLAG <==> op == Op('t', 'f')
    ensures Code(op) == FLAG_UPDATE <==> op == Op('f', 'u')
    ensures Code(op) == HANDICAP <==> op == Op('h', 'c')
    ensures Code(op) == SCORE <==> op == Op('s', 'c')
    ensures Code(op) == PLAYER_INFO <==> op == Op('p', 'b')
    ensures Code(op) == ADMIN_INFO <==> op == Op('a', 'i')
  {
  }

  lemma SharedCodes(op: Opcode)
    requires op.first as int < 256 && op.second as int < 256
    ensures op in STAMPED <==> Code(op) in {PLAYER_UPDATE, PLAYER_UPDATE_SMALL, SHOT_BEGIN}
    ensures Code(op) == GM_UPDATE <==> op == Op('g', 'm')
    ensures Code(op) == TRANSFER_FLAG <==> op == Op('t', 'f')
  {
  }

  lemma PlainServerCodes(op: Opcode)
    requires op.first as int < 256 && op.second as int < 256
    ensures op in SERVER_PLAIN <==>
            Code(op) in {CUSTOM_SOUND, CACHE_URL, FLAG_TYPE, FETCH_RESOURCES, GET_WORLD, GAME_SETTINGS, GAME_TIME,
                         NEAR_FLAG, NEGOTIATE_FLAGS, QUERY_GAME, QUERY_PLAYERS, REJECT, SUPER_KILL, SET_VAR,
                         TIME_UPDATE, TEAM_UPDATE, WANT_WORLD_HASH, UDP_LINK_REQUEST, UDP_LINK_ESTABLISHED, LAG_PING}
  {
  }

  lemma ClientCodes(op: Opcode)
    requires op.first as int < 256 && op.second as int < 256
    ensures op in CLIENT_ABOUT <==> Code(op) in {KILLED, SHOT_END, MESSAGE, UDP_LINK_REQUEST}
    ensures op in CLIENT_PLAIN <==>
            Code(op) in {ENTER, EXIT, NEGOTIATE_FLAGS, GET_WORLD, WANT_SETTINGS, WANT_WORLD_HASH, QUERY_GAME,
                         QUERY_PLAYERS, ALIVE, GRAB_FLAG, DROP_FLAG, CAPTURE_FLAG, TELEPORT, UDP_LINK_ESTABLISHED,
                         NEW_RABBIT, PAUSE, AUTO_PILOT, LAG_PING}
  {
  }

  /** The relay's numbers and the protocol's letters name the same layouts. */
  lemma CodesAreLetters(op: Opcode, fromServer: bool)
    requires op.first as int < 256 && op.second as int < 256
    ensures LayoutOf(Code(op), fromServer) == Grammar(op, fromServer)
  {
    hide Code;
    SharedCodes(op);
    if fromServer {
      ServerCodes(op);
      PlainServerCodes(op);
    } else {
      ClientCodes(op);
    }
  }

  // -- Encoded messages are accepted --------------------------------------------------------------

  /** The bytes have the structure of the layout, and players where it says. */
  ghost predicate Agrees(fields: seq<Field>, layout: Layout) {
    Shaped(Bytes(fields), layout) && forall k :: IsId(Bytes(fields), layout, k) <==> PlayerAt(fields, k)
  }

  lemma ThenPlayer(id: Byte, rest: seq<Field>)
    ensures Bytes([Player(id)] + rest) == [id] + Bytes(rest)
    ensures forall k :: PlayerAt([Player(id)] + rest, k) <==> k == 0 || PlayerAt(rest, k - 1)
  {
    assert ([Player(id)] + rest)[1..] == rest;
  }

  lemma ThenData(bytes: Packet, rest: seq<Field>)
    ensures Bytes([Data(bytes)] + rest) == bytes + Bytes(rest)
    ensures forall k :: PlayerAt([Data(bytes)] + rest, k) <==> k >= |bytes| && PlayerAt(rest, k - |bytes|)
  {
    assert ([Data(bytes)] + rest)[1..] == rest;
  }

  /** Only data: no players. */
  lemma OnlyData(bytes: Packet)
    ensures Bytes([Data(bytes)]) == bytes && forall k :: !PlayerAt([Data(bytes)], k)
  {
    assert [Data(bytes)][1..] == [];
  }

  /** The players are exactly at the given offsets. */
  ghost predicate PlayersAre(fields: seq<Field>, offsets: set<int>) {
    forall k :: PlayerAt(fields, k) <==> k in offsets
  }

  lemma About(id: Byte, bytes: Packet)
    ensures var f := [Player(id)] + [Data(bytes)]; Bytes(f) == [id] + bytes && PlayersAre(f, {0})
  {
    hide PlayerAt, Bytes;
    OnlyData(bytes);
    ThenPlayer(id, [Data(bytes)]);
  }

  lemma Stamped(time: Packet, id: Byte, bytes: Packet)
    ensures var f := [Data(time)] + ([Player(id)] + [Data(bytes)]);
      Bytes(f) == time + ([id] + bytes) && PlayersAre(f, {|time|})
  {
    hide PlayerAt, Bytes;
    About(id, bytes);
    ThenData(time, [Player(id)] + [Data(bytes)]);
  }

  lemma Between(a: Byte, b: Byte, bytes: Packet)
    ensures var f := [Player(a)] + ([Player(b)] + [Data(bytes)]);
      Bytes(f) == [a] + ([b] + bytes) && PlayersAre(f, {0, 1})
  {
    hide PlayerAt, Bytes;
    About(b, bytes);
    ThenPlayer(a, [Player(b)] + [Data(bytes)]);
  }

  lemma Holding(a: Byte, middle: Packet, b: Byte, bytes: Packet)
    ensures var f := [Player(a)] + ([Data(middle)] + ([Player(b)] + [Data(bytes)]));
      Bytes(f) == [a] + (middle + ([b] + bytes)) && PlayersAre(f, {0, |middle| + 1})
  {
    hide PlayerAt, Bytes;
    Stamped(middle, b, bytes);
    ThenPlayer(a, [Data(middle)] + ([Player(b)] + [Data(bytes)]));
  }

  lemma Passing(a: Byte, b: Byte, middle: Packet, c: Byte, bytes: Packet)
    ensures var f := [Player(a)] + ([Player(b)] + ([Data(middle)] + ([Player(c)] + [Data(bytes)])));
      Bytes(f) == [a] + ([b] + (middle + ([c] + bytes))) && PlayersAre(f, {0, 1, |middle| + 2})
  {
    hide PlayerAt, Bytes;
    Holding(b, middle, c, bytes);
    ThenPlayer(a, [Player(b)] + ([Data(middle)] + ([Player(c)] + [Data(bytes)])));
  }

  lemma PlayersAgree(fields: seq<Field>, offsets: seq<nat>, players: set<int>)
    requires PlayersAre(fields, players) && forall o: int :: o in offsets <==> o in players
    ensures Agrees(fields, Fixed(offsets))
  {
    forall o | o in offsets ensures o < |Bytes(fields)| {
      assert PlayerAt(fields, o);
      PlayerIsInside(fields, o);
    }
    forall k ensures IsId(Bytes(fields), Fixed(offsets), k) <==> PlayerAt(fields, k) {
      if PlayerAt(fields, k) { PlayerIsInside(fields, k); }
    }
  }

  lemma AboutAgrees(fields: seq<Field>)
    requires Fits(fields, [Someone, Anything])
    ensures Agrees(fields, Fixed([0]))
  {
    hide PlayerAt, Bytes, Agrees;
    About(fields[0].id, fields[1].bytes);
    assert fields == [Player(fields[0].id)] + [Data(fields[1].bytes)];
    PlayersAgree(fields, [0], {0});
  }

  lemma StampedAgrees(fields: seq<Field>)
    requires Fits(fields, [Exactly(4), Someone, Anything])
    ensures Agrees(fields, Fixed([4]))
  {
    hide PlayerAt, Bytes, Agrees;
    Stamped(fields[0].bytes, fields[1].id, fields[2].bytes);
    assert fields == [Data(fields[0].bytes)] + ([Player(fields[1].id)] + [Data(fields[2].bytes)]);
    PlayersAgree(fields, [4], {4});
  }

  lemma BetweenAgrees(fields: seq<Field>)
    requires Fits(fields, [Someone, Someone, Anything])
    ensures Agrees(fields, Fixed([0, 1]))
  {
    hide PlayerAt, Bytes, Agrees;
    Between(fields[0].id, fields[1].id, fields[2].bytes);
    assert fields == [Player(fields[0].id)] + ([Player(fields[1].id)] + [Data(fields[2].bytes)]);
    PlayersAgree(fields, [0, 1], {0, 1});
  }

  lemma HoldingAgrees(fields: seq<Field>, n: nat)
    requires Fits(fields, [Someone, Exactly(n), Someone, Anything])
    ensures Agrees(fields, Fixed([0, n + 1]))
  {
    hide PlayerAt, Bytes, Agrees;
    Holding(fields[0].id, fields[1].bytes, fields[2].id, fields[3].bytes);
    assert fields == [Player(fields[0].id)]
                     + ([Data(fields[1].bytes)] + ([Player(fields[2].id)] + [Data(fields[3].bytes)]));
    PlayersAgree(fields, [0, n + 1], {0, n + 1});
  }

  lemma PassingAgrees(fields: seq<Field>)
    requires Fits(fields, [Someone, Someone, Exactly(8), Someone, Anything])
    ensures Agrees(fields, Fixed([0, 1, 10]))
  {
    hide PlayerAt, Bytes, Agrees;
    Passing(fields[0].id, fields[1].id, fields[2].bytes, fields[3].id, fields[4].bytes);
    assert fields == [Player(fields[0].id)] + ([Player(fields[1].id)]
                     + ([Data(fields[2].bytes)] + ([Player(fields[3].id)] + [Data(fields[4].bytes)])));
    PlayersAgree(fields, [0, 1, 10], {0, 1, 10});
  }

  lemma PlainAgrees(fields: seq<Field>)
    requires Fits(fields, [Anything])
    ensures Agrees(fields, Fixed([]))
  {
    hide PlayerAt, Bytes, Agrees;
    OnlyData(fields[0].bytes);
    assert fields == [Data(fields[0].bytes)];
    PlayersAgree(fields, [], {});
  }

  // -- Lists --------------------------------------------------------------------------------------

  /** One flag in front of the others. */
  lemma ThenFlag(fields: seq<Field>, count: nat)
    requires count > 0 && IsFlagList(fields, count)
    ensures |Bytes(fields)| == 57 + |Bytes(fields[3..])|
    ensures forall k :: PlayerAt(fields, k) <==> k == 8 || (k >= 57 && PlayerAt(fields[3..], k - 57))
  {
    hide PlayerAt, Bytes;
    var head, rest := fields[..3], fields[3..];
    var inner := [Player(fields[1].id)] + ([Data(fields[2].bytes)] + rest);
    ThenData(fields[2].bytes, rest);
    ThenPlayer(fields[1].id, [Data(fields[2].bytes)] + rest);
    ThenData(fields[0].bytes, inner);
    assert head[0] == fields[0] && head[1] == fields[1] && head[2] == fields[2];
    assert fields == [Data(fields[0].bytes)] + inner;
  }

  lemma {:induction false} FlagsAgree(fields: seq<Field>, count: nat)
    requires IsFlagList(fields, count)
    ensures |Bytes(fields)| == 57 * count
    ensures forall k :: PlayerAt(fields, k) <==> 0 <= k < 57 * count && k % 57 == 8
  {
    hide PlayerAt, Bytes;
    if count == 0 {
      NoFields(fields);
    } else {
      ThenFlag(fields, count);
      FlagsAgree(fields[3..], count - 1);
      forall k ensures PlayerAt(fields, k) <==> 0 <= k < 57 * count && k % 57 == 8 {
        assert PlayerAt(fields[3..], k - 57) <==> 0 <= k - 57 < 57 * (count - 1) && (k - 57) % 57 == 8;
        assert k >= 57 ==> (k - 57) % 57 == k % 57;
      }
    }
  }

  lemma NoFields(fields: seq<Field>)
    requires fields == []
    ensures Bytes(fields) == [] && forall k :: !PlayerAt(fields, k)
  {
  }

  lemma ThenListed(fields: seq<Field>, size: nat, count: nat)
    requires count > 0 && IsPlayerList(fields, size, count)
    ensures |Bytes(fields)| == size + 1 + |Bytes(fields[2..])|
    ensures forall k :: PlayerAt(fields, k) <==> k == 0 || (k >= size + 1 && PlayerAt(fields[2..], k - size - 1))
  {
    hide PlayerAt, Bytes;
    var head, rest := fields[..2], fields[2..];
    ThenData(fields[1].bytes, rest);
    ThenPlayer(fields[0].id, [Data(fields[1].bytes)] + rest);
    assert head[0] == fields[0] && head[1] == fields[1];
    assert fields == [Player(fields[0].id)] + ([Data(fields[1].bytes)] + rest);
  }

  lemma {:induction false} PlayersListed(fields: seq<Field>, size: nat, count: nat)
    requires IsPlayerList(fields, size, count) && size in {1, 2, 6}
    ensures |Bytes(fields)| == (size + 1) * count
    ensures forall k :: PlayerAt(fields, k) <==> 0 <= k < (size + 1) * count && k % (size + 1) == 0
  {
    hide PlayerAt, Bytes;
    if count == 0 {
      NoFields(fields);
    } else {
      ThenListed(fields, size, count);
      PlayersListed(fields[2..], size, count - 1);
      var n := size + 1;
      assert n * count == n * (count - 1) + n;
      forall k ensures PlayerAt(fields, k) <==> 0 <= k < n * count && k % n == 0 {
        assert PlayerAt(fields[2..], k - n) <==> 0 <= k - n < n * (count - 1) && (k - n) % n == 0;
        OneLess(k, size);
      }
    }
  }

  lemma OneLess(k: int, size: nat)
    requires size in {1, 2, 6}
    ensures (k - size - 1) % (size + 1) == k % (size + 1) && (0 < k < size + 1 ==> k % (size + 1) != 0)
  {
    if size == 1 {
    } else if size == 2 {
    } else {
      assert size == 6;
    }
  }

  lemma {:induction false} AddressesAgree(fields: seq<Field>, before: Packet, count: nat)
    requires IsAddressList(fields, count)
    ensures RecordsFill(before + Bytes(fields), |before|, count)
    ensures forall k :: PlayerAt(fields, k) <==> RecordAt(before + Bytes(fields), |before|, count, k + |before| - 1)
    decreases count
  {
    hide PlayerAt, Bytes;
    if count == 0 {
      NoFields(fields);
    } else {
      var size, id, bytes, rest := fields[0].bytes, fields[1].id, fields[2].bytes, fields[3..];
      assert fields[1..3][0] == fields[1] && fields[1..3][1] == fields[2];
      var inner := [Player(id)] + ([Data(bytes)] + rest);
      ThenData(bytes, rest);
      ThenPlayer(id, [Data(bytes)] + rest);
      ThenData(size, inner);
      assert fields == [Data(size)] + inner;
      var next := before + size + [id] + bytes;
      AddressesAgree(rest, next, count - 1);
      assert before + Bytes(fields) == next + Bytes(rest);
      var p := before + Bytes(fields);
      assert p[|before|] == size[0] && |next| == |before| + 2 + p[|before|];
      forall k ensures PlayerAt(fields, k) <==> RecordAt(p, |before|, count, k + |before| - 1) {
        if k > 1 + |bytes| {
        } else {
          NothingBefore(rest, k - 2 - |bytes|);
          RecordsStartAfter(p, |next|, count - 1, k + |before| - 1) ;
        }
      }
    }
  }

  lemma NothingBefore(fields: seq<Field>, k: int)
    requires k < 0
    ensures !PlayerAt(fields, k)
  {
    if PlayerAt(fields, k) {
      PlayerIsInside(fields, k);
    }
  }

  lemma FlagListAgrees(count: Packet, flags: seq<Field>)
    requires |count| == 2 && IsFlagList(flags, count[0] as int * 256 + count[1])
    ensures Agrees([Data(count)] + flags, FlagList)
  {
    hide PlayerAt, Bytes, IsFlagList;
    FlagsAgree(flags, count[0] as int * 256 + count[1]);
    ThenData(count, flags);
  }

  lemma PlayerListAgrees(count: Packet, players: seq<Field>, size: nat)
    requires |count| == 1 && IsPlayerList(players, size, count[0]) && size in {1, 2, 6}
    ensures Agrees([Data(count)] + players, PlayerList(size + 1))
  {
    hide PlayerAt, Bytes, IsPlayerList;
    PlayersListed(players, size, count[0]);
    ThenData(count, players);
  }

  lemma AddressListAgrees(count: Packet, addresses: seq<Field>)
    requires |count| == 1 && IsAddressList(addresses, count[0])
    ensures Agrees([Data(count)] + addresses, AddressList)
  {
    hide PlayerAt, Bytes, IsAddressList, RecordAt, RecordsFill;
    AddressesAgree(addresses, count, count[0]);
    ThenData(count, addresses);
    var fields := [Data(count)] + addresses;
    var p := Bytes(fields);
    forall k ensures IsId(p, AddressList, k) <==> PlayerAt(fields, k) {
      assert PlayerAt(fields, k) <==> k >= 1 && PlayerAt(addresses, k - 1);
      if k < 2 {
        if k == 1 && PlayerAt(addresses, 0) { RecordsStartAfter(p, 1, p[0], 0); }
      } else if PlayerAt(addresses, k - 1) {
        PlayerIsInside(addresses, k - 1);
      }
    }
  }

  lemma ServerMessageAgrees(op: Opcode, fields: seq<Field>)
    requires IsFromServer(op, fields)
    ensures Agrees(fields, Grammar(op, true))
  {
    hide PlayerAt, Bytes, Agrees, Fits, IsFlagList, IsPlayerList, IsAddressList;
    if op in SERVER_ABOUT {
      AboutAgrees(fields);
    } else if op in SERVER_BETWEEN {
      BetweenAgrees(fields);
    } else if op in SERVER_FLAG {
      HoldingAgrees(fields, 8);
    } else if op == Op('t', 'f') {
      PassingAgrees(fields);
    } else if op in STAMPED {
      StampedAgrees(fields);
    } else if op == Op('g', 'm') {
      HoldingAgrees(fields, 32);
    } else if op in SERVER_PLAIN {
      PlainAgrees(fields);
    } else {
      ListAgrees(op, fields);
    }
  }

  lemma ListAgrees(op: Opcode, fields: seq<Field>)
    requires IsFromServer(op, fields) && op in {Op('f', 'u'), Op('h', 'c'), Op('s', 'c'), Op('p', 'b'), Op('a', 'i')}
    ensures Agrees(fields, Grammar(op, true))
  {
    hide PlayerAt, Bytes, Agrees, IsFlagList, IsPlayerList, IsAddressList;
    var count, rest := fields[0], fields[1..];
    assert fields[..1][0] == count && fields == [Data(count.bytes)] + rest;
    if op == Op('f', 'u') {
      FlagListAgrees(count.bytes, rest);
    } else if op == Op('a', 'i') {
      AddressListAgrees(count.bytes, rest);
    } else {
      PlayerListAgrees(count.bytes, rest, if op == Op('h', 'c') then 2 else if op == Op('s', 'c') then 6 else 1);
    }
  }

  lemma ClientMessageAgrees(op: Opcode, fields: seq<Field>)
    requires IsFromClient(op, fields)
    ensures Agrees(fields, Grammar(op, false))
  {
    hide PlayerAt, Bytes, Agrees, Fits;
    if op in CLIENT_ABOUT {
      AboutAgrees(fields);
    } else if op == Op('t', 'f') {
      BetweenAgrees(fields);
    } else if op in STAMPED {
      StampedAgrees(fields);
    } else if op == Op('g', 'm') {
      HoldingAgrees(fields, 32);
    } else {
      PlainAgrees(fields);
    }
  }

  /** A message whose length fits the length field and the relay's limit. */
  predicate IsSendable(op: Opcode, fields: seq<Field>, fromServer: bool) {
    && op.first as int < 256 && op.second as int < 256
    && IsMessage(op, fields, fromServer) && |Bytes(fields)| <= 1020
  }

  lemma EncodedIsFramed(op: Opcode, fields: seq<Field>)
    requires op.first as int < 256 && op.second as int < 256 && |Bytes(fields)| <= 1020
    ensures var m := Encoded(op, fields); Framed(m) && Short(m, 2) == Code(op) && m[4..] == Bytes(fields)
  {
  }

  /** An encoded message is accepted, and its IDs are its players. */
  lemma EncodedIsAccepted(op: Opcode, fields: seq<Field>, fromServer: bool)
    requires IsSendable(op, fields, fromServer)
    ensures var m := Encoded(op, fields);
      && Acceptable(m, fromServer)
      && forall k :: IsIdIn(m, fromServer, k) <==> PlayerAt(fields, k - 4)
  {
    hide IsFromServer, IsFromClient, PlayerAt, Bytes, Encoded, Grammar, LayoutOf, Shaped, IsId, Framed, Code;
    EncodedIsFramed(op, fields);
    CodesAreLetters(op, fromServer);
    if fromServer {
      ServerMessageAgrees(op, fields);
    } else {
      ClientMessageAgrees(op, fields);
    }
    var m := Encoded(op, fields);
    forall k ensures IsIdIn(m, fromServer, k) <==> PlayerAt(fields, k - 4) {
      assert IsId(Bytes(fields), Grammar(op, fromServer), k - 4) <==> PlayerAt(fields, k - 4);
      if PlayerAt(fields, k - 4) { PlayerIsInside(fields, k - 4); }
    }
  }

  /** The relay's translation of a message is the message with the two players exchanged. */
  lemma TranslationExchangesPlayers(op: Opcode, fields: seq<Field>, virtual: Byte, actual: Byte, fromServer: bool)
    requires IsSendable(op, fields, fromServer)
    ensures Acceptable(Encoded(op, fields), fromServer)
    ensures Translated(Encoded(op, fields), virtual, actual, fromServer)
         == Encoded(op, Swapped(fields, virtual, actual))
  {
    hide IsFromServer, IsFromClient, PlayerAt, Bytes, Swapped, IsIdIn, Acceptable;
    EncodedIsAccepted(op, fields, fromServer);
    SwappedBytes(fields, virtual, actual);
    var m, r := Encoded(op, fields), Encoded(op, Swapped(fields, virtual, actual));
    forall k | 0 <= k < |m| ensures r[k] == Translated(m, virtual, actual, fromServer)[k] {
      assert IsIdIn(m, fromServer, k) <==> PlayerAt(fields, k - 4);
      if k < 4 {
        if PlayerAt(fields, k - 4) { PlayerIsInside(fields, k - 4); }
      } else {
        assert m[k] == Bytes(fields)[k - 4] && r[k] == Bytes(Swapped(fields, virtual, actual))[k - 4];
      }
    }
  }

  // -- Accepted messages are encoded --------------------------------------------------------------

  lemma {:induction false} ParseFlags(p: Packet, count: nat) returns (fields: seq<Field>)
    requires |p| == 57 * count
    ensures IsFlagList(fields, count) && Bytes(fields) == p
  {
    hide Bytes;
    if count == 0 {
      fields := [];
      NoFields(fields);
    } else {
      var rest := ParseFlags(p[57..], count - 1);
      var inner := [Player(p[8])] + ([Data(p[9..57])] + rest);
      fields := [Data(p[..8])] + inner;
      ThenData(p[9..57], rest);
      ThenPlayer(p[8], [Data(p[9..57])] + rest);
      ThenData(p[..8], inner);
      assert fields[..3] == [Data(p[..8]), Player(p[8]), Data(p[9..57])] && fields[3..] == rest;
      assert p == p[..8] + ([p[8]] + (p[9..57] + p[57..]));
    }
  }

  lemma {:induction false} ParsePlayers(p: Packet, size: nat, count: nat) returns (fields: seq<Field>)
    requires size in {1, 2, 6} && |p| == (size + 1) * count
    ensures IsPlayerList(fields, size, count) && Bytes(fields) == p
  {
    hide Bytes;
    if count == 0 {
      fields := [];
      NoFields(fields);
    } else {
      assert (size + 1) * count == (size + 1) * (count - 1) + size + 1;
      var rest := ParsePlayers(p[size + 1..], size, count - 1);
      fields := [Player(p[0])] + ([Data(p[1..size + 1])] + rest);
      ThenData(p[1..size + 1], rest);
      ThenPlayer(p[0], [Data(p[1..size + 1])] + rest);
      assert fields[..2] == [Player(p[0]), Data(p[1..size + 1])] && fields[2..] == rest;
      assert p == [p[0]] + (p[1..size + 1] + p[size + 1..]);
    }
  }

  lemma {:induction false} ParseAddresses(p: Packet, i: nat, count: nat) returns (fields: seq<Field>)
    requires RecordsFill(p, i, count) && i <= |p|
    ensures IsAddressList(fields, count) && Bytes(fields) == p[i..]
    decreases count
  {
    hide Bytes;
    if count == 0 {
      fields := [];
      NoFields(fields);
    } else {
      var next := i + 2 + p[i];
      var rest := ParseAddresses(p, next, count - 1);
      var inner := [Player(p[i + 1])] + ([Data(p[i + 2..next])] + rest);
      fields := [Data([p[i]])] + inner;
      ThenData(p[i + 2..next], rest);
      ThenPlayer(p[i + 1], [Data(p[i + 2..next])] + rest);
      ThenData([p[i]], inner);
      assert fields[1..3] == [Player(p[i + 1]), Data(p[i + 2..next])] && fields[3..] == rest;
      assert p[i..] == [p[i]] + ([p[i + 1]] + (p[i + 2..next] + p[next..]));
    }
  }

  lemma ParseServerList(op: Opcode, p: Packet) returns (fields: seq<Field>)
    requires op in {Op('f', 'u'), Op('h', 'c'), Op('s', 'c'), Op('p', 'b'), Op('a', 'i')}
    requires Shaped(p, Grammar(op, true))
    ensures IsFromServer(op, fields) && Bytes(fields) == p
  {
    hide Bytes, IsFlagList, IsPlayerList, IsAddressList, RecordsFill;
    if op == Op('f', 'u') {
      var rest := ParseFlags(p[2..], Short(p, 0));
      fields := [Data(p[..2])] + rest;
      ThenData(p[..2], rest);
      assert fields[..1] == [Data(p[..2])] && fields[1..] == rest;
      assert p == p[..2] + p[2..];
    } else {
      var rest: seq<Field>;
      if op == Op('a', 'i') {
        rest := ParseAddresses(p, 1, p[0]);
      } else {
        var size := if op == Op('h', 'c') then 2 else if op == Op('s', 'c') then 6 else 1;
        rest := ParsePlayers(p[1..], size, p[0]);
      }
      fields := [Data(p[..1])] + rest;
      ThenData(p[..1], rest);
      assert fields[..1] == [Data(p[..1])] && fields[1..] == rest;
      assert p == p[..1] + p[1..];
    }
  }

  lemma ParseOne(p: Packet, at: nat) returns (fields: seq<Field>)
    requires at < |p|
    ensures Bytes(fields) == p
    ensures if at == 0 then Fits(fields, [Someone, Anything]) else Fits(fields, [Exactly(at), Someone, Anything])
  {
    hide Bytes, PlayerAt;
    if at == 0 {
      fields := [Player(p[0])] + [Data(p[1..])];
      About(p[0], p[1..]);
      assert p == [p[0]] + p[1..];
    } else {
      fields := [Data(p[..at])] + ([Player(p[at])] + [Data(p[at + 1..])]);
      Stamped(p[..at], p[at], p[at + 1..]);
      assert p == p[..at] + ([p[at]] + p[at + 1..]);
    }
  }

  lemma ParseTwo(p: Packet, at: nat) returns (fields: seq<Field>)
    requires 0 < at < |p|
    ensures Bytes(fields) == p
    ensures if at == 1 then Fits(fields, [Someone, Someone, Anything])
            else Fits(fields, [Someone, Exactly(at - 1), Someone, Anything])
  {
    hide Bytes, PlayerAt;
    var rest := p[1..];
    assert p == [p[0]] + rest;
    if at == 1 {
      fields := [Player(p[0])] + ([Player(p[1])] + [Data(p[2..])]);
      Between(p[0], p[1], p[2..]);
      assert rest == [p[1]] + p[2..];
    } else {
      fields := [Player(p[0])] + ([Data(p[1..at])] + ([Player(p[at])] + [Data(p[at + 1..])]));
      Holding(p[0], p[1..at], p[at], p[at + 1..]);
      assert rest == p[1..at] + ([p[at]] + p[at + 1..]);
    }
  }

  lemma ParseThree(p: Packet) returns (fields: seq<Field>)
    requires |p| > 10
    ensures Bytes(fields) == p && Fits(fields, [Someone, Someone, Exactly(8), Someone, Anything])
  {
    hide Bytes, PlayerAt;
    fields := [Player(p[0])] + ([Player(p[1])] + ([Data(p[2..10])] + ([Player(p[10])] + [Data(p[11..])])));
    Passing(p[0], p[1], p[2..10], p[10], p[11..]);
    assert p == [p[0]] + ([p[1]] + (p[2..10] + ([p[10]] + p[11..])));
  }

  lemma ParseNone(p: Packet) returns (fields: seq<Field>)
    ensures Bytes(fields) == p && Fits(fields, [Anything])
  {
    fields := [Data(p)];
    OnlyData(p);
  }

  lemma OffsetsFit(p: Packet, layout: Layout)
    requires Shaped(p, layout) && layout.Fixed? && 0 < |layout.offsets| <= 3
    ensures layout.offsets[0] < |p|
    ensures |layout.offsets| > 1 ==> layout.offsets[1] < |p|
    ensures |layout.offsets| > 2 ==> layout.offsets[2] < |p|
  {
    assert forall k | 0 <= k < |layout.offsets| :: layout.offsets[k] in layout.offsets;
  }

  lemma ParseServer(op: Opcode, p: Packet) returns (fields: seq<Field>)
    requires Shaped(p, Grammar(op, true))
    ensures IsFromServer(op, fields) && Bytes(fields) == p
  {
    hide Bytes, Fits, IsFlagList, IsPlayerList, IsAddressList, RecordsFill;
    if Grammar(op, true).Fixed? && Grammar(op, true) != Fixed([]) {
      OffsetsFit(p, Grammar(op, true));
    }
    if op in SERVER_ABOUT {
      fields := ParseOne(p, 0);
    } else if op in SERVER_BETWEEN {
      fields := ParseTwo(p, 1);
    } else if op in SERVER_FLAG {
      fields := ParseTwo(p, 9);
    } else if op == Op('t', 'f') {
      fields := ParseThree(p);
    } else if op in STAMPED {
      fields := ParseOne(p, 4);
    } else if op == Op('g', 'm') {
      fields := ParseTwo(p, 33);
    } else if op in SERVER_PLAIN {
      fields := ParseNone(p);
    } else {
      fields := ParseServerList(op, p);
    }
  }

  lemma ParseClient(op: Opcode, p: Packet) returns (fields: seq<Field>)
    requires Shaped(p, Grammar(op, false))
    ensures IsFromClient(op, fields) && Bytes(fields) == p
  {
    hide Bytes, Fits;
    if Grammar(op, false) != Fixed([]) {
      OffsetsFit(p, Grammar(op, false));
    }
    if op in CLIENT_ABOUT {
      fields := ParseOne(p, 0);
    } else if op == Op('t', 'f') {
      fields := ParseTwo(p, 1);
    } else if op in STAMPED {
      fields := ParseOne(p, 4);
    } else if op == Op('g', 'm') {
      fields := ParseTwo(p, 33);
    } else {
      fields := ParseNone(p);
    }
  }

  /** The relay accepts exactly the messages of the protocol it knows, up to 1024 bytes. */
  lemma AcceptedExactlyMessages(m: Packet, fromServer: bool)
    ensures Acceptable(m, fromServer)
       <==> exists op, fields :: IsSendable(op, fields, fromServer) && Encoded(op, fields) == m
  {
    hide IsFromServer, IsFromClient, Bytes, Grammar, LayoutOf, Shaped, IsIdIn;
    if Acceptable(m, fromServer) {
      var op := Op(m[2] as char, m[3] as char);
      CodesAreLetters(op, fromServer);
      var fields;
      if fromServer {
        fields := ParseServer(op, m[4..]);
      } else {
        fields := ParseClient(op, m[4..]);
      }
      assert Encoded(op, fields) == m[..4] + m[4..] == m;
      assert IsSendable(op, fields, fromServer);
    }
    forall op, fields | IsSendable(op, fields, fromServer) && Encoded(op, fields) == m
      ensures Acceptable(m, fromServer)
    {
      EncodedIsAccepted(op, fields, fromServer);
    }
  }
}
