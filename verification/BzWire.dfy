/** BZFlag messages: where each carries player IDs, and the in-place exchange of two of them. */
module BzWire {
  import opened FleetState
  import opened Octets

  // -- Opcodes of protocol 0221 -------------------------------------------------------------------

  const ACCEPT := 0x6163
  const ADD_PLAYER := 0x6170
  const ADMIN_INFO := 0x6169
  const ALIVE := 0x616c
  const AUTO_PILOT := 0x6175
  const CACHE_URL := 0x6375
  const CAPTURE_FLAG := 0x6366
  const CUSTOM_SOUND := 0x6373
  const DROP_FLAG := 0x6466
  const ENTER := 0x656e
  const EXIT := 0x6578
  const FETCH_RESOURCES := 0x6672
  const FLAG_TYPE := 0x6674
  const FLAG_UPDATE := 0x6675
  const GM_UPDATE := 0x676d
  const GAME_SETTINGS := 0x6773
  const GAME_TIME := 0x6774
  const GET_WORLD := 0x6777
  const GRAB_FLAG := 0x6766
  const HANDICAP := 0x6863
  const KILLED := 0x6b6c
  const LAG_PING := 0x7069
  const MESSAGE := 0x6d67
  const NEAR_FLAG := 0x4e66
  const NEGOTIATE_FLAGS := 0x6e66
  const NEW_RABBIT := 0x6e52
  const PAUSE := 0x7061
  const PLAYER_INFO := 0x7062
  const PLAYER_UPDATE := 0x7075
  const PLAYER_UPDATE_SMALL := 0x7073
  const QUERY_GAME := 0x7167
  const QUERY_PLAYERS := 0x7170
  const REJECT := 0x726a
  const REMOVE_PLAYER := 0x7270
  const SCORE := 0x7363
  const SCORE_OVER := 0x736f
  const SET_VAR := 0x7376
  const SHOT_BEGIN := 0x7362
  const SHOT_END := 0x7365
  const SUPER_KILL := 0x736b
  const TEAM_UPDATE := 0x7475
  const TELEPORT := 0x7470
  const TIME_UPDATE := 0x746f
  const TRANSFER_FLAG := 0x7466
  const UDP_LINK_ESTABLISHED := 0x6f67
  const UDP_LINK_REQUEST := 0x6f66
  const WANT_SETTINGS := 0x7773
  const WANT_WORLD_HASH := 0x7768

  // -- Layouts ------------------------------------------------------------------------------------

  /** Where a message's payload carries player IDs. */
  datatype Layout = Fixed(offsets: seq<nat>) | FlagList | PlayerList(stride: nat) | AddressList | Unsupported

  const FLAG_BYTES := 57
  const OWNER_OFFSET := 8

  function ServerLayout(code: int): Layout {
    if code in {ACCEPT, SCORE_OVER, ADD_PLAYER, REMOVE_PLAYER, ALIVE, AUTO_PILOT, PAUSE, CAPTURE_FLAG, NEW_RABBIT,
                SHOT_END, TELEPORT} then Fixed([0])
    else if code in {KILLED, MESSAGE} then Fixed([0, 1])
    else if code in {GRAB_FLAG, DROP_FLAG} then Fixed([0, 9])
    else if code == TRANSFER_FLAG then Fixed([0, 1, 10])
    else if code == FLAG_UPDATE then FlagList
    else if code == HANDICAP then PlayerList(3)
    else if code == SCORE then PlayerList(7)
    else if code == PLAYER_INFO then PlayerList(2)
    else if code == ADMIN_INFO then AddressList
    else if code in {PLAYER_UPDATE, PLAYER_UPDATE_SMALL, SHOT_BEGIN} then Fixed([4])
    else if code == GM_UPDATE then Fixed([0, 33])
    else if code in {CUSTOM_SOUND, CACHE_URL, FLAG_TYPE, FETCH_RESOURCES, GET_WORLD, GAME_SETTINGS, GAME_TIME,
                     NEAR_FLAG, NEGOTIATE_FLAGS, QUERY_GAME, QUERY_PLAYERS, REJECT, SUPER_KILL, SET_VAR, TIME_UPDATE,
                     TEAM_UPDATE, WANT_WORLD_HASH, UDP_LINK_REQUEST, UDP_LINK_ESTABLISHED, LAG_PING} then Fixed([])
    else Unsupported
  }

  function ClientLayout(code: int): Layout {
    if code in {KILLED, SHOT_END, MESSAGE, UDP_LINK_REQUEST} then Fixed([0])
    else if code == TRANSFER_FLAG then Fixed([0, 1])
    else if code in {PLAYER_UPDATE, PLAYER_UPDATE_SMALL, SHOT_BEGIN} then Fixed([4])
    else if code == GM_UPDATE then Fixed([0, 33])
    else if code in {ENTER, EXIT, NEGOTIATE_FLAGS, GET_WORLD, WANT_SETTINGS, WANT_WORLD_HASH, QUERY_GAME, QUERY_PLAYERS,
                     ALIVE, GRAB_FLAG, DROP_FLAG, CAPTURE_FLAG, TELEPORT, UDP_LINK_ESTABLISHED, NEW_RABBIT, PAUSE,
                     AUTO_PILOT, LAG_PING} then Fixed([])
    else Unsupported
  }

  function LayoutOf(code: int, fromServer: bool): Layout {
    if fromServer then ServerLayout(code) else ClientLayout(code)
  }

  function Short(p: Packet, at: nat): (n: nat)
    requires at + 2 <= |p|
    ensures n < 0x1_0000
  {
    (p[at] as int) * 256 + p[at + 1]
  }

  // -- Where the IDs are --------------------------------------------------------------------------

  /** Position `k` is the start of an address record, counting `count` records from position `i`. */
  predicate RecordAt(p: Packet, i: nat, count: nat, k: int)
    decreases count
  {
    0 < count && i < |p| && (k == i || RecordAt(p, i + 2 + p[i], count - 1, k))
  }

  predicate RecordsFill(p: Packet, i: nat, count: nat)
    decreases count
  {
    if count == 0 then i == |p|
    else i < |p| && p[i] >= 2 && i + 2 + p[i] <= |p| && RecordsFill(p, i + 2 + p[i], count - 1)
  }

  /** The payload has the size and the structure its layout asks for. */
  predicate Shaped(p: Packet, layout: Layout) {
    match layout
    case Fixed(offsets) => forall o | o in offsets :: o < |p|
    case FlagList => |p| >= 2 && |p| == 2 + FLAG_BYTES * Short(p, 0)
    case PlayerList(stride) => |p| >= 1 && |p| == 1 + p[0] * stride
    case AddressList => |p| >= 1 && RecordsFill(p, 1, p[0])
    case Unsupported => false
  }

  /** Payload position `k` holds a player ID. */
  predicate IsId(p: Packet, layout: Layout, k: int) {
    && 0 <= k < |p|
    && match layout
       case Fixed(offsets) => k in offsets
       case FlagList => k >= 2 && (k - 2) % FLAG_BYTES == OWNER_OFFSET
       case PlayerList(stride) => k >= 1 && stride > 0 && (k - 1) % stride == 0
       case AddressList => k >= 2 && RecordAt(p, 1, p[0], k - 1)
       case Unsupported => false
  }

  /** A message on its own: four header bytes, and a length field that counts the rest. */
  predicate Framed(m: Packet) {
    4 <= |m| <= 1024 && Short(m, 0) + 4 == |m|
  }

  function MessageLayout(m: Packet, fromServer: bool): Layout
    requires |m| >= 4
  {
    LayoutOf(Short(m, 2), fromServer)
  }

  predicate Acceptable(m: Packet, fromServer: bool) {
    Framed(m) && Shaped(m[4..], MessageLayout(m, fromServer))
  }

  predicate IsIdIn(m: Packet, fromServer: bool, k: int) {
    4 <= k < |m| && IsId(m[4..], MessageLayout(m, fromServer), k - 4)
  }

  /** The transposition of two IDs. */
  function Exchanged(b: Byte, virtual: Byte, actual: Byte): Byte {
    if b == virtual then actual else if b == actual then virtual else b
  }

  /** The message with the transposition applied at exactly its ID positions. */
  function Translated(m: Packet, virtual: Byte, actual: Byte, fromServer: bool): (r: Packet)
    ensures |r| == |m|
  {
    seq(|m|, k requires 0 <= k < |m| => if IsIdIn(m, fromServer, k) then Exchanged(m[k], virtual, actual) else m[k])
  }

  // -- Properties ---------------------------------------------------------------------------------

  /** Two messages that differ at most in the IDs. */
  predicate SameButIds(m: Packet, r: Packet, fromServer: bool) {
    |m| == |r| && forall k | 0 <= k < |m| && !IsIdIn(m, fromServer, k) :: m[k] == r[k]
  }

  /** Records are told apart by their length bytes alone, and an ID never sits on one. */
  lemma {:induction false} RecordsIgnoreIds(p: Packet, r: Packet, i: nat, count: nat)
    requires |p| == |r| && RecordsFill(p, i, count)
    requires forall k | 0 <= k < |p| && !RecordAt(p, i, count, k - 1) && i <= k :: p[k] == r[k]
    ensures RecordsFill(r, i, count) && forall k :: RecordAt(r, i, count, k) == RecordAt(p, i, count, k)
    decreases count
  {
    if count > 0 {
      RecordsStartAfter(p, i, count, i - 1);
      assert p[i] == r[i];
      var next := i + 2 + p[i];
      forall k | 0 <= k < |p| && !RecordAt(p, next, count - 1, k - 1) && next <= k ensures p[k] == r[k] {
        assert !RecordAt(p, i, count, k - 1);
      }
      RecordsIgnoreIds(p, r, next, count - 1);
    }
  }

  lemma {:induction false} RecordsStartAfter(p: Packet, i: nat, count: nat, k: int)
    requires k < i
    ensures !RecordAt(p, i, count, k)
    decreases count
  {
    if count > 0 && i < |p| {
      RecordsStartAfter(p, i + 2 + p[i], count - 1, k);
    }
  }

  lemma PayloadIgnoresIds(p: Packet, r: Packet, layout: Layout)
    requires Shaped(p, layout) && |p| == |r|
    requires forall k | 0 <= k < |p| && !IsId(p, layout, k) :: p[k] == r[k]
    ensures Shaped(r, layout) && forall k :: IsId(r, layout, k) == IsId(p, layout, k)
  {
    match layout
    case Fixed(_) =>
    case FlagList => assert p[0] == r[0] && p[1] == r[1];
    case PlayerList(_) => assert p[0] == r[0];
    case AddressList =>
      assert p[0] == r[0];
      RecordsIgnoreIds(p, r, 1, p[0]);
  }

  /** Whether a message is accepted, and where its IDs are, does not depend on the IDs. */
  lemma AcceptanceIgnoresIds(m: Packet, r: Packet, fromServer: bool)
    requires Acceptable(m, fromServer) && SameButIds(m, r, fromServer)
    ensures Acceptable(r, fromServer) && forall k :: IsIdIn(r, fromServer, k) == IsIdIn(m, fromServer, k)
  {
    hide IsId, Shaped, ServerLayout, ClientLayout;
    assert m[0] == r[0] && m[1] == r[1] && m[2] == r[2] && m[3] == r[3];
    var layout := MessageLayout(m, fromServer);
    forall k | 0 <= k < |m| - 4 && !IsId(m[4..], layout, k) ensures m[4..][k] == r[4..][k] {
      assert !IsIdIn(m, fromServer, k + 4);
    }
    PayloadIgnoresIds(m[4..], r[4..], layout);
  }

  /** A translated message is accepted like the original, and translating it again restores it. */
  lemma TranslationIsAnInvolution(m: Packet, virtual: Byte, actual: Byte, fromServer: bool)
    requires Acceptable(m, fromServer)
    ensures var r := Translated(m, virtual, actual, fromServer);
      && Acceptable(r, fromServer) && SameButIds(m, r, fromServer)
      && Translated(r, virtual, actual, fromServer) == m
  {
    hide Acceptable, IsIdIn;
    AcceptanceIgnoresIds(m, Translated(m, virtual, actual, fromServer), fromServer);
  }

  lemma TranslationToSelf(m: Packet, virtual: Byte, fromServer: bool)
    ensures Translated(m, virtual, virtual, fromServer) == m
  {
  }

  // -- Collecting offsets -------------------------------------------------------------------------

  /** The listed offsets are exactly the ID positions, each once. */
  ghost predicate Lists(offsets: seq<nat>, p: Packet, layout: Layout) {
    && (forall i, j | 0 <= i < j < |offsets| :: offsets[i] != offsets[j])
    && forall k :: k in offsets <==> IsId(p, layout, k)
  }

  method FlagOffsets(p: Packet) returns (ok: bool, offsets: seq<nat>)
    ensures ok <==> Shaped(p, FlagList)
    ensures ok ==> Lists(offsets, p, FlagList)
  {
    offsets := [];
    if |p| < 2 || |p| != 2 + FLAG_BYTES * Short(p, 0) {
      return false, offsets;
    }
    var i := 2;
    while i < |p|
      invariant i == 2 + FLAG_BYTES * |offsets| && i <= |p|
      invariant forall j | 0 <= j < |offsets| :: offsets[j] == 2 + FLAG_BYTES * j + OWNER_OFFSET
    {
      offsets := offsets + [i + OWNER_OFFSET];
      i := i + FLAG_BYTES;
    }
    ok := true;
    forall k ensures k in offsets <==> IsId(p, FlagList, k) {
      if IsId(p, FlagList, k) {
        assert offsets[(k - 2) / FLAG_BYTES] == k;
      }
    }
  }

  lemma Scaled(a: int, d: nat)
    requires a > 0
    ensures d * a >= d
  {
  }

  lemma MultipleLeavesNothing(n: nat, d: nat)
    requires d > 0
    ensures (n * d) % d == 0
  {
    var q := (n * d) / d;
    assert d * (n - q) == (n * d) % d;
    if n > q {
      Scaled(n - q, d);
    } else if q > n {
      Scaled(q - n, d);
    }
  }

  lemma QuotientFits(k: nat, d: nat, count: nat)
    requires d > 0 && k < count * d
    ensures k / d < count
  {
    if k / d >= count {
      Ordered(count, k / d, d);
    }
  }

  lemma Ordered(a: nat, b: nat, d: nat)
    requires a <= b
    ensures a * d <= b * d
  {
  }

  lemma OrderedStrictly(a: nat, b: nat, d: nat)
    requires a < b && d > 0
    ensures a * d + d <= b * d
  {
    Ordered(a + 1, b, d);
  }

  /** The listed positions are the multiples of the stride after the count byte. */
  lemma StridesAreListed(p: Packet, stride: nat, offsets: seq<nat>)
    requires stride > 0 && Shaped(p, PlayerList(stride)) && |offsets| == p[0]
    requires forall j | 0 <= j < |offsets| :: offsets[j] == 1 + j * stride
    ensures Lists(offsets, p, PlayerList(stride))
  {
    forall i, j | 0 <= i < j < |offsets| ensures offsets[i] != offsets[j] {
      OrderedStrictly(i, j, stride);
    }
    forall k ensures k in offsets <==> IsId(p, PlayerList(stride), k) {
      if IsId(p, PlayerList(stride), k) {
        QuotientFits(k - 1, stride, p[0]);
        assert k - 1 == stride * ((k - 1) / stride);
        assert offsets[(k - 1) / stride] == k;
      }
      if k in offsets {
        var j :| 0 <= j < |offsets| && offsets[j] == k;
        MultipleLeavesNothing(j, stride);
        OrderedStrictly(j, p[0], stride);
      }
    }
  }

  method PlayerOffsets(p: Packet, stride: nat) returns (ok: bool, offsets: seq<nat>)
    requires stride > 0
    ensures ok <==> Shaped(p, PlayerList(stride))
    ensures ok ==> Lists(offsets, p, PlayerList(stride))
  {
    offsets := [];
    if |p| < 1 || |p| != 1 + p[0] * stride {
      return false, offsets;
    }
    var i := 1;
    while i < |p|
      invariant i == 1 + |offsets| * stride && |offsets| <= p[0]
      invariant forall j | 0 <= j < |offsets| :: offsets[j] == 1 + j * stride
      decreases |p| - i
    {
      if |offsets| == p[0] {
        assert false;
      }
      offsets := offsets + [i];
      i := i + stride;
    }
    if |offsets| < p[0] {
      OrderedStrictly(|offsets|, p[0], stride);
    }
    ok := true;
    StridesAreListed(p, stride, offsets);
  }

  method AddressOffsets(p: Packet) returns (ok: bool, offsets: seq<nat>)
    ensures ok <==> Shaped(p, AddressList)
    ensures ok ==> Lists(offsets, p, AddressList)
  {
    offsets := [];
    if |p| < 1 {
      return false, offsets;
    }
    var i := 1;
    var count := 0;
    while count < p[0]
      invariant 0 <= count <= p[0] && 1 <= i <= |p|
      invariant RecordsFill(p, 1, p[0]) <==> RecordsFill(p, i, p[0] - count)
      invariant forall k :: RecordAt(p, 1, p[0], k) <==> k + 1 in offsets || RecordAt(p, i, p[0] - count, k)
      invariant forall o | o in offsets :: 2 <= o < i
      invariant forall j, k | 0 <= j < k < |offsets| :: offsets[j] != offsets[k]
    {
      if i >= |p| || p[i] < 2 || i + 2 + p[i] > |p| {
        return false, offsets;
      }
      assert i + 1 !in offsets;
      offsets := offsets + [i + 1];
      i := i + 2 + p[i];
      count := count + 1;
    }
    ok := i == |p|;
    forall k ensures k in offsets <==> IsId(p, AddressList, k) {
      assert RecordAt(p, 1, p[0], k - 1) <==> k in offsets;
    }
  }

  /** The offsets a message's layout asks for, before their bounds are checked. */
  method Offsets(p: Packet, layout: Layout) returns (ok: bool, offsets: seq<nat>)
    requires layout.PlayerList? ==> layout.stride > 0
    requires layout.Fixed? ==> forall i, j | 0 <= i < j < |layout.offsets| :: layout.offsets[i] != layout.offsets[j]
    ensures Shaped(p, layout) <==> ok && forall o | o in offsets :: o < |p|
    ensures Shaped(p, layout) ==> Lists(offsets, p, layout)
  {
    match layout
    case Fixed(fixed) => ok, offsets := true, fixed;
    case FlagList => ok, offsets := FlagOffsets(p);
    case PlayerList(stride) => ok, offsets := PlayerOffsets(p, stride);
    case AddressList => ok, offsets := AddressOffsets(p);
    case Unsupported => ok, offsets := false, [];
  }

  lemma LayoutsAreSimple(code: int, fromServer: bool)
    ensures var layout := LayoutOf(code, fromServer);
      && (layout.PlayerList? ==> layout.stride > 0)
      && (layout.Fixed? ==> forall i, j | 0 <= i < j < |layout.offsets| :: layout.offsets[i] != layout.offsets[j])
  {
  }

  // -- Translation in place -----------------------------------------------------------------------

  /** Exchanges two IDs in one message of a buffer; a message that is not accepted is left as it was. */
  method Translate(packet: array<Byte>, lo: nat, hi: nat, virtual: Byte, actual: Byte, fromServer: bool)
    returns (ok: bool)
    requires lo <= hi <= packet.Length
    modifies packet
    ensures ok <==> Acceptable(old(packet[lo..hi]), fromServer)
    ensures packet[..lo] == old(packet[..lo]) && packet[hi..] == old(packet[hi..])
    ensures packet[lo..hi] == if ok then Translated(old(packet[lo..hi]), virtual, actual, fromServer)
        else old(packet[lo..hi])
  {
    if hi - lo < 4 || hi - lo > 1024 || Short(packet[lo..hi], 0) + 4 != hi - lo {
      return false;
    }
    ghost var m := packet[lo..hi];
    var code := Short(packet[lo..hi], 2);
    var p := packet[lo + 4..hi];
    assert p == m[4..];
    LayoutsAreSimple(code, fromServer);
    var offsets;
    ok, offsets := Offsets(p, LayoutOf(code, fromServer));
    if !ok {
      return;
    }
    for i := 0 to |offsets|
      invariant packet[..] == old(packet[..])
      invariant forall j | 0 <= j < i :: offsets[j] < |p|
    {
      if offsets[i] >= |p| {
        assert offsets[i] in offsets;
        return false;
      }
    }
    ghost var head := packet[..lo + 4];
    Exchange(packet, lo + 4, hi, offsets, virtual, actual);
    assert forall k | 4 <= k < |m| :: IsIdIn(m, fromServer, k) <==> k - 4 in offsets;
    forall k | 0 <= k < 4 ensures packet[lo..hi][k] == m[k] {
      assert packet[..lo + 4][lo + k] == head[lo + k];
    }
    assert packet[lo..hi][..4] == m[..4];
    assert packet[lo..hi][4..] == packet[lo + 4..hi];
    ExchangedIsTranslated(m, packet[lo..hi], offsets, virtual, actual, fromServer);
  }

  /** Exchanging the bytes at the ID positions behind the header is the whole translation. */
  lemma ExchangedIsTranslated(m: Packet, r: Packet, offsets: seq<nat>, virtual: Byte, actual: Byte, fromServer: bool)
    requires |r| == |m| >= 4 && r[..4] == m[..4]
    requires forall k | 0 <= k < |m| - 4 ::
               r[4..][k] == if k in offsets then Exchanged(m[4..][k], virtual, actual) else m[4..][k]
    requires forall k | 4 <= k < |m| :: IsIdIn(m, fromServer, k) <==> k - 4 in offsets
    ensures r == Translated(m, virtual, actual, fromServer)
  {
    forall k | 0 <= k < |m| ensures r[k] == Translated(m, virtual, actual, fromServer)[k] {
      if k >= 4 {
        assert r[k] == r[4..][k - 4];
      } else {
        assert r[k] == r[..4][k];
      }
    }
  }

  /** The second loop: every listed byte of the payload is exchanged once. */
  method Exchange(packet: array<Byte>, lo: nat, hi: nat, offsets: seq<nat>, virtual: Byte, actual: Byte)
    requires lo <= hi <= packet.Length
    requires forall o | o in offsets :: o < hi - lo
    requires forall i, j | 0 <= i < j < |offsets| :: offsets[i] != offsets[j]
    modifies packet
    ensures packet[..lo] == old(packet[..lo]) && packet[hi..] == old(packet[hi..])
    ensures forall k | 0 <= k < hi - lo ::
              packet[lo..hi][k] == if k in offsets then Exchanged(old(packet[lo..hi])[k], virtual, actual)
                                   else old(packet[lo..hi])[k]
  {
    for i := 0 to |offsets|
      invariant forall k | 0 <= k < packet.Length && !(lo <= k < hi) :: packet[k] == old(packet[k])
      invariant forall k | 0 <= k < hi - lo ::
                  packet[lo + k] == if k in offsets[..i] then Exchanged(old(packet[lo + k]), virtual, actual)
                                    else old(packet[lo + k])
    {
      assert offsets[i] in offsets;
      var at := lo + offsets[i];
      assert offsets[i] !in offsets[..i];
      if packet[at] == virtual {
        packet[at] := actual;
      } else if packet[at] == actual {
        packet[at] := virtual;
      }
      assert offsets[..i + 1] == offsets[..i] + [offsets[i]];
    }
    assert offsets[..|offsets|] == offsets;
  }
}
