/** What the wake gateway keeps under its lock: admitted clients, and starts shared by all who wait for a game. */
module Gateway {
  import opened FleetState
  import opened Octets
  import BzWire

  const MAX_SESSIONS := 64
  const SLOTS := 200
  const CLIENT_QUEUE := 8

  // -- Addresses ----------------------------------------------------------------------------------

  datatype Ip = Ip4(n: int) | Ip4In6(n: int) | Ip6(n: int)

  datatype Address = Address(ip: Ip, port: int)

  function Unmapped(ip: Ip): Ip {
    match ip
    case Ip4In6(n) => Ip4(n)
    case _ => ip
  }

  // -- Admission ----------------------------------------------------------------------------------

  /** Where a session is registered: a listener and the client's address. */
  datatype Place = Place(listener: nat, address: Address)

  /** Where a BZFlag client is registered: a listener and a player slot. */
  datatype Seat = Seat(listener: nat, slot: Byte)

  datatype BzClient = BzClient(virtual: Byte, ip: Ip, accepted: bool, udp: Option<Address>, input: seq<Packet>)

  /** What a BZFlag datagram does: it may link a client to its address, and goes to at most one client. */
  datatype Routed = Nobody | To(seat: Seat)

  predicate IsLinkRequest(packet: Packet) {
    |packet| == 5 && BzWire.Short(packet, 2) == BzWire.UDP_LINK_REQUEST
  }

  /** A client may link an address of its own IP, once, if nobody else on the listener has it. */
  predicate MayLink(tanks: map<Seat, BzClient>, seat: Seat, address: Address) {
    && seat in tanks && tanks[seat].accepted && tanks[seat].ip == address.ip
    && (tanks[seat].udp == None || tanks[seat].udp == Some(address))
    && forall other | other in tanks && other.listener == seat.listener && other != seat ::
         tanks[other].udp != Some(address)
  }

  predicate Linked(tanks: map<Seat, BzClient>, seat: Seat, listener: nat, address: Address) {
    seat in tanks && seat.listener == listener && tanks[seat].udp == Some(address)
  }

  function Canonical(address: Address): Address {
    Address(Unmapped(address.ip), address.port)
  }

  function Offered(c: BzClient, packet: Packet): BzClient {
    if |c.input| < CLIENT_QUEUE then c.(input := c.input + [packet]) else c
  }

  /** Slots are map keys, a linked address has its client's IP, and no two clients of a listener share one. */
  ghost predicate Tidy(tanks: map<Seat, BzClient>) {
    && (forall seat | seat in tanks :: seat.slot == tanks[seat].virtual < SLOTS && |tanks[seat].input| <= CLIENT_QUEUE)
    && (forall seat | seat in tanks && tanks[seat].udp.Some? ::
          tanks[seat].udp.value.ip == tanks[seat].ip && tanks[seat].accepted)
    && (forall a, b | a in tanks && b in tanks && a.listener == b.listener && tanks[a].udp.Some?
                      && tanks[a].udp == tanks[b].udp :: a == b)
  }

  lemma NewSeatIsTidy(tanks: map<Seat, BzClient>, seat: Seat, ip: Ip)
    requires Tidy(tanks) && seat !in tanks && seat.slot < SLOTS
    ensures Tidy(tanks[seat := BzClient(seat.slot, ip, false, None, [])])
  {
  }

  lemma LeavingIsTidy(tanks: map<Seat, BzClient>, seat: Seat)
    requires Tidy(tanks) && seat in tanks
    ensures Tidy(tanks - {seat}) && (tanks - {seat}).Keys == tanks.Keys - {seat} && |tanks - {seat}| == |tanks| - 1
  {
    assert tanks.Keys == (tanks - {seat}).Keys + {seat} && |(tanks - {seat}).Keys| == |tanks - {seat}|;
  }

  lemma AcceptedIsTidy(tanks: map<Seat, BzClient>, seat: Seat)
    requires Tidy(tanks) && seat in tanks
    ensures var t := tanks[seat := tanks[seat].(accepted := true)];
      Tidy(t) && t.Keys == tanks.Keys && |t| == |tanks|
  {
    assert tanks[seat := tanks[seat].(accepted := true)].Keys == tanks.Keys;
  }

  lemma SeatIsOwned(seats: set<Seat>, playing: map<nat, Seat>, id: nat)
    requires Owned(seats, playing) && id in playing
    ensures playing[id] in seats
  {
  }

  /** Every session entry belongs to the one goroutine that was admitted to it. */
  ghost predicate Registered(sessions: map<Place, nat>, running: map<nat, Place>) {
    && (forall id | id in running :: running[id] in sessions && sessions[running[id]] == id)
    && (forall place | place in sessions :: sessions[place] in running && running[sessions[place]] == place)
  }

  lemma PlaceTaken(sessions: map<Place, nat>, running: map<nat, Place>, id: nat, place: Place)
    requires Registered(sessions, running) && id !in running && place !in sessions
    ensures Registered(sessions[place := id], running[id := place]) && |sessions[place := id]| == |sessions| + 1
  {
  }

  lemma PlaceLeft(sessions: map<Place, nat>, running: map<nat, Place>, id: nat, place: Place)
    requires Registered(sessions, running) && id in running && running[id] == place
    ensures place in sessions && sessions[place] == id
    ensures Registered(sessions - {place}, running - {id}) && |sessions - {place}| == |sessions| - 1
  {
    assert sessions.Keys == (sessions - {place}).Keys + {place};
    assert |sessions.Keys| == |sessions| && |(sessions - {place}).Keys| == |sessions - {place}|;
  }

  /** Every seat belongs to exactly one goroutine, and every goroutine has its seat. */
  ghost predicate Owned(seats: set<Seat>, playing: map<nat, Seat>) {
    && (forall id | id in playing :: playing[id] in seats)
    && (forall a, b | a in playing && b in playing && playing[a] == playing[b] :: a == b)
    && (forall seat | seat in seats :: exists id :: id in playing && playing[id] == seat)
  }

  lemma SeatTaken(seats: set<Seat>, playing: map<nat, Seat>, id: nat, seat: Seat)
    requires Owned(seats, playing) && id !in playing && seat !in seats
    ensures Owned(seats + {seat}, playing[id := seat])
  {
    var now := playing[id := seat];
    forall s | s in seats + {seat} ensures exists k :: k in now && now[k] == s {
      if s == seat {
        assert now[id] == s;
      } else {
        var k :| k in playing && playing[k] == s;
        assert now[k] == s;
      }
    }
  }

  lemma SeatLeft(seats: set<Seat>, playing: map<nat, Seat>, id: nat, seat: Seat)
    requires Owned(seats, playing) && id in playing && playing[id] == seat
    ensures seat in seats && Owned(seats - {seat}, playing - {id})
  {
    var now := playing - {id};
    forall s | s in seats - {seat} ensures exists k :: k in now && now[k] == s {
      var k :| k in playing && playing[k] == s;
      assert now[k] == s;
    }
  }

  lemma SeatsAreFew(tanks: map<Seat, BzClient>, some: set<Seat>)
    requires some <= tanks.Keys
    ensures |some| <= |tanks|
  {
    if some != {} {
      var seat :| seat in some;
      assert (tanks - {seat}).Keys == tanks.Keys - {seat};
      assert |tanks.Keys| == |tanks|;
      SeatsAreFew(tanks - {seat}, some - {seat});
    }
  }

  class Admission {
    var clients: nat
    var sessions: map<Place, nat>
    var tanks: map<Seat, BzClient>
    /** The session goroutines that have not ended, each with the place it was admitted to. */
    ghost var running: map<nat, Place>
    /** The BZFlag goroutines that have not ended, each with the seat it took. */
    ghost var playing: map<nat, Seat>

    ghost predicate Valid()
      reads this
    {
      && clients == |sessions| + |tanks| <= MAX_SESSIONS
      && Registered(sessions, running) && Owned(tanks.Keys, playing) && Tidy(tanks)
    }

    constructor ()
      ensures Valid() && clients == 0 && sessions == map[] && tanks == map[]
      ensures running == map[] && playing == map[]
    {
      clients, sessions, tanks, running, playing := 0, map[], map[], map[], map[];
    }

    /** A datagram from an address without a session opens one if it asks to connect and there is room. */
    method Admit(place: Place, connect: bool, id: nat) returns (found: Option<nat>, created: bool)
      requires Valid() && id !in running
      modifies this`clients, this`sessions, this`running
      ensures Valid()
      ensures created <==> place !in old(sessions) && connect && old(clients) < MAX_SESSIONS
      ensures found == if created then Some(id) else if place in old(sessions) then Some(old(sessions)[place]) else None
      ensures sessions == if created then old(sessions)[place := id] else old(sessions)
      ensures running == if created then old(running)[id := place] else old(running)
    {
      hide Registered, Owned, Tidy;
      found, created := if place in sessions then Some(sessions[place]) else None, false;
      if found == None && connect && clients < MAX_SESSIONS {
        PlaceTaken(sessions, running, id, place);
        found, created := Some(id), true;
        sessions := sessions[place := id];
        running := running[id := place];
        clients := clients + 1;
      }
    }

    /** A session that ends deletes the entry at its address, which is its own and nobody else's. */
    method Remove(id: nat, place: Place)
      requires Valid() && id in running && running[id] == place
      modifies this`clients, this`sessions, this`running
      ensures Valid()
      ensures place in old(sessions) && old(sessions)[place] == id
      ensures sessions == old(sessions) - {place} && running == old(running) - {id} && clients == old(clients) - 1
    {
      hide Registered, Owned, Tidy;
      PlaceLeft(sessions, running, id, place);
      sessions := sessions - {place};
      running := running - {id};
      clients := clients - 1;
    }

    method FirstFree(listener: nat) returns (slot: Byte)
      requires |tanks| < SLOTS
      ensures slot < SLOTS && Seat(listener, slot) !in tanks
      ensures forall s: Byte | s < slot :: Seat(listener, s) in tanks
    {
      slot := 0;
      ghost var taken: set<Seat> := {};
      while slot < SLOTS && Seat(listener, slot) in tanks
        invariant 0 <= slot <= SLOTS
        invariant forall s: Byte | s < slot :: Seat(listener, s) in tanks
        invariant taken <= tanks.Keys && |taken| == slot && forall seat | seat in taken :: seat.slot < slot
      {
        taken := taken + {Seat(listener, slot)};
        slot := slot + 1;
      }
      SeatsAreFew(tanks, taken);
    }

    /** Takes the lowest free slot; below the client limit there always is one. */
    method Seated(listener: nat, ip: Ip, id: nat) returns (slot: Option<Byte>)
      requires Valid() && id !in playing
      modifies this`clients, this`tanks, this`playing
      ensures Valid()
      ensures slot.Some? <==> old(clients) < MAX_SESSIONS
      ensures slot.None? ==> tanks == old(tanks) && playing == old(playing)
      ensures slot.Some? ==>
        && slot.value < SLOTS && Seat(listener, slot.value) !in old(tanks)
        && (forall s: Byte | s < slot.value :: Seat(listener, s) in old(tanks))
        && tanks == old(tanks)[Seat(listener, slot.value) := BzClient(slot.value, Unmapped(ip), false, None, [])]
        && playing == old(playing)[id := Seat(listener, slot.value)]
    {
      hide Tidy, Owned, Registered;
      slot := None;
      if clients < MAX_SESSIONS {
        var free := FirstFree(listener);
        slot := Some(free);
        NewSeatIsTidy(tanks, Seat(listener, free), Unmapped(ip));
        SeatTaken(tanks.Keys, playing, id, Seat(listener, free));
        ghost var was := tanks;
        tanks := tanks[Seat(listener, free) := BzClient(free, Unmapped(ip), false, None, [])];
        assert tanks.Keys == was.Keys + {Seat(listener, free)} && |tanks.Keys| == |tanks| == |was| + 1;
        playing := playing[id := Seat(listener, free)];
        clients := clients + 1;
      }
    }

    /** Greeting and leaving touch the seat the goroutine took, which is still its own. */
    method Greeted(id: nat, seat: Seat)
      requires Valid() && id in playing && playing[id] == seat
      modifies this`tanks
      ensures Valid() && seat in old(tanks) && tanks == old(tanks)[seat := old(tanks)[seat].(accepted := true)]
    {
      hide Registered, Owned, Tidy;
      assert seat in tanks by { SeatIsOwned(tanks.Keys, playing, id); }
      AcceptedIsTidy(tanks, seat);
      tanks := tanks[seat := tanks[seat].(accepted := true)];
    }

    method Leave(id: nat, seat: Seat)
      requires Valid() && id in playing && playing[id] == seat
      modifies this`tanks, this`clients, this`playing
      ensures Valid() && seat in old(tanks)
      ensures tanks == old(tanks) - {seat} && playing == old(playing) - {id} && clients == old(clients) - 1
    {
      hide Registered, Owned, Tidy;
      SeatLeft(tanks.Keys, playing, id, seat);
      assert seat in tanks by { SeatIsOwned(tanks.Keys, playing, id); }
      LeavingIsTidy(tanks, seat);
      tanks := tanks - {seat};
      playing := playing - {id};
      clients := clients - 1;
    }

    /** Whether another client of the listener has the address. */
    method Taken(seat: Seat, address: Address) returns (taken: bool)
      ensures taken <==> exists other :: other in tanks && other.listener == seat.listener && other != seat
                                         && tanks[other].udp == Some(address)
    {
      var others := tanks.Keys;
      while others != {}
        invariant others <= tanks.Keys
        invariant forall o | o in tanks && o !in others && o.listener == seat.listener && o != seat ::
                    tanks[o].udp != Some(address)
        decreases |others|
      {
        var other :| other in others;
        if other.listener == seat.listener && other != seat && tanks[other].udp == Some(address) {
          return true;
        }
        others := others - {other};
      }
      return false;
    }

    method Find(listener: nat, address: Address) returns (found: Option<Seat>)
      ensures found.Some? ==> Linked(tanks, found.value, listener, address)
      ensures found.None? ==> forall seat :: !Linked(tanks, seat, listener, address)
    {
      var candidates := tanks.Keys;
      while candidates != {}
        invariant candidates <= tanks.Keys
        invariant forall c | c in tanks && c !in candidates :: !Linked(tanks, c, listener, address)
        decreases |candidates|
      {
        var candidate :| candidate in candidates;
        if candidate.listener == listener && tanks[candidate].udp == Some(address) {
          return Some(candidate);
        }
        candidates := candidates - {candidate};
      }
      return None;
    }

    /** Routes one datagram of a BZFlag listener, linking the client's address on its request. */
    method Route(listener: nat, from: Address, packet: Packet) returns (to: Routed)
      requires Valid()
      modifies this`tanks
      ensures Valid()
      ensures IsRoute(old(tanks), listener, Canonical(from), packet, to)
      ensures tanks == Handed(old(tanks), to, Canonical(from), packet)
    {
      hide Tidy, Owned, Registered;
      if |packet| < 4 || |packet| > 1024 || BzWire.Short(packet, 0) + 4 != |packet| {
        return Nobody;
      }
      var address := Canonical(from);
      if |packet| == 5 && BzWire.Short(packet, 2) == BzWire.UDP_LINK_REQUEST {
        var seat := Seat(listener, packet[4]);
        if seat !in tanks || !tanks[seat].accepted || tanks[seat].ip != address.ip
           || (tanks[seat].udp != None && tanks[seat].udp != Some(address)) {
          return Nobody;
        }
        var taken := Taken(seat, address);
        if taken {
          return Nobody;
        }
        LinkIsTidy(tanks, seat, address, packet);
        assert tanks[seat := Offered(tanks[seat].(udp := Some(address)), packet)].Keys == tanks.Keys;
        tanks := tanks[seat := Offered(tanks[seat].(udp := Some(address)), packet)];
        return To(seat);
      }
      var found := Find(listener, address);
      if found == None {
        return Nobody;
      }
      DeliveryIsTidy(tanks, found.value, address, packet);
      assert tanks[found.value := Offered(tanks[found.value], packet)].Keys == tanks.Keys;
      tanks := tanks[found.value := Offered(tanks[found.value], packet)];
      return To(found.value);
    }
  }

  /** Who a datagram from an address goes to: the seat it may link, or the one client linked to that address. */
  ghost predicate IsRoute(tanks: map<Seat, BzClient>, listener: nat, address: Address, packet: Packet, to: Routed) {
    if !BzWire.Framed(packet) then to == Nobody
    else if IsLinkRequest(packet) then
      to == if MayLink(tanks, Seat(listener, packet[4]), address) then To(Seat(listener, packet[4])) else Nobody
    else match to
      case Nobody => forall seat :: !Linked(tanks, seat, listener, address)
      case To(seat) => Linked(tanks, seat, listener, address)
  }

  function Handed(tanks: map<Seat, BzClient>, to: Routed, address: Address, packet: Packet): map<Seat, BzClient> {
    match to
    case Nobody => tanks
    case To(seat) =>
      if seat in tanks then tanks[seat := Offered(tanks[seat].(udp := Some(address)), packet)] else tanks
  }

  lemma LinkIsTidy(tanks: map<Seat, BzClient>, seat: Seat, address: Address, packet: Packet)
    requires Tidy(tanks) && MayLink(tanks, seat, address)
    ensures Tidy(tanks[seat := Offered(tanks[seat].(udp := Some(address)), packet)])
    ensures |tanks[seat := Offered(tanks[seat].(udp := Some(address)), packet)]| == |tanks|
  {
    var now := tanks[seat := Offered(tanks[seat].(udp := Some(address)), packet)];
    assert now.Keys == tanks.Keys;
  }

  lemma DeliveryIsTidy(tanks: map<Seat, BzClient>, seat: Seat, address: Address, packet: Packet)
    requires Tidy(tanks) && Linked(tanks, seat, seat.listener, address)
    ensures tanks[seat].(udp := Some(address)) == tanks[seat]
    ensures Tidy(tanks[seat := Offered(tanks[seat], packet)])
        && |tanks[seat := Offered(tanks[seat], packet)]| == |tanks|
  {
    var now := tanks[seat := Offered(tanks[seat], packet)];
    assert now.Keys == tanks.Keys;
  }

  /** A datagram has one possible receiver, which sits at the sender's own IP: no client gets another's traffic. */
  lemma RouteIsUnique(tanks: map<Seat, BzClient>, listener: nat, address: Address, packet: Packet, a: Routed, b: Routed)
    requires Tidy(tanks)
    requires IsRoute(tanks, listener, address, packet, a) && IsRoute(tanks, listener, address, packet, b)
    ensures a == b
    ensures a.To? ==>
      && a.seat in tanks && a.seat.listener == listener && tanks[a.seat].accepted
      && tanks[a.seat].ip == address.ip
  {
  }
}
