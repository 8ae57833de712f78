/** Datagrams on their way to BZFlag clients: who gets which, what is kept, and in what order it is read. */
module GatewayTraffic {
  import opened FleetState
  import opened Octets
  import BzWire
  import opened Gateway

  // -- One datagram -------------------------------------------------------------------------------

  /** The length field of the header counts what follows it. */
  predicate IsWhole(packet: Packet) {
    4 <= |packet| <= 1024 && packet[0] as int * 256 + packet[1] + 4 == |packet|
  }

  /** Five bytes with the letters of a link request, the last of which is the client's slot. */
  predicate AsksToLink(packet: Packet) {
    |packet| == 5 && packet[2] == 'o' as int && packet[3] == 'f' as int
  }

  /** A datagram a client's own address sent, or that asks to become the client's address. */
  predicate IsFor(tanks: map<Seat, BzClient>, seat: Seat, listener: nat, from: Address, packet: Packet)
    requires seat in tanks
  {
    && IsWhole(packet) && seat.listener == listener
    && if AsksToLink(packet) then
         && packet[4] == seat.slot && tanks[seat].accepted && tanks[seat].ip == from.ip
         && tanks[seat].udp in {None, Some(from)}
         && forall other | other in tanks && other.listener == listener && tanks[other].udp == Some(from) ::
              other == seat
       else tanks[seat].udp == Some(from)
  }

  lemma SameRequests(packet: Packet)
    ensures BzWire.Framed(packet) <==> IsWhole(packet)
    ensures |packet| >= 4 ==> (IsLinkRequest(packet) <==> AsksToLink(packet))
  {
  }

  lemma LinkIsFor(tanks: map<Seat, BzClient>, listener: nat, from: Address, packet: Packet, seat: Seat)
    requires Tidy(tanks) && seat in tanks && IsWhole(packet) && AsksToLink(packet)
    ensures (seat == Seat(listener, packet[4]) && MayLink(tanks, seat, from))
       <==> IsFor(tanks, seat, listener, from, packet)
  {
  }

  lemma SameAddressee(tanks: map<Seat, BzClient>, listener: nat, from: Address, packet: Packet, to: Routed, seat: Seat)
    requires Tidy(tanks) && IsRoute(tanks, listener, from, packet, to) && seat in tanks
    ensures to == To(seat) <==> IsFor(tanks, seat, listener, from, packet)
  {
    hide BzWire.Framed, IsLinkRequest, AsksToLink;
    SameRequests(packet);
    if IsWhole(packet) && IsLinkRequest(packet) {
      assert IsLinkRequest(packet) && AsksToLink(packet);
      LinkIsFor(tanks, listener, from, packet, seat);
    } else if IsFor(tanks, seat, listener, from, packet) {
      assert Linked(tanks, seat, listener, from);
    }
  }

  /**
   * A datagram is appended to the queue of the client it is for, if fewer than eight wait there, and links it; every
   * other client is left alone.
   */
  lemma DatagramsReachTheirClient(tanks: map<Seat, BzClient>, listener: nat, from: Address, packet: Packet, to: Routed,
                                  seat: Seat)
    requires Tidy(tanks) && IsRoute(tanks, listener, from, packet, to) && seat in tanks
    ensures var next := Handed(tanks, to, from, packet);
      && next.Keys == tanks.Keys
      && next[seat] == if !IsFor(tanks, seat, listener, from, packet) then tanks[seat]
                       else if |tanks[seat].input| < 8 then
                         tanks[seat].(udp := Some(from), input := tanks[seat].input + [packet])
                       else tanks[seat].(udp := Some(from))
  {
    hide Tidy;
    SameRequests(packet);
    SameAddressee(tanks, listener, from, packet, to, seat);
  }

  // -- Traffic over time --------------------------------------------------------------------------

  /** The clients of a gateway, and what each has read since it took its seat. */
  datatype World = World(tanks: map<Seat, BzClient>, read: map<Seat, seq<Packet>>)

  datatype Event =
    | Sit(seat: Seat, ip: Ip)
    | Greet(seat: Seat)
    | Datagram(listener: nat, from: Address, packet: Packet, to: Routed)
    | Read(seat: Seat)
    | Leave(seat: Seat)

  ghost predicate Step(w: World, e: Event, x: World) {
    match e
    case Sit(seat, ip) =>
      && seat !in w.tanks && seat.slot < SLOTS
      && x == World(w.tanks[seat := BzClient(seat.slot, Unmapped(ip), false, None, [])], w.read[seat := []])
    case Greet(seat) => seat in w.tanks && x == w.(tanks := w.tanks[seat := w.tanks[seat].(accepted := true)])
    case Datagram(listener, from, packet, to) =>
      && IsRoute(w.tanks, listener, Canonical(from), packet, to)
      && x == w.(tanks := Handed(w.tanks, to, Canonical(from), packet))
    case Read(seat) =>
      && seat in w.tanks && seat in w.read && w.tanks[seat].input != []
      && x == World(w.tanks[seat := w.tanks[seat].(input := w.tanks[seat].input[1..])],
                    w.read[seat := w.read[seat] + [w.tanks[seat].input[0]]])
    case Leave(seat) => seat in w.tanks && x == World(w.tanks - {seat}, w.read - {seat})
  }

  ghost predicate IsRun(ws: seq<World>, es: seq<Event>) {
    && |ws| == |es| + 1 && ws[0] == World(map[], map[])
    && forall i | 0 <= i < |es| :: Step(ws[i], es[i], ws[i + 1])
  }

  ghost predicate Inv(w: World) {
    Tidy(w.tanks) && w.read.Keys == w.tanks.Keys
  }

  lemma DatagramKeeps(w: World, e: Event, x: World)
    requires Inv(w) && e.Datagram? && Step(w, e, x)
    ensures Inv(x)
  {
    if e.to.To? {
      var from, packet := Canonical(e.from), e.packet;
      if IsLinkRequest(packet) {
        LinkIsTidy(w.tanks, e.to.seat, from, packet);
      } else {
        DeliveryIsTidy(w.tanks, e.to.seat, from, packet);
      }
      assert x.tanks.Keys == w.tanks.Keys;
    }
  }

  lemma ReadingIsTidy(tanks: map<Seat, BzClient>, seat: Seat)
    requires Tidy(tanks) && seat in tanks && tanks[seat].input != []
    ensures Tidy(tanks[seat := tanks[seat].(input := tanks[seat].input[1..])])
  {
  }

  lemma StepKeepsInv(w: World, e: Event, x: World)
    requires Inv(w) && Step(w, e, x)
    ensures Inv(x)
  {
    hide Tidy;
    match e
    case Sit(seat, ip) => NewSeatIsTidy(w.tanks, seat, Unmapped(ip));
    case Greet(seat) => AcceptedIsTidy(w.tanks, seat);
    case Datagram(_, _, _, _) => DatagramKeeps(w, e, x);
    case Read(seat) => ReadingIsTidy(w.tanks, seat);
    case Leave(seat) => LeavingIsTidy(w.tanks, seat);
  }

  lemma {:induction false} RunKeepsInv(ws: seq<World>, es: seq<Event>, n: nat)
    requires IsRun(ws, es) && n < |ws|
    ensures Inv(ws[n])
  {
    hide Step;
    if n > 0 {
      hide Inv;
      RunKeepsInv(ws, es, n - 1);
      StepKeepsInv(ws[n - 1], es[n - 1], ws[n]);
    }
  }

  // -- What a client gets -------------------------------------------------------------------------

  /** Step `n` seats a client or takes its seat away. */
  predicate IsMove(e: Event, seat: Seat) {
    (e.Leave? || e.Sit?) && e.seat == seat
  }

  /** The datagrams kept for the client on a seat, since it sat down: those that came while fewer than eight waited. */
  ghost function Kept(ws: seq<World>, es: seq<Event>, n: nat, seat: Seat): seq<Packet>
    requires n < |ws| == |es| + 1
  {
    if n == 0 || IsMove(es[n - 1], seat) then []
    else
      var e, w := es[n - 1], ws[n - 1];
      if e.Datagram? && seat in w.tanks && IsFor(w.tanks, seat, e.listener, Canonical(e.from), e.packet)
         && |w.tanks[seat].input| < 8 then Kept(ws, es, n - 1, seat) + [e.packet]
      else Kept(ws, es, n - 1, seat)
  }

  /** One step on the client's stream. */
  lemma StreamGrows(w: World, e: Event, x: World, seat: Seat)
    requires Inv(w) && Inv(x) && Step(w, e, x) && seat in w.tanks && seat in x.tanks && !IsMove(e, seat)
    ensures x.read[seat] + x.tanks[seat].input
         == w.read[seat] + w.tanks[seat].input
            + if e.Datagram? && IsFor(w.tanks, seat, e.listener, Canonical(e.from), e.packet)
                 && |w.tanks[seat].input| < 8 then [e.packet] else []
  {
    hide Tidy, IsFor;
    if e.Datagram? {
      DatagramsReachTheirClient(w.tanks, e.listener, Canonical(e.from), e.packet, e.to, seat);
    }
  }

  lemma QueuesAreShort(w: World, seat: Seat)
    requires Inv(w) && seat in w.tanks
    ensures seat in w.read && |w.tanks[seat].input| <= 8
  {
  }

  /** What a client has read and what waits for it is all that was kept for it, each once and in order. */
  lemma {:induction false} ClientsReadWhatWasKept(ws: seq<World>, es: seq<Event>, n: nat, seat: Seat)
    requires IsRun(ws, es) && n < |ws| && seat in ws[n].tanks
    ensures seat in ws[n].read && ws[n].read[seat] + ws[n].tanks[seat].input == Kept(ws, es, n, seat)
    ensures |ws[n].tanks[seat].input| <= 8
  {
    hide IsFor;
    RunKeepsInv(ws, es, n);
    QueuesAreShort(ws[n], seat);
    hide Inv;
    if n > 0 {
      RunKeepsInv(ws, es, n - 1);
      assert Step(ws[n - 1], es[n - 1], ws[n]);
      if !IsMove(es[n - 1], seat) {
        SeatsAreTaken(ws[n - 1], es[n - 1], ws[n], seat);
        ClientsReadWhatWasKept(ws, es, n - 1, seat);
        StreamGrows(ws[n - 1], es[n - 1], ws[n], seat);
      }
    }
  }

  lemma SeatsAreTaken(w: World, e: Event, x: World, seat: Seat)
    requires Step(w, e, x) && seat in x.tanks && !IsMove(e, seat)
    ensures seat in w.tanks
  {
  }

  /** A linked client stays linked to its address. */
  lemma LinkStays(w: World, e: Event, x: World, seat: Seat)
    requires Inv(w) && Step(w, e, x) && seat in w.tanks && seat in x.tanks && !IsMove(e, seat)
    ensures x.tanks[seat].ip == w.tanks[seat].ip && (w.tanks[seat].udp.Some? ==> x.tanks[seat].udp == w.tanks[seat].udp)
  {
    hide Tidy, IsFor;
    if e.Datagram? {
      DatagramsReachTheirClient(w.tanks, e.listener, Canonical(e.from), e.packet, e.to, seat);
      if IsFor(w.tanks, seat, e.listener, Canonical(e.from), e.packet) {
        ForItsAddress(w.tanks, seat, e.listener, Canonical(e.from), e.packet);
      }
    }
  }

  lemma ForItsAddress(tanks: map<Seat, BzClient>, seat: Seat, listener: nat, from: Address, packet: Packet)
    requires Tidy(tanks) && seat in tanks && IsFor(tanks, seat, listener, from, packet)
    ensures tanks[seat].udp in {None, Some(from)} && from.ip == tanks[seat].ip && tanks[seat].accepted
  {
  }

  lemma LinkBegins(w: World, e: Event, x: World, seat: Seat)
    requires Inv(w) && Step(w, e, x) && e.Datagram? && seat in w.tanks && seat in x.tanks
    requires IsFor(w.tanks, seat, e.listener, Canonical(e.from), e.packet)
    ensures x.tanks[seat].udp == Some(Canonical(e.from)) && Canonical(e.from).ip == x.tanks[seat].ip
  {
    hide IsFor, Tidy;
    DatagramsReachTheirClient(w.tanks, e.listener, Canonical(e.from), e.packet, e.to, seat);
    ForItsAddress(w.tanks, seat, e.listener, Canonical(e.from), e.packet);
  }

  lemma AddressesAreOwn(w: World, seat: Seat)
    requires Inv(w) && seat in w.tanks && w.tanks[seat].udp.Some?
    ensures forall other | other in w.tanks && other.listener == seat.listener
                           && w.tanks[other].udp == w.tanks[seat].udp :: other == seat
  {
  }

  /** All that a client gets while it keeps its seat comes from one address, which is its own IP's and nobody else's. */
  lemma {:induction false} OneAddressEach(ws: seq<World>, es: seq<Event>, k: nat, n: nat, seat: Seat)
    requires IsRun(ws, es) && k < n < |ws| && es[k].Datagram? && seat in ws[k].tanks && seat in ws[n].tanks
    requires forall i | k <= i < n :: !IsMove(es[i], seat)
    requires IsFor(ws[k].tanks, seat, es[k].listener, Canonical(es[k].from), es[k].packet)
    ensures ws[n].tanks[seat].udp == Some(Canonical(es[k].from)) && Canonical(es[k].from).ip == ws[n].tanks[seat].ip
    ensures forall other | other in ws[n].tanks && other.listener == seat.listener
                           && ws[n].tanks[other].udp == ws[n].tanks[seat].udp :: other == seat
    decreases n
  {
    hide IsFor, Inv;
    RunKeepsInv(ws, es, n - 1);
    RunKeepsInv(ws, es, n);
    var w, e, x := ws[n - 1], es[n - 1], ws[n];
    assert Step(w, e, x);
    hide Step;
    if k == n - 1 {
      LinkBegins(w, e, x, seat);
    } else {
      SeatsAreTaken(w, e, x, seat);
      OneAddressEach(ws, es, k, n - 1, seat);
      LinkStays(w, e, x, seat);
    }
    AddressesAreOwn(x, seat);
  }
}
