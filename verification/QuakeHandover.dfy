/** What the gateway does with each datagram and at each tick, in terms of bytes, links and times. */
module QuakeHandover {
  import opened FleetState
  import opened Octets
  import opened QuakeWire
  import opened QuakeSession
  import opened QuakeSplice
  import opened QuakeTheorems

  // -- The first reliable packet ------------------------------------------------------------------

  predicate IsFirstPacket(p: Packet) {
    Frame(p).Some? && Has(Frame(p).value.flags, DATA) && Frame(p).value.sequence == 0
  }

  lemma InitialIsKept(w: World, e: Event, x: World)
    requires Step(w, e, x)
    ensures w.s.initial.Some? ==> x.s.initial == w.s.initial
    ensures e.Input? && IsFirstPacket(e.packet) ==> x.s.initial.Some?
  {
    hide Frame, Has, ShiftDown, ShiftUp, PeerStep, Payload, FailurePacket, DataPacket;
  }

  lemma {:induction false} InitialIsRemembered(ws: seq<World>, es: seq<Event>, a: nat, b: nat)
    requires IsRun(ws, es) && a < b < |ws| && es[a].Input? && IsFirstPacket(es[a].packet)
    ensures ws[b].s.initial.Some?
    decreases b
  {
    hide Step, IsFirstPacket;
    assert Step(ws[b - 1], es[b - 1], ws[b]);
    InitialIsKept(ws[b - 1], es[b - 1], ws[b]);
    if a < b - 1 {
      InitialIsRemembered(ws, es, a, b - 1);
    }
  }

  /**
   * Over every run: a client that already sent its first reliable packet need not wait for its own retry. The moment
   * the game is taken on, that packet is on the way to the backend, and nothing else is.
   */
  lemma FirstPacketIsHandedOver(ws: seq<World>, es: seq<Event>, a: nat, b: nat)
    requires IsRun(ws, es) && a < b < |es| && es[b] == Attach && es[a].Input?
    requires Frame(es[a].packet).Some?
    requires Has(Frame(es[a].packet).value.flags, DATA) && Frame(es[a].packet).value.sequence == 0
    ensures ws[b + 1].client.sent != [] && ws[b + 1].s.attached && ws[b + 1].live
    ensures exists q :: ws[b + 1].out == {q} && Carries(q, 0, ws[b + 1].client.sent[0])
  {
    hide Step, Frame, Has, DataOk, AcksOk, PeerOk, Body, IsData, LoadingOk;
    assert Step(ws[b], es[b], ws[b + 1]);
    RunKeepsInv(ws, es, b);
    InitialIsRemembered(ws, es, a, b);
    AttachHandsOver(ws[b], ws[b + 1]);
  }

  lemma AttachHandsOver(w: World, x: World)
    requires Inv(w) && Step(w, Attach, x) && w.s.initial.Some?
    ensures x.s.attached && x.live && x.client == w.client && x.out == {w.s.initial.value}
    ensures w.client.sent != [] && Carries(w.s.initial.value, 0, w.client.sent[0])
  {
    hide AcksOk, PeerOk, LoadingOk;
    assert w.out == {};
  }

  /** A client that sent none gets nothing sent in its name. */
  lemma NothingIsMadeUp(ws: seq<World>, es: seq<Event>, b: nat)
    requires IsRun(ws, es) && b < |es| && es[b] == Attach
    ensures var x := ws[b + 1];
      forall q | q in x.out :: x.client.sent != [] && Carries(q, 0, x.client.sent[0])
  {
    hide Step, Frame, Has, DataOk, AcksOk, PeerOk, Body, IsData, LoadingOk;
    assert Step(ws[b], es[b], ws[b + 1]);
    RunKeepsInv(ws, es, b);
    if ws[b].s.initial.Some? {
      AttachHandsOver(ws[b], ws[b + 1]);
    } else {
      NothingIsSent(ws[b], ws[b + 1]);
    }
  }

  lemma NothingIsSent(w: World, x: World)
    requires Inv(w) && Step(w, Attach, x) && w.s.initial.None?
    ensures x.out == {}
  {
    hide UpstreamOk, LoadingOk;
  }

  // -- The relay ----------------------------------------------------------------------------------

  /** The same datagram with another sequence number. */
  function Renumbered(p: Packet, sequence: int): Packet
    requires |p| >= 8 && 0 <= sequence < U32
  {
    p[..4] + [sequence / 0x100_0000, sequence / 0x1_0000 % 0x100, sequence / 0x100 % 0x100, sequence % 0x100] + p[8..]
  }

  lemma RenumberedIsRewritten(p: Packet, sequence: int)
    requires |p| >= 8 && 0 <= sequence < U32
    ensures WithSequence(p, sequence) == Renumbered(p, sequence)
  {
  }

  /** The one-byte message with which a NetQuake client or server leaves. */
  predicate IsGoodbye(p: Packet) {
    && Frame(p).Some? && |p| == 9 && p[8] == 2
    && (Has(Frame(p).value.flags, DATA) || Has(Frame(p).value.flags, UNRELIABLE))
  }

  /** An answer to one of the gateway's own loading messages, which no backend ever sent. */
  predicate IsForGateway(w: World, p: Packet) {
    && Frame(p).Some? && (Has(Frame(p).value.flags, ACK) || Has(Frame(p).value.flags, NAK))
    && Frame(p).value.sequence < |w.loading|
  }

  /**
   * Over every run: once attached, the gateway passes on every frame of the client, with the loading messages taken off
   * the sequence of acknowledgements, except answers to those messages; the session ends with the client's goodbye.
   * Before that nothing is passed on.
   */
  lemma ClientDatagramsPass(ws: seq<World>, es: seq<Event>, i: nat, p: Packet)
    requires IsRun(ws, es) && i < |es| && es[i].Input? && es[i].packet == p
    ensures var w, x := ws[i], ws[i + 1];
      && x.down == w.down && x.loading == w.loading && x.client == w.client && x.backend == w.backend
      && (x.live <==> !IsGoodbye(p) || (w.s.attached && IsForGateway(w, p)))
      && (!w.s.attached || Frame(p).None? || IsForGateway(w, p) ==> x.out == w.out)
      && (w.s.attached && Frame(p).Some? && !IsForGateway(w, p) ==>
            if Has(Frame(p).value.flags, ACK) || Has(Frame(p).value.flags, NAK) then
              x.out == w.out + {Renumbered(p, Frame(p).value.sequence - |w.loading|)}
            else x.out == w.out + {p})
  {
    hide Step, Has, DownstreamOk, UpstreamOk;
    assert Step(ws[i], es[i], ws[i + 1]);
    RunKeepsInv(ws, es, i);
    InputPasses(ws[i], p, es[i].now, ws[i + 1]);
  }

  lemma InputPasses(w: World, p: Packet, now: int, x: World)
    requires LoadingOk(w) && Step(w, Input(p, now), x)
    ensures x.down == w.down && x.loading == w.loading && x.client == w.client && x.backend == w.backend
    ensures x.live <==> !IsGoodbye(p) || (w.s.attached && IsForGateway(w, p))
    ensures !w.s.attached || Frame(p).None? || IsForGateway(w, p) ==> x.out == w.out
    ensures w.s.attached && Frame(p).Some? && !IsForGateway(w, p) ==>
              if Has(Frame(p).value.flags, ACK) || Has(Frame(p).value.flags, NAK) then
                x.out == w.out + {Renumbered(p, Frame(p).value.sequence - |w.loading|)}
              else x.out == w.out + {p}
  {
    hide Has, Frame, WithSequence, Renumbered;
    if Frame(p).Some? && Frame(p).value.sequence >= w.s.prefix {
      RenumberedIsRewritten(p, Frame(p).value.sequence - w.s.prefix);
    }
    assert w.down + {} == w.down && w.out + {} == w.out;
  }

  /** Over every run: every frame of the backend passes to the client, its reliable ones behind the loading messages. */
  lemma BackendDatagramsPass(ws: seq<World>, es: seq<Event>, i: nat, p: Packet)
    requires IsRun(ws, es) && i < |es| && es[i] == FromBackend(p)
    ensures var w, x := ws[i], ws[i + 1];
      && x.out == w.out && x.live && x.s == w.s
      && (Frame(p).None? ==> x.down == w.down)
      && (Frame(p).Some? && !Has(Frame(p).value.flags, DATA) ==> x.down == w.down + {p})
      && (Frame(p).Some? && Has(Frame(p).value.flags, DATA) ==>
            && Frame(p).value.sequence + |w.loading| < U32
            && x.down == w.down + {Renumbered(p, Frame(p).value.sequence + |w.loading|)})
  {
    hide Has, Frame, WithSequence, Renumbered, AcksOk, PeerOk, IsData, Body;
    assert Step(ws[i], es[i], ws[i + 1]);
    RunKeepsInv(ws, es, i);
    var w := ws[i];
    if Frame(p).Some? && Has(Frame(p).value.flags, DATA) {
      assert Frame(p).value.sequence < |w.backend.sent|;
      RenumberedIsRewritten(p, Frame(p).value.sequence + w.s.prefix);
    }
    assert w.down + {} == w.down && w.out + {} == w.out;
  }

  // -- The clock ----------------------------------------------------------------------------------

  /** When the client was heard last: its last frame, or the moment the session began. */
  ghost function LastHeard(ws: seq<World>, es: seq<Event>, i: nat): int
    requires IsRun(ws, es) && i < |ws|
  {
    if i == 0 then ws[0].since
    else if es[i - 1].Input? && Frame(es[i - 1].packet).Some? then es[i - 1].now
    else LastHeard(ws, es, i - 1)
  }

  lemma {:induction false} LastSeenIsLastHeard(ws: seq<World>, es: seq<Event>, i: nat)
    requires IsRun(ws, es) && i < |ws|
    ensures ws[i].s.lastSeen == LastHeard(ws, es, i)
  {
    hide Step;
    if i > 0 {
      LastSeenIsLastHeard(ws, es, i - 1);
      assert Step(ws[i - 1], es[i - 1], ws[i]);
      InputIsHeard(ws[i - 1], es[i - 1], ws[i]);
    }
  }

  lemma InputIsHeard(w: World, e: Event, x: World)
    requires Step(w, e, x)
    ensures x.s.lastSeen == if e.Input? && Frame(e.packet).Some? then e.now else w.s.lastSeen
  {
    hide Frame, Has, ShiftDown, ShiftUp, PeerStep, Payload, FailurePacket, DataPacket;
  }

  /** What a held player reads while the game starts. */
  function Progress(milliseconds: int): Packet {
    [8] + Bytes("Starting server... " + Elapsed(milliseconds) + "s elapsed. Please wait.\n") + [0]
  }

  /**
   * Over every run, one tick: a client silent for more than a minute is dropped. A held one is told when the start has
   * timed out; gets an unanswered message again after a second; and otherwise, until an address is known, gets a new
   * message every two seconds, with the progress in it every five.
   */
  lemma TicksKeepTheSchedule(ws: seq<World>, es: seq<Event>, i: nat, now: int, bootOver: bool)
    requires IsRun(ws, es) && i < |es| && es[i] == Tick(now, bootOver)
    ensures var w, x, s := ws[i], ws[i + 1], ws[i].s;
      && x.out == w.out && x.client == w.client && x.backend == w.backend
      && if now > LastHeard(ws, es, i) + 60 * 1000 then x == w.(live := false)
         else if s.attached then x == w
         else if bootOver then
           x == w.(live := false, down := w.down + {FailurePacket("Server did not start in time. Please try again.")})
         else if s.pending.Some? then
           x == if now >= s.sentAt + 1000 then w.(down := w.down + {s.pending.value}, s := s.(sentAt := now)) else w
         else if s.target == "" && now >= s.nextMessage then
           && x.live && |x.loading| == |w.loading| + 1 && x.loading[..|w.loading|] == w.loading
           && x.loading[|w.loading|] == (if now >= s.nextNotice then Progress(now - w.since) else [1])
           && x.s.pending.Some? && x.down == w.down + {x.s.pending.value}
           && Carries(x.s.pending.value, |w.loading|, LoadingFragment(x.loading[|w.loading|]))
           && x.s == s.(pending := x.s.pending, sentAt := now, nextMessage := now + 2 * 1000,
                        nextNotice := if now >= s.nextNotice then now + 5 * 1000 else s.nextNotice)
         else x == w
  {
    hide Step, DownstreamOk, UpstreamOk, Frame, Has, FailurePacket, Notice, Progress, Payload;
    assert Step(ws[i], es[i], ws[i + 1]);
    RunKeepsInv(ws, es, i);
    LastSeenIsLastHeard(ws, es, i);
    TickKeeps(ws[i], now, bootOver, ws[i + 1]);
    var w, x := ws[i], ws[i + 1];
    if x.loading != w.loading {
      RunKeepsInv(ws, es, i + 1);
      LoadingCarries(w.s.prefix, Payload(w.s, now));
      PayloadIsProgress(w.s, now);
    }
  }

  lemma PayloadIsProgress(s: State, now: int)
    ensures Payload(s, now) == if now >= s.nextNotice then Progress(now - s.began) else [1]
  {
    hide Elapsed, Bytes;
  }

  lemma TickKeeps(w: World, now: int, bootOver: bool, x: World)
    requires LoadingOk(w) && Step(w, Tick(now, bootOver), x)
    ensures x.out == w.out && x.client == w.client && x.backend == w.backend
    ensures var s := w.s;
      if now > s.lastSeen + 60 * 1000 then x == w.(live := false)
      else if s.attached then x == w
      else if bootOver then
        x == w.(live := false, down := w.down + {FailurePacket("Server did not start in time. Please try again.")})
      else if s.pending.Some? then
        x == if now >= s.sentAt + 1000 then w.(down := w.down + {s.pending.value}, s := s.(sentAt := now)) else w
      else if s.target == "" && now >= s.nextMessage then
        && x.live && x.loading == w.loading + [Payload(s, now)]
        && x.s.pending == Some(DataPacket(s.prefix, Payload(s, now))) && x.down == w.down + {x.s.pending.value}
        && x.s == s.(pending := x.s.pending, sentAt := now, nextMessage := now + 2 * 1000,
                     nextNotice := if now >= s.nextNotice then now + 5 * 1000 else s.nextNotice)
      else x == w
  {
    hide Frame, Has, FailurePacket, Notice, Payload, DataPacket;
    assert w.down + {} == w.down && w.out + {} == w.out;
    var f := FailurePacket(TIMED_OUT);
    assert Members([f, f, f]) == {f};
  }
}
