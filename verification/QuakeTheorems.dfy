/** What a held and then spliced connection guarantees to both ends, over every run. */
module QuakeTheorems {
  import opened FleetState
  import opened Octets
  import opened QuakeWire
  import opened QuakeSession
  import opened QuakeSplice

  /**
   * Refinement: the client accepts the loading messages in order and then, once attached, a prefix of the backend's own
   * stream, nothing lost and nothing repeated; the backend never counts as delivered what the client did not accept.
   */
  lemma ClientAcceptsTheSplice(ws: seq<World>, es: seq<Event>, i: nat)
    requires IsRun(ws, es) && i < |ws|
    ensures var w := ws[i];
      && w.client.accepted <= LoadingFragments(w.loading) + w.backend.sent
      && w.s.prefix + w.backend.acked <= |w.client.accepted|
      && (w.s.attached ==>
            && |w.loading| == w.s.prefix
            && w.client.accepted == LoadingFragments(w.loading) + w.backend.sent[..|w.client.accepted| - w.s.prefix])
      && (!w.s.attached ==> w.client.accepted <= LoadingFragments(w.loading))
  {
    hide Step, UpstreamOk, DataOk, AcksOk, PeerOk;
    RunKeepsInv(ws, es, i);
    var w := ws[i];
    if w.s.attached {
      PrefixOfSum(w.client.accepted, LoadingFragments(w.loading), w.backend.sent);
    }
  }

  lemma PrefixOfSum(a: seq<Fragment>, b: seq<Fragment>, c: seq<Fragment>)
    requires a <= b + c && |b| <= |a|
    ensures a == b + c[..|a| - |b|]
  {
    assert a == (b + c)[..|a|];
  }

  /** The other direction: the backend accepts a prefix of the client's stream, from its very first reliable packet. */
  lemma BackendAcceptsTheClient(ws: seq<World>, es: seq<Event>, i: nat)
    requires IsRun(ws, es) && i < |ws|
    ensures var w := ws[i];
      && w.backend.accepted <= w.client.sent
      && w.client.acked <= |w.backend.accepted|
      && (!w.s.attached ==> w.backend.accepted == [])
  {
    hide Step, LoadingOk, DataOk, AcksOk, PeerOk;
    RunKeepsInv(ws, es, i);
  }

  /** Within the start attempt at most ninety loading messages are issued, so no shifted sequence wraps around. */
  lemma ShiftsNeverWrap(ws: seq<World>, es: seq<Event>, i: nat, p: Packet)
    requires IsRun(ws, es) && i < |ws|
    ensures var w := ws[i];
      && |w.loading| <= MOST_LOADING && w.s.prefix <= MOST_LOADING
      && (p in w.back && IsData(p) ==>
            Frame(ShiftUp(p, w.s.prefix)).Some? && ShiftDown(ShiftUp(p, w.s.prefix), w.s.prefix) == Some(p))
  {
    hide Step, UpstreamOk, AcksOk, PeerOk, Frame, ShiftUp, ShiftDown, Body;
    RunKeepsInv(ws, es, i);
    if p in ws[i].back && IsData(p) {
      ShiftRoundTrips(p, ws[i].s.prefix);
    }
  }

  /** The splice point never moves once made, and what either end accepted is never taken back. */
  lemma {:induction false} SpliceIsFinal(ws: seq<World>, es: seq<Event>, i: nat, j: nat)
    requires IsRun(ws, es) && i <= j < |ws|
    ensures Grows(ws[i], ws[j])
    decreases j
  {
    hide Step, Inv, Initial;
    if i < j {
      SpliceIsFinal(ws, es, i, j - 1);
      RunKeepsInv(ws, es, j - 1);
      StepKeepsInv(ws[j - 1], es[j - 1], ws[j]);
    }
  }

  /** Sessions do get attached: a game that is ready at once is taken on without a single loading message. */
  lemma ReadyGamesAreAttached(since: int, address: string) returns (ws: seq<World>, es: seq<Event>)
    requires address != ""
    ensures IsRun(ws, es) && |es| == 2 && ws[2].live && ws[2].s.attached && ws[2].loading == []
  {
    hide AfterInput, AfterTick, AfterBackend;
    var w0 := World(Opened(since), since, true, [], SILENT, SILENT, {}, {}, {}, {});
    var w1 := w0.(s := w0.s.(target := address));
    var w2 := Applied(w1, AfterAttach(w1.s));
    ws := [w0, w1, w2];
    es := [Resolved(address), Attach];
    assert Step(w0, es[0], w1) && Step(w1, es[1], w2);
  }

  // -- Progress -----------------------------------------------------------------------------------

  ghost predicate Leads(ws: seq<World>, es: seq<Event>) {
    |ws| == |es| + 1 && forall i | 0 <= i < |es| :: Step(ws[i], es[i], ws[i + 1])
  }

  /** What the gateway does to a backend fragment and to the client's answer: exactly an undisturbed round trip. */
  lemma DataComesThrough(s: State, p: Packet, reply: Packet, now: int)
    requires s.attached && IsData(p) && SequenceOf(p) + s.prefix < U32
    requires IsAck(reply) && SequenceOf(reply) == SequenceOf(p) + s.prefix
    ensures var q := ShiftUp(p, s.prefix);
      && AfterBackend(s, p).toClient == [q] && IsData(q) && SequenceOf(q) == SequenceOf(reply) && Body(q) == Body(p)
    ensures var r := AfterInput(s, reply, now);
      && |r.toBackend| == 1 && IsAck(r.toBackend[0]) && SequenceOf(r.toBackend[0]) == SequenceOf(p)
      && Body(r.toBackend[0]) == Body(reply)
  {
    hide Frame, WithSequence;
    ShiftKeepsKind(p, SequenceOf(p) + s.prefix);
    ShiftKeepsKind(reply, SequenceOf(p));
  }

  /**
   * No fragment is ever stuck: if the network delivers the backend's repeated packet and the client's answer, five
   * steps later the backend has its acknowledgement.
   */
  lemma BackendFragmentArrives(w: World, p: Packet, reply: Packet, now: int) returns (ws: seq<World>, es: seq<Event>)
    requires Inv(w) && w.live && w.s.attached && w.backend.acked < |w.backend.sent|
    requires Carries(p, w.backend.acked, w.backend.sent[w.backend.acked])
    requires IsAck(reply) && SequenceOf(reply) == w.backend.acked + w.s.prefix
    ensures Leads(ws, es) && |es| == 5 && ws[0] == w
    ensures ws[5].backend.acked == w.backend.acked + 1 && |ws[5].client.accepted| > w.backend.acked + w.s.prefix
  {
    hide Frame, Stream, WithSequence, Body, DataOk, AcksOk, AfterInput, AfterBackend, ShiftUp;
    var k := w.backend.acked;
    DataComesThrough(w.s, p, reply, now);
    var q := ShiftUp(p, w.s.prefix);
    var x1 := w.(back := w.back + {p});
    assert Step(w, Backend(Repeats(p)), x1) by {
      assert PeerStep(w.backend, Repeats(p), w.out, U32 - MOST_LOADING, x1.backend, {p});
    }
    var x2 := Applied(x1, AfterBackend(w.s, p));
    BackendKeepsState(w.s, p);
    assert q in x2.down && x2.live && x2.s == w.s && x2.client == w.client by { BackendSendsOn(x1, p); }
    var client :=
      if SequenceOf(q) == |w.client.accepted| then w.client.(accepted := w.client.accepted + [Body(q)]) else w.client;
    var x3 := x2.(client := client, up := x2.up + {reply});
    assert Step(x2, Client(Receives(q, reply)), x3) by {
      assert PeerStep(x2.client, Receives(q, reply), x2.down, U32, x3.client, {reply});
    }
    var x4 := Applied(x3, AfterInput(w.s, reply, now));
    var b := AfterInput(w.s, reply, now).toBackend[0];
    assert b in x4.out && x4.backend == w.backend && x4.s.attached by { InputSendsOn(x3, reply, now); }
    var x5 := x4.(backend := w.backend.(acked := k + 1), back := x4.back + {});
    assert Step(x4, Backend(Receives(b, b)), x5) by {
      assert PeerStep(x4.backend, Receives(b, b), x4.out, U32 - MOST_LOADING, x5.backend, {});
    }
    ws := [w, x1, x2, x3, x4, x5];
    es := [Backend(Repeats(p)), FromBackend(p), Client(Receives(q, reply)), Input(reply, now), Backend(Receives(b, b))];
  }

  lemma BackendSendsOn(w: World, p: Packet)
    requires w.s.attached && AfterBackend(w.s, p).toClient != []
    ensures var x := Applied(w, AfterBackend(w.s, p));
      && AfterBackend(w.s, p).toClient[0] in x.down && x.live && x.s == w.s
      && x == w.(down := x.down, live := true, out := x.out) && x.out == w.out
  {
    hide Frame, ShiftUp;
    assert w.out + {} == w.out;
  }

  lemma InputSendsOn(w: World, p: Packet, now: int)
    requires w.s.attached && AfterInput(w.s, p, now).toBackend != []
    ensures var x := Applied(w, AfterInput(w.s, p, now));
      && AfterInput(w.s, p, now).toBackend[0] in x.out && x.s.attached
      && x.backend == w.backend && x.client == w.client && x.back == w.back && x.up == w.up
  {
    hide Frame, ShiftDown;
  }

  /** Client fragments and the backend's answers pass through byte for byte. */
  lemma ClientDataIsUntouched(s: State, p: Packet, reply: Packet, now: int)
    requires s.attached && IsData(p) && IsAck(reply)
    ensures AfterInput(s, p, now).toBackend == [p] && AfterBackend(s, reply).toClient == [reply]
  {
  }

  /** The same round trip for the client's own stream. */
  lemma ClientFragmentArrives(w: World, p: Packet, reply: Packet, now: int) returns (ws: seq<World>, es: seq<Event>)
    requires Inv(w) && w.live && w.s.attached && w.client.acked < |w.client.sent|
    requires Carries(p, w.client.acked, w.client.sent[w.client.acked]) && !AfterInput(w.s, p, now).over
    requires IsAck(reply) && SequenceOf(reply) == w.client.acked
    ensures Leads(ws, es) && |es| == 5 && ws[0] == w
    ensures ws[5].client.acked == w.client.acked + 1 && |ws[5].backend.accepted| > w.client.acked
  {
    hide Frame, Stream, Body, DataOk, AcksOk, AfterInput, AfterBackend;
    var k := w.client.acked;
    var x1 := w.(up := w.up + {p});
    assert Step(w, Client(Repeats(p)), x1) by {
      assert PeerStep(w.client, Repeats(p), w.down, U32, x1.client, {p});
    }
    ClientDataIsUntouched(w.s, p, reply, now);
    var x2 := Applied(x1, AfterInput(w.s, p, now));
    assert p in x2.out && x2.s.attached && x2.live && x2.backend == w.backend && x2.client == w.client by {
      InputSendsOn(x1, p, now);
    }
    var backend :=
      if SequenceOf(p) == |w.backend.accepted| then w.backend.(accepted := w.backend.accepted + [Body(p)])
      else w.backend;
    var x3 := x2.(backend := backend, back := x2.back + {reply});
    assert Step(x2, Backend(Receives(p, reply)), x3) by {
      assert PeerStep(x2.backend, Receives(p, reply), x2.out, U32 - MOST_LOADING, x3.backend, {reply});
    }
    var x4 := Applied(x3, AfterBackend(x3.s, reply));
    ClientDataIsUntouched(x3.s, p, reply, now);
    assert reply in x4.down && x4.client == w.client && x4.backend == backend by { BackendSendsOn(x3, reply); }
    var x5 := x4.(client := w.client.(acked := k + 1), up := x4.up + {});
    assert Step(x4, Client(Receives(reply, reply)), x5) by {
      assert PeerStep(x4.client, Receives(reply, reply), x4.down, U32, x5.client, {});
    }
    ws := [w, x1, x2, x3, x4, x5];
    es := [Client(Repeats(p)), Input(p, now), Backend(Receives(p, reply)), FromBackend(reply),
           Client(Receives(reply, reply))];
  }

  /**
   * A loading message is never stuck either: resent, answered and acknowledged, it leaves the session free to attach.
   */
  lemma LoadingMessageArrives(w: World, reply: Packet, now: int) returns (ws: seq<World>, es: seq<Event>)
    requires Inv(w) && w.live && !w.s.attached && w.s.pending.Some?
    requires w.s.sentAt + SECOND <= now <= w.s.lastSeen + CLIENT_TIMEOUT && now < w.since + ATTEMPT_TIMEOUT
    requires IsAck(reply) && SequenceOf(reply) == w.s.prefix
    ensures Leads(ws, es) && |es| == 3 && ws[0] == w
    ensures ws[3].s.prefix == w.s.prefix + 1 && ws[3].s.pending.None? && |ws[3].client.accepted| > w.s.prefix
    ensures ws[3].live && w.s.target != "" ==> ReadyToAttach(ws[3].s)
  {
    hide Frame, Stream, Body, DataOk, AcksOk, DataPacket, FailurePacket;
    var q := w.s.pending.value;
    LoadingCarries(w.s.prefix, w.loading[w.s.prefix]);
    var r := AfterTick(w.s, now, false);
    var x1 := Applied(w, r).(loading := Issued(w, now, r));
    assert q in x1.down;
    assert Step(w, Tick(now, false), x1);
    var client :=
      if SequenceOf(q) == |w.client.accepted| then w.client.(accepted := w.client.accepted + [Body(q)]) else w.client;
    var x2 := x1.(client := client, up := x1.up + {reply});
    assert Step(x1, Client(Receives(q, reply)), x2) by {
      assert PeerStep(x1.client, Receives(q, reply), x1.down, U32, x2.client, {reply});
    }
    var x3 := Applied(x2, AfterInput(x2.s, reply, now));
    assert Step(x2, Input(reply, now), x3);
    ws := [w, x1, x2, x3];
    es := [Tick(now, false), Client(Receives(q, reply)), Input(reply, now)];
  }
}
