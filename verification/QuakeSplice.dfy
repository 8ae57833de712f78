/**
 * A session between an honest client and an honest backend, over a network that loses, repeats and reorders
 * datagrams. Both peers use stop-and-wait: they acknowledge every reliable packet, accept only the expected one, and
 * offer the next only after the last was acknowledged.
 */
module QuakeSplice {
  import opened FleetState
  import opened Octets
  import opened QuakeWire
  import opened QuakeSession

  // -- Reliable fragments -------------------------------------------------------------------------

  datatype Fragment = Fragment(flags: int, payload: Packet)

  function Body(p: Packet): Fragment
    requires Frame(p).Some?
  {
    Fragment(Frame(p).value.flags, p[8..])
  }

  predicate IsData(p: Packet) {
    && Frame(p).Some? && Has(Frame(p).value.flags, DATA)
    && !Has(Frame(p).value.flags, ACK) && !Has(Frame(p).value.flags, NAK)
  }

  predicate IsAck(p: Packet) {
    && Frame(p).Some? && Has(Frame(p).value.flags, ACK) && !Has(Frame(p).value.flags, DATA)
  }

  /** Unreliable packets, negative acknowledgements, and whatever is no frame at all. */
  predicate IsNoise(p: Packet) {
    Frame(p).Some? ==> !Has(Frame(p).value.flags, DATA) && !Has(Frame(p).value.flags, ACK)
  }

  function SequenceOf(p: Packet): int
    requires Frame(p).Some?
  {
    Frame(p).value.sequence
  }

  /** A packet carries fragment `n` of a stream. */
  predicate Carries(p: Packet, n: int, f: Fragment) {
    IsData(p) && SequenceOf(p) == n && Body(p) == f
  }

  // -- Peers --------------------------------------------------------------------------------------

  /** `sent` is the peer's whole outgoing stream, `acked` how much of it was acknowledged. */
  datatype Peer = Peer(sent: seq<Fragment>, acked: nat, accepted: seq<Fragment>)

  const SILENT := Peer([], 0, [])

  datatype Act =
    | Offers(packet: Packet)
    | Repeats(packet: Packet)
    | Receives(packet: Packet, reply: Packet)
    | Says(packet: Packet)

  /** One move of a peer that may send up to `limit` fragments, and the packets it puts on the wire. */
  ghost predicate PeerStep(a: Peer, act: Act, inbox: set<Packet>, limit: int, b: Peer, out: set<Packet>) {
    match act
    case Offers(p) =>
      && a.acked == |a.sent| < limit && IsData(p) && Carries(p, a.acked, Body(p))
      && b == a.(sent := a.sent + [Body(p)]) && out == {p}
    case Repeats(p) => a.acked < |a.sent| && Carries(p, a.acked, a.sent[a.acked]) && b == a && out == {p}
    case Receives(p, reply) =>
      && p in inbox
      && if IsData(p) then
           && IsAck(reply) && SequenceOf(reply) == SequenceOf(p) && out == {reply}
           && b == if SequenceOf(p) == |a.accepted| then a.(accepted := a.accepted + [Body(p)]) else a
         else
           && out == {}
           && b == if IsAck(p) && SequenceOf(p) == a.acked && a.acked < |a.sent| then a.(acked := a.acked + 1) else a
    case Says(p) => IsNoise(p) && b == a && out == {p}
  }

  // -- The world ----------------------------------------------------------------------------------

  /** Every datagram ever sent on a link may still arrive, any number of times. */
  datatype World = World(s: State, since: int, live: bool, loading: seq<Packet>, client: Peer, backend: Peer,
                         up: set<Packet>, down: set<Packet>, out: set<Packet>, back: set<Packet>)

  const MOST_LOADING := 90

  datatype Event =
    | Client(act: Act)
    | Backend(act: Act)
    | Input(packet: Packet, now: int)
    | FromBackend(packet: Packet)
    | Tick(now: int, bootOver: bool)
    | Resolved(address: string)
    | Attach
    | AttachFails
    | Fail(message: string)
    | End

  function Members(q: seq<Packet>): set<Packet> {
    set p | p in q
  }

  function Applied(w: World, r: Reaction): World {
    w.(s := r.state, down := w.down + Members(r.toClient), out := w.out + Members(r.toBackend), live := !r.over)
  }

  /** A tick issues a loading message when it leaves a new packet pending. */
  function Issued(w: World, now: int, r: Reaction): seq<Packet> {
    if w.s.pending.None? && r.state.pending.Some? then w.loading + [Payload(w.s, now)] else w.loading
  }

  ghost predicate Step(w: World, e: Event, x: World)
  {
    match e
    case Client(act) =>
      exists out :: PeerStep(w.client, act, w.down, U32, x.client, out) && x == w.(client := x.client, up := w.up + out)
    case Backend(act) =>
      && w.s.attached
      && exists out :: PeerStep(w.backend, act, w.out, U32 - MOST_LOADING, x.backend, out)
                       && x == w.(backend := x.backend, back := w.back + out)
    case Input(p, now) => w.live && p in w.up && x == Applied(w, AfterInput(w.s, p, now))
    case FromBackend(p) => w.live && w.s.attached && p in w.back && x == Applied(w, AfterBackend(w.s, p))
    case Tick(now, bootOver) =>
      && w.live && (!bootOver ==> now < w.since + ATTEMPT_TIMEOUT)
      && var r := AfterTick(w.s, now, bootOver); x == Applied(w, r).(loading := Issued(w, now, r))
    case Resolved(address) => w.live && w.s.target == "" && x == w.(s := w.s.(target := address))
    case Attach => w.live && ReadyToAttach(w.s) && x == Applied(w, AfterAttach(w.s))
    case AttachFails => w.live && ReadyToAttach(w.s) && x == w.(s := w.s.(target := ""))
    case Fail(message) =>
      w.live && !w.s.attached && |message| <= 2048 && x == w.(down := w.down + {FailurePacket(message)}, live := false)
    case End => w.live && x == w.(live := false)
  }

  predicate Initial(w: World) {
    && w.s == Opened(w.since) && w.live && w.loading == [] && w.client == SILENT && w.backend == SILENT
    && w.up == {} && w.down == {} && w.out == {} && w.back == {}
  }

  // -- Invariant ----------------------------------------------------------------------------------

  function LoadingFragment(payload: Packet): Fragment {
    Fragment(DATA + EOM, payload)
  }

  function LoadingFragments(loading: seq<Packet>): seq<Fragment> {
    seq(|loading|, i requires 0 <= i < |loading| => LoadingFragment(loading[i]))
  }

  /** What the client is meant to see: the loading messages, then the backend's own stream. */
  function Stream(w: World): seq<Fragment> {
    LoadingFragments(w.loading) + w.backend.sent
  }

  predicate PeerOk(p: Peer) {
    p.acked <= |p.sent| <= p.acked + 1
  }

  /** Every reliable packet on a link carries its place of the stream, no further than the receiver got. */
  predicate DataOk(link: set<Packet>, stream: seq<Fragment>, accepted: nat) {
    forall p | p in link && Frame(p).Some? && Has(Frame(p).value.flags, DATA) ::
      IsData(p) && SequenceOf(p) < |stream| && SequenceOf(p) <= accepted && Body(p) == stream[SequenceOf(p)]
  }

  /** Every acknowledgement on a link is for something accepted; `shift` loading messages come before. */
  predicate AcksOk(link: set<Packet>, accepted: nat, shift: int) {
    forall p | p in link && IsAck(p) :: SequenceOf(p) + shift < accepted
  }

  predicate LoadingOk(w: World) {
    && w.s.prefix <= |w.loading| <= MOST_LOADING
    && (w.s.pending.Some? ==>
          && |w.loading| == w.s.prefix + 1 && 8 + |w.loading[w.s.prefix]| < LENGTHS
          && w.s.pending.value == DataPacket(w.s.prefix, w.loading[w.s.prefix]))
    && (w.s.pending.None? ==> |w.loading| == w.s.prefix)
    && (w.s.attached ==> w.s.pending.None? && w.s.target != "")
    && w.s.nextMessage >= w.since + MESSAGE_SPACING * |w.loading|
    && (w.loading != [] ==> w.s.nextMessage < w.since + ATTEMPT_TIMEOUT + MESSAGE_SPACING)
    && w.s.began == w.since
  }

  predicate DownstreamOk(w: World) {
    && PeerOk(w.backend) && |w.backend.sent| <= U32 - MOST_LOADING
    && w.client.accepted <= Stream(w)
    && w.s.prefix + w.backend.acked <= |w.client.accepted|
    && (!w.s.attached ==> w.backend == SILENT && w.back == {} && w.out == {})
    && DataOk(w.down, Stream(w), |w.client.accepted|)
    && AcksOk(w.up, |w.client.accepted|, 0)
    && AcksOk(w.out, |w.client.accepted|, w.s.prefix)
    && DataOk(w.back, w.backend.sent, w.backend.acked)
  }

  predicate UpstreamOk(w: World) {
    && PeerOk(w.client) && |w.client.sent| <= U32
    && w.backend.accepted <= w.client.sent
    && w.client.acked <= |w.backend.accepted|
    && DataOk(w.up, w.client.sent, |w.backend.accepted|)
    && DataOk(w.out, w.client.sent, |w.backend.accepted|)
    && (w.s.initial.Some? ==>
          w.s.initial.value in w.up && IsData(w.s.initial.value) && SequenceOf(w.s.initial.value) == 0)
    && AcksOk(w.back, |w.backend.accepted|, 0)
    && AcksOk(w.down, |w.backend.accepted|, 0)
  }

  predicate Inv(w: World) {
    LoadingOk(w) && DownstreamOk(w) && UpstreamOk(w)
  }

  // -- Packets ------------------------------------------------------------------------------------

  lemma LoadingCarries(n: int, payload: Packet)
    requires 0 <= n < U32 && 8 + |payload| < LENGTHS
    ensures Carries(DataPacket(n, payload), n, LoadingFragment(payload))
    ensures !IsAck(DataPacket(n, payload)) && Has(Frame(DataPacket(n, payload)).value.flags, DATA)
  {
    hide Frame, DataPacket;
    FrameInvertsData(n, payload);
  }

  lemma FailureIsNoise(message: string)
    requires |message| <= 2048
    ensures IsNoise(FailurePacket(message)) && !IsAck(FailurePacket(message))
    ensures Frame(FailurePacket(message)).Some? && !Has(Frame(FailurePacket(message)).value.flags, DATA)
  {
    hide FailurePacket, IsNoise, IsAck, Frame, Has;
    FailureIsUnreliable(message);
    UnreliableIsNoise(FailurePacket(message));
  }

  lemma FailureIsUnreliable(message: string)
    requires |message| <= 2048
    ensures var r := FailurePacket(message); 8 <= |r| <= 2060 && Word(r) == UNRELIABLE + |r|
  {
    hide BigEndian, Word;
    var p := DataPacket(0, PrintMessage(message + "\n") + [2]);
    assert |p| == 8 + |message| + 4 && |p| % UNRELIABLE == |p|;
    WordInverts(UNRELIABLE + |p|, p[4..]);
  }

  lemma UnreliableIsNoise(r: Packet)
    requires 8 <= |r| <= 2060 && Word(r) == UNRELIABLE + |r|
    ensures IsNoise(r) && !IsAck(r) && Frame(r).Some? && !Has(Frame(r).value.flags, DATA)
  {
    hide Word;
  }

  /** A shifted packet is of the same kind and carries the same body. */
  lemma ShiftKeepsKind(p: Packet, sequence: int)
    requires Frame(p).Some? && 0 <= sequence < U32
    ensures var r := WithSequence(p, sequence);
      && Frame(r).Some? && SequenceOf(r) == sequence && Body(r) == Body(p)
      && IsData(r) == IsData(p) && IsAck(r) == IsAck(p) && IsNoise(r) == IsNoise(p)
      && Has(Frame(r).value.flags, DATA) == Has(Frame(p).value.flags, DATA)
  {
    hide Frame, WithSequence;
    SequenceIsSeparate(p, sequence);
  }

  lemma NoticeIsShort(milliseconds: int)
    requires milliseconds < 1000 * SECOND
    requires milliseconds > -SECOND
    ensures |Notice(milliseconds)| <= 100
  {
  }

  // -- Links --------------------------------------------------------------------------------------

  lemma LinkGrows(link: set<Packet>, more: set<Packet>, stream: seq<Fragment>, accepted: nat)
    requires DataOk(link, stream, accepted) && DataOk(more, stream, accepted)
    ensures DataOk(link + more, stream, accepted)
  {
  }

  lemma LinkStays(link: set<Packet>, stream: seq<Fragment>, accepted: nat, longer: seq<Fragment>, further: nat)
    requires DataOk(link, stream, accepted) && stream <= longer && accepted <= further
    ensures DataOk(link, longer, further)
  {
  }

  // -- Client and backend -------------------------------------------------------------------------

  /** What one move does to the mover's two streams and to its outgoing link. */
  lemma PeerMoves(a: Peer, act: Act, inbox: set<Packet>, limit: int, b: Peer, out: set<Packet>, incoming: seq<Fragment>,
                  received: nat)
    requires PeerStep(a, act, inbox, limit, b, out) && PeerOk(a) && |a.sent| <= limit
    requires a.accepted <= incoming && DataOk(inbox, incoming, |a.accepted|)
    requires AcksOk(inbox, received, 0) && a.acked <= received
    ensures PeerOk(b) && |b.sent| <= limit && a.sent <= b.sent && a.acked <= b.acked <= received
    ensures a.accepted <= b.accepted <= incoming
    ensures DataOk(out, b.sent, b.acked) && AcksOk(out, |b.accepted|, 0)
  {
    hide Frame;
    if act.Receives? && IsData(act.packet) {
      assert SequenceOf(act.packet) <= |a.accepted|;
      assert !IsData(act.reply);
    }
  }

  lemma StreamGrows(w: World, x: World)
    requires x.loading == w.loading && w.backend.sent <= x.backend.sent
    ensures Stream(w) <= Stream(x)
  {
  }

  lemma ClientKeeps(w: World, act: Act, x: World, out: set<Packet>)
    requires Inv(w) && PeerStep(w.client, act, w.down, U32, x.client, out)
    requires x == w.(client := x.client, up := w.up + out)
    ensures Inv(x) && w.client.accepted <= x.client.accepted
  {
    hide PeerStep, DataOk, AcksOk, PeerOk, IsAck, IsData;
    PeerMoves(w.client, act, w.down, U32, x.client, out, Stream(w), |w.backend.accepted|);
    LinkStays(w.up, w.client.sent, |w.backend.accepted|, x.client.sent, |x.backend.accepted|);
    LinkStays(out, x.client.sent, x.client.acked, x.client.sent, |x.backend.accepted|);
    LinkGrows(w.up, out, x.client.sent, |x.backend.accepted|);
    LinkStays(w.out, w.client.sent, |w.backend.accepted|, x.client.sent, |x.backend.accepted|);
    LinkStays(w.down, Stream(w), |w.client.accepted|, Stream(x), |x.client.accepted|);
    AcksGrow(w.up, out, |w.client.accepted|, |x.client.accepted|, 0);
    NoAcks(|x.client.accepted|, w.s.prefix);
    AcksGrow(w.out, {}, |w.client.accepted|, |x.client.accepted|, w.s.prefix);
  }

  lemma AcksGrow(link: set<Packet>, more: set<Packet>, accepted: nat, further: nat, shift: int)
    requires AcksOk(link, accepted, shift) && accepted <= further && AcksOk(more, further, shift)
    ensures AcksOk(link + more, further, shift) && AcksOk(link, further, shift)
  {
  }

  lemma NoAcks(accepted: nat, shift: int)
    ensures AcksOk({}, accepted, shift)
  {
  }

  lemma AcksShift(link: set<Packet>, accepted: nat, shift: int)
    requires AcksOk(link, accepted, shift) && shift <= accepted
    ensures AcksOk(link, accepted - shift, 0)
  {
  }

  lemma BackendKeeps(w: World, act: Act, x: World, out: set<Packet>)
    requires Inv(w) && w.s.attached && PeerStep(w.backend, act, w.out, U32 - MOST_LOADING, x.backend, out)
    requires x == w.(backend := x.backend, back := w.back + out)
    ensures Inv(x) && w.backend.accepted <= x.backend.accepted
  {
    hide PeerStep, DataOk, AcksOk, PeerOk, IsAck, IsData;
    var received := |w.client.accepted| - w.s.prefix;
    AcksShift(w.out, |w.client.accepted|, w.s.prefix);
    PeerMoves(w.backend, act, w.out, U32 - MOST_LOADING, x.backend, out, w.client.sent, received);
    StreamGrows(w, x);
    LinkStays(w.back, w.backend.sent, w.backend.acked, x.backend.sent, x.backend.acked);
    LinkGrows(w.back, out, x.backend.sent, x.backend.acked);
    LinkStays(w.down, Stream(w), |w.client.accepted|, Stream(x), |x.client.accepted|);
    LinkStays(w.up, w.client.sent, |w.backend.accepted|, x.client.sent, |x.backend.accepted|);
    LinkStays(w.out, w.client.sent, |w.backend.accepted|, x.client.sent, |x.backend.accepted|);
    AcksGrow(w.back, out, |w.backend.accepted|, |x.backend.accepted|, 0);
    NoAcks(|x.backend.accepted|, 0);
    AcksGrow(w.down, {}, |w.backend.accepted|, |x.backend.accepted|, 0);
  }

  // -- The gateway --------------------------------------------------------------------------------

  /** What an input packet adds to the link to the backend. */
  lemma InputLinks(w: World, p: Packet, now: int)
    requires Inv(w) && p in w.up
    ensures var r := AfterInput(w.s, p, now);
      && DataOk(Members(r.toBackend), w.client.sent, |w.backend.accepted|)
      && AcksOk(Members(r.toBackend), |w.client.accepted|, w.s.prefix)
      && (!w.s.attached ==> r.toBackend == [])
      && (r.state.initial.Some? ==>
            && r.state.initial.value in w.up && IsData(r.state.initial.value)
            && SequenceOf(r.state.initial.value) == 0)
  {
    hide Frame, WithSequence, Body, Inv, LoadingOk, DownstreamOk, UpstreamOk;
    UpLinksAreOk(w);
    if Frame(p).Some? && ShiftDown(p, w.s.prefix).Some? {
      ShiftKeepsKind(p, (SequenceOf(p) - w.s.prefix) % U32);
    }
  }

  lemma UpLinksAreOk(w: World)
    requires Inv(w)
    ensures DataOk(w.up, w.client.sent, |w.backend.accepted|) && AcksOk(w.up, |w.client.accepted|, 0)
    ensures w.s.initial.Some? ==>
              w.s.initial.value in w.up && IsData(w.s.initial.value) && SequenceOf(w.s.initial.value) == 0
    ensures |w.client.sent| <= U32 && w.s.prefix <= MOST_LOADING
  {
    hide DataOk, AcksOk, IsData;
  }

  /** A loading message counts only when its own acknowledgement arrived; once attached the prefix is frozen. */
  lemma InputPrefix(w: World, p: Packet, now: int)
    requires Inv(w) && p in w.up
    ensures var s := AfterInput(w.s, p, now).state;
      && s == w.s.(prefix := s.prefix, pending := s.pending, initial := s.initial, lastSeen := s.lastSeen)
      && ((s.prefix == w.s.prefix && s.pending == w.s.pending)
          || (!w.s.attached && w.s.pending.Some? && s.pending.None? && s.prefix == w.s.prefix + 1
              && s.prefix <= |w.client.accepted|))
  {
    hide Frame, WithSequence, Body;
  }

  lemma InputKeeps(w: World, p: Packet, now: int, x: World)
    requires Inv(w) && p in w.up && x == Applied(w, AfterInput(w.s, p, now))
    ensures Inv(x)
  {
    hide AfterInput, DataOk, AcksOk, PeerOk, IsData;
    InputLinks(w, p, now);
    InputPrefix(w, p, now);
    var more := Members(AfterInput(w.s, p, now).toBackend);
    LinkGrows(w.out, more, w.client.sent, |w.backend.accepted|);
    if w.s.attached {
      AcksGrow(w.out, more, |w.client.accepted|, |w.client.accepted|, w.s.prefix);
    } else {
      NoAcks(|w.client.accepted|, x.s.prefix);
      assert x.out == {};
    }
    assert Members(AfterInput(w.s, p, now).toClient) == {} by { InputToClient(w.s, p, now); }
    assert x.down == w.down;
  }

  lemma InputToClient(s: State, p: Packet, now: int)
    ensures AfterInput(s, p, now).toClient == []
  {
  }

  lemma FromBackendKeeps(w: World, p: Packet, x: World)
    requires Inv(w) && w.s.attached && p in w.back && x == Applied(w, AfterBackend(w.s, p))
    ensures Inv(x)
  {
    hide Frame, WithSequence, Body, PeerOk;
    if Frame(p).Some? {
      var n := (SequenceOf(p) + w.s.prefix) % U32;
      ShiftKeepsKind(p, n);
      if Has(Frame(p).value.flags, DATA) {
        assert n == w.s.prefix + SequenceOf(p);
        assert Stream(w)[n] == w.backend.sent[SequenceOf(p)];
      }
    }
    var more := Members(AfterBackend(w.s, p).toClient);
    assert x.out == w.out;
    assert DataOk(more, Stream(w), |w.client.accepted|) && AcksOk(more, |w.backend.accepted|, 0);
  }

  /** A new loading message is issued on time, after the one before was acknowledged, and before the deadline. */
  lemma IssueKeeps(w: World, now: int, x: World)
    requires Inv(w) && !w.s.attached && WantsMessage(w.s, now) && now < w.since + ATTEMPT_TIMEOUT
    requires var p := DataPacket(w.s.prefix, Payload(w.s, now));
      && x.s == w.s.(pending := Some(p), sentAt := now, nextMessage := now + MESSAGE_SPACING,
                     nextNotice := x.s.nextNotice)
      && x == w.(s := x.s, down := w.down + {p}, loading := w.loading + [Payload(w.s, now)])
    ensures Inv(x)
  {
    hide DataPacket, Payload, Notice, AcksOk, DataOk, PeerOk, IsData, IsAck;
    var n := w.s.prefix;
    var payload := Payload(w.s, now);
    assert 8 + |payload| < LENGTHS by { PayloadIsShort(w.s, now); }
    LoadingCarries(n, payload);
    var p := DataPacket(n, payload);
    assert Stream(x) == LoadingFragments(x.loading) && Stream(w) <= Stream(x)
        && Stream(x)[n] == LoadingFragment(payload);
    LinkStays(w.down, Stream(w), |w.client.accepted|, Stream(x), |w.client.accepted|);
    assert DataOk({p}, Stream(x), |w.client.accepted|) by { OneDataOk(p, n, Stream(x), |w.client.accepted|); }
    LinkGrows(w.down, {p}, Stream(x), |w.client.accepted|);
    assert AcksOk({p}, |w.backend.accepted|, 0) by { OneNoAck(p, |w.backend.accepted|); }
    AcksGrow(w.down, {p}, |w.backend.accepted|, |w.backend.accepted|, 0);
  }

  lemma PayloadIsShort(s: State, now: int)
    requires s.began <= now < s.began + ATTEMPT_TIMEOUT
    ensures |Payload(s, now)| <= 100
  {
    hide Notice;
    NoticeIsShort(now - s.began);
  }

  lemma OneDataOk(p: Packet, n: int, stream: seq<Fragment>, accepted: nat)
    requires 0 <= n < |stream| && n <= accepted && Carries(p, n, stream[n])
    ensures DataOk({p}, stream, accepted)
  {
    hide Frame;
  }

  lemma OneNoAck(p: Packet, accepted: nat)
    requires !IsAck(p)
    ensures AcksOk({p}, accepted, 0)
  {
  }

  /** Sending again what is pending, or a farewell, adds nothing new to the client's link. */
  lemma ResendKeeps(w: World, s: State, live: bool, p: Packet, x: World)
    requires Inv(w) && (w.s.pending == Some(p) || p == FailurePacket(TIMED_OUT))
    requires x == w.(s := s, live := live, down := w.down + {p}) && s == w.s.(sentAt := s.sentAt)
    ensures Inv(x)
  {
    hide DataPacket, FailurePacket, AcksOk, DataOk, PeerOk, IsData, IsAck;
    if p == FailurePacket(TIMED_OUT) {
      FailureIsNoise(TIMED_OUT);
      assert DataOk({p}, Stream(x), |w.client.accepted|) by { OneQuiet(p, Stream(x), |w.client.accepted|); }
      assert AcksOk({p}, |w.backend.accepted|, 0) by { OneNoAck(p, |w.backend.accepted|); }
    } else {
      var n := w.s.prefix;
      LoadingCarries(n, w.loading[n]);
      assert Stream(x)[n] == LoadingFragment(w.loading[n]);
      OneDataOk(p, n, Stream(x), |w.client.accepted|);
      OneNoAck(p, |w.backend.accepted|);
    }
    LinkGrows(w.down, {p}, Stream(x), |w.client.accepted|);
    AcksGrow(w.down, {p}, |w.backend.accepted|, |w.backend.accepted|, 0);
  }

  lemma OneQuiet(p: Packet, stream: seq<Fragment>, accepted: nat)
    requires Frame(p).Some? ==> !Has(Frame(p).value.flags, DATA)
    ensures DataOk({p}, stream, accepted)
  {
    hide Frame;
  }

  lemma TickKeeps(w: World, now: int, bootOver: bool, x: World)
    requires Inv(w) && w.live && (!bootOver ==> now < w.since + ATTEMPT_TIMEOUT)
    requires var r := AfterTick(w.s, now, bootOver); x == Applied(w, r).(loading := Issued(w, now, r))
    ensures Inv(x)
  {
    hide DataPacket, FailurePacket, Payload, DownstreamOk, UpstreamOk, Inv;
    var r := AfterTick(w.s, now, bootOver);
    assert Members(r.toBackend) == {} && x.out == w.out;
    if r.toClient == [] {
      assert x.down == w.down;
      LiveIsAside(w, x);
    } else {
      assert Members(r.toClient) == {r.toClient[0]};
      LoadingIsOk(w);
      if bootOver || w.s.pending.Some? {
        ResendKeeps(w, r.state, x.live, r.toClient[0], x);
      } else {
        IssueKeeps(w, now, x);
      }
    }
  }

  lemma LoadingIsOk(w: World)
    requires Inv(w)
    ensures LoadingOk(w)
  {
  }

  lemma LiveIsAside(w: World, x: World)
    requires Inv(w) && x == w.(live := x.live)
    ensures Inv(x)
  {
  }

  lemma AttachKeeps(w: World, x: World)
    requires Inv(w) && ReadyToAttach(w.s) && x == Applied(w, AfterAttach(w.s))
    ensures Inv(x)
  {
    hide Frame, Body, DataOk, AcksOk, PeerOk, IsAck;
    assert x.down == w.down;
    assert DataOk(x.out, w.client.sent, |w.backend.accepted|) by {
      SubLink(x.out, w.up, w.client.sent, |w.backend.accepted|);
    }
    assert AcksOk(x.out, |w.client.accepted|, w.s.prefix) by { InitialIsNoAck(w, x); }
  }

  lemma SubLink(few: set<Packet>, link: set<Packet>, stream: seq<Fragment>, accepted: nat)
    requires few <= link && DataOk(link, stream, accepted)
    ensures DataOk(few, stream, accepted)
  {
  }

  lemma InitialIsNoAck(w: World, x: World)
    requires w.out == {} && x.out <= Members(AfterAttach(w.s).toBackend)
    requires w.s.initial.Some? ==> IsData(w.s.initial.value)
    ensures AcksOk(x.out, |w.client.accepted|, w.s.prefix)
  {
    hide Frame;
  }

  lemma FailKeeps(w: World, message: string, x: World)
    requires Inv(w) && |message| <= 2048 && x == w.(down := w.down + {FailurePacket(message)}, live := false)
    ensures Inv(x)
  {
    hide FailurePacket, AcksOk, DataOk, PeerOk, IsAck;
    var p := FailurePacket(message);
    FailureIsNoise(message);
    OneQuiet(p, Stream(x), |w.client.accepted|);
    OneNoAck(p, |w.backend.accepted|);
    LinkGrows(w.down, {p}, Stream(x), |w.client.accepted|);
    AcksGrow(w.down, {p}, |w.backend.accepted|, |w.backend.accepted|, 0);
  }

  // -- Runs ---------------------------------------------------------------------------------------

  lemma InitialInv(w: World)
    requires Initial(w)
    ensures Inv(w)
  {
  }

  /** Accepted streams only grow, and a splice point once made stays where it is. */
  predicate Grows(w: World, x: World) {
    && w.client.accepted <= x.client.accepted && w.backend.accepted <= x.backend.accepted
    && w.client.sent <= x.client.sent && w.backend.sent <= x.backend.sent
    && w.loading <= x.loading
    && (w.s.attached ==> x.s.attached && x.s.prefix == w.s.prefix && x.loading == w.loading)
  }

  lemma PeerGrows(a: Peer, act: Act, inbox: set<Packet>, limit: int, b: Peer, out: set<Packet>)
    requires PeerStep(a, act, inbox, limit, b, out)
    ensures a.sent <= b.sent && a.accepted <= b.accepted
  {
    hide Frame, Body;
  }

  lemma StepKeepsInv(w: World, e: Event, x: World)
    requires Inv(w) && Step(w, e, x)
    ensures Inv(x) && Grows(w, x)
  {
    hide Inv, PeerStep, AfterInput, AfterTick, AfterBackend, FailurePacket, AfterAttach;
    LoadingIsOk(w);
    match e
    case Client(act) =>
      var out :| PeerStep(w.client, act, w.down, U32, x.client, out) && x == w.(client := x.client, up := w.up + out);
      PeerGrows(w.client, act, w.down, U32, x.client, out);
      ClientKeeps(w, act, x, out);
    case Backend(act) =>
      var out :| PeerStep(w.backend, act, w.out, U32 - MOST_LOADING, x.backend, out)
                 && x == w.(backend := x.backend, back := w.back + out);
      PeerGrows(w.backend, act, w.out, U32 - MOST_LOADING, x.backend, out);
      BackendKeeps(w, act, x, out);
    case Input(p, now) =>
      InputPrefix(w, p, now);
      InputKeeps(w, p, now, x);
    case FromBackend(p) =>
      FromBackendKeeps(w, p, x);
      assert x.s == w.s by { BackendKeepsState(w.s, p); }
    case Tick(now, bootOver) =>
      TickKeeps(w, now, bootOver, x);
      TickKeepsState(w.s, now, bootOver);
    case Resolved(address) => ResolvedKeeps(w, address, x);
    case Attach =>
      AttachKeeps(w, x);
      assert x.s == w.s.(attached := true) by { AttachOnly(w.s); }
    case AttachFails => ResolvedKeeps(w, "", x);
    case Fail(message) => FailKeeps(w, message, x);
    case End => LiveIsAside(w, x);
  }

  lemma AttachOnly(s: State)
    ensures AfterAttach(s).state == s.(attached := true)
  {
  }

  lemma BackendKeepsState(s: State, p: Packet)
    ensures AfterBackend(s, p).state == s
  {
  }

  lemma TickKeepsState(s: State, now: int, bootOver: bool)
    ensures var r := AfterTick(s, now, bootOver);
      r.state.attached == s.attached && r.state.prefix == s.prefix && (s.attached ==> r.state == s)
  {
    hide DataPacket, FailurePacket, Payload;
  }

  lemma ResolvedKeeps(w: World, address: string, x: World)
    requires Inv(w) && !w.s.attached && x == w.(s := w.s.(target := address))
    ensures Inv(x)
  {
  }

  ghost predicate IsRun(ws: seq<World>, es: seq<Event>) {
    && |ws| == |es| + 1
    && Initial(ws[0])
    && forall i | 0 <= i < |es| :: Step(ws[i], es[i], ws[i + 1])
  }

  lemma {:induction false} RunKeepsInv(ws: seq<World>, es: seq<Event>, i: nat)
    requires IsRun(ws, es) && i < |ws|
    ensures Inv(ws[i])
  {
    hide Step, Initial, Inv;
    if i == 0 {
      InitialInv(ws[0]);
    } else {
      RunKeepsInv(ws, es, i - 1);
      StepKeepsInv(ws[i - 1], es[i - 1], ws[i]);
    }
  }
}
