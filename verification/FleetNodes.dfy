/** The fleet together with the controller of each host: what local moves are, and what they keep. */
module FleetNodes {
  import opened FleetState
  import opened FleetPlacement
  import opened FleetStore
  import opened FleetPlan
  import opened Controller
  import opened FleetWorld
  import opened FleetSafety
  import opened FleetTraces
  import opened FleetTheorems
  import Runs = ControllerRuns

  // -- Hosts with their controllers ---------------------------------------------------------------

  /** A host that has not served anything: an empty store and no game on its disk. */
  const FRESH := Runs.Node(Local(false, map[]), false, map[], map[], {}, {})

  function NodeOf(nodes: map<string, Runs.Node>, host: string): Runs.Node {
    if host in nodes then nodes[host] else FRESH
  }

  /** The controller of a fleet host moves by itself: only the host's worker sends it intent. */
  ghost predicate ActsAlone(n: Runs.Node, m: Runs.Node) {
    exists o: Runs.Event :: !o.User? && Runs.Step({}, {}, n, o, m)
  }

  /** How one host goes along with a step of the fleet. */
  ghost predicate NodeFollows(n: Runs.Node, m: Runs.Node, e: Event, x: World, host: string) {
    && m.local == LocalOf(x, host)
    && if e.LocalMoves? && e.host == host then ActsAlone(n, m) else m == n.(local := m.local)
  }

  ghost predicate NodesFollow(ns: map<string, Runs.Node>, ms: map<string, Runs.Node>, e: Event, x: World) {
    forall host :: NodeFollows(NodeOf(ns, host), NodeOf(ms, host), e, x, host)
  }

  ghost predicate FollowsAt(ws: seq<World>, es: seq<Event>, ns: seq<map<string, Runs.Node>>, i: nat)
    requires i < |es| && i + 1 < |ws| && i + 1 < |ns|
  {
    NodesFollow(ns[i], ns[i + 1], es[i], ws[i + 1])
  }

  /** A run of the fleet in which every local move is a step of that host's controller. */
  ghost predicate IsHosted(ws: seq<World>, es: seq<Event>, ns: seq<map<string, Runs.Node>>) {
    && IsRun(ws, es) && |ns| == |ws| && ns[0] == map[]
    && forall i: nat | i < |es| :: FollowsAt(ws, es, ns, i)
  }

  lemma HostedStep(ws: seq<World>, es: seq<Event>, ns: seq<map<string, Runs.Node>>, i: nat)
    requires IsHosted(ws, es, ns) && i < |es|
    ensures Step(ws[i], es[i], ws[i + 1]) && NodesFollow(ns[i], ns[i + 1], es[i], ws[i + 1])
  {
    hide Step, NodesFollow;
    IsStep(ws, es, i);
    assert FollowsAt(ws, es, ns, i);
  }

  // -- What a host keeps --------------------------------------------------------------------------

  /** On a fleet host only games of saved instances are installed. */
  ghost predicate NodeOk(n: Runs.Node) {
    Runs.Inv(n) && n.installed <= n.local.store.Keys
  }

  ghost predicate NodesOk(w: World, ns: map<string, Runs.Node>) {
    forall host :: NodeOf(ns, host).local == LocalOf(w, host) && NodeOk(NodeOf(ns, host))
  }

  predicate IsDeleted(local: Local, id: string) {
    id in local.store && local.store[id].phase == Deleted
  }

  /** Deleted instances stay deleted. */
  ghost predicate KeepsDeleted(a: Local, b: Local) {
    forall id | IsDeleted(a, id) :: IsDeleted(b, id)
  }

  lemma InstallsStored(games: set<string>, providers: set<string>, n: Runs.Node, e: Runs.Event, m: Runs.Node)
    requires NodeOk(n) && Runs.Step(games, providers, n, e, m)
    ensures m.installed <= m.local.store.Keys && KeepsDeleted(n.local, m.local)
  {
    forall id | id in n.local.store ensures id in m.local.store && (IsDeleted(n.local, id) ==> IsDeleted(m.local, id)) {
      hide Runs.Inv, Runs.Step;
      Runs.StoredFollows(games, providers, n, e, m, id);
    }
    assert m.installed <= n.installed + n.flights.Keys by { InstallsFlown(games, providers, n, e, m); }
    assert n.flights.Keys <= n.local.store.Keys by { FlightsAreStored(n); }
  }

  lemma InstallsFlown(games: set<string>, providers: set<string>, n: Runs.Node, e: Runs.Event, m: Runs.Node)
    requires Runs.Step(games, providers, n, e, m)
    ensures m.installed <= n.installed + n.flights.Keys
  {
    hide Runs.AfterUser, Runs.Next, Runs.WithFinding, Runs.WithTimeout;
  }

  lemma FlightsAreStored(n: Runs.Node)
    requires Runs.Inv(n)
    ensures n.flights.Keys <= n.local.store.Keys
  {
  }

  lemma NodeStepKeeps(games: set<string>, providers: set<string>, n: Runs.Node, e: Runs.Event, m: Runs.Node)
    requires NodeOk(n) && Runs.Step(games, providers, n, e, m)
    ensures NodeOk(m) && KeepsDeleted(n.local, m.local)
  {
    hide Runs.Step, Runs.Inv, KeepsDeleted;
    Runs.StepKeepsInv(games, providers, n, e, m);
    InstallsStored(games, providers, n, e, m);
  }

  /** Left to itself a controller creates nothing. */
  lemma AloneAddsNothing(n: Runs.Node, m: Runs.Node)
    requires NodeOk(n) && ActsAlone(n, m)
    ensures NodeOk(m) && KeepsDeleted(n.local, m.local) && m.local.store.Keys <= n.local.store.Keys
  {
    hide Runs.Step, Runs.Inv, KeepsDeleted;
    var o: Runs.Event :| !o.User? && Runs.Step({}, {}, n, o, m);
    NodeStepKeeps({}, {}, n, o, m);
    OthersAddNothing(n, o, m);
  }

  lemma OthersAddNothing(n: Runs.Node, o: Runs.Event, m: Runs.Node)
    requires !o.User? && Runs.Step({}, {}, n, o, m)
    ensures m.local.store.Keys <= n.local.store.Keys
  {
    hide Runs.AfterUser, Runs.Next, Runs.WithFinding, Runs.WithTimeout;
  }

  // -- What a worker does to its host -------------------------------------------------------------

  /** A transaction is nothing, or an intent sent to the controller. */
  ghost predicate Sends(a: Local, b: Local) {
    b == a || exists games, providers, u :: b == Runs.AfterUser(games, providers, a, u)
  }

  lemma ServeSends(local: Local, setup: Setup, v: Server, host: string, seen: Option<Instance>, now: int)
    ensures var b := Serve(local, setup, v, host, seen, now).local;
      && Sends(local, b)
      && forall id | id in b.store && id !in local.store :: id == v.id && v.desired == Running
  {
    hide StartupExpired, LocallyReady, WithDesired, Wellformed, SameSettings, Trimmed;
    var b := Serve(local, setup, v, host, seen, now).local;
    if b != local {
      if b == AfterSetDesired(local, v.id, Stopped, now) {
        assert b == Runs.AfterUser({}, {}, local, Runs.Desires(v.id, Stopped, now));
      } else {
        assert b == Runs.AfterUser(setup.catalog.Keys, {"docker"}, local,
                                   Runs.Creates(CreateRequestOf(v, setup), v.requestId, now));
      }
    }
  }

  lemma AskSends(local: Local, v: Server, host: string, i: Instance, startedAt: int, now: int)
    ensures var b := Ask(local, v, host, i, startedAt, now).local;
      Sends(local, b) && b.store.Keys <= local.store.Keys
  {
    hide WithRequest, Observed;
    var b := Ask(local, v, host, i, startedAt, now).local;
    if b != local {
      assert b == Runs.AfterUser({}, {}, local, Runs.Requests(v.id, v.requestId, v.desired, now));
    }
  }

  lemma SentKeeps(n: Runs.Node, b: Local)
    requires NodeOk(n) && Sends(n.local, b)
    ensures NodeOk(n.(local := b)) && KeepsDeleted(n.local, b)
  {
    hide NodeOk, Runs.AfterUser;
    if b == n.local {
      assert n.(local := b) == n;
    } else {
      var games, providers, u :| b == Runs.AfterUser(games, providers, n.local, u);
      assert Runs.Step(games, providers, n, Runs.User(u), n.(local := b));
      NodeStepKeeps(games, providers, n, Runs.User(u), n.(local := b));
    }
  }

  // -- One step of the fleet ----------------------------------------------------------------------

  /** The host that a step of its worker may change, and the server it is about. */
  ghost predicate Serves(w: World, e: Event, host: string, v: Server) {
    && (e.WorkerServes? || e.WorkerAsks?) && e.p in w.programs && Serving(w.programs[e.p])
    && w.programs[e.p].host == host && w.programs[e.p].snap.servers[w.programs[e.p].i] == v
  }

  /** New instances appear only where a worker serves a server that should run. */
  ghost predicate AddsServed(w: World, e: Event, x: World, host: string) {
    forall id | id in LocalOf(x, host).store && id !in LocalOf(w, host).store ::
      exists v :: Serves(w, e, host, v) && v.id == id && v.desired == Running
  }

  lemma TransactionSends(w: World, p: nat, q: Program, done: Service, x: World, host: string)
    requires p in w.programs && q == w.programs[p] && Serving(q) && Transacts(w, p, q, done, x)
    requires Sends(LocalOf(w, q.host), done.local)
    ensures Sends(LocalOf(w, host), LocalOf(x, host))
    ensures host != q.host ==> LocalOf(x, host) == LocalOf(w, host)
    ensures host == q.host ==> LocalOf(x, host) == done.local
  {
    hide AppliedAfter, AfterTurn;
  }

  lemma ServeStepSends(w: World, e: Event, x: World, host: string)
    requires e.WorkerServes? && e.p in w.programs && ServeStep(w, e.p, w.programs[e.p], e.setup, e.now, x)
    ensures Sends(LocalOf(w, host), LocalOf(x, host)) && AddsServed(w, e, x, host)
  {
    hide Serve, Sends, Transacts;
    var q := w.programs[e.p];
    var v := q.snap.servers[q.i];
    ServeSends(LocalOf(w, q.host), e.setup, v, q.host, q.seen, e.now);
    TransactionSends(w, e.p, q, Serve(LocalOf(w, q.host), e.setup, v, q.host, q.seen, e.now), x, host);
    assert host == q.host ==> Serves(w, e, host, v);
  }

  lemma AskStepSends(w: World, e: Event, x: World, host: string)
    requires e.WorkerAsks? && e.p in w.programs && AskStep(w, e.p, w.programs[e.p], e.setup, e.now, x)
    ensures Sends(LocalOf(w, host), LocalOf(x, host)) && AddsServed(w, e, x, host)
  {
    hide Ask, Sends, Transacts, Serves;
    var q := w.programs[e.p];
    var v := q.snap.servers[q.i];
    AskSends(LocalOf(w, q.host), v, q.host, q.instance, e.setup.startedAt, e.now);
    TransactionSends(w, e.p, q, Ask(LocalOf(w, q.host), v, q.host, q.instance, e.setup.startedAt, e.now), x, host);
  }

  lemma SameLocals(w: World, e: Event, x: World, host: string)
    requires LocalOf(x, host) == LocalOf(w, host)
    ensures Sends(LocalOf(w, host), LocalOf(x, host)) && AddsServed(w, e, x, host)
  {
    hide Serves;
  }

  lemma ReadersKeepLocals(w: World, e: Event, x: World)
    requires ReaderStep(w, e, x)
    ensures x.locals == w.locals
  {
    hide MayBegin, AfterLoad, Serves;
  }

  lemma WorkersSend(w: World, e: Event, x: World, host: string)
    requires WorkerStep(w, e, x) && !AppliesNothing(e) && !(e.LocalMoves? && e.host == host)
    ensures Sends(LocalOf(w, host), LocalOf(x, host)) && AddsServed(w, e, x, host)
  {
    hide ReadStep, ServeStep, AskStep, RereadStep, PublishStep, StumbleStep, LocalMove, Sends, AddsServed;
    match e
    case WorkerServes(p, setup, now) => ServeStepSends(w, e, x, host);
    case WorkerAsks(p, setup, now) => AskStepSends(w, e, x, host);
    case LocalMoves(other, after) => SameLocals(w, e, x, host);
  }

  /** Apart from its own moves a host changes only by what its worker sends. */
  lemma LocalsAreSent(w: World, e: Event, x: World, host: string)
    requires Step(w, e, x) && !(e.LocalMoves? && e.host == host)
    ensures Sends(LocalOf(w, host), LocalOf(x, host)) && AddsServed(w, e, x, host)
  {
    hide Step, Sends, AddsServed, WorkerStep, ReaderStep, Submission, Provision;
    if AppliesNothing(e) {
      StepContinues(w, e, x);
      SameLocals(w, e, x, host);
    } else {
      StepIsOfItsKind(w, e, x);
      if WorkerStep(w, e, x) {
        WorkersSend(w, e, x, host);
      } else {
        ReadersKeepLocals(w, e, x);
        SameLocals(w, e, x, host);
      }
    }
  }

  /** Every host stays consistent with its disk, forgets no deletion, and gets instances only from its worker. */
  lemma NodeStays(w: World, ns: map<string, Runs.Node>, e: Event, x: World, ms: map<string, Runs.Node>, host: string)
    requires Step(w, e, x) && NodesOk(w, ns) && NodesFollow(ns, ms, e, x)
    ensures NodeOf(ms, host).local == LocalOf(x, host) && NodeOk(NodeOf(ms, host))
    ensures KeepsDeleted(LocalOf(w, host), LocalOf(x, host)) && AddsServed(w, e, x, host)
  {
    hide Step, NodeOk, NodeOf, KeepsDeleted, ActsAlone, Sends, Serves;
    var n, m := NodeOf(ns, host), NodeOf(ms, host);
    assert n.local == LocalOf(w, host) && NodeOk(n);
    assert NodeFollows(n, m, e, x, host);
    if e.LocalMoves? && e.host == host {
      AloneAddsNothing(n, m);
    } else {
      LocalsAreSent(w, e, x, host);
      SentKeeps(n, m.local);
    }
  }

  lemma NodesStay(w: World, ns: map<string, Runs.Node>, e: Event, x: World, ms: map<string, Runs.Node>)
    requires Step(w, e, x) && NodesOk(w, ns) && NodesFollow(ns, ms, e, x)
    ensures NodesOk(x, ms)
  {
    hide Step, NodeOk, NodeOf, NodesFollow, AddsServed, KeepsDeleted;
    forall host ensures NodeOf(ms, host).local == LocalOf(x, host) && NodeOk(NodeOf(ms, host)) {
      hide NodesOk;
      NodeStays(w, ns, e, x, ms, host);
    }
  }

  lemma FreshNodesAreOk()
    ensures NodesOk(INITIAL, map[])
  {
  }

  /** A host that keeps no instance of a game, or keeps it as deleted, has nothing of the game installed. */
  lemma GoneMeansUninstalled(w: World, ns: map<string, Runs.Node>, host: string, id: string)
    requires NodesOk(w, ns) && (id in LocalOf(w, host).store ==> IsDeleted(LocalOf(w, host), id))
    ensures id !in NodeOf(ns, host).installed
  {
    var n := NodeOf(ns, host);
    assert n.local == LocalOf(w, host) && NodeOk(n);
    if id in n.local.store {
      assert Runs.PhaseIsHonest(n, id, n.local.store[id]);
    }
  }
}
