/** Runs that reach the interesting states: a server, a machine, and the removal of a host. */
module FleetWitness {
  import opened FleetState
  import opened FleetPlacement
  import opened FleetStore
  import opened FleetPlan
  import opened FleetWorld
  import opened FleetHistory
  import opened FleetSafety
  import opened FleetTheorems

  /** Drawn identities are new and differ from each other. */
  predicate Fresh(w: World, drawn: Drawn) {
    && Unused(w, drawn.host) && Unused(w, drawn.launch) && Unused(w, drawn.request)
    && drawn.host != drawn.launch && drawn.host != drawn.request && drawn.launch != drawn.request
  }

  /** A create by a new program, from its start up to its save, whichever host was chosen. */
  lemma CreatePath(w: World, p: nat, c: Config, id: string, game: Game, name: string, chosen: Option<Host>,
                   drawn: Drawn, now: int)
    returns (ws: seq<World>)
    requires p !in w.programs && ValidConfig(c) && game in c.games && Fresh(w, drawn)
    requires id !in w.store.tombstones
    requires var plan := PlanCreate(c, id, game, name, w.store.registry, false, chosen, drawn, now);
      plan.Propose? && Storable(plan.next, w.store.registry.revision)
    ensures |ws| == 5 && ws[0] == w
    ensures Step(w, Spawn(p, CreateBegin(c, id, game, name, ATTEMPTS)), ws[1])
    ensures Step(ws[1], Load(p), ws[2]) && Step(ws[2], CheckTombstone(p), ws[3])
    ensures p in ws[3].programs && ws[3].programs[p] == CreateChecked(c, id, game, name, ATTEMPTS, w.store.registry)
    ensures CreateTries(ws[3], p, ws[3].programs[p], chosen, drawn, now, Outcome.Committed, ws[4])
    ensures var next := PlanCreate(c, id, game, name, w.store.registry, false, chosen, drawn, now).next;
      && ws[4].store == Saved(w.store, next) && ws[4].programs == w.programs[p := Done]
      && ws[4].minted == w.minted + {drawn.host, drawn.launch, drawn.request}
      && ws[4].machines == w.machines && ws[4].requests == w.requests
  {
    hide Step, CreateTries, ValidConfig, PlanCreate;
    var s := w.store.registry;
    ProposedIsNew(c, id, game, name, s, chosen, drawn, now);
    CreateReads(w, p, c, id, game, name);
    var w1 := Resumed(w, p, CreateBegin(c, id, game, name, ATTEMPTS));
    var w2 := Resumed(w1, p, CreateLoaded(c, id, game, name, ATTEMPTS, s));
    var w3 := Resumed(w2, p, CreateChecked(c, id, game, name, ATTEMPTS, s));
    var w4 := CreateSaves(w3, p, chosen, drawn, now);
    assert w4.programs == w.programs[p := Done];
    ws := [w, w1, w2, w3, w4];
  }

  lemma CreateReads(w: World, p: nat, c: Config, id: string, game: Game, name: string)
    requires p !in w.programs && ValidConfig(c) && game in c.games
    requires id !in w.store.tombstones && id !in ServerIds(w.store.registry) && !w.store.registry.deleting
    ensures var w1 := Resumed(w, p, CreateBegin(c, id, game, name, ATTEMPTS));
      var w2 := Resumed(w1, p, CreateLoaded(c, id, game, name, ATTEMPTS, w.store.registry));
      var w3 := Resumed(w2, p, CreateChecked(c, id, game, name, ATTEMPTS, w.store.registry));
      && Step(w, Spawn(p, CreateBegin(c, id, game, name, ATTEMPTS)), w1)
      && Step(w1, Load(p), w2) && Step(w2, CheckTombstone(p), w3)
  {
    hide ValidConfig, Submission, Provision, WorkerStep;
  }

  lemma CreateSaves(w: World, p: nat, chosen: Option<Host>, drawn: Drawn, now: int) returns (x: World)
    requires p in w.programs && w.programs[p].CreateChecked? && w.programs[p].snap == w.store.registry
        && Fresh(w, drawn)
    requires var q := w.programs[p];
      var plan := PlanCreate(q.c, q.id, q.game, q.name, q.snap, false, chosen, drawn, now);
      plan.Propose? && Storable(plan.next, w.store.registry.revision)
    ensures CreateTries(w, p, w.programs[p], chosen, drawn, now, Outcome.Committed, x)
    ensures var q := w.programs[p];
      var next := PlanCreate(q.c, q.id, q.game, q.name, q.snap, false, chosen, drawn, now).next;
      && x.store == Saved(w.store, next) && x.programs == w.programs[p := Done]
      && x.minted == w.minted + {drawn.host, drawn.launch, drawn.request}
      && x.machines == w.machines && x.requests == w.requests
  {
    hide PlanCreate, Recorded, Storable;
    var q := w.programs[p];
    var plan := PlanCreate(q.c, q.id, q.game, q.name, q.snap, false, chosen, drawn, now);
    var used := w.(minted := w.minted + {drawn.host, drawn.launch, drawn.request});
    x := Resumed(AfterSave(used, plan.next, q.snap.revision), p, Done);
  }

  lemma ProposedIsNew(c: Config, id: string, game: Game, name: string, s: Registry, chosen: Option<Host>, drawn: Drawn,
                      now: int)
    requires PlanCreate(c, id, game, name, s, false, chosen, drawn, now).Propose?
    ensures id !in ServerIds(s) && !s.deleting
  {
  }

  /** A new deployment's first create goes through: one host, one server. */
  lemma FirstCreateSucceeds(c: Config, id: string, game: Game, name: string, drawn: Drawn, now: int)
    returns (ws: seq<World>, es: seq<Event>)
    requires ValidConfig(c) && game in c.games && !Expired(c, now)
    requires drawn.host != "" && drawn.launch != "" && drawn.request != ""
    requires drawn.host != drawn.launch && drawn.host != drawn.request && drawn.launch != drawn.request
    ensures IsRun(ws, es) && |es| == 4 && |ws| == 5
    ensures forall i | 0 <= i < 4 :: es[i].Spawn? || es[i].Load? || es[i].CheckTombstone? || es[i].SubmitCreate?
    ensures ws[4].minted == {drawn.host, drawn.launch, drawn.request}
    ensures var s := ws[4].store.registry;
      && s == Registry(1, [NewHost(c, drawn, now)], [NewServer(id, game, name, drawn.host, drawn, now)], false)
      && ws[4].store == Store(s, {}, map[])
      && ws[4].machines == map[] && ws[4].requests == {} && ws[4].programs == map[0 := Done]
  {
    hide Step, PlanCreate, CreateTries, ValidConfig;
    assert PlanCreate(c, id, game, name, EMPTY, false, None, drawn, now)
        == Propose(EMPTY.(hosts := [NewHost(c, drawn, now)],
                          servers := [NewServer(id, game, name, drawn.host, drawn, now)]),
                   NewServer(id, game, name, drawn.host, drawn, now)) by { FirstPlan(c, id, game, name, drawn, now); }
    ws := CreatePath(INITIAL, 0, c, id, game, name, None, drawn, now);
    es := [Spawn(0, CreateBegin(c, id, game, name, ATTEMPTS)), Load(0), CheckTombstone(0),
           SubmitCreate(0, map[], None, drawn, now, Outcome.Committed)];
    assert Step(ws[3], es[3], ws[4]) by { FirstChoice(c, ws[3], game, drawn, now, ws[4]); }
    forall i: nat | i < |es| ensures StepAt(ws, es, i) {
      assert i in {0, 1, 2, 3};
    }
  }

  lemma FirstPlan(c: Config, id: string, game: Game, name: string, drawn: Drawn, now: int)
    requires ValidConfig(c) && !Expired(c, now)
    ensures PlanCreate(c, id, game, name, EMPTY, false, None, drawn, now)
         == Propose(EMPTY.(hosts := [NewHost(c, drawn, now)],
                           servers := [NewServer(id, game, name, drawn.host, drawn, now)]),
                    NewServer(id, game, name, drawn.host, drawn, now))
  {
  }

  /** Where there are no hosts, none is the right choice. */
  lemma FirstChoice(c: Config, w: World, game: Game, drawn: Drawn, now: int, x: World)
    requires 0 in w.programs && w.programs[0].CreateChecked? && w.programs[0].snap == EMPTY
    requires CreateTries(w, 0, w.programs[0], None, drawn, now, Outcome.Committed, x)
    ensures Step(w, SubmitCreate(0, map[], None, drawn, now, Outcome.Committed), x)
  {
    hide CreateTries, Provision, WorkerStep, ReaderStep;
  }

  /** One reconcile pass over a document with nothing to change goes straight on to the hosts. */
  lemma QuietPass(c: Config, s: Registry, now: int)
    requires !Expired(c, now) && !s.deleting && |s.hosts| == 1 && |s.servers| == 1
    requires s.servers[0].host == s.hosts[0].id && s.servers[0].desired == Running && s.servers[0].requestedAt == now
    requires s.servers[0].error == "" && s.servers[0].requestId != "" && !s.hosts[0].retiring
    ensures IsPass(c, s, map[], now, Keep(s, false))
    ensures NeedsMachine(s.hosts[0], s, map[], now)
  {
    var v := s.servers[0];
    assert v in s.servers;
    assert !Touched(v, NO_REPORT, false, now);
    UntouchedIsSame(v, NO_REPORT, false, now);
    var servers := AllRefreshed(s.servers, map[], false, now);
    assert servers == s.servers;
    assert !Retires(s.hosts[0], servers, false);
    assert AllRetired(s.hosts, servers, false) == s.hosts;
    assert FirstRemoval(s, map[], false, 1) && IsPassAt(c, s, map[], now, Keep(s, false), 1);
    assert Demands(v, s.hosts[0], map[], now);
  }

  /** The reconciler's first three steps: it starts, reads the document, and finds nothing to change in it. */
  lemma PassReachesHosts(w: World, c: Config, now: int)
    requires 1 !in w.programs && IsPass(c, w.store.registry, map[], now, Keep(w.store.registry, false))
    ensures var s := w.store.registry;
      var y1 := Resumed(w, 1, PassBegin(c, ATTEMPTS));
      var y2 := Resumed(y1, 1, PassLoaded(c, ATTEMPTS, s));
      var y3 := Resumed(y2, 1, Sweeping(Sweep(c, ATTEMPTS, s, map[], 0)));
      && Step(w, Spawn(1, PassBegin(c, ATTEMPTS)), y1)
      && Step(y1, Load(1), y2)
      && Step(y2, SubmitPass(1, map[], Keep(s, false), now, Outcome.Committed), y3)
  {
    hide IsPass, Provision, WorkerStep;
  }

  /** Then it visits the host and finds that it has no machine yet. */
  lemma HostNeedsMachine(w: World, s: Sweep, now: int)
    requires 1 in w.programs && w.programs[1] == Sweeping(s) && AtHost(s)
    requires var h := s.snap.hosts[s.i];
      !h.retiring && NeedsMachine(h, s.snap, s.reports, now) && LaunchIdentity(h) && h.instanceId == ""
    ensures var y := Resumed(w, 1, Waking(s, LookUp));
      Step(w, Visit(1, now), y) && Step(y, Look(1, Absent), Resumed(y, 1, Waking(s, Run)))
  {
    hide NeedsMachine, LaunchIdentity, Submission, WorkerStep, ReaderStep;
    assert w.programs[1 := Waking(s, LookUp)][1 := Waking(s, Run)][1] == Waking(s, Run);
  }

  /** It asks for one, and the provider makes it. */
  lemma HostGetsMachine(w: World, s: Sweep, instanceId: string)
    requires 1 in w.programs && w.programs[1] == Waking(s, Run) && AtHost(s)
    requires w.machines == map[] && w.requests == {} && instanceId != ""
    ensures var launch := Launch(s.snap.hosts[s.i].launchToken, s.snap.hosts[s.i].id);
      var y := Resumed(w.(requests := {launch}), 1, Waking(s, Await));
      && Step(w, SendLaunch(1), y)
      && Step(y, LaunchArrives(launch, instanceId),
              y.(machines := map[launch.token := Machine(instanceId, launch.host, Pending)]))
  {
    hide Submission, WorkerStep, ReaderStep;
  }

  /** A run may be continued by any further step. */
  lemma Longer(ws: seq<World>, es: seq<Event>, e: Event, x: World) returns (vs: seq<World>, fs: seq<Event>)
    requires IsRun(ws, es) && |ws| == |es| + 1 && Step(ws[|es|], e, x)
    ensures IsRun(vs, fs) && vs == ws + [x] && fs == es + [e]
    ensures |fs| == |es| + 1 && |vs| == |fs| + 1 && vs[|fs|] == x
  {
    hide Step;
    vs, fs := ws + [x], es + [e];
    forall i: nat | i < |fs| ensures StepAt(vs, fs, i) {
      if i < |es| {
        IsStep(ws, es, i);
      }
    }
  }

  /** The run goes on to a reconciler that has come to the hosts. */
  lemma FirstSweepStarts(c: Config, id: string, game: Game, name: string, drawn: Drawn, now: int)
    returns (ws: seq<World>, es: seq<Event>)
    requires ValidConfig(c) && game in c.games && !Expired(c, now)
    requires drawn.host != "" && drawn.launch != "" && drawn.request != ""
    requires drawn.host != drawn.launch && drawn.host != drawn.request && drawn.launch != drawn.request
    ensures IsRun(ws, es) && |es| == 7 && |ws| == 8
    ensures var s := Registry(1, [NewHost(c, drawn, now)], [NewServer(id, game, name, drawn.host, drawn, now)], false);
      && ws[7].store == Store(s, {}, map[]) && ws[7].machines == map[] && ws[7].requests == {}
      && ws[7].programs == map[0 := Done, 1 := Sweeping(Sweep(c, ATTEMPTS, s, map[], 0))]
      && NeedsMachine(s.hosts[0], s, map[], now)
  {
    hide Step, IsRun, ValidConfig, IsPass, NeedsMachine, Expired;
    ws, es := FirstCreateSucceeds(c, id, game, name, drawn, now);
    var w := ws[4];
    var s := w.store.registry;
    QuietPass(c, s, now);
    PassReachesHosts(w, c, now);
    var y1 := Resumed(w, 1, PassBegin(c, ATTEMPTS));
    ws, es := Longer(ws, es, Spawn(1, PassBegin(c, ATTEMPTS)), y1);
    var y2 := Resumed(y1, 1, PassLoaded(c, ATTEMPTS, s));
    ws, es := Longer(ws, es, Load(1), y2);
    var y3 := Resumed(y2, 1, Sweeping(Sweep(c, ATTEMPTS, s, map[], 0)));
    ws, es := Longer(ws, es, SubmitPass(1, map[], Keep(s, false), now, Outcome.Committed), y3);
  }

  /** A reconcile pass then brings that host's machine up: the run goes on to a machine that is live. */
  lemma FirstMachineStarts(c: Config, id: string, game: Game, name: string, drawn: Drawn, now: int, instanceId: string)
    returns (ws: seq<World>, es: seq<Event>)
    requires ValidConfig(c) && game in c.games && !Expired(c, now)
    requires drawn.host != "" && drawn.launch != "" && drawn.request != "" && instanceId != ""
    requires drawn.host != drawn.launch && drawn.host != drawn.request && drawn.launch != drawn.request
    requires LaunchIdentity(NewHost(c, drawn, now))
    ensures IsRun(ws, es) && |es| == 11 && |ws| == 12
    ensures ws[11].machines == map[drawn.launch := Machine(instanceId, drawn.host, Pending)]
    ensures var s := Registry(1, [NewHost(c, drawn, now)], [NewServer(id, game, name, drawn.host, drawn, now)], false);
      && ws[11].store == Store(s, {}, map[])
      && ws[11].programs == map[0 := Done, 1 := Waking(Sweep(c, ATTEMPTS, s, map[], 0), Await)]
  {
    hide Step, IsRun, ValidConfig, LaunchIdentity, NeedsMachine, Expired;
    ws, es := FirstSweepStarts(c, id, game, name, drawn, now);
    var y3 := ws[7];
    var sweep := y3.programs[1].s;
    HostNeedsMachine(y3, sweep, now);
    var launch := Launch(drawn.launch, drawn.host);
    var y4 := Resumed(y3, 1, Waking(sweep, LookUp));
    ws, es := Longer(ws, es, Visit(1, now), y4);
    var y5 := Resumed(y4, 1, Waking(sweep, Run));
    ws, es := Longer(ws, es, Look(1, Absent), y5);
    HostGetsMachine(y5, sweep, instanceId);
    var y6 := Resumed(y5.(requests := {launch}), 1, Waking(sweep, Await));
    ws, es := Longer(ws, es, SendLaunch(1), y6);
    ws, es := Longer(ws, es, LaunchArrives(launch, instanceId),
                     y6.(machines := map[drawn.launch := Machine(instanceId, drawn.host, Pending)]));
  }
}
