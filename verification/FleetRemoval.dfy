/**
 * A whole life of a host, from its first server to the removal of its record; and the orphan that is left when the
 * provider once says too early that an instance does not exist.
 */
module FleetRemoval {
  import opened FleetState
  import opened FleetPlacement
  import opened FleetStore
  import opened FleetPlan
  import opened FleetWorld
  import opened FleetHistory
  import opened FleetSafety
  import opened FleetTheorems
  import opened FleetWitness

  // -- A careless provider ------------------------------------------------------------------------

  /** A lookup by instance ID that is answered with "not found" although the instance may still run. */
  ghost predicate EarlyNotFound(w: World, e: Event, x: World) {
    && e.Look? && e.found.Absent? && e.p in w.programs && Looks(w.programs[e.p])
    && AtHost(SweepOf(w.programs[e.p]).value)
    && var h := SweepOf(w.programs[e.p]).value.snap.hosts[SweepOf(w.programs[e.p]).value.i];
       x == Resumed(w, e.p, AfterLook(w.programs[e.p], h, Absent))
  }

  ghost predicate StepWith(careless: bool, w: World, e: Event, x: World) {
    Step(w, e, x) || (careless && EarlyNotFound(w, e, x))
  }

  ghost predicate IsRunWith(careless: bool, ws: seq<World>, es: seq<Event>) {
    && |ws| == |es| + 1
    && ws[0] == INITIAL
    && forall i | 0 <= i < |es| :: StepWith(careless, ws[i], es[i], ws[i + 1])
  }

  lemma GoesOn(careless: bool, ws: seq<World>, es: seq<Event>, e: Event, x: World)
    returns (vs: seq<World>, fs: seq<Event>)
    requires IsRunWith(careless, ws, es) && |ws| == |es| + 1 && StepWith(careless, ws[|es|], e, x)
    ensures IsRunWith(careless, vs, fs) && |vs| == |fs| + 1 && vs[|fs|] == x
  {
    hide StepWith;
    vs, fs := ws + [x], es + [e];
    forall i | 0 <= i < |fs| ensures StepWith(careless, vs[i], fs[i], vs[i + 1]) {
      if i < |es| {
        assert vs[i] == ws[i] && vs[i + 1] == ws[i + 1] && fs[i] == es[i];
      }
    }
  }

  // -- Steps on the way ---------------------------------------------------------------------------

  /** The world after program `p` saved a document over the current one, and went on as `q`. */
  function AfterDraft(w: World, d: Registry, p: nat, q: Program): World {
    Resumed(w.(store := Saved(w.store, d), book := Recorded(w.book, d)), p, q)
  }

  lemma LaunchIsAnswered(w: World, s: Sweep, instanceId: string)
    requires 1 in w.programs && w.programs[1] == Waking(s, Await) && AtHost(s)
    requires var h := s.snap.hosts[s.i];
      h.instanceId == "" && h.launchToken in w.machines && w.machines[h.launchToken].instanceId == instanceId
    requires instanceId != ""
    ensures Step(w, LaunchAnswer(1), Resumed(w, 1, Noting(s, Launched(instanceId), ATTEMPTS, None)))
  {
    hide Submission, WorkerStep, ReaderStep;
  }

  lemma NoteIsRead(w: World, s: Sweep, note: HostNote)
    requires 1 in w.programs && w.programs[1] == Noting(s, note, ATTEMPTS, None)
    ensures Step(w, Load(1), Resumed(w, 1, Noting(s, note, ATTEMPTS, Some(w.store.registry))))
  {
    hide Submission, Provision, WorkerStep;
  }

  lemma NoteIsSaved(w: World, s: Sweep, note: HostNote)
    requires 1 in w.programs && w.programs[1] == Noting(s, note, ATTEMPTS, Some(w.store.registry)) && AtHost(s)
    requires |w.store.registry.hosts| == 1 && w.store.registry.hosts[0].id == s.snap.hosts[s.i].id
    requires w.store.registry.revision < MAX_INT64 && |w.store.registry.servers| <= MAX_SERVERS
    ensures var r := w.store.registry;
      var d := r.(hosts := [Noted(r.hosts[0], note)]);
      Step(w, SubmitNote(1, Some(d), Outcome.Committed), AfterDraft(w, d, 1, NextHost(s)))
  {
    hide Recorded, Provision, WorkerStep, ReaderStep, CreateStep, ActionStep, TeardownStep, PassStep, ForgetStep;
    var r := w.store.registry;
    var d := r.(hosts := [Noted(r.hosts[0], note)]);
    assert r.hosts[0 := Noted(r.hosts[0], note)] == d.hosts;
    assert r.hosts[0] in r.hosts;
    assert IsNoted(r, r.hosts[0].id, note, Some(d));
  }

  lemma TeardownBegins(w: World)
    requires 2 !in w.programs
    ensures Step(w, Spawn(2, TeardownBegin), Resumed(w, 2, TeardownBegin))
  {
    hide Submission, Provision, WorkerStep;
  }

  lemma TeardownReads(w: World)
    requires 2 in w.programs && w.programs[2] == TeardownBegin
    ensures Step(w, Load(2), Resumed(w, 2, TeardownLoaded(w.store.registry)))
  {
    hide Submission, Provision, WorkerStep;
  }

  lemma TeardownIsSaved(w: World)
    requires 2 in w.programs && w.programs[2] == TeardownLoaded(w.store.registry)
        && Storable(w.store.registry, w.store.registry.revision)
    ensures var d := w.store.registry.(deleting := true); Step(w, SubmitTeardown(2), AfterDraft(w, d, 2, Done))
  {
    hide Recorded, Provision, WorkerStep, ReaderStep;
  }

  lemma PassBegins(w: World, c: Config)
    requires 3 !in w.programs
    ensures Step(w, Spawn(3, PassBegin(c, ATTEMPTS)), Resumed(w, 3, PassBegin(c, ATTEMPTS)))
  {
    hide Submission, Provision, WorkerStep;
  }

  lemma PassReads(w: World, c: Config)
    requires 3 in w.programs && w.programs[3] == PassBegin(c, ATTEMPTS)
    ensures Step(w, Load(3), Resumed(w, 3, PassLoaded(c, ATTEMPTS, w.store.registry)))
  {
    hide Submission, Provision, WorkerStep;
  }

  /** The pass of an ending deployment retires its host and leaves its server as it was. */
  lemma LastPass(c: Config, s: Registry, now: int)
    requires s.deleting && |s.hosts| == 1 && |s.servers| == 1 && !s.hosts[0].retiring && s.servers[0].requestId != ""
    ensures IsPass(c, s, map[], now, Keep(s.(hosts := [s.hosts[0].(retiring := true)]), true))
  {
    var d := s.(hosts := [s.hosts[0].(retiring := true)]);
    var servers := AllRefreshed(s.servers, map[], true, now);
    assert servers == s.servers;
    assert s.hosts[0] in s.hosts && Retires(s.hosts[0], servers, true);
    assert AllRetired(s.hosts, servers, true) == d.hosts;
    assert FirstRemoval(s, map[], true, 1) && IsPassAt(c, s, map[], now, Keep(d, true), 1);
  }

  lemma PassIsSaved(w: World, c: Config, d: Registry, now: int)
    requires 3 in w.programs && w.programs[3] == PassLoaded(c, ATTEMPTS, w.store.registry)
    requires IsPass(c, w.store.registry, map[], now, Keep(d, true)) && Storable(d, w.store.registry.revision)
    ensures var s := Sweep(c, ATTEMPTS, d.(revision := w.store.registry.revision + 1), map[], 0);
      Step(w, SubmitPass(3, map[], Keep(d, true), now, Outcome.Committed), AfterDraft(w, d, 3, Sweeping(s)))
  {
    hide Recorded, IsPass, Provision, WorkerStep, ReaderStep;
  }

  lemma RetiredIsVisited(w: World, s: Sweep, now: int)
    requires 3 in w.programs && w.programs[3] == Sweeping(s) && AtHost(s) && s.snap.hosts[s.i].retiring
        && s.snap.deleting
    ensures Step(w, Visit(3, now), Resumed(w, 3, Deleting(s, FirstLook)))
  {
    hide NeedsMachine, HasGivenUp, Submission, WorkerStep, ReaderStep;
  }

  /** "Not found" is an honest answer once the machine is terminated, and a careless one before. */
  lemma NotFoundIsTaken(careless: bool, w: World, s: Sweep)
    requires 3 in w.programs && w.programs[3] == Deleting(s, FirstLook) && AtHost(s)
        && s.snap.hosts[s.i].instanceId != ""
    requires careless || LookupAnswers(w.machines, s.snap.hosts[s.i], Absent)
    ensures StepWith(careless, w, Look(3, Absent), Resumed(w, 3, Deleting(s, Disks)))
  {
    hide LookupAnswers, Submission, WorkerStep, ReaderStep;
  }

  lemma DisksAreGone(w: World, s: Sweep)
    requires 3 in w.programs && w.programs[3] == Deleting(s, Disks)
    ensures Step(w, ListDisks(3, true), Resumed(w, 3, Emptying(s, None)))
  {
    hide Submission, WorkerStep, ReaderStep;
  }

  lemma EmptyingReads(w: World, s: Sweep)
    requires 3 in w.programs && w.programs[3] == Emptying(s, None)
    ensures Step(w, Load(3), Resumed(w, 3, Emptying(s, Some(w.store.registry))))
  {
    hide Submission, Provision, WorkerStep;
  }

  lemma ServerIsNext(r: Registry)
    requires r.deleting && |r.hosts| == 1 && |r.servers| == 1 && r.hosts[0].retiring
        && r.servers[0].host == r.hosts[0].id
    ensures IsForgetRound(r, r.hosts[0].id, DropServer(r.(servers := []), r.servers[0].id))
  {
    assert r.servers[..0] + r.servers[1..] == [];
    assert r.hosts[0] in r.hosts && r.servers[0] in r.servers;
  }

  lemma ServerIsDropped(w: World, s: Sweep)
    requires 3 in w.programs && w.programs[3] == Emptying(s, Some(w.store.registry)) && AtHost(s)
    requires var r := w.store.registry;
      && r.deleting && |r.hosts| == 1 && |r.servers| == 1 && r.hosts[0].retiring
      && r.hosts[0].id == s.snap.hosts[s.i].id
      && r.servers[0].host == r.hosts[0].id && ValidId(r.servers[0].id) && r.revision < MAX_INT64
    ensures var r := w.store.registry;
      var d := r.(servers := []);
      Step(w, SubmitForget(3, DropServer(d, r.servers[0].id), Outcome.Committed),
           Resumed(w.(store := Forgotten(w.store, d, r.servers[0].id), book := Recorded(w.book, d)), 3,
                   Emptying(s, None)))
  {
    hide Recorded, IsForgetRound, ValidId, Provision, WorkerStep, ReaderStep, CreateStep, ActionStep, TeardownStep,
         PassStep, NoteStep;
    ServerIsNext(w.store.registry);
  }

  lemma HostIsNext(r: Registry)
    requires |r.hosts| == 1 && r.servers == [] && r.hosts[0].retiring
    ensures IsForgetRound(r, r.hosts[0].id, DropHost(r.(hosts := [])))
  {
    assert r.hosts[..0] + r.hosts[1..] == [];
    assert r.hosts[0] in r.hosts;
  }

  lemma HostIsDropped(w: World, s: Sweep)
    requires 3 in w.programs && w.programs[3] == Emptying(s, Some(w.store.registry)) && AtHost(s)
    requires var r := w.store.registry;
      && |r.hosts| == 1 && r.servers == [] && r.hosts[0].retiring && r.hosts[0].id == s.snap.hosts[s.i].id
      && r.revision < MAX_INT64
    ensures var d := w.store.registry.(hosts := []);
      Step(w, SubmitForget(3, DropHost(d), Outcome.Committed), AfterDraft(w, d, 3, NextHost(s)))
  {
    hide Recorded, IsForgetRound, Provision, WorkerStep, ReaderStep, CreateStep, ActionStep, TeardownStep, PassStep,
         NoteStep;
    HostIsNext(w.store.registry);
  }

  // -- The whole life -----------------------------------------------------------------------------

  /** Where a run stands: its table without reports, its machines and its programs. */
  predicate At(w: World, t: Store, machines: map<string, Machine>, programs: map<nat, Program>) {
    w.store == t && w.machines == machines && w.programs == programs
  }

  /** A run that is known to end somewhere. */
  ghost predicate Reaches(careless: bool, ws: seq<World>, es: seq<Event>, t: Store, machines: map<string, Machine>,
                          programs: map<nat, Program>) {
    IsRunWith(careless, ws, es) && |ws| == |es| + 1 && At(ws[|es|], t, machines, programs)
  }

  lemma Moves(careless: bool, ws: seq<World>, es: seq<Event>, t: Store, machines: map<string, Machine>,
              programs: map<nat, Program>, e: Event, p: nat, q: Program)
    returns (vs: seq<World>, fs: seq<Event>)
    requires Reaches(careless, ws, es, t, machines, programs)
        && StepWith(careless, ws[|es|], e, Resumed(ws[|es|], p, q))
    ensures Reaches(careless, vs, fs, t, machines, programs[p := q])
  {
    hide StepWith, IsRunWith;
    vs, fs := GoesOn(careless, ws, es, e, Resumed(ws[|es|], p, q));
  }

  lemma Drafts(careless: bool, ws: seq<World>, es: seq<Event>, t: Store, machines: map<string, Machine>,
               programs: map<nat, Program>, e: Event, d: Registry, p: nat, q: Program)
    returns (vs: seq<World>, fs: seq<Event>)
    requires Reaches(careless, ws, es, t, machines, programs) && Step(ws[|es|], e, AfterDraft(ws[|es|], d, p, q))
    ensures Reaches(careless, vs, fs, Saved(t, d), machines, programs[p := q])
  {
    hide Step, IsRunWith, Recorded;
    StepIsStep(careless, ws[|es|], e, AfterDraft(ws[|es|], d, p, q));
    vs, fs := GoesOn(careless, ws, es, e, AfterDraft(ws[|es|], d, p, q));
  }

  lemma StepIsStep(careless: bool, w: World, e: Event, x: World)
    requires Step(w, e, x)
    ensures StepWith(careless, w, e, x)
  {
    hide Step;
  }

  lemma HonestIsARun(careless: bool, ws: seq<World>, es: seq<Event>)
    requires IsRun(ws, es)
    ensures IsRunWith(careless, ws, es) && |ws| == |es| + 1
  {
    hide Step;
    forall i | 0 <= i < |es| ensures StepWith(careless, ws[i], es[i], ws[i + 1]) {
      IsStep(ws, es, i);
    }
  }

  /** The reconciler writes the instance down that the provider made. */
  lemma InstanceIsRecorded(careless: bool, ws: seq<World>, es: seq<Event>, s: Sweep, m: Machine)
    returns (vs: seq<World>, fs: seq<Event>)
    requires |s.snap.hosts| == 1 && s.i == 0 && s.snap.revision < MAX_INT64 && |s.snap.servers| <= MAX_SERVERS
    requires s.snap.hosts[0].instanceId == "" && m.instanceId != ""
    requires Reaches(careless, ws, es, Store(s.snap, {}, map[]), map[s.snap.hosts[0].launchToken := m],
                     map[0 := Done, 1 := Waking(s, Await)])
    ensures var d := s.snap.(hosts := [Noted(s.snap.hosts[0], Launched(m.instanceId))]);
      Reaches(careless, vs, fs, Saved(Store(s.snap, {}, map[]), d), map[s.snap.hosts[0].launchToken := m],
              map[0 := Done, 1 := NextHost(s)])
  {
    hide Step, StepWith, IsRunWith, Saved, AfterDraft, Recorded, Noted, Storable;
    var t, machines := Store(s.snap, {}, map[]), map[s.snap.hosts[0].launchToken := m];
    var note := Launched(m.instanceId);
    var programs := map[0 := Done, 1 := Waking(s, Await)];
    var asks, held := Noting(s, note, ATTEMPTS, None), Noting(s, note, ATTEMPTS, Some(s.snap));
    LaunchIsAnswered(ws[|es|], s, m.instanceId);
    StepIsStep(careless, ws[|es|], LaunchAnswer(1), Resumed(ws[|es|], 1, asks));
    vs, fs := Moves(careless, ws, es, t, machines, programs, LaunchAnswer(1), 1, asks);
    NoteIsRead(vs[|fs|], s, note);
    StepIsStep(careless, vs[|fs|], Load(1), Resumed(vs[|fs|], 1, held));
    vs, fs := Moves(careless, vs, fs, t, machines, programs[1 := asks], Load(1), 1, held);
    NoteIsSaved(vs[|fs|], s, note);
    var d := s.snap.(hosts := [Noted(s.snap.hosts[0], note)]);
    vs, fs := Drafts(careless, vs, fs, t, machines, programs[1 := asks][1 := held],
                     SubmitNote(1, Some(d), Outcome.Committed), d, 1, NextHost(s));
    assert programs[1 := asks][1 := held][1 := NextHost(s)] == map[0 := Done, 1 := NextHost(s)];
  }

  /** Then the deployment is ended. */
  lemma DeploymentEnds(careless: bool, ws: seq<World>, es: seq<Event>, s: Registry, machines: map<string, Machine>,
                       programs: map<nat, Program>)
    returns (vs: seq<World>, fs: seq<Event>)
    requires Storable(s, s.revision) && 2 !in programs
    requires Reaches(careless, ws, es, Store(s, {}, map[]), machines, programs)
    ensures Reaches(careless, vs, fs, Saved(Store(s, {}, map[]), s.(deleting := true)), machines, programs[2 := Done])
  {
    hide Step, StepWith, IsRunWith, Saved, AfterDraft, Recorded, Storable;
    var t := Store(s, {}, map[]);
    TeardownBegins(ws[|es|]);
    StepIsStep(careless, ws[|es|], Spawn(2, TeardownBegin), Resumed(ws[|es|], 2, TeardownBegin));
    vs, fs := Moves(careless, ws, es, t, machines, programs, Spawn(2, TeardownBegin), 2, TeardownBegin);
    TeardownReads(vs[|fs|]);
    StepIsStep(careless, vs[|fs|], Load(2), Resumed(vs[|fs|], 2, TeardownLoaded(s)));
    vs, fs := Moves(careless, vs, fs, t, machines, programs[2 := TeardownBegin], Load(2), 2, TeardownLoaded(s));
    TeardownIsSaved(vs[|fs|]);
    vs, fs := Drafts(careless, vs, fs, t, machines, programs[2 := TeardownBegin][2 := TeardownLoaded(s)],
                     SubmitTeardown(2), s.(deleting := true), 2, Done);
    assert programs[2 := TeardownBegin][2 := TeardownLoaded(s)][2 := Done] == programs[2 := Done];
  }

  /** A reconciler reads the document of the ending deployment. */
  lemma LastPassReads(careless: bool, ws: seq<World>, es: seq<Event>, c: Config, s: Registry,
                      machines: map<string, Machine>, programs: map<nat, Program>)
    returns (vs: seq<World>, fs: seq<Event>)
    requires 3 !in programs && Reaches(careless, ws, es, Store(s, {}, map[]), machines, programs)
    ensures Reaches(careless, vs, fs, Store(s, {}, map[]), machines, programs[3 := PassLoaded(c, ATTEMPTS, s)])
  {
    hide Step, StepWith, IsRunWith, AfterDraft, Recorded, Storable;
    var t := Store(s, {}, map[]);
    var begin, loaded := PassBegin(c, ATTEMPTS), PassLoaded(c, ATTEMPTS, s);
    PassBegins(ws[|es|], c);
    StepIsStep(careless, ws[|es|], Spawn(3, begin), Resumed(ws[|es|], 3, begin));
    vs, fs := Moves(careless, ws, es, t, machines, programs, Spawn(3, begin), 3, begin);
    PassReads(vs[|fs|], c);
    StepIsStep(careless, vs[|fs|], Load(3), Resumed(vs[|fs|], 3, loaded));
    vs, fs := Moves(careless, vs, fs, t, machines, programs[3 := begin], Load(3), 3, loaded);
    assert programs[3 := begin][3 := loaded] == programs[3 := loaded];
  }

  /** It retires the host. */
  lemma LastPassCommits(careless: bool, ws: seq<World>, es: seq<Event>, c: Config, s: Registry, now: int,
                        machines: map<string, Machine>, programs: map<nat, Program>)
    returns (vs: seq<World>, fs: seq<Event>)
    requires 3 in programs && programs[3] == PassLoaded(c, ATTEMPTS, s)
    requires Storable(s, s.revision)
    requires s.deleting && |s.hosts| == 1 && |s.servers| == 1 && !s.hosts[0].retiring && s.servers[0].requestId != ""
    requires Reaches(careless, ws, es, Store(s, {}, map[]), machines, programs)
    ensures var d := s.(hosts := [s.hosts[0].(retiring := true)]);
      Reaches(careless, vs, fs, Saved(Store(s, {}, map[]), d), machines,
              programs[3 := Sweeping(Sweep(c, ATTEMPTS, d.(revision := s.revision + 1), map[], 0))])
  {
    hide Step, StepWith, IsRunWith, IsPass, AfterDraft, Saved, Recorded;
    var d := s.(hosts := [s.hosts[0].(retiring := true)]);
    LastPass(c, s, now);
    PassIsSaved(ws[|es|], c, d, now);
    var sweep := Sweep(c, ATTEMPTS, d.(revision := s.revision + 1), map[], 0);
    vs, fs := Drafts(careless, ws, es, Store(s, {}, map[]), machines, programs,
                     SubmitPass(3, map[], Keep(d, true), now, Outcome.Committed), d, 3, Sweeping(sweep));
  }

  /** A reconciler retires the host and comes to its machine. */
  lemma HostIsRetired(careless: bool, ws: seq<World>, es: seq<Event>, c: Config, s: Registry, now: int,
                      machines: map<string, Machine>, programs: map<nat, Program>)
    returns (vs: seq<World>, fs: seq<Event>)
    requires 3 !in programs && Storable(s, s.revision)
    requires s.deleting && |s.hosts| == 1 && |s.servers| == 1 && !s.hosts[0].retiring && s.servers[0].requestId != ""
    requires Reaches(careless, ws, es, Store(s, {}, map[]), machines, programs)
    ensures var r := Saved(Store(s, {}, map[]), s.(hosts := [s.hosts[0].(retiring := true)]));
      Reaches(careless, vs, fs, r, machines,
              programs[3 := Deleting(Sweep(c, ATTEMPTS, r.registry, map[], 0), FirstLook)])
  {
    hide Step, StepWith, IsRunWith, AfterDraft, Recorded, Storable;
    var t, loaded := Store(s, {}, map[]), PassLoaded(c, ATTEMPTS, s);
    vs, fs := LastPassReads(careless, ws, es, c, s, machines, programs);
    vs, fs := LastPassCommits(careless, vs, fs, c, s, now, machines, programs[3 := loaded]);
    var d := s.(hosts := [s.hosts[0].(retiring := true)]);
    var sweep := Sweep(c, ATTEMPTS, d.(revision := s.revision + 1), map[], 0);
    RetiredIsVisited(vs[|fs|], sweep, now);
    var look := Deleting(sweep, FirstLook);
    StepIsStep(careless, vs[|fs|], Visit(3, now), Resumed(vs[|fs|], 3, look));
    vs, fs := Moves(careless, vs, fs, Saved(t, d), machines, programs[3 := loaded][3 := Sweeping(sweep)],
                    Visit(3, now), 3, look);
    assert programs[3 := loaded][3 := Sweeping(sweep)][3 := look] == programs[3 := look];
  }

  /** Told that the instance is gone, it comes to empty the host. */
  lemma HostIsGivenUp(careless: bool, ws: seq<World>, es: seq<Event>, s: Sweep, machines: map<string, Machine>,
                      programs: map<nat, Program>)
    returns (vs: seq<World>, fs: seq<Event>)
    requires AtHost(s) && s.snap.hosts[s.i].instanceId != ""
    requires careless || LookupAnswers(machines, s.snap.hosts[s.i], Absent)
    requires 3 in programs && programs[3] == Deleting(s, FirstLook)
    requires Reaches(careless, ws, es, Store(s.snap, {}, map[]), machines, programs)
    ensures Reaches(careless, vs, fs, Store(s.snap, {}, map[]), machines, programs[3 := Emptying(s, None)])
  {
    hide Step, StepWith, IsRunWith, LookupAnswers, AfterDraft, Recorded, Storable;
    var t := Store(s.snap, {}, map[]);
    NotFoundIsTaken(careless, ws[|es|], s);
    vs, fs := Moves(careless, ws, es, t, machines, programs, Look(3, Absent), 3, Deleting(s, Disks));
    DisksAreGone(vs[|fs|], s);
    StepIsStep(careless, vs[|fs|], ListDisks(3, true), Resumed(vs[|fs|], 3, Emptying(s, None)));
    vs, fs := Moves(careless, vs, fs, t, machines, programs[3 := Deleting(s, Disks)], ListDisks(3, true), 3,
                    Emptying(s, None));
    assert programs[3 := Deleting(s, Disks)][3 := Emptying(s, None)] == programs[3 := Emptying(s, None)];
  }

  /** The server is dropped, and then the host. */
  lemma HostIsReleased(careless: bool, ws: seq<World>, es: seq<Event>, s: Sweep, machines: map<string, Machine>,
                       programs: map<nat, Program>)
    returns (vs: seq<World>, fs: seq<Event>)
    requires |s.snap.hosts| == 1 && |s.snap.servers| == 1 && s.i == 0
    requires var h := s.snap.hosts[0];
      && h.retiring && s.snap.deleting && s.snap.servers[0].host == h.id
      && ValidId(s.snap.servers[0].id) && s.snap.revision + 1 < MAX_INT64
    requires 3 in programs && programs[3] == Emptying(s, None)
    requires Reaches(careless, ws, es, Store(s.snap, {}, map[]), machines, programs)
    ensures IsRunWith(careless, vs, fs) && |vs| == |fs| + 1
    ensures vs[|fs|].store.registry.hosts == [] && vs[|fs|].machines == machines
  {
    hide Step, StepWith, IsRunWith, Recorded;
    var t := Store(s.snap, {}, map[]);
    EmptyingReads(ws[|es|], s);
    var held := Emptying(s, Some(s.snap));
    StepIsStep(careless, ws[|es|], Load(3), Resumed(ws[|es|], 3, held));
    vs, fs := Moves(careless, ws, es, t, machines, programs, Load(3), 3, held);
    ServerIsDropped(vs[|fs|], s);
    var w, d, id := vs[|fs|], s.snap.(servers := []), s.snap.servers[0].id;
    var x := Resumed(w.(store := Forgotten(w.store, d, id), book := Recorded(w.book, d)), 3, Emptying(s, None));
    StepIsStep(careless, w, SubmitForget(3, DropServer(d, id), Outcome.Committed), x);
    vs, fs := GoesOn(careless, vs, fs, SubmitForget(3, DropServer(d, id), Outcome.Committed), x);
    EmptyingReads(x, s);
    var y := Resumed(x, 3, Emptying(s, Some(x.store.registry)));
    StepIsStep(careless, x, Load(3), y);
    vs, fs := GoesOn(careless, vs, fs, Load(3), y);
    HostIsDropped(y, s);
    var z := AfterDraft(y, y.store.registry.(hosts := []), 3, NextHost(s));
    StepIsStep(careless, y, SubmitForget(3, DropHost(y.store.registry.(hosts := [])), Outcome.Committed), z);
    vs, fs := GoesOn(careless, vs, fs, SubmitForget(3, DropHost(y.store.registry.(hosts := [])), Outcome.Committed), z);
  }

  lemma MachineIsGone(ws: seq<World>, es: seq<Event>, t: Store, token: string, m: Machine, programs: map<nat, Program>)
    returns (vs: seq<World>, fs: seq<Event>)
    requires Reaches(false, ws, es, t, map[token := m], programs) && m.state == Pending
    ensures Reaches(false, vs, fs, t, map[token := m.(state := Terminated)], programs)
  {
    hide IsRunWith, Submission, WorkerStep, ReaderStep;
    var w := ws[|es|];
    var x := w.(machines := w.machines[token := m.(state := Terminated)]);
    assert x.machines == map[token := m.(state := Terminated)];
    vs, fs := GoesOn(false, ws, es, MachineMoves(token, Terminated), x);
  }

  /**
   * A host is created with its first server, gets its machine, is retired with its deployment, and its record is
   * removed. With an honest provider the machine was terminated by then; a careless one leaves it running.
   */
  lemma HostLives(careless: bool, c: Config, id: string, game: Game, name: string, drawn: Drawn, now: int,
                  instanceId: string)
    returns (ws: seq<World>, es: seq<Event>)
    requires ValidConfig(c) && game in c.games && !Expired(c, now) && ValidId(id) && instanceId != ""
    requires drawn.host != "" && drawn.launch != "" && drawn.request != ""
    requires drawn.host != drawn.launch && drawn.host != drawn.request && drawn.launch != drawn.request
    requires LaunchIdentity(NewHost(c, drawn, now))
    ensures IsRunWith(careless, ws, es) && |ws| == |es| + 1
    ensures ws[|es|].store.registry.hosts == []
    ensures ws[|es|].machines
         == map[drawn.launch := Machine(instanceId, drawn.host, if careless then Pending else Terminated)]
  {
    hide Step, StepWith, IsRun, IsRunWith, ValidConfig, LaunchIdentity, Expired, ValidId;
    var m := Machine(instanceId, drawn.host, Pending);
    var s1 := Registry(1, [NewHost(c, drawn, now)], [NewServer(id, game, name, drawn.host, drawn, now)], false);
    ws, es := FirstMachineStarts(c, id, game, name, drawn, now, instanceId);
    HonestIsARun(careless, ws, es);
    var sweep1 := Sweep(c, ATTEMPTS, s1, map[], 0);
    ws, es := InstanceIsRecorded(careless, ws, es, sweep1, m);
    var s2 := s1.(revision := 2, hosts := [s1.hosts[0].(instanceId := instanceId)]);
    ws, es := DeploymentEnds(careless, ws, es, s2, map[drawn.launch := m], map[0 := Done, 1 := NextHost(sweep1)]);
    var s3 := s2.(revision := 3, deleting := true);
    var programs := map[0 := Done, 1 := NextHost(sweep1)][2 := Done];
    ws, es := HostIsRetired(careless, ws, es, c, s3, now, map[drawn.launch := m], programs);
    var s4 := s3.(revision := 4, hosts := [s3.hosts[0].(retiring := true)]);
    var sweep2 := Sweep(c, ATTEMPTS, s4, map[], 0);
    programs := programs[3 := Deleting(sweep2, FirstLook)];
    var machines := map[drawn.launch := m.(state := if careless then Pending else Terminated)];
    if !careless {
      ws, es := MachineIsGone(ws, es, Store(s4, {}, map[]), drawn.launch, m, programs);
    }
    ws, es := HostIsGivenUp(careless, ws, es, sweep2, machines, programs);
    ws, es := HostIsReleased(careless, ws, es, sweep2, machines, programs[3 := Emptying(sweep2, None)]);
  }

  /** Hosts do get removed: some run ends with the record gone and the machine of its token terminated. */
  lemma HostsGetRemoved(c: Config, id: string, game: Game, name: string, drawn: Drawn, now: int, instanceId: string)
    returns (ws: seq<World>, es: seq<Event>)
    requires ValidConfig(c) && game in c.games && !Expired(c, now) && ValidId(id) && instanceId != ""
    requires drawn.host != "" && drawn.launch != "" && drawn.request != ""
    requires drawn.host != drawn.launch && drawn.host != drawn.request && drawn.launch != drawn.request
    requires LaunchIdentity(NewHost(c, drawn, now))
    ensures IsRun(ws, es) && ws[|es|].store.registry.hosts == [] && Burned(ws[|es|].machines, drawn.launch)
  {
    hide Step, ValidConfig, LaunchIdentity, Expired, ValidId;
    ws, es := HostLives(false, c, id, game, name, drawn, now, instanceId);
    forall i: nat | i < |es| ensures StepAt(ws, es, i) {
      assert StepWith(false, ws[i], es[i], ws[i + 1]);
    }
  }

  /**
   * The assumption about lookups is needed: one "not found" that comes too early, and a machine goes on running for a
   * host whose record is gone.
   */
  lemma EarlyNotFoundLeavesAnOrphan(c: Config, id: string, game: Game, name: string, drawn: Drawn, now: int,
                                    instanceId: string)
    returns (ws: seq<World>, es: seq<Event>)
    requires ValidConfig(c) && game in c.games && !Expired(c, now) && ValidId(id) && instanceId != ""
    requires drawn.host != "" && drawn.launch != "" && drawn.request != ""
    requires drawn.host != drawn.launch && drawn.host != drawn.request && drawn.launch != drawn.request
    requires LaunchIdentity(NewHost(c, drawn, now))
    ensures IsRunWith(true, ws, es) && |ws| == |es| + 1 && !NoOrphan(ws[|es|])
  {
    hide Step, StepWith, IsRunWith, ValidConfig, LaunchIdentity, Expired, ValidId;
    ws, es := HostLives(true, c, id, game, name, drawn, now, instanceId);
    var w := ws[|es|];
    assert drawn.launch in w.machines && w.machines[drawn.launch].state == Pending;
    assert HostIds(w.store.registry) == {};
  }
}
