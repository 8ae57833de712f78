/**
 * The life of a server that is deleted before it ever ran: its host reports it deleted, and a pass releases its slot.
 */
module FleetDeletion {
  import opened FleetState
  import opened FleetPlacement
  import opened FleetStore
  import opened FleetPlan
  import opened Controller
  import opened FleetWorld
  import opened FleetHistory
  import opened FleetSafety
  import opened FleetTraces
  import opened FleetTheorems
  import opened FleetWitness
  import opened FleetNodes
  import opened FleetRelease
  import Runs = ControllerRuns

  // -- Runs in which no host changes --------------------------------------------------------------

  /** Nothing was installed or stored on any host so far. */
  ghost predicate IsBare(w: World) {
    forall host :: LocalOf(w, host) == Local(false, map[])
  }

  ghost predicate StaysBare(ws: seq<World>, es: seq<Event>) {
    && IsRun(ws, es)
    && (forall i | 0 <= i < |ws| :: IsBare(ws[i]))
    && (forall i | 0 <= i < |es| :: !es[i].LocalMoves?)
  }

  lemma GoesOnBare(ws: seq<World>, es: seq<Event>, e: Event, x: World) returns (vs: seq<World>, fs: seq<Event>)
    requires StaysBare(ws, es) && |ws| == |es| + 1 && Step(ws[|es|], e, x) && IsBare(x) && !e.LocalMoves?
    ensures StaysBare(vs, fs) && vs == ws + [x] && fs == es + [e]
  {
    hide Step, IsBare, IsRun;
    vs, fs := Longer(ws, es, e, x);
  }

  /** Such a run needs no step of any controller. */
  lemma BareRunIsHosted(ws: seq<World>, es: seq<Event>) returns (ns: seq<map<string, Runs.Node>>)
    requires StaysBare(ws, es)
    ensures IsHosted(ws, es, ns)
  {
    hide Step;
    ns := seq(|ws|, i requires 0 <= i < |ws| => map[]);
    forall i: nat | i < |es| ensures FollowsAt(ws, es, ns, i) {
      assert IsBare(ws[i + 1]) && !es[i].LocalMoves?;
    }
  }

  lemma SameLocalsAreBare(w: World, x: World)
    requires IsBare(w) && x.locals == w.locals
    ensures IsBare(x)
  {
    forall host ensures LocalOf(x, host) == Local(false, map[]) {
      assert LocalOf(w, host) == Local(false, map[]);
    }
  }

  lemma {:induction false} FirstStatesAreBare(ws: seq<World>, es: seq<Event>, i: nat)
    requires IsRun(ws, es) && i < |ws|
    requires forall k | 0 <= k < |es| :: es[k].Spawn? || es[k].Load? || AppliesNothing(es[k])
    ensures IsBare(ws[i])
  {
    hide Step;
    if i > 0 {
      hide IsBare;
      FirstStatesAreBare(ws, es, i - 1);
      IsStep(ws, es, i - 1);
      QuietStepsKeepLocals(ws[i - 1], es[i - 1], ws[i]);
      SameLocalsAreBare(ws[i - 1], ws[i]);
    }
  }

  lemma QuietStepsKeepLocals(w: World, e: Event, x: World)
    requires Step(w, e, x) && (e.Spawn? || e.Load? || AppliesNothing(e))
    ensures x.locals == w.locals
  {
    hide Step, Submission, Provision, WorkerStep, ReaderStep, SameWorker, KeepsConfig, KeepsHand;
    if AppliesNothing(e) {
      StepContinues(w, e, x);
    } else {
      StepIsOfItsKind(w, e, x);
      ReadersKeepLocals(w, e, x);
    }
  }

  /** A program of the run begins or moves on, and no host changes. */
  lemma Resumes(ws: seq<World>, es: seq<Event>, e: Event, p: nat, q: Program) returns (vs: seq<World>, fs: seq<Event>)
    requires StaysBare(ws, es) && |ws| == |es| + 1 && Step(ws[|es|], e, Resumed(ws[|es|], p, q)) && !e.LocalMoves?
    ensures StaysBare(vs, fs) && |vs| == |fs| + 1 && |fs| == |es| + 1
    ensures vs[|fs|].store == ws[|es|].store && vs[|fs|].minted == ws[|es|].minted
    ensures vs[|fs|].machines == ws[|es|].machines
    ensures vs[|fs|].programs == ws[|es|].programs[p := q]
  {
    hide Step, IsBare, StaysBare;
    assert IsBare(ws[|es|]) by { LastIsBare(ws, es); }
    SameLocalsAreBare(ws[|es|], Resumed(ws[|es|], p, q));
    vs, fs := GoesOnBare(ws, es, e, Resumed(ws[|es|], p, q));
  }

  lemma LastIsBare(ws: seq<World>, es: seq<Event>)
    requires StaysBare(ws, es) && |ws| == |es| + 1
    ensures IsBare(ws[|es|])
  {
    hide Step;
  }

  // -- The steps ----------------------------------------------------------------------------------

  lemma Spawns(w: World, p: nat, q: Program)
    requires p !in w.programs && MayBegin(w, q)
    ensures Step(w, Spawn(p, q), Resumed(w, p, q))
  {
    hide MayBegin, Submission, Provision, WorkerStep, LoadStep, CheckStep;
  }

  lemma Loads(w: World, p: nat, q: Program)
    requires p in w.programs && AfterLoad(w.programs[p], w.store.registry) == Some(q)
    ensures Step(w, Load(p), Resumed(w, p, q))
  {
    hide AfterLoad, MayBegin, Submission, Provision, WorkerStep, CheckStep;
  }

  /** The registry's only server, once its deletion was asked for. */
  function WithDeletion(s: Registry, token: string, now: int): Registry
    requires |s.servers| == 1
  {
    s.(servers := [Requested(s.servers[0], Deleted, token, now)])
  }

  lemma DeletionIsPlanned(c: Config, s: Registry, token: string, now: int)
    requires |s.servers| == 1 && s.servers[0].desired == Running && !s.deleting && !Expired(c, now)
    ensures PlanAction(c, s, s.servers[0].id, Deleted, map[], token, now) == Change(WithDeletion(s, token, now))
  {
    var v := s.servers[0];
    ObstacleAt(s.servers, 0, v.id, Deleted, map[], now);
    assert s.servers[0..] == s.servers && s.servers[1..] == [];
    NoObstacle(v.id, Deleted, map[], now);
    assert v in s.servers && v.id in ServerIds(s);
    assert WithAction(s.servers, v.id, Deleted, token, now) == [Requested(v, Deleted, token, now)];
  }

  lemma DeletionIsSaved(w: World, c: Config, token: string, now: int) returns (x: World)
    requires 1 in w.programs && Unused(w, token) && Storable(w.store.registry, w.store.registry.revision)
    requires var s := w.store.registry;
      && |s.servers| == 1 && s.servers[0].desired == Running && !s.deleting && !Expired(c, now)
      && w.programs[1] == ActionLoaded(c, s.servers[0].id, Deleted, ATTEMPTS, s)
    ensures Step(w, SubmitAction(1, map[], token, now, Outcome.Committed), x)
    ensures x.store == Saved(w.store, WithDeletion(w.store.registry, token, now)) && x.programs == w.programs[1 := Done]
    ensures x.locals == w.locals && x.machines == w.machines
  {
    hide PlanAction, Recorded, WithDeletion, Provision, WorkerStep, ReaderStep, CreateStep, TeardownStep, PassStep,
         ForgetStep, NoteStep;
    var s := w.store.registry;
    DeletionIsPlanned(c, s, token, now);
    var d := WithDeletion(s, token, now);
    assert |d.hosts| == |s.hosts| && |d.servers| == 1 by { SameSize(s, token, now); }
    x := Resumed(AfterSave(w.(minted := w.minted + {token}), d, s.revision), 1, Done);
  }

  lemma SameSize(s: Registry, token: string, now: int)
    requires |s.servers| == 1
    ensures var d := WithDeletion(s, token, now); |d.hosts| == |s.hosts| && |d.servers| == 1
  {
  }

  /** What the host says about the server it never created. */
  function Word(v: Server, now: int): Report {
    Report(v.id, v.host, v.requestId, Deleted, Deleted, None, "", now)
  }

  /** The host's worker finds nothing of the server and says so. */
  lemma HostSaysDeleted(w: World, s: Registry, setup: Setup, now: int)
    requires 2 in w.programs && IsBare(w) && |s.servers| == 1 && s.servers[0].desired == Deleted
    requires w.programs[2] == WorkerRead(s.servers[0].host, s, 0, None)
    ensures var v := s.servers[0];
      var x := Resumed(w.(locals := w.locals[v.host := LocalOf(w, v.host)]), 2, WorkerSays(v.host, s, 0, Word(v, now)));
      Step(w, WorkerServes(2, setup, now), x) && IsBare(x)
  {
    hide Submission, Provision, ReaderStep, ReadStep, AskStep, RereadStep, PublishStep, StumbleStep, LocalMove,
         AnswerCreate, AfterCreate, LocallyReady, AnswerSetDesired, AfterSetDesired, RequestExpired;
    var v := s.servers[0];
    assert LocalOf(w, v.host) == Local(false, map[]);
    var done := Serve(LocalOf(w, v.host), setup, v, v.host, None, now);
    assert done == Service(LocalOf(w, v.host), Says(Word(v, now)));
    var x := Resumed(w.(locals := w.locals[v.host := LocalOf(w, v.host)]), 2, WorkerSays(v.host, s, 0, Word(v, now)));
    assert Transacts(w, 2, w.programs[2], done, x);
    forall host ensures LocalOf(x, host) == Local(false, map[]) {
      assert LocalOf(w, host) == Local(false, map[]);
    }
  }

  lemma NothingIsSeen(w: World, s: Registry)
    requires 2 in w.programs && IsBare(w) && |s.servers| == 1
    requires w.programs[2] == WorkerLoaded(s.servers[0].host, s, 0)
    ensures Step(w, WorkerReads(2), Resumed(w, 2, WorkerRead(s.servers[0].host, s, 0, None)))
  {
    hide Submission, Provision, ReaderStep, ServeStep, AskStep, RereadStep, PublishStep, StumbleStep, LocalMove;
  }

  lemma WordIsPublished(w: World, host: string, s: Registry, r: Report) returns (x: World)
    requires 2 in w.programs && w.programs[2] == WorkerSays(host, s, 0, r)
    requires ValidId(r.id) && ValidId(r.host) && r.requestId != "" && r.observedAt != 0
    requires r.id !in w.store.tombstones && r.id !in w.store.reports
    ensures Step(w, WorkerPublishes(2), x)
    ensures x.store == w.store.(reports := w.store.reports[r.id := r]) && x.locals == w.locals
        && x.machines == w.machines
    ensures x.programs == w.programs[2 := WorkerLoaded(host, s, 1)]
  {
    hide ValidId, Submission, Provision, ReaderStep, ReadStep, ServeStep, AskStep, RereadStep, StumbleStep, LocalMove;
    x := Resumed(w.(store := Published(w.store, r)), 2, WorkerLoaded(host, s, 1));
  }

  lemma ReleaseIsPlanned(c: Config, s: Registry, now: int)
    requires |s.servers| == 1 && s.servers[0].desired == Deleted && !s.deleting && !Expired(c, now)
    ensures var v := s.servers[0];
      IsPass(c, s, map[v.id := Word(v, now)], now, Release(s.(servers := []), v.id))
  {
    var v := s.servers[0];
    var reports := map[v.id := Word(v, now)];
    assert FirstRemoval(s, reports, false, 0);
    assert AllRefreshed(s.servers, reports, false, now)[..0] + s.servers[1..] == [];
    assert IsPassAt(c, s, reports, now, Release(s.(servers := []), v.id), 0);
  }

  lemma SlotIsReleased(w: World, c: Config, now: int) returns (x: World)
    requires 3 in w.programs && w.programs[3] == PassLoaded(c, ATTEMPTS, w.store.registry)
    requires Storable(w.store.registry, w.store.registry.revision) && !Expired(c, now)
    requires var s := w.store.registry;
      |s.servers| == 1 && s.servers[0].desired == Deleted && !s.deleting && ValidId(s.servers[0].id)
    ensures var s := w.store.registry; var v := s.servers[0];
      Step(w, SubmitPass(3, map[v.id := Word(v, now)], Release(s.(servers := []), v.id), now, Outcome.Committed), x)
    ensures x.store.registry.servers == [] && x.locals == w.locals
  {
    hide IsPass, Recorded, ValidId, Provision, WorkerStep, ReaderStep, CreateStep, ActionStep, TeardownStep, ForgetStep,
         NoteStep;
    var s := w.store.registry;
    ReleaseIsPlanned(c, s, now);
    x := Resumed(AfterForget(w, s.(servers := []), s.revision, s.servers[0].id), 3, Done);
  }

  // -- The run ------------------------------------------------------------------------------------

  /** A server is created, and its deletion asked for at once. */
  lemma DeletionIsAsked(c: Config, id: string, game: Game, name: string, drawn: Drawn, token: string, now: int)
    returns (ws: seq<World>, es: seq<Event>)
    requires ValidConfig(c) && game in c.games && !Expired(c, now)
    requires drawn.host != "" && drawn.launch != "" && drawn.request != ""
    requires drawn.host != drawn.launch && drawn.host != drawn.request && drawn.launch != drawn.request
    requires token != "" && token !in {drawn.host, drawn.launch, drawn.request}
    ensures StaysBare(ws, es) && |ws| == |es| + 1
    ensures var v := NewServer(id, game, name, drawn.host, drawn, now);
      && ws[|es|].store == Store(Registry(2, [NewHost(c, drawn, now)], [Requested(v, Deleted, token, now)], false), {},
                                 map[])
      && ws[|es|].programs == map[0 := Done, 1 := Done] && ws[|es|].machines == map[]
  {
    hide Step, IsRun, IsBare, ValidConfig, Expired, StaysBare;
    ws, es := FirstCreateSucceeds(c, id, game, name, drawn, now);
    assert StaysBare(ws, es) by { FirstIsBare(ws, es); }
    var begin, loaded := ActionBegin(c, id, Deleted, ATTEMPTS),
        ActionLoaded(c, id, Deleted, ATTEMPTS, ws[4].store.registry);
    Spawns(ws[4], 1, begin);
    ws, es := Resumes(ws, es, Spawn(1, begin), 1, begin);
    Loads(ws[|es|], 1, loaded);
    ws, es := Resumes(ws, es, Load(1), 1, loaded);
    var x := DeletionIsSaved(ws[|es|], c, token, now);
    LastIsBare(ws, es);
    SameLocalsAreBare(ws[|es|], x);
    ws, es := GoesOnBare(ws, es, SubmitAction(1, map[], token, now, Outcome.Committed), x);
  }

  lemma FirstIsBare(ws: seq<World>, es: seq<Event>)
    requires IsRun(ws, es)
    requires forall i | 0 <= i < |es| :: es[i].Spawn? || es[i].Load? || es[i].CheckTombstone? || es[i].SubmitCreate?
    ensures StaysBare(ws, es)
  {
    hide Step, IsBare;
    forall i | 0 <= i < |ws| ensures IsBare(ws[i]) {
      FirstStatesAreBare(ws, es, i);
    }
  }

  lemma NamesAreNotEmpty(s: string)
    requires ValidId(s)
    ensures s != ""
  {
  }

  /** The host's worker comes by and looks for the server. */
  lemma WorkerLooks(ws: seq<World>, es: seq<Event>, s: Registry) returns (vs: seq<World>, fs: seq<Event>)
    requires StaysBare(ws, es) && |ws| == |es| + 1 && ws[|es|].store == Store(s, {}, map[])
    requires ws[|es|].programs == map[0 := Done, 1 := Done] && ws[|es|].machines == map[]
    requires |s.servers| == 1 && |s.hosts| == 1 && !s.deleting && !s.hosts[0].retiring
    requires s.servers[0].host == s.hosts[0].id
    ensures StaysBare(vs, fs) && |vs| == |fs| + 1 && vs[|fs|].store == Store(s, {}, map[]) && vs[|fs|].machines == map[]
    ensures vs[|fs|].programs == map[0 := Done, 1 := Done, 2 := WorkerRead(s.servers[0].host, s, 0, None)]
  {
    hide Step, IsBare, StaysBare;
    var host := s.servers[0].host;
    Spawns(ws[|es|], 2, WorkerBegin(host));
    vs, fs := Resumes(ws, es, Spawn(2, WorkerBegin(host)), 2, WorkerBegin(host));
    assert s.hosts[0] in s.hosts;
    Loads(vs[|fs|], 2, WorkerLoaded(host, s, 0));
    vs, fs := Resumes(vs, fs, Load(2), 2, WorkerLoaded(host, s, 0));
    LastIsBare(vs, fs);
    NothingIsSeen(vs[|fs|], s);
    vs, fs := Resumes(vs, fs, WorkerReads(2), 2, WorkerRead(host, s, 0, None));
  }

  /** It reports that there is nothing left of it. */
  lemma WordIsGiven(ws: seq<World>, es: seq<Event>, s: Registry, setup: Setup, now: int)
    returns (vs: seq<World>, fs: seq<Event>)
    requires StaysBare(ws, es) && |ws| == |es| + 1 && ws[|es|].store == Store(s, {}, map[])
        && ws[|es|].machines == map[]
    requires |s.servers| == 1
    requires var v := s.servers[0];
      && ws[|es|].programs == map[0 := Done, 1 := Done, 2 := WorkerRead(v.host, s, 0, None)]
      && v.desired == Deleted && ValidId(v.id) && ValidId(v.host) && v.requestId != "" && now != 0
    ensures StaysBare(vs, fs) && |vs| == |fs| + 1 && vs[|fs|].machines == map[]
    ensures var v := s.servers[0];
      && vs[|fs|].store == Store(s, {}, map[v.id := Word(v, now)])
      && vs[|fs|].programs == map[0 := Done, 1 := Done, 2 := WorkerLoaded(v.host, s, 1)]
  {
    hide Step, IsBare, StaysBare, ValidId;
    var v := s.servers[0];
    var host := v.host;
    LastIsBare(ws, es);
    HostSaysDeleted(ws[|es|], s, setup, now);
    var w := ws[|es|];
    var x := Resumed(w.(locals := w.locals[host := LocalOf(w, host)]), 2, WorkerSays(host, s, 0, Word(v, now)));
    vs, fs := GoesOnBare(ws, es, WorkerServes(2, setup, now), x);
    var y := WordIsPublished(x, host, s, Word(v, now));
    SameLocalsAreBare(x, y);
    vs, fs := GoesOnBare(vs, fs, WorkerPublishes(2), y);
  }

  /**
   * Slots are released by acknowledgement: for every valid configuration and game some run, its controllers included,
   * ends with a pass that releases a server on a stored report of its host.
   */
  lemma AcknowledgedSlotsAreReleased(c: Config, id: string, game: Game, name: string, drawn: Drawn, token: string,
                                     setup: Setup, now: int)
    returns (ws: seq<World>, es: seq<Event>, ns: seq<map<string, Runs.Node>>, v: Server)
    requires ValidConfig(c) && game in c.games && !Expired(c, now) && ValidId(id) && ValidId(drawn.host) && now != 0
    requires drawn.launch != "" && drawn.request != ""
    requires drawn.host != drawn.launch && drawn.host != drawn.request && drawn.launch != drawn.request
    requires token != "" && token !in {drawn.host, drawn.launch, drawn.request}
    ensures IsHosted(ws, es, ns) && |es| > 0
    ensures var i := |es| - 1;
      && v in ws[i].store.registry.servers && v.id !in ServerIds(ws[i + 1].store.registry)
      && es[i].SubmitPass? && es[i].reports == ws[i].store.reports && ws[i].machines == map[]
  {
    hide Step, IsRun, IsHosted, IsBare, StaysBare, ValidConfig, Expired, ValidId;
    NamesAreNotEmpty(drawn.host);
    ws, es := DeletionIsAsked(c, id, game, name, drawn, token, now);
    var s := ws[|es|].store.registry;
    ws, es := WorkerLooks(ws, es, s);
    ws, es := WordIsGiven(ws, es, s, setup, now);
    v := s.servers[0];
    Spawns(ws[|es|], 3, PassBegin(c, ATTEMPTS));
    ws, es := Resumes(ws, es, Spawn(3, PassBegin(c, ATTEMPTS)), 3, PassBegin(c, ATTEMPTS));
    Loads(ws[|es|], 3, PassLoaded(c, ATTEMPTS, s));
    ws, es := Resumes(ws, es, Load(3), 3, PassLoaded(c, ATTEMPTS, s));
    var w := ws[|es|];
    var x := SlotIsReleased(w, c, now);
    assert v in w.store.registry.servers;
    LastIsBare(ws, es);
    SameLocalsAreBare(w, x);
    ws, es := GoesOnBare(ws, es, SubmitPass(3, map[v.id := Word(v, now)], Release(s.(servers := []), v.id), now,
                                            Outcome.Committed), x);
    ns := BareRunIsHosted(ws, es);
  }
}
