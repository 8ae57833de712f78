/**
 * A slot is released only once the server's game is gone for good: its host said so, or the host's machine is
 * terminated.
 */
module FleetRelease {
  import opened FleetState
  import opened FleetPlacement
  import opened FleetStore
  import opened FleetPlan
  import opened Controller
  import opened FleetWorld
  import opened FleetHistory
  import opened FleetSafety
  import opened FleetTraces
  import opened FleetTheorems
  import opened FleetIntent
  import opened FleetNodes
  import Runs = ControllerRuns

  // -- Gone for good ------------------------------------------------------------------------------

  /** The document wants the server deleted, or does not have it. */
  predicate Unwanted(s: Registry, id: string) {
    id in ServerIds(s) ==> id in DeletedIds(s)
  }

  /** Neither the registry nor the document that the host's worker serves from wants the server ever to run again. */
  ghost predicate Doomed(w: World, host: string, id: string) {
    && id in w.book.servers
    && Unwanted(w.store.registry, id)
    && forall p | p in w.programs && WorkerHost(w.programs[p]) == Some(host) && WorkerSnap(w.programs[p]).Some? ::
         Unwanted(WorkerSnap(w.programs[p]).value, id)
  }

  /** The host keeps the instance as deleted, or keeps none and will get none. */
  ghost predicate Settled(w: World, host: string, id: string) {
    || IsDeleted(LocalOf(w, host), id)
    || (id !in LocalOf(w, host).store && Doomed(w, host, id))
  }

  /** A document wants deleted only what the current one wants deleted too, if it still has it. */
  predicate Behind(s: Registry, current: Registry) {
    DeletedIds(s) * ServerIds(current) <= DeletedIds(current)
  }

  ghost predicate SnapsAreBehind(w: World) {
    forall p | p in w.programs && WorkerSnap(w.programs[p]).Some? ::
      Behind(WorkerSnap(w.programs[p]).value, w.store.registry)
  }

  /** Intent to delete is never taken back, and a removed server never returns. */
  lemma UnwantedStays(w: World, x: World, id: string)
    requires StoreInv(w) && StoreInv(x) && Grows(w, x) && id in w.book.servers && Unwanted(w.store.registry, id)
    ensures Unwanted(x.store.registry, id)
  {
    hide Sound, Known, Newest, BookIsConsistent, DeletedIds, FleetHistory.Admits;
    if id in ServerIds(x.store.registry) {
      assert id in x.book.servers && id !in x.store.tombstones;
      assert id in ServerIds(w.store.registry);
    }
  }

  /** A worker serves from the document it had, or from the current one. */
  lemma SnapsComeFrom(w: World, e: Event, x: World, p: nat)
    requires Step(w, e, x) && p in x.programs && WorkerSnap(x.programs[p]).Some?
    ensures || WorkerSnap(x.programs[p]).value == w.store.registry
            || (p in w.programs && WorkerHost(x.programs[p]) == WorkerHost(w.programs[p])
                && WorkerSnap(x.programs[p]) == WorkerSnap(w.programs[p]))
  {
    hide Step, Submission, Provision, WorkerStep, ReaderStep, Mover, KeepsConfig, KeepsHand;
    if p != Mover(e) {
      StepLeavesOthers(w, e, x);
    } else if AppliesNothing(e) {
      StepContinues(w, e, x);
      SnapIsHosted(x.programs[p]);
    } else {
      StepIsOfItsKind(w, e, x);
      WorkKeepsSnap(w, e, x);
    }
  }

  lemma SnapIsHosted(q: Program)
    requires WorkerSnap(q).Some?
    ensures WorkerHost(q).Some?
  {
  }

  lemma WorkKeepsSnap(w: World, e: Event, x: World)
    requires (WorkerStep(w, e, x) || ReaderStep(w, e, x)) && !AppliesNothing(e)
    requires Mover(e) in x.programs && WorkerSnap(x.programs[Mover(e)]).Some?
    ensures var p := Mover(e);
      || WorkerSnap(x.programs[p]).value == w.store.registry
      || (p in w.programs && WorkerHost(x.programs[p]) == WorkerHost(w.programs[p])
          && WorkerSnap(x.programs[p]) == WorkerSnap(w.programs[p]))
  {
    hide ReadStep, ServeStep, AskStep, RereadStep, PublishStep, StumbleStep, LocalMove, LoadStep, CheckStep;
    match e
    case Spawn(p, q) =>
    case Load(p) => LoadBringsCurrent(w, p, x);
    case WorkerServes(p, setup, now) => ServeKeepsSnap(w, p, setup, now, x);
    case WorkerAsks(p, setup, now) => AskKeepsSnap(w, p, setup, now, x);
    case LocalMoves(host, after) =>
  }

  lemma LoadBringsCurrent(w: World, p: nat, x: World)
    requires p in w.programs && LoadStep(w, p, w.programs[p], x)
    ensures p in x.programs && (WorkerSnap(x.programs[p]).Some? ==> WorkerSnap(x.programs[p]).value == w.store.registry)
  {
  }

  lemma ServeKeepsSnap(w: World, p: nat, setup: Setup, now: int, x: World)
    requires p in w.programs && ServeStep(w, p, w.programs[p], setup, now, x)
    ensures p in x.programs && WorkerHost(x.programs[p]) == WorkerHost(w.programs[p])
    ensures WorkerSnap(x.programs[p]) == WorkerSnap(w.programs[p])
  {
    hide Serve, AppliedAfter, AfterTurn;
    var q := w.programs[p];
    TurnIsSameWorker(q, Serve(LocalOf(w, q.host), setup, q.snap.servers[q.i], q.host, q.seen, now).turn);
  }

  lemma AskKeepsSnap(w: World, p: nat, setup: Setup, now: int, x: World)
    requires p in w.programs && AskStep(w, p, w.programs[p], setup, now, x)
    ensures p in x.programs && WorkerHost(x.programs[p]) == WorkerHost(w.programs[p])
    ensures WorkerSnap(x.programs[p]) == WorkerSnap(w.programs[p])
  {
    hide Ask, AppliedAfter, AfterTurn;
    var q := w.programs[p];
    TurnIsSameWorker(q, Ask(LocalOf(w, q.host), q.snap.servers[q.i], q.host, q.instance, setup.startedAt, now).turn);
  }

  lemma DoomedStays(w: World, e: Event, x: World, host: string, id: string)
    requires StoreInv(w) && StoreInv(x) && Grows(w, x) && Step(w, e, x) && Doomed(w, host, id)
    ensures Doomed(x, host, id)
  {
    hide Step, StoreInv, Unwanted, FleetHistory.Admits, Departs;
    UnwantedStays(w, x, id);
    forall p | p in x.programs && WorkerHost(x.programs[p]) == Some(host) && WorkerSnap(x.programs[p]).Some?
      ensures Unwanted(WorkerSnap(x.programs[p]).value, id)
    {
      SnapsComeFrom(w, e, x, p);
    }
  }

  lemma SnapsStayBehind(w: World, e: Event, x: World)
    requires Inv(w) && StoreInv(x) && Grows(w, x) && Step(w, e, x) && SnapsAreBehind(w)
    ensures SnapsAreBehind(x)
  {
    hide Step, StoreInv, MachineInv, ProgramOk, Grows, Behind;
    forall p | p in x.programs && WorkerSnap(x.programs[p]).Some?
      ensures Behind(WorkerSnap(x.programs[p]).value, x.store.registry)
    {
      SnapsComeFrom(w, e, x, p);
      var s := WorkerSnap(x.programs[p]).value;
      if s == w.store.registry {
        StoreKnows(w);
        assert Behind(s, s) by { NotBehindItself(s); }
      } else {
        assert ProgramOk(w, w.programs[p]);
        SnapIsKnown(w, w.programs[p]);
      }
      BehindStays(w, x, s);
    }
  }

  lemma StoreKnows(w: World)
    requires StoreInv(w)
    ensures Known(w.book, w.store.registry)
  {
  }

  lemma NotBehindItself(s: Registry)
    ensures Behind(s, s)
  {
  }

  lemma BehindStays(w: World, x: World, s: Registry)
    requires StoreInv(w) && StoreInv(x) && Grows(w, x) && Known(w.book, s) && Behind(s, w.store.registry)
    ensures Behind(s, x.store.registry)
  {
    hide StoreInv, Grows, Unwanted;
    forall id | id in DeletedIds(s) && id in ServerIds(x.store.registry) ensures id in DeletedIds(x.store.registry) {
      assert id in w.book.servers;
      assert Unwanted(w.store.registry, id) by { BehindIsUnwanted(s, w.store.registry, id); }
      UnwantedStays(w, x, id);
      assert Unwanted(x.store.registry, id) ==> id in DeletedIds(x.store.registry) by { UnwantedIsDeleted(x, id); }
    }
  }

  lemma BehindIsUnwanted(s: Registry, current: Registry, id: string)
    requires Behind(s, current) && id in DeletedIds(s)
    ensures Unwanted(current, id)
  {
  }

  lemma UnwantedIsDeleted(x: World, id: string)
    requires id in ServerIds(x.store.registry)
    ensures Unwanted(x.store.registry, id) ==> id in DeletedIds(x.store.registry)
  {
  }

  /** No worker brings back what nobody wants. */
  lemma NothingReturns(w: World, e: Event, x: World, host: string, id: string)
    requires Inv(w) && Doomed(w, host, id) && AddsServed(w, e, x, host) && id !in LocalOf(w, host).store
    ensures id !in LocalOf(x, host).store
  {
    hide Inv, Doomed, Serves;
    if id in LocalOf(x, host).store {
      var v :| Serves(w, e, host, v) && v.id == id && v.desired == Running;
      ServedIsDeleted(w, e, host, v);
    }
  }

  lemma ServedIsDeleted(w: World, e: Event, host: string, v: Server)
    requires Inv(w) && Doomed(w, host, v.id) && Serves(w, e, host, v)
    ensures v.desired == Deleted
  {
    hide StoreInv, MachineInv, ProgramOk, Known, Serving;
    var q := w.programs[e.p];
    assert ProgramOk(w, q);
    assert WorkerSnap(q) == Some(q.snap) && WorkerHost(q) == Some(host) by { ServingIsWorking(q); }
    WorkerServesOwn(w, q);
    assert v in q.snap.servers && v.id in ServerIds(q.snap);
    var u :| u in q.snap.servers && u.id == v.id && u.desired == Deleted;
    ServerById(q.snap.servers, u, v);
  }

  lemma ServingIsWorking(q: Program)
    requires Serving(q)
    ensures WorkerSnap(q) == Some(q.snap) && WorkerHost(q) == Some(q.host)
  {
  }

  lemma SettledStays(w: World, ns: map<string, Runs.Node>, e: Event, x: World, ms: map<string, Runs.Node>, host: string,
                     id: string)
    requires Inv(w) && StoreInv(x) && Grows(w, x) && Step(w, e, x) && NodesOk(w, ns) && NodesFollow(ns, ms, e, x)
    requires Settled(w, host, id)
    ensures Settled(x, host, id)
  {
    hide Step, Inv, StoreInv, Grows, NodesOk, NodesFollow, Doomed, AddsServed;
    NodeStays(w, ns, e, x, ms, host);
    if !IsDeleted(LocalOf(w, host), id) {
      InvHoldsStore(w);
      DoomedStays(w, e, x, host, id);
      NothingReturns(w, e, x, host, id);
    }
  }

  // -- What hosts say -----------------------------------------------------------------------------

  predicate SaysDeleted(r: Report) {
    r.phase == Deleted && r.desired == Deleted && r.error == ""
  }

  ghost predicate ReportIsTrue(w: World, r: Report) {
    SaysDeleted(r) ==> Settled(w, r.host, r.id)
  }

  /** What a worker has in hand about a deleted server is what its host has. */
  ghost predicate HandIsTrue(w: World, q: Program) {
    match q
    case WorkerRead(host, snap, i, seen) =>
      i < |snap.servers| ==>
        if seen.None? then snap.servers[i].desired == Deleted ==> Settled(w, host, snap.servers[i].id)
        else seen.value.phase == Deleted ==> IsDeleted(LocalOf(w, host), snap.servers[i].id)
    case WorkerHas(host, snap, i, instance) =>
      i < |snap.servers| && instance.phase == Deleted ==> IsDeleted(LocalOf(w, host), snap.servers[i].id)
    case WorkerSays(_, _, _, report) => ReportIsTrue(w, report)
    case _ => true
  }

  ghost predicate ReportsAreTrue(w: World) {
    forall id | id in w.store.reports :: w.store.reports[id].id == id && ReportIsTrue(w, w.store.reports[id])
  }

  ghost predicate HandsAreTrue(w: World) {
    forall p | p in w.programs :: HandIsTrue(w, w.programs[p])
  }

  /** Whatever was settled, or deleted, is so after the step. */
  ghost predicate Lasts(w: World, x: World) {
    && (forall host, id | Settled(w, host, id) :: Settled(x, host, id))
    && (forall host, id | IsDeleted(LocalOf(w, host), id) :: IsDeleted(LocalOf(x, host), id))
  }

  lemma StepLasts(w: World, ns: map<string, Runs.Node>, e: Event, x: World, ms: map<string, Runs.Node>)
    requires Inv(w) && StoreInv(x) && Grows(w, x) && Step(w, e, x) && NodesOk(w, ns) && NodesFollow(ns, ms, e, x)
    ensures Lasts(w, x)
  {
    hide Step, Inv, StoreInv, Grows, NodesOk, NodesFollow, Settled, AddsServed, IsDeleted;
    forall host, id | Settled(w, host, id) ensures Settled(x, host, id) {
      SettledStays(w, ns, e, x, ms, host, id);
    }
    forall host, id | IsDeleted(LocalOf(w, host), id) ensures IsDeleted(LocalOf(x, host), id) {
      NodeStays(w, ns, e, x, ms, host);
    }
  }

  lemma HandStaysTrue(w: World, x: World, q: Program)
    requires HandIsTrue(w, q) && Lasts(w, x)
    ensures HandIsTrue(x, q)
  {
    hide Settled, IsDeleted;
  }

  // -- One step of a worker -----------------------------------------------------------------------

  /** Serving a server turns up no deleted instance that was not seen, or found, as one. */
  lemma ServeIsTrue(local: Local, setup: Setup, v: Server, host: string, seen: Option<Instance>, now: int)
    ensures var done := Serve(local, setup, v, host, seen, now);
      && (done.turn.Has? && done.turn.instance.phase == Deleted ==>
            seen == Some(done.turn.instance) || (seen.None? && IsDeleted(done.local, v.id)))
      && (done.turn.Says? && SaysDeleted(done.turn.report) ==> seen.None? && v.desired == Deleted)
  {
    hide AfterSetDesired, AnswerSetDesired, StartupExpired, LocallyReady, Wellformed, SameSettings, Trimmed;
  }

  lemma AskIsTrue(local: Local, v: Server, host: string, i: Instance, startedAt: int, now: int)
    ensures var done := Ask(local, v, host, i, startedAt, now);
      !done.turn.Has? && (done.turn.Says? && SaysDeleted(done.turn.report) ==> i.phase == Deleted)
  {
    hide AfterRequest, AnswerRequest;
  }

  lemma RereadIsTrue(local: Local, v: Server, host: string, startedAt: int)
    ensures var turn := Reread(local, v, host, startedAt);
      !turn.Has? && (turn.Says? && SaysDeleted(turn.report) ==> IsDeleted(local, v.id))
  {
  }

  /** A turn that claims a deletion no more than the host shows leaves the worker truthful. */
  lemma TurnIsTrue(x: World, q: Program, turn: Turn)
    requires Serving(q) && SpeaksFor(turn, q.snap.servers[q.i], q.host)
    requires turn.Has? && turn.instance.phase == Deleted ==> IsDeleted(LocalOf(x, q.host), q.snap.servers[q.i].id)
    requires turn.Says? && SaysDeleted(turn.report) ==> Settled(x, q.host, q.snap.servers[q.i].id)
    ensures HandIsTrue(x, AfterTurn(q, turn))
  {
    hide Settled, IsDeleted, SaysDeleted;
  }

  /** A worker that finds no instance of a server that is to be deleted knows that none will come. */
  lemma AbsentIsSettled(w: World, p: nat, x: World)
    requires Inv(w) && OneWorkerEach(w) && SnapsAreBehind(w) && p in w.programs && ReadStep(w, p, w.programs[p], x)
    requires x.programs[p].WorkerRead? && x.programs[p].seen.None?
    requires w.programs[p].snap.servers[w.programs[p].i].desired == Deleted
    ensures Settled(x, w.programs[p].host, w.programs[p].snap.servers[w.programs[p].i].id)
  {
    hide StoreInv, MachineInv, ProgramOk, Behind, Known;
    var q := w.programs[p];
    var v := q.snap.servers[q.i];
    assert ProgramOk(w, q);
    SnapIsKnown(w, q);
    assert v in q.snap.servers && v.id in DeletedIds(q.snap);
    assert v.id in w.book.servers by { KnownServer(w, q.snap, v); }
    BehindIsUnwanted(q.snap, w.store.registry, v.id);
    assert Doomed(x, q.host, v.id);
  }

  lemma KnownServer(w: World, s: Registry, v: Server)
    requires Known(w.book, s) && v in s.servers
    ensures v.id in w.book.servers
  {
  }

  lemma ReadHandsOver(w: World, p: nat, x: World)
    requires Inv(w) && OneWorkerEach(w) && SnapsAreBehind(w) && p in w.programs && ReadStep(w, p, w.programs[p], x)
    ensures p in x.programs && HandIsTrue(x, x.programs[p])
  {
    hide Inv, OneWorkerEach, SnapsAreBehind, Settled;
    if x.programs[p].WorkerRead? && x.programs[p].seen.None?
       && w.programs[p].snap.servers[w.programs[p].i].desired == Deleted {
      AbsentIsSettled(w, p, x);
    }
  }

  lemma ServeHandsOver(w: World, p: nat, setup: Setup, now: int, x: World)
    requires p in w.programs && HandIsTrue(w, w.programs[p]) && Lasts(w, x)
    requires ServeStep(w, p, w.programs[p], setup, now, x)
    ensures p in x.programs && HandIsTrue(x, x.programs[p])
  {
    hide Settled, Serve, AppliedAfter, IsDeleted, SaysDeleted, AfterTurn, SpeaksFor;
    var q := w.programs[p];
    var v := q.snap.servers[q.i];
    ServeIsTrue(LocalOf(w, q.host), setup, v, q.host, q.seen, now);
    ServeSpeaks(LocalOf(w, q.host), setup, v, q.host, q.seen, now);
    TurnIsTrue(x, q, Serve(LocalOf(w, q.host), setup, v, q.host, q.seen, now).turn);
  }

  lemma AskHandsOver(w: World, p: nat, setup: Setup, now: int, x: World)
    requires p in w.programs && HandIsTrue(w, w.programs[p]) && Lasts(w, x)
    requires AskStep(w, p, w.programs[p], setup, now, x)
    ensures p in x.programs && HandIsTrue(x, x.programs[p])
  {
    hide Doomed, Ask, AppliedAfter, SaysDeleted, AfterTurn, SpeaksFor;
    var q := w.programs[p];
    var v := q.snap.servers[q.i];
    AskIsTrue(LocalOf(w, q.host), v, q.host, q.instance, setup.startedAt, now);
    AskSpeaks(LocalOf(w, q.host), v, q.host, q.instance, setup.startedAt, now);
    TurnIsTrue(x, q, Ask(LocalOf(w, q.host), v, q.host, q.instance, setup.startedAt, now).turn);
  }

  lemma RereadHandsOver(w: World, p: nat, setup: Setup, x: World)
    requires p in w.programs && RereadStep(w, p, w.programs[p], setup, x)
    ensures p in x.programs && HandIsTrue(x, x.programs[p])
  {
    hide Doomed, Reread, SaysDeleted, AfterTurn, SpeaksFor;
    var q := w.programs[p];
    var v := q.snap.servers[q.i];
    RereadIsTrue(LocalOf(w, q.host), v, q.host, setup.startedAt);
    RereadSpeaks(LocalOf(w, q.host), v, q.host, setup.startedAt);
    TurnIsTrue(x, q, Reread(LocalOf(w, q.host), v, q.host, setup.startedAt));
  }

  lemma StumbleHandsOver(w: World, p: nat, reported: Option<int>, x: World)
    requires p in w.programs && StumbleStep(w, p, w.programs[p], reported, x)
    ensures p in x.programs && HandIsTrue(x, x.programs[p])
  {
    hide Settled;
  }

  lemma WorkHandsOver(w: World, e: Event, x: World)
    requires Inv(w) && OneWorkerEach(w) && SnapsAreBehind(w) && HandsAreTrue(w) && Lasts(w, x)
    requires WorkerStep(w, e, x) && Handles(e)
    ensures Mover(e) in x.programs && HandIsTrue(x, x.programs[Mover(e)])
  {
    hide Inv, OneWorkerEach, SnapsAreBehind, Lasts, HandIsTrue, ReadStep, ServeStep, AskStep, RereadStep, PublishStep,
         StumbleStep, LocalMove;
    match e
    case WorkerReads(p) => ReadHandsOver(w, p, x);
    case WorkerServes(p, setup, now) => ServeHandsOver(w, p, setup, now, x);
    case WorkerAsks(p, setup, now) => AskHandsOver(w, p, setup, now, x);
    case WorkerRereads(p, setup) => RereadHandsOver(w, p, setup, x);
    case WorkerFails(p, reported) => StumbleHandsOver(w, p, reported, x);
  }

  // -- Every step ---------------------------------------------------------------------------------

  lemma EmptyHands(x: World, q: Program)
    requires !InHand(q)
    ensures HandIsTrue(x, q)
  {
  }

  lemma SpawnedIsEmpty(w: World, e: Event, x: World)
    requires ReaderStep(w, e, x) && e.Spawn?
    ensures Mover(e) in x.programs && !InHand(x.programs[Mover(e)])
  {
    hide LoadStep, CheckStep;
  }

  lemma HandsStayTrue(w: World, e: Event, x: World, p: nat)
    requires Inv(w) && OneWorkerEach(w) && SnapsAreBehind(w) && HandsAreTrue(w) && Lasts(w, x)
    requires Step(w, e, x) && p in x.programs
    ensures HandIsTrue(x, x.programs[p])
  {
    hide Inv, OneWorkerEach, SnapsAreBehind, Lasts, HandIsTrue, Step, WorkerStep, ReaderStep, Submission, Provision,
         Mover, KeepsConfig;
    StepIsOfItsKind(w, e, x);
    if p == Mover(e) && Handles(e) {
      WorkHandsOver(w, e, x);
    } else if !InHand(x.programs[p]) {
      EmptyHands(x, x.programs[p]);
    } else {
      if e.Spawn? && p == Mover(e) {
        SpawnedIsEmpty(w, e, x);
      }
      StepLeavesOthers(w, e, x);
      HandStaysTrue(w, x, w.programs[p]);
    }
  }

  lemma SavesKeep(w: World, d: Registry, previous: int)
    ensures AfterSave(w, d, previous).store.tombstones == w.store.tombstones
    ensures AfterSave(w, d, previous).store.reports == w.store.reports
  {
  }

  lemma ForgetsKeep(w: World, d: Registry, previous: int, id: string)
    ensures var x := AfterForget(w, d, previous, id);
      && (x.store.tombstones == w.store.tombstones
          || (ForgetOutcome(w.store, d, previous, id).Committed? && x.store.tombstones == w.store.tombstones + {id}))
      && forall k | k in x.store.reports :: k in w.store.reports && x.store.reports[k] == w.store.reports[k]
  {
  }

  /** Events that release a slot: a pass over an acknowledged removal, and a round of the emptying loop. */
  ghost predicate Releases(w: World, e: Event, id: string) {
    || (e.SubmitPass? && e.p in w.programs && w.programs[e.p].PassLoaded? && e.plan.Release? && e.plan.id == id
        && IsPass(w.programs[e.p].c, w.programs[e.p].snap, e.reports, e.now, e.plan)
        && ForgetOutcome(w.store, e.plan.next, w.programs[e.p].snap.revision, id).Committed?)
    || (e.SubmitForget? && e.p in w.programs && w.programs[e.p].Emptying? && w.programs[e.p].read.Some?
        && AtHost(w.programs[e.p].s) && e.round.DropServer? && e.round.id == id
        && IsForgetRound(w.programs[e.p].read.value, w.programs[e.p].s.snap.hosts[w.programs[e.p].s.i].id, e.round)
        && ForgetOutcome(w.store, e.round.next, w.programs[e.p].read.value.revision, id).Committed?)
  }

  /** Only those events add tombstones, and none of the submissions adds a report. */
  ghost predicate StoreFollows(w: World, e: Event, x: World) {
    && (forall id | id in x.store.tombstones && id !in w.store.tombstones :: Releases(w, e, id))
    && (forall id | id in x.store.reports :: id in w.store.reports && x.store.reports[id] == w.store.reports[id])
  }

  lemma SavesFollow(w: World, e: Event, x: World)
    requires Submission(w, e, x) && (e.SubmitCreate? || e.SubmitAction? || e.SubmitTeardown? || e.SubmitNote?)
    ensures x.store.tombstones == w.store.tombstones && x.store.reports == w.store.reports
  {
    hide PlanCreate, PlanAction, IsChoice, IsNoted, Swap, AfterSave, Unused, PassStep, ForgetStep, AfterNote;
    forall y: World, d: Registry, n: int
      ensures AfterSave(y, d, n).store.tombstones == y.store.tombstones
      ensures AfterSave(y, d, n).store.reports == y.store.reports
    {
      SavesKeep(y, d, n);
    }
  }

  lemma PassFollows(w: World, e: Event, x: World)
    requires Submission(w, e, x) && e.SubmitPass?
    ensures StoreFollows(w, e, x)
  {
    hide CreateStep, ActionStep, TeardownStep, ForgetStep, NoteStep, IsForgetRound, IsPass, AfterSave, AfterForget,
         Swap, ForgetOutcome;
    var q := w.programs[e.p];
    match e.plan
    case Release(next, id) => ForgetsKeep(w, next, q.snap.revision, id);
    case Keep(next, changed) => SavesKeep(w, next, q.snap.revision);
  }

  lemma ForgetFollows(w: World, e: Event, x: World)
    requires Submission(w, e, x) && e.SubmitForget?
    ensures StoreFollows(w, e, x)
  {
    hide CreateStep, ActionStep, TeardownStep, PassStep, NoteStep, IsPass, IsForgetRound, AfterSave, AfterForget,
         Swap, ForgetOutcome;
    var q := w.programs[e.p];
    if e.round.DropServer? {
      ForgetsKeep(w, e.round.next, q.read.value.revision, e.round.id);
    } else if e.round.DropHost? {
      SavesKeep(w, e.round.next, q.read.value.revision);
    }
  }

  lemma SubmissionsPublishNothing(w: World, e: Event, x: World)
    requires Submission(w, e, x)
    ensures StoreFollows(w, e, x)
  {
    hide Submission, Releases;
    SubmissionSubmits(w, e, x);
    if e.SubmitPass? {
      PassFollows(w, e, x);
    } else if e.SubmitForget? {
      ForgetFollows(w, e, x);
    } else {
      SavesFollow(w, e, x);
    }
  }

  /** A stored report was there before, or a worker had it in hand. */
  lemma ReportsAreSaid(w: World, e: Event, x: World, id: string)
    requires Step(w, e, x) && id in x.store.reports
    ensures || (id in w.store.reports && x.store.reports[id] == w.store.reports[id])
            || (e.WorkerPublishes? && e.p in w.programs && w.programs[e.p].WorkerSays?
                && x.store.reports[id] == w.programs[e.p].report && id == w.programs[e.p].report.id)
  {
    hide Step, Submission, WorkerStep, Releases;
    StepIsOfItsKind(w, e, x);
    if Submits(e) {
      SubmissionsPublishNothing(w, e, x);
    } else if e.WorkerPublishes? {
      PublicationsAreSaid(w, e, x);
    } else {
      StepKeepsDocument(w, e, x);
    }
  }

  lemma PublicationsAreSaid(w: World, e: Event, x: World)
    requires WorkerStep(w, e, x) && e.WorkerPublishes?
    ensures x.store.tombstones == w.store.tombstones && e.p in w.programs && w.programs[e.p].WorkerSays?
    ensures var r := w.programs[e.p].report;
      forall id | id in x.store.reports ::
        || (id in w.store.reports && x.store.reports[id] == w.store.reports[id])
        || (x.store.reports[id] == r && id == r.id)
  {
    hide ReadStep, ServeStep, AskStep, RereadStep, StumbleStep, LocalMove;
  }

  lemma ReportsStayTrue(w: World, e: Event, x: World)
    requires Step(w, e, x) && ReportsAreTrue(w) && HandsAreTrue(w) && Lasts(w, x)
    ensures ReportsAreTrue(x)
  {
    hide Step, Settled, SaysDeleted, IsDeleted;
    forall id | id in x.store.reports ensures x.store.reports[id].id == id && ReportIsTrue(x, x.store.reports[id]) {
      ReportsAreSaid(w, e, x, id);
      if !(id in w.store.reports && x.store.reports[id] == w.store.reports[id]) {
        assert HandIsTrue(w, w.programs[e.p]);
      }
    }
  }

  // -- Whole runs ---------------------------------------------------------------------------------

  ghost predicate ReleaseInv(w: World, ns: map<string, Runs.Node>) {
    && Inv(w) && IntentInv(w)
    && NodesOk(w, ns) && SnapsAreBehind(w) && HandsAreTrue(w) && ReportsAreTrue(w)
  }

  lemma InitialRelease()
    ensures ReleaseInv(INITIAL, map[])
  {
    hide IntentInv, NodesOk;
    InitialIntent();
    FreshNodesAreOk();
  }

  lemma IntentHoldsWorkers(w: World)
    requires IntentInv(w)
    ensures OneWorkerEach(w)
  {
  }

  lemma StepKeepsRelease(w: World, ns: map<string, Runs.Node>, e: Event, x: World, ms: map<string, Runs.Node>)
    requires ReleaseInv(w, ns) && Step(w, e, x) && NodesFollow(ns, ms, e, x)
    ensures ReleaseInv(x, ms) && Lasts(w, x)
  {
    hide Inv, IntentInv, Grows, MachinesGrow, Step, NodesOk, NodesFollow, SnapsAreBehind, HandIsTrue, ReportsAreTrue,
         Lasts, OneWorkerEach;
    StepKeepsInv(w, e, x);
    StepKeepsIntent(w, e, x);
    InvHoldsStore(x);
    NodesStay(w, ns, e, x, ms);
    SnapsStayBehind(w, e, x);
    StepLasts(w, ns, e, x, ms);
    IntentHoldsWorkers(w);
    forall p | p in x.programs ensures HandIsTrue(x, x.programs[p]) {
      HandsStayTrue(w, e, x, p);
    }
    ReportsStayTrue(w, e, x);
  }

  lemma {:induction false} RunKeepsRelease(ws: seq<World>, es: seq<Event>, ns: seq<map<string, Runs.Node>>, i: nat)
    requires IsHosted(ws, es, ns) && i < |ws|
    ensures ReleaseInv(ws[i], ns[i])
  {
    hide ReleaseInv, Step, NodesFollow;
    if i == 0 {
      InitialRelease();
    } else {
      RunKeepsRelease(ws, es, ns, i - 1);
      HostedStep(ws, es, ns, i - 1);
      StepKeepsRelease(ws[i - 1], ns[i - 1], es[i - 1], ws[i], ns[i]);
    }
  }

  /** What is settled once is settled for the rest of the run. */
  lemma {:induction false} SettledForGood(ws: seq<World>, es: seq<Event>, ns: seq<map<string, Runs.Node>>, i: nat,
                                          j: nat, host: string, id: string)
    requires IsHosted(ws, es, ns) && i <= j < |ws| && Settled(ws[i], host, id)
    ensures Settled(ws[j], host, id)
    decreases j
  {
    hide ReleaseInv, Step, NodesFollow, Settled;
    if i < j {
      SettledForGood(ws, es, ns, i, j - 1, host, id);
      RunKeepsRelease(ws, es, ns, j - 1);
      HostedStep(ws, es, ns, j - 1);
      StepKeepsRelease(ws[j - 1], ns[j - 1], es[j - 1], ws[j], ns[j]);
    }
  }

  lemma SettledIsGone(w: World, ns: map<string, Runs.Node>, host: string, id: string)
    requires NodesOk(w, ns) && Settled(w, host, id)
    ensures id in LocalOf(w, host).store ==> LocalOf(w, host).store[id].phase == Deleted
    ensures id !in NodeOf(ns, host).installed
  {
    hide NodesOk, Doomed;
    GoneMeansUninstalled(w, ns, host, id);
  }

  /**
   * A report that its server is deleted, once stored, is true for the rest of the run: the host keeps no instance of
   * the server but a deleted one, and nothing of its game is installed there.
   */
  lemma DeletedReportsStayTrue(ws: seq<World>, es: seq<Event>, ns: seq<map<string, Runs.Node>>, i: nat, j: nat,
                               id: string)
    requires IsHosted(ws, es, ns) && i <= j < |ws| && id in ws[i].store.reports && SaysDeleted(ws[i].store.reports[id])
    ensures var host := ws[i].store.reports[id].host; var local := LocalOf(ws[j], host);
      && ws[i].store.reports[id].id == id
      && Settled(ws[j], host, id)
      && (id in local.store ==> local.store[id].phase == Deleted)
      && id !in NodeOf(ns[j], host).installed
  {
    hide Inv, IntentInv, Step, NodesOk, NodesFollow, SnapsAreBehind, HandsAreTrue, Settled;
    RunKeepsRelease(ws, es, ns, i);
    RunKeepsRelease(ws, es, ns, j);
    var host := ws[i].store.reports[id].host;
    SettledForGood(ws, es, ns, i, j, host, id);
    SettledIsGone(ws[j], ns[j], host, id);
  }

  // -- Releases -----------------------------------------------------------------------------------

  /** A server that left is tombstoned, and only a release tombstones. */
  lemma LeavingIsReleased(w: World, e: Event, x: World, v: Server)
    requires Inv(w) && Inv(x) && Grows(w, x) && Step(w, e, x)
    requires v in w.store.registry.servers && v.id !in ServerIds(x.store.registry)
    ensures Releases(w, e, v.id)
  {
    hide Step, Submission, WorkerStep, MachineInv, Releases, Sound, Known, Newest, BookIsConsistent,
         FleetHistory.Admits, Departs;
    assert v.id in ServerIds(w.store.registry);
    assert v.id in x.book.servers && v.id in x.store.tombstones && v.id !in w.store.tombstones;
    StepIsOfItsKind(w, e, x);
    if Submits(e) {
      SubmissionsPublishNothing(w, e, x);
    } else if e.WorkerPublishes? {
      PublicationsAreSaid(w, e, x);
    } else {
      StepKeepsDocument(w, e, x);
    }
  }

  /** A pass releases the server whose host reported the newest deletion request done. */
  lemma PassReleasesAcknowledged(w: World, e: Event, v: Server)
    requires Inv(w) && v in w.store.registry.servers && e.SubmitPass? && Releases(w, e, v.id)
    ensures RemovalDone(v, ReportOf(e.reports, v.id)) && v.id in e.reports
    ensures IsLast(w.book.issued[v.id], v.requestId)
  {
    hide MachineInv, Known, WithinCapacity, RetirementIsSafe, NothingResurrected, ForgetOutcome, IsPass, AllRefreshed;
    var q := w.programs[e.p];
    assert ProgramOk(w, q);
    ForgetNeedsCurrent(w, q.snap, e.plan.next, v.id);
    var k := PassStops(q.c, q.snap, e.reports, e.now, e.plan);
    var s := w.store.registry;
    assert s.servers[k] in s.servers && s.servers[k].id == v.id;
    ServerById(s.servers, s.servers[k], v);
    assert v.requestId in w.book.issued[v.id];
  }

  /** A round of the emptying loop releases servers of a host whose launch token is used up. */
  lemma RoundReleasesTerminated(w: World, e: Event, v: Server)
    requires Inv(w) && v in w.store.registry.servers && e.SubmitForget? && Releases(w, e, v.id)
    ensures v.host in w.book.hosts && Burned(w.machines, w.book.hosts[v.host].token)
  {
    hide MachineInv, Known, Newest, WithinCapacity, RetirementIsSafe, BookIsConsistent, NothingResurrected,
         ForgetOutcome, IsForgetRound, Burned, DeleteOk;
    var q := w.programs[e.p];
    assert ProgramOk(w, q);
    ForgetNeedsCurrent(w, q.read.value, e.round.next, v.id);
    var k := RoundDropsServer(q.read.value, q.s.snap.hosts[q.s.i].id, e.round);
    var s := w.store.registry;
    assert s.servers[k] in s.servers && s.servers[k].id == v.id;
    ServerById(s.servers, s.servers[k], v);
    EmptyingIsBurned(w, q);
  }

  /** Reports a pass may act on: each was read from the table, at whatever state so far. */
  ghost predicate WereStored(ws: seq<World>, n: nat, reports: map<string, Report>) {
    forall id | id in reports ::
      exists m: nat :: m <= n && m < |ws| && id in ws[m].store.reports && ws[m].store.reports[id] == reports[id]
  }

  /**
   * End to end: when a server leaves the registry, its host's machine is terminated for good, or its newest request is
   * a deletion and now, and at every later time, the host keeps no instance of it but a deleted one and has nothing of
   * its game installed.
   */
  lemma SlotsAreReleasedWhenGone(ws: seq<World>, es: seq<Event>, ns: seq<map<string, Runs.Node>>, i: nat, j: nat,
                                 v: Server)
    requires IsHosted(ws, es, ns) && i < |es| && i <= j < |ws|
    requires v in ws[i].store.registry.servers && v.id !in ServerIds(ws[i + 1].store.registry)
    requires es[i].SubmitPass? ==> WereStored(ws, i, es[i].reports)
    ensures
      || (v.host in ws[i].book.hosts && Burned(ws[i].machines, ws[i].book.hosts[v.host].token))
      || (&& v.desired == Deleted && IsLast(IssuedTo(ws[i].book.issued, v.id), v.requestId)
          && (v.id in LocalOf(ws[j], v.host).store ==> LocalOf(ws[j], v.host).store[v.id].phase == Deleted)
          && v.id !in NodeOf(ns[j], v.host).installed)
  {
    hide Step, Inv, Burned, WereStored, Grows, MachinesGrow, NodesFollow;
    RunGrows(ws, es, i);
    HostedStep(ws, es, ns, i);
    LeavingIsReleased(ws[i], es[i], ws[i + 1], v);
    if es[i].SubmitForget? {
      RoundReleasesTerminated(ws[i], es[i], v);
    } else {
      AcknowledgedIsGone(ws, es, ns, i, j, v);
    }
  }

  lemma AcknowledgedIsGone(ws: seq<World>, es: seq<Event>, ns: seq<map<string, Runs.Node>>, i: nat, j: nat, v: Server)
    requires IsHosted(ws, es, ns) && i < |es| && i <= j < |ws| && Inv(ws[i]) && es[i].SubmitPass?
    requires Releases(ws[i], es[i], v.id)
    requires v in ws[i].store.registry.servers && WereStored(ws, i, es[i].reports)
    ensures v.desired == Deleted && IsLast(IssuedTo(ws[i].book.issued, v.id), v.requestId)
    ensures v.id in LocalOf(ws[j], v.host).store ==> LocalOf(ws[j], v.host).store[v.id].phase == Deleted
    ensures v.id !in NodeOf(ns[j], v.host).installed
  {
    hide Step, NodesFollow, Settled, Releases, StoreInv, MachineInv, ProgramOk, NodeOf, IsRun;
    PassReleasesAcknowledged(ws[i], es[i], v);
    assert v.id in ws[i].book.issued by { ServersAreIssued(ws[i], v); }
    var r := es[i].reports[v.id];
    var m: nat :| m <= i && m < |ws| && v.id in ws[m].store.reports && ws[m].store.reports[v.id] == r;
    DeletedReportsStayTrue(ws, es, ns, m, j, v.id);
  }

  lemma ServersAreIssued(w: World, v: Server)
    requires StoreInv(w) && v in w.store.registry.servers
    ensures v.id in w.book.issued
  {
  }
}
