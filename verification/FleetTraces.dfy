/** What one step leaves alone: the other programs, the hosts, the document, and what the moving program carries on. */
module FleetTraces {
  import opened FleetState
  import opened FleetPlacement
  import opened FleetStore
  import opened FleetPlan
  import opened Controller
  import opened FleetWorld
  import opened FleetSafety

  // -- What programs carry ------------------------------------------------------------------------

  /** The document a worker serves from. */
  function WorkerSnap(q: Program): Option<Registry> {
    match q
    case WorkerLoaded(_, snap, _) => Some(snap)
    case WorkerRead(_, snap, _, _) => Some(snap)
    case WorkerHas(_, snap, _, _) => Some(snap)
    case WorkerAsked(_, snap, _) => Some(snap)
    case WorkerSays(_, snap, _, _) => Some(snap)
    case _ => None
  }

  /** The configuration a create acts under. */
  function ActsUnder(q: Program): Option<Config> {
    match q
    case CreateBegin(c, _, _, _, _) => Some(c)
    case CreateLoaded(c, _, _, _, _, _) => Some(c)
    case CreateChecked(c, _, _, _, _, _) => Some(c)
    case _ => None
  }

  /** A worker with an instance, a recorded request or a report in hand. */
  predicate InHand(q: Program) {
    q.WorkerRead? || q.WorkerHas? || q.WorkerAsked? || q.WorkerSays?
  }

  /** One program moved on, or none; nothing changed on any host. */
  predicate Calm(w: World, x: World, p: nat) {
    && x.locals == w.locals && x.applied == w.applied
    && forall r | r in x.programs && r != p :: r in w.programs && x.programs[r] == w.programs[r]
  }

  /** The program that moved is no worker, or is the same worker with the same document. */
  predicate SameWorker(w: World, x: World, p: nat) {
    p in x.programs ==>
      || WorkerHost(x.programs[p]).None?
      || (p in w.programs && WorkerHost(x.programs[p]) == WorkerHost(w.programs[p])
          && WorkerSnap(x.programs[p]) == WorkerSnap(w.programs[p]))
  }

  /** Program `p` acts under a configuration only if it did before. */
  predicate KeepsConfig(w: World, x: World, p: nat) {
    p in x.programs && ActsUnder(x.programs[p]).Some? ==>
      p in w.programs && ActsUnder(x.programs[p]) == ActsUnder(w.programs[p])
  }

  /** Program `p` has in hand only what it had before. */
  predicate KeepsHand(w: World, x: World, p: nat) {
    p in x.programs && InHand(x.programs[p]) ==> p in w.programs && x.programs[p] == w.programs[p]
  }

  /** Program `p` went on with what it had. */
  predicate Continues(w: World, x: World, p: nat) {
    Calm(w, x, p) && SameWorker(w, x, p) && KeepsConfig(w, x, p)
  }

  predicate SameDocument(w: World, x: World) {
    x.store == w.store && x.book == w.book
  }

  /** A program that is no worker and under the same configuration, or none, follows. */
  predicate Follows(q: Program, r: Program) {
    && WorkerHost(r).None? && !InHand(r)
    && (ActsUnder(r).Some? ==> ActsUnder(r) == ActsUnder(q))
  }

  lemma ResumedContinues(w: World, x: World, p: nat, r: Program)
    requires p in w.programs && x.programs == w.programs[p := r] && Follows(w.programs[p], r)
    requires x.locals == w.locals && x.applied == w.applied
    ensures Continues(w, x, p) && KeepsHand(w, x, p)
  {
  }

  // -- Programs that submit -----------------------------------------------------------------------

  lemma CommitIsCalm(w: World, d: Registry, previous: int, id: string)
    ensures var x := AfterSave(w, d, previous);
      x.locals == w.locals && x.applied == w.applied && x.programs == w.programs
    ensures var x := AfterForget(w, d, previous, id);
      x.locals == w.locals && x.applied == w.applied && x.programs == w.programs
  {
  }

  lemma CreateContinues(w: World, p: nat, chosen: Option<Host>, drawn: Drawn, now: int, told: Outcome, x: World)
    requires p in w.programs && CreateTries(w, p, w.programs[p], chosen, drawn, now, told, x)
    ensures Continues(w, x, p) && KeepsHand(w, x, p)
  {
    hide PlanCreate, AfterSave, Unused, Tells, Continues, KeepsHand;
    var q := w.programs[p];
    var plan := PlanCreate(q.c, q.id, q.game, q.name, q.snap, false, chosen, drawn, now);
    if plan.Propose? {
      CommitIsCalm(w.(minted := x.minted), plan.next, q.snap.revision, "");
      CommitKeepsMinted(w.(minted := w.minted + {drawn.host, drawn.launch, drawn.request}), plan.next, q.snap.revision);
    }
    ResumedContinues(w, x, p, x.programs[p]);
  }

  lemma CommitKeepsMinted(w: World, d: Registry, previous: int)
    ensures AfterSave(w, d, previous).minted == w.minted
  {
  }

  lemma ActionContinues(w: World, p: nat, reports: map<string, Report>, token: string, now: int, told: Outcome,
                        x: World)
    requires p in w.programs && ActionStep(w, p, w.programs[p], reports, token, now, told, x)
    ensures Continues(w, x, p) && KeepsHand(w, x, p)
  {
    hide PlanAction, AfterSave, Unused, Tells, Continues, KeepsHand;
    var q := w.programs[p];
    var plan := PlanAction(q.c, q.snap, q.id, q.desired, reports, token, now);
    if plan.Change? {
      CommitIsCalm(w.(minted := w.minted + {token}), plan.next, q.snap.revision, "");
    }
    ResumedContinues(w, x, p, x.programs[p]);
  }

  lemma TeardownContinues(w: World, p: nat, x: World)
    requires p in w.programs && TeardownStep(w, p, w.programs[p], x)
    ensures Continues(w, x, p) && KeepsHand(w, x, p)
  {
    hide AfterSave, Continues, KeepsHand;
    var q := w.programs[p];
    CommitIsCalm(w, q.snap.(deleting := true), q.snap.revision, "");
    ResumedContinues(w, x, p, Done);
  }

  lemma PassContinues(w: World, p: nat, reports: map<string, Report>, plan: PassPlan, now: int, told: Outcome, x: World)
    requires p in w.programs && PassStep(w, p, w.programs[p], reports, plan, now, told, x)
    ensures Continues(w, x, p) && KeepsHand(w, x, p)
  {
    hide IsPass, AfterSave, AfterForget, Tells, Continues, KeepsHand;
    var q := w.programs[p];
    CommitIsCalm(w, plan.next, q.snap.revision, if plan.Release? then plan.id else "");
    ResumedContinues(w, x, p, x.programs[p]);
  }

  lemma ForgetContinues(w: World, p: nat, plan: ForgetPlan, told: Outcome, x: World)
    requires p in w.programs && ForgetStep(w, p, w.programs[p], plan, told, x)
    ensures Continues(w, x, p) && KeepsHand(w, x, p)
  {
    hide IsForgetRound, AfterSave, AfterForget, Tells, Continues, KeepsHand;
    var previous := w.programs[p].read.value.revision;
    if plan.DropServer? {
      CommitIsCalm(w, plan.next, previous, plan.id);
    } else if plan.DropHost? {
      CommitIsCalm(w, plan.next, previous, "");
    }
    ResumedContinues(w, x, p, x.programs[p]);
  }

  lemma NoteContinues(w: World, p: nat, next: Option<Registry>, told: Outcome, x: World)
    requires p in w.programs && NoteStep(w, p, w.programs[p], next, told, x)
    ensures Continues(w, x, p) && KeepsHand(w, x, p)
  {
    hide IsNoted, AfterSave, Tells, Continues, KeepsHand;
    if next.Some? {
      CommitIsCalm(w, next.value, w.programs[p].read.value.revision, "");
    }
    ResumedContinues(w, x, p, x.programs[p]);
  }

  lemma SubmissionContinues(w: World, e: Event, x: World)
    requires Submission(w, e, x)
    ensures Continues(w, x, Mover(e)) && KeepsHand(w, x, Mover(e))
  {
    hide CreateTries, ActionStep, TeardownStep, PassStep, ForgetStep, NoteStep, IsChoice, Continues, KeepsHand;
    match e
    case SubmitCreate(p, seen, chosen, drawn, now, told) => CreateContinues(w, p, chosen, drawn, now, told, x);
    case SubmitAction(p, reports, token, now, told) => ActionContinues(w, p, reports, token, now, told, x);
    case SubmitTeardown(p) => TeardownContinues(w, p, x);
    case SubmitPass(p, reports, plan, now, told) => PassContinues(w, p, reports, plan, now, told, x);
    case SubmitForget(p, plan, told) => ForgetContinues(w, p, plan, told, x);
    case SubmitNote(p, next, told) => NoteContinues(w, p, next, told, x);
  }

  // -- Reconcilers and the provider ---------------------------------------------------------------

  /** Where a reconciler that is busy with a host goes next: never to a worker or a create. */
  predicate Plain(r: Program) {
    WorkerHost(r).None? && ActsUnder(r).None? && !InHand(r)
  }

  lemma VisitIsPlain(s: Sweep, now: int)
    ensures Plain(VisitHost(s, now))
  {
    hide NeedsMachine, HasGivenUp;
  }

  lemma PartsArePlain(q: Program, instanceId: string)
    requires SweepOf(q).Some?
    ensures Plain(q) && Plain(Woken(q, instanceId)) && Plain(GivenUp(q))
    ensures forall wake :: Plain(AtWake(q, wake))
  {
  }

  lemma LookIsPlain(q: Program, h: Host, found: Lookup)
    requires SweepOf(q).Some? && Looks(q)
    ensures Plain(AfterLook(q, h, found))
  {
    hide Woken, GivenUp, AtWake, LaunchIdentity, Plain;
    PartsArePlain(q, if found.Present? then found.instanceId else "");
    WakeLookIsPlain(q, h, found);
    if q.Deleting? {
      DeleteLookIsPlain(q.s, q.del.FirstLook?, h, found);
    } else if q.Halting? {
      HaltLookIsPlain(q, h, found);
    }
  }

  lemma WakeLookIsPlain(q: Program, h: Host, found: Lookup)
    requires SweepOf(q).Some?
    ensures Plain(AfterWakeLook(q, h, found))
  {
    hide Woken, GivenUp, AtWake, LaunchIdentity, Plain;
    PartsArePlain(q, if found.Present? then found.instanceId else "");
  }

  lemma DeleteLookIsPlain(s: Sweep, first: bool, h: Host, found: Lookup)
    ensures Plain(AfterDeleteLook(s, first, h, found))
  {
    hide LaunchIdentity;
  }

  lemma HaltLookIsPlain(q: Program, h: Host, found: Lookup)
    requires q.Halting? && Looks(q)
    ensures Plain(AfterLook(q, h, found))
  {
    hide LaunchIdentity, AfterWakeLook, AfterDeleteLook;
  }

  lemma CallIsPlain(q: Program)
    requires Calls(q)
    ensures SweepOf(q).Some? && Plain(AfterCall(q))
  {
  }

  lemma WakePointIsBusy(q: Program)
    requires WakePoint(q).Some? || Looks(q)
    ensures SweepOf(q).Some?
  {
  }

  lemma PlainContinues(w: World, x: World, p: nat, r: Program)
    requires p in w.programs && Plain(r)
    requires x == w.(programs := w.programs[p := r], machines := x.machines, requests := x.requests)
    ensures Continues(w, x, p) && KeepsHand(w, x, p) && SameDocument(w, x)
  {
    hide Continues, KeepsHand;
    ResumedContinues(w, x, p, r);
  }

  lemma LookContinues(w: World, p: nat, found: Lookup, x: World)
    requires p in w.programs && LookStep(w, p, w.programs[p], found, x)
    ensures Continues(w, x, p) && KeepsHand(w, x, p) && SameDocument(w, x)
  {
    hide LookupAnswers, AfterLook, Looks, Continues, KeepsHand, Plain;
    var q := w.programs[p];
    WakePointIsBusy(q);
    LookIsPlain(q, SweepOf(q).value.snap.hosts[SweepOf(q).value.i], found);
    PlainContinues(w, x, p, x.programs[p]);
  }

  lemma SendContinues(w: World, p: nat, x: World)
    requires p in w.programs && SendStep(w, p, w.programs[p], x)
    ensures Continues(w, x, p) && KeepsHand(w, x, p) && SameDocument(w, x)
  {
    hide WakePoint, AtWake, Continues, KeepsHand, Plain;
    WakePointIsBusy(w.programs[p]);
    PartsArePlain(w.programs[p], "");
    PlainContinues(w, x, p, AtWake(w.programs[p], Await));
  }

  lemma AnswerContinues(w: World, p: nat, x: World)
    requires p in w.programs && AnswerStep(w, p, w.programs[p], x)
    ensures Continues(w, x, p) && KeepsHand(w, x, p) && SameDocument(w, x)
  {
    hide WakePoint, Woken, Continues, KeepsHand, Plain;
    var q := w.programs[p];
    WakePointIsBusy(q);
    var instanceId := w.machines[SweepOf(q).value.snap.hosts[SweepOf(q).value.i].launchToken].instanceId;
    PartsArePlain(q, instanceId);
    PlainContinues(w, x, p, Woken(q, instanceId));
  }

  lemma CallContinues(w: World, p: nat, taken: bool, x: World)
    requires p in w.programs && CallStep(w, p, w.programs[p], taken, x)
    ensures Continues(w, x, p) && KeepsHand(w, x, p) && SameDocument(w, x)
  {
    hide Calls, Acted, AfterCall, Continues, KeepsHand, Plain;
    CallIsPlain(w.programs[p]);
    PlainContinues(w, x, p, AfterCall(w.programs[p]));
  }

  lemma ProvisionContinues(w: World, e: Event, x: World)
    requires Provision(w, e, x)
    ensures Continues(w, x, Mover(e)) && KeepsHand(w, x, Mover(e)) && SameDocument(w, x)
  {
    hide LookStep, SendStep, AnswerStep, CallStep, ArriveStep, DisksStep, VisitHost, GivenUp, MayBecome,
         Continues, KeepsHand, Plain, SameDocument;
    match e
    case Visit(p, now) =>
      VisitIsPlain(w.programs[p].s, now);
      PlainContinues(w, x, p, VisitHost(w.programs[p].s, now));
    case Look(p, found) => LookContinues(w, p, found, x);
    case SendLaunch(p) => SendContinues(w, p, x);
    case LaunchAnswer(p) => AnswerContinues(w, p, x);
    case CallMachine(p, taken) => CallContinues(w, p, taken, x);
    case ListDisks(p, none) => DisksContinue(w, p, none, x);
    case ProviderError(p) =>
      PartsArePlain(w.programs[p], "");
      PlainContinues(w, x, p, GivenUp(w.programs[p]));
    case LaunchArrives(launch, instanceId) => ArrivalContinues(w, launch, instanceId, x);
    case MachineMoves(token, state) => MachinesContinue(w, x);
  }

  lemma DisksContinue(w: World, p: nat, none: bool, x: World)
    requires p in w.programs && DisksStep(w, p, w.programs[p], none, x)
    ensures Continues(w, x, p) && KeepsHand(w, x, p) && SameDocument(w, x)
  {
    hide Continues, KeepsHand;
    PlainContinues(w, x, p, x.programs[p]);
  }

  lemma MachinesContinue(w: World, x: World)
    requires x == w.(machines := x.machines)
    ensures Continues(w, x, 0) && KeepsHand(w, x, 0) && SameDocument(w, x)
  {
  }

  lemma ArrivalContinues(w: World, l: Launch, instanceId: string, x: World)
    requires ArriveStep(w, l, instanceId, x)
    ensures Continues(w, x, 0) && KeepsHand(w, x, 0) && SameDocument(w, x)
  {
    hide Continues, KeepsHand, SameDocument;
    MachinesContinue(w, x);
  }

  // -- Workers and the rest -----------------------------------------------------------------------

  /** A worker fills its hands by reading, and by transactions on its host. */
  predicate Handles(e: Event) {
    e.WorkerReads? || e.WorkerServes? || e.WorkerAsks? || e.WorkerRereads? || e.WorkerFails?
  }

  lemma TurnIsSameWorker(q: Program, turn: Turn)
    requires Serving(q)
    ensures var r := AfterTurn(q, turn);
      WorkerHost(r) == WorkerHost(q) && WorkerSnap(r) == WorkerSnap(q) && ActsUnder(r).None?
  {
  }

  lemma SameWorkerContinues(w: World, x: World, p: nat, r: Program)
    requires p in w.programs && x == Resumed(w, p, r) && ActsUnder(r).None?
    requires WorkerHost(r) == WorkerHost(w.programs[p]) && WorkerSnap(r) == WorkerSnap(w.programs[p])
    ensures Continues(w, x, p) && SameDocument(w, x)
  {
  }

  lemma ReadContinues(w: World, p: nat, x: World)
    requires p in w.programs && ReadStep(w, p, w.programs[p], x)
    ensures Continues(w, x, p) && SameDocument(w, x)
  {
    hide Continues, SameDocument;
    if x.programs[p].Done? {
      PlainContinues(w, x, p, Done);
    } else {
      SameWorkerContinues(w, x, p, x.programs[p]);
    }
  }

  lemma RereadContinues(w: World, p: nat, setup: Setup, x: World)
    requires p in w.programs && RereadStep(w, p, w.programs[p], setup, x)
    ensures Continues(w, x, p) && SameDocument(w, x)
  {
    hide Reread, AfterTurn, Continues, SameDocument;
    var q := w.programs[p];
    var turn := Reread(LocalOf(w, q.host), q.snap.servers[q.i], q.host, setup.startedAt);
    TurnIsSameWorker(q, turn);
    SameWorkerContinues(w, x, p, AfterTurn(q, turn));
  }

  lemma StumbleContinues(w: World, p: nat, reported: Option<int>, x: World)
    requires p in w.programs && StumbleStep(w, p, w.programs[p], reported, x)
    ensures Continues(w, x, p) && SameDocument(w, x)
  {
    hide AfterTurn, SetupFailed, Continues, SameDocument;
    var q := w.programs[p];
    var turn := if reported.None? then Skips else Says(SetupFailed(q.snap.servers[q.i], q.host, reported.value));
    TurnIsSameWorker(q, turn);
    SameWorkerContinues(w, x, p, AfterTurn(q, turn));
  }

  lemma PublishContinues(w: World, p: nat, x: World)
    requires p in w.programs && PublishStep(w, p, w.programs[p], x)
    ensures Continues(w, x, p) && KeepsHand(w, x, p) && x.book == w.book
  {
    hide Published;
  }

  lemma CheckContinues(w: World, p: nat, x: World)
    requires p in w.programs && CheckStep(w, p, w.programs[p], x)
    ensures Continues(w, x, p) && KeepsHand(w, x, p) && SameDocument(w, x)
  {
    hide Continues, KeepsHand, SameDocument;
    ResumedContinues(w, x, p, x.programs[p]);
    assert SameDocument(w, x) by { ResumedDocument(w, p, x.programs[p]); }
  }

  lemma ResumedDocument(w: World, p: nat, r: Program)
    ensures SameDocument(w, Resumed(w, p, r))
  {
  }

  lemma FailContinues(w: World, p: nat, x: World)
    requires p in w.programs && x == Resumed(w, p, Done)
    ensures Continues(w, x, p) && KeepsHand(w, x, p) && SameDocument(w, x)
  {
    hide Continues, KeepsHand, SameDocument;
    PlainContinues(w, x, p, Done);
  }

  /** Which events move a program that is no worker, or leave a worker with its document. */
  predicate AppliesNothing(e: Event) {
    !e.Spawn? && !e.Load? && !e.WorkerServes? && !e.WorkerAsks? && !e.LocalMoves?
  }

  function Mover(e: Event): nat {
    match e
    case Spawn(p, _) => p
    case Fail(p) => p
    case Load(p) => p
    case CheckTombstone(p) => p
    case SubmitCreate(p, _, _, _, _, _) => p
    case SubmitAction(p, _, _, _, _) => p
    case SubmitTeardown(p) => p
    case SubmitPass(p, _, _, _, _) => p
    case Visit(p, _) => p
    case Look(p, _) => p
    case SendLaunch(p) => p
    case LaunchAnswer(p) => p
    case CallMachine(p, _) => p
    case ListDisks(p, _) => p
    case ProviderError(p) => p
    case SubmitForget(p, _, _) => p
    case SubmitNote(p, _, _) => p
    case LaunchArrives(_, _) => 0
    case MachineMoves(_, _) => 0
    case WorkerReads(p) => p
    case WorkerServes(p, _, _) => p
    case WorkerAsks(p, _, _) => p
    case WorkerRereads(p, _) => p
    case WorkerPublishes(p) => p
    case WorkerFails(p, _) => p
    case LocalMoves(_, _) => 0
  }

  lemma WorkerStepContinues(w: World, e: Event, x: World)
    requires WorkerStep(w, e, x) && AppliesNothing(e)
    ensures Continues(w, x, Mover(e)) && (!Handles(e) ==> KeepsHand(w, x, Mover(e)))
    ensures x.book == w.book && (!e.WorkerPublishes? ==> SameDocument(w, x))
  {
    hide ReadStep, RereadStep, PublishStep, StumbleStep, ServeStep, AskStep, LocalMove, Continues, KeepsHand;
    match e
    case WorkerReads(p) => ReadContinues(w, p, x);
    case WorkerRereads(p, setup) => RereadContinues(w, p, setup, x);
    case WorkerPublishes(p) => PublishContinues(w, p, x);
    case WorkerFails(p, reported) => StumbleContinues(w, p, reported, x);
  }

  lemma ReaderStepContinues(w: World, e: Event, x: World)
    requires ReaderStep(w, e, x) && AppliesNothing(e)
    ensures Continues(w, x, Mover(e)) && KeepsHand(w, x, Mover(e)) && SameDocument(w, x)
  {
    hide MayBegin, LoadStep, CheckStep, Continues, KeepsHand, SameDocument;
    match e
    case Fail(p) => FailContinues(w, p, x);
    case CheckTombstone(p) => CheckContinues(w, p, x);
  }

  /** The events that are left: others stay as they are, and nobody takes up a configuration or an instance. */
  ghost predicate LeavesOthers(w: World, e: Event, x: World) {
    && (forall r | r in x.programs && r != Mover(e) :: r in w.programs && x.programs[r] == w.programs[r])
    && (!e.Spawn? ==> KeepsConfig(w, x, Mover(e)))
    && (!e.Spawn? && !Handles(e) ==> KeepsHand(w, x, Mover(e)))
  }

  lemma TransactionLeavesOthers(w: World, p: nat, q: Program, done: Service, x: World)
    requires p in w.programs && q == w.programs[p] && Serving(q) && Transacts(w, p, q, done, x)
    ensures KeepsConfig(w, x, p) && SameDocument(w, x)
    ensures forall r | r in x.programs && r != p :: r in w.programs && x.programs[r] == w.programs[r]
  {
    hide AppliedAfter, AfterTurn;
    TurnIsSameWorker(q, done.turn);
  }

  lemma ServeLeavesOthers(w: World, p: nat, setup: Setup, now: int, x: World)
    requires p in w.programs && ServeStep(w, p, w.programs[p], setup, now, x)
    ensures KeepsConfig(w, x, p) && SameDocument(w, x)
    ensures forall r | r in x.programs && r != p :: r in w.programs && x.programs[r] == w.programs[r]
  {
    hide Serve, Transacts, KeepsConfig, SameDocument;
    var q := w.programs[p];
    TransactionLeavesOthers(w, p, q, Serve(LocalOf(w, q.host), setup, q.snap.servers[q.i], q.host, q.seen, now), x);
  }

  lemma AskLeavesOthers(w: World, p: nat, setup: Setup, now: int, x: World)
    requires p in w.programs && AskStep(w, p, w.programs[p], setup, now, x)
    ensures KeepsConfig(w, x, p) && SameDocument(w, x)
    ensures forall r | r in x.programs && r != p :: r in w.programs && x.programs[r] == w.programs[r]
  {
    hide Ask, Transacts, KeepsConfig, SameDocument;
    var q := w.programs[p];
    TransactionLeavesOthers(w, p, q,
                            Ask(LocalOf(w, q.host), q.snap.servers[q.i], q.host, q.instance, setup.startedAt, now), x);
  }

  lemma LoadLeavesOthers(w: World, p: nat, x: World)
    requires p in w.programs && LoadStep(w, p, w.programs[p], x)
    ensures KeepsConfig(w, x, p) && KeepsHand(w, x, p) && SameDocument(w, x)
    ensures forall r | r in x.programs && r != p :: r in w.programs && x.programs[r] == w.programs[r]
  {
  }

  lemma SpawnLeavesOthers(w: World, p: nat, q: Program, x: World)
    requires p !in w.programs && x == Resumed(w, p, q)
    ensures SameDocument(w, x)
    ensures forall r | r in x.programs && r != p :: r in w.programs && x.programs[r] == w.programs[r]
  {
  }

  lemma LocalLeavesOthers(w: World, x: World)
    requires x == w.(locals := x.locals)
    ensures KeepsConfig(w, x, 0) && KeepsHand(w, x, 0) && SameDocument(w, x) && x.programs == w.programs
  {
  }

  lemma WorkLeavesOthers(w: World, e: Event, x: World)
    requires (WorkerStep(w, e, x) || ReaderStep(w, e, x)) && !AppliesNothing(e)
    ensures LeavesOthers(w, e, x) && SameDocument(w, x)
  {
    hide ReadStep, RereadStep, PublishStep, StumbleStep, ServeStep, AskStep, LocalMove, MayBegin, LoadStep, CheckStep,
         KeepsConfig, KeepsHand, SameDocument;
    match e
    case Spawn(p, q) => SpawnLeavesOthers(w, p, q, x);
    case Load(p) => LoadLeavesOthers(w, p, x);
    case WorkerServes(p, setup, now) => ServeLeavesOthers(w, p, setup, now, x);
    case WorkerAsks(p, setup, now) => AskLeavesOthers(w, p, setup, now, x);
    case LocalMoves(host, after) => LocalLeavesOthers(w, x);
  }

  // -- Every step ---------------------------------------------------------------------------------

  /** A step that applies nothing moves one program, which goes on with what it had. */
  lemma StepContinues(w: World, e: Event, x: World)
    requires Step(w, e, x) && AppliesNothing(e)
    ensures Continues(w, x, Mover(e)) && (!Handles(e) ==> KeepsHand(w, x, Mover(e)))
  {
    hide Submission, Provision, WorkerStep, ReaderStep, Continues, KeepsHand, Mover;
    if Submission(w, e, x) {
      SubmissionContinues(w, e, x);
    } else if Provision(w, e, x) {
      ProvisionContinues(w, e, x);
    } else if WorkerStep(w, e, x) {
      WorkerStepContinues(w, e, x);
    } else {
      ReaderStepContinues(w, e, x);
    }
  }

  /** Programs other than the one that moved are as they were, and none takes up what it did not have. */
  lemma StepLeavesOthers(w: World, e: Event, x: World)
    requires Step(w, e, x)
    ensures LeavesOthers(w, e, x)
  {
    hide Step, Mover, SameWorker, Submission, Provision, WorkerStep, ReaderStep;
    if AppliesNothing(e) {
      StepContinues(w, e, x);
    } else {
      hide LeavesOthers;
      StepIsOfItsKind(w, e, x);
      WorkLeavesOthers(w, e, x);
    }
  }

  /** Only submissions change the document or its history; a publication changes reports alone. */
  lemma StepKeepsDocument(w: World, e: Event, x: World)
    requires Step(w, e, x) && !Submits(e)
    ensures x.book == w.book && (!e.WorkerPublishes? ==> x.store == w.store)
  {
    hide Step, Mover, Continues, KeepsHand, LeavesOthers, Submission, Provision, WorkerStep, ReaderStep;
    StepIsOfItsKind(w, e, x);
    if Provides(e) {
      ProvisionContinues(w, e, x);
    } else if !AppliesNothing(e) {
      WorkLeavesOthers(w, e, x);
    } else if Works(e) {
      WorkerStepContinues(w, e, x);
    } else {
      ReaderStepContinues(w, e, x);
    }
  }
}
