/** A reconciler's walk over the hosts: when it wakes, stops and terminates machines, by what was saved and seen. */
module FleetWalk {
  import opened FleetState
  import opened FleetPlacement
  import opened FleetStore
  import opened FleetPlan
  import opened Controller
  import opened FleetWorld
  import opened FleetHistory
  import opened FleetSafety
  import opened FleetTraces
  import opened FleetTheorems
  import opened FleetActions
  import opened FleetPasses

  // -- What a host is needed for ------------------------------------------------------------------

  /** Nobody waits for the server any more: its start is late, or another request its host did not settle is. */
  predicate IsAbandoned(v: Server, reports: map<string, Report>, now: int) {
    IsLate(v, now) && (v.desired == Running || !HeardSettled(v, reports, v.desired))
  }

  /** The server should run, or its host has not yet settled its request. */
  predicate IsWanted(v: Server, reports: map<string, Report>, now: int) {
    !IsAbandoned(v, reports, now) && (v.desired == Running || !HeardSettled(v, reports, v.desired))
  }

  ghost predicate HostIsWanted(s: Sweep, now: int)
    requires AtHost(s)
  {
    exists v :: v in s.snap.servers && v.host == s.snap.hosts[s.i].id && IsWanted(v, s.reports, now)
  }

  ghost predicate HostIsAbandoned(s: Sweep, now: int)
    requires AtHost(s)
  {
    exists v :: v in s.snap.servers && v.host == s.snap.hosts[s.i].id && IsAbandoned(v, s.reports, now)
  }

  lemma DemandIsWanted(s: Sweep, now: int)
    requires AtHost(s) && forall v | v in s.snap.servers :: v.requestId != ""
    ensures NeedsMachine(s.snap.hosts[s.i], s.snap, s.reports, now) <==> HostIsWanted(s, now)
    ensures HasGivenUp(s.snap.hosts[s.i], s.snap, s.reports, now) <==> HostIsAbandoned(s, now)
  {
    var h := s.snap.hosts[s.i];
    forall v | v in s.snap.servers
      ensures Demands(v, h, s.reports, now) <==> v.host == h.id && IsWanted(v, s.reports, now)
      ensures Abandoned(v, h, s.reports, now) <==> v.host == h.id && IsAbandoned(v, s.reports, now)
    {
    }
  }

  /** Which way a reconciler goes at a host, and that it never refuses to. */
  ghost predicate Decides(s: Sweep, now: int, r: Program) {
    if !AtHost(s) then r == Done
    else if s.snap.hosts[s.i].retiring then r == Deleting(s, FirstLook)
    else if HostIsWanted(s, now) then r == Waking(s, LookUp)
    else if HostIsAbandoned(s, now) then r == Halting(s, CheckRevision)
    else r == Sweeping(s.(i := s.i + 1))
  }

  lemma VisitsDecide(w: World, e: Event, x: World)
    requires Inv(w) && Provision(w, e, x) && e.Visit?
    ensures e.p in w.programs && w.programs[e.p].Sweeping? && x.programs == w.programs[e.p := x.programs[e.p]]
    ensures Decides(w.programs[e.p].s, e.now, x.programs[e.p])
  {
    hide StoreInv, MachineInv, NeedsMachine, HasGivenUp, HostIsWanted, HostIsAbandoned, Instances, Known, LookStep,
         SendStep, AnswerStep, CallStep, DisksStep, GivenUp, ArriveStep, MayBecome;
    var s := w.programs[e.p].s;
    assert ProgramOk(w, w.programs[e.p]);
    RequestsAreNamed(w, s.snap);
    if AtHost(s) {
      DemandIsWanted(s, e.now);
      RetirementIsNeverRefused(w, e.p);
    }
  }

  // -- What a reconciler was told before it acts --------------------------------------------------

  /** Program `p` came to this host of its walk before state `n`, at the given time. */
  ghost predicate Came(ws: seq<World>, es: seq<Event>, n: nat, p: nat, s: Sweep, now: int) {
    exists k: nat :: k < n && k < |es| && k < |ws| && es[k] == Visit(p, now)
                     && p in ws[k].programs && ws[k].programs[p] == Sweeping(s)
  }

  /** It looked the machine up at this host of its walk. */
  ghost predicate Looked(ws: seq<World>, es: seq<Event>, n: nat, p: nat, s: Sweep, found: Lookup) {
    exists k: nat :: k < n && k < |es| && k < |ws| && es[k] == Look(p, found)
                     && p in ws[k].programs && SweepOf(ws[k].programs[p]) == Some(s)
  }

  /** Having decided to stop the machine, it read the registry again and found the document it walks over. */
  ghost predicate WasCurrent(ws: seq<World>, es: seq<Event>, n: nat, p: nat, s: Sweep) {
    exists m: nat :: m < n && m < |es| && m < |ws| && es[m] == Load(p)
                     && p in ws[m].programs && ws[m].programs[p] == Halting(s, CheckRevision)
                     && ws[m].store.registry.revision == s.snap.revision
  }

  ghost predicate CameWanted(ws: seq<World>, es: seq<Event>, n: nat, p: nat, s: Sweep) {
    AtHost(s) && !s.snap.hosts[s.i].retiring && exists now :: Came(ws, es, n, p, s, now) && HostIsWanted(s, now)
  }

  ghost predicate CameAbandoned(ws: seq<World>, es: seq<Event>, n: nat, p: nat, s: Sweep) {
    && AtHost(s) && !s.snap.hosts[s.i].retiring
    && exists now :: Came(ws, es, n, p, s, now) && !HostIsWanted(s, now) && HostIsAbandoned(s, now)
  }

  ghost predicate CameRetiring(ws: seq<World>, es: seq<Event>, n: nat, p: nat, s: Sweep) {
    AtHost(s) && s.snap.hosts[s.i].retiring && exists now :: Came(ws, es, n, p, s, now)
  }

  ghost predicate LookedIn(ws: seq<World>, es: seq<Event>, n: nat, p: nat, s: Sweep, instanceId: string,
                           states: set<Lifecycle>)
  {
    exists state :: state in states && Looked(ws, es, n, p, s, Present(instanceId, state))
  }

  ghost predicate WakeIsTold(ws: seq<World>, es: seq<Event>, n: nat, p: nat, s: Sweep, wake: WakeAt) {
    match wake
    case LookUp => true
    case Run => AtHost(s) && s.snap.hosts[s.i].instanceId == "" && Looked(ws, es, n, p, s, Absent)
    case Await => AtHost(s) && s.snap.hosts[s.i].instanceId == "" && Looked(ws, es, n, p, s, Absent)
    case Start(id) => LookedIn(ws, es, n, p, s, id, {StoppedMachine})
  }

  ghost predicate IsTold(ws: seq<World>, es: seq<Event>, n: nat, p: nat, q: Program) {
    match q
    case Waking(s, wake) => CameWanted(ws, es, n, p, s) && WakeIsTold(ws, es, n, p, s, wake)
    case Halting(s, stop) =>
      && CameAbandoned(ws, es, n, p, s)
      && (!stop.CheckRevision? ==> WasCurrent(ws, es, n, p, s))
      && (stop.StopMachine? ==> LookedIn(ws, es, n, p, s, stop.instanceId, {Up, Pending}))
    case Deleting(s, del) =>
      && CameRetiring(ws, es, n, p, s)
      && (del.Recover? ==> s.snap.hosts[s.i].instanceId == "" && WakeIsTold(ws, es, n, p, s, del.wake))
      && (del.Terminate? ==>
            LookedIn(ws, es, n, p, s, del.instanceId, {NoMachine, Pending, Up, StoppingMachine, StoppedMachine}))
      && (del.Disks? ==>
            || (exists id :: Looked(ws, es, n, p, s, Present(id, Terminated)))
            || (s.snap.hosts[s.i].instanceId != "" && Looked(ws, es, n, p, s, Absent)))
    case _ => true
  }

  lemma CameStays(ws: seq<World>, es: seq<Event>, n: nat, p: nat, s: Sweep)
    ensures forall now | Came(ws, es, n, p, s, now) :: Came(ws, es, n + 1, p, s, now)
    ensures forall found | Looked(ws, es, n, p, s, found) :: Looked(ws, es, n + 1, p, s, found)
    ensures WasCurrent(ws, es, n, p, s) ==> WasCurrent(ws, es, n + 1, p, s)
  {
  }

  lemma ToldStays(ws: seq<World>, es: seq<Event>, n: nat, p: nat, q: Program)
    requires IsTold(ws, es, n, p, q)
    ensures IsTold(ws, es, n + 1, p, q)
  {
    hide Came, Looked, WasCurrent, HostIsWanted, HostIsAbandoned;
    if SweepOf(q).Some? {
      CameStays(ws, es, n, p, SweepOf(q).value);
    }
  }

  // -- One step of the walk -----------------------------------------------------------------------

  lemma VisitIsTold(ws: seq<World>, es: seq<Event>, n: nat)
    requires n < |es| && n + 1 < |ws| && Inv(ws[n]) && Provision(ws[n], es[n], ws[n + 1]) && es[n].Visit?
    ensures es[n].p in ws[n + 1].programs && IsTold(ws, es, n + 1, es[n].p, ws[n + 1].programs[es[n].p])
  {
    hide Inv, Provision, HostIsWanted, HostIsAbandoned;
    VisitsDecide(ws[n], es[n], ws[n + 1]);
    var p := es[n].p;
    assert Came(ws, es, n + 1, p, ws[n].programs[p].s, es[n].now);
  }

  lemma LookIsTold(ws: seq<World>, es: seq<Event>, n: nat, p: nat, found: Lookup)
    requires n < |es| && n + 1 < |ws| && p in ws[n].programs && es[n] == Look(p, found)
    requires LookStep(ws[n], p, ws[n].programs[p], found, ws[n + 1]) && IsTold(ws, es, n, p, ws[n].programs[p])
    ensures p in ws[n + 1].programs && IsTold(ws, es, n + 1, p, ws[n + 1].programs[p])
  {
    hide LookupAnswers, LaunchIdentity, CameWanted, CameAbandoned, CameRetiring, Looked, WasCurrent;
    var s := SweepOf(ws[n].programs[p]).value;
    ToldStays(ws, es, n, p, ws[n].programs[p]);
    assert Looked(ws, es, n + 1, p, s, found) by { NowLooked(ws, es, n, p, s, found); }
  }

  lemma NowLooked(ws: seq<World>, es: seq<Event>, n: nat, p: nat, s: Sweep, found: Lookup)
    requires n < |es| && n < |ws| && es[n] == Look(p, found) && p in ws[n].programs
    requires SweepOf(ws[n].programs[p]) == Some(s)
    ensures Looked(ws, es, n + 1, p, s, found)
  {
  }

  lemma ActIsTold(ws: seq<World>, es: seq<Event>, n: nat)
    requires n < |es| && n + 1 < |ws| && Provision(ws[n], es[n], ws[n + 1])
    requires es[n].SendLaunch? || es[n].LaunchAnswer? || es[n].CallMachine? || es[n].ProviderError? || es[n].ListDisks?
    requires es[n].p in ws[n].programs && IsTold(ws, es, n, es[n].p, ws[n].programs[es[n].p])
    ensures es[n].p in ws[n + 1].programs && IsTold(ws, es, n + 1, es[n].p, ws[n + 1].programs[es[n].p])
  {
    hide LookStep, ArriveStep, VisitHost, MayBecome, Acted, CameWanted, CameAbandoned, CameRetiring, Looked, LookedIn,
         WasCurrent;
    ToldStays(ws, es, n, es[n].p, ws[n].programs[es[n].p]);
  }

  lemma LoadIsTold(ws: seq<World>, es: seq<Event>, n: nat, p: nat)
    requires n < |es| && n + 1 < |ws| && es[n] == Load(p) && p in ws[n].programs
    requires LoadStep(ws[n], p, ws[n].programs[p], ws[n + 1])
    requires IsTold(ws, es, n, p, ws[n].programs[p])
    ensures p in ws[n + 1].programs && IsTold(ws, es, n + 1, p, ws[n + 1].programs[p])
  {
    hide CameWanted, CameAbandoned, CameRetiring, Looked, LookedIn;
    ToldStays(ws, es, n, p, ws[n].programs[p]);
    if ws[n].programs[p].Halting? {
      var s := ws[n].programs[p].s;
      assert ws[n].programs[p] == Halting(s, CheckRevision) && ws[n].store.registry.revision == s.snap.revision ==>
        WasCurrent(ws, es, n + 1, p, s);
    }
  }

  // -- Every step ---------------------------------------------------------------------------------

  lemma CreatesRest(w: World, p: nat, chosen: Option<Host>, drawn: Drawn, now: int, told: Outcome, x: World)
    requires p in w.programs && CreateTries(w, p, w.programs[p], chosen, drawn, now, told, x)
    ensures p in x.programs && SweepOf(x.programs[p]).None?
  {
    hide PlanCreate, AfterSave, Unused, Tells;
  }

  lemma ActionsRest(w: World, p: nat, reports: map<string, Report>, token: string, now: int, told: Outcome, x: World)
    requires p in w.programs && ActionStep(w, p, w.programs[p], reports, token, now, told, x)
    ensures p in x.programs && SweepOf(x.programs[p]).None?
  {
    hide PlanAction, AfterSave, Unused, Tells;
  }

  lemma PassesRest(w: World, p: nat, reports: map<string, Report>, plan: PassPlan, now: int, told: Outcome, x: World)
    requires p in w.programs && PassStep(w, p, w.programs[p], reports, plan, now, told, x)
    ensures p in x.programs && SweepOf(x.programs[p]).None?
  {
    hide IsPass, AfterSave, AfterForget, Tells;
  }

  lemma ForgetsRest(w: World, p: nat, plan: ForgetPlan, told: Outcome, x: World)
    requires p in w.programs && ForgetStep(w, p, w.programs[p], plan, told, x)
    ensures p in x.programs && SweepOf(x.programs[p]).None?
  {
    hide IsForgetRound, AfterSave, AfterForget, Tells;
  }

  lemma NotesRest(w: World, p: nat, next: Option<Registry>, told: Outcome, x: World)
    requires p in w.programs && NoteStep(w, p, w.programs[p], next, told, x)
    ensures p in x.programs && SweepOf(x.programs[p]).None?
  {
    hide IsNoted, AfterSave, Tells;
  }

  lemma TeardownsRest(w: World, p: nat, x: World)
    requires p in w.programs && TeardownStep(w, p, w.programs[p], x)
    ensures p in x.programs && SweepOf(x.programs[p]).None?
  {
    hide AfterSave;
  }

  /** A program that submits is not busy with a machine afterwards. */
  lemma SubmissionsRest(w: World, e: Event, x: World)
    requires Submission(w, e, x)
    ensures Mover(e) in x.programs && SweepOf(x.programs[Mover(e)]).None?
  {
    hide CreateTries, ActionStep, TeardownStep, PassStep, ForgetStep, NoteStep, IsChoice;
    match e
    case SubmitCreate(p, seen, chosen, drawn, now, told) => CreatesRest(w, p, chosen, drawn, now, told, x);
    case SubmitAction(p, reports, token, now, told) => ActionsRest(w, p, reports, token, now, told, x);
    case SubmitTeardown(p) => TeardownsRest(w, p, x);
    case SubmitPass(p, reports, plan, now, told) => PassesRest(w, p, reports, plan, now, told, x);
    case SubmitForget(p, plan, told) => ForgetsRest(w, p, plan, told, x);
    case SubmitNote(p, next, told) => NotesRest(w, p, next, told, x);
  }

  lemma WorkersRest(w: World, e: Event, x: World)
    requires WorkerStep(w, e, x) && !e.LocalMoves?
    ensures Mover(e) in x.programs && SweepOf(x.programs[Mover(e)]).None?
  {
    hide Serve, Ask, Reread, SetupFailed, Published, AppliedAfter, LocalMove;
  }

  lemma ReadersRest(w: World, e: Event, x: World)
    requires ReaderStep(w, e, x) && !e.Load?
    ensures Mover(e) in x.programs && SweepOf(x.programs[Mover(e)]).None?
  {
    hide LoadStep;
  }

  lemma WorldsKeepPrograms(w: World, e: Event, x: World)
    requires Provision(w, e, x) && (e.LaunchArrives? || e.MachineMoves?)
    ensures x.programs == w.programs
  {
    hide VisitHost, LookStep, SendStep, AnswerStep, CallStep, DisksStep, GivenUp, MayBecome;
  }

  lemma LocalsKeepPrograms(w: World, e: Event, x: World)
    requires WorkerStep(w, e, x) && e.LocalMoves?
    ensures x.programs == w.programs
  {
    hide ReadStep, ServeStep, AskStep, RereadStep, PublishStep, StumbleStep, LocalMove;
  }

  lemma LookEvent(w: World, e: Event, x: World)
    requires Provision(w, e, x) && e.Look?
    ensures e.p in w.programs && LookStep(w, e.p, w.programs[e.p], e.found, x)
  {
    hide VisitHost, LookStep, SendStep, AnswerStep, CallStep, DisksStep, GivenUp, MayBecome, ArriveStep;
  }

  lemma LoadEvent(w: World, e: Event, x: World)
    requires ReaderStep(w, e, x) && e.Load?
    ensures e.p in w.programs && LoadStep(w, e.p, w.programs[e.p], x)
  {
    hide LoadStep, CheckStep, MayBegin;
  }

  lemma ProvisionMoves(w: World, e: Event, x: World)
    requires Provision(w, e, x) && !e.LaunchArrives? && !e.MachineMoves?
    ensures Mover(e) in w.programs
  {
    hide VisitHost, LookStep, SendStep, AnswerStep, CallStep, DisksStep, GivenUp, MayBecome, ArriveStep;
  }

  lemma MoverIsTold(ws: seq<World>, es: seq<Event>, n: nat)
    requires n < |es| && n + 1 < |ws| && Inv(ws[n]) && Step(ws[n], es[n], ws[n + 1])
    requires forall p | p in ws[n].programs :: IsTold(ws, es, n, p, ws[n].programs[p])
    ensures Mover(es[n]) in ws[n + 1].programs ==>
              IsTold(ws, es, n + 1, Mover(es[n]), ws[n + 1].programs[Mover(es[n])])
  {
    var w, e, x, p := ws[n], es[n], ws[n + 1], Mover(es[n]);
    hide Inv, Step, Submission, Provision, WorkerStep, ReaderStep, IsTold, LookStep, LoadStep;
    StepIsOfItsKind(w, e, x);
    if Submits(e) {
      SubmissionsRest(w, e, x);
      RestIsTold(ws, es, n + 1, p, x.programs[p]);
    } else if e.LaunchArrives? || e.MachineMoves? || e.LocalMoves? {
      if e.LocalMoves? { LocalsKeepPrograms(w, e, x); } else { WorldsKeepPrograms(w, e, x); }
      if p in w.programs { ToldStays(ws, es, n, p, w.programs[p]); }
    } else if Works(e) {
      WorkersRest(w, e, x);
      RestIsTold(ws, es, n + 1, p, x.programs[p]);
    } else if e.Visit? {
      VisitIsTold(ws, es, n);
    } else if e.Look? {
      LookEvent(w, e, x);
      LookIsTold(ws, es, n, p, e.found);
    } else if Provides(e) {
      ProvisionMoves(w, e, x);
      ActIsTold(ws, es, n);
    } else if e.Load? {
      LoadEvent(w, e, x);
      LoadIsTold(ws, es, n, p);
    } else {
      ReadersRest(w, e, x);
      RestIsTold(ws, es, n + 1, p, x.programs[p]);
    }
  }

  lemma RestIsTold(ws: seq<World>, es: seq<Event>, n: nat, p: nat, q: Program)
    requires SweepOf(q).None?
    ensures IsTold(ws, es, n, p, q)
  {
  }

  lemma AllAreTold(ws: seq<World>, es: seq<Event>, n: nat)
    requires IsRun(ws, es) && n < |ws|
    ensures forall p | p in ws[n].programs :: IsTold(ws, es, n, p, ws[n].programs[p])
    decreases n, 1
  {
    hide Step, IsTold;
    forall p | p in ws[n].programs ensures IsTold(ws, es, n, p, ws[n].programs[p]) {
      RunIsTold(ws, es, n, p);
    }
  }

  lemma {:induction false} RunIsTold(ws: seq<World>, es: seq<Event>, n: nat, p: nat)
    requires IsRun(ws, es) && n < |ws| && p in ws[n].programs
    ensures IsTold(ws, es, n, p, ws[n].programs[p])
    decreases n, 0
  {
    hide Step, Inv, IsTold, Mover, KeepsConfig, KeepsHand;
    if n > 0 {
      AllAreTold(ws, es, n - 1);
      RunKeepsInv(ws, es, n - 1);
      IsStep(ws, es, n - 1);
      MoverIsTold(ws, es, n - 1);
      StepLeavesOthers(ws[n - 1], es[n - 1], ws[n]);
      if p != Mover(es[n - 1]) {
        ToldStays(ws, es, n - 1, p, ws[n - 1].programs[p]);
      }
    }
  }

  // -- When machines are touched ------------------------------------------------------------------

  /**
   * Over every run: a stop call is made only for a host where, when the reconciler came by, nobody waited for any
   * server and some request had been given up; after that the registry was still the document it had read; and the
   * machine was last seen up or coming up.
   */
  lemma MachinesStopWhenGivenUp(ws: seq<World>, es: seq<Event>, i: nat)
    requires IsRun(ws, es) && i < |es| && es[i].CallMachine?
    requires es[i].p in ws[i].programs && ws[i].programs[es[i].p].Halting?
    ensures ws[i].programs[es[i].p].stop.StopMachine?
    ensures var s := ws[i].programs[es[i].p].s; var id := ws[i].programs[es[i].p].stop.instanceId;
      && AtHost(s) && !s.snap.hosts[s.i].retiring
      && (exists now ::
            && Came(ws, es, i, es[i].p, s, now)
            && (forall v | v in s.snap.servers && v.host == s.snap.hosts[s.i].id :: !IsWanted(v, s.reports, now))
            && (exists v :: v in s.snap.servers && v.host == s.snap.hosts[s.i].id && IsAbandoned(v, s.reports, now)))
      && WasCurrent(ws, es, i, es[i].p, s)
      && LookedIn(ws, es, i, es[i].p, s, id, {Up, Pending})
  {
    hide Step, IsWanted, IsAbandoned, Came, WasCurrent, LookedIn;
    RunIsTold(ws, es, i, es[i].p);
    CallNeedsPoint(ws, es, i);
  }

  lemma CallNeedsPoint(ws: seq<World>, es: seq<Event>, i: nat)
    requires IsRun(ws, es) && i < |es| && es[i].CallMachine?
    ensures es[i].p in ws[i].programs && Calls(ws[i].programs[es[i].p])
  {
    hide Step, Calls, Submission, Provision, WorkerStep, ReaderStep;
    IsStep(ws, es, i);
    StepIsOfItsKind(ws[i], es[i], ws[i + 1]);
    CallEvent(ws[i], es[i], ws[i + 1]);
  }

  lemma CallEvent(w: World, e: Event, x: World)
    requires Provision(w, e, x) && e.CallMachine?
    ensures e.p in w.programs && Calls(w.programs[e.p])
  {
    hide VisitHost, LookStep, SendStep, AnswerStep, DisksStep, GivenUp, MayBecome, ArriveStep, Calls, Acted, AfterCall;
  }

  /**
   * A terminate call is made only for a retiring host, whose machine was last seen neither gone nor going; a start call
   * only for a machine seen stopped, of a host that somebody waits for or that is retiring without a recorded instance.
   */
  lemma MachinesEndAndStart(ws: seq<World>, es: seq<Event>, i: nat)
    requires IsRun(ws, es) && i < |es| && es[i].CallMachine? && es[i].p in ws[i].programs
    requires !ws[i].programs[es[i].p].Halting?
    ensures SweepOf(ws[i].programs[es[i].p]).Some? && AtHost(SweepOf(ws[i].programs[es[i].p]).value)
    ensures var q := ws[i].programs[es[i].p]; var s := SweepOf(q).value; var h := s.snap.hosts[s.i];
      if q.Deleting? && q.del.Terminate? then
        && h.retiring
        && LookedIn(ws, es, i, es[i].p, s, q.del.instanceId, {NoMachine, Pending, Up, StoppingMachine, StoppedMachine})
      else
        && WakePoint(q).Some? && WakePoint(q).value.Start?
        && LookedIn(ws, es, i, es[i].p, s, WakePoint(q).value.instanceId, {StoppedMachine})
        && (h.retiring ==> h.instanceId == "")
        && (!h.retiring ==>
              exists now ::
                && Came(ws, es, i, es[i].p, s, now)
                && exists v :: v in s.snap.servers && v.host == h.id && IsWanted(v, s.reports, now))
  {
    hide Step, IsWanted, Came, WasCurrent, LookedIn;
    RunIsTold(ws, es, i, es[i].p);
    CallNeedsPoint(ws, es, i);
  }

  /** A launch is asked for only when no machine was found or recorded, and somebody waits or the host retires. */
  lemma MachinesAreLaunchedWhenMissing(ws: seq<World>, es: seq<Event>, i: nat)
    requires IsRun(ws, es) && i < |es| && es[i].SendLaunch?
    ensures es[i].p in ws[i].programs && SweepOf(ws[i].programs[es[i].p]).Some?
    ensures var s := SweepOf(ws[i].programs[es[i].p]).value;
      && AtHost(s) && s.snap.hosts[s.i].instanceId == "" && Looked(ws, es, i, es[i].p, s, Absent)
      && (!s.snap.hosts[s.i].retiring ==>
            exists now ::
              && Came(ws, es, i, es[i].p, s, now)
              && exists v :: v in s.snap.servers && v.host == s.snap.hosts[s.i].id && IsWanted(v, s.reports, now))
  {
    hide Step, IsWanted, Came, WasCurrent, Looked, Submission, Provision, WorkerStep, ReaderStep;
    IsStep(ws, es, i);
    StepIsOfItsKind(ws[i], es[i], ws[i + 1]);
    SendEvent(ws[i], es[i], ws[i + 1]);
    RunIsTold(ws, es, i, es[i].p);
  }

  lemma SendEvent(w: World, e: Event, x: World)
    requires Provision(w, e, x) && e.SendLaunch?
    ensures e.p in w.programs && WakePoint(w.programs[e.p]) == Some(Run)
  {
    hide VisitHost, LookStep, CallStep, AnswerStep, DisksStep, GivenUp, MayBecome, ArriveStep;
  }

  /** Over every run: at each host the walk goes where the saved records and the reports point. */
  lemma WalksDecide(ws: seq<World>, es: seq<Event>, i: nat)
    requires IsRun(ws, es) && i < |es| && es[i].Visit?
    ensures es[i].p in ws[i].programs && ws[i].programs[es[i].p].Sweeping? && es[i].p in ws[i + 1].programs
    ensures Decides(ws[i].programs[es[i].p].s, es[i].now, ws[i + 1].programs[es[i].p])
  {
    hide Step, Inv, Submission, Provision, WorkerStep, ReaderStep, Decides;
    RunKeepsInv(ws, es, i);
    IsStep(ws, es, i);
    StepIsOfItsKind(ws[i], es[i], ws[i + 1]);
    VisitsDecide(ws[i], es[i], ws[i + 1]);
  }

  /** What a lookup leads to, at each of the points that look. */
  lemma LooksDecide(w: World, p: nat, found: Lookup, x: World)
    requires p in w.programs && LookStep(w, p, w.programs[p], found, x)
    ensures SweepOf(w.programs[p]).Some? && AtHost(SweepOf(w.programs[p]).value) && p in x.programs
    ensures var q := w.programs[p]; var s := SweepOf(q).value; var h := s.snap.hosts[s.i]; var r := x.programs[p];
      && (q == Waking(s, LookUp) && LaunchIdentity(h) ==>
            && (r == Waking(s, Run) <==> found == Absent && h.instanceId == "")
            && (forall id :: r == Waking(s, Start(id)) <==> found == Present(id, StoppedMachine))
            && ((exists id, state :: found == Present(id, state) && state in {Up, Pending, StoppingMachine}
                  && id == h.instanceId && h.error == "") ==> r == Sweeping(s.(i := s.i + 1)))
            && (forall id, state | found == Present(id, state) && state in {Up, Pending, StoppingMachine}
                  && (id != h.instanceId || h.error != "") :: r == Noting(s, Launched(id), 8, None))
            && ((found == Absent && h.instanceId != "")
                || (found.Present? && found.state in {NoMachine, ShuttingDown, Terminated}) ==>
                  r == if h.error == "Host startup failed; retrying" then Sweeping(s.(i := s.i + 1))
                       else Noting(s, LaunchFailed, 8, None)))
      && (q == Halting(s, LookFirst) ==>
            r == if found.Present? && found.state in {Up, Pending} then Halting(s, StopMachine(found.instanceId))
                 else Sweeping(s.(i := s.i + 1)))
      && (q == Deleting(s, FirstLook) || q == Deleting(s, SecondLook) ==>
            && (forall id | found == Present(id, Terminated) :: r == Deleting(s, Disks))
            && (forall id | found == Present(id, ShuttingDown) :: r == Sweeping(s.(i := s.i + 1)))
            && (forall id, state | found == Present(id, state) && state !in {Terminated, ShuttingDown} ::
                  r == Deleting(s, Terminate(id))))
      && (q == Deleting(s, FirstLook) && found == Absent && h.instanceId != "" ==> r == Deleting(s, Disks))
      && (q == Deleting(s, FirstLook) && found == Absent && h.instanceId == "" && LaunchIdentity(h) ==>
            r == Deleting(s, Recover(LookUp)))
      && (q == Deleting(s, SecondLook) && found == Absent ==> r == Sweeping(s.(i := s.i + 1)))
  {
    hide LookupAnswers, LaunchIdentity;
  }
}
