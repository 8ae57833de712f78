/** How a reconciler and a worker go on after a load, a machine call, a provider's error or a note, field by field. */
module FleetNotes {
  import opened FleetState
  import opened FleetPlacement
  import opened FleetStore
  import opened FleetPlan
  import opened Controller
  import opened FleetWorld
  import opened FleetHistory
  import opened FleetSafety
  import opened FleetTraces
  import opened FleetTheorems

  // -- What is written about a launch -------------------------------------------------------------

  /** The record got the launched instance and no error, or the error of a failed start; the rest of it stayed. */
  predicate Takes(g: Host, h: Host, note: HostNote) {
    && h.instanceId == (if note.Launched? then note.instanceId else g.instanceId)
    && h.error == (if note.Launched? then "" else "Host startup failed; retrying")
    && h.id == g.id && h.release == g.release && h.workload == g.workload && h.capacity == g.capacity
    && h.launchTemplate == g.launchTemplate && h.launchVersion == g.launchVersion
    && h.launchToken == g.launchToken && h.createdAt == g.createdAt && h.retiring == g.retiring
  }

  /** One host record took the note; nothing else changed. */
  ghost predicate Writes(s: Registry, d: Registry, id: string, note: HostNote) {
    && d.servers == s.servers && d.deleting == s.deleting && |d.hosts| == |s.hosts|
    && exists k :: 0 <= k < |s.hosts| && s.hosts[k].id == id && Takes(s.hosts[k], d.hosts[k], note)
         && forall j | 0 <= j < |s.hosts| && j != k :: d.hosts[j] == s.hosts[j]
  }

  lemma NotedTakes(g: Host, note: HostNote)
    ensures Takes(g, Noted(g, note), note)
  {
  }

  lemma NoteWrites(s: Registry, id: string, note: HostNote, next: Option<Registry>)
    requires IsNoted(s, id, note, next)
    ensures next.None? <==> forall h | h in s.hosts :: h.id != id
    ensures next.Some? ==> next.value.revision == s.revision && Writes(s, next.value, id, note)
  {
    hide Takes, Noted;
    if next.Some? {
      var k :| 0 <= k < |s.hosts| && s.hosts[k].id == id
               && next == Some(s.(hosts := s.hosts[k := Noted(s.hosts[k], note)]));
      assert s.hosts[k] in s.hosts;
      NotedTakes(s.hosts[k], note);
      assert Takes(s.hosts[k], next.value.hosts[k], note);
    }
  }

  lemma WritesIgnoresRevision(s: Registry, d: Registry, id: string, note: HostNote, n: nat)
    requires Writes(s, d, id, note)
    ensures Writes(s, d.(revision := n), id, note)
  {
  }

  /** A note whose save took effect: what it had made from the current document. */
  lemma SavedNote(w: World, e: Event, x: World)
    requires Inv(w) && Submission(w, e, x) && e.SubmitNote? && x.store.registry.revision != w.store.registry.revision
    ensures e.p in w.programs && w.programs[e.p].Noting? && AtHost(w.programs[e.p].s)
    ensures var q := w.programs[e.p];
      && e.next.Some? && IsNoted(w.store.registry, q.s.snap.hosts[q.s.i].id, q.note, e.next)
      && x.store.registry == e.next.value.(revision := w.store.registry.revision + 1)
      && (q.note.Launched? ==> MachineIs(w, q.s.snap.hosts[q.s.i], q.note.instanceId))
  {
    hide StoreInv, MachineInv, SnapOk, IsNoted, CreateStep, ActionStep, TeardownStep, PassStep, ForgetStep, Recorded;
    var q := w.programs[e.p];
    assert ProgramOk(w, q);
    if e.next.Some? && Swap(w.store, e.next.value, q.read.value.revision).Committed? {
      assert e.next.value.revision == q.read.value.revision by {
        NoteWrites(q.read.value, q.s.snap.hosts[q.s.i].id, q.note, e.next);
      }
      SwapNeedsCurrent(w, q.read.value, e.next.value);
    }
  }

  /**
   * Over every run: a note changes one record of the document it replaces, that of the host the reconciler was busy
   * with, and an instance it writes down is the machine made for that host's launch token.
   */
  lemma NotesAreWritten(ws: seq<World>, es: seq<Event>, i: nat)
    requires IsRun(ws, es) && i < |es| && es[i].SubmitNote?
    requires ws[i + 1].store.registry.revision != ws[i].store.registry.revision
    ensures es[i].p in ws[i].programs && ws[i].programs[es[i].p].Noting? && AtHost(ws[i].programs[es[i].p].s)
    ensures var q := ws[i].programs[es[i].p]; var h := q.s.snap.hosts[q.s.i];
      && Writes(ws[i].store.registry, ws[i + 1].store.registry, h.id, q.note)
      && (q.note.Launched? ==>
            h.launchToken in ws[i].machines && ws[i].machines[h.launchToken].instanceId == q.note.instanceId)
  {
    hide Step, Inv, Submission, IsNoted, Writes;
    RunKeepsInv(ws, es, i);
    IsStep(ws, es, i);
    StepIsOfItsKind(ws[i], es[i], ws[i + 1]);
    SavedNote(ws[i], es[i], ws[i + 1]);
    var q := ws[i].programs[es[i].p];
    var s, d, id := ws[i].store.registry, es[i].next.value, q.s.snap.hosts[q.s.i].id;
    NoteWrites(s, id, q.note, es[i].next);
    WritesIgnoresRevision(s, d, id, q.note, s.revision + 1);
  }

  // -- How programs go on -------------------------------------------------------------------------

  /** The next host of the walk. */
  predicate GoesOn(r: Program, s: Sweep) {
    r == Sweeping(Sweep(s.c, s.left, s.snap, s.reports, s.i + 1))
  }

  /** The reconcile starts over with a fresh document, at most eight times in all. */
  predicate StartsOver(r: Program, s: Sweep) {
    r == if s.left > 1 then PassBegin(s.c, s.left - 1) else Done
  }

  /** A machine that is up gets written down, unless the record has it already and shows no error. */
  predicate TellsLaunch(r: Program, s: Sweep, instanceId: string)
    requires AtHost(s)
  {
    if s.snap.hosts[s.i].instanceId == instanceId && s.snap.hosts[s.i].error == "" then GoesOn(r, s)
    else r == Noting(s, Launched(instanceId), 8, None)
  }

  /** A failed start is written down, unless the record shows it already. */
  predicate TellsFailure(r: Program, s: Sweep)
    requires AtHost(s)
  {
    if s.snap.hosts[s.i].error == "Host startup failed; retrying" then GoesOn(r, s)
    else r == Noting(s, LaunchFailed, 8, None)
  }

  /** After a note: the next host; a conflict is tried again, and then costs the whole reconcile only for a launch. */
  lemma NotesGoOn(w: World, e: Event, x: World)
    requires Submission(w, e, x) && e.SubmitNote?
    ensures e.p in w.programs && w.programs[e.p].Noting? && e.p in x.programs
    ensures var q, r := w.programs[e.p], x.programs[e.p];
      if e.next.None? || e.told.Committed? then GoesOn(r, q.s)
      else if e.told.Conflict? && q.tries > 1 then r == Noting(q.s, q.note, q.tries - 1, None)
      else if q.note.LaunchFailed? then GoesOn(r, q.s)
      else if e.told.Conflict? then StartsOver(r, q.s)
      else r == Done
  {
    hide CreateStep, ActionStep, TeardownStep, PassStep, ForgetStep, IsNoted, Recorded, Swap;
  }

  /** A provider's error ends the work on this host; only a failed start of a wanted machine is written down. */
  lemma ErrorsGoOn(w: World, e: Event, x: World)
    requires Inv(w) && Provision(w, e, x) && e.ProviderError? && !w.programs[e.p].Sweeping?
    ensures e.p in w.programs && SweepOf(w.programs[e.p]).Some? && AtHost(SweepOf(w.programs[e.p]).value)
    ensures e.p in x.programs
    ensures var s, r := SweepOf(w.programs[e.p]).value, x.programs[e.p];
      if w.programs[e.p].Waking? then TellsFailure(r, s) else GoesOn(r, s)
  {
    hide StoreInv, MachineInv, SnapOk, VisitHost, LookStep, SendStep, AnswerStep, CallStep, DisksStep, ArriveStep,
         MayBecome;
    assert ProgramOk(w, w.programs[e.p]);
  }

  /** After a call: a stopped or ended machine is done with; a started one is written down, or looked at once more. */
  lemma CallsGoOn(w: World, e: Event, x: World)
    requires Inv(w) && Provision(w, e, x) && e.CallMachine?
    ensures e.p in w.programs && SweepOf(w.programs[e.p]).Some? && AtHost(SweepOf(w.programs[e.p]).value)
    ensures e.p in x.programs
    ensures var q, r := w.programs[e.p], x.programs[e.p]; var s := SweepOf(q).value;
      if q.Waking? then q.wake.Start? && TellsLaunch(r, s, q.wake.instanceId)
      else if q.Deleting? && q.del.Recover? then r == Deleting(s, SecondLook)
      else GoesOn(r, s)
  {
    hide StoreInv, MachineInv, SnapOk, VisitHost, LookStep, SendStep, AnswerStep, DisksStep, GivenUp, ArriveStep,
         MayBecome, Acted;
    assert ProgramOk(w, w.programs[e.p]);
  }

  /** After an answered launch: the machine of the host's own token is written down, or looked at once more. */
  lemma AnswersGoOn(w: World, e: Event, x: World)
    requires Provision(w, e, x) && e.LaunchAnswer?
    ensures e.p in w.programs && SweepOf(w.programs[e.p]).Some? && AtHost(SweepOf(w.programs[e.p]).value)
    ensures e.p in x.programs
    ensures var q, r := w.programs[e.p], x.programs[e.p]; var s := SweepOf(q).value;
      && s.snap.hosts[s.i].launchToken in w.machines
      && if q.Waking? then TellsLaunch(r, s, w.machines[s.snap.hosts[s.i].launchToken].instanceId)
         else r == Deleting(s, SecondLook)
  {
    hide VisitHost, LookStep, SendStep, CallStep, DisksStep, GivenUp, ArriveStep, MayBecome;
  }

  // -- Which documents workers serve --------------------------------------------------------------

  /** The host takes requests: its record is there and not retiring, and the deployment goes on. */
  ghost predicate InService(s: Registry, host: string) {
    !s.deleting && exists h :: h in s.hosts && h.id == host && !h.retiring
  }

  ghost predicate ServesInService(q: Program) {
    WorkerSnap(q).Some? ==> WorkerHost(q).Some? && InService(WorkerSnap(q).value, WorkerHost(q).value)
  }

  /** A worker begins on the document it loads exactly when that has its host in service; it serves all of it. */
  lemma WorkersLoad(w: World, p: nat, x: World)
    requires p in w.programs && w.programs[p].WorkerBegin? && LoadStep(w, p, w.programs[p], x)
    ensures p in x.programs
    ensures var host, s := w.programs[p].host, w.store.registry;
      x.programs[p] == if InService(s, host) then WorkerLoaded(host, s, 0) else Done
  {
  }

  lemma LoadsInService(w: World, p: nat, x: World)
    requires p in w.programs && LoadStep(w, p, w.programs[p], x)
    ensures p in x.programs && ServesInService(x.programs[p])
  {
    if w.programs[p].WorkerBegin? {
      WorkersLoad(w, p, x);
    }
  }

  lemma StepInService(w: World, e: Event, x: World, p: nat)
    requires Step(w, e, x) && p in x.programs
    requires forall r | r in w.programs :: ServesInService(w.programs[r])
    ensures ServesInService(x.programs[p])
  {
    hide Step, Mover, InService, KeepsConfig, KeepsHand, Submission, Provision, WorkerStep, ReaderStep;
    StepLeavesOthers(w, e, x);
    if p == Mover(e) {
      if AppliesNothing(e) {
        StepContinues(w, e, x);
      } else {
        StepIsOfItsKind(w, e, x);
        MovesInService(w, e, x);
      }
    }
  }

  lemma MovesInService(w: World, e: Event, x: World)
    requires (WorkerStep(w, e, x) || ReaderStep(w, e, x)) && !AppliesNothing(e)
    requires forall r | r in w.programs :: ServesInService(w.programs[r])
    ensures Mover(e) in x.programs ==> ServesInService(x.programs[Mover(e)])
  {
    hide InService, ReadStep, RereadStep, PublishStep, StumbleStep, CheckStep, LocalMove, LoadStep, ServeStep, AskStep,
         Serve, Ask, AfterTurn;
    match e
    case Spawn(p, q) =>
    case Load(p) => LoadsInService(w, p, x);
    case WorkerServes(p, setup, now) => ServeInService(w, p, setup, now, x);
    case WorkerAsks(p, setup, now) => AskInService(w, p, setup, now, x);
    case LocalMoves(host, after) =>
  }

  lemma ServeInService(w: World, p: nat, setup: Setup, now: int, x: World)
    requires p in w.programs && ServeStep(w, p, w.programs[p], setup, now, x) && ServesInService(w.programs[p])
    ensures p in x.programs && ServesInService(x.programs[p])
  {
    hide InService, Serve, AfterTurn, AppliedAfter;
    var q := w.programs[p];
    TurnIsSameWorker(q, Serve(LocalOf(w, q.host), setup, q.snap.servers[q.i], q.host, q.seen, now).turn);
  }

  lemma AskInService(w: World, p: nat, setup: Setup, now: int, x: World)
    requires p in w.programs && AskStep(w, p, w.programs[p], setup, now, x) && ServesInService(w.programs[p])
    ensures p in x.programs && ServesInService(x.programs[p])
  {
    hide InService, Ask, AfterTurn, AppliedAfter;
    var q := w.programs[p];
    TurnIsSameWorker(q, Ask(LocalOf(w, q.host), q.snap.servers[q.i], q.host, q.instance, setup.startedAt, now).turn);
  }

  /** Over every run: a worker only ever serves from a document that has its own host in service. */
  lemma {:induction false} WorkersServeInService(ws: seq<World>, es: seq<Event>, n: nat, p: nat)
    requires IsRun(ws, es) && n < |ws| && p in ws[n].programs && WorkerSnap(ws[n].programs[p]).Some?
    ensures WorkerHost(ws[n].programs[p]).Some?
    ensures var s, host := WorkerSnap(ws[n].programs[p]).value, WorkerHost(ws[n].programs[p]).value;
      !s.deleting && exists h :: h in s.hosts && h.id == host && !h.retiring
  {
    AllServeInService(ws, es, n);
    assert ServesInService(ws[n].programs[p]);
  }

  lemma {:induction false} AllServeInService(ws: seq<World>, es: seq<Event>, n: nat)
    requires IsRun(ws, es) && n < |ws|
    ensures forall p | p in ws[n].programs :: ServesInService(ws[n].programs[p])
  {
    hide Step, ServesInService;
    if n > 0 {
      AllServeInService(ws, es, n - 1);
      IsStep(ws, es, n - 1);
      forall p | p in ws[n].programs ensures ServesInService(ws[n].programs[p]) {
        StepInService(ws[n - 1], es[n - 1], ws[n], p);
      }
    }
  }
}
