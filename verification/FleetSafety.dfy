/** The invariant of the whole fleet, and the proof that every step of every program keeps it. */
module FleetSafety {
  import opened FleetState
  import opened FleetPlacement
  import opened FleetStore
  import opened FleetPlan
  import opened Controller
  import opened FleetWorld
  import opened FleetHistory

  // -- Machines -----------------------------------------------------------------------------------

  /** A recorded instance ID is the one the provider made for the host's token. */
  ghost predicate Instances(machines: map<string, Machine>, s: Registry) {
    forall h | h in s.hosts && h.instanceId != "" ::
      h.launchToken in machines && machines[h.launchToken].instanceId == h.instanceId
  }

  /** Every machine that is not terminated belongs to a host that is still in the registry. */
  ghost predicate NoOrphan(w: World) {
    forall t | t in w.machines && w.machines[t].state != Terminated ::
          w.machines[t].hostTag in HostIds(w.store.registry)
  }

  /** A host that left the registry used its launch token up. */
  ghost predicate RemovedHostsAreBurned(w: World) {
    forall id | id in w.book.hosts && id !in HostIds(w.store.registry) :: Burned(w.machines, w.book.hosts[id].token)
  }

  /** Requests and machines belong to hosts of the history, each under its own token. */
  ghost predicate LaunchesAreOwned(w: World) {
    && (forall l | l in w.requests :: l.host in w.book.hosts && w.book.hosts[l.host].token == l.token)
    && (forall t | t in w.machines ::
          w.machines[t].instanceId != "" && w.machines[t].hostTag in w.book.hosts
          && w.book.hosts[w.machines[t].hostTag].token == t)
  }

  ghost predicate InstancesAreUnique(machines: map<string, Machine>) {
    forall t, u | t in machines && u in machines && machines[t].instanceId == machines[u].instanceId :: t == u
  }

  ghost predicate MachineInv(w: World) {
    && LaunchesAreOwned(w)
    && InstancesAreUnique(w.machines)
    && Instances(w.machines, w.store.registry)
    && NoOrphan(w)
    && RemovedHostsAreBurned(w)
  }

  ghost predicate MachinesGrow(w: World, x: World) {
    forall t | t in w.machines ::
      && t in x.machines
      && x.machines[t].instanceId == w.machines[t].instanceId && x.machines[t].hostTag == w.machines[t].hostTag
      && (w.machines[t].state == Terminated ==> x.machines[t].state == Terminated)
  }

  // -- Programs -----------------------------------------------------------------------------------

  /** A snapshot is some committed document: the current one if its revision is current. */
  ghost predicate SnapOk(w: World, s: Registry) {
    && s.revision <= w.store.registry.revision
    && (s.revision == w.store.registry.revision ==> s == w.store.registry)
    && Sound(s) && Known(w.book, s) && Instances(w.machines, s)
  }

  ghost predicate MachineIs(w: World, h: Host, instanceId: string) {
    h.launchToken in w.machines && w.machines[h.launchToken].instanceId == instanceId
  }

  ghost predicate SweepOk(w: World, s: Sweep) {
    SnapOk(w, s.snap) && AtHost(s)
  }

  ghost predicate WakeOk(w: World, s: Sweep, wake: WakeAt) {
    SweepOk(w, s) && (wake.Start? ==> MachineIs(w, s.snap.hosts[s.i], wake.instanceId))
  }

  ghost predicate DeleteOk(w: World, s: Sweep, del: DeleteAt) {
    && SweepOk(w, s) && s.snap.hosts[s.i].retiring
    && (del.Recover? ==> WakeOk(w, s, del.wake))
    && (del.Disks? ==> Burned(w.machines, s.snap.hosts[s.i].launchToken))
  }

  ghost predicate RetiredIn(s: Registry, id: string) {
    forall h | h in s.hosts && h.id == id :: h.retiring
  }

  ghost predicate WorkerOk(w: World, host: string, snap: Registry, i: nat) {
    SnapOk(w, snap) && i < |snap.servers| && snap.servers[i].host == host
  }

  ghost predicate ProgramOk(w: World, q: Program) {
    match q
    case Done => true
    case CreateBegin(c, id, game, name, left) => ValidConfig(c) && game in c.games
    case CreateLoaded(c, id, game, name, left, snap) => ValidConfig(c) && game in c.games && SnapOk(w, snap)
    case CreateChecked(c, id, game, name, left, snap) =>
      && ValidConfig(c) && game in c.games && SnapOk(w, snap)
      && (snap.revision == w.store.registry.revision ==> id !in w.store.tombstones)
    case ActionBegin(c, id, desired, left) => IsIntent(desired)
    case ActionLoaded(c, id, desired, left, snap) => IsIntent(desired) && SnapOk(w, snap)
    case TeardownBegin => true
    case TeardownLoaded(snap) => SnapOk(w, snap)
    case PassBegin(c, left) => true
    case PassLoaded(c, left, snap) => SnapOk(w, snap)
    case Sweeping(s) => SnapOk(w, s.snap)
    case Deleting(s, del) => DeleteOk(w, s, del)
    case Waking(s, wake) => WakeOk(w, s, wake)
    case Halting(s, stop) => SweepOk(w, s)
    case Emptying(s, read) =>
      DeleteOk(w, s, Disks) && (read.Some? ==> SnapOk(w, read.value) && RetiredIn(read.value, s.snap.hosts[s.i].id))
    case Noting(s, note, tries, read) =>
      && SweepOk(w, s) && (read.Some? ==> SnapOk(w, read.value))
      && (note.Launched? ==> MachineIs(w, s.snap.hosts[s.i], note.instanceId))
    case WorkerBegin(host) => true
    case WorkerLoaded(host, snap, i) => SnapOk(w, snap)
    case WorkerRead(host, snap, i, seen) => WorkerOk(w, host, snap, i)
    case WorkerHas(host, snap, i, instance) => WorkerOk(w, host, snap, i)
    case WorkerAsked(host, snap, i) => WorkerOk(w, host, snap, i)
    case WorkerSays(host, snap, i, report) =>
      && WorkerOk(w, host, snap, i)
      && report.id == snap.servers[i].id && report.host == host && report.requestId == snap.servers[i].requestId
  }

  ghost predicate Inv(w: World) {
    && StoreInv(w) && MachineInv(w)
    && forall p | p in w.programs :: ProgramOk(w, w.programs[p])
  }

  // -- Stability ----------------------------------------------------------------------------------

  lemma SnapStays(w: World, x: World, s: Registry)
    requires SnapOk(w, s) && Grows(w, x) && MachinesGrow(w, x)
    ensures SnapOk(x, s)
  {
    KnownStays(w, x, s);
  }

  /** What a program relies on survives every step of the others. */
  lemma ProgramStays(w: World, x: World, q: Program)
    requires ProgramOk(w, q) && Grows(w, x) && MachinesGrow(w, x)
    ensures ProgramOk(x, q)
  {
    forall s | SnapOk(w, s) ensures SnapOk(x, s) {
      SnapStays(w, x, s);
    }
  }

  /** A step that resumes one program and keeps the shared invariants keeps everything. */
  lemma ResumeKeeps(w: World, x: World, p: nat, q: Program)
    requires Inv(w) && StoreInv(x) && MachineInv(x) && Grows(w, x) && MachinesGrow(w, x)
    requires x.programs == w.programs[p := q] && ProgramOk(x, q)
    ensures Inv(x) && Grows(w, x) && MachinesGrow(w, x)
  {
    forall k | k in x.programs ensures ProgramOk(x, x.programs[k]) {
      if k != p {
        ProgramStays(w, x, w.programs[k]);
      }
    }
  }

  lemma Unchanged(w: World, x: World)
    requires x.store == w.store && x.book == w.book && w.minted <= x.minted && x.machines == w.machines
    requires StoreInv(w) && MachineInv(w) && x.requests == w.requests
    ensures StoreInv(x) && MachineInv(x) && Grows(w, x) && MachinesGrow(w, x)
  {
  }

  lemma ProgramIsOk(w: World, p: nat)
    requires Inv(w) && p in w.programs
    ensures ProgramOk(w, w.programs[p])
  {
  }

  lemma SameMachinesGrow(w: World, x: World)
    requires x.machines == w.machines
    ensures MachinesGrow(w, x)
  {
  }

  /** A local step: only one program advances, and identities may be drawn. */
  lemma AdvanceKeeps(w: World, x: World, p: nat, q: Program)
    requires Inv(w) && ProgramOk(w, q)
    requires x == Resumed(w.(minted := x.minted), p, q) && w.minted <= x.minted
    ensures Inv(x) && Grows(w, x) && MachinesGrow(w, x)
  {
    hide Inv, StoreInv, MachineInv, ProgramOk, Grows, MachinesGrow;
    StoreAndMachines(w);
    Unchanged(w, x);
    ProgramStays(w, x, q);
    ResumeKeeps(w, x, p, q);
  }

  lemma CurrentIsSnap(w: World)
    requires StoreInv(w) && MachineInv(w)
    ensures SnapOk(w, w.store.registry)
  {
  }

  // -- Commits and machines -----------------------------------------------------------------------

  /** Hosts leave the registry only after their token is used up. */
  lemma MachinesSurviveCommit(w: World, x: World, d: Registry, gone: set<string>, dropped: set<string>)
    requires StoreInv(w) && MachineInv(w) && Succeeds(w, x, d, gone) && Commits(w, x, d, gone)
    requires x.machines == w.machines && x.requests == w.requests
    requires Instances(w.machines, d)
    requires HostIds(w.store.registry) - dropped <= HostIds(d)
    requires forall id | id in dropped && id in w.book.hosts :: Burned(w.machines, w.book.hosts[id].token)
    ensures MachineInv(x)
  {
    HostHistory(w, x, d);
    assert HostIds(x.store.registry) == HostIds(d);
    forall t | t in x.machines && x.machines[t].state != Terminated
      ensures x.machines[t].hostTag in HostIds(x.store.registry)
    {
      assert x.machines[t].hostTag in HostIds(w.store.registry);
    }
    forall id | id in x.book.hosts && id !in HostIds(x.store.registry)
      ensures Burned(x.machines, x.book.hosts[id].token)
    {
      if id !in w.book.hosts {
        assert false;
      }
    }
  }

  /** A commit of a draft that succeeds the current document, followed by the committing program's next state. */
  lemma CommitStep(w: World, x: World, d: Registry, gone: set<string>, dropped: set<string>, p: nat, q: Program)
    requires Inv(w) && Succeeds(w, x, d, gone) && Commits(w, x, d, gone)
    requires x.machines == w.machines && x.requests == w.requests && Instances(w.machines, d)
    requires HostIds(w.store.registry) - dropped <= HostIds(d)
    requires forall id | id in dropped && id in w.book.hosts :: Burned(w.machines, w.book.hosts[id].token)
    requires x.programs == w.programs[p := q]
    requires StoreInv(x) && Grows(w, x) && MachineInv(x) ==> ProgramOk(x, q)
    ensures Inv(x) && Grows(w, x) && MachinesGrow(w, x)
  {
    CommitKeeps(w, x, d, gone);
    MachinesSurviveCommit(w, x, d, gone, dropped);
    ResumeKeeps(w, x, p, q);
  }

  lemma SaveCommits(w: World, x: World, d: Registry)
    requires x.store == Saved(w.store, d) && x.book == Recorded(w.book, d) && w.minted <= x.minted
    ensures Commits(w, x, d, {})
  {
    hide Recorded;
    EmptyDifference(w.store.reports);
  }

  lemma EmptyDifference(m: map<string, Report>)
    ensures m - {} == m
  {
  }

  /** A save of a draft that succeeds the current document and drops nothing. */
  lemma SaveStep(w: World, x: World, d: Registry, p: nat, q: Program)
    requires Inv(w) && Succeeds(w, x, d, {}) && Instances(w.machines, d) && HostIds(w.store.registry) <= HostIds(d)
    requires x == Resumed(w.(minted := x.minted, store := Saved(w.store, d), book := Recorded(w.book, d)), p, q)
    requires w.minted <= x.minted
    requires StoreInv(x) && Grows(w, x) && MachineInv(x) ==> ProgramOk(x, q)
    ensures Inv(x) && Grows(w, x) && MachinesGrow(w, x)
  {
    hide Inv, StoreInv, MachineInv, Grows, MachinesGrow, ProgramOk, Succeeds, Commits, Instances, HostIds, Recorded,
         Saved;
    SaveCommits(w, x, d);
    CommitStep(w, x, d, {}, {}, p, q);
  }

  /** A save of the current document edited where its records stand. */
  lemma EditStep(w: World, x: World, d: Registry, p: nat, q: Program)
    requires Inv(w) && EditsWith(w, x, d) && Instances(w.machines, d)
    requires x == Resumed(w.(minted := x.minted, store := Saved(w.store, d), book := Recorded(w.book, d)), p, q)
    requires w.minted <= x.minted
    requires StoreInv(x) && Grows(w, x) && MachineInv(x) ==> ProgramOk(x, q)
    ensures Inv(x) && Grows(w, x) && MachinesGrow(w, x)
  {
    hide Inv, StoreInv, MachineInv, Grows, MachinesGrow, ProgramOk, Succeeds, Instances, EditsWith, Edits, HostIds,
         Recorded, Saved;
    StoreAndMachines(w);
    EditSucceeds(w, x, d);
    EditsKeepDeleting(w, x, d);
    SameIds(w.store.registry, d);
    SaveStep(w, x, d, p, q);
  }

  lemma StoreAndMachines(w: World)
    requires Inv(w)
    ensures StoreInv(w) && MachineInv(w)
  {
  }

  /** A program that goes on with nothing it must justify. */
  lemma IdleIsOk(w: World, q: Program)
    requires q.Done? || q.PassBegin? || q.TeardownBegin? || (q.ActionBegin? && IsIntent(q.desired))
    ensures ProgramOk(w, q)
  {
  }

  lemma EditKeepsHosts(w: World, d: Registry)
    requires MachineInv(w) && Edits(w.store.registry, d)
    requires forall i | 0 <= i < |d.hosts| :: d.hosts[i].instanceId == w.store.registry.hosts[i].instanceId
    ensures Instances(w.machines, d) && HostIds(w.store.registry) <= HostIds(d)
  {
    SameIds(w.store.registry, d);
    forall h | h in d.hosts && h.instanceId != ""
      ensures h.launchToken in w.machines && w.machines[h.launchToken].instanceId == h.instanceId
    {
      var i :| 0 <= i < |d.hosts| && d.hosts[i] == h;
      assert w.store.registry.hosts[i] in w.store.registry.hosts;
    }
  }

  // -- Reading ------------------------------------------------------------------------------------

  /** Retirement is never taken back, so a host that was retiring when deleted still is when the document is read. */
  lemma StillRetired(w: World, s: Registry, h: Host)
    requires StoreInv(w) && SnapOk(w, s) && h in s.hosts && h.retiring
    ensures RetiredIn(w.store.registry, h.id)
  {
  }

  lemma LoadedIsOk(w: World, q: Program)
    requires StoreInv(w) && MachineInv(w) && ProgramOk(w, q) && AfterLoad(q, w.store.registry).Some?
    ensures ProgramOk(w, AfterLoad(q, w.store.registry).value)
  {
    hide StoreInv, MachineInv, SnapOk, RetiredIn;
    CurrentIsSnap(w);
    if q.Emptying? {
      StillRetired(w, q.s.snap, q.s.snap.hosts[q.s.i]);
    }
  }

  lemma LoadKeeps(w: World, p: nat, q: Program, x: World)
    requires Inv(w) && p in w.programs && w.programs[p] == q && LoadStep(w, p, q, x)
    ensures Inv(x) && Grows(w, x) && MachinesGrow(w, x)
  {
    hide StoreInv, MachineInv, ProgramOk, AfterLoad;
    LoadedIsOk(w, q);
    AdvanceKeeps(w, x, p, AfterLoad(q, w.store.registry).value);
  }

  lemma CheckKeeps(w: World, p: nat, q: Program, x: World)
    requires Inv(w) && p in w.programs && w.programs[p] == q && CheckStep(w, p, q, x)
    ensures Inv(x) && Grows(w, x) && MachinesGrow(w, x)
  {
    AdvanceKeeps(w, x, p, x.programs[p]);
  }

  // -- Creates, actions, teardown -----------------------------------------------------------------

  lemma CreateCommits(w: World, p: nat, q: Program, seen: map<string, Lifecycle>, chosen: Option<Host>, drawn: Drawn,
                      now: int, x: World)
    requires Inv(w) && q.CreateChecked? && ProgramOk(w, q) && q.snap == w.store.registry
    requires Unused(w, drawn.host) && Unused(w, drawn.launch) && Unused(w, drawn.request)
    requires IsChoice(q.c, q.snap, q.game.resources, seen, chosen)
    requires var plan := PlanCreate(q.c, q.id, q.game, q.name, q.snap, false, chosen, drawn, now);
      plan.Propose?
      && p in x.programs
      && (x.programs[p].Done? || (x.programs[p].CreateBegin? && x.programs[p].c == q.c && x.programs[p].game == q.game))
      && x == Resumed(w.(minted := w.minted + {drawn.host, drawn.launch, drawn.request},
                         store := Saved(w.store, plan.next), book := Recorded(w.book, plan.next)), p, x.programs[p])
    ensures Inv(x) && Grows(w, x) && MachinesGrow(w, x)
  {
    hide StoreInv, MachineInv, IsChoice, ValidConfig, SnapOk, PlanCreate, Recorded, Saved, Succeeds, Instances,
         HostIds, Grows, MachinesGrow;
    var plan := PlanCreate(q.c, q.id, q.game, q.name, q.snap, false, chosen, drawn, now);
    AdmissionSucceeds(w, x, q.c, q.id, q.game, q.name, seen, chosen, drawn, now);
    CreatedInstances(w, q.c, q.id, q.game, q.name, chosen, drawn, now);
    SaveStep(w, x, plan.next, p, x.programs[p]);
  }

  lemma CreateKeeps(w: World, p: nat, q: Program, seen: map<string, Lifecycle>, chosen: Option<Host>, drawn: Drawn,
                    now: int, told: Outcome, x: World)
    requires Inv(w) && p in w.programs && w.programs[p] == q && CreateStep(w, p, q, seen, chosen, drawn, now, told, x)
    ensures Inv(x) && Grows(w, x) && MachinesGrow(w, x)
  {
    hide StoreInv, MachineInv, IsChoice, ValidConfig, SnapOk, PlanCreate, Recorded, Swap, Grows, MachinesGrow;
    var plan := PlanCreate(q.c, q.id, q.game, q.name, q.snap, false, chosen, drawn, now);
    if plan.Propose? && Swap(w.store, plan.next, q.snap.revision).Committed? {
      SwapNeedsCurrent(w, q.snap, plan.next);
      CreateCommits(w, p, q, seen, chosen, drawn, now, x);
    } else {
      AdvanceKeeps(w, x, p, x.programs[p]);
    }
  }

  lemma CreatedInstances(w: World, c: Config, id: string, game: Game, name: string, chosen: Option<Host>,
                         drawn: Drawn, now: int)
    requires MachineInv(w)
    requires PlanCreate(c, id, game, name, w.store.registry, false, chosen, drawn, now).Propose?
    ensures var d := PlanCreate(c, id, game, name, w.store.registry, false, chosen, drawn, now).next;
      Instances(w.machines, d) && HostIds(w.store.registry) <= HostIds(d)
  {
  }

  lemma ActionCommits(w: World, p: nat, q: Program, reports: map<string, Report>, token: string, now: int, x: World)
    requires Inv(w) && q.ActionLoaded? && ProgramOk(w, q) && q.snap == w.store.registry && Unused(w, token)
    requires var plan := PlanAction(q.c, q.snap, q.id, q.desired, reports, token, now);
      plan.Change?
      && p in x.programs
      && (x.programs[p].Done? || (x.programs[p].ActionBegin? && x.programs[p].desired == q.desired))
      && x == Resumed(w.(minted := w.minted + {token}, store := Saved(w.store, plan.next),
                         book := Recorded(w.book, plan.next)), p, x.programs[p])
    ensures Inv(x) && Grows(w, x) && MachinesGrow(w, x)
  {
    hide Inv, StoreInv, MachineInv, SnapOk, Recorded, Saved, Instances, EditsWith, Edits, PlanAction, Grows,
         MachinesGrow, Unused;
    var plan := PlanAction(q.c, q.snap, q.id, q.desired, reports, token, now);
    StoreAndMachines(w);
    ActionEdits(w, x, q.c, q.id, q.desired, reports, token, now);
    ActionKeepsHosts(q.c, q.snap, q.id, q.desired, reports, token, now);
    SameInstances(w, plan.next);
    EditStep(w, x, plan.next, p, x.programs[p]);
  }

  lemma ActionKeepsHosts(c: Config, s: Registry, id: string, desired: Status, reports: map<string, Report>,
                         token: string, now: int)
    requires PlanAction(c, s, id, desired, reports, token, now).Change?
    ensures PlanAction(c, s, id, desired, reports, token, now).next.hosts == s.hosts
  {
  }

  lemma SameInstances(w: World, d: Registry)
    requires MachineInv(w) && d.hosts == w.store.registry.hosts
    ensures Instances(w.machines, d)
  {
  }

  lemma ActionKeeps(w: World, p: nat, q: Program, reports: map<string, Report>, token: string, now: int, told: Outcome,
                    x: World)
    requires Inv(w) && p in w.programs && w.programs[p] == q && ActionStep(w, p, q, reports, token, now, told, x)
    ensures Inv(x) && Grows(w, x) && MachinesGrow(w, x)
  {
    hide Inv, StoreInv, MachineInv, ProgramOk, SnapOk, PlanAction, Recorded, Swap, Saved, AfterSave, Grows,
         MachinesGrow;
    var plan := PlanAction(q.c, q.snap, q.id, q.desired, reports, token, now);
    ProgramIsOk(w, p);
    LoadedActionIsOk(w, q);
    IdleIsOk(w, x.programs[p]);
    if plan.Change? {
      SaveIs(w.(minted := w.minted + {token}), plan.next, q.snap.revision);
    }
    if plan.Change? && Swap(w.store, plan.next, q.snap.revision).Committed? {
      SwapNeedsCurrent(w, q.snap, plan.next);
      ActionCommits(w, p, q, reports, token, now, x);
    } else {
      AdvanceKeeps(w, x, p, x.programs[p]);
    }
  }

  lemma LoadedActionIsOk(w: World, q: Program)
    requires q.ActionLoaded? && ProgramOk(w, q)
    ensures IsIntent(q.desired) && SnapOk(w, q.snap)
  {
  }

  lemma ActionServerEdits(s: Registry, c: Config, id: string, desired: Status, reports: map<string, Report>,
                          token: string, now: int, i: nat)
    requires UniqueServers(s.servers) && i < |s.servers| && IsIntent(s.servers[i].desired) && IsIntent(desired)
    requires PlanAction(c, s, id, desired, reports, token, now).Change?
    ensures ServerEdit(s.servers[i], Answered(s.servers[i], id, desired, token, now))
  {
    hide Restarts;
    assert s.servers[i] in s.servers;
  }

  lemma ActionEdits(w: World, x: World, c: Config, id: string, desired: Status, reports: map<string, Report>,
                    token: string, now: int)
    requires StoreInv(w) && Unused(w, token) && token in x.minted && IsIntent(desired)
    requires PlanAction(c, w.store.registry, id, desired, reports, token, now).Change?
    ensures EditsWith(w, x, PlanAction(c, w.store.registry, id, desired, reports, token, now).next)
  {
    hide Known, Newest, BookIsConsistent, NothingResurrected, WithinCapacity, RetirementIsSafe;
    var s := w.store.registry;
    var d := PlanAction(c, s, id, desired, reports, token, now).next;
    forall i | 0 <= i < |s.servers| ensures ServerEdit(s.servers[i], d.servers[i]) {
      assert s.servers[i] in s.servers;
      ActionServerEdits(s, c, id, desired, reports, token, now, i);
    }
    ServerEditsAreEdits(s, d);
  }

  lemma TeardownEdits(s: Registry)
    requires Sound(s)
    ensures Edits(s, s.(deleting := true))
  {
    assert forall i | 0 <= i < |s.servers| :: s.servers[i] in s.servers;
  }

  lemma TeardownKeeps(w: World, p: nat, q: Program, x: World)
    requires Inv(w) && p in w.programs && w.programs[p] == q && TeardownStep(w, p, q, x)
    ensures Inv(x) && Grows(w, x) && MachinesGrow(w, x)
  {
    hide Inv, StoreInv, MachineInv, ProgramOk, SnapOk, EditsWith, Edits, Swap, Recorded, Saved, Instances, Grows,
         MachinesGrow;
    var d := q.snap.(deleting := true);
    ProgramIsOk(w, p);
    StoreAndMachines(w);
    assert SnapOk(w, q.snap) by { TeardownIsOk(w, q); }
    IdleIsOk(w, Done);
    IdleIsOk(x, Done);
    if Swap(w.store, d, q.snap.revision).Committed? {
      SwapNeedsCurrent(w, q.snap, d);
      TeardownEditsWith(w, x, d);
      SameInstances(w, d);
      EditStep(w, x, d, p, Done);
    } else {
      AdvanceKeeps(w, x, p, x.programs[p]);
    }
  }

  lemma TeardownIsOk(w: World, q: Program)
    requires ProgramOk(w, q)
    ensures q.TeardownLoaded? ==> SnapOk(w, q.snap)
  {
  }

  lemma TeardownEditsWith(w: World, x: World, d: Registry)
    requires StoreInv(w) && d == w.store.registry.(deleting := true)
    ensures EditsWith(w, x, d) && Edits(w.store.registry, d)
  {
    hide Known, Newest, BookIsConsistent, NothingResurrected;
    TeardownEdits(w.store.registry);
  }

  // -- The reconcile pass -------------------------------------------------------------------------

  /** The servers of a pass up to where it stopped, and the rest as they were. */
  function Partly(s: Registry, reports: map<string, Report>, deleting: bool, now: int, k: nat): Registry
    requires k <= |s.servers|
  {
    s.(servers := AllRefreshed(s.servers, reports, deleting, now)[..k] + s.servers[k..])
  }

  lemma RefreshEdits(v: Server, r: Report, deleting: bool, now: int)
    requires IsIntent(v.desired)
    ensures ServerEdit(v, Refreshed(v, r, deleting, now)) && Refreshed(v, r, deleting, now).requestId == v.requestId
  {
  }

  lemma PartlyEdits(w: World, x: World, reports: map<string, Report>, now: int, k: nat)
    requires StoreInv(w) && k <= |w.store.registry.servers|
    ensures EditsWith(w, x, Partly(w.store.registry, reports, false, now, k))
  {
    hide Known, Newest, BookIsConsistent, NothingResurrected, WithinCapacity, RetirementIsSafe, Refreshed;
    var s := w.store.registry;
    var d := Partly(s, reports, false, now, k);
    forall i | 0 <= i < |s.servers|
      ensures ServerEdit(s.servers[i], d.servers[i]) && d.servers[i].requestId == s.servers[i].requestId
    {
      assert s.servers[i] in s.servers;
      RefreshEdits(s.servers[i], ReportOf(reports, s.servers[i].id), false, now);
    }
    ServerEditsAreEdits(s, d);
  }

  /** Dropping the acknowledged server from a partly refreshed document is what the pass saves. */
  lemma PartlyReleased(s: Registry, reports: map<string, Report>, now: int, k: nat)
    requires k < |s.servers|
    ensures |Partly(s, reports, false, now, k).servers| == |s.servers|
        && Partly(s, reports, false, now, k).hosts == s.hosts
    ensures Partly(s, reports, false, now, k).servers[k] == s.servers[k]
    ensures WithoutServer(Partly(s, reports, false, now, k), k)
         == s.(servers := AllRefreshed(s.servers, reports, false, now)[..k] + s.servers[k + 1..])
  {
    hide Refreshed;
    var d := Partly(s, reports, false, now, k);
    assert d.servers[..k] == AllRefreshed(s.servers, reports, false, now)[..k];
    assert d.servers[k + 1..] == s.servers[k + 1..];
  }

  lemma RetiredIsSafe(s: Registry, servers: seq<Server>, deleting: bool)
    requires RetirementIsSafe(s) && |servers| == |s.servers| && (s.deleting ==> deleting)
    requires forall i | 0 <= i < |s.servers| :: ServerEdit(s.servers[i], servers[i])
    ensures RetirementIsSafe(Registry(s.revision, AllRetired(s.hosts, servers, deleting), servers, deleting))
  {
    var d := Registry(s.revision, AllRetired(s.hosts, servers, deleting), servers, deleting);
    forall h, v | h in d.hosts && v in d.servers && h.retiring && v.host == h.id
      ensures d.deleting || v.desired == Deleted
    {
      var i :| 0 <= i < |d.hosts| && d.hosts[i] == h;
      var j :| 0 <= j < |d.servers| && d.servers[j] == v;
      assert ServerEdit(s.servers[j], servers[j]);
      assert s.hosts[i] in s.hosts && s.servers[j] in s.servers;
      assert Retires(s.hosts[i], servers, deleting);
    }
  }

  lemma PassEdits(w: World, x: World, reports: map<string, Report>, deleting: bool, now: int)
    requires StoreInv(w) && (w.store.registry.deleting ==> deleting)
    ensures var s := w.store.registry;
      var servers := AllRefreshed(s.servers, reports, deleting, now);
      EditsWith(w, x, Registry(s.revision, AllRetired(s.hosts, servers, deleting), servers, deleting))
  {
    hide Known, Newest, BookIsConsistent, NothingResurrected, WithinCapacity, RetirementIsSafe, Refreshed, Retires;
    var s := w.store.registry;
    var servers := AllRefreshed(s.servers, reports, deleting, now);
    var d := Registry(s.revision, AllRetired(s.hosts, servers, deleting), servers, deleting);
    forall i | 0 <= i < |s.servers|
      ensures ServerEdit(s.servers[i], servers[i]) && servers[i].requestId == s.servers[i].requestId
    {
      assert s.servers[i] in s.servers;
      RefreshEdits(s.servers[i], ReportOf(reports, s.servers[i].id), deleting, now);
    }
    RetiredIsSafe(s, servers, deleting);
    forall i | 0 <= i < |s.hosts| ensures HostEdit(s.hosts[i], d.hosts[i]) {
      RetiringStays(s.hosts[i], servers, deleting);
    }
  }

  lemma RetiringStays(h: Host, servers: seq<Server>, deleting: bool)
    ensures h.retiring ==> Retires(h, servers, deleting)
  {
  }

  /** A committed pass goes on with the document it committed. */
  lemma CommittedIsSnap(w: World, x: World, d: Registry)
    requires x.store.registry == d.(revision := w.store.registry.revision + 1)
    requires StoreInv(x) && MachineInv(x)
    ensures SnapOk(x, d.(revision := w.store.registry.revision + 1))
  {
    CurrentIsSnap(x);
  }

  lemma KeepKeeps(w: World, p: nat, q: Program, reports: map<string, Report>, d: Registry, now: int, x: World)
    requires Inv(w) && p in w.programs && w.programs[p] == q && q.PassLoaded? && q.snap == w.store.registry
    requires var s := w.store.registry;
      var deleting := s.deleting || Expired(q.c, now);
      var servers := AllRefreshed(s.servers, reports, deleting, now);
      d == Registry(s.revision, AllRetired(s.hosts, servers, deleting), servers, deleting)
    requires p in x.programs
    requires x == Resumed(w.(store := Saved(w.store, d), book := Recorded(w.book, d)), p, x.programs[p])
    requires x.programs[p].Done? || x.programs[p].PassBegin?
             || x.programs[p] == Sweeping(Sweep(q.c, q.left, d.(revision := w.store.registry.revision + 1), reports, 0))
    ensures Inv(x) && Grows(w, x) && MachinesGrow(w, x)
  {
    hide Inv, StoreInv, MachineInv, SnapOk, EditsWith, Edits, AllRefreshed, AllRetired, Recorded, Instances, Grows,
         MachinesGrow, HostIds, Expired;
    StoreAndMachines(w);
    PassEdits(w, x, reports, w.store.registry.deleting || Expired(q.c, now), now);
    PassKeepsInstances(w, reports, w.store.registry.deleting || Expired(q.c, now), now);
    EditStep(w, x, d, p, x.programs[p]) by {
      if StoreInv(x) && MachineInv(x) {
        CommittedIsSnap(w, x, d);
      }
    }
  }

  lemma PassKeepsInstances(w: World, reports: map<string, Report>, deleting: bool, now: int)
    requires StoreInv(w) && MachineInv(w) && (w.store.registry.deleting ==> deleting)
    ensures var s := w.store.registry;
      var servers := AllRefreshed(s.servers, reports, deleting, now);
      var d := Registry(s.revision, AllRetired(s.hosts, servers, deleting), servers, deleting);
      Instances(w.machines, d) && HostIds(s) <= HostIds(d)
  {
    hide StoreInv, MachineInv, AllRefreshed, Retires;
    var s := w.store.registry;
    var servers := AllRefreshed(s.servers, reports, deleting, now);
    PassEdits(w, w, reports, deleting, now);
    EditKeepsHosts(w, Registry(s.revision, AllRetired(s.hosts, servers, deleting), servers, deleting));
  }

  lemma PassStops(c: Config, s: Registry, reports: map<string, Report>, now: int, plan: PassPlan) returns (k: nat)
    requires IsPass(c, s, reports, now, plan)
    ensures FirstRemoval(s, reports, s.deleting || Expired(c, now), k) && IsPassAt(c, s, reports, now, plan, k)
    ensures plan.Keep? ==>
      var deleting := s.deleting || Expired(c, now);
      var servers := AllRefreshed(s.servers, reports, deleting, now);
      plan.next == Registry(s.revision, AllRetired(s.hosts, servers, deleting), servers, deleting)
  {
    hide AllRefreshed, AllRetired, RemovalDone, Retires, Touched;
    k :| FirstRemoval(s, reports, s.deleting || Expired(c, now), k) && IsPassAt(c, s, reports, now, plan, k);
  }

  lemma PassDrafts(c: Config, s: Registry, reports: map<string, Report>, now: int, plan: PassPlan)
    requires IsPass(c, s, reports, now, plan) && plan.Keep?
    ensures var deleting := s.deleting || Expired(c, now);
      var servers := AllRefreshed(s.servers, reports, deleting, now);
      plan.next == Registry(s.revision, AllRetired(s.hosts, servers, deleting), servers, deleting)
  {
    hide IsPass, IsPassAt, FirstRemoval, AllRefreshed, AllRetired;
    var k := PassStops(c, s, reports, now, plan);
  }

  lemma PassKeeps(w: World, p: nat, q: Program, reports: map<string, Report>, plan: PassPlan, now: int, told: Outcome,
                  x: World)
    requires Inv(w) && p in w.programs && w.programs[p] == q && PassStep(w, p, q, reports, plan, now, told, x)
    ensures Inv(x) && Grows(w, x) && MachinesGrow(w, x)
  {
    hide Inv, PassStep, Grows, MachinesGrow;
    assert q.PassLoaded? by { PassIsLoaded(w, p, q, reports, plan, now, told, x); }
    if plan.Release? {
      ReleaseKeeps(w, p, q, reports, plan, now, told, x);
    } else {
      KeepPassKeeps(w, p, q, reports, plan, now, told, x);
    }
  }

  lemma PassIsLoaded(w: World, p: nat, q: Program, reports: map<string, Report>, plan: PassPlan, now: int,
                     told: Outcome, x: World)
    requires PassStep(w, p, q, reports, plan, now, told, x)
    ensures q.PassLoaded?
  {
    hide IsPass, AfterForget, AfterSave, Swap, ForgetOutcome;
  }

  lemma KeepPassKeeps(w: World, p: nat, q: Program, reports: map<string, Report>, plan: PassPlan, now: int,
                      told: Outcome, x: World)
    requires Inv(w) && p in w.programs && w.programs[p] == q && q.PassLoaded? && plan.Keep?
    requires PassStep(w, p, q, reports, plan, now, told, x)
    ensures Inv(x) && Grows(w, x) && MachinesGrow(w, x)
  {
    hide Inv, StoreInv, MachineInv, ProgramOk, SnapOk, AllRefreshed, AllRetired, Recorded, Saved, Swap, AfterSave,
         IsPass, Grows, MachinesGrow, Expired, PassStep;
    KeepIs(w, p, q, reports, plan, now, told, x);
    if plan.changed && Swap(w.store, plan.next, q.snap.revision).Committed? {
      KeepSaves(w, p, q, reports, plan, now, told, x);
    } else {
      ProgramIsOk(w, p);
      PassIsOk(w, q);
      SaveIs(w, plan.next, q.snap.revision);
      QuietIsOk(w, q, x.programs[p], reports);
      AdvanceKeeps(w, x, p, x.programs[p]);
    }
  }

  lemma KeepSaves(w: World, p: nat, q: Program, reports: map<string, Report>, plan: PassPlan, now: int, told: Outcome,
                  x: World)
    requires Inv(w) && p in w.programs && w.programs[p] == q && q.PassLoaded? && plan.Keep?
    requires PassStep(w, p, q, reports, plan, now, told, x)
    requires plan.changed && Swap(w.store, plan.next, q.snap.revision).Committed?
    ensures Inv(x) && Grows(w, x) && MachinesGrow(w, x)
  {
    hide Inv, StoreInv, MachineInv, ProgramOk, SnapOk, AllRefreshed, AllRetired, Recorded, Saved, Swap, AfterSave,
         IsPass, Grows, MachinesGrow, Expired, PassStep;
    ProgramIsOk(w, p);
    PassIsOk(w, q);
    KeepIs(w, p, q, reports, plan, now, told, x);
    SaveIs(w, plan.next, q.snap.revision);
    SwapNeedsCurrent(w, q.snap, plan.next);
    PassDrafts(q.c, q.snap, reports, now, plan);
    KeepKeeps(w, p, q, reports, plan.next, now, x);
  }

  /** A pass that releases nothing: what it leaves of the world, and how it goes on. */
  lemma KeepIs(w: World, p: nat, q: Program, reports: map<string, Report>, plan: PassPlan, now: int, told: Outcome,
               x: World)
    requires PassStep(w, p, q, reports, plan, now, told, x) && plan.Keep?
    ensures q.PassLoaded? && IsPass(q.c, q.snap, reports, now, plan) && p in x.programs
    ensures x == Resumed(if plan.changed then AfterSave(w, plan.next, q.snap.revision) else w, p, x.programs[p])
    ensures var r := x.programs[p];
      || r.Done? || r.PassBegin?
      || r == if plan.changed && Swap(w.store, plan.next, q.snap.revision).Committed? then
                Sweeping(Sweep(q.c, q.left, plan.next.(revision := q.snap.revision + 1), reports, 0))
              else Sweeping(Sweep(q.c, q.left, q.snap, reports, 0))
  {
    hide IsPass, AfterSave, Swap;
    assert AfterSave(w, plan.next, q.snap.revision).programs == w.programs by {
      SaveKeepsPrograms(w, plan.next, q.snap.revision);
    }
  }

  lemma SaveKeepsPrograms(w: World, d: Registry, previous: int)
    ensures AfterSave(w, d, previous).programs == w.programs
  {
  }

  lemma QuietIsOk(w: World, q: Program, r: Program, reports: map<string, Report>)
    requires q.PassLoaded? && SnapOk(w, q.snap)
    requires r.Done? || r.PassBegin? || r == Sweeping(Sweep(q.c, q.left, q.snap, reports, 0))
    ensures ProgramOk(w, r)
  {
    hide SnapOk;
  }

  lemma SwapNeedsCurrent(w: World, s: Registry, d: Registry)
    requires SnapOk(w, s) && Swap(w.store, d, s.revision).Committed?
    ensures s == w.store.registry
  {
  }

  lemma ForgetNeedsCurrent(w: World, s: Registry, d: Registry, id: string)
    requires SnapOk(w, s) && ForgetOutcome(w.store, d, s.revision, id).Committed?
    ensures s == w.store.registry
  {
  }

  lemma ReleaseStays(w: World, p: nat, q: Program, reports: map<string, Report>, plan: PassPlan, now: int,
                     told: Outcome, x: World)
    requires PassStep(w, p, q, reports, plan, now, told, x) && plan.Release?
    ensures p in x.programs && (x.programs[p].Done? || x.programs[p].PassBegin?)
    ensures x == Resumed(AfterForget(w, plan.next, q.snap.revision, plan.id), p, x.programs[p])
  {
    hide IsPass, ForgetOutcome, AfterForget;
    assert AfterForget(w, plan.next, q.snap.revision, plan.id).programs == w.programs by {
      ForgetKeepsPrograms(w, plan.next, q.snap.revision, plan.id);
    }
  }

  lemma ForgetKeepsPrograms(w: World, d: Registry, previous: int, id: string)
    ensures AfterForget(w, d, previous, id).programs == w.programs
  {
  }

  /** A release of one server from the current document, edited where its records stand. */
  lemma ReleaseStep(w: World, x: World, e: Registry, k: nat, p: nat, q: Program)
    requires Inv(w) && EditsWith(w, x, e) && e.hosts == w.store.registry.hosts
    requires k < |w.store.registry.servers| == |e.servers|
    requires w.store.registry.deleting || w.store.registry.servers[k].desired == Deleted
    requires x == Resumed(w.(store := Forgotten(w.store, WithoutServer(e, k), e.servers[k].id),
                             book := Recorded(w.book, WithoutServer(e, k))), p, q)
    requires StoreInv(x) && Grows(w, x) && MachineInv(x) ==> ProgramOk(x, q)
    ensures Inv(x) && Grows(w, x) && MachinesGrow(w, x)
  {
    hide Inv, StoreInv, MachineInv, Grows, MachinesGrow, ProgramOk, EditsWith, Recorded, Succeeds, WithoutServer,
         Instances, HostIds, Commits, Forgotten;
    StoreAndMachines(w);
    ReleasedPart(w, x, e, k);
    ReleaseSucceeds(w, x, e, k);
    ForgetCommits(w, x, WithoutServer(e, k), e.servers[k].id);
    CommitStep(w, x, WithoutServer(e, k), {e.servers[k].id}, {}, p, q);
  }

  lemma ForgetCommits(w: World, x: World, d: Registry, id: string)
    requires x.store == Forgotten(w.store, d, id) && x.book == Recorded(w.book, d) && w.minted <= x.minted
    ensures Commits(w, x, d, {id})
  {
    hide Recorded;
  }

  lemma ReleasedPart(w: World, x: World, e: Registry, k: nat)
    requires MachineInv(w) && k < |e.servers| && e.hosts == w.store.registry.hosts
    ensures Instances(w.machines, WithoutServer(e, k)) && HostIds(w.store.registry) - {} <= HostIds(WithoutServer(e, k))
  {
  }

  lemma ReleaseKeeps(w: World, p: nat, q: Program, reports: map<string, Report>, plan: PassPlan, now: int,
                     told: Outcome, x: World)
    requires Inv(w) && p in w.programs && w.programs[p] == q && q.PassLoaded? && plan.Release?
    requires PassStep(w, p, q, reports, plan, now, told, x)
    ensures Inv(x) && Grows(w, x) && MachinesGrow(w, x)
  {
    hide Inv, PassStep, ProgramOk, Recorded, Forgotten, AfterForget, ForgetOutcome, Grows, MachinesGrow;
    ReleaseStays(w, p, q, reports, plan, now, told, x);
    IdleIsOk(w, x.programs[p]);
    if ForgetOutcome(w.store, plan.next, q.snap.revision, plan.id).Committed? {
      ReleaseCommits(w, p, q, reports, plan, now, told, x);
    } else {
      ForgetIs(w, plan.next, q.snap.revision, plan.id);
      AdvanceKeeps(w, x, p, x.programs[p]);
    }
  }

  lemma ForgetIs(w: World, d: Registry, previous: int, id: string)
    ensures AfterForget(w, d, previous, id)
         == if ForgetOutcome(w.store, d, previous, id).Committed? then
              w.(store := Forgotten(w.store, d, id), book := Recorded(w.book, d))
            else w
  {
    hide ForgetOutcome, Forgotten, Recorded;
  }

  lemma SaveIs(w: World, d: Registry, previous: int)
    ensures AfterSave(w, d, previous)
         == if Swap(w.store, d, previous).Committed? then w.(store := Saved(w.store, d), book := Recorded(w.book, d))
            else w
  {
    hide Swap, Saved, Recorded;
  }

  lemma ReleaseCommits(w: World, p: nat, q: Program, reports: map<string, Report>, plan: PassPlan, now: int,
                       told: Outcome, x: World)
    requires Inv(w) && p in w.programs && w.programs[p] == q && q.PassLoaded? && plan.Release?
    requires PassStep(w, p, q, reports, plan, now, told, x)
    requires ForgetOutcome(w.store, plan.next, q.snap.revision, plan.id).Committed?
    ensures Inv(x) && Grows(w, x) && MachinesGrow(w, x)
  {
    hide Inv, StoreInv, MachineInv, PassStep, ProgramOk, SnapOk, Recorded, Forgotten, AfterForget, ForgetOutcome,
         Grows, MachinesGrow, WithoutServer, EditsWith;
    ReleaseStays(w, p, q, reports, plan, now, told, x);
    IdleIsOk(x, x.programs[p]);
    ProgramIsOk(w, p);
    PassIsOk(w, q);
    ForgetNeedsCurrent(w, q.snap, plan.next, plan.id);
    StoreAndMachines(w);
    var e, k := ReleaseStops(w, p, q, reports, plan, now, told, x);
    ForgetIs(w, plan.next, q.snap.revision, plan.id);
    ReleaseStep(w, x, e, k, p, x.programs[p]);
  }

  lemma PassIsOk(w: World, q: Program)
    requires q.PassLoaded? && ProgramOk(w, q)
    ensures SnapOk(w, q.snap)
  {
  }

  /** An acknowledged removal leaves a partly refreshed document without its server. */
  lemma ReleaseStops(w: World, p: nat, q: Program, reports: map<string, Report>, plan: PassPlan, now: int,
                     told: Outcome, x: World)
    returns (e: Registry, k: nat)
    requires StoreInv(w) && PassStep(w, p, q, reports, plan, now, told, x) && plan.Release?
        && q.snap == w.store.registry
    ensures k < |w.store.registry.servers| == |e.servers| && w.store.registry.servers[k].desired == Deleted
    ensures e.hosts == w.store.registry.hosts && EditsWith(w, x, e)
    ensures plan == Release(WithoutServer(e, k), e.servers[k].id)
  {
    hide StoreInv, IsPass, AllRefreshed, AfterForget, ForgetOutcome, Partly, WithoutServer, EditsWith;
    k := PassStops(q.c, q.snap, reports, now, plan);
    e := Partly(q.snap, reports, false, now, k);
    PartlyReleased(q.snap, reports, now, k);
    PartlyEdits(w, x, reports, now, k);
  }

  // -- Retirement ---------------------------------------------------------------------------------

  lemma RoundDropsServer(s: Registry, id: string, plan: ForgetPlan) returns (k: nat)
    requires IsForgetRound(s, id, plan) && plan.DropServer?
    ensures k < |s.servers| && s.servers[k].host == id && (s.deleting || s.servers[k].desired == Deleted)
    ensures plan == DropServer(WithoutServer(s, k), s.servers[k].id)
  {
    k :| 0 <= k < |s.servers| && s.servers[k].host == id
         && (forall j | 0 <= j < k :: s.servers[j].host != id)
         && (if !s.deleting && s.servers[k].desired != Deleted then plan == StillHolds
             else plan == DropServer(s.(servers := s.servers[..k] + s.servers[k + 1..]), s.servers[k].id));
  }

  lemma RoundDropsHost(s: Registry, id: string, plan: ForgetPlan) returns (k: nat)
    requires IsForgetRound(s, id, plan) && plan.DropHost?
    ensures k < |s.hosts| && s.hosts[k].id == id && plan == DropHost(WithoutHost(s, k))
    ensures forall v | v in s.servers :: v.host != id
    ensures forall h | h in s.hosts && h.id == id :: h.retiring
  {
    k :| 0 <= k < |s.hosts| && s.hosts[k].id == id
         && plan == DropHost(s.(hosts := s.hosts[..k] + s.hosts[k + 1..]));
  }

  lemma DropServerKeeps(w: World, p: nat, q: Program, k: nat, x: World)
    requires Inv(w) && q.Emptying? && ProgramOk(w, q) && k < |w.store.registry.servers|
    requires w.store.registry.deleting || w.store.registry.servers[k].desired == Deleted
    requires p in x.programs
    requires x.programs[p].Done? || x.programs[p].PassBegin? || x.programs[p] == Emptying(q.s, None)
    requires var next := WithoutServer(w.store.registry, k);
      x == Resumed(w.(store := Forgotten(w.store, next, w.store.registry.servers[k].id),
                      book := Recorded(w.book, next)),
             p, x.programs[p])
    ensures Inv(x) && Grows(w, x) && MachinesGrow(w, x)
  {
    hide Inv, StoreInv, MachineInv, SnapOk, Recorded, ProgramOk, WithoutServer, EditsWith, Grows, MachinesGrow,
         Forgotten;
    StoreAndMachines(w);
    SameEdits(w, x);
    EmptiedStays(w, x, q);
    ReleaseStep(w, x, w.store.registry, k, p, x.programs[p]);
  }

  lemma ForgetServerKeeps(w: World, p: nat, q: Program, plan: ForgetPlan, told: Outcome, x: World)
    requires Inv(w) && p in w.programs && w.programs[p] == q && ForgetStep(w, p, q, plan, told, x)
    requires plan.DropServer? && ForgetOutcome(w.store, plan.next, q.read.value.revision, plan.id).Committed?
    ensures Inv(x) && Grows(w, x) && MachinesGrow(w, x)
  {
    hide StoreInv, MachineInv, SnapOk, IsForgetRound, Recorded, ForgetOutcome, Forgotten;
    var s := q.read.value;
    assert SnapOk(w, s);
    ForgetNeedsCurrent(w, s, plan.next, plan.id);
    var k := RoundDropsServer(s, q.s.snap.hosts[q.s.i].id, plan);
    DropServerKeeps(w, p, q, k, x);
  }

  lemma ForgetHostKeeps(w: World, p: nat, q: Program, plan: ForgetPlan, told: Outcome, x: World)
    requires Inv(w) && p in w.programs && w.programs[p] == q && ForgetStep(w, p, q, plan, told, x)
    requires plan.DropHost? && Swap(w.store, plan.next, q.read.value.revision).Committed?
    ensures Inv(x) && Grows(w, x) && MachinesGrow(w, x)
  {
    hide StoreInv, MachineInv, SnapOk, IsForgetRound, Recorded, Swap, Saved;
    var s := q.read.value;
    assert SnapOk(w, s);
    SwapNeedsCurrent(w, s, plan.next);
    var k := RoundDropsHost(s, q.s.snap.hosts[q.s.i].id, plan);
    DropKeeps(w, p, q, k, x);
  }

  /** A round that commits nothing leaves a program that may go on. */
  lemma ForgetStays(w: World, p: nat, q: Program, plan: ForgetPlan, told: Outcome, x: World)
    requires ProgramOk(w, q) && ForgetStep(w, p, q, plan, told, x)
    requires plan.DropServer? ==> !ForgetOutcome(w.store, plan.next, q.read.value.revision, plan.id).Committed?
    requires plan.DropHost? ==> !Swap(w.store, plan.next, q.read.value.revision).Committed?
    ensures x == Resumed(w, p, x.programs[p]) && ProgramOk(w, x.programs[p])
  {
    hide SnapOk, IsForgetRound, Recorded, ForgetOutcome, Swap, Saved, Forgotten;
  }

  lemma ForgetKeeps(w: World, p: nat, q: Program, plan: ForgetPlan, told: Outcome, x: World)
    requires Inv(w) && p in w.programs && w.programs[p] == q && ForgetStep(w, p, q, plan, told, x)
    ensures Inv(x) && Grows(w, x) && MachinesGrow(w, x)
  {
    assert q.Emptying? && q.read.Some?;
    hide StoreInv, MachineInv, ProgramOk, ForgetStep, Grows, MachinesGrow;
    if plan.DropServer? && ForgetOutcome(w.store, plan.next, q.read.value.revision, plan.id).Committed? {
      ForgetServerKeeps(w, p, q, plan, told, x);
    } else if plan.DropHost? && Swap(w.store, plan.next, q.read.value.revision).Committed? {
      ForgetHostKeeps(w, p, q, plan, told, x);
    } else {
      ForgetStays(w, p, q, plan, told, x);
      AdvanceKeeps(w, x, p, x.programs[p]);
    }
  }

  lemma SameEdits(w: World, x: World)
    requires StoreInv(w)
    ensures EditsWith(w, x, w.store.registry)
  {
    hide Known, Newest, BookIsConsistent, NothingResurrected, WithinCapacity;
    assert forall i | 0 <= i < |w.store.registry.servers| :: w.store.registry.servers[i] in w.store.registry.servers;
  }

  lemma EmptiedStays(w: World, x: World, q: Program)
    requires ProgramOk(w, q) && q.Emptying? && x.machines == w.machines
    ensures Grows(w, x) ==> ProgramOk(x, Emptying(q.s, None)) && ProgramOk(x, NextHost(q.s))
    ensures forall d: Program | d.Done? || d.PassBegin? :: ProgramOk(x, d)
  {
    hide SnapOk, Grows;
    if Grows(w, x) {
      SnapStays(w, x, q.s.snap);
    }
  }

  /** The record goes only when its token is used up and no server is left on it in the same document. */
  lemma DropKeeps(w: World, p: nat, q: Program, k: nat, x: World)
    requires Inv(w) && q.Emptying? && ProgramOk(w, q)
    requires AtHost(q.s) && k < |w.store.registry.hosts| && w.store.registry.hosts[k].id == q.s.snap.hosts[q.s.i].id
    requires w.store.registry.hosts[k].retiring
    requires forall v | v in w.store.registry.servers :: v.host != w.store.registry.hosts[k].id
    requires p in x.programs && (x.programs[p].Done? || x.programs[p].PassBegin? || x.programs[p] == NextHost(q.s))
    requires var next := WithoutHost(w.store.registry, k);
      x == Resumed(w.(store := Saved(w.store, next), book := Recorded(w.book, next)), p, x.programs[p])
    ensures Inv(x) && Grows(w, x) && MachinesGrow(w, x)
  {
    hide StoreInv, MachineInv, SnapOk, Recorded, ProgramOk, WithoutHost, Succeeds, Instances, HostIds;
    var s := w.store.registry;
    var id := s.hosts[k].id;
    DropHostSucceeds(w, x, k);
    WithoutHostInstances(w, k);
    EmptyDifference(w.store.reports);
    EmptyingIsBurned(w, q);
    CommitStep(w, x, WithoutHost(s, k), {}, {id}, p, x.programs[p]) by { EmptiedStays(w, x, q); }
  }

  lemma EmptyingIsBurned(w: World, q: Program)
    requires q.Emptying? && ProgramOk(w, q)
    ensures AtHost(q.s) && q.s.snap.hosts[q.s.i].id in w.book.hosts
    ensures Burned(w.machines, w.book.hosts[q.s.snap.hosts[q.s.i].id].token)
  {
    assert q.s.snap.hosts[q.s.i] in q.s.snap.hosts;
  }

  lemma WithoutHostInstances(w: World, k: nat)
    requires StoreInv(w) && MachineInv(w) && k < |w.store.registry.hosts|
    requires forall v | v in w.store.registry.servers :: v.host != w.store.registry.hosts[k].id
    ensures Instances(w.machines, WithoutHost(w.store.registry, k))
    ensures HostIds(w.store.registry) - {w.store.registry.hosts[k].id} <= HostIds(WithoutHost(w.store.registry, k))
  {
    hide Known, Newest, BookIsConsistent, NothingResurrected, NoOrphan, RemovedHostsAreBurned;
    RemovedHosts(w.store.registry.hosts, k);
    ReleasedHostIsSound(w.store.registry, k);
  }

  // -- Notes about machines -----------------------------------------------------------------------

  lemma NoteChoosesHost(s: Registry, id: string, note: HostNote, next: Option<Registry>) returns (k: nat)
    requires IsNoted(s, id, note, next) && next.Some?
    ensures k < |s.hosts| && s.hosts[k].id == id
    ensures next == Some(s.(hosts := s.hosts[k := Noted(s.hosts[k], note)]))
  {
    k :| 0 <= k < |s.hosts| && s.hosts[k].id == id && next == Some(s.(hosts := s.hosts[k := Noted(s.hosts[k], note)]));
  }

  lemma NoteCommits(w: World, p: nat, q: Program, next: Option<Registry>, told: Outcome, x: World)
    requires Inv(w) && p in w.programs && w.programs[p] == q && NoteStep(w, p, q, next, told, x)
    requires next.Some? && Swap(w.store, next.value, q.read.value.revision).Committed?
    ensures Inv(x) && Grows(w, x) && MachinesGrow(w, x)
  {
    hide StoreInv, MachineInv, SnapOk, IsNoted, Recorded, EditsWith, Instances, Swap, ProgramOk, AfterNote,
         MachinesGrow, Inv, Saved, HostIds, Noted;
    var s := q.read.value;
    ProgramIsOk(w, p);
    StoreAndMachines(w);
    NoteGoesOn(w, q, told);
    SwapNeedsCurrent(w, s, next.value);
    var k := NoteChoosesHost(s, q.s.snap.hosts[q.s.i].id, q.note, next);
    NoteEdits(w, x, q, k, next.value);
    NoteInstances(w, q, k, next.value);
    SameMachinesGrow(w, x);
    EditStep(w, x, next.value, p, x.programs[p]) by {
      if Grows(w, x) { ProgramStays(w, x, AfterNote(q, told)); }
    }
  }

  lemma NoteGoesOn(w: World, q: Program, told: Outcome)
    requires ProgramOk(w, q) && q.Noting? && q.read.Some?
    ensures SnapOk(w, q.read.value) && ProgramOk(w, AfterNote(q, told))
  {
    hide SnapOk;
  }

  lemma NoteStays(w: World, p: nat, q: Program, next: Option<Registry>, told: Outcome, x: World)
    requires ProgramOk(w, q) && NoteStep(w, p, q, next, told, x)
    requires next.Some? ==> !Swap(w.store, next.value, q.read.value.revision).Committed?
    ensures x == Resumed(w, p, x.programs[p]) && ProgramOk(w, x.programs[p])
  {
    hide SnapOk, IsNoted, Recorded, Swap, Saved;
  }

  lemma NoteKeeps(w: World, p: nat, q: Program, next: Option<Registry>, told: Outcome, x: World)
    requires Inv(w) && p in w.programs && w.programs[p] == q && NoteStep(w, p, q, next, told, x)
    ensures Inv(x) && Grows(w, x) && MachinesGrow(w, x)
  {
    assert q.Noting? && q.read.Some?;
    hide StoreInv, MachineInv, ProgramOk, NoteStep, Grows, MachinesGrow;
    if next.Some? && Swap(w.store, next.value, q.read.value.revision).Committed? {
      NoteCommits(w, p, q, next, told, x);
    } else {
      NoteStays(w, p, q, next, told, x);
      AdvanceKeeps(w, x, p, x.programs[p]);
    }
  }

  lemma NoteEdits(w: World, x: World, q: Program, k: nat, d: Registry)
    requires StoreInv(w) && q.Noting? && k < |w.store.registry.hosts|
    requires d == w.store.registry.(hosts := w.store.registry.hosts[k := Noted(w.store.registry.hosts[k], q.note)])
    ensures EditsWith(w, x, d)
  {
    hide Known, Newest, BookIsConsistent, NothingResurrected, WithinCapacity;
    var s := w.store.registry;
    forall i | 0 <= i < |s.servers| ensures ServerEdit(s.servers[i], d.servers[i]) {
      assert s.servers[i] in s.servers;
    }
    forall h, v | h in d.hosts && v in d.servers && h.retiring && v.host == h.id
      ensures d.deleting || v.desired == Deleted
    {
      var i :| 0 <= i < |d.hosts| && d.hosts[i] == h;
      assert s.hosts[i] in s.hosts && s.hosts[i].retiring && v.host == s.hosts[i].id;
    }
  }

  /** The noted instance is the one the provider made for this host. */
  lemma NoteInstances(w: World, q: Program, k: nat, d: Registry)
    requires StoreInv(w) && MachineInv(w) && ProgramOk(w, q) && q.Noting? && k < |w.store.registry.hosts|
    requires w.store.registry.hosts[k].id == q.s.snap.hosts[q.s.i].id
    requires d == w.store.registry.(hosts := w.store.registry.hosts[k := Noted(w.store.registry.hosts[k], q.note)])
    ensures Instances(w.machines, d)
  {
    hide Sound, Newest, BookIsConsistent, NothingResurrected, NoOrphan, RemovedHostsAreBurned;
    var s := w.store.registry;
    assert s.hosts[k] in s.hosts && q.s.snap.hosts[q.s.i] in q.s.snap.hosts;
    assert BirthOf(s.hosts[k]) == BirthOf(q.s.snap.hosts[q.s.i]);
    forall h | h in d.hosts && h.instanceId != ""
      ensures h.launchToken in w.machines && w.machines[h.launchToken].instanceId == h.instanceId
    {
      var i :| 0 <= i < |d.hosts| && d.hosts[i] == h;
      assert s.hosts[i] in s.hosts;
    }
  }

  // -- Machine calls ------------------------------------------------------------------------------

  lemma VisitKeeps(w: World, p: nat, now: int, x: World)
    requires Inv(w) && p in w.programs && w.programs[p].Sweeping?
    requires x == Resumed(w, p, VisitHost(w.programs[p].s, now))
    ensures Inv(x) && Grows(w, x) && MachinesGrow(w, x)
  {
    hide Inv, ProgramOk, VisitHost, Grows, MachinesGrow;
    ProgramIsOk(w, p);
    VisitIsOk(w, w.programs[p], now);
    AdvanceKeeps(w, x, p, x.programs[p]);
  }

  lemma VisitIsOk(w: World, q: Program, now: int)
    requires q.Sweeping? && ProgramOk(w, q)
    ensures ProgramOk(w, VisitHost(q.s, now))
  {
    hide SnapOk, NeedsMachine, HasGivenUp;
  }

  /** A recorded instance that cannot be found any more has been terminated. */
  lemma AbsentIsBurned(w: World, s: Registry, h: Host)
    requires SnapOk(w, s) && h in s.hosts && h.instanceId != "" && LookupAnswers(w.machines, h, Absent)
    ensures Burned(w.machines, h.launchToken)
  {
    hide Sound, Known;
  }

  lemma PresentIsOwn(w: World, h: Host, found: Lookup)
    requires LookupAnswers(w.machines, h, found) && found.Present?
    ensures MachineIs(w, h, found.instanceId)
    ensures found.state == Terminated ==> Burned(w.machines, h.launchToken)
  {
  }

  lemma WakeLookIsOk(w: World, q: Program, found: Lookup)
    requires ProgramOk(w, q) && WakePoint(q) == Some(LookUp) && SweepOk(w, SweepOf(q).value)
    requires LookupAnswers(w.machines, SweepOf(q).value.snap.hosts[SweepOf(q).value.i], found)
    ensures ProgramOk(w, AfterWakeLook(q, SweepOf(q).value.snap.hosts[SweepOf(q).value.i], found))
    ensures ProgramOk(w, GivenUp(q))
  {
    hide SnapOk, LookupAnswers;
    var h := SweepOf(q).value.snap.hosts[SweepOf(q).value.i];
    if found.Present? {
      PresentIsOwn(w, h, found);
    }
  }

  lemma DeleteLookIsOk(w: World, s: Sweep, first: bool, found: Lookup)
    requires SweepOk(w, s) && s.snap.hosts[s.i].retiring && LookupAnswers(w.machines, s.snap.hosts[s.i], found)
    ensures ProgramOk(w, AfterDeleteLook(s, first, s.snap.hosts[s.i], found))
  {
    hide SnapOk, LookupAnswers;
    var h := s.snap.hosts[s.i];
    if found.Present? {
      PresentIsOwn(w, h, found);
    } else if h.instanceId != "" {
      assert h in s.snap.hosts;
      AbsentIsBurned(w, s.snap, h);
    }
  }

  lemma ProgramSweepIsOk(w: World, q: Program)
    requires ProgramOk(w, q) && SweepOf(q).Some?
    ensures SweepOk(w, SweepOf(q).value) && (q.Deleting? ==> q.s.snap.hosts[q.s.i].retiring)
  {
  }

  /** A lookup that leads to the disk check, or names an instance, speaks about the host's own machine. */
  lemma LookIsOk(w: World, q: Program, found: Lookup)
    requires ProgramOk(w, q) && Looks(q) && AtHost(SweepOf(q).value)
    requires LookupAnswers(w.machines, SweepOf(q).value.snap.hosts[SweepOf(q).value.i], found)
    ensures ProgramOk(w, AfterLook(q, SweepOf(q).value.snap.hosts[SweepOf(q).value.i], found))
  {
    hide SnapOk, LookupAnswers, AfterWakeLook, AfterDeleteLook, WakeOk, DeleteOk;
    ProgramSweepIsOk(w, q);
    if WakePoint(q) == Some(LookUp) {
      WakeLookIsOk(w, q, found);
    } else if q.Deleting? {
      DeleteLookIsOk(w, q.s, q.del.FirstLook?, found);
    }
  }

  lemma LookKeeps(w: World, p: nat, q: Program, found: Lookup, x: World)
    requires Inv(w) && p in w.programs && w.programs[p] == q && LookStep(w, p, q, found, x)
    ensures Inv(x) && Grows(w, x) && MachinesGrow(w, x)
  {
    hide StoreInv, MachineInv, ProgramOk, AfterLook, LookupAnswers;
    LookIsOk(w, q, found);
    AdvanceKeeps(w, x, p, x.programs[p]);
  }

  lemma SendInv(w: World, s: Registry, h: Host)
    requires MachineInv(w) && SnapOk(w, s) && h in s.hosts
    ensures MachineInv(w.(requests := w.requests + {Launch(h.launchToken, h.id)}))
  {
    hide Sound, Instances;
  }

  lemma SentIsShared(w: World, s: Registry, h: Host, x: World)
    requires StoreInv(w) && MachineInv(w) && SnapOk(w, s) && h in s.hosts
    requires x == w.(requests := w.requests + {Launch(h.launchToken, h.id)}, programs := x.programs)
    ensures StoreInv(x) && MachineInv(x) && Grows(w, x) && MachinesGrow(w, x)
  {
    hide StoreInv, MachineInv, SnapOk, Grows, MachinesGrow;
    SendInv(w, s, h);
    SameStore(w, x);
    MachineInvIgnoresPrograms(w.(requests := x.requests), x);
  }

  lemma SendKeeps(w: World, p: nat, q: Program, x: World)
    requires Inv(w) && p in w.programs && w.programs[p] == q && SendStep(w, p, q, x)
    ensures Inv(x) && Grows(w, x) && MachinesGrow(w, x)
  {
    hide Inv, StoreInv, MachineInv, ProgramOk, SnapOk, Grows, MachinesGrow, AtWake, WakePoint;
    assert SweepOf(q).Some? by { WakeHasSweep(q); }
    var s := SweepOf(q).value;
    ProgramIsOk(w, p);
    StoreAndMachines(w);
    ProgramSweepIsOk(w, q);
    SentIsShared(w, s.snap, s.snap.hosts[s.i], x);
    AwaitIsOk(w, q);
    ProgramStays(w, x, AtWake(q, Await));
    ResumeKeeps(w, x, p, AtWake(q, Await));
  }

  lemma WakeHasSweep(q: Program)
    requires WakePoint(q).Some?
    ensures SweepOf(q).Some?
  {
  }

  lemma AwaitIsOk(w: World, q: Program)
    requires ProgramOk(w, q) && WakePoint(q).Some?
    ensures ProgramOk(w, AtWake(q, Await))
  {
    hide SnapOk;
  }

  lemma SameStore(w: World, x: World)
    requires StoreInv(w) && x == w.(requests := x.requests, programs := x.programs)
    ensures StoreInv(x) && Grows(w, x) && MachinesGrow(w, x)
  {
    hide Sound, Known, Newest, BookIsConsistent, NothingResurrected;
  }

  lemma MachineInvIgnoresPrograms(y: World, x: World)
    requires MachineInv(y) && x == y.(programs := x.programs)
    ensures MachineInv(x)
  {
  }

  lemma WokenIsOk(w: World, q: Program, instanceId: string)
    requires ProgramOk(w, q) && SweepOf(q).Some? && WakePoint(q).Some? && SweepOk(w, SweepOf(q).value)
    requires MachineIs(w, SweepOf(q).value.snap.hosts[SweepOf(q).value.i], instanceId)
    ensures ProgramOk(w, Woken(q, instanceId))
  {
    hide SnapOk;
  }

  lemma AnswerKeeps(w: World, p: nat, q: Program, x: World)
    requires Inv(w) && p in w.programs && w.programs[p] == q && AnswerStep(w, p, q, x)
    ensures Inv(x) && Grows(w, x) && MachinesGrow(w, x)
  {
    hide StoreInv, MachineInv, SnapOk, Woken;
    ProgramSweepIsOk(w, q);
    WokenIsOk(w, q, w.machines[SweepOf(q).value.snap.hosts[SweepOf(q).value.i].launchToken].instanceId);
    AdvanceKeeps(w, x, p, x.programs[p]);
  }

  lemma GiveUpKeeps(w: World, p: nat, x: World)
    requires Inv(w) && p in w.programs && SweepOf(w.programs[p]).Some? && x == Resumed(w, p, GivenUp(w.programs[p]))
    ensures Inv(x) && Grows(w, x) && MachinesGrow(w, x)
  {
    hide StoreInv, MachineInv, SnapOk;
    assert ProgramOk(w, w.programs[p]);
    AdvanceKeeps(w, x, p, x.programs[p]);
  }

  /** Machines change state, but nothing about who they are. */
  lemma MachinesChange(w: World, x: World)
    requires Inv(w) && x == w.(machines := x.machines, programs := x.programs)
    requires x.machines.Keys == w.machines.Keys && MachinesGrow(w, x)
    ensures StoreInv(x) && MachineInv(x) && Grows(w, x)
  {
    hide Sound, Known, Newest, BookIsConsistent, NothingResurrected;
  }

  lemma CalledIsOk(w: World, q: Program)
    requires ProgramOk(w, q) && Calls(q)
    ensures ProgramOk(w, AfterCall(q))
  {
    hide SnapOk;
  }

  lemma CallKeeps(w: World, p: nat, q: Program, taken: bool, x: World)
    requires Inv(w) && p in w.programs && w.programs[p] == q && CallStep(w, p, q, taken, x)
    ensures Inv(x) && Grows(w, x) && MachinesGrow(w, x)
  {
    hide Inv, StoreInv, MachineInv, ProgramOk, Grows, AfterCall, Calls, MachinesGrow;
    ProgramIsOk(w, p);
    CalledIsOk(w, q);
    CallGrowsMachines(w, q, taken, x);
    MachinesChange(w, x);
    ProgramStays(w, x, AfterCall(q));
    ResumeKeeps(w, x, p, AfterCall(q));
  }

  lemma CallGrowsMachines(w: World, q: Program, taken: bool, x: World)
    requires x.machines == if taken then map t | t in w.machines :: Acted(w.machines[t], q) else w.machines
    ensures x.machines.Keys == w.machines.Keys && MachinesGrow(w, x)
  {
    hide Acted;
    forall t | t in w.machines ensures SameMachine(w.machines[t], Acted(w.machines[t], q)) {
      ActedIsSame(w.machines[t], q);
    }
  }

  /** A call leaves a machine what it is, and does not bring it back. */
  predicate SameMachine(m: Machine, n: Machine) {
    n.instanceId == m.instanceId && n.hostTag == m.hostTag && (m.state == Terminated ==> n.state == Terminated)
  }

  lemma ActedIsSame(m: Machine, q: Program)
    ensures SameMachine(m, Acted(m, q))
  {
  }

  lemma DisksKeeps(w: World, p: nat, q: Program, none: bool, x: World)
    requires Inv(w) && p in w.programs && w.programs[p] == q && DisksStep(w, p, q, none, x)
    ensures Inv(x) && Grows(w, x) && MachinesGrow(w, x)
  {
    hide Inv, ProgramOk, Grows, MachinesGrow;
    ProgramIsOk(w, p);
    DisksAreOk(w, q);
    AdvanceKeeps(w, x, p, x.programs[p]);
  }

  lemma DisksAreOk(w: World, q: Program)
    requires ProgramOk(w, q) && q.Deleting? && q.del.Disks?
    ensures ProgramOk(w, Emptying(q.s, None)) && ProgramOk(w, NextHost(q.s))
  {
    hide SnapOk;
  }

  lemma OthersStay(w: World, x: World)
    requires Inv(w) && StoreInv(x) && MachineInv(x) && Grows(w, x) && MachinesGrow(w, x) && x.programs == w.programs
    ensures Inv(x) && Grows(w, x) && MachinesGrow(w, x)
  {
    forall k | k in x.programs ensures ProgramOk(x, x.programs[k]) {
      ProgramStays(w, x, w.programs[k]);
    }
  }

  lemma ArrivedIsUnique(machines: map<string, Machine>, token: string, m: Machine)
    requires InstancesAreUnique(machines) && forall t | t in machines :: machines[t].instanceId != m.instanceId
    ensures InstancesAreUnique(machines[token := m])
  {
  }

  lemma ArrivedInv(w: World, l: Launch, instanceId: string, x: World)
    requires MachineInv(w) && ArriveStep(w, l, instanceId, x) && l.token !in w.machines
    ensures MachineInv(x) && MachinesGrow(w, x)
  {
    hide Instances, InstancesAreUnique;
    assert l.host in HostIds(w.store.registry);
    ArrivedIsUnique(w.machines, l.token, Machine(instanceId, l.host, Pending));
    MoreMachines(w, x);
  }

  /** A late launch request finds its host still in the registry, or its token used up. */
  lemma ArriveKeeps(w: World, l: Launch, instanceId: string, x: World)
    requires Inv(w) && ArriveStep(w, l, instanceId, x)
    ensures Inv(x) && Grows(w, x) && MachinesGrow(w, x)
  {
    hide StoreInv, MachineInv, ProgramOk, Grows, MachinesGrow;
    if l.token !in w.machines {
      ArrivedInv(w, l, instanceId, x);
      StoreIgnoresMachines(w, x);
      OthersStay(w, x);
    } else {
      Unchanged(w, x);
    }
  }

  lemma MoreMachines(w: World, x: World)
    requires Instances(w.machines, w.store.registry) && MachinesGrow(w, x) && x.store == w.store
    ensures Instances(x.machines, x.store.registry)
  {
  }

  lemma StoreIgnoresMachines(w: World, x: World)
    requires StoreInv(w) && x == w.(machines := x.machines, programs := x.programs)
    ensures StoreInv(x) && Grows(w, x)
  {
    hide Sound, Known, Newest, BookIsConsistent, NothingResurrected;
  }

  lemma MoveKeeps(w: World, token: string, state: Lifecycle, x: World)
    requires Inv(w) && token in w.machines && MayBecome(w.machines[token].state, state)
    requires x == w.(machines := w.machines[token := w.machines[token].(state := state)])
    ensures Inv(x) && Grows(w, x) && MachinesGrow(w, x)
  {
    hide Inv, StoreInv, MachineInv, Grows, MachinesGrow;
    MoveGrowsMachines(w, token, state, x);
    MachinesChange(w, x);
    OthersStay(w, x);
  }

  lemma MoveGrowsMachines(w: World, token: string, state: Lifecycle, x: World)
    requires token in w.machines && MayBecome(w.machines[token].state, state)
    requires x.machines == w.machines[token := w.machines[token].(state := state)]
    ensures x.machines.Keys == w.machines.Keys && MachinesGrow(w, x)
  {
  }

  // -- Workers ------------------------------------------------------------------------------------

  lemma ReadKeeps(w: World, p: nat, q: Program, x: World)
    requires Inv(w) && p in w.programs && w.programs[p] == q && ReadStep(w, p, q, x)
    ensures Inv(x) && Grows(w, x) && MachinesGrow(w, x)
  {
    hide Inv, ProgramOk, Grows, MachinesGrow;
    ProgramIsOk(w, p);
    ReadIsOk(w, p, q, x);
    AdvanceKeeps(w, x, p, x.programs[p]);
  }

  lemma ReadIsOk(w: World, p: nat, q: Program, x: World)
    requires ProgramOk(w, q) && ReadStep(w, p, q, x)
    ensures p in x.programs && ProgramOk(w, x.programs[p])
  {
    hide SnapOk;
  }

  /** A report speaks for the server that is served, on the worker's own host, about its request of the document. */
  predicate SpeaksFor(turn: Turn, v: Server, host: string) {
    turn.Says? ==> turn.report.id == v.id && turn.report.host == host && turn.report.requestId == v.requestId
  }

  lemma ServeSpeaks(local: Local, setup: Setup, v: Server, host: string, seen: Option<Instance>, now: int)
    ensures SpeaksFor(Serve(local, setup, v, host, seen, now).turn, v, host)
  {
    hide Wellformed, SameSettings, WithDesired, Trimmed;
  }

  lemma AskSpeaks(local: Local, v: Server, host: string, i: Instance, startedAt: int, now: int)
    ensures SpeaksFor(Ask(local, v, host, i, startedAt, now).turn, v, host)
  {
    hide WithRequest;
  }

  lemma RereadSpeaks(local: Local, v: Server, host: string, startedAt: int)
    ensures SpeaksFor(Reread(local, v, host, startedAt), v, host)
  {
  }

  lemma TurnIsOk(w: World, q: Program, turn: Turn)
    requires ProgramOk(w, q) && Serving(q) && SpeaksFor(turn, q.snap.servers[q.i], q.host)
    ensures ProgramOk(w, AfterTurn(q, turn))
  {
    hide SnapOk;
  }

  /** A transaction on a host changes nothing the others share. */
  lemma TransactionKeeps(w: World, p: nat, q: Program, done: Service, x: World)
    requires Inv(w) && p in w.programs && w.programs[p] == q && Serving(q)
    requires Transacts(w, p, q, done, x) && SpeaksFor(done.turn, q.snap.servers[q.i], q.host)
    ensures Inv(x) && Grows(w, x) && MachinesGrow(w, x)
  {
    hide StoreInv, MachineInv, ProgramOk, AppliedAfter, Grows, MachinesGrow, SpeaksFor, AfterTurn;
    TurnIsOk(w, q, done.turn);
    Unchanged(w, x);
    ProgramStays(w, x, x.programs[p]);
    ResumeKeeps(w, x, p, x.programs[p]);
  }

  lemma ServeKeeps(w: World, p: nat, q: Program, setup: Setup, now: int, x: World)
    requires Inv(w) && p in w.programs && w.programs[p] == q && ServeStep(w, p, q, setup, now, x)
    ensures Inv(x) && Grows(w, x) && MachinesGrow(w, x)
  {
    hide Inv, Serve, Transacts, SpeaksFor;
    var v := q.snap.servers[q.i];
    ServeSpeaks(LocalOf(w, q.host), setup, v, q.host, q.seen, now);
    TransactionKeeps(w, p, q, Serve(LocalOf(w, q.host), setup, v, q.host, q.seen, now), x);
  }

  lemma AskKeeps(w: World, p: nat, q: Program, setup: Setup, now: int, x: World)
    requires Inv(w) && p in w.programs && w.programs[p] == q && AskStep(w, p, q, setup, now, x)
    ensures Inv(x) && Grows(w, x) && MachinesGrow(w, x)
  {
    hide Inv, Ask, Transacts, SpeaksFor;
    var v := q.snap.servers[q.i];
    AskSpeaks(LocalOf(w, q.host), v, q.host, q.instance, setup.startedAt, now);
    TransactionKeeps(w, p, q, Ask(LocalOf(w, q.host), v, q.host, q.instance, setup.startedAt, now), x);
  }

  lemma RereadKeeps(w: World, p: nat, q: Program, setup: Setup, x: World)
    requires Inv(w) && p in w.programs && w.programs[p] == q && RereadStep(w, p, q, setup, x)
    ensures Inv(x) && Grows(w, x) && MachinesGrow(w, x)
  {
    hide StoreInv, MachineInv, ProgramOk, Reread, SpeaksFor, AfterTurn;
    var v := q.snap.servers[q.i];
    var turn := Reread(LocalOf(w, q.host), v, q.host, setup.startedAt);
    RereadSpeaks(LocalOf(w, q.host), v, q.host, setup.startedAt);
    TurnIsOk(w, q, turn);
    AdvanceKeeps(w, x, p, AfterTurn(q, turn));
  }

  lemma PublishedReports(w: World, r: Report)
    requires StoreInv(w) && r.id in w.book.servers && w.book.servers[r.id].host == r.host
    ensures NothingResurrected(Published(w.store, r), w.book)
  {
    hide Sound, Known, Newest, BookIsConsistent;
  }

  lemma PublishedStore(w: World, r: Report, x: World)
    requires StoreInv(w) && MachineInv(w) && r.id in w.book.servers && w.book.servers[r.id].host == r.host
    requires x == w.(store := Published(w.store, r), programs := x.programs)
    ensures StoreInv(x) && MachineInv(x) && Grows(w, x) && MachinesGrow(w, x)
  {
    hide Sound, Known, Newest, BookIsConsistent, NothingResurrected, Instances, Burned;
    PublishedReports(w, r);
  }

  lemma WorkerSpeaksForOwn(w: World, q: Program)
    requires q.WorkerSays? && ProgramOk(w, q)
    ensures q.report.id in w.book.servers && w.book.servers[q.report.id].host == q.report.host
    ensures ProgramOk(w, WorkerLoaded(q.host, q.snap, q.i + 1))
  {
    hide Sound, Instances;
    assert q.snap.servers[q.i] in q.snap.servers;
  }

  /** A report is accepted only from the server's own host, and never for a removed server. */
  lemma PublishKeeps(w: World, p: nat, q: Program, x: World)
    requires Inv(w) && p in w.programs && w.programs[p] == q && PublishStep(w, p, q, x)
    ensures Inv(x) && Grows(w, x) && MachinesGrow(w, x)
  {
    hide Inv, StoreInv, MachineInv, ProgramOk, Published, Grows, MachinesGrow;
    ProgramIsOk(w, p);
    StoreAndMachines(w);
    WorkerSpeaksForOwn(w, q);
    PublishedStore(w, q.report, x);
    ProgramStays(w, x, WorkerLoaded(q.host, q.snap, q.i + 1));
    ResumeKeeps(w, x, p, WorkerLoaded(q.host, q.snap, q.i + 1));
  }

  lemma StumbleKeeps(w: World, p: nat, q: Program, reported: Option<int>, x: World)
    requires Inv(w) && p in w.programs && w.programs[p] == q && StumbleStep(w, p, q, reported, x)
    ensures Inv(x) && Grows(w, x) && MachinesGrow(w, x)
  {
    hide Inv, ProgramOk, AfterTurn, Grows, MachinesGrow;
    var turn := if reported.None? then Skips else Says(SetupFailed(q.snap.servers[q.i], q.host, reported.value));
    assert ProgramOk(w, q) by { ProgramIsOk(w, p); }
    TurnIsOk(w, q, turn);
    AdvanceKeeps(w, x, p, AfterTurn(q, turn));
  }

  // -- Every step ---------------------------------------------------------------------------------

  lemma SpawnKeeps(w: World, p: nat, q: Program, x: World)
    requires Inv(w) && MayBegin(w, q) && x == Resumed(w, p, q)
    ensures Inv(x) && Grows(w, x) && MachinesGrow(w, x)
  {
    hide StoreInv, MachineInv;
    AdvanceKeeps(w, x, p, q);
  }

  lemma FailKeeps(w: World, p: nat, x: World)
    requires Inv(w) && x == Resumed(w, p, Done)
    ensures Inv(x) && Grows(w, x) && MachinesGrow(w, x)
  {
    hide StoreInv, MachineInv;
    AdvanceKeeps(w, x, p, Done);
  }

  lemma LocalKeeps(w: World, x: World)
    requires Inv(w) && x == w.(locals := x.locals)
    ensures Inv(x) && Grows(w, x) && MachinesGrow(w, x)
  {
    hide StoreInv, MachineInv, Grows, MachinesGrow;
    Unchanged(w, x);
    OthersStay(w, x);
  }

  lemma SubmissionKeepsInv(w: World, e: Event, x: World)
    requires Inv(w) && Submission(w, e, x)
    ensures Inv(x) && Grows(w, x) && MachinesGrow(w, x)
  {
    hide Inv, Grows, MachinesGrow, CreateStep, ActionStep, TeardownStep, PassStep, ForgetStep, NoteStep;
    match e
    case SubmitCreate(p, seen, chosen, drawn, now, told) =>
      CreateKeeps(w, p, w.programs[p], seen, chosen, drawn, now, told, x);
    case SubmitAction(p, reports, token, now, told) => ActionKeeps(w, p, w.programs[p], reports, token, now, told, x);
    case SubmitTeardown(p) => TeardownKeeps(w, p, w.programs[p], x);
    case SubmitPass(p, reports, plan, now, told) => PassKeeps(w, p, w.programs[p], reports, plan, now, told, x);
    case SubmitForget(p, round, told) => ForgetKeeps(w, p, w.programs[p], round, told, x);
    case SubmitNote(p, next, told) => NoteKeeps(w, p, w.programs[p], next, told, x);
  }

  lemma ProvisionKeepsInv(w: World, e: Event, x: World)
    requires Inv(w) && Provision(w, e, x)
    ensures Inv(x) && Grows(w, x) && MachinesGrow(w, x)
  {
    hide Inv, Grows, MachinesGrow, LookStep, SendStep, AnswerStep, CallStep, DisksStep, ArriveStep, VisitHost,
         GivenUp, SweepOf, MayBecome;
    match e
    case Visit(p, now) => VisitKeeps(w, p, now, x);
    case Look(p, found) => LookKeeps(w, p, w.programs[p], found, x);
    case SendLaunch(p) => SendKeeps(w, p, w.programs[p], x);
    case LaunchAnswer(p) => AnswerKeeps(w, p, w.programs[p], x);
    case CallMachine(p, taken) => CallKeeps(w, p, w.programs[p], taken, x);
    case ListDisks(p, none) => DisksKeeps(w, p, w.programs[p], none, x);
    case ProviderError(p) => GiveUpKeeps(w, p, x);
    case LaunchArrives(launch, instanceId) => ArriveKeeps(w, launch, instanceId, x);
    case MachineMoves(token, state) => MoveKeeps(w, token, state, x);
  }

  lemma WorkerStepKeepsInv(w: World, e: Event, x: World)
    requires Inv(w) && WorkerStep(w, e, x)
    ensures Inv(x) && Grows(w, x) && MachinesGrow(w, x)
  {
    hide Inv, Grows, MachinesGrow, ReadStep, ServeStep, AskStep, RereadStep, PublishStep, StumbleStep, LocalMove;
    match e
    case WorkerReads(p) => ReadKeeps(w, p, w.programs[p], x);
    case WorkerServes(p, setup, now) => ServeKeeps(w, p, w.programs[p], setup, now, x);
    case WorkerAsks(p, setup, now) => AskKeeps(w, p, w.programs[p], setup, now, x);
    case WorkerRereads(p, setup) => RereadKeeps(w, p, w.programs[p], setup, x);
    case WorkerPublishes(p) => PublishKeeps(w, p, w.programs[p], x);
    case WorkerFails(p, reported) => StumbleKeeps(w, p, w.programs[p], reported, x);
    case LocalMoves(host, after) => LocalKeeps(w, x);
  }

  lemma ReaderStepKeepsInv(w: World, e: Event, x: World)
    requires Inv(w) && ReaderStep(w, e, x)
    ensures Inv(x) && Grows(w, x) && MachinesGrow(w, x)
  {
    hide Inv, Grows, MachinesGrow, MayBegin, LoadStep, CheckStep;
    match e
    case Spawn(p, program) => SpawnKeeps(w, p, program, x);
    case Fail(p) => FailKeeps(w, p, x);
    case Load(p) => LoadKeeps(w, p, w.programs[p], x);
    case CheckTombstone(p) => CheckKeeps(w, p, w.programs[p], x);
  }

  lemma StepKeepsInv(w: World, e: Event, x: World)
    requires Inv(w) && Step(w, e, x)
    ensures Inv(x) && Grows(w, x) && MachinesGrow(w, x)
  {
    hide Inv, Grows, MachinesGrow, Submission, Provision, WorkerStep, ReaderStep;
    if Submission(w, e, x) {
      SubmissionKeepsInv(w, e, x);
    } else if Provision(w, e, x) {
      ProvisionKeepsInv(w, e, x);
    } else if WorkerStep(w, e, x) {
      WorkerStepKeepsInv(w, e, x);
    } else {
      ReaderStepKeepsInv(w, e, x);
    }
  }
}
