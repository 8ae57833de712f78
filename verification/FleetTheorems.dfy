/** What holds in every reachable state of the fleet and across whole runs of it. */
module FleetTheorems {
  import opened FleetState
  import opened FleetPlacement
  import opened FleetStore
  import opened FleetPlan
  import opened FleetWorld
  import opened FleetHistory
  import opened FleetSafety

  ghost predicate StepAt(ws: seq<World>, es: seq<Event>, i: nat)
    requires i < |es| && i + 1 < |ws|
  {
    Step(ws[i], es[i], ws[i + 1])
  }

  /** A run: any interleaving of any programs, starting from an empty table and no machines. */
  ghost predicate IsRun(ws: seq<World>, es: seq<Event>) {
    && |ws| == |es| + 1
    && ws[0] == INITIAL
    && forall i: nat | i < |es| :: StepAt(ws, es, i)
  }

  lemma IsStep(ws: seq<World>, es: seq<Event>, i: nat)
    requires IsRun(ws, es) && i < |es|
    ensures Step(ws[i], es[i], ws[i + 1])
  {
    hide Step;
    assert StepAt(ws, es, i);
  }

  lemma {:induction false} RunKeepsInv(ws: seq<World>, es: seq<Event>, i: nat)
    requires IsRun(ws, es) && i < |ws|
    ensures Inv(ws[i])
  {
    hide Step, Inv, Grows, MachinesGrow;
    if i == 0 {
      InitialInv();
    } else {
      RunKeepsInv(ws, es, i - 1);
      IsStep(ws, es, i - 1);
      StepKeepsInv(ws[i - 1], es[i - 1], ws[i]);
    }
  }

  lemma InitialInv()
    ensures Inv(INITIAL)
  {
  }

  lemma {:induction false} RunGrows(ws: seq<World>, es: seq<Event>, i: nat)
    requires IsRun(ws, es) && i < |es|
    ensures Inv(ws[i]) && Inv(ws[i + 1]) && Grows(ws[i], ws[i + 1]) && MachinesGrow(ws[i], ws[i + 1])
  {
    hide Step, Inv, Grows, MachinesGrow;
    RunKeepsInv(ws, es, i);
    IsStep(ws, es, i);
    StepKeepsInv(ws[i], es[i], ws[i + 1]);
  }

  // -- Machines -----------------------------------------------------------------------------------

  /** No orphan: a machine that is not terminated runs for a host record that holds its launch token. */
  lemma NoMachineIsOrphaned(ws: seq<World>, es: seq<Event>, i: nat, token: string)
    requires IsRun(ws, es) && i < |ws|
    requires token in ws[i].machines && ws[i].machines[token].state != Terminated
    ensures exists h :: h in ws[i].store.registry.hosts
              && h.launchToken == token && h.id == ws[i].machines[token].hostTag
  {
    hide Step, Sound, Newest, BookIsConsistent, NothingResurrected;
    var w := ws[i];
    RunKeepsInv(ws, es, i);
    var h :| h in w.store.registry.hosts && h.id == w.machines[token].hostTag;
    assert w.book.hosts[h.id].token == token && w.book.hosts[h.id] == BirthOf(h);
  }

  lemma RemovedStaysAway(w: World, x: World, id: string)
    requires Grows(w, x) && id in w.book.hosts && id !in HostIds(w.store.registry)
    ensures id in x.book.hosts && x.book.hosts[id] == w.book.hosts[id] && id !in HostIds(x.store.registry)
  {
    hide HostIds, Departs;
  }

  /** Once a host record is gone it stays gone, and its launch token can never yield a live machine again. */
  lemma {:induction false} RemovedHostStaysDead(ws: seq<World>, es: seq<Event>, i: nat, j: nat, id: string)
    requires IsRun(ws, es) && i <= j < |ws|
    requires id in ws[i].book.hosts && id !in HostIds(ws[i].store.registry)
    ensures id in ws[j].book.hosts && ws[j].book.hosts[id] == ws[i].book.hosts[id]
    ensures id !in HostIds(ws[j].store.registry)
    ensures Burned(ws[j].machines, ws[i].book.hosts[id].token)
    decreases j
  {
    hide Step, Inv, MachinesGrow, Grows, HostIds, Burned;
    if i == j {
      RunKeepsInv(ws, es, i);
    } else {
      RemovedHostStaysDead(ws, es, i, j - 1, id);
      RunGrows(ws, es, j - 1);
      RemovedStaysAway(ws[j - 1], ws[j], id);
    }
    BurnedWhenRemoved(ws[j], id);
  }

  lemma BurnedWhenRemoved(w: World, id: string)
    requires Inv(w) && id in w.book.hosts && id !in HostIds(w.store.registry)
    ensures Burned(w.machines, w.book.hosts[id].token)
  {
    hide StoreInv;
  }

  // -- Retirement ---------------------------------------------------------------------------------

  /** Servers always have a host, hosts are never overcommitted, and a retiring host holds only departing servers. */
  lemma DocumentIsSound(ws: seq<World>, es: seq<Event>, i: nat)
    requires IsRun(ws, es) && i < |ws|
    ensures var s := ws[i].store.registry;
      && UniqueHosts(s.hosts) && UniqueServers(s.servers)
      && (forall v | v in s.servers :: exists h :: h in s.hosts && h.id == v.host)
      && (forall h | h in s.hosts :: AtMost(Used(s.servers, h.id), h.capacity))
      && (forall h, v | h in s.hosts && v in s.servers && h.retiring && v.host == h.id ::
            s.deleting || v.desired == Deleted)
  {
    hide Step, MachineInv;
    RunKeepsInv(ws, es, i);
    hide Known, Newest, BookIsConsistent, NothingResurrected;
    var s := ws[i].store.registry;
    forall v | v in s.servers ensures exists h :: h in s.hosts && h.id == v.host {
      assert v.host in HostIds(s);
    }
  }

  /**
   * Servers leave only with deletion intent or deployment end, and neither is taken back; hosts leave only retired and
   * empty.
   */
  lemma DeparturesAreIntended(ws: seq<World>, es: seq<Event>, i: nat)
    requires IsRun(ws, es) && i < |es|
    ensures var s := ws[i].store.registry; var d := ws[i + 1].store.registry;
      && (forall v | v in s.servers && v.id !in ServerIds(d) :: s.deleting || v.desired == Deleted)
      && (forall h | h in s.hosts && h.id !in HostIds(d) :: h.retiring && forall v | v in s.servers :: v.host != h.id)
      && (s.deleting ==> d.deleting)
      && DeletedIds(s) * ServerIds(d) <= DeletedIds(d)
  {
    hide Step, Inv;
    RunGrows(ws, es, i);
  }

  /** The guard before deleting a retiring host's machine never trips. */
  lemma RetirementIsNeverRefused(w: World, p: nat)
    requires Inv(w) && p in w.programs && w.programs[p].Sweeping? && AtHost(w.programs[p].s)
    ensures var s := w.programs[p].s; var h := s.snap.hosts[s.i];
      h.retiring ==> s.snap.deleting || forall v | v in s.snap.servers && v.host == h.id :: v.desired == Deleted
  {
    hide StoreInv, MachineInv, Known, Instances;
    assert ProgramOk(w, w.programs[p]);
    var s := w.programs[p].s;
    assert s.snap.hosts[s.i] in s.snap.hosts;
  }

  /** Emptying a retiring host never meets an open host or a server that should stay. */
  lemma EmptyingIsNeverRefused(w: World, p: nat, plan: ForgetPlan)
    requires Inv(w) && p in w.programs
    requires w.programs[p].Emptying? && w.programs[p].read.Some? && AtHost(w.programs[p].s)
    requires IsForgetRound(w.programs[p].read.value, w.programs[p].s.snap.hosts[w.programs[p].s.i].id, plan)
    ensures !plan.StillOpen? && !plan.StillHolds?
  {
    hide StoreInv, MachineInv, Known, Instances, WithinCapacity;
    assert ProgramOk(w, w.programs[p]);
    var s := w.programs[p].read.value;
    var id := w.programs[p].s.snap.hosts[w.programs[p].s.i].id;
    if plan.StillHolds? {
      assert false;
    }
  }

  /** The servers a document places on a host. */
  function OnHost(s: Registry, id: string): set<string> {
    set v | v in s.servers && v.host == id :: v.id
  }

  lemma OnHostShrinks(w: World, x: World, id: string)
    requires StoreInv(w) && StoreInv(x) && Grows(w, x) && id in w.book.retired
    ensures OnHost(x.store.registry, id) <= OnHost(w.store.registry, id)
  {
    hide Sound, Newest, BookIsConsistent, NothingResurrected, Departs;
    forall v | v in x.store.registry.servers && v.host == id ensures v.id in OnHost(w.store.registry, id) {
      var u :| u in w.store.registry.servers && u.id == v.id;
      assert w.book.servers[u.id] == ServerBirthOf(u) && x.book.servers[v.id] == ServerBirthOf(v);
      assert u.host == ServerBirthOf(u).host == ServerBirthOf(v).host == v.host;
    }
  }

  /** Under any interference a retired host only loses servers, so the loop that empties it is bounded. */
  lemma {:induction false} RetiredHostOnlyEmpties(ws: seq<World>, es: seq<Event>, i: nat, j: nat, id: string)
    requires IsRun(ws, es) && i <= j < |ws| && id in ws[i].book.retired
    ensures id in ws[j].book.retired && OnHost(ws[j].store.registry, id) <= OnHost(ws[i].store.registry, id)
    decreases j
  {
    hide Step, StoreInv, MachineInv, OnHost;
    if i < j {
      RetiredHostOnlyEmpties(ws, es, i, j - 1, id);
      RunGrows(ws, es, j - 1);
      assert StoreInv(ws[j - 1]) && StoreInv(ws[j]);
      OnHostShrinks(ws[j - 1], ws[j], id);
    }
  }

  /** Each committed round of that loop takes a server off the host, or removes the record of an empty one. */
  lemma ForgetRoundProgresses(w: World, p: nat, plan: ForgetPlan, told: Outcome, x: World)
    requires Inv(w) && p in w.programs && ForgetStep(w, p, w.programs[p], plan, told, x)
    requires x.store.registry.revision != w.store.registry.revision
    ensures var id := w.programs[p].s.snap.hosts[w.programs[p].s.i].id;
      || (plan.DropServer? && OnHost(x.store.registry, id) == OnHost(w.store.registry, id) - {plan.id}
          && plan.id in OnHost(w.store.registry, id))
      || (plan.DropHost? && OnHost(w.store.registry, id) == {}
          && id in HostIds(w.store.registry) && id !in HostIds(x.store.registry))
  {
    hide MachineInv, IsForgetRound, Recorded, StoreInv, Swap, ForgetOutcome, SnapOk;
    var q := w.programs[p];
    var s := q.read.value;
    assert SnapOk(w, s);
    var id := q.s.snap.hosts[q.s.i].id;
    match plan
    case DropServer(next, serverId) =>
      ForgetNeedsCurrent(w, s, next, serverId);
      var k := RoundDropsServer(s, id, plan);
      DroppedServer(w, k, id);
    case DropHost(next) =>
      SwapNeedsCurrent(w, s, next);
      var k := RoundDropsHost(s, id, plan);
      DroppedHost(w, k);
  }

  lemma DroppedServer(w: World, k: nat, id: string)
    requires StoreInv(w) && k < |w.store.registry.servers| && w.store.registry.servers[k].host == id
    ensures OnHost(WithoutServer(w.store.registry, k), id)
         == OnHost(w.store.registry, id) - {w.store.registry.servers[k].id}
    ensures w.store.registry.servers[k].id in OnHost(w.store.registry, id)
  {
    hide Known, Newest, BookIsConsistent, NothingResurrected, WithinCapacity, RetirementIsSafe;
    var s := w.store.registry;
    RemovedServers(s.servers, k);
    assert s.servers[k] in s.servers;
  }

  lemma DroppedHost(w: World, k: nat)
    requires StoreInv(w) && k < |w.store.registry.hosts|
    ensures w.store.registry.hosts[k].id !in HostIds(WithoutHost(w.store.registry, k))
  {
    hide Known, Newest, BookIsConsistent, NothingResurrected, WithinCapacity, RetirementIsSafe;
    RemovedHosts(w.store.registry.hosts, k);
  }

  /** A committed round of the emptying loop for a host, by whichever reconciler. */
  ghost predicate EmptiesHost(w: World, e: Event, x: World, id: string) {
    && e.SubmitForget? && e.p in w.programs && w.programs[e.p].Emptying? && AtHost(w.programs[e.p].s)
    && w.programs[e.p].s.snap.hosts[w.programs[e.p].s.i].id == id
    && x.store.registry.revision != w.store.registry.revision
  }

  ghost predicate TakesServer(w: World, e: Event, x: World, id: string) {
    EmptiesHost(w, e, x, id) && e.round.DropServer?
  }

  ghost predicate TakesHost(w: World, e: Event, x: World, id: string) {
    EmptiesHost(w, e, x, id) && e.round.DropHost?
  }

  /** How many servers, and how many records, committed rounds took away for a host between two states of a run. */
  ghost function ServerRounds(ws: seq<World>, es: seq<Event>, i: nat, j: nat, id: string): nat
    requires i <= j < |ws| && |ws| == |es| + 1
    decreases j
  {
    if i == j then 0
    else ServerRounds(ws, es, i, j - 1, id)
         + if TakesServer(ws[j - 1], es[j - 1], ws[j], id) then 1 else 0
  }

  ghost function HostRounds(ws: seq<World>, es: seq<Event>, i: nat, j: nat, id: string): nat
    requires i <= j < |ws| && |ws| == |es| + 1
    decreases j
  {
    if i == j then 0
    else HostRounds(ws, es, i, j - 1, id)
         + if TakesHost(ws[j - 1], es[j - 1], ws[j], id) then 1 else 0
  }

  lemma SubsetIsSmaller(a: set<string>, b: set<string>)
    requires a <= b
    ensures |a| <= |b|
  {
    if a != {} {
      var s :| s in a;
      SubsetIsSmaller(a - {s}, b - {s});
    }
  }

  lemma CommittedRound(w: World, e: Event, x: World, id: string)
    requires Inv(w) && Step(w, e, x)
    ensures TakesServer(w, e, x, id) ==> |OnHost(x.store.registry, id)| < |OnHost(w.store.registry, id)|
    ensures TakesHost(w, e, x, id) ==> id in HostIds(w.store.registry) && id !in HostIds(x.store.registry)
  {
    hide Step, Inv, OnHost, HostIds, ForgetStep;
    if EmptiesHost(w, e, x, id) {
      ForgetOfEvent(w, e, x);
      ForgetRoundProgresses(w, e.p, e.round, e.told, x);
      if e.round.DropServer? {
        var all := OnHost(w.store.registry, id);
        assert |all - {e.round.id}| < |all|;
      }
    }
  }

  /** One step of the run: what a committed round takes away is gone, and nothing is ever added. */
  lemma RoundsTakeAway(w: World, e: Event, x: World, id: string)
    requires Inv(w) && Inv(x) && Step(w, e, x) && Grows(w, x) && id in w.book.retired
    ensures id in x.book.retired && |OnHost(x.store.registry, id)| <= |OnHost(w.store.registry, id)|
    ensures id in HostIds(x.store.registry) ==> id in HostIds(w.store.registry)
    ensures TakesServer(w, e, x, id) ==> |OnHost(x.store.registry, id)| < |OnHost(w.store.registry, id)|
    ensures TakesHost(w, e, x, id) ==> id in HostIds(w.store.registry) && id !in HostIds(x.store.registry)
  {
    hide Step, Inv, Grows, OnHost, HostIds, TakesServer, TakesHost;
    InvHoldsStore(w);
    InvHoldsStore(x);
    hide StoreInv;
    OnHostShrinks(w, x, id);
    SubsetIsSmaller(OnHost(x.store.registry, id), OnHost(w.store.registry, id));
    HostsNeverReturn(w, x, id);
    CommittedRound(w, e, x, id);
  }

  lemma InvHoldsStore(w: World)
    requires Inv(w)
    ensures StoreInv(w)
  {
  }

  lemma HostsNeverReturn(w: World, x: World, id: string)
    requires StoreInv(w) && Grows(w, x) && id in w.book.retired
    ensures id in x.book.retired && (id in HostIds(x.store.registry) ==> id in HostIds(w.store.registry))
  {
    hide HostIds, Sound, Known, Newest, NothingResurrected, Departs;
  }

  lemma ForgetOfEvent(w: World, e: Event, x: World)
    requires Step(w, e, x) && e.SubmitForget?
    ensures e.p in w.programs && ForgetStep(w, e.p, w.programs[e.p], e.round, e.told, x)
  {
    hide Step, Provision, WorkerStep, ReaderStep, CreateStep, ActionStep, TeardownStep, PassStep, ForgetStep,
         NoteStep;
    StepIsOfItsKind(w, e, x);
  }

  /**
   * The loop that empties a retired host ends: from any state of a run on, and whatever interferes, committed rounds
   * take away at most the servers the host has, and its record at most once.
   */
  lemma {:induction false} EmptyingEnds(ws: seq<World>, es: seq<Event>, i: nat, j: nat, id: string)
    requires IsRun(ws, es) && i <= j < |ws| && id in ws[i].book.retired
    ensures id in ws[j].book.retired
    ensures ServerRounds(ws, es, i, j, id) + |OnHost(ws[j].store.registry, id)| <= |OnHost(ws[i].store.registry, id)|
    ensures HostRounds(ws, es, i, j, id) + (if id in HostIds(ws[j].store.registry) then 1 else 0)
         <= if id in HostIds(ws[i].store.registry) then 1 else 0
    decreases j
  {
    hide Step, Inv, Grows, MachinesGrow, OnHost, HostIds, TakesServer, TakesHost;
    if i < j {
      EmptyingEnds(ws, es, i, j - 1, id);
      RunGrows(ws, es, j - 1);
      IsStep(ws, es, j - 1);
      RoundsTakeAway(ws[j - 1], es[j - 1], ws[j], id);
    }
  }

  // -- Placement ----------------------------------------------------------------------------------

  /** A create that changes the registry puts one server on an open host, within the limits of its own configuration. */
  lemma CreateStaysWithinLimits(w: World, p: nat, seen: map<string, Lifecycle>, chosen: Option<Host>, drawn: Drawn,
                                now: int, told: Outcome, x: World)
    requires Inv(w) && p in w.programs && CreateStep(w, p, w.programs[p], seen, chosen, drawn, now, told, x)
    requires x.store.registry.revision != w.store.registry.revision
    ensures var c := w.programs[p].c; var s := w.store.registry; var d := x.store.registry;
      && |d.servers| == |s.servers| + 1 <= c.maxServers
      && (d.hosts == s.hosts || (|d.hosts| == |s.hosts| + 1 <= c.maxHosts))
      && var v := d.servers[|s.servers|];
         && d.servers == s.servers + [v] && v.id == w.programs[p].id && v.id !in ServerIds(s)
         && v.id !in w.store.tombstones && v.requestId !in w.minted
         && exists h :: h in d.hosts && h.id == v.host && !h.retiring
  {
    hide StoreInv, MachineInv, Recorded, SnapOk, Swap, ValidConfig, IsChoice;
    var q := w.programs[p];
    assert ProgramOk(w, q);
    var plan := PlanCreate(q.c, q.id, q.game, q.name, q.snap, false, chosen, drawn, now);
    SwapNeedsCurrent(w, q.snap, plan.next);
    CommittedSwap(w, plan.next, q.snap);
    ProposalIsAdmissible(q.c, q.id, q.game, q.name, q.snap, false, seen, chosen, drawn, now);
    var v := plan.server;
    assert plan.next.servers == q.snap.servers + [v];
    if plan.next.hosts == q.snap.hosts {
      var h :| h in q.snap.hosts && h.id == v.host && !h.retiring;
      assert h in x.store.registry.hosts;
    } else {
      var h :| plan.next.hosts == q.snap.hosts + [h] && h.id == v.host && !h.retiring;
      assert h in x.store.registry.hosts;
    }
  }

  lemma CommittedSwap(w: World, d: Registry, s: Registry)
    requires Swap(w.store, d, s.revision).Committed?
    ensures w.store.registry.revision == s.revision
  {
  }

  // -- Identities and reports ---------------------------------------------------------------------

  /** No resurrection: removed IDs are neither saved servers nor report keys, and reports come from the right host. */
  lemma RemovedStaysRemoved(ws: seq<World>, es: seq<Event>, i: nat)
    requires IsRun(ws, es) && i < |ws|
    ensures var t := ws[i].store;
      && (forall id | id in t.tombstones :: id !in ServerIds(t.registry) && id !in t.reports)
      && (forall v | v in t.registry.servers && v.id in t.reports :: t.reports[v.id].host == v.host)
  {
    hide Step, MachineInv;
    RunKeepsInv(ws, es, i);
    hide Sound, Newest, BookIsConsistent;
    var t := ws[i].store;
    forall v | v in t.registry.servers && v.id in t.reports ensures t.reports[v.id].host == v.host {
      assert ws[i].book.servers[v.id] == ServerBirthOf(v);
    }
  }

  /** Tombstones are permanent, so a removed server's ID is never used again. */
  lemma {:induction false} TombstonesArePermanent(ws: seq<World>, es: seq<Event>, i: nat, j: nat, id: string)
    requires IsRun(ws, es) && i <= j < |ws| && id in ws[i].store.tombstones
    ensures id in ws[j].store.tombstones && id !in ServerIds(ws[j].store.registry) && id !in ws[j].store.reports
    decreases j
  {
    hide Step, Inv, MachinesGrow;
    if i < j {
      TombstonesArePermanent(ws, es, i, j - 1, id);
      RunGrows(ws, es, j - 1);
    }
    RemovedStaysRemoved(ws, es, j);
  }

  /** A worker's report is never rejected as another host's. */
  lemma WorkersOwnTheirReports(w: World, p: nat)
    requires Inv(w) && p in w.programs && w.programs[p].WorkerSays?
    ensures PublishOutcome(w.store, w.programs[p].report) != WrongOwner
  {
    hide MachineInv, Sound, Newest, BookIsConsistent, Known;
    WorkerSpeaksForOwn(w, w.programs[p]);
  }
}
