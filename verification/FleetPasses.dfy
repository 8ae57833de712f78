/** What a reconcile pass makes of the hosts' reports, in terms of the saved records. */
module FleetPasses {
  import opened FleetState
  import opened FleetPlacement
  import opened FleetStore
  import opened FleetPlan
  import opened Controller
  import opened FleetWorld
  import opened FleetHistory
  import opened FleetSafety
  import opened FleetTheorems
  import opened FleetChoice
  import opened FleetActions

  // -- What was reported --------------------------------------------------------------------------

  /** The server's own host reported on its newest request, without an error. */
  predicate Heard(v: Server, reports: map<string, Report>) {
    && v.id in reports
    && reports[v.id].host == v.host && reports[v.id].requestId == v.requestId && reports[v.id].error == ""
  }

  /** The game runs, answers players, and was seen to within the last 45 seconds. */
  predicate HeardReady(v: Server, reports: map<string, Report>, now: int) {
    && Heard(v, reports)
    && reports[v.id].desired == Running && reports[v.id].phase == Running && reports[v.id].players.Some?
    && now <= reports[v.id].observedAt + 45
  }

  /** The host settled in the given state. */
  predicate HeardSettled(v: Server, reports: map<string, Report>, state: Status) {
    Heard(v, reports) && reports[v.id].desired == state && reports[v.id].phase == state
  }

  // -- What is written ----------------------------------------------------------------------------

  function ReadySince(v: Server, reports: map<string, Report>, now: int): int {
    if v.readyAt == 0 && v.desired == Running && HeardReady(v, reports, now) then reports[v.id].observedAt
    else v.readyAt
  }

  /** What the players are shown: a start that is late, or another request that its host did not settle in time. */
  function Shown(v: Server, reports: map<string, Report>, now: int): string {
    if ReadySince(v, reports, now) != 0 || now < v.requestedAt + 20 * 60 then ""
    else if v.desired == Running then "Server startup timed out. Start again to retry, or remove the saved server."
    else if HeardSettled(v, reports, v.desired) then ""
    else "The host did not finish this request. Retry the action; saved data is retained."
  }

  /** A record after a pass: readiness always; intent and error only while the deployment goes on. */
  predicate Renews(v: Server, u: Server, reports: map<string, Report>, live: bool, now: int) {
    && u.id == v.id && u.game == v.game && u.name == v.name && u.host == v.host && u.resources == v.resources
    && u.requestId == v.requestId && u.requestedAt == v.requestedAt
    && u.readyAt == ReadySince(v, reports, now)
    && u.error == (if live then Shown(v, reports, now) else v.error)
    && u.desired == if live && v.desired == Running && HeardSettled(v, reports, Stopped) then Stopped else v.desired
  }

  /** Of a live deployment, a server whose host says its newest request, a removal, is carried out. */
  predicate IsReleased(v: Server, reports: map<string, Report>) {
    v.desired == Deleted && HeardSettled(v, reports, Deleted)
  }

  /** A host is retired with its deployment, or when every server on it is to be deleted; retirement stays. */
  predicate HostRenews(g: Host, h: Host, servers: seq<Server>, live: bool) {
    h == g.(retiring := g.retiring || !live || forall u | u in servers && u.host == g.id :: u.desired == Deleted)
  }

  /** A pass up to the first server it releases, or to the end. */
  ghost predicate Passes(s: Registry, d: Registry, reports: map<string, Report>, live: bool, now: int) {
    if exists k :: 0 <= k < |s.servers| && live && IsReleased(s.servers[k], reports) then
      exists k ::
        && 0 <= k < |s.servers| && IsReleased(s.servers[k], reports)
        && (forall j | 0 <= j < k :: !IsReleased(s.servers[j], reports))
        && d.hosts == s.hosts && d.deleting == s.deleting && |d.servers| == |s.servers| - 1
        && (forall j | 0 <= j < k :: Renews(s.servers[j], d.servers[j], reports, live, now))
        && (forall j | k <= j < |d.servers| :: d.servers[j] == s.servers[j + 1])
    else
      && |d.servers| == |s.servers| && |d.hosts| == |s.hosts| && d.deleting == !live
      && (forall j | 0 <= j < |s.servers| :: Renews(s.servers[j], d.servers[j], reports, live, now))
      && (forall j | 0 <= j < |s.hosts| :: HostRenews(s.hosts[j], d.hosts[j], d.servers, live))
  }

  lemma RefreshRenews(v: Server, reports: map<string, Report>, live: bool, now: int)
    requires v.requestId != ""
    ensures Renews(v, Refreshed(v, ReportOf(reports, v.id), !live, now), reports, live, now)
    ensures IsReleased(v, reports) <==> RemovalDone(v, ReportOf(reports, v.id))
  {
  }

  lemma RetiresRenews(h: Host, servers: seq<Server>, live: bool)
    ensures HostRenews(h, h.(retiring := Retires(h, servers, !live)), servers, live)
  {
  }

  /** The servers before index `n`, and none of them released. */
  lemma RefreshedRenew(s: Registry, reports: map<string, Report>, live: bool, now: int, n: nat)
    requires n <= |s.servers| && forall v | v in s.servers :: v.requestId != ""
    requires forall j | 0 <= j < n :: !live || !RemovalDone(s.servers[j], ReportOf(reports, s.servers[j].id))
    ensures forall j | 0 <= j < n ::
              Renews(s.servers[j], AllRefreshed(s.servers, reports, !live, now)[j], reports, live, now)
    ensures forall j | 0 <= j < n :: !live || !IsReleased(s.servers[j], reports)
  {
    hide Refreshed, Renews, RemovalDone, IsReleased;
    forall j | 0 <= j < n
      ensures Renews(s.servers[j], AllRefreshed(s.servers, reports, !live, now)[j], reports, live, now)
      ensures !live || !IsReleased(s.servers[j], reports)
    {
      assert s.servers[j] in s.servers;
      RefreshRenews(s.servers[j], reports, live, now);
    }
  }

  lemma ReleaseRenews(s: Registry, d: Registry, reports: map<string, Report>, now: int, k: nat)
    requires k < |s.servers| && forall v | v in s.servers :: v.requestId != ""
    requires forall j | 0 <= j < k :: !RemovalDone(s.servers[j], ReportOf(reports, s.servers[j].id))
    requires RemovalDone(s.servers[k], ReportOf(reports, s.servers[k].id))
    requires d == s.(servers := AllRefreshed(s.servers, reports, false, now)[..k] + s.servers[k + 1..])
    ensures Passes(s, d, reports, true, now) && s.servers[k] in s.servers && IsReleased(s.servers[k], reports)
  {
    hide Refreshed, AllRefreshed, Renews, RemovalDone, IsReleased;
    assert |AllRefreshed(s.servers, reports, false, now)| == |s.servers| by { RefreshedSize(s, reports, false, now); }
    RefreshedRenew(s, reports, true, now, k);
    assert s.servers[k] in s.servers;
    RefreshRenews(s.servers[k], reports, true, now);
    forall j | k <= j < |d.servers| ensures d.servers[j] == s.servers[j + 1] {
      assert d.servers[j] == s.servers[k + 1..][j - k];
    }
  }

  lemma RefreshedSize(s: Registry, reports: map<string, Report>, deleting: bool, now: int)
    ensures |AllRefreshed(s.servers, reports, deleting, now)| == |s.servers|
  {
  }

  lemma KeepRenews(s: Registry, d: Registry, reports: map<string, Report>, live: bool, now: int)
    requires forall v | v in s.servers :: v.requestId != ""
    requires forall j | 0 <= j < |s.servers| :: !live || !RemovalDone(s.servers[j], ReportOf(reports, s.servers[j].id))
    requires var servers := AllRefreshed(s.servers, reports, !live, now);
      d == Registry(s.revision, AllRetired(s.hosts, servers, !live), servers, !live)
    ensures Passes(s, d, reports, live, now)
    ensures !(live && exists v :: v in s.servers && IsReleased(v, reports))
  {
    hide Refreshed, AllRefreshed, Renews, RemovalDone, IsReleased, Retires, HostRenews;
    RefreshedSize(s, reports, !live, now);
    RefreshedRenew(s, reports, live, now, |s.servers|);
    forall j | 0 <= j < |s.hosts| ensures HostRenews(s.hosts[j], d.hosts[j], d.servers, live) {
      RetiresRenews(s.hosts[j], d.servers, live);
    }
  }

  /** The prepared document is the one the reports ask for. */
  lemma PassesAreRenewals(c: Config, s: Registry, reports: map<string, Report>, now: int, plan: PassPlan)
    requires IsPass(c, s, reports, now, plan) && forall v | v in s.servers :: v.requestId != ""
    ensures Passes(s, plan.next, reports, IsLive(c, s, now), now) && plan.next.revision == s.revision
    ensures plan.Release? <==> IsLive(c, s, now) && exists v :: v in s.servers && IsReleased(v, reports)
  {
    hide AllRefreshed, AllRetired, RemovalDone, IsReleased, Passes, Touched, Retires;
    var live := IsLive(c, s, now);
    assert s.deleting || Expired(c, now) == !live;
    var k := PassStops(c, s, reports, now, plan);
    if k < |s.servers| {
      ReleaseRenews(s, plan.next, reports, now, k);
    } else {
      KeepRenews(s, plan.next, reports, live, now);
    }
  }

  // -- Over runs ----------------------------------------------------------------------------------

  /** The saved document, what the pass saw of it, and whether the deployment goes on. */
  lemma SubmittedPass(w: World, e: Event, x: World)
    requires Inv(w) && Submission(w, e, x) && e.SubmitPass?
    ensures e.p in w.programs && w.programs[e.p].PassLoaded?
    ensures var q := w.programs[e.p]; var s := w.store.registry;
      && IsPass(q.c, q.snap, e.reports, e.now, e.plan) && UniqueServers(s.servers)
      && (q.snap.revision == s.revision ==> q.snap == s)
      && (forall v | v in q.snap.servers :: v.requestId != "")
      && (x.store.registry.revision == s.revision ==> x.store.registry == s)
      && (x.store.registry.revision != s.revision ==>
            && q.snap == s && x.store.registry == e.plan.next.(revision := s.revision + 1)
            && (e.plan.Keep? ==> e.plan.changed))
      && (e.plan.Keep? && e.plan.changed && q.snap == s && Storable(e.plan.next, s.revision) ==>
            x.store.registry.revision != s.revision)
  {
    hide StoreInv, MachineInv, Recorded, Instances, CreateStep, ActionStep, TeardownStep, ForgetStep, NoteStep, IsPass,
         Storable, Sound, Known;
    var q := w.programs[e.p];
    assert ProgramOk(w, q);
    assert Sound(w.store.registry) by { SavedIsSound(w); }
    RequestsAreNamed(w, q.snap);
    SoundIsUnique(w.store.registry);
  }

  lemma RequestsAreNamed(w: World, s: Registry)
    requires Inv(w) && Known(w.book, s)
    ensures forall v | v in s.servers :: v.requestId != ""
  {
    hide MachineInv, Sound, Newest, NothingResurrected;
  }

  /** Over every run: a pass that changes the document writes exactly what the reports it read ask for. */
  lemma PassesWriteWhatWasReported(ws: seq<World>, es: seq<Event>, i: nat)
    requires IsRun(ws, es) && i < |es| && es[i].SubmitPass?
    requires ws[i + 1].store.registry.revision != ws[i].store.registry.revision
    ensures es[i].p in ws[i].programs && ws[i].programs[es[i].p].PassLoaded?
    ensures var c, s := ws[i].programs[es[i].p].c, ws[i].store.registry;
      Passes(s, ws[i + 1].store.registry, es[i].reports, IsLive(c, s, es[i].now), es[i].now)
  {
    hide Step, Inv, Submission, IsPass, Renews, HostRenews, IsReleased, IsLive;
    RunKeepsInv(ws, es, i);
    IsStep(ws, es, i);
    StepIsOfItsKind(ws[i], es[i], ws[i + 1]);
    SubmittedPass(ws[i], es[i], ws[i + 1]);
    PassesAreRenewals(ws[i].programs[es[i].p].c, ws[i].store.registry, es[i].reports, es[i].now, es[i].plan);
  }

  /** The deployment goes on and no removal is acknowledged: the pass writes every record. */
  predicate WritesAll(c: Config, s: Registry, reports: map<string, Report>, now: int) {
    !IsLive(c, s, now) || forall v | v in s.servers :: !IsReleased(v, reports)
  }

  lemma RenewedRecord(s: Registry, d: Registry, reports: map<string, Report>, live: bool, now: int, v: Server,
                      u: Server)
    requires Passes(s, d, reports, live, now) && UniqueServers(s.servers)
    requires v in s.servers && u in d.servers && u.id == v.id
    ensures u == v || Renews(v, u, reports, live, now)
  {
    hide IsReleased, HostRenews, HeardReady, HeardSettled;
    var j :| 0 <= j < |d.servers| && d.servers[j] == u;
    if Renews(s.servers[j], u, reports, live, now) {
      assert s.servers[j] in s.servers;
      ServerById(s.servers, s.servers[j], v);
    } else {
      assert s.servers[j + 1] in s.servers;
      ServerById(s.servers, s.servers[j + 1], v);
    }
  }

  /**
   * Over every run: a pass makes a server ready only on a report of its own host about its newest request, that the
   * game runs as it should, answers players, and was seen to within the last 45 seconds; readiness dates from that
   * report, and a ready server stays so.
   */
  lemma ServersBecomeReadyAsReported(ws: seq<World>, es: seq<Event>, i: nat, v: Server, u: Server)
    requires IsRun(ws, es) && i < |es| && es[i].SubmitPass?
    requires v in ws[i].store.registry.servers && u in ws[i + 1].store.registry.servers && u.id == v.id
    ensures u.readyAt != v.readyAt ==>
      && v.readyAt == 0 && v.desired == Running && v.id in es[i].reports && v.id in ws[i].book.issued
      && var r := es[i].reports[v.id];
         && r.host == v.host && r.requestId == v.requestId && IsLast(ws[i].book.issued[v.id], r.requestId)
         && r.error == "" && r.desired == Running && r.phase == Running && r.players.Some?
         && r.observedAt == u.readyAt && es[i].now - r.observedAt <= 45
  {
    hide Step, Inv, Submission, IsPass, Passes, IsLive;
    RunKeepsInv(ws, es, i);
    IsStep(ws, es, i);
    StepIsOfItsKind(ws[i], es[i], ws[i + 1]);
    SubmittedPass(ws[i], es[i], ws[i + 1]);
    var s, d, e := ws[i].store.registry, ws[i + 1].store.registry, es[i];
    if d.revision == s.revision {
      ServerById(s.servers, v, u);
    } else {
      PassesWriteWhatWasReported(ws, es, i);
      RenewedRecord(s, d, e.reports, IsLive(ws[i].programs[e.p].c, s, e.now), e.now, v, u);
      NewestIsLast(ws[i], v);
    }
  }

  lemma NewestIsLast(w: World, v: Server)
    requires Inv(w) && v in w.store.registry.servers
    ensures v.id in w.book.issued && IsLast(w.book.issued[v.id], v.requestId)
  {
    hide MachineInv, Sound, Known, NothingResurrected, BookIsConsistent;
  }

  /**
   * And it does so whenever that was reported: unless the pass releases a server first, or meets a newer document or a
   * full table, the server is ready from then on.
   */
  lemma ReportedReadinessIsSaved(ws: seq<World>, es: seq<Event>, i: nat, v: Server)
    requires IsRun(ws, es) && i < |es| && es[i].SubmitPass? && v in ws[i].store.registry.servers
    requires es[i].p in ws[i].programs && ws[i].programs[es[i].p].PassLoaded?
    requires var s := ws[i].store.registry;
      && ws[i].programs[es[i].p].snap.revision == s.revision
      && WritesAll(ws[i].programs[es[i].p].c, s, es[i].reports, es[i].now)
      && |s.hosts| <= MAX_HOSTS && |s.servers| <= MAX_SERVERS && s.revision < MAX_INT64
    requires v.readyAt == 0 && v.desired == Running && v.id in es[i].reports
    requires var r := es[i].reports[v.id];
      && r.host == v.host && r.requestId == v.requestId && r.error == "" && r.desired == Running && r.phase == Running
      && r.players.Some? && r.observedAt != 0 && es[i].now - r.observedAt <= 45
    ensures exists u ::
              u in ws[i + 1].store.registry.servers && u.id == v.id && u.readyAt == es[i].reports[v.id].observedAt
  {
    hide Step, Inv, Submission, IsPass, IsLive;
    RunKeepsInv(ws, es, i);
    IsStep(ws, es, i);
    StepIsOfItsKind(ws[i], es[i], ws[i + 1]);
    SubmittedPass(ws[i], es[i], ws[i + 1]);
    AllIsSaved(ws[i], es[i], ws[i + 1], v);
  }

  /** A pass on the current document that releases nothing leaves what the reports ask for, saved or as it was. */
  lemma AllIsSaved(w: World, e: Event, x: World, v: Server)
    requires Inv(w) && Submission(w, e, x) && e.SubmitPass? && v in w.store.registry.servers
    requires e.p in w.programs && w.programs[e.p].PassLoaded?
    requires var s := w.store.registry;
      && w.programs[e.p].snap.revision == s.revision && WritesAll(w.programs[e.p].c, s, e.reports, e.now)
      && |s.hosts| <= MAX_HOSTS && |s.servers| <= MAX_SERVERS && s.revision < MAX_INT64
    ensures exists u :: u in x.store.registry.servers
              && Renews(v, u, e.reports, IsLive(w.programs[e.p].c, w.store.registry, e.now), e.now)
  {
    hide Inv, Submission, IsPass, IsLive, IsReleased, Renews, HostRenews;
    SubmittedPass(w, e, x);
    var c, s := w.programs[e.p].c, w.store.registry;
    PassesAreRenewals(c, s, e.reports, e.now, e.plan);
    if !e.plan.changed {
      UnchangedPassIsIdentity(c, s, e.reports, e.now, e.plan);
    }
    var j :| 0 <= j < |s.servers| && s.servers[j] == v;
    assert forall k | 0 <= k < |s.servers| :: s.servers[k] in s.servers;
    assert Renews(v, e.plan.next.servers[j], e.reports, IsLive(c, s, e.now), e.now);
    assert e.plan.next.servers[j] in x.store.registry.servers;
  }
}
