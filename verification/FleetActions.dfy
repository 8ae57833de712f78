/** When a browser action is new intent, and what it writes, in terms of the saved records. */
module FleetActions {
  import opened FleetState
  import opened FleetPlacement
  import opened FleetStore
  import opened FleetPlan
  import opened Controller
  import opened FleetWorld
  import opened FleetHistory
  import opened FleetSafety
  import opened FleetTheorems
  import opened FleetChoice

  /** A server that is not ready twenty minutes after its request. */
  predicate IsLate(v: Server, now: int) {
    v.readyAt == 0 && now >= v.requestedAt + 20 * 60
  }

  /** The server's own host said, about its newest request, that the game is stopped or failed. */
  predicate SaidDown(v: Server, reports: map<string, Report>) {
    && v.id in reports
    && var r := reports[v.id];
       r.id == v.id && r.host == v.host && r.requestId == v.requestId && (r.desired == Stopped || r.phase == Failed)
  }

  /**
   * A start is news to a stopped server, to a running one that is late, and to one whose host said it is down; a stop
   * to a running one, and to a stopped one whose late stop is shown as failed; a removal to any server not yet to be
   * removed, and to one whose late removal is shown as failed.
   */
  predicate IsNews(v: Server, desired: Status, reports: map<string, Report>, now: int) {
    match desired
    case Running => v.desired == Stopped || (v.desired == Running && (IsLate(v, now) || SaidDown(v, reports)))
    case Stopped => v.desired == Running || (v.desired == Stopped && IsLate(v, now) && v.error != "")
    case Deleted => v.desired != Deleted || (IsLate(v, now) && v.error != "")
    case _ => false
  }

  /** The same document with one record changed: a new request, not ready, without an error. */
  ghost predicate Rewrites(s: Registry, d: Registry, id: string, desired: Status, token: string, now: int) {
    && d.hosts == s.hosts && d.deleting == s.deleting && |d.servers| == |s.servers|
    && forall j | 0 <= j < |s.servers| ::
         var v, u := s.servers[j], d.servers[j];
         if v.id == id then
           && u.desired == desired && u.requestId == token && u.requestedAt == now && u.readyAt == 0 && u.error == ""
           && u.id == v.id && u.game == v.game && u.name == v.name && u.host == v.host && u.resources == v.resources
         else u == v
  }

  /** With unique IDs, the scan is stopped by the requested server or by none. */
  lemma {:induction false} OnlyObstacle(servers: seq<Server>, v: Server, desired: Status, reports: map<string, Report>,
                                        now: int)
    requires UniqueServers(servers)
    ensures v in servers ==>
      Obstacle(servers, v.id, desired, reports, now)
      == if v.desired == Deleted && desired != Deleted then Some(Locked)
         else if v.desired == desired && !Restarts(v, desired, reports, now) then Some(AsBefore)
         else None
    ensures (forall u | u in servers :: u.id != v.id) ==> Obstacle(servers, v.id, desired, reports, now) == None
  {
    hide Restarts;
    if servers != [] {
      OnlyObstacle(servers[1..], v, desired, reports, now);
      assert forall u | u in servers[1..] :: u in servers && u.id != servers[0].id;
      assert forall u | u in servers :: u == servers[0] || u in servers[1..];
    }
  }

  lemma NewsRestarts(v: Server, desired: Status, reports: map<string, Report>, now: int)
    requires IsIntent(v.desired) && IsIntent(desired) && !(v.desired == Deleted && desired != Deleted)
    ensures IsNews(v, desired, reports, now) <==> v.desired != desired || Restarts(v, desired, reports, now)
  {
  }

  lemma ActionRewrites(s: Registry, id: string, desired: Status, token: string, now: int)
    ensures Rewrites(s, s.(servers := WithAction(s.servers, id, desired, token, now)), id, desired, token, now)
  {
  }

  /**
   * What an action is answered: the end of the deployment, a missing server, a server being removed, nothing new, or a
   * document with the requested record rewritten, and which of them exactly when.
   */
  lemma ActionsAreAnswered(c: Config, s: Registry, v: Server, desired: Status, reports: map<string, Report>,
                           token: string, now: int)
    requires UniqueServers(s.servers) && v in s.servers && IsIntent(v.desired) && IsIntent(desired)
    ensures var plan := PlanAction(c, s, v.id, desired, reports, token, now);
      && (plan == Over <==> !IsLive(c, s, now))
      && (plan == Locked <==> IsLive(c, s, now) && v.desired == Deleted && desired != Deleted)
      && (plan.Change? <==> IsLive(c, s, now) && IsNews(v, desired, reports, now))
      && (plan == AsBefore <==>
            IsLive(c, s, now) && !IsNews(v, desired, reports, now) && (v.desired == Deleted ==> desired == Deleted))
      && (plan.Change? ==> plan.next.revision == s.revision && Rewrites(s, plan.next, v.id, desired, token, now))
  {
    hide Obstacle, Restarts, IsNews, WithAction, Rewrites;
    OnlyObstacle(s.servers, v, desired, reports, now);
    ActionRewrites(s, v.id, desired, token, now);
    assert v.id in ServerIds(s);
    if v.desired == Deleted && desired != Deleted {
      NothingIsNews(v, desired, reports, now);
    } else {
      NewsRestarts(v, desired, reports, now);
    }
  }

  lemma NothingIsNews(v: Server, desired: Status, reports: map<string, Report>, now: int)
    requires v.desired == Deleted && desired != Deleted && IsIntent(desired)
    ensures !IsNews(v, desired, reports, now)
  {
  }

  /** No server of the ID, no change. */
  lemma MissingIsAnswered(c: Config, s: Registry, id: string, desired: Status, reports: map<string, Report>,
                          token: string, now: int)
    requires UniqueServers(s.servers) && forall u | u in s.servers :: u.id != id
    ensures PlanAction(c, s, id, desired, reports, token, now) == if IsLive(c, s, now) then Missing else Over
  {
    hide Obstacle;
    OnlyObstacle(s.servers, Server(id, "", "", "", Unset, "", 0, 0, "", NOTHING), desired, reports, now);
  }

  lemma SubmittedAction(w: World, e: Event, x: World)
    requires Inv(w) && Submission(w, e, x) && e.SubmitAction?
    ensures e.p in w.programs && w.programs[e.p].ActionLoaded? && Unused(w, e.token)
    ensures var q := w.programs[e.p]; var s := w.store.registry;
      var plan := PlanAction(q.c, q.snap, q.id, q.desired, e.reports, e.token, e.now);
      && IsIntent(q.desired) && UniqueServers(s.servers) && (forall v | v in s.servers :: IsIntent(v.desired))
      && (q.snap.revision == s.revision ==> q.snap == s)
      && if plan.Change? && Storable(plan.next, q.snap.revision) && q.snap.revision == s.revision then
           x.store.registry == plan.next.(revision := s.revision + 1)
         else x.store.registry == s
  {
    hide StoreInv, MachineInv, PlanAction, Recorded, Known, Instances, CreateStep, TeardownStep, PassStep, ForgetStep,
         NoteStep, Storable, Unused;
    var q := w.programs[e.p];
    assert ProgramOk(w, q);
    assert Sound(w.store.registry) by { SavedIsSound(w); }
  }

  lemma SavedIsSound(w: World)
    requires Inv(w)
    ensures Sound(w.store.registry)
  {
  }

  /**
   * Over every run: an action on the current document is saved exactly when the deployment goes on, the action is news
   * to its server, and the table has room for another revision; then that one record carries the new request, drawn for
   * it and never used before.
   */
  lemma ActionsAreSavedExactly(ws: seq<World>, es: seq<Event>, i: nat, v: Server)
    requires IsRun(ws, es) && i < |es| && es[i].SubmitAction? && v in ws[i].store.registry.servers
    requires es[i].p in ws[i].programs && ws[i].programs[es[i].p].ActionLoaded?
    requires ws[i].programs[es[i].p].id == v.id
    requires ws[i].programs[es[i].p].snap.revision == ws[i].store.registry.revision
    ensures var q, s, d := ws[i].programs[es[i].p], ws[i].store.registry, ws[i + 1].store.registry;
      && (d.revision != s.revision <==>
            && IsLive(q.c, s, es[i].now) && IsNews(v, q.desired, es[i].reports, es[i].now)
            && |s.hosts| <= MAX_HOSTS && |s.servers| <= MAX_SERVERS && s.revision < MAX_INT64)
      && (d.revision != s.revision ==>
            && Rewrites(s, d, v.id, q.desired, es[i].token, es[i].now)
            && es[i].token != "" && es[i].token !in ws[i].minted)
      && (d.revision == s.revision ==> d == s)
  {
    hide Step, Inv, Submission, PlanAction, IsNews, Rewrites, IsLive;
    RunKeepsInv(ws, es, i);
    IsStep(ws, es, i);
    StepIsOfItsKind(ws[i], es[i], ws[i + 1]);
    SubmittedAction(ws[i], es[i], ws[i + 1]);
    var q, s, e := ws[i].programs[es[i].p], ws[i].store.registry, es[i];
    ActionsAreAnswered(q.c, s, v, q.desired, e.reports, e.token, e.now);
    var plan := PlanAction(q.c, s, q.id, q.desired, e.reports, e.token, e.now);
    if plan.Change? {
      RewritesKeepsSize(s, plan.next, v.id, q.desired, e.token, e.now);
      RewritesIgnoresRevision(s, plan.next, v.id, q.desired, e.token, e.now, s.revision + 1);
    }
  }

  lemma RewritesKeepsSize(s: Registry, d: Registry, id: string, desired: Status, token: string, now: int)
    requires Rewrites(s, d, id, desired, token, now)
    ensures |d.hosts| == |s.hosts| && |d.servers| == |s.servers|
  {
  }

  lemma RewritesIgnoresRevision(s: Registry, d: Registry, id: string, desired: Status, token: string, now: int, n: nat)
    requires Rewrites(s, d, id, desired, token, now)
    ensures Rewrites(s, d.(revision := n), id, desired, token, now)
  {
  }
}
