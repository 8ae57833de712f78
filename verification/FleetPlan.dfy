/** What a browser action, a reconcile pass and host retirement make of the registry they loaded. */
module FleetPlan {
  import opened FleetState
  import opened FleetPlacement

  const STARTUP_TIMEOUT := 1200
  const FRESHNESS := 45
  const STARTUP_TIMEOUT_MESSAGE := "Server startup timed out. Start again to retry, or remove the saved server."
  const REQUEST_TIMEOUT_MESSAGE := "The host did not finish this request. Retry the action; saved data is retained."
  const WAKE_FAILED := "Host startup failed; retrying"

  predicate RequestExpired(v: Server, now: int) {
    v.readyAt == 0 && now - v.requestedAt >= STARTUP_TIMEOUT
  }

  predicate StartupExpired(v: Server, now: int) {
    v.desired == Running && RequestExpired(v, now)
  }

  /** The report answers the server's current request on the server's own host. */
  predicate Answers(v: Server, r: Report) {
    r.host == v.host && r.requestId == v.requestId && r.error == ""
  }

  predicate RequestComplete(v: Server, r: Report) {
    Answers(v, r) && r.desired == v.desired && r.phase == v.desired
  }

  // -- Browser actions ----------------------------------------------------------------------------

  datatype ActionPlan = Over | Missing | Locked | AsBefore | Change(next: Registry)

  /** An unchanged desired state is still new intent when the request failed, timed out or was stopped locally. */
  predicate Restarts(v: Server, desired: Status, reports: map<string, Report>, now: int) {
    || (RequestExpired(v, now) && (v.desired == Running || v.error != ""))
    || (v.id in reports
        && var r := reports[v.id];
           r.id == v.id && r.host == v.host && r.requestId == v.requestId
           && desired == Running && (r.desired == Stopped || r.phase == Failed))
  }

  function Requested(v: Server, desired: Status, token: string, now: int): Server {
    v.(desired := desired, requestId := token, requestedAt := now, readyAt := 0, error := "")
  }

  function Answered(v: Server, id: string, desired: Status, token: string, now: int): Server {
    if v.id == id then Requested(v, desired, token, now) else v
  }

  function WithAction(servers: seq<Server>, id: string, desired: Status, token: string, now: int): seq<Server> {
    seq(|servers|, i requires 0 <= i < |servers| => Answered(servers[i], id, desired, token, now))
  }

  /** The first server with the ID that keeps the action from being saved, and what is answered instead. */
  function Obstacle(servers: seq<Server>, id: string, desired: Status, reports: map<string, Report>, now: int)
    : (r: Option<ActionPlan>)
    ensures r.None? ==> forall v | v in servers && v.id == id :: v.desired == Deleted ==> desired == Deleted
    ensures r.Some? ==> r.value.Locked? || r.value.AsBefore?
  {
    if servers == [] then None
    else
      var v := servers[0];
      if v.id == id && v.desired == Deleted && desired != Deleted then Some(Locked)
      else if v.id == id && v.desired == desired && !Restarts(v, desired, reports, now) then Some(AsBefore)
      else Obstacle(servers[1..], id, desired, reports, now)
  }

  function PlanAction(c: Config, s: Registry, id: string, desired: Status, reports: map<string, Report>, token: string,
                      now: int): ActionPlan
  {
    if s.deleting || Expired(c, now) then Over
    else
      var obstacle := Obstacle(s.servers, id, desired, reports, now);
      if obstacle.Some? then obstacle.value
      else if id !in ServerIds(s) then Missing
      else Change(s.(servers := WithAction(s.servers, id, desired, token, now)))
  }

  lemma ActionIsPointwise(saved: seq<Server>, servers: seq<Server>, id: string, desired: Status, token: string,
                          now: int)
    requires |servers| == |saved|
    requires forall j | 0 <= j < |saved| :: servers[j] == Answered(saved[j], id, desired, token, now)
    ensures servers == WithAction(saved, id, desired, token, now)
  {
  }

  lemma NoObstacle(id: string, desired: Status, reports: map<string, Report>, now: int)
    ensures Obstacle([], id, desired, reports, now) == None
  {
  }

  /** The scan meets its first obstacle at `servers[i]`, or later. */
  lemma ObstacleAt(servers: seq<Server>, i: nat, id: string, desired: Status, reports: map<string, Report>, now: int)
    requires i < |servers|
    ensures var v := servers[i];
      Obstacle(servers[i..], id, desired, reports, now)
      == if v.id == id && v.desired == Deleted && desired != Deleted then Some(Locked)
         else if v.id == id && v.desired == desired && !Restarts(v, desired, reports, now) then Some(AsBefore)
         else Obstacle(servers[i + 1..], id, desired, reports, now)
  {
    hide Restarts;
    assert servers[i..][1..] == servers[i + 1..];
  }

  /** The scan over the saved servers, editing those with the requested ID. */
  method ApplyAction(c: Config, s: Registry, id: string, desired: Status, reports: map<string, Report>, token: string,
                     now: int)
    returns (plan: ActionPlan)
    ensures plan == PlanAction(c, s, id, desired, reports, token, now)
  {
    hide Expired, Restarts, WithAction, Obstacle, Requested;
    if s.deleting || Expired(c, now) {
      return Over;
    }
    var servers := s.servers;
    var found := false;
    assert s.servers[0..] == s.servers;
    for i := 0 to |s.servers|
      invariant |servers| == |s.servers|
      invariant if found then id in ServerIds(s) else forall j | 0 <= j < i :: s.servers[j].id != id
      invariant forall j | 0 <= j < i :: servers[j] == Answered(s.servers[j], id, desired, token, now)
      invariant forall j | i <= j < |servers| :: servers[j] == s.servers[j]
      invariant Obstacle(s.servers, id, desired, reports, now) == Obstacle(s.servers[i..], id, desired, reports, now)
    {
      var v := s.servers[i];
      ObstacleAt(s.servers, i, id, desired, reports, now);
      if v.id != id {
        continue;
      }
      assert v in s.servers;
      found := true;
      if v.desired == Deleted && desired != Deleted {
        return Locked;
      }
      if v.desired == desired && !Restarts(v, desired, reports, now) {
        return AsBefore;
      }
      servers := servers[i := Requested(v, desired, token, now)];
    }
    assert s.servers[|s.servers|..] == [];
    NoObstacle(id, desired, reports, now);
    if !found {
      return Missing;
    }
    ActionIsPointwise(s.servers, servers, id, desired, token, now);
    return Change(s.(servers := servers));
  }

  // -- The reconcile pass -------------------------------------------------------------------------

  predicate BecomesReady(v: Server, r: Report, now: int) {
    v.readyAt == 0 && v.desired == Running && Answers(v, r) && r.desired == Running && r.phase == Running
    && r.players.Some? && now - r.observedAt <= FRESHNESS
  }

  function FailureOf(v: Server, r: Report, now: int): string {
    if StartupExpired(v, now) then STARTUP_TIMEOUT_MESSAGE
    else if RequestExpired(v, now) && !RequestComplete(v, r) then REQUEST_TIMEOUT_MESSAGE
    else ""
  }

  /** The host stopped an idle or over-age game by itself; the registry copies that without a new request. */
  predicate StoppedLocally(v: Server, r: Report) {
    Answers(v, r) && v.desired == Running && r.desired == Stopped && r.phase == Stopped
  }

  predicate RemovalDone(v: Server, r: Report) {
    Answers(v, r) && v.desired == Deleted && r.desired == Deleted && r.phase == Deleted
  }

  function Marked(v: Server, r: Report, now: int): Server {
    if BecomesReady(v, r, now) then v.(readyAt := r.observedAt) else v
  }

  function Refreshed(v: Server, r: Report, deleting: bool, now: int): Server {
    var ready := Marked(v, r, now);
    if deleting then ready
    else ready.(error := FailureOf(ready, r, now), desired := if StoppedLocally(v, r) then Stopped else v.desired)
  }

  predicate Touched(v: Server, r: Report, deleting: bool, now: int) {
    || BecomesReady(v, r, now)
    || (!deleting && (v.error != FailureOf(Marked(v, r, now), r, now) || StoppedLocally(v, r)))
  }

  function AllRefreshed(servers: seq<Server>, reports: map<string, Report>, deleting: bool, now: int): seq<Server> {
    seq(|servers|, i requires 0 <= i < |servers| =>
      Refreshed(servers[i], ReportOf(reports, servers[i].id), deleting, now))
  }

  predicate Retires(h: Host, servers: seq<Server>, deleting: bool) {
    h.retiring || deleting || forall v | v in servers :: v.host != h.id || v.desired == Deleted
  }

  function AllRetired(hosts: seq<Host>, servers: seq<Server>, deleting: bool): seq<Host> {
    seq(|hosts|, i requires 0 <= i < |hosts| => hosts[i].(retiring := Retires(hosts[i], servers, deleting)))
  }

  datatype PassPlan = Release(next: Registry, id: string) | Keep(next: Registry, changed: bool)

  /** Index `k` holds the first acknowledged removal of the pass, or no server is one. */
  ghost predicate FirstRemoval(s: Registry, reports: map<string, Report>, deleting: bool, k: nat) {
    && k <= |s.servers|
    && (forall j | 0 <= j < k :: deleting || !RemovalDone(s.servers[j], ReportOf(reports, s.servers[j].id)))
    && (k < |s.servers| ==> !deleting && RemovalDone(s.servers[k], ReportOf(reports, s.servers[k].id)))
  }

  /** The outcome of a pass whose scan over the servers stopped at index `k`. */
  ghost predicate IsPassAt(c: Config, s: Registry, reports: map<string, Report>, now: int, plan: PassPlan, k: nat)
    requires k <= |s.servers|
  {
    var deleting := s.deleting || Expired(c, now);
    var servers := AllRefreshed(s.servers, reports, deleting, now);
    if k < |s.servers| then
      plan == Release(s.(servers := servers[..k] + s.servers[k + 1..]), s.servers[k].id)
    else
      && plan.Keep?
      && plan.next == Registry(s.revision, AllRetired(s.hosts, servers, deleting), servers, deleting)
      && (plan.changed <==>
            || deleting != s.deleting
            || (exists v :: v in s.servers && Touched(v, ReportOf(reports, v.id), deleting, now))
            || (exists h :: h in s.hosts && !h.retiring && Retires(h, servers, deleting)))
  }

  /** The outcome of the pass over servers and hosts, before anything is saved. */
  ghost predicate IsPass(c: Config, s: Registry, reports: map<string, Report>, now: int, plan: PassPlan) {
    exists k: nat :: FirstRemoval(s, reports, s.deleting || Expired(c, now), k) && IsPassAt(c, s, reports, now, plan, k)
  }

  lemma UntouchedIsSame(v: Server, r: Report, deleting: bool, now: int)
    requires !Touched(v, r, deleting, now)
    ensures Refreshed(v, r, deleting, now) == v
  {
  }

  /** A pass that reports no change really leaves the document as it was loaded. */
  lemma UnchangedPassIsIdentity(c: Config, s: Registry, reports: map<string, Report>, now: int, plan: PassPlan)
    requires IsPass(c, s, reports, now, plan) && plan.Keep? && !plan.changed
    ensures plan.next == s
  {
    var servers := AllRefreshed(s.servers, reports, s.deleting, now);
    assert !Expired(c, now) || s.deleting;
    forall i | 0 <= i < |s.servers| ensures servers[i] == s.servers[i] {
      assert s.servers[i] in s.servers;
      UntouchedIsSame(s.servers[i], ReportOf(reports, s.servers[i].id), s.deleting, now);
    }
    assert servers == s.servers;
    forall i | 0 <= i < |s.hosts| ensures AllRetired(s.hosts, servers, s.deleting)[i] == s.hosts[i] {
      assert s.hosts[i] in s.hosts;
    }
    assert AllRetired(s.hosts, servers, s.deleting) == s.hosts;
  }

  /** The loop body for one saved server: its new record, whether it changed, and whether its removal is complete. */
  method RefreshServer(saved: Server, r: Report, deleting: bool, now: int)
    returns (server: Server, changed: bool, done: bool)
    ensures server == Refreshed(saved, r, deleting, now)
    ensures changed == Touched(saved, r, deleting, now)
    ensures done == (!deleting && RemovalDone(saved, r))
  {
    var v := saved;
    server, changed, done := saved, false, false;
    if v.readyAt == 0 && v.desired == Running && r.host == v.host && r.requestId == v.requestId && r.error == ""
       && r.desired == Running && r.phase == Running && r.players.Some? && now - r.observedAt <= FRESHNESS {
      server := server.(readyAt := r.observedAt);
      v := v.(readyAt := r.observedAt);
      changed := true;
    }
    var failure := "";
    if StartupExpired(v, now) {
      failure := STARTUP_TIMEOUT_MESSAGE;
    } else if RequestExpired(v, now) && !RequestComplete(v, r) {
      failure := REQUEST_TIMEOUT_MESSAGE;
    }
    if !deleting && v.error != failure {
      server := server.(error := failure);
      changed := true;
    }
    if r.host != v.host || r.requestId != v.requestId || r.error != "" {
      return;
    }
    if !deleting && v.desired == Running && r.desired == Stopped && r.phase == Stopped {
      server := server.(desired := Stopped);
      changed := true;
    }
    done := !deleting && v.desired == Deleted && r.desired == Deleted && r.phase == Deleted;
  }

  method RetireHosts(saved: seq<Host>, servers: seq<Server>, deleting: bool) returns (hosts: seq<Host>, changed: bool)
    ensures hosts == AllRetired(saved, servers, deleting)
    ensures changed <==> exists h :: h in saved && !h.retiring && Retires(h, servers, deleting)
  {
    changed, hosts := false, saved;
    for i := 0 to |saved|
      invariant |hosts| == |saved|
      invariant forall j | 0 <= j < i :: hosts[j] == saved[j].(retiring := Retires(saved[j], servers, deleting))
      invariant forall j | i <= j < |hosts| :: hosts[j] == saved[j]
      invariant changed <==> exists j :: 0 <= j < i && !saved[j].retiring && Retires(saved[j], servers, deleting)
    {
      var h := saved[i];
      var retained := false;
      for j := 0 to |servers|
        invariant retained <==> exists m :: 0 <= m < j && servers[m].host == h.id && servers[m].desired != Deleted
      {
        retained := retained || (servers[j].host == h.id && servers[j].desired != Deleted);
      }
      assert retained <==> !forall v | v in servers :: v.host != h.id || v.desired == Deleted;
      if !h.retiring && (deleting || !retained) {
        hosts := hosts[i := h.(retiring := true)];
        changed := true;
      }
    }
  }

  /** The loop over the saved servers; `stop` is where an acknowledged removal ended it, or their number. */
  method RefreshServers(saved: seq<Server>, reports: map<string, Report>, deleting: bool, now: int)
    returns (servers: seq<Server>, changed: bool, stop: nat)
    ensures |servers| == |saved| && stop <= |saved|
    ensures forall j | 0 <= j < stop :: servers[j] == Refreshed(saved[j], ReportOf(reports, saved[j].id), deleting, now)
    ensures forall j | stop < j < |saved| :: servers[j] == saved[j]
    ensures forall j | 0 <= j < stop :: deleting || !RemovalDone(saved[j], ReportOf(reports, saved[j].id))
    ensures stop < |saved| ==> !deleting && RemovalDone(saved[stop], ReportOf(reports, saved[stop].id))
    ensures stop == |saved| ==>
      (changed <==> exists v :: v in saved && Touched(v, ReportOf(reports, v.id), deleting, now))
  {
    servers, changed := saved, false;
    for i := 0 to |saved|
      invariant |servers| == |saved|
      invariant forall j | 0 <= j < i ::
            servers[j] == Refreshed(saved[j], ReportOf(reports, saved[j].id), deleting, now)
      invariant forall j | i <= j < |saved| :: servers[j] == saved[j]
      invariant forall j | 0 <= j < i :: deleting || !RemovalDone(saved[j], ReportOf(reports, saved[j].id))
      invariant changed <==> exists j :: 0 <= j < i && Touched(saved[j], ReportOf(reports, saved[j].id), deleting, now)
    {
      var server, touched, done := RefreshServer(saved[i], ReportOf(reports, saved[i].id), deleting, now);
      servers := servers[i := server];
      changed := changed || touched;
      if done {
        return servers, changed, i;
      }
    }
    return servers, changed, |saved|;
  }

  method ReconcilePass(c: Config, s: Registry, reports: map<string, Report>, now: int) returns (plan: PassPlan)
    ensures IsPass(c, s, reports, now, plan)
  {
    var changed := false;
    var deleting := s.deleting;
    if Expired(c, now) && !deleting {
      deleting := true;
      changed := true;
    }
    var servers, touched, stop := RefreshServers(s.servers, reports, deleting, now);
    assert FirstRemoval(s, reports, deleting, stop);
    if stop < |s.servers| {
      assert servers[..stop] + servers[stop + 1..]
          == AllRefreshed(s.servers, reports, deleting, now)[..stop] + s.servers[stop + 1..];
      plan := Release(s.(servers := servers[..stop] + servers[stop + 1..]), s.servers[stop].id);
      assert IsPassAt(c, s, reports, now, plan, stop);
      return;
    }
    assert servers == AllRefreshed(s.servers, reports, deleting, now);
    var hosts, retired := RetireHosts(s.hosts, servers, deleting);
    plan := Keep(Registry(s.revision, hosts, servers, deleting), changed || touched || retired);
    assert IsPassAt(c, s, reports, now, plan, stop);
  }

  // -- What a pass does with each host ------------------------------------------------------------

  predicate GaveUp(v: Server, r: Report, now: int) {
    StartupExpired(v, now) || (RequestExpired(v, now) && !RequestComplete(v, r))
  }

  /** The server's request neither finished nor timed out, or its game should run. */
  predicate Demands(v: Server, h: Host, reports: map<string, Report>, now: int) {
    var r := ReportOf(reports, v.id);
    v.host == h.id && !GaveUp(v, r, now) && (v.desired == Running || !RequestComplete(v, r))
  }

  predicate Abandoned(v: Server, h: Host, reports: map<string, Report>, now: int) {
    v.host == h.id && GaveUp(v, ReportOf(reports, v.id), now)
  }

  ghost predicate NeedsMachine(h: Host, s: Registry, reports: map<string, Report>, now: int) {
    exists v :: v in s.servers && Demands(v, h, reports, now)
  }

  ghost predicate HasGivenUp(h: Host, s: Registry, reports: map<string, Report>, now: int) {
    exists v :: v in s.servers && Abandoned(v, h, reports, now)
  }

  method HostDemand(h: Host, s: Registry, reports: map<string, Report>, now: int)
    returns (needed: bool, hasExpired: bool)
    ensures needed <==> NeedsMachine(h, s, reports, now)
    ensures hasExpired <==> HasGivenUp(h, s, reports, now)
  {
    needed, hasExpired := false, false;
    for i := 0 to |s.servers|
      invariant needed <==> exists j :: 0 <= j < i && Demands(s.servers[j], h, reports, now)
      invariant hasExpired <==> exists j :: 0 <= j < i && Abandoned(s.servers[j], h, reports, now)
    {
      var v := s.servers[i];
      if v.host == h.id {
        var complete := RequestComplete(v, ReportOf(reports, v.id));
        if StartupExpired(v, now) || (RequestExpired(v, now) && !complete) {
          hasExpired := true;
          continue;
        }
        if v.desired == Running || !complete {
          needed := true;
        }
      }
    }
  }

  // -- Retirement of one host ---------------------------------------------------------------------

  datatype ForgetPlan =
    | StillOpen
    | Gone
    | StillHolds
    | DropServer(next: Registry, id: string)
    | DropHost(next: Registry)

  /** One round of the loop that empties a retiring host and then removes its record. */
  ghost predicate IsForgetRound(s: Registry, id: string, plan: ForgetPlan) {
    if forall h | h in s.hosts :: h.id != id then plan == Gone
    else if exists h :: h in s.hosts && h.id == id && !h.retiring then plan == StillOpen
    else if exists v :: v in s.servers && v.host == id then
      exists k | 0 <= k < |s.servers| && s.servers[k].host == id ::
        && (forall j | 0 <= j < k :: s.servers[j].host != id)
        && (if !s.deleting && s.servers[k].desired != Deleted then plan == StillHolds
            else plan == DropServer(s.(servers := s.servers[..k] + s.servers[k + 1..]), s.servers[k].id))
    else
      exists k | 0 <= k < |s.hosts| && s.hosts[k].id == id ::
        plan == DropHost(s.(hosts := s.hosts[..k] + s.hosts[k + 1..]))
  }

  method ForgetRound(s: Registry, id: string) returns (plan: ForgetPlan)
    ensures IsForgetRound(s, id, plan)
  {
    var hostIndex := -1;
    for i := 0 to |s.hosts|
      invariant -1 <= hostIndex < i
      invariant hostIndex >= 0 ==> s.hosts[hostIndex].id == id
      invariant hostIndex < 0 ==> forall j | 0 <= j < i :: s.hosts[j].id != id
      invariant forall j | 0 <= j < i :: s.hosts[j].id == id ==> s.hosts[j].retiring
    {
      if s.hosts[i].id == id {
        if !s.hosts[i].retiring {
          assert s.hosts[i] in s.hosts;
          return StillOpen;
        }
        hostIndex := i;
      }
    }
    if hostIndex < 0 {
      return Gone;
    }
    assert s.hosts[hostIndex] in s.hosts;
    for i := 0 to |s.servers|
      invariant forall j | 0 <= j < i :: s.servers[j].host != id
    {
      if s.servers[i].host == id {
        assert s.servers[i] in s.servers;
        if !s.deleting && s.servers[i].desired != Deleted {
          return StillHolds;
        }
        return DropServer(s.(servers := s.servers[..i] + s.servers[i + 1..]), s.servers[i].id);
      }
    }
    return DropHost(s.(hosts := s.hosts[..hostIndex] + s.hosts[hostIndex + 1..]));
  }

  // -- Recording what a machine did ---------------------------------------------------------------

  /** The launch outcome a reconciler writes back to a host record. */
  datatype HostNote = Launched(instanceId: string) | LaunchFailed

  function Noted(h: Host, note: HostNote): Host {
    match note
    case Launched(id) => h.(instanceId := id, error := "")
    case LaunchFailed => h.(error := WAKE_FAILED)
  }

  /** The record with the given ID is rewritten; without one there is nothing to save. */
  ghost predicate IsNoted(s: Registry, id: string, note: HostNote, next: Option<Registry>) {
    if forall h | h in s.hosts :: h.id != id then next.None?
    else exists k | 0 <= k < |s.hosts| && s.hosts[k].id == id ::
      next == Some(s.(hosts := s.hosts[k := Noted(s.hosts[k], note)]))
  }

  method NoteHost(s: Registry, id: string, note: HostNote) returns (next: Option<Registry>)
    ensures IsNoted(s, id, note, next)
  {
    for i := 0 to |s.hosts|
      invariant forall j | 0 <= j < i :: s.hosts[j].id != id
    {
      if s.hosts[i].id == id {
        assert s.hosts[i] in s.hosts;
        return Some(s.(hosts := s.hosts[i := Noted(s.hosts[i], note)]));
      }
    }
    return None;
  }
}
