/**
 * Everything that acts on the fleet, interleaved one remote call at a time: browser requests, reconcilers,
 * deployment teardown, host workers, and the machine provider.
 */
module FleetWorld {
  import opened FleetState
  import opened FleetPlacement
  import opened FleetStore
  import opened FleetPlan
  import opened Controller

  // -- The machine provider -----------------------------------------------------------------------

  /** Machines are kept by launch token: the provider makes at most one per token, for ever. */
  datatype Machine = Machine(instanceId: string, hostTag: string, state: Lifecycle)

  /** A launch request on its way to the provider; it may arrive late, more than once, or never. */
  datatype Launch = Launch(token: string, host: string)

  datatype Lookup = Absent | Present(instanceId: string, state: Lifecycle)

  predicate Burned(machines: map<string, Machine>, token: string) {
    token in machines && machines[token].state == Terminated
  }

  /** Observations may lag behind, but never show an end that has not come. */
  predicate MayShow(actual: Lifecycle, shown: Lifecycle) {
    && (shown == Terminated ==> actual == Terminated)
    && (shown == ShuttingDown ==> actual in {ShuttingDown, Terminated})
  }

  /**
   * What a lookup of a host's machine can answer. By instance ID a machine disappears only after termination; by
   * tags and client token a machine may not be visible yet. Foreign machines make the lookup fail instead.
   */
  ghost predicate LookupAnswers(machines: map<string, Machine>, h: Host, found: Lookup) {
    match found
    case Absent => h.instanceId != "" ==>
      forall t | t in machines && machines[t].instanceId == h.instanceId :: machines[t].state == Terminated
    case Present(id, state) =>
      && h.launchToken in machines
      && machines[h.launchToken].hostTag == h.id && machines[h.launchToken].instanceId == id
      && (h.instanceId != "" ==> h.instanceId == id)
      && MayShow(machines[h.launchToken].state, state)
  }

  /** Terminated is final, and shutting down leads nowhere else. */
  predicate MayBecome(from: Lifecycle, to: Lifecycle) {
    && to != NoMachine
    && (from == Terminated ==> to == Terminated)
    && (from == ShuttingDown ==> to in {ShuttingDown, Terminated})
  }

  predicate LaunchIdentity(h: Host) {
    && ValidId(h.id) && 0 < |h.launchToken| <= 64 && "lt-" <= h.launchTemplate && PinnedVersion(h.launchVersion)
  }

  // -- Programs -----------------------------------------------------------------------------------

  const ATTEMPTS := 8

  /** A reconciler's walk over the hosts of the document it committed or found unchanged. */
  datatype Sweep = Sweep(c: Config, left: nat, snap: Registry, reports: map<string, Report>, i: nat)

  datatype WakeAt = LookUp | Run | Await | Start(instanceId: string)
  datatype DeleteAt = FirstLook | Recover(wake: WakeAt) | SecondLook | Terminate(instanceId: string) | Disks
  datatype StopAt = CheckRevision | LookFirst | StopMachine(instanceId: string)

  datatype Program =
    | Done
    | CreateBegin(c: Config, id: string, game: Game, name: string, left: nat)
    | CreateLoaded(c: Config, id: string, game: Game, name: string, left: nat, snap: Registry)
    | CreateChecked(c: Config, id: string, game: Game, name: string, left: nat, snap: Registry)
    | ActionBegin(c: Config, id: string, desired: Status, left: nat)
    | ActionLoaded(c: Config, id: string, desired: Status, left: nat, snap: Registry)
    | TeardownBegin
    | TeardownLoaded(snap: Registry)
    | PassBegin(c: Config, left: nat)
    | PassLoaded(c: Config, left: nat, snap: Registry)
    | Sweeping(s: Sweep)
    | Deleting(s: Sweep, del: DeleteAt)
    | Waking(s: Sweep, wake: WakeAt)
    | Halting(s: Sweep, stop: StopAt)
    | Emptying(s: Sweep, read: Option<Registry>)
    | Noting(s: Sweep, note: HostNote, tries: nat, read: Option<Registry>)
    | WorkerBegin(host: string)
    | WorkerLoaded(host: string, snap: Registry, i: nat)
    | WorkerRead(host: string, snap: Registry, i: nat, seen: Option<Instance>)
    | WorkerHas(host: string, snap: Registry, i: nat, instance: Instance)
    | WorkerAsked(host: string, snap: Registry, i: nat)
    | WorkerSays(host: string, snap: Registry, i: nat, report: Report)

  // -- History ------------------------------------------------------------------------------------

  datatype HostBirth = HostBirth(token: string, capacity: Resources, release: string, workload: string,
                                 launchTemplate: string, launchVersion: string, createdAt: int)

  datatype ServerBirth = ServerBirth(host: string, game: string, name: string, resources: Resources)

  /** What was ever committed: host and server identities, retired hosts, and each server's requests in order. */
  datatype Book = Book(hosts: map<string, HostBirth>, retired: set<string>, servers: map<string, ServerBirth>,
                       issued: map<string, seq<string>>)

  function BirthOf(h: Host): HostBirth {
    HostBirth(h.launchToken, h.capacity, h.release, h.workload, h.launchTemplate, h.launchVersion, h.createdAt)
  }

  function ServerBirthOf(v: Server): ServerBirth {
    ServerBirth(v.host, v.game, v.name, v.resources)
  }

  function HostHolder(hosts: seq<Host>, id: string): (r: Option<Host>)
    ensures r.None? <==> forall h | h in hosts :: h.id != id
    ensures r.Some? ==> r.value in hosts && r.value.id == id
  {
    if hosts == [] then None
    else if hosts[0].id == id then Some(hosts[0])
    else HostHolder(hosts[1..], id)
  }

  function HostBirths(known: map<string, HostBirth>, s: Registry): map<string, HostBirth> {
    map id | id in known.Keys + HostIds(s) ::
      if id in HostIds(s) then BirthOf(HostHolder(s.hosts, id).value) else known[id]
  }

  function ServerBirths(known: map<string, ServerBirth>, s: Registry): map<string, ServerBirth> {
    map id | id in known.Keys + ServerIds(s) ::
      if id in ServerIds(s) then ServerBirthOf(Holder(s.servers, id).value) else known[id]
  }

  function IssuedTo(known: map<string, seq<string>>, id: string): seq<string> {
    if id in known then known[id] else []
  }

  function WithIssue(requests: seq<string>, requestId: string): seq<string> {
    if requests != [] && requests[|requests| - 1] == requestId then requests else requests + [requestId]
  }

  /** A server's request joins its history when it differs from the one before. */
  function Issues(known: map<string, seq<string>>, s: Registry): map<string, seq<string>> {
    map id | id in known.Keys + ServerIds(s) ::
      if id in ServerIds(s) then WithIssue(IssuedTo(known, id), Holder(s.servers, id).value.requestId)
      else IssuedTo(known, id)
  }

  function Recorded(b: Book, s: Registry): Book {
    Book(HostBirths(b.hosts, s), b.retired + (set h | h in s.hosts && h.retiring :: h.id),
         ServerBirths(b.servers, s), Issues(b.issued, s))
  }

  // -- The world ----------------------------------------------------------------------------------

  /** `minted` holds every random identity drawn so far; `applied` the requests each server's host acted on. */
  datatype World = World(store: Store, book: Book, machines: map<string, Machine>, requests: set<Launch>,
                         minted: set<string>, locals: map<string, Local>, applied: map<string, seq<string>>,
                         programs: map<nat, Program>)

  const INITIAL := World(Store(EMPTY, {}, map[]), Book(map[], {}, map[], map[]), map[], {}, {}, map[], map[], map[])

  function LocalOf(w: World, host: string): Local {
    if host in w.locals then w.locals[host] else Local(false, map[])
  }

  function AppliedTo(w: World, id: string): seq<string> {
    if id in w.applied then w.applied[id] else []
  }

  function Resumed(w: World, p: nat, q: Program): World {
    w.(programs := w.programs[p := q])
  }

  function AfterSave(w: World, draft: Registry, previous: int): World {
    if Swap(w.store, draft, previous).Committed? then
      w.(store := Saved(w.store, draft), book := Recorded(w.book, draft))
    else w
  }

  function AfterForget(w: World, draft: Registry, previous: int, id: string): World {
    if ForgetOutcome(w.store, draft, previous, id).Committed? then
      w.(store := Forgotten(w.store, draft, id), book := Recorded(w.book, draft))
    else w
  }

  // -- Events -------------------------------------------------------------------------------------

  datatype Event =
    | Spawn(p: nat, program: Program)
    | Fail(p: nat)
    | Load(p: nat)
    | CheckTombstone(p: nat)
    | SubmitCreate(p: nat, seen: map<string, Lifecycle>, chosen: Option<Host>, drawn: Drawn, now: int, told: Outcome)
    | SubmitAction(p: nat, reports: map<string, Report>, token: string, now: int, told: Outcome)
    | SubmitTeardown(p: nat)
    | SubmitPass(p: nat, reports: map<string, Report>, plan: PassPlan, now: int, told: Outcome)
    | Visit(p: nat, now: int)
    | Look(p: nat, found: Lookup)
    | SendLaunch(p: nat)
    | LaunchAnswer(p: nat)
    | CallMachine(p: nat, taken: bool)
    | ListDisks(p: nat, none: bool)
    | ProviderError(p: nat)
    | SubmitForget(p: nat, round: ForgetPlan, told: Outcome)
    | SubmitNote(p: nat, next: Option<Registry>, told: Outcome)
    | LaunchArrives(launch: Launch, instanceId: string)
    | MachineMoves(token: string, state: Lifecycle)
    | WorkerReads(p: nat)
    | WorkerServes(p: nat, setup: Setup, now: int)
    | WorkerAsks(p: nat, setup: Setup, now: int)
    | WorkerRereads(p: nat, setup: Setup)
    | WorkerPublishes(p: nat)
    | WorkerFails(p: nat, reported: Option<int>)
    | LocalMoves(host: string, after: Local)

  predicate Submits(e: Event) {
    e.SubmitCreate? || e.SubmitAction? || e.SubmitTeardown? || e.SubmitPass? || e.SubmitForget? || e.SubmitNote?
  }

  predicate Provides(e: Event) {
    || e.Visit? || e.Look? || e.SendLaunch? || e.LaunchAnswer? || e.CallMachine? || e.ListDisks? || e.ProviderError?
    || e.LaunchArrives? || e.MachineMoves?
  }

  predicate Works(e: Event) {
    || e.WorkerReads? || e.WorkerServes? || e.WorkerAsks? || e.WorkerRereads? || e.WorkerPublishes? || e.WorkerFails?
    || e.LocalMoves?
  }

  /** The worker a program belongs to, if it is one. */
  function WorkerHost(q: Program): Option<string> {
    match q
    case WorkerBegin(host) => Some(host)
    case WorkerLoaded(host, _, _) => Some(host)
    case WorkerRead(host, _, _, _) => Some(host)
    case WorkerHas(host, _, _, _) => Some(host)
    case WorkerAsked(host, _, _) => Some(host)
    case WorkerSays(host, _, _, _) => Some(host)
    case _ => None
  }

  /** The forms a program can start in; one host's disk admits one worker at a time. */
  ghost predicate MayBegin(w: World, q: Program) {
    match q
    case CreateBegin(c, id, game, name, left) => ValidConfig(c) && game in c.games && left == ATTEMPTS
    case ActionBegin(c, id, desired, left) => IsIntent(desired) && left == ATTEMPTS
    case TeardownBegin => true
    case PassBegin(c, left) => left == ATTEMPTS
    case WorkerBegin(host) => forall p | p in w.programs :: WorkerHost(w.programs[p]) != Some(host)
    case _ => false
  }

  /** The program that reads the registry document next. */
  function AfterLoad(q: Program, s: Registry): Option<Program> {
    match q
    case CreateBegin(c, id, game, name, left) => Some(CreateLoaded(c, id, game, name, left, s))
    case ActionBegin(c, id, desired, left) => Some(ActionLoaded(c, id, desired, left, s))
    case TeardownBegin => Some(TeardownLoaded(s))
    case PassBegin(c, left) => Some(PassLoaded(c, left, s))
    case Emptying(w, None) => Some(Emptying(w, Some(s)))
    case Noting(w, note, tries, None) => Some(Noting(w, note, tries, Some(s)))
    case Halting(w, CheckRevision) =>
      Some(if s.revision != w.snap.revision then Again(w) else Halting(w, LookFirst))
    case WorkerBegin(host) =>
      Some(if s.deleting || !(exists h :: h in s.hosts && h.id == host && !h.retiring) then Done
           else WorkerLoaded(host, s, 0))
    case _ => None
  }

  /** A conflict sends the whole reconcile back to its start, a limited number of times. */
  function Again(s: Sweep): Program {
    if s.left > 1 then PassBegin(s.c, s.left - 1) else Done
  }

  function NextHost(s: Sweep): Program {
    Sweeping(s.(i := s.i + 1))
  }

  /** A sweep position that names a host. */
  predicate AtHost(s: Sweep) {
    s.i < |s.snap.hosts|
  }

  ghost function VisitHost(s: Sweep, now: int): Program {
    if !AtHost(s) then Done
    else
      var h := s.snap.hosts[s.i];
      if h.retiring then
        if !s.snap.deleting && exists v :: v in s.snap.servers && v.host == h.id && v.desired != Deleted then Done
        else Deleting(s, FirstLook)
      else if NeedsMachine(h, s.snap, s.reports, now) then Waking(s, LookUp)
      else if HasGivenUp(h, s.snap, s.reports, now) then Halting(s, CheckRevision)
      else NextHost(s)
  }

  /** Waking ended well: a reconciler records the instance, a retirement looks again. */
  function Woken(q: Program, instanceId: string): Program {
    match q
    case Waking(s, _) =>
      if AtHost(s) && (s.snap.hosts[s.i].instanceId != instanceId || s.snap.hosts[s.i].error != "") then
        Noting(s, Launched(instanceId), ATTEMPTS, None)
      else NextHost(s)
    case Deleting(s, _) => Deleting(s, SecondLook)
    case _ => q
  }

  /** A provider error ends work on this host; a failed wake is noted once. */
  function GivenUp(q: Program): Program {
    match q
    case Waking(s, _) =>
      if AtHost(s) && s.snap.hosts[s.i].error != WAKE_FAILED then Noting(s, LaunchFailed, ATTEMPTS, None)
      else NextHost(s)
    case Deleting(s, _) => NextHost(s)
    case Halting(s, _) => NextHost(s)
    case _ => q
  }

  function WakePoint(q: Program): Option<WakeAt> {
    match q
    case Waking(_, wake) => Some(wake)
    case Deleting(_, Recover(wake)) => Some(wake)
    case _ => None
  }

  function AtWake(q: Program, wake: WakeAt): Program {
    match q
    case Waking(s, _) => Waking(s, wake)
    case Deleting(s, _) => Deleting(s, Recover(wake))
    case _ => q
  }

  /** The sweep of a program that is busy with one host's machine. */
  function SweepOf(q: Program): Option<Sweep> {
    match q
    case Deleting(s, _) => Some(s)
    case Waking(s, _) => Some(s)
    case Halting(s, _) => Some(s)
    case _ => None
  }

  predicate Looks(q: Program) {
    || (q.Waking? && q.wake.LookUp?)
    || (q.Deleting? && (q.del.FirstLook? || q.del.SecondLook? || q.del == Recover(LookUp)))
    || (q.Halting? && q.stop.LookFirst?)
  }

  function AfterWakeLook(q: Program, h: Host, found: Lookup): Program {
    match found
    case Absent => if h.instanceId != "" then GivenUp(q) else AtWake(q, Run)
    case Present(id, state) =>
      if state == StoppedMachine then AtWake(q, Start(id))
      else if state in {Up, Pending, StoppingMachine} then Woken(q, id)
      else GivenUp(q)
  }

  function AfterDeleteLook(s: Sweep, first: bool, h: Host, found: Lookup): Program {
    match found
    case Absent =>
      if !first then NextHost(s)
      else if h.instanceId != "" then Deleting(s, Disks)
      else if LaunchIdentity(h) then Deleting(s, Recover(LookUp))
      else NextHost(s)
    case Present(id, state) =>
      if state == Terminated then Deleting(s, Disks)
      else if state == ShuttingDown then NextHost(s)
      else Deleting(s, Terminate(id))
  }

  function AfterLook(q: Program, h: Host, found: Lookup): Program
    requires Looks(q)
  {
    match q
    case Waking(s, _) => if LaunchIdentity(h) then AfterWakeLook(q, h, found) else GivenUp(q)
    case Deleting(s, Recover(_)) => AfterWakeLook(q, h, found)
    case Deleting(s, del) => AfterDeleteLook(s, del.FirstLook?, h, found)
    case Halting(s, _) =>
      if found.Present? && found.state in {Up, Pending} then Halting(s, StopMachine(found.instanceId)) else NextHost(s)
  }

  /** Start, stop and terminate calls act on a machine that is still there to act on. */
  function Acted(m: Machine, q: Program): Machine {
    match q
    case Deleting(_, Terminate(id)) =>
      if m.instanceId == id && m.state != Terminated then m.(state := ShuttingDown) else m
    case Halting(_, StopMachine(id)) =>
      if m.instanceId == id && m.state in {Up, Pending} then m.(state := StoppingMachine) else m
    case _ =>
      if WakePoint(q).Some? && WakePoint(q).value.Start? && m.instanceId == WakePoint(q).value.instanceId
         && m.state == StoppedMachine then m.(state := Pending)
      else m
  }

  function AfterCall(q: Program): Program {
    match q
    case Deleting(s, Terminate(_)) => NextHost(s)
    case Halting(s, StopMachine(_)) => NextHost(s)
    case _ => if WakePoint(q).Some? && WakePoint(q).value.Start? then Woken(q, WakePoint(q).value.instanceId) else q
  }

  predicate Calls(q: Program) {
    || (q.Deleting? && q.del.Terminate?)
    || (q.Halting? && q.stop.StopMachine?)
    || (WakePoint(q).Some? && WakePoint(q).value.Start?)
  }

  // -- The host worker ----------------------------------------------------------------------------

  predicate LocallyReady(v: Server, seen: Option<Instance>, startedAt: int, now: int) {
    && seen.Some?
    && seen.value.startRequestId == v.requestId && seen.value.phase == Running && seen.value.desired == Running
    && seen.value.players.Some? && seen.value.error == "" && seen.value.updatedAt >= startedAt
    && now - seen.value.updatedAt <= FRESHNESS
  }

  /** How one local transaction of a sync ends: the worker holds an instance, asked for it, reports, or moves on. */
  datatype Turn = Has(instance: Instance) | Asks | Says(report: Report) | Skips

  datatype Service = Service(local: Local, turn: Turn)

  function SetupFailed(v: Server, host: string, now: int): Report {
    Report(v.id, host, v.requestId, Failed, v.desired, None, "Server setup failed. Check the host logs.", now)
  }

  function Observed(v: Server, host: string, i: Instance, startedAt: int): Report {
    var error := if i.error != "" && (v.readyAt != 0 || i.phase != Starting)
                 then "Game unavailable. Check the host logs." else "";
    if i.phase != Deleted && i.desired == Running && i.updatedAt < startedAt then
      Report(v.id, host, v.requestId, Starting, i.desired, None, error, i.updatedAt)
    else Report(v.id, host, v.requestId, i.phase, i.desired, i.players, error, i.updatedAt)
  }

  /** The second transaction: hand the request over, unless the instance already recorded it. */
  function Ask(local: Local, v: Server, host: string, i: Instance, startedAt: int, now: int): Service {
    if i.startRequestId == v.requestId then Service(local, Says(Observed(v, host, i, startedAt)))
    else
      var answer := AnswerRequest(local, v.id, v.requestId, v.desired, now);
      if answer == ClosedForShutdown then Service(local, Skips)
      else if answer != Ok then Service(local, Says(SetupFailed(v, host, now)))
      else Service(AfterRequest(local, v.id, v.requestId, v.desired, now), Asks)
  }

  /** The third: read the instance again and report it. */
  function Reread(local: Local, v: Server, host: string, startedAt: int): Turn {
    if v.id in local.store then Says(Observed(v, host, local.store[v.id], startedAt)) else Skips
  }

  /** How a worker's host is set up: default settings by game, runtime limits, and the time it booted. */
  datatype Setup = Setup(catalog: map<string, string>, idleMinutes: int, maxMinutes: int, startedAt: int)

  function CreateRequestOf(v: Server, setup: Setup): CreateRequest {
    Filled(Submitted(v.id, v.name, v.game, "docker", None, setup.idleMinutes, setup.maxMinutes), v.id, setup.catalog,
           "docker")
  }

  /** The first transaction: stop what took too long, or create what is missing. */
  function Serve(local: Local, setup: Setup, v: Server, host: string, seen: Option<Instance>, now: int): Service {
    if StartupExpired(v, now) && !LocallyReady(v, seen, setup.startedAt, now) then
      var timedOut := Report(v.id, host, v.requestId, Failed, Stopped, None, STARTUP_TIMEOUT_MESSAGE, now);
      if seen.None? then Service(local, Says(timedOut))
      else
        var answer := AnswerSetDesired(local, v.id, Stopped, now);
        if answer != Ok && answer != ClosedForShutdown then Service(local, Skips)
        else Service(AfterSetDesired(local, v.id, Stopped, now), Says(timedOut))
    else if seen.None? then
      if v.desired != Running then
        Service(local, Says(Report(v.id, host, v.requestId, v.desired, v.desired, None, "", now)))
      else
        var answer := AnswerCreate(local, setup.catalog.Keys, {"docker"}, CreateRequestOf(v, setup));
        if answer == ClosedForShutdown then Service(local, Skips)
        else if answer != Ok then Service(local, Says(SetupFailed(v, host, now)))
        else
          var created := AfterCreate(local, setup.catalog.Keys, {"docker"}, CreateRequestOf(v, setup), v.requestId,
                                     now);
          Service(created, Has(created.store[v.id]))
    else Service(local, Has(seen.value))
  }

  /** Local steps other than the worker's keep the request each instance last recorded. */
  ghost predicate LocalMove(a: Local, b: Local) {
    && (forall id | id in a.store :: id in b.store && b.store[id].startRequestId == a.store[id].startRequestId)
    && (forall id | id in b.store && id !in a.store :: b.store[id].startRequestId == "")
  }

  /** The history of applied requests grows when the recorded request changes. */
  function AppliedAfter(w: World, id: string, before: Local, after: Local): map<string, seq<string>> {
    var recorded := if id in before.store then before.store[id].startRequestId else "";
    if id in after.store && after.store[id].startRequestId != recorded then
      w.applied[id := AppliedTo(w, id) + [after.store[id].startRequestId]]
    else w.applied
  }

  // -- Steps --------------------------------------------------------------------------------------

  ghost predicate LoadStep(w: World, p: nat, q: Program, x: World) {
    var next := AfterLoad(q, w.store.registry);
    next.Some? && x == Resumed(w, p, next.value)
  }

  /** Checks made on the loaded document come before the tombstone is read. */
  ghost predicate CheckStep(w: World, p: nat, q: Program, x: World) {
    && q.CreateLoaded?
    && x == Resumed(w, p, if q.id in w.store.tombstones || q.id in ServerIds(q.snap) || q.snap.deleting then Done
                          else CreateChecked(q.c, q.id, q.game, q.name, q.left, q.snap))
  }

  predicate Unused(w: World, token: string) {
    token != "" && token !in w.minted
  }

  /**
   * What a caller hears about a save: the truth, or, when a committed save lost its answer, an error, or a conflict
   * with the document it wrote itself because the request was sent again.
   */
  predicate Tells(outcome: Outcome, told: Outcome) {
    told == outcome || outcome.Committed?
  }

  ghost predicate CreateTries(w: World, p: nat, q: Program, chosen: Option<Host>, drawn: Drawn, now: int, told: Outcome,
                              x: World) {
    && q.CreateChecked?
    && Unused(w, drawn.host) && Unused(w, drawn.launch) && Unused(w, drawn.request)
    && drawn.host != drawn.launch && drawn.host != drawn.request && drawn.launch != drawn.request
    && var plan := PlanCreate(q.c, q.id, q.game, q.name, q.snap, false, chosen, drawn, now);
       var used := w.(minted := w.minted + {drawn.host, drawn.launch, drawn.request});
       if !plan.Propose? then x == Resumed(used, p, Done)
       else
         && Tells(Swap(w.store, plan.next, q.snap.revision), told)
         && x == Resumed(AfterSave(used, plan.next, q.snap.revision), p,
                   if told.Conflict? && q.left > 1 then CreateBegin(q.c, q.id, q.game, q.name, q.left - 1) else Done)
  }

  ghost predicate CreateStep(w: World, p: nat, q: Program, seen: map<string, Lifecycle>, chosen: Option<Host>,
                             drawn: Drawn, now: int, told: Outcome, x: World) {
    q.CreateChecked? && IsChoice(q.c, q.snap, q.game.resources, seen, chosen)
    && CreateTries(w, p, q, chosen, drawn, now, told, x)
  }

  ghost predicate ActionStep(w: World, p: nat, q: Program, reports: map<string, Report>, token: string, now: int,
                             told: Outcome, x: World) {
    && q.ActionLoaded? && Unused(w, token)
    && var plan := PlanAction(q.c, q.snap, q.id, q.desired, reports, token, now);
       var used := w.(minted := w.minted + {token});
       if !plan.Change? then x == Resumed(used, p, Done)
       else
         && Tells(Swap(w.store, plan.next, q.snap.revision), told)
         && x == Resumed(AfterSave(used, plan.next, q.snap.revision), p,
                   if told.Conflict? && q.left > 1 then ActionBegin(q.c, q.id, q.desired, q.left - 1) else Done)
  }

  ghost predicate TeardownStep(w: World, p: nat, q: Program, x: World) {
    q.TeardownLoaded? && x == Resumed(AfterSave(w, q.snap.(deleting := true), q.snap.revision), p, Done)
  }

  ghost predicate PassStep(w: World, p: nat, q: Program, reports: map<string, Report>, plan: PassPlan, now: int,
                           told: Outcome, x: World) {
    && q.PassLoaded? && IsPass(q.c, q.snap, reports, now, plan)
    && var again := if q.left > 1 then PassBegin(q.c, q.left - 1) else Done;
       match plan
       case Release(next, id) =>
         && Tells(ForgetOutcome(w.store, next, q.snap.revision, id), told)
         && x == Resumed(AfterForget(w, next, q.snap.revision, id), p, if told.Conflict? then again else Done)
       case Keep(next, changed) =>
         if !changed then x == Resumed(w, p, Sweeping(Sweep(q.c, q.left, q.snap, reports, 0)))
         else
           && Tells(Swap(w.store, next, q.snap.revision), told)
           && x == Resumed(AfterSave(w, next, q.snap.revision), p,
                     match told
                     case Conflict => again
                     case Rejected => Done
                     case Committed => Sweeping(Sweep(q.c, q.left, next.(revision := q.snap.revision + 1), reports, 0)))
  }

  ghost predicate LookStep(w: World, p: nat, q: Program, found: Lookup, x: World) {
    && Looks(q) && AtHost(SweepOf(q).value)
    && var h := SweepOf(q).value.snap.hosts[SweepOf(q).value.i];
       LookupAnswers(w.machines, h, found) && x == Resumed(w, p, AfterLook(q, h, found))
  }

  ghost predicate SendStep(w: World, p: nat, q: Program, x: World) {
    && WakePoint(q) == Some(Run) && AtHost(SweepOf(q).value)
    && var h := SweepOf(q).value.snap.hosts[SweepOf(q).value.i];
       x == Resumed(w.(requests := w.requests + {Launch(h.launchToken, h.id)}), p, AtWake(q, Await))
  }

  ghost predicate AnswerStep(w: World, p: nat, q: Program, x: World) {
    && WakePoint(q) == Some(Await) && AtHost(SweepOf(q).value)
    && var h := SweepOf(q).value.snap.hosts[SweepOf(q).value.i];
       h.launchToken in w.machines && x == Resumed(w, p, Woken(q, w.machines[h.launchToken].instanceId))
  }

  ghost predicate CallStep(w: World, p: nat, q: Program, taken: bool, x: World) {
    && Calls(q)
    && x == Resumed(if taken then w.(machines := map t | t in w.machines :: Acted(w.machines[t], q)) else w, p,
                    AfterCall(q))
  }

  ghost predicate DisksStep(w: World, p: nat, q: Program, none: bool, x: World) {
    q.Deleting? && q.del.Disks? && x == Resumed(w, p, if none then Emptying(q.s, None) else NextHost(q.s))
  }

  ghost predicate ForgetStep(w: World, p: nat, q: Program, plan: ForgetPlan, told: Outcome, x: World) {
    && q.Emptying? && q.read.Some? && AtHost(q.s) && IsForgetRound(q.read.value, q.s.snap.hosts[q.s.i].id, plan)
    && match plan
       case StillOpen => x == Resumed(w, p, Done)
       case StillHolds => x == Resumed(w, p, Done)
       case Gone => x == Resumed(w, p, NextHost(q.s))
       case DropServer(next, id) =>
         && Tells(ForgetOutcome(w.store, next, q.read.value.revision, id), told)
         && x == Resumed(AfterForget(w, next, q.read.value.revision, id), p,
                   match told
                   case Conflict => Again(q.s)
                   case Rejected => Done
                   case Committed => Emptying(q.s, None))
       case DropHost(next) =>
         && Tells(Swap(w.store, next, q.read.value.revision), told)
         && x == Resumed(AfterSave(w, next, q.read.value.revision), p,
                   match told
                   case Conflict => Again(q.s)
                   case Rejected => Done
                   case Committed => NextHost(q.s))
  }

  /** A launch that was not written down ends the reconcile; a failure that was not does no harm. */
  function AfterNote(q: Program, told: Outcome): Program
    requires q.Noting?
  {
    match told
    case Conflict =>
      if q.tries > 1 then Noting(q.s, q.note, q.tries - 1, None)
      else if q.note.Launched? then Again(q.s) else NextHost(q.s)
    case Rejected => if q.note.Launched? then Done else NextHost(q.s)
    case Committed => NextHost(q.s)
  }

  ghost predicate NoteStep(w: World, p: nat, q: Program, next: Option<Registry>, told: Outcome, x: World) {
    && q.Noting? && q.read.Some? && AtHost(q.s)
    && IsNoted(q.read.value, q.s.snap.hosts[q.s.i].id, q.note, next)
    && if next.None? then x == Resumed(w, p, NextHost(q.s))
       else
         && Tells(Swap(w.store, next.value, q.read.value.revision), told)
         && x == Resumed(AfterSave(w, next.value, q.read.value.revision), p, AfterNote(q, told))
  }

  /** The provider makes a machine for a token it has not seen, and answers repeated tokens with the same one. */
  ghost predicate ArriveStep(w: World, l: Launch, instanceId: string, x: World) {
    && l in w.requests
    && if l.token in w.machines then x == w
       else
         && instanceId != "" && (forall t | t in w.machines :: w.machines[t].instanceId != instanceId)
         && x == w.(machines := w.machines[l.token := Machine(instanceId, l.host, Pending)])
  }

  ghost predicate ReadStep(w: World, p: nat, q: Program, x: World) {
    && q.WorkerLoaded?
    && x == Resumed(w, p,
         if q.i >= |q.snap.servers| then Done
         else if q.snap.servers[q.i].host != q.host then WorkerLoaded(q.host, q.snap, q.i + 1)
         else
           var store := LocalOf(w, q.host).store;
           var id := q.snap.servers[q.i].id;
           WorkerRead(q.host, q.snap, q.i, if id in store then Some(store[id]) else None))
  }

  /** A worker's program while it serves one server of its document. */
  predicate Serving(q: Program) {
    (q.WorkerRead? || q.WorkerHas? || q.WorkerAsked? || q.WorkerSays?) && q.i < |q.snap.servers|
  }

  function AfterTurn(q: Program, turn: Turn): Program
    requires Serving(q)
  {
    match turn
    case Has(i) => WorkerHas(q.host, q.snap, q.i, i)
    case Asks => WorkerAsked(q.host, q.snap, q.i)
    case Says(report) => WorkerSays(q.host, q.snap, q.i, report)
    case Skips => WorkerLoaded(q.host, q.snap, q.i + 1)
  }

  /** A transaction of the worker takes effect on its host, and the worker goes on. */
  predicate Transacts(w: World, p: nat, q: Program, done: Service, x: World)
    requires Serving(q)
  {
    x == Resumed(w.(locals := w.locals[q.host := done.local],
                    applied := AppliedAfter(w, q.snap.servers[q.i].id, LocalOf(w, q.host), done.local)),
                 p, AfterTurn(q, done.turn))
  }

  ghost predicate ServeStep(w: World, p: nat, q: Program, setup: Setup, now: int, x: World) {
    && q.WorkerRead? && Serving(q)
    && Transacts(w, p, q, Serve(LocalOf(w, q.host), setup, q.snap.servers[q.i], q.host, q.seen, now), x)
  }

  ghost predicate AskStep(w: World, p: nat, q: Program, setup: Setup, now: int, x: World) {
    && q.WorkerHas? && Serving(q)
    && Transacts(w, p, q, Ask(LocalOf(w, q.host), q.snap.servers[q.i], q.host, q.instance, setup.startedAt, now), x)
  }

  ghost predicate RereadStep(w: World, p: nat, q: Program, setup: Setup, x: World) {
    && q.WorkerAsked? && Serving(q)
    && x == Resumed(w, p, AfterTurn(q, Reread(LocalOf(w, q.host), q.snap.servers[q.i], q.host, setup.startedAt)))
  }

  ghost predicate PublishStep(w: World, p: nat, q: Program, x: World) {
    q.WorkerSays? && x == Resumed(w.(store := Published(w.store, q.report)), p, WorkerLoaded(q.host, q.snap, q.i + 1))
  }

  /** Where a sync asks the controller for something, and reports a refusal as a failed setup. */
  predicate Requests(q: Program) {
    Serving(q) && (q.WorkerRead? || q.WorkerHas?)
  }

  /**
   * An error of the host's store or of the table ends the work on one server, or is reported as a failed setup; the
   * sync goes on with the next server.
   */
  ghost predicate StumbleStep(w: World, p: nat, q: Program, reported: Option<int>, x: World) {
    && Serving(q)
    && match reported
       case None => x == Resumed(w, p, AfterTurn(q, Skips))
       case Some(now) =>
         Requests(q) && x == Resumed(w, p, AfterTurn(q, Says(SetupFailed(q.snap.servers[q.i], q.host, now))))
  }

  /** Programs that submit a document. */
  ghost predicate Submission(w: World, e: Event, x: World) {
    match e
    case SubmitCreate(p, seen, chosen, drawn, now, told) =>
      p in w.programs && CreateStep(w, p, w.programs[p], seen, chosen, drawn, now, told, x)
    case SubmitAction(p, reports, token, now, told) =>
      p in w.programs && ActionStep(w, p, w.programs[p], reports, token, now, told, x)
    case SubmitTeardown(p) => p in w.programs && TeardownStep(w, p, w.programs[p], x)
    case SubmitPass(p, reports, plan, now, told) =>
      p in w.programs && PassStep(w, p, w.programs[p], reports, plan, now, told, x)
    case SubmitForget(p, plan, told) => p in w.programs && ForgetStep(w, p, w.programs[p], plan, told, x)
    case SubmitNote(p, next, told) => p in w.programs && NoteStep(w, p, w.programs[p], next, told, x)
    case _ => false
  }

  /** Reconcilers at work on machines, and the provider. */
  ghost predicate Provision(w: World, e: Event, x: World) {
    match e
    case Visit(p, now) =>
      p in w.programs && w.programs[p].Sweeping? && x == Resumed(w, p, VisitHost(w.programs[p].s, now))
    case Look(p, found) => p in w.programs && LookStep(w, p, w.programs[p], found, x)
    case SendLaunch(p) => p in w.programs && SendStep(w, p, w.programs[p], x)
    case LaunchAnswer(p) => p in w.programs && AnswerStep(w, p, w.programs[p], x)
    case CallMachine(p, taken) => p in w.programs && CallStep(w, p, w.programs[p], taken, x)
    case ListDisks(p, none) => p in w.programs && DisksStep(w, p, w.programs[p], none, x)
    case ProviderError(p) =>
      p in w.programs && SweepOf(w.programs[p]).Some? && x == Resumed(w, p, GivenUp(w.programs[p]))
    case LaunchArrives(launch, instanceId) => ArriveStep(w, launch, instanceId, x)
    case MachineMoves(token, state) =>
      && token in w.machines && MayBecome(w.machines[token].state, state)
      && x == w.(machines := w.machines[token := w.machines[token].(state := state)])
    case _ => false
  }

  /** Host workers, and their hosts. */
  ghost predicate WorkerStep(w: World, e: Event, x: World) {
    match e
    case WorkerReads(p) => p in w.programs && ReadStep(w, p, w.programs[p], x)
    case WorkerServes(p, setup, now) => p in w.programs && ServeStep(w, p, w.programs[p], setup, now, x)
    case WorkerAsks(p, setup, now) => p in w.programs && AskStep(w, p, w.programs[p], setup, now, x)
    case WorkerRereads(p, setup) => p in w.programs && RereadStep(w, p, w.programs[p], setup, x)
    case WorkerPublishes(p) => p in w.programs && PublishStep(w, p, w.programs[p], x)
    case WorkerFails(p, reported) => p in w.programs && StumbleStep(w, p, w.programs[p], reported, x)
    case LocalMoves(host, next) =>
      LocalMove(LocalOf(w, host), next) && x == w.(locals := w.locals[host := next])
    case _ => false
  }

  /** How programs begin, end, and read. */
  ghost predicate ReaderStep(w: World, e: Event, x: World) {
    match e
    case Spawn(p, program) => p !in w.programs && MayBegin(w, program) && x == Resumed(w, p, program)
    case Fail(p) => p in w.programs && x == Resumed(w, p, Done)
    case Load(p) => p in w.programs && LoadStep(w, p, w.programs[p], x)
    case CheckTombstone(p) => p in w.programs && CheckStep(w, p, w.programs[p], x)
    case _ => false
  }

  ghost predicate Step(w: World, e: Event, x: World) {
    Submission(w, e, x) || Provision(w, e, x) || WorkerStep(w, e, x) || ReaderStep(w, e, x)
  }

  lemma SubmissionSubmits(w: World, e: Event, x: World)
    requires Submission(w, e, x)
    ensures Submits(e)
  {
    hide CreateStep, ActionStep, TeardownStep, PassStep, ForgetStep, NoteStep;
  }

  lemma ProvisionProvides(w: World, e: Event, x: World)
    requires Provision(w, e, x)
    ensures Provides(e)
  {
    hide VisitHost, LookStep, SendStep, AnswerStep, CallStep, DisksStep, SweepOf, GivenUp, ArriveStep, MayBecome,
         Resumed;
  }

  lemma WorkerStepWorks(w: World, e: Event, x: World)
    requires WorkerStep(w, e, x)
    ensures Works(e)
  {
    hide ReadStep, ServeStep, AskStep, RereadStep, PublishStep, StumbleStep, LocalMove;
  }

  lemma ReaderStepReads(w: World, e: Event, x: World)
    requires ReaderStep(w, e, x)
    ensures !Submits(e) && !Provides(e) && !Works(e)
  {
    hide MayBegin, LoadStep, CheckStep;
  }

  /** Each event belongs to one kind of step. */
  lemma StepIsOfItsKind(w: World, e: Event, x: World)
    requires Step(w, e, x)
    ensures Submits(e) ==> Submission(w, e, x)
    ensures Provides(e) ==> Provision(w, e, x)
    ensures Works(e) ==> WorkerStep(w, e, x)
    ensures !Submits(e) && !Provides(e) && !Works(e) ==> ReaderStep(w, e, x)
  {
    hide Submission, Provision, WorkerStep, ReaderStep;
    if Submission(w, e, x) {
      SubmissionSubmits(w, e, x);
    } else if Provision(w, e, x) {
      ProvisionProvides(w, e, x);
    } else if WorkerStep(w, e, x) {
      WorkerStepWorks(w, e, x);
    } else {
      ReaderStepReads(w, e, x);
    }
  }
}
