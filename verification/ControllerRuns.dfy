/** Reconciliation of one host: passes over the saved instances racing with user intent and idle shutdown. */
module ControllerRuns {
  import opened FleetState
  import opened Controller

  // -- One observation ----------------------------------------------------------------------------

  datatype Observation = Observation(started: bool, present: bool, running: bool, failure: string)

  const NOTHING_SEEN := Observation(false, false, false, "")

  datatype Agent = Unreachable(why: string) | Reached(running: bool, ready: bool, players: int, error: string)

  const MAX_RUNTIME := "Maximum runtime reached"
  const IDLE_TIMEOUT := "Server empty for idle timeout"
  const EXITED := "Game exited; stop and start to retry"

  function WithAgent(i: Instance, a: Agent, now: int): Instance {
    match a
    case Unreachable(why) => i.(error := "Agent unavailable: " + why, players := None, emptySince := 0,
                                phase := Starting)
    case Reached(running, ready, players, error) =>
      if !running then i.(phase := Failed, error := if error != "" then error else "Game process exited")
      else if !ready then i.(phase := Starting, emptySince := 0)
      else
        var up := i.(phase := Running, players := Some(players), error := "");
        if players > 0 then up.(emptySince := 0)
        else
          var empty := if up.emptySince == 0 then up.(emptySince := now) else up;
          if empty.idleMinutes > 0 && now - empty.emptySince >= empty.idleMinutes * 60 then
            empty.(desired := Stopped, stopReason := IDLE_TIMEOUT)
          else empty
  }

  /** What one reconciliation of `snap` found: an operation error, or a phase with its observation. */
  datatype Finding = Finding(phase: Status, seen: Observation, failed: Option<string>)

  function WithFinding(current: Instance, snap: Instance, f: Finding, a: Agent, now: int): Instance {
    if current.generation != snap.generation then current
    else
      var touched := current.(updatedAt := now);
      if f.failed.Some? then touched.(error := f.failed.value, players := None, emptySince := 0)
      else
        var observed := touched.(phase := f.phase, error := f.seen.failure, players := None);
        if f.phase == Running then WithAgent(observed, a, now) else observed.(emptySince := 0)
  }

  /** The maximum-runtime stop, applied only to the generation that was observed. */
  function WithTimeout(current: Instance, snap: Instance): Instance {
    if current.desired == Running && current.generation == snap.generation then
      current.(desired := Stopped, stopReason := MAX_RUNTIME)
    else current
  }

  predicate OverAge(i: Instance, now: int) {
    i.desired == Running && i.maxMinutes > 0 && now - i.startedAt >= i.maxMinutes * 60
  }

  method ApplyAgentStatus(saved: Instance, a: Agent, now: int) returns (current: Instance)
    ensures current == WithAgent(saved, a, now)
  {
    current := saved;
    match a
    case Unreachable(why) =>
      current := current.(error := "Agent unavailable: " + why);
      current := current.(players := None);
      current := current.(emptySince := 0);
      current := current.(phase := Starting);
    case Reached(running, ready, players, error) =>
      if !running {
        current := current.(phase := Failed);
        current := current.(error := "Game process exited");
        if error != "" {
          current := current.(error := error);
        }
        return;
      }
      if !ready {
        current := current.(phase := Starting);
        current := current.(emptySince := 0);
        return;
      }
      current := current.(phase := Running);
      current := current.(players := Some(players));
      current := current.(error := "");
      if players > 0 {
        current := current.(emptySince := 0);
        return;
      }
      if current.emptySince == 0 {
        current := current.(emptySince := now);
      }
      if current.idleMinutes > 0 && now - current.emptySince >= current.idleMinutes * 60 {
        current := current.(desired := Stopped);
        current := current.(stopReason := IDLE_TIMEOUT);
      }
  }

  /** The transaction that records an observation. */
  method SaveObservation(saved: Instance, snap: Instance, f: Finding, a: Agent, now: int) returns (current: Instance)
    ensures current == WithFinding(saved, snap, f, a, now)
  {
    current := saved;
    if current.generation != snap.generation {
      return;
    }
    current := current.(updatedAt := now);
    if f.failed.Some? {
      current := current.(error := f.failed.value);
      current := current.(players := None);
      current := current.(emptySince := 0);
      return;
    }
    current := current.(phase := f.phase);
    current := current.(error := f.seen.failure);
    current := current.(players := None);
    if f.phase == Running {
      current := ApplyAgentStatus(current, a, now);
    } else {
      current := current.(emptySince := 0);
    }
  }

  // -- The node -----------------------------------------------------------------------------------

  /** Where the reconciliation of one instance stands between two provider calls. */
  datatype At = Begun | Inspected(seen: Observation) | MustEnsure | MustStart(seen: Observation) | Found(f: Finding)

  datatype Flight = Flight(snap: Instance, at: At)

  const SLOTS := 4

  /**
   * A pass lists all instances once, launches at most four reconciliations at a time and ends only when all of
   * them are done. `installed` and `running` are the games the provider has on this host.
   */
  datatype Node = Node(local: Local, passing: bool, queue: map<string, Instance>, flights: map<string, Flight>,
                       installed: set<string>, running: set<string>)

  /** What the provider answers, one call at a time, while one instance is reconciled. */
  datatype Call =
    | ProviderMissing(why: string)
    | DeleteGame(failed: Option<string>)
    | Inspect(seen: Observation, now: int)
    | InspectFails(why: string, now: int)
    | StopGame(failed: Option<string>)
    | NothingToStop
    | StaysFailed
    | PrepareFails(why: string)
    | StillPreparing
    | Prepared
    | EnsureGame(seen: Observation, failed: Option<string>)
    | GameIsPresent
    | StartGame(failed: Option<string>)

  datatype UserEvent =
    | Desires(id: string, desired: Status, now: int)
    | Requests(id: string, requestId: string, desired: Status, now: int)
    | Creates(request: CreateRequest, requestId: string, now: int)

  datatype Event =
    | User(user: UserEvent)
    | TryIdleShutdown
    | BeginPass
    | SkipDeleted(id: string)
    | Launch(id: string)
    | CancelPass
    | EndPass
    | Provider(id: string, call: Call)
    | TimeOut(id: string, now: int, failed: Option<string>)
    | Save(id: string, agent: Agent, now: int)
    | SaveFails(id: string)
    | GameExits(id: string)
    | Restart(running: set<string>)

  /** A present game that is not running is started, unless it already ran and was not asked for again. */
  function AfterPresence(snap: Instance, seen: Observation): At {
    if seen.running then Found(Finding(Running, seen, None))
    else if snap.phase != Queued && seen.started then Found(Finding(Failed, seen.(failure := EXITED), None))
    else MustStart(seen)
  }

  /** The next point of one reconciliation, or none when it does not make this call here. */
  function Next(f: Flight, call: Call): Option<At> {
    var snap := f.snap;
    match f.at
    case Begun =>
      (match call
       case ProviderMissing(why) => Some(Found(Finding(snap.phase, NOTHING_SEEN, Some(why))))
       case DeleteGame(failed) =>
         if snap.desired == Deleted then Some(Found(Finding(Deleted, NOTHING_SEEN, failed))) else None
       case Inspect(seen, now) =>
         if snap.desired != Deleted && !OverAge(snap, now) then Some(Inspected(seen)) else None
       case InspectFails(why, now) =>
         if snap.desired != Deleted && !OverAge(snap, now) then
           Some(Found(Finding(snap.phase, NOTHING_SEEN, Some(why))))
         else None
       case _ => None)
    case Inspected(seen) =>
      (match call
       case StopGame(failed) =>
         if snap.desired == Stopped && seen.running then Some(Found(Finding(Stopping, seen, failed))) else None
       case NothingToStop =>
         if snap.desired == Stopped && !seen.running then Some(Found(Finding(Stopped, seen, None))) else None
       case GameIsPresent =>
         if snap.desired == Running && seen.present then Some(AfterPresence(snap, seen)) else None
       case StaysFailed =>
         if snap.desired == Running && !seen.present && snap.phase == Failed then
           Some(Found(Finding(Failed, NOTHING_SEEN.(failure := snap.error), None)))
         else None
       case PrepareFails(why) =>
         if snap.desired == Running && !seen.present && snap.phase != Failed then
           Some(Found(Finding(Failed, NOTHING_SEEN.(failure := why), None)))
         else None
       case StillPreparing =>
         if snap.desired == Running && !seen.present && snap.phase != Failed then
           Some(Found(Finding(Preparing, NOTHING_SEEN, None)))
         else None
       case Prepared =>
         if snap.desired == Running && !seen.present && snap.phase != Failed then Some(MustEnsure) else None
       case _ => None)
    case MustEnsure =>
      if call.EnsureGame? then
        Some(if call.failed.Some? then Found(Finding(Queued, call.seen, call.failed))
             else AfterPresence(snap, call.seen))
      else None
    case MustStart(seen) =>
      if call.StartGame? then Some(Found(Finding(Starting, seen, call.failed))) else None
    case Found(_) => None
  }

  /** The games a provider call may leave on disk; a failed installation counts as done. */
  function InstalledAfter(installed: set<string>, id: string, call: Call): set<string> {
    match call
    case EnsureGame(_, _) => installed + {id}
    case DeleteGame(failed) => if failed.None? then installed - {id} else installed
    case _ => installed
  }

  /** The games that may be running after a call; a failed start counts as done. */
  function RunningAfter(running: set<string>, id: string, call: Call): set<string> {
    match call
    case StartGame(_) => running + {id}
    case DeleteGame(failed) => if failed.None? then running - {id} else running
    case StopGame(failed) => if failed.None? then running - {id} else running
    case _ => running
  }

  function WithStored(n: Node, id: string, i: Instance): Node {
    n.(local := n.local.(store := n.local.store[id := i]))
  }

  function AfterUser(games: set<string>, providers: set<string>, c: Local, u: UserEvent): Local {
    match u
    case Desires(id, desired, now) => AfterSetDesired(c, id, desired, now)
    case Requests(id, requestId, desired, now) => AfterRequest(c, id, requestId, desired, now)
    case Creates(r, requestId, now) => AfterCreate(c, games, providers, r, requestId, now)
  }

  function Moved(n: Node, id: string, at: At): Node
    requires id in n.flights
  {
    n.(flights := n.flights[id := n.flights[id].(at := at)])
  }

  /** A new controller process: the store and the installed games are on disk, everything else is gone. */
  function Rebooted(n: Node, running: set<string>): Node {
    Node(Local(false, n.local.store), false, map[], map[], n.installed, running)
  }

  ghost predicate CallStep(n: Node, id: string, call: Call, m: Node) {
    && id in n.flights && Next(n.flights[id], call).Some?
    && m == Moved(n, id, Next(n.flights[id], call).value)
            .(installed := InstalledAfter(n.installed, id, call), running := RunningAfter(n.running, id, call))
  }

  ghost predicate TimeOutStep(n: Node, id: string, now: int, failed: Option<string>, m: Node) {
    && id in n.flights && n.flights[id].at == Begun && OverAge(n.flights[id].snap, now) && id in n.local.store
    && var stopped := if failed.None? then WithStored(n, id, WithTimeout(n.local.store[id], n.flights[id].snap)) else n;
       m == Moved(stopped, id, Found(Finding(Stopping, NOTHING_SEEN, failed)))
  }

  ghost predicate SaveStep(n: Node, id: string, agent: Agent, now: int, m: Node) {
    && id in n.flights && n.flights[id].at.Found? && id in n.local.store
    && m == WithStored(n, id, WithFinding(n.local.store[id], n.flights[id].snap, n.flights[id].at.f, agent, now))
            .(flights := n.flights - {id})
  }

  ghost predicate LaunchStep(n: Node, id: string, m: Node) {
    && id in n.queue && n.queue[id].phase != Deleted && |n.flights| < SLOTS
    && m == n.(queue := n.queue - {id}, flights := n.flights[id := Flight(n.queue[id], Begun)])
  }

  /** One step of the host, given the catalog it was configured with. */
  ghost predicate Step(games: set<string>, providers: set<string>, n: Node, e: Event, m: Node) {
    match e
    case User(user) => m == n.(local := AfterUser(games, providers, n.local, user))
    case TryIdleShutdown =>
      m == n.(local := n.local.(shuttingDown := n.local.shuttingDown || InstancesIdle(n.local.store)))
    case BeginPass => !n.passing && m == n.(passing := true, queue := n.local.store)
    case SkipDeleted(id) => id in n.queue && n.queue[id].phase == Deleted && m == n.(queue := n.queue - {id})
    case Launch(id) => LaunchStep(n, id, m)
    case CancelPass => m == n.(queue := map[])
    case EndPass => n.passing && n.queue == map[] && n.flights == map[] && m == n.(passing := false)
    case Provider(id, call) => CallStep(n, id, call, m)
    case TimeOut(id, now, failed) => TimeOutStep(n, id, now, failed, m)
    case Save(id, agent, now) => SaveStep(n, id, agent, now, m)
    case SaveFails(id) => id in n.flights && n.flights[id].at.Found? && m == n.(flights := n.flights - {id})
    case GameExits(id) => m == n.(running := n.running - {id})
    case Restart(running) => m == Rebooted(n, running)
  }

  // -- Invariant ----------------------------------------------------------------------------------

  /** How a record relates to an earlier copy of itself. */
  predicate Follows(snap: Instance, current: Instance) {
    && snap.generation <= current.generation
    && (snap.desired == Deleted ==> current.desired == Deleted)
    && current.idleMinutes == snap.idleMinutes && current.maxMinutes == snap.maxMinutes
    && (snap.generation == current.generation ==>
          && current.startedAt == snap.startedAt
          && (current.desired == snap.desired || (snap.desired == Running && current.desired == Stopped)))
  }

  /** Phases never claim more than was asked for and done. */
  predicate PhaseIsHonest(n: Node, id: string, i: Instance) {
    && (i.phase == Stopped ==> i.desired != Running)
    && (i.phase == Deleted ==> i.desired == Deleted && i.error == "" && id !in n.installed)
  }

  /** A record copied for a reconciliation that is still to be saved. */
  predicate CopyIsCurrent(n: Node, id: string, snap: Instance) {
    && id in n.local.store
    && Follows(snap, n.local.store[id])
    && snap.phase != Deleted && n.local.store[id].phase != Deleted
    && (snap.desired == Running ==> n.local.store[id].phase != Stopped)
  }

  predicate FlightIsHonest(n: Node, id: string, f: Flight) {
    match f.at
    case Begun => true
    case Inspected(seen) => f.snap.desired in {Running, Stopped}
    case MustEnsure => f.snap.desired == Running && f.snap.phase != Failed
    case MustStart(seen) =>
      f.snap.desired == Running && !seen.running && (f.snap.phase == Queued || !seen.started)
    case Found(g) => g.failed.None? ==>
      && (g.phase == Stopped ==> f.snap.desired == Stopped)
      && (g.phase == Running ==> f.snap.desired == Running)
      && (g.phase == Deleted ==> f.snap.desired == Deleted && g.seen.failure == "" && id !in n.installed)
  }

  ghost predicate Inv(n: Node) {
    && (forall id | id in n.local.store ::
          IsIntent(n.local.store[id].desired) && PhaseIsHonest(n, id, n.local.store[id]))
    && (forall id | id in n.queue :: id !in n.flights && id in n.local.store && IsIntent(n.queue[id].desired)
          && (n.queue[id].phase == Deleted ==> n.queue[id].desired == Deleted)
          && (n.queue[id].phase != Deleted ==> CopyIsCurrent(n, id, n.queue[id])))
    && (forall id | id in n.flights :: IsIntent(n.flights[id].snap.desired)
          && CopyIsCurrent(n, id, n.flights[id].snap) && FlightIsHonest(n, id, n.flights[id]))
    && (!n.passing ==> n.queue == map[] && n.flights == map[])
  }

  // -- Every step keeps the invariant -------------------------------------------------------------

  lemma IntentFollows(i: Instance, desired: Status, now: int)
    requires IsIntent(desired) && IsIntent(i.desired) && WithDesired(i, desired, now).Some?
    ensures var j := WithDesired(i, desired, now).value;
      && Follows(i, j) && IsIntent(j.desired)
      && (j.phase == i.phase || j.phase == Queued)
      && (i.phase == Stopped && i.desired != Running ==> j.phase == Queued || j.desired != Running)
      && (i.phase == Deleted && i.error == "" && i.desired == Deleted ==> j == i)
  {
  }

  lemma FollowsIsTransitive(a: Instance, b: Instance, c: Instance)
    requires Follows(a, b) && Follows(b, c)
    ensures Follows(a, c)
  {
  }

  /** Storing a later version of one record keeps the invariant when phases stay honest. */
  lemma StoringKeeps(n: Node, id: string, j: Instance)
    requires Inv(n) && id in n.local.store
    requires Follows(n.local.store[id], j) && IsIntent(j.desired) && PhaseIsHonest(n, id, j)
    requires j.phase == Deleted ==> id !in n.flights && n.local.store[id].phase == Deleted
    requires j.phase == Stopped ==> id in n.queue || id in n.flights ==> n.local.store[id].phase == Stopped
    ensures Inv(WithStored(n, id, j))
  {
    hide FlightIsHonest;
    var m := WithStored(n, id, j);
    forall k | k in m.queue && m.queue[k].phase != Deleted ensures CopyIsCurrent(m, k, m.queue[k]) {
      hide Follows;
      if k == id {
        FollowsIsTransitive(n.queue[k], n.local.store[k], j);
      }
    }
    forall k | k in m.flights ensures CopyIsCurrent(m, k, m.flights[k].snap) && FlightIsHonest(m, k, m.flights[k]) {
      hide Follows;
      SameInstalled(n, m, k, m.flights[k]);
      if k == id {
        FollowsIsTransitive(n.flights[k].snap, n.local.store[k], j);
      }
    }
  }

  lemma SameInstalled(n: Node, m: Node, k: string, f: Flight)
    requires m.installed == n.installed && FlightIsHonest(n, k, f)
    ensures FlightIsHonest(m, k, f)
  {
  }

  lemma DesireKeeps(n: Node, id: string, desired: Status, now: int)
    requires Inv(n) && AnswerSetDesired(n.local, id, desired, now) == Ok
    ensures Inv(n.(local := AfterSetDesired(n.local, id, desired, now)))
  {
    IntentFollows(n.local.store[id], desired, now);
    StoringKeeps(n, id, WithDesired(n.local.store[id], desired, now).value);
  }

  lemma RequestKeeps(n: Node, id: string, requestId: string, desired: Status, now: int)
    requires Inv(n) && AnswerRequest(n.local, id, requestId, desired, now) == Ok
    ensures Inv(n.(local := AfterRequest(n.local, id, requestId, desired, now)))
  {
    if n.local.store[id].startRequestId != requestId {
      IntentFollows(n.local.store[id], desired, now);
    }
    StoringKeeps(n, id, WithRequest(n.local.store[id], requestId, desired, now).value);
  }

  lemma CreateKeeps(games: set<string>, providers: set<string>, n: Node, r: CreateRequest, requestId: string, now: int)
    requires Inv(n)
    ensures Inv(n.(local := AfterCreate(n.local, games, providers, r, requestId, now)))
  {
    hide Trimmed, Wellformed, SameSettings;
  }

  lemma AgentKeepsIntent(i: Instance, a: Agent, now: int)
    requires i.desired in {Running, Stopped}
    ensures var j := WithAgent(i, a, now);
      && j.generation == i.generation && j.phase in {Starting, Failed, Running}
      && (j.desired == i.desired || j.desired == Stopped)
  {
  }

  /** Only the generation it observed takes a result, so the result cannot contradict newer intent. */
  lemma FindingFollows(current: Instance, snap: Instance, f: Finding, a: Agent, now: int)
    requires Follows(snap, current) && IsIntent(current.desired) && IsIntent(snap.desired)
    requires f.failed.None? && f.phase == Running ==> snap.desired == Running
    ensures var j := WithFinding(current, snap, f, a, now);
      && Follows(current, j) && IsIntent(j.desired)
      && (j != current && f.failed.None? ==>
            if f.phase == Running then j.phase in {Starting, Failed, Running}
            else j.phase == f.phase && j.error == f.seen.failure && j.desired == current.desired)
      && (j.desired == current.desired || j.desired == Stopped)
      && (f.failed.Some? ==> j.phase == current.phase && j.desired == current.desired)
  {
    if current.generation == snap.generation && f.failed.None? && f.phase == Running {
      AgentKeepsIntent(current.(updatedAt := now, phase := f.phase, error := f.seen.failure, players := None), a, now);
    }
  }

  /** A reconciliation ends by storing a later, honest version of its record. */
  lemma LandingKeeps(n: Node, id: string, j: Instance, m: Node)
    requires Inv(n) && id in n.flights
    requires Follows(n.local.store[id], j) && IsIntent(j.desired) && PhaseIsHonest(n, id, j)
    requires m == WithStored(n, id, j).(flights := n.flights - {id})
    ensures Inv(m)
  {
    forall k | k in m.flights ensures CopyIsCurrent(m, k, m.flights[k].snap) && FlightIsHonest(m, k, m.flights[k]) {
      assert k in n.flights && CopyIsCurrent(n, k, n.flights[k].snap) && FlightIsHonest(n, k, n.flights[k]);
    }
    forall k | k in m.local.store ensures IsIntent(m.local.store[k].desired) && PhaseIsHonest(m, k, m.local.store[k]) {
      assert k != id ==> PhaseIsHonest(n, k, n.local.store[k]);
    }
    forall k | k in m.queue && m.queue[k].phase != Deleted ensures CopyIsCurrent(m, k, m.queue[k]) {
      assert k != id && CopyIsCurrent(n, k, n.queue[k]);
    }
  }

  lemma SavedIsHonest(n: Node, id: string, agent: Agent, now: int)
    requires Inv(n) && id in n.flights && n.flights[id].at.Found?
    ensures id in n.local.store
    ensures var j := WithFinding(n.local.store[id], n.flights[id].snap, n.flights[id].at.f, agent, now);
      Follows(n.local.store[id], j) && IsIntent(j.desired) && PhaseIsHonest(n, id, j)
      && (j.desired == n.local.store[id].desired || j.desired == Stopped)
  {
    var f := n.flights[id];
    assert CopyIsCurrent(n, id, f.snap) && FlightIsHonest(n, id, f);
    FindingFollows(n.local.store[id], f.snap, f.at.f, agent, now);
  }

  lemma SaveKeeps(n: Node, id: string, agent: Agent, now: int, m: Node)
    requires Inv(n) && SaveStep(n, id, agent, now, m)
    ensures Inv(m)
  {
    SavedIsHonest(n, id, agent, now);
    LandingKeeps(n, id, WithFinding(n.local.store[id], n.flights[id].snap, n.flights[id].at.f, agent, now), m);
  }

  /** A flight advances, while the provider's games change only for its own instance. */
  lemma MoveKeeps(n: Node, id: string, at: At, m: Node)
    requires Inv(n) && id in n.flights
    requires m == Moved(n, id, at).(installed := m.installed, running := m.running)
    requires m.installed <= n.installed + {id}
    requires FlightIsHonest(m, id, Flight(n.flights[id].snap, at))
    ensures Inv(m)
  {
    assert CopyIsCurrent(n, id, n.flights[id].snap);
    forall k | k in m.flights ensures CopyIsCurrent(m, k, m.flights[k].snap) && FlightIsHonest(m, k, m.flights[k]) {
      assert CopyIsCurrent(n, k, n.flights[k].snap) && FlightIsHonest(n, k, n.flights[k]);
    }
  }

  lemma TimeOutKeeps(n: Node, id: string, now: int, failed: Option<string>, m: Node)
    requires Inv(n) && TimeOutStep(n, id, now, failed, m)
    ensures Inv(m)
  {
    var stopped := n;
    if failed.None? {
      assert CopyIsCurrent(n, id, n.flights[id].snap);
      StoringKeeps(n, id, WithTimeout(n.local.store[id], n.flights[id].snap));
      stopped := WithStored(n, id, WithTimeout(n.local.store[id], n.flights[id].snap));
    }
    MoveKeeps(stopped, id, Found(Finding(Stopping, NOTHING_SEEN, failed)), m);
  }

  /** Each call leads a reconciliation to a point its copy of the instance justifies. */
  lemma NextIsHonest(n: Node, id: string, f: Flight, call: Call, m: Node)
    requires FlightIsHonest(n, id, f) && IsIntent(f.snap.desired) && Next(f, call).Some?
    requires m.installed == InstalledAfter(n.installed, id, call)
    ensures FlightIsHonest(m, id, Flight(f.snap, Next(f, call).value))
  {
  }

  lemma CallKeeps(n: Node, id: string, call: Call, m: Node)
    requires Inv(n) && CallStep(n, id, call, m)
    ensures Inv(m)
  {
    NextIsHonest(n, id, n.flights[id], call, m);
    MoveKeeps(n, id, Next(n.flights[id], call).value, m);
  }

  lemma BeginKeeps(n: Node, m: Node)
    requires Inv(n) && !n.passing && m == n.(passing := true, queue := n.local.store)
    ensures Inv(m)
  {
    forall k | k in m.queue && m.queue[k].phase != Deleted ensures CopyIsCurrent(m, k, m.queue[k]) {
      assert PhaseIsHonest(n, k, n.local.store[k]);
    }
  }

  lemma OnlyLocalMatters(n: Node, m: Node, id: string, i: Instance, at: At)
    requires m.local == n.local && m.installed == n.installed
    ensures CopyIsCurrent(m, id, i) == CopyIsCurrent(n, id, i)
    ensures FlightIsHonest(m, id, Flight(i, at)) == FlightIsHonest(n, id, Flight(i, at))
    ensures PhaseIsHonest(m, id, i) == PhaseIsHonest(n, id, i)
    ensures FlightIsHonest(n, id, Flight(i, Begun))
  {
  }

  lemma LaunchedFlights(n: Node, id: string, m: Node)
    requires Inv(n) && LaunchStep(n, id, m)
    ensures forall k | k in m.flights :: k !in m.queue && IsIntent(m.flights[k].snap.desired)
              && CopyIsCurrent(m, k, m.flights[k].snap) && FlightIsHonest(m, k, m.flights[k])
  {
    hide CopyIsCurrent, PhaseIsHonest, FlightIsHonest;
    forall k | k in m.flights
      ensures k !in m.queue && IsIntent(m.flights[k].snap.desired)
              && CopyIsCurrent(m, k, m.flights[k].snap) && FlightIsHonest(m, k, m.flights[k])
    {
      OnlyLocalMatters(n, m, k, m.flights[k].snap, m.flights[k].at);
      assert k != id ==> m.flights[k] == n.flights[k];
    }
  }

  lemma LaunchKeeps(n: Node, id: string, m: Node)
    requires Inv(n) && LaunchStep(n, id, m)
    ensures Inv(m)
  {
    hide CopyIsCurrent, PhaseIsHonest, FlightIsHonest;
    LaunchedFlights(n, id, m);
    forall k | k in m.queue
      ensures k !in m.flights && k in n.queue && m.queue[k] == n.queue[k]
      ensures m.queue[k].phase != Deleted ==> CopyIsCurrent(m, k, m.queue[k])
    {
      OnlyLocalMatters(n, m, k, m.queue[k], Begun);
    }
    forall k | k in m.local.store ensures PhaseIsHonest(m, k, m.local.store[k]) {
      OnlyLocalMatters(n, m, k, m.local.store[k], Begun);
    }
  }

  lemma ShorterQueueKeeps(n: Node, m: Node)
    requires Inv(n) && m == n.(queue := m.queue, running := m.running,
                               local := n.local.(shuttingDown := m.local.shuttingDown))
    requires m.queue.Keys <= n.queue.Keys && forall k | k in m.queue :: m.queue[k] == n.queue[k]
    ensures Inv(m)
  {
    forall k | k in m.queue && m.queue[k].phase != Deleted ensures CopyIsCurrent(m, k, m.queue[k]) {
      assert CopyIsCurrent(n, k, n.queue[k]);
    }
    forall k | k in m.flights ensures CopyIsCurrent(m, k, m.flights[k].snap) {
      assert CopyIsCurrent(n, k, n.flights[k].snap);
    }
    forall k | k in m.local.store ensures PhaseIsHonest(m, k, m.local.store[k]) {
      assert PhaseIsHonest(n, k, n.local.store[k]);
    }
  }

  lemma EndKeeps(n: Node, m: Node)
    requires Inv(n) && n.queue == map[] && n.flights == map[] && m == n.(passing := false)
    ensures Inv(m)
  {
    assert forall id | id in n.local.store :: PhaseIsHonest(n, id, n.local.store[id]);
  }

  lemma LostKeeps(n: Node, id: string, m: Node)
    requires Inv(n) && m == n.(flights := n.flights - {id})
    ensures Inv(m)
  {
    hide CopyIsCurrent, PhaseIsHonest, FlightIsHonest;
    forall k | k in n.local.store ensures PhaseIsHonest(m, k, m.local.store[k]) {
      OnlyLocalMatters(n, m, k, m.local.store[k], Begun);
    }
    forall k | k in m.queue ensures m.queue[k].phase != Deleted ==> CopyIsCurrent(m, k, m.queue[k]) {
      OnlyLocalMatters(n, m, k, m.queue[k], Begun);
    }
    forall k | k in m.flights
      ensures CopyIsCurrent(m, k, m.flights[k].snap) && FlightIsHonest(m, k, m.flights[k])
    {
      OnlyLocalMatters(n, m, k, m.flights[k].snap, m.flights[k].at);
    }
  }

  lemma UserKeeps(games: set<string>, providers: set<string>, n: Node, u: UserEvent, m: Node)
    requires Inv(n) && m == n.(local := AfterUser(games, providers, n.local, u))
    ensures Inv(m)
  {
    match u
    case Desires(id, desired, now) =>
      if AnswerSetDesired(n.local, id, desired, now) == Ok { DesireKeeps(n, id, desired, now); }
    case Requests(id, requestId, desired, now) =>
      if AnswerRequest(n.local, id, requestId, desired, now) == Ok { RequestKeeps(n, id, requestId, desired, now); }
    case Creates(r, requestId, now) => CreateKeeps(games, providers, n, r, requestId, now);
  }

  lemma RestartKeeps(n: Node, running: set<string>)
    requires Inv(n)
    ensures Inv(Rebooted(n, running))
  {
    assert forall id | id in n.local.store :: PhaseIsHonest(n, id, n.local.store[id]);
  }

  lemma StepKeepsInv(games: set<string>, providers: set<string>, n: Node, e: Event, m: Node)
    requires Inv(n) && Step(games, providers, n, e, m)
    ensures Inv(m)
  {
    hide Inv, CallStep, TimeOutStep, SaveStep, LaunchStep, AfterUser;
    match e
    case User(user) => UserKeeps(games, providers, n, user, m);
    case TryIdleShutdown => ShorterQueueKeeps(n, m);
    case BeginPass => BeginKeeps(n, m);
    case SkipDeleted(id) => ShorterQueueKeeps(n, m);
    case Launch(id) => LaunchKeeps(n, id, m);
    case CancelPass => ShorterQueueKeeps(n, m);
    case EndPass => EndKeeps(n, m);
    case Provider(id, call) => CallKeeps(n, id, call, m);
    case TimeOut(id, now, failed) => TimeOutKeeps(n, id, now, failed, m);
    case Save(id, agent, now) => SaveKeeps(n, id, agent, now, m);
    case SaveFails(id) => LostKeeps(n, id, m);
    case GameExits(id) => ShorterQueueKeeps(n, m);
    case Restart(running) => RestartKeeps(n, running);
  }

  // -- Whole runs ---------------------------------------------------------------------------------

  /** A host whose controller starts with an empty store. */
  predicate Initial(n: Node) {
    n.local == Local(false, map[]) && !n.passing && n.queue == map[] && n.flights == map[]
  }

  ghost predicate IsRun(games: set<string>, providers: set<string>, ns: seq<Node>, es: seq<Event>) {
    && |ns| == |es| + 1
    && Initial(ns[0])
    && forall i | 0 <= i < |es| :: Step(games, providers, ns[i], es[i], ns[i + 1])
  }

  lemma {:induction false} RunKeepsInv(games: set<string>, providers: set<string>, ns: seq<Node>, es: seq<Event>,
                                       i: nat)
    requires IsRun(games, providers, ns, es) && i < |ns|
    ensures Inv(ns[i])
  {
    hide Step;
    if i > 0 {
      RunKeepsInv(games, providers, ns, es, i - 1);
      StepKeepsInv(games, providers, ns[i - 1], es[i - 1], ns[i]);
    }
  }

  /** In every reachable state a phase is backed by intent, and a deleted instance has no game left. */
  lemma PhasesAreHonest(games: set<string>, providers: set<string>, ns: seq<Node>, es: seq<Event>, i: nat, id: string)
    requires IsRun(games, providers, ns, es) && i < |ns| && id in ns[i].local.store
    ensures var v := ns[i].local.store[id];
      && (v.phase == Stopped ==> v.desired != Running)
      && (v.phase == Deleted ==> v.desired == Deleted && v.error == "" && id !in ns[i].installed)
  {
    hide Step;
    RunKeepsInv(games, providers, ns, es, i);
    assert PhaseIsHonest(ns[i], id, ns[i].local.store[id]);
  }

  lemma FindingKeepsRequest(current: Instance, snap: Instance, f: Finding, a: Agent, now: int)
    ensures WithFinding(current, snap, f, a, now).startRequestId == current.startRequestId
  {
  }

  lemma UserFollows(games: set<string>, providers: set<string>, n: Node, u: UserEvent, id: string)
    requires Inv(n) && id in n.local.store
    ensures var c := AfterUser(games, providers, n.local, u);
      && id in c.store && Follows(n.local.store[id], c.store[id])
      && (n.local.store[id].phase == Deleted ==> c.store[id].phase == Deleted)
      && (!u.Requests? ==> c.store[id].startRequestId == n.local.store[id].startRequestId)
  {
    hide Wellformed, SameSettings, Trimmed, FlightIsHonest;
    match u
    case Desires(k, desired, now) =>
      if AnswerSetDesired(n.local, k, desired, now) == Ok {
        IntentFollows(n.local.store[k], desired, now);
      }
    case Requests(k, requestId, desired, now) =>
      if AnswerRequest(n.local, k, requestId, desired, now) == Ok && n.local.store[k].startRequestId != requestId {
        IntentFollows(n.local.store[k], desired, now);
      }
    case Creates(_, _, _) =>
  }

  lemma CallKeepsStore(n: Node, k: string, call: Call, m: Node)
    requires CallStep(n, k, call, m)
    ensures m.local == n.local
  {
  }

  lemma TimeOutFollows(n: Node, k: string, now: int, failed: Option<string>, m: Node, id: string)
    requires Inv(n) && TimeOutStep(n, k, now, failed, m) && id in n.local.store
    ensures id in m.local.store && Follows(n.local.store[id], m.local.store[id])
    ensures m.local.store[id].startRequestId == n.local.store[id].startRequestId
    ensures n.local.store[id].phase == Deleted ==> m.local.store[id].phase == Deleted
  {
  }

  lemma SaveFollows(n: Node, k: string, agent: Agent, now: int, m: Node, id: string)
    requires Inv(n) && SaveStep(n, k, agent, now, m) && id in n.local.store
    ensures id in m.local.store && Follows(n.local.store[id], m.local.store[id])
    ensures m.local.store[id].startRequestId == n.local.store[id].startRequestId
    ensures n.local.store[id].phase == Deleted ==> m.local.store[id].phase == Deleted
    ensures n.flights[k].snap.generation != n.local.store[k].generation ==> m.local == n.local
  {
    SavedIsHonest(n, k, agent, now);
    FindingKeepsRequest(n.local.store[k], n.flights[k].snap, n.flights[k].at.f, agent, now);
    if n.flights[k].snap.generation != n.local.store[k].generation {
      assert n.local.store[k := n.local.store[k]] == n.local.store;
    }
  }

  /**
   * One step takes each record to a later version of itself, a deleted instance stays deleted, and a superseded
   * observation changes nothing at all.
   */
  lemma StoredFollows(games: set<string>, providers: set<string>, n: Node, e: Event, m: Node, id: string)
    requires Inv(n) && Step(games, providers, n, e, m) && id in n.local.store
    ensures id in m.local.store && Follows(n.local.store[id], m.local.store[id])
    ensures n.local.store[id].phase == Deleted ==> m.local.store[id].phase == Deleted
    ensures !(e.User? && e.user.Requests?) ==> m.local.store[id].startRequestId == n.local.store[id].startRequestId
    ensures e.Save? && n.flights[e.id].snap.generation != n.local.store[e.id].generation ==> m.local == n.local
  {
    hide Inv, CallStep, TimeOutStep, SaveStep, AfterUser;
    match e
    case User(u) => UserFollows(games, providers, n, u, id);
    case Save(k, agent, now) => SaveFollows(n, k, agent, now, m, id);
    case TimeOut(k, now, failed) => TimeOutFollows(n, k, now, failed, m, id);
    case Provider(k, call) => CallKeepsStore(n, k, call, m);
    case _ =>
  }

  /** Across any run an instance stays known, its generation never falls and deleted intent is final. */
  lemma {:induction false} FencingHolds(games: set<string>, providers: set<string>, ns: seq<Node>, es: seq<Event>,
                                        i: nat, j: nat, id: string)
    requires IsRun(games, providers, ns, es) && i <= j < |ns| && id in ns[i].local.store
    ensures id in ns[j].local.store && Follows(ns[i].local.store[id], ns[j].local.store[id])
    decreases j
  {
    hide Inv, Step, Initial;
    if i < j {
      FencingHolds(games, providers, ns, es, i, j - 1, id);
      RunKeepsInv(games, providers, ns, es, j - 1);
      StoredFollows(games, providers, ns[j - 1], es[j - 1], ns[j], id);
      FollowsIsTransitive(ns[i].local.store[id], ns[j - 1].local.store[id], ns[j].local.store[id]);
    }
  }

  // -- Idle shutdown ------------------------------------------------------------------------------

  /** Admission is closed, nothing should run, and no reconciliation in progress wants anything to run. */
  predicate Closed(n: Node) {
    && n.local.shuttingDown
    && (forall id | id in n.local.store :: n.local.store[id].desired != Running)
    && (forall id | id in n.queue :: n.queue[id].desired != Running)
    && (forall id | id in n.flights :: n.flights[id].snap.desired != Running)
  }

  /** The idle check already excludes every stale copy that still wants its game running. */
  lemma IdleExcludesStarts(n: Node)
    requires Inv(n) && InstancesIdle(n.local.store)
    ensures Closed(n.(local := n.local.(shuttingDown := true)))
  {
    forall id | id in n.queue ensures n.queue[id].desired != Running {
      if n.queue[id].phase != Deleted {
        assert CopyIsCurrent(n, id, n.queue[id]);
        assert AtRest(n.local.store[id]);
      }
    }
    forall id | id in n.flights ensures n.flights[id].snap.desired != Running {
      assert CopyIsCurrent(n, id, n.flights[id].snap);
      assert AtRest(n.local.store[id]);
    }
    forall id | id in n.local.store ensures n.local.store[id].desired != Running {
      assert AtRest(n.local.store[id]);
    }
  }

  lemma IdleCommits(games: set<string>, providers: set<string>, n: Node, e: Event, m: Node)
    requires Inv(n) && InstancesIdle(n.local.store) && e.TryIdleShutdown? && Step(games, providers, n, e, m)
    ensures Closed(m) && m.running == n.running && m.installed == n.installed
  {
    hide Inv, Closed;
    IdleExcludesStarts(n);
  }

  predicate StartsGame(e: Event) {
    e.Provider? && (e.call.StartGame? || e.call.EnsureGame?)
  }

  lemma ClosedUser(games: set<string>, providers: set<string>, c: Local, u: UserEvent)
    requires c.shuttingDown
    ensures AfterUser(games, providers, c, u) == c
  {
  }

  /** A reconciliation of a game that should not run installs and starts nothing. */
  lemma RestingCalls(n: Node, id: string, f: Flight, call: Call)
    requires FlightIsHonest(n, id, f) && f.snap.desired != Running && Next(f, call).Some?
    ensures !call.StartGame? && !call.EnsureGame?
  {
    hide OverAge, AfterPresence;
  }

  lemma ClosedCall(n: Node, id: string, call: Call, m: Node)
    requires Inv(n) && Closed(n) && CallStep(n, id, call, m)
    ensures Closed(m) && m.installed <= n.installed && m.running <= n.running
    ensures !call.StartGame? && !call.EnsureGame?
  {
    hide CopyIsCurrent, PhaseIsHonest, OverAge, FlightIsHonest, Next;
    assert FlightIsHonest(n, id, n.flights[id]);
    RestingCalls(n, id, n.flights[id], call);
    assert forall k | k in m.flights :: m.flights[k].snap == n.flights[k].snap;
  }

  lemma ClosedSave(n: Node, id: string, agent: Agent, now: int, m: Node)
    requires Inv(n) && Closed(n) && SaveStep(n, id, agent, now, m)
    ensures Closed(m) && m.installed == n.installed && m.running == n.running
  {
    hide Inv, WithFinding, Follows, PhaseIsHonest;
    SavedIsHonest(n, id, agent, now);
    assert forall k | k in m.flights :: m.flights[k] == n.flights[k];
  }

  lemma TimeOutNeedsRunning(n: Node, id: string, now: int, failed: Option<string>, m: Node)
    requires TimeOutStep(n, id, now, failed, m)
    ensures id in n.flights && n.flights[id].snap.desired == Running
  {
  }

  lemma ClosedLaunch(n: Node, id: string, m: Node)
    requires Closed(n) && LaunchStep(n, id, m)
    ensures Closed(m) && m.installed == n.installed && m.running == n.running
  {
    assert forall k | k in m.queue :: m.queue[k] == n.queue[k];
  }

  /** A closed host takes no intent, starts no game, and stays closed until its controller is restarted. */
  lemma ClosedStaysClosed(games: set<string>, providers: set<string>, n: Node, e: Event, m: Node)
    requires Inv(n) && Closed(n) && Step(games, providers, n, e, m) && !e.Restart?
    ensures Closed(m) && m.installed <= n.installed && m.running <= n.running
    ensures !StartsGame(e)
    ensures e.User? ==> m == n
  {
    hide CallStep, SaveStep, AfterUser, Inv, TimeOutStep, LaunchStep, InstancesIdle;
    match e
    case Provider(id, call) => ClosedCall(n, id, call, m);
    case Save(id, agent, now) => ClosedSave(n, id, agent, now, m);
    case User(user) => assert m.local == n.local by { ClosedUser(games, providers, n.local, user); }
    case TimeOut(id, now, failed) =>
      TimeOutNeedsRunning(n, id, now, failed, m);
      assert false;
    case Launch(id) => ClosedLaunch(n, id, m);
    case SkipDeleted(id) => assert forall k | k in m.queue :: m.queue[k] == n.queue[k];
    case _ =>
  }

  /** Once idle shutdown commits, no later step of that controller accepts intent or brings a game up. */
  lemma {:induction false} IdleShutdownIsFinal(games: set<string>, providers: set<string>, ns: seq<Node>,
                                               es: seq<Event>, i: nat, j: nat)
    requires IsRun(games, providers, ns, es) && i < j < |ns|
    requires es[i].TryIdleShutdown? && InstancesIdle(ns[i].local.store)
    requires forall k | i < k < j :: !es[k].Restart?
    ensures Closed(ns[j]) && ns[j].running <= ns[i].running && ns[j].installed <= ns[i].installed
    ensures forall k | i < k < j :: !StartsGame(es[k])
    ensures forall k | i < k < j && es[k].User? :: ns[k + 1] == ns[k]
    decreases j
  {
    hide Inv, Step, Closed, InstancesIdle, StartsGame;
    if j == i + 1 {
      RunKeepsInv(games, providers, ns, es, i);
      IdleCommits(games, providers, ns[i], es[i], ns[j]);
    } else {
      IdleShutdownIsFinal(games, providers, ns, es, i, j - 1);
      RunKeepsInv(games, providers, ns, es, j - 1);
      ClosedStaysClosed(games, providers, ns[j - 1], es[j - 1], ns[j]);
    }
  }
}
