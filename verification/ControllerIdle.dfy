/** What observations of a game are recorded as, and when a game is stopped or left down without being asked. */
module ControllerIdle {
  import opened FleetState
  import opened Controller
  import opened ControllerRuns

  // -- Observations -------------------------------------------------------------------------------

  /** The event stores an observation of the instance: the generation that was observed is still the saved one. */
  predicate Stores(n: Node, e: Event, id: string) {
    && e.Save? && e.id == id && id in n.flights && n.flights[id].at.Found? && id in n.local.store
    && n.flights[id].snap.generation == n.local.store[id].generation
  }

  /** The provider found the game running, so that its agent was asked. */
  predicate AsksAgent(n: Node, e: Event, id: string) {
    Stores(n, e, id) && n.flights[id].at.f.failed.None? && n.flights[id].at.f.phase == Running
  }

  /** The agent said that the game is ready and nobody plays. */
  predicate SeesEmpty(n: Node, e: Event, id: string) {
    AsksAgent(n, e, id) && e.agent.Reached? && e.agent.running && e.agent.ready && e.agent.players <= 0
  }

  /** The agent said that the game's process is gone. */
  predicate SeesExit(n: Node, e: Event, id: string) {
    AsksAgent(n, e, id) && e.agent.Reached? && !e.agent.running
  }

  /** The record after a stored observation, field by field. */
  predicate Records(i: Instance, f: Finding, a: Agent, now: int, j: Instance) {
    && j.updatedAt == now && j.id == i.id && j.generation == i.generation && j.startRequestId == i.startRequestId
    && j.startedAt == i.startedAt && j.idleMinutes == i.idleMinutes && j.maxMinutes == i.maxMinutes
    && j.name == i.name && j.game == i.game && j.provider == i.provider && j.config == i.config
    && (f.failed.Some? ==>
          && j.error == f.failed.value && j.players == None && j.emptySince == 0
          && j.phase == i.phase && j.desired == i.desired)
    && (f.failed.None? && f.phase != Running ==>
          && j.error == f.seen.failure && j.players == None && j.emptySince == 0 && j.phase == f.phase
          && j.desired == i.desired)
    && (f.failed.None? && f.phase == Running ==>
          match a
          case Unreachable(why) =>
            && j.phase == Starting && j.error == "Agent unavailable: " + why && j.players == None && j.emptySince == 0
            && j.desired == i.desired
          case Reached(running, ready, players, error) =>
            && (!running ==>
                  && j.phase == Failed && j.error == (if error != "" then error else "Game process exited")
                  && j.players == None && j.emptySince == i.emptySince && j.desired == i.desired)
            && (running && !ready ==>
                  && j.phase == Starting && j.error == f.seen.failure && j.players == None && j.emptySince == 0
                  && j.desired == i.desired)
            && (running && ready ==> j.phase == Running && j.error == "" && j.players == Some(players))
            && (running && ready && players > 0 ==> j.emptySince == 0 && j.desired == i.desired)
            && (running && ready && players <= 0 ==>
                  && j.emptySince == (if i.emptySince == 0 then now else i.emptySince)
                  && j.desired == if i.idleMinutes > 0 && now >= j.emptySince + i.idleMinutes * 60 then Stopped
                                  else i.desired))
    && (j.desired != i.desired ==> j.stopReason == "Server empty for idle timeout")
    && (j.desired == i.desired && i.desired == Running ==> j.stopReason == i.stopReason)
  }

  lemma FindingIsRecorded(i: Instance, snap: Instance, f: Finding, a: Agent, now: int)
    requires i.generation == snap.generation
    ensures Records(i, f, a, now, WithFinding(i, snap, f, a, now))
  {
  }

  /** Over every run: a stored observation is recorded as it was made; one of an older generation changes nothing. */
  lemma ObservationsAreRecorded(games: set<string>, providers: set<string>, ns: seq<Node>, es: seq<Event>, k: nat)
    requires IsRun(games, providers, ns, es) && k < |es| && es[k].Save?
    ensures var id := es[k].id;
      && id in ns[k].flights && ns[k].flights[id].at.Found? && id in ns[k].local.store && id in ns[k + 1].local.store
      && (Stores(ns[k], es[k], id) ==>
            Records(ns[k].local.store[id], ns[k].flights[id].at.f, es[k].agent, es[k].now, ns[k + 1].local.store[id]))
      && (!Stores(ns[k], es[k], id) ==> ns[k + 1].local == ns[k].local)
      && forall other | other in ns[k].local.store && other != id ::
           other in ns[k + 1].local.store && ns[k + 1].local.store[other] == ns[k].local.store[other]
  {
    hide WithFinding, Records, Inv;
    assert Step(games, providers, ns[k], es[k], ns[k + 1]);
    RunKeepsInv(games, providers, ns, es, k);
    SavesRecord(games, providers, ns[k], es[k], ns[k + 1]);
  }

  lemma SavesRecord(games: set<string>, providers: set<string>, n: Node, e: Event, m: Node)
    requires Step(games, providers, n, e, m) && e.Save?
    ensures e.id in n.flights && n.flights[e.id].at.Found? && e.id in n.local.store && e.id in m.local.store
    ensures Stores(n, e, e.id) ==>
              Records(n.local.store[e.id], n.flights[e.id].at.f, e.agent, e.now, m.local.store[e.id])
    ensures !Stores(n, e, e.id) ==> m.local == n.local
    ensures forall other | other in n.local.store && other != e.id ::
              other in m.local.store && m.local.store[other] == n.local.store[other]
  {
    hide Records, AfterUser, CallStep, TimeOutStep, LaunchStep;
    var i, snap, f := n.local.store[e.id], n.flights[e.id].snap, n.flights[e.id].at.f;
    if i.generation == snap.generation {
      FindingIsRecorded(i, snap, f, e.agent, e.now);
    } else {
      assert n.local.store[e.id := i] == n.local.store;
    }
  }

  // -- Idle stops ---------------------------------------------------------------------------------

  predicate Runs(n: Node, id: string) {
    id in n.local.store && n.local.store[id].desired == Running
  }

  /**
   * At event `m` the game was seen empty, at the given time, and in all stored observations between then and event `k`
   * it was seen empty again or its process gone; all the while it should have been running.
   */
  ghost predicate WasEmptySince(ns: seq<Node>, es: seq<Event>, k: nat, id: string, m: nat, since: int)
    requires k < |ns| && |ns| == |es| + 1
  {
    && m < k && SeesEmpty(ns[m], es[m], id) && es[m].now == since
    && (forall j | m < j < k && Stores(ns[j], es[j], id) :: SeesEmpty(ns[j], es[j], id) || SeesExit(ns[j], es[j], id))
    && (forall j | m <= j <= k :: Runs(ns[j], id))
  }

  ghost predicate EmptyIsTrue(ns: seq<Node>, es: seq<Event>, k: nat, id: string)
    requires k < |ns| && |ns| == |es| + 1
  {
    Runs(ns[k], id) && ns[k].local.store[id].emptySince != 0 ==>
      exists m: nat :: WasEmptySince(ns, es, k, id, m, ns[k].local.store[id].emptySince)
  }

  /** A record that says since when a game is empty said so before, or says so now; either way the game was to run. */
  predicate KeepsEmptiness(n: Node, e: Event, m: Node, id: string) {
    Runs(m, id) && m.local.store[id].emptySince != 0 ==>
      && Runs(n, id)
      && (Stores(n, e, id) ==> SeesEmpty(n, e, id) || SeesExit(n, e, id))
      && if n.local.store[id].emptySince != 0 then m.local.store[id].emptySince == n.local.store[id].emptySince
         else SeesEmpty(n, e, id) && m.local.store[id].emptySince == e.now
  }

  lemma IntentKeepsEmptiness(i: Instance, desired: Status, now: int)
    requires WithDesired(i, desired, now).Some?
    ensures var j := WithDesired(i, desired, now).value;
      j.desired == Running && j.emptySince != 0 ==> i.desired == Running && j.emptySince == i.emptySince
  {
  }

  lemma UserKeepsEmptiness(games: set<string>, providers: set<string>, n: Node, u: UserEvent, m: Node, id: string)
    requires m == n.(local := AfterUser(games, providers, n.local, u))
    ensures KeepsEmptiness(n, User(u), m, id)
  {
    hide WithDesired, Trimmed, Wellformed, SameSettings;
    match u
    case Desires(k, desired, now) =>
      if AnswerSetDesired(n.local, k, desired, now) == Ok {
        IntentKeepsEmptiness(n.local.store[k], desired, now);
      }
    case Requests(k, requestId, desired, now) =>
      if AnswerRequest(n.local, k, requestId, desired, now) == Ok && n.local.store[k].startRequestId != requestId {
        IntentKeepsEmptiness(n.local.store[k], desired, now);
      }
    case Creates(_, _, _) =>
  }

  lemma SaveKeepsEmptiness(games: set<string>, providers: set<string>, n: Node, e: Event, m: Node, id: string)
    requires Step(games, providers, n, e, m) && e.Save?
    ensures KeepsEmptiness(n, e, m, id)
  {
    hide Step;
    SavesRecord(games, providers, n, e, m);
    SavesAddNothing(games, providers, n, e, m);
  }

  lemma SavesAddNothing(games: set<string>, providers: set<string>, n: Node, e: Event, m: Node)
    requires Step(games, providers, n, e, m) && e.Save?
    ensures m.local.store.Keys == n.local.store.Keys
  {
    hide WithFinding, AfterUser, CallStep, TimeOutStep, LaunchStep;
  }

  lemma StepKeepsEmptiness(games: set<string>, providers: set<string>, n: Node, e: Event, m: Node, id: string)
    requires Step(games, providers, n, e, m)
    ensures KeepsEmptiness(n, e, m, id)
  {
    if e.User? {
      hide AfterUser, KeepsEmptiness, CallStep, TimeOutStep, SaveStep, LaunchStep;
      UserKeepsEmptiness(games, providers, n, e.user, m, id);
    } else if e.Save? {
      hide Step, KeepsEmptiness;
      SaveKeepsEmptiness(games, providers, n, e, m, id);
    } else {
      hide AfterUser, SaveStep, Next, OverAge;
    }
  }

  lemma {:induction false} EmptinessIsTrue(games: set<string>, providers: set<string>, ns: seq<Node>, es: seq<Event>,
                                           k: nat, id: string)
    requires IsRun(games, providers, ns, es) && k < |ns|
    ensures EmptyIsTrue(ns, es, k, id)
  {
    hide Step, SeesEmpty, SeesExit, Stores;
    if k > 0 && Runs(ns[k], id) && ns[k].local.store[id].emptySince != 0 {
      EmptinessIsTrue(games, providers, ns, es, k - 1, id);
      assert Step(games, providers, ns[k - 1], es[k - 1], ns[k]);
      StepKeepsEmptiness(games, providers, ns[k - 1], es[k - 1], ns[k], id);
      var since := ns[k].local.store[id].emptySince;
      if ns[k - 1].local.store[id].emptySince != 0 {
        var m: nat :| WasEmptySince(ns, es, k - 1, id, m, since);
        assert WasEmptySince(ns, es, k, id, m, since);
      } else {
        assert WasEmptySince(ns, es, k, id, k - 1, since);
      }
    }
    if k == 0 {
      assert !Runs(ns[0], id) by { NothingRunsAtFirst(ns[0], id); }
    }
  }

  lemma NothingRunsAtFirst(n: Node, id: string)
    requires Initial(n)
    ensures !Runs(n, id)
  {
  }

  /**
   * Over every run: an observation that takes a game from running to stopped was made of a ready game without players,
   * one that has an idle limit, and so were all stored observations for at least that long, except that some may have
   * found its process gone.
   */
  lemma IdleStopsAreEarned(games: set<string>, providers: set<string>, ns: seq<Node>, es: seq<Event>, k: nat,
                           id: string)
    requires IsRun(games, providers, ns, es) && k < |es| && es[k].Save?
    requires Runs(ns[k], id) && !Runs(ns[k + 1], id)
    ensures es[k].id == id && id in ns[k + 1].local.store
    ensures es[k].agent.Reached? && es[k].agent.running && es[k].agent.ready && es[k].agent.players <= 0
    ensures var i, j := ns[k].local.store[id], ns[k + 1].local.store[id];
      && i.idleMinutes > 0 && j.desired == Stopped && j.generation == i.generation
      && j.stopReason == "Server empty for idle timeout"
      && exists m: nat, since :: WasEmptySince(ns, es, k, id, m, since) && es[k].now >= since + i.idleMinutes * 60
  {
    hide Step, WasEmptySince;
    ObservationsAreRecorded(games, providers, ns, es, k);
    EmptinessIsTrue(games, providers, ns, es, k, id);
  }

  /** Saves in a run happen at later and later times. */
  ghost predicate ClockAdvances(es: seq<Event>) {
    && (forall j | 0 <= j < |es| && es[j].Save? :: es[j].now > 0)
    && (forall j, l | 0 <= j <= l < |es| && es[j].Save? && es[l].Save? :: es[j].now <= es[l].now)
  }

  /**
   * In time: all stored observations of the idle minutes before such a stop were of a ready game without players, or of
   * a process that was gone. They all saw it ready and empty exactly when none saw its process gone.
   */
  lemma IdleMinutesWereEmpty(games: set<string>, providers: set<string>, ns: seq<Node>, es: seq<Event>, k: nat,
                             id: string, j: nat)
    requires IsRun(games, providers, ns, es) && ClockAdvances(es) && k < |es| && es[k].Save?
    requires Runs(ns[k], id) && !Runs(ns[k + 1], id)
    requires j <= k && Stores(ns[j], es[j], id) && es[j].now > es[k].now - ns[k].local.store[id].idleMinutes * 60
    ensures SeesEmpty(ns[j], es[j], id) || SeesExit(ns[j], es[j], id)
    ensures SeesEmpty(ns[j], es[j], id) <==> !SeesExit(ns[j], es[j], id)
  {
    hide Step;
    IdleStopsAreEarned(games, providers, ns, es, k, id);
    var m: nat, since :|
      WasEmptySince(ns, es, k, id, m, since) && es[k].now >= since + ns[k].local.store[id].idleMinutes * 60;
    if j == k {
      ObservationsAreRecorded(games, providers, ns, es, k);
    } else {
      assert m < j;
    }
  }

  /** A game that is ready and has players is never stopped by that observation, and its idle time starts anew. */
  lemma PlayersKeepGamesUp(games: set<string>, providers: set<string>, ns: seq<Node>, es: seq<Event>, k: nat,
                           id: string)
    requires IsRun(games, providers, ns, es) && k < |es| && es[k].Save? && id in ns[k].local.store
    requires es[k].agent.Reached? && es[k].agent.ready && es[k].agent.players > 0
    ensures id in ns[k + 1].local.store && ns[k + 1].local.store[id].desired == ns[k].local.store[id].desired
    ensures AsksAgent(ns[k], es[k], id) && es[k].agent.running ==>
              ns[k + 1].local.store[id].emptySince == 0 && ns[k + 1].local.store[id].phase == Running
              && ns[k + 1].local.store[id].players == Some(es[k].agent.players)
  {
    hide Step;
    ObservationsAreRecorded(games, providers, ns, es, k);
  }

  /** As long as one generation is seen empty, or gone, its idle time is counted from no later than the first time. */
  lemma {:induction false} IdleTimeCounts(games: set<string>, providers: set<string>, ns: seq<Node>, es: seq<Event>,
                                          m: nat, k: nat, id: string)
    requires IsRun(games, providers, ns, es) && ClockAdvances(es) && m < k < |ns| && SeesEmpty(ns[m], es[m], id)
    requires forall j | m < j < k && Stores(ns[j], es[j], id) ::
               SeesEmpty(ns[j], es[j], id) || SeesExit(ns[j], es[j], id)
    requires Runs(ns[k], id) && forall j | m <= j <= k ::
               Runs(ns[j], id) && ns[j].local.store[id].generation == ns[k].local.store[id].generation
    ensures 0 != ns[k].local.store[id].emptySince <= es[m].now
    decreases k
  {
    hide Step;
    var e := k - 1;
    assert Step(games, providers, ns[e], es[e], ns[k]);
    RunKeepsInv(games, providers, ns, es, e);
    if e == m {
      ObservationsAreRecorded(games, providers, ns, es, m);
      EmptinessIsPast(games, providers, ns, es, m, id);
    } else {
      IdleTimeCounts(games, providers, ns, es, m, e, id);
      SameGenerationKeepsEmptiness(games, providers, ns[e], es[e], ns[k], id);
    }
  }

  lemma EmptinessIsPast(games: set<string>, providers: set<string>, ns: seq<Node>, es: seq<Event>, m: nat, id: string)
    requires IsRun(games, providers, ns, es) && ClockAdvances(es) && m < |es| && es[m].Save? && Runs(ns[m], id)
    ensures ns[m].local.store[id].emptySince != 0 ==> ns[m].local.store[id].emptySince <= es[m].now
  {
    hide Step;
    EmptinessIsTrue(games, providers, ns, es, m, id);
  }

  lemma SameGenerationKeepsEmptiness(games: set<string>, providers: set<string>, n: Node, e: Event, m: Node, id: string)
    requires Inv(n) && Step(games, providers, n, e, m) && Runs(n, id) && Runs(m, id)
    requires n.local.store[id].emptySince != 0
    requires n.local.store[id].generation == m.local.store[id].generation
    requires Stores(n, e, id) ==> SeesEmpty(n, e, id) || SeesExit(n, e, id)
    ensures m.local.store[id].emptySince == n.local.store[id].emptySince
  {
    if e.Save? {
      hide Step, Inv;
      SavesRecord(games, providers, n, e, m);
    } else if e.User? {
      hide Inv, CallStep, TimeOutStep, SaveStep, LaunchStep, Trimmed, Wellformed, SameSettings;
    } else {
      hide Inv, AfterUser, SaveStep, Next, OverAge;
    }
  }

  /**
   * And idle games do get stopped: seen empty once, and seen empty again when the idle minutes have passed, with no
   * observation in between that shows anything else and no new intent, the game is stopped by that observation.
   */
  lemma IdleGamesAreStopped(games: set<string>, providers: set<string>, ns: seq<Node>, es: seq<Event>, m: nat, k: nat,
                            id: string)
    requires IsRun(games, providers, ns, es) && ClockAdvances(es) && m < k < |es|
    requires SeesEmpty(ns[m], es[m], id) && SeesEmpty(ns[k], es[k], id)
    requires forall j | m < j < k && Stores(ns[j], es[j], id) ::
               SeesEmpty(ns[j], es[j], id) || SeesExit(ns[j], es[j], id)
    requires Runs(ns[k], id) && forall j | m <= j <= k ::
               Runs(ns[j], id) && ns[j].local.store[id].generation == ns[k].local.store[id].generation
    requires ns[k].local.store[id].idleMinutes > 0
    requires es[k].now >= es[m].now + ns[k].local.store[id].idleMinutes * 60
    ensures id in ns[k + 1].local.store && ns[k + 1].local.store[id].desired == Stopped
  {
    hide Step;
    IdleTimeCounts(games, providers, ns, es, m, k, id);
    ObservationsAreRecorded(games, providers, ns, es, k);
  }

  // -- Other stops, and starts --------------------------------------------------------------------

  /** The three ways out of running: new intent, an idle stop, and the maximum runtime of this very generation. */
  lemma GamesStopForAReason(games: set<string>, providers: set<string>, ns: seq<Node>, es: seq<Event>, k: nat,
                            id: string)
    requires IsRun(games, providers, ns, es) && k < |es| && Runs(ns[k], id) && !Runs(ns[k + 1], id)
    ensures id in ns[k + 1].local.store
    ensures var i, j := ns[k].local.store[id], ns[k + 1].local.store[id];
      match es[k]
      case User(Desires(u, desired, _)) => u == id && desired == j.desired && desired in {Stopped, Deleted}
      case User(Requests(u, _, desired, _)) => u == id && desired == j.desired && desired in {Stopped, Deleted}
      case Save(s, _, _) => s == id && j.desired == Stopped && j.stopReason == "Server empty for idle timeout"
      case TimeOut(t, now, failed) =>
        && t == id && failed == None && j.desired == Stopped && j.stopReason == "Maximum runtime reached"
        && i.maxMinutes > 0 && now >= i.startedAt + i.maxMinutes * 60
      case _ => false
  {
    assert Step(games, providers, ns[k], es[k], ns[k + 1]);
    RunKeepsInv(games, providers, ns, es, k);
    if es[k].Save? {
      hide Step;
      IdleStopsAreEarned(games, providers, ns, es, k, id);
    } else {
      hide Step;
      StopHasAReason(games, providers, ns[k], es[k], ns[k + 1], id);
    }
  }

  lemma StopHasAReason(games: set<string>, providers: set<string>, n: Node, e: Event, m: Node, id: string)
    requires Inv(n) && Step(games, providers, n, e, m) && Runs(n, id) && !Runs(m, id) && !e.Save?
    ensures id in m.local.store
    ensures var i, j := n.local.store[id], m.local.store[id];
      match e
      case User(Desires(u, desired, _)) => u == id && desired == j.desired && desired in {Stopped, Deleted}
      case User(Requests(u, _, desired, _)) => u == id && desired == j.desired && desired in {Stopped, Deleted}
      case TimeOut(t, now, failed) =>
        && t == id && failed == None && j.desired == Stopped && j.stopReason == "Maximum runtime reached"
        && i.maxMinutes > 0 && now >= i.startedAt + i.maxMinutes * 60
      case _ => false
  {
    hide SaveStep, Next, Trimmed, Wellformed, SameSettings, CallStep;
    if e.Provider? {
      CallKeepsStore(n, e.id, e.call, m);
    }
  }

  /** What a controller asks of the provider fits what it copied and what it saw last in the same reconciliation. */
  lemma CallsFit(games: set<string>, providers: set<string>, ns: seq<Node>, es: seq<Event>, k: nat)
    requires IsRun(games, providers, ns, es) && k < |es| && es[k].Provider?
    ensures es[k].id in ns[k].flights && es[k].id in ns[k + 1].flights
    ensures var snap, at := ns[k].flights[es[k].id].snap, ns[k].flights[es[k].id].at;
      match es[k].call
      case Inspect(_, now) =>
        at == Begun && snap.desired != Deleted
        && !(snap.desired == Running && snap.maxMinutes > 0 && now >= snap.startedAt + snap.maxMinutes * 60)
      case DeleteGame(_) => at == Begun && snap.desired == Deleted
      case StopGame(_) => at.Inspected? && snap.desired == Stopped && at.seen.running
      case EnsureGame(_, _) => at == MustEnsure && snap.desired == Running && snap.phase != Failed
      case StartGame(_) =>
        at.MustStart? && snap.desired == Running && !at.seen.running && (snap.phase == Queued || !at.seen.started)
      case _ => true
  {
    hide Inv;
    assert Step(games, providers, ns[k], es[k], ns[k + 1]);
    RunKeepsInv(games, providers, ns, es, k);
    CallFits(ns[k], es[k].id, es[k].call, ns[k + 1]);
  }

  lemma CallFits(n: Node, id: string, call: Call, m: Node)
    requires Inv(n) && CallStep(n, id, call, m)
    ensures id in n.flights && id in m.flights
    ensures var snap, at := n.flights[id].snap, n.flights[id].at;
      match call
      case Inspect(_, now) =>
        at == Begun && snap.desired != Deleted
        && !(snap.desired == Running && snap.maxMinutes > 0 && now >= snap.startedAt + snap.maxMinutes * 60)
      case DeleteGame(_) => at == Begun && snap.desired == Deleted
      case StopGame(_) => at.Inspected? && snap.desired == Stopped && at.seen.running
      case EnsureGame(_, _) => at == MustEnsure && snap.desired == Running && snap.phase != Failed
      case StartGame(_) =>
        at.MustStart? && snap.desired == Running && !at.seen.running && (snap.phase == Queued || !at.seen.started)
      case _ => true
  {
    hide CopyIsCurrent, PhaseIsHonest, AfterPresence;
    assert FlightIsHonest(n, id, n.flights[id]);
  }

  /**
   * A present game that runs is left running; one that ran and exited is left down until it is asked for again; any
   * other is started. A game that should not run and is not running needs nothing.
   */
  lemma PresentGamesAreLeftOrStarted(games: set<string>, providers: set<string>, ns: seq<Node>, es: seq<Event>, k: nat)
    requires IsRun(games, providers, ns, es) && k < |es| && es[k].Provider? && es[k].id in ns[k].flights
    requires es[k].id in ns[k + 1].flights && ns[k].flights[es[k].id].at.Inspected?
    ensures var snap, seen := ns[k].flights[es[k].id].snap, ns[k].flights[es[k].id].at.seen;
      var next := ns[k + 1].flights[es[k].id].at;
      && (es[k].call.GameIsPresent? ==>
            && snap.desired == Running && seen.present
            && (seen.running ==> next == Found(Finding(Running, seen, None)))
            && (!seen.running && seen.started && snap.phase != Queued ==>
                  next == Found(Finding(Failed, seen.(failure := "Game exited; stop and start to retry"), None)))
            && (!seen.running && !(seen.started && snap.phase != Queued) ==> next == MustStart(seen)))
      && (es[k].call.NothingToStop? ==>
            snap.desired == Stopped && !seen.running && next == Found(Finding(Stopped, seen, None)))
      && (es[k].call.StaysFailed? ==> snap.desired == Running && !seen.present && snap.phase == Failed)
      && (es[k].call.Prepared? ==>
            snap.desired == Running && !seen.present && snap.phase != Failed && next == MustEnsure)
  {
    assert Step(games, providers, ns[k], es[k], ns[k + 1]);
  }

  // -- What counts as idle ------------------------------------------------------------------------

  const SEEN_UP := Observation(true, true, true, "")
  const EMPTY_GAME := Reached(true, true, 0, "")
  const GONE := Reached(false, false, 0, "")

  /** A controller between passes, with one instance that should run, without a runtime limit. */
  predicate AtRestWith(n: Node, id: string, i: Instance) {
    && n.local.store == map[id := i] && !n.passing && n.queue == map[] && n.flights == map[]
    && i.desired == Running && i.maxMinutes == 0 && i.phase != Deleted
  }

  ghost predicate Leads(games: set<string>, providers: set<string>, ns: seq<Node>, es: seq<Event>) {
    |ns| == |es| + 1 && forall k | 0 <= k < |es| :: Step(games, providers, ns[k], es[k], ns[k + 1])
  }

  lemma Joined(games: set<string>, providers: set<string>, ns: seq<Node>, es: seq<Event>, ms: seq<Node>, fs: seq<Event>)
    requires Leads(games, providers, ns, es) && Leads(games, providers, ms, fs) && ns[|es|] == ms[0]
    ensures Leads(games, providers, ns + ms[1..], es + fs)
  {
    hide Step;
    var vs, gs := ns + ms[1..], es + fs;
    forall k | 0 <= k < |gs| ensures Step(games, providers, vs[k], gs[k], vs[k + 1]) {
      if k < |es| {
        assert vs[k] == ns[k] && vs[k + 1] == ns[k + 1] && gs[k] == es[k];
      } else {
        assert vs[k] == ms[k - |es|] && vs[k + 1] == ms[k - |es| + 1] && gs[k] == fs[k - |es|];
      }
    }
  }

  /** A pass over a present, running game begins. */
  lemma RoundBegins(games: set<string>, providers: set<string>, n: Node, id: string, i: Instance, now: int)
    returns (n1: Node, n2: Node, n3: Node)
    requires AtRestWith(n, id, i)
    ensures Step(games, providers, n, BeginPass, n1) && Step(games, providers, n1, Launch(id), n2)
    ensures Step(games, providers, n2, Provider(id, Inspect(SEEN_UP, now)), n3)
    ensures n3 == n.(passing := true, queue := map[], flights := map[id := Flight(i, Inspected(SEEN_UP))])
  {
    hide OverAge;
    n1 := n.(passing := true, queue := map[id := i]);
    n2 := n1.(queue := map[], flights := map[id := Flight(i, Begun)]);
    assert n1.queue - {id} == map[] && n1.flights[id := Flight(i, Begun)] == n2.flights;
    n3 := n2.(flights := map[id := Flight(i, Inspected(SEEN_UP))]);
    assert !OverAge(i, now) by { NoLimitIsNeverOver(i, now); }
    assert n2.flights[id := n2.flights[id].(at := Inspected(SEEN_UP))] == n3.flights;
  }

  /** It ends with what the agent says. */
  lemma RoundEnds(games: set<string>, providers: set<string>, n: Node, id: string, i: Instance, agent: Agent, now: int)
    returns (n4: Node, n5: Node, n6: Node)
    requires n.passing && n.queue == map[] && n.flights == map[id := Flight(i, Inspected(SEEN_UP))]
    requires n.local.store == map[id := i] && i.desired == Running && i.phase != Deleted
    ensures Step(games, providers, n, Provider(id, GameIsPresent), n4)
    ensures Step(games, providers, n4, Save(id, agent, now), n5) && Step(games, providers, n5, EndPass, n6)
    ensures AsksAgent(n4, Save(id, agent, now), id) && n4.local == n.local && n5.local == n6.local
    ensures n6.local == n.local.(store := map[id := WithFinding(i, i, Finding(Running, SEEN_UP, None), agent, now)])
    ensures n6 == n.(local := n6.local, flights := map[], passing := false)
  {
    hide WithFinding, OverAge;
    var found := Found(Finding(Running, SEEN_UP, None));
    n4 := n.(flights := map[id := Flight(i, found)]);
    assert n.flights[id := n.flights[id].(at := found)] == n4.flights;
    var j := WithFinding(i, i, Finding(Running, SEEN_UP, None), agent, now);
    n5 := n4.(local := n4.local.(store := map[id := j]), flights := map[]);
    assert n4.flights - {id} == map[] && n4.local.store[id := j] == map[id := j];
    n6 := n5.(passing := false);
  }

  /** One pass over a present, running game, and what its agent says. */
  lemma Round(games: set<string>, providers: set<string>, n: Node, id: string, i: Instance, agent: Agent, now: int)
    returns (ns: seq<Node>, es: seq<Event>)
    requires AtRestWith(n, id, i)
    ensures Leads(games, providers, ns, es) && |es| == 6 && |ns| == 7 && ns[0] == n
    ensures es[4] == Save(id, agent, now) && AsksAgent(ns[4], es[4], id) && ns[4].local == n.local
    ensures ns[5].local == ns[6].local && forall k | 0 <= k < 6 && k != 4 :: !es[k].Save?
    ensures ns[6].local == n.local.(store := map[id := WithFinding(i, i, Finding(Running, SEEN_UP, None), agent, now)])
    ensures !ns[6].passing && ns[6].queue == map[] && ns[6].flights == map[]
  {
    hide Step, WithFinding, AsksAgent;
    var n1, n2, n3 := RoundBegins(games, providers, n, id, i, now);
    var n4, n5, n6 := RoundEnds(games, providers, n3, id, i, agent, now);
    ns := [n, n1, n2, n3, n4, n5, n6];
    es := [BeginPass, Launch(id), Provider(id, Inspect(SEEN_UP, now)), Provider(id, GameIsPresent),
           Save(id, agent, now), EndPass];
  }

  lemma NoLimitIsNeverOver(i: Instance, now: int)
    requires i.maxMinutes == 0
    ensures !OverAge(i, now)
  {
  }

  const IDLE_REQUEST := CreateRequest("a", "a", "g", "docker", "", 15, 0)

  lemma FirstNameIsTight()
    ensures Trimmed(IDLE_REQUEST.name) == IDLE_REQUEST.name
  {
    assert !IsSpace('a');
    hide IsSpace;
  }

  lemma FirstRequestIsWellformed()
    ensures Wellformed(IDLE_REQUEST)
  {
    assert ValidId("a");
  }

  lemma FirstRequestIsTaken()
    ensures Normalized(IDLE_REQUEST) == IDLE_REQUEST
    ensures AnswerCreate(Local(false, map[]), {"g"}, {"docker"}, IDLE_REQUEST) == Ok
  {
    hide Trimmed, Wellformed, SameSettings;
    FirstNameIsTight();
    FirstRequestIsWellformed();
    assert IDLE_REQUEST.(name := IDLE_REQUEST.name) == IDLE_REQUEST;
  }

  /** A new controller is asked for a game with an idle limit of 15 minutes. */
  lemma FirstInstance(now: int) returns (ns: seq<Node>, es: seq<Event>)
    ensures Leads({"g"}, {"docker"}, ns, es) && |es| == 1 && |ns| == 2 && Initial(ns[0]) && es[0].User?
    ensures !ns[1].local.shuttingDown
    ensures AtRestWith(ns[1], "a", Instance("", 1, "a", "a", "g", "docker", Running, Queued, "", 15, 0, now, 0, now,
                                            None, "", ""))
  {
    hide AnswerCreate, Normalized, CallStep, TimeOutStep, SaveStep, LaunchStep;
    FirstRequestIsTaken();
    var n := Node(Local(false, map[]), false, map[], map[], {}, {});
    var u := Creates(IDLE_REQUEST, "", now);
    ns := [n, n.(local := AfterUser({"g"}, {"docker"}, n.local, u))];
    es := [User(u)];
  }

  function GoneGame(): Instance {
    Instance("", 1, "a", "a", "g", "docker", Running, Failed, "", 15, 0, 900, 1000, 1300, None,
             "Game process exited", "")
  }

  /** That game, seen empty at second 1000 and gone at 1300. */
  lemma EmptyThenGone()
    returns (ns: seq<Node>, es: seq<Event>, ms: seq<Node>, fs: seq<Event>, ls: seq<Node>, gs: seq<Event>)
    ensures Leads({"g"}, {"docker"}, ns, es) && |es| == 1 && Initial(ns[0]) && es[0].User?
    ensures Leads({"g"}, {"docker"}, ms, fs) && |fs| == 6 && |ms| == 7 && |ns| == 2 && ms[0] == ns[1]
    ensures Leads({"g"}, {"docker"}, ls, gs) && |gs| == 6 && |ls| == 7 && ls[0] == ms[6]
    ensures forall k | 0 <= k < 6 && k != 4 :: !fs[k].Save? && !gs[k].Save?
    ensures fs[4] == Save("a", EMPTY_GAME, 1000) && Runs(ms[4], "a") && ms[4].local.store["a"].generation == 1
    ensures gs[4] == Save("a", GONE, 1300) && AsksAgent(ls[4], gs[4], "a")
    ensures AtRestWith(ls[6], "a", GoneGame()) && !ls[6].local.shuttingDown
  {
    hide Step, Leads;
    var i0 := Instance("", 1, "a", "a", "g", "docker", Running, Queued, "", 15, 0, 900, 0, 900, None, "", "");
    ns, es := FirstInstance(900);
    ms, fs := Round({"g"}, {"docker"}, ns[1], "a", i0, EMPTY_GAME, 1000);
    var i1 := i0.(updatedAt := 1000, phase := Running, players := Some(0), emptySince := 1000);
    assert ms[6].local.store["a"] == i1;
    ls, gs := Round({"g"}, {"docker"}, ms[6], "a", i1, GONE, 1300);
    assert ls[6].local.store["a"] == GoneGame();
  }

  /**
   * It need not have been ready and empty all the time: with an idle limit of 15 minutes, a game seen empty at second
   * 1000, gone at 1300 and empty at 1900 is stopped as idle.
   */
  lemma AGameGoneCountsAsIdle() returns (ns: seq<Node>, es: seq<Event>)
    ensures IsRun({"g"}, {"docker"}, ns, es) && |es| == 19 && ClockAdvances(es)
    ensures es[11] == Save("a", GONE, 1300) && Stores(ns[11], es[11], "a") && !SeesEmpty(ns[11], es[11], "a")
    ensures es[17] == Save("a", EMPTY_GAME, 1900) && Runs(ns[17], "a") && ns[17].local.store["a"].idleMinutes == 15
    ensures "a" in ns[18].local.store && ns[18].local.store["a"].desired == Stopped
  {
    hide Step, Leads;
    var ms, fs, ls, gs;
    ns, es, ms, fs, ls, gs := EmptyThenGone();
    var i2 := GoneGame();
    var ks, hs := Round({"g"}, {"docker"}, ls[6], "a", i2, EMPTY_GAME, 1900);
    NoStepLeads(ls[6]);
    ns, es := AllJoined(ns, es, ms, fs, ls, gs, [ls[6]], [], ks, hs);
  }

  /**
   * Nor need it have been one generation: a retry of the game that was gone, at 1400, starts another one and keeps the
   * time since which it was empty, so that its first observation stops it.
   */
  lemma ARetryKeepsIdleTime() returns (ns: seq<Node>, es: seq<Event>)
    ensures IsRun({"g"}, {"docker"}, ns, es) && |es| == 20 && ClockAdvances(es)
    ensures es[5] == Save("a", EMPTY_GAME, 1000) && Runs(ns[5], "a") && ns[5].local.store["a"].generation == 1
    ensures es[13] == User(Desires("a", Running, 1400))
    ensures es[18] == Save("a", EMPTY_GAME, 1900) && Runs(ns[18], "a") && ns[18].local.store["a"].generation == 2
    ensures ns[18].local.store["a"].idleMinutes == 15
    ensures "a" in ns[19].local.store && ns[19].local.store["a"].desired == Stopped
  {
    hide Step, Leads;
    var ms, fs, ls, gs;
    ns, es, ms, fs, ls, gs := EmptyThenGone();
    var i2 := GoneGame();
    var i3 := i2.(generation := 2, phase := Queued, error := "", startedAt := 1400);
    var n := Retried(ls[6], i2, i3);
    var ks, hs := Round({"g"}, {"docker"}, n, "a", i3, EMPTY_GAME, 1900);
    ns, es := AllJoined(ns, es, ms, fs, ls, gs, [ls[6], n], [User(Desires("a", Running, 1400))], ks, hs);
  }

  lemma Retried(n: Node, i: Instance, j: Instance) returns (m: Node)
    requires n.local == Local(false, map["a" := i]) && !n.passing && n.queue == map[] && n.flights == map[]
    requires i.desired == Running && i.phase == Failed
    requires j == i.(generation := i.generation + 1, error := "", phase := Queued, startedAt := 1400)
    ensures Leads({"g"}, {"docker"}, [n, m], [User(Desires("a", Running, 1400))])
    ensures m == n.(local := Local(false, map["a" := j]))
  {
    hide CallStep, TimeOutStep, SaveStep, LaunchStep;
    m := n.(local := Local(false, map["a" := j]));
    assert n.local.store["a" := j] == map["a" := j];
  }

  lemma NoStepLeads(n: Node)
    ensures Leads({"g"}, {"docker"}, [n], [])
  {
  }

  /** A creation, two rounds, a step or none, and another round. */
  lemma AllJoined(ns: seq<Node>, es: seq<Event>, ms: seq<Node>, fs: seq<Event>, ls: seq<Node>, gs: seq<Event>,
                  qs: seq<Node>, ds: seq<Event>, ks: seq<Node>, hs: seq<Event>)
    returns (vs: seq<Node>, us: seq<Event>)
    requires Leads({"g"}, {"docker"}, ns, es) && Leads({"g"}, {"docker"}, ms, fs) && Leads({"g"}, {"docker"}, ls, gs)
    requires Leads({"g"}, {"docker"}, qs, ds) && Leads({"g"}, {"docker"}, ks, hs)
    requires |es| == 1 && |fs| == |gs| == |hs| == 6 && |ds| <= 1 && Initial(ns[0])
    requires ns[1] == ms[0] && ms[6] == ls[0] && ls[6] == qs[0] && qs[|ds|] == ks[0]
    requires forall k | 0 <= k < 6 && k != 4 :: !fs[k].Save? && !gs[k].Save? && !hs[k].Save?
    requires !es[0].Save? && forall k | 0 <= k < |ds| :: !ds[k].Save?
    requires fs[4].Save? && gs[4].Save? && hs[4].Save? && 0 < fs[4].now <= gs[4].now <= hs[4].now
    ensures IsRun({"g"}, {"docker"}, vs, us) && |us| == 19 + |ds| && ClockAdvances(us)
    ensures us[5] == fs[4] && us[11] == gs[4] && us[17 + |ds|] == hs[4] && us[13..13 + |ds|] == ds
    ensures vs[5] == ms[4] && vs[11] == ls[4] && vs[17 + |ds|] == ks[4] && vs[18 + |ds|] == ks[5]
  {
    hide Step;
    Joined({"g"}, {"docker"}, ns, es, ms, fs);
    Joined({"g"}, {"docker"}, ns + ms[1..], es + fs, ls, gs);
    Joined({"g"}, {"docker"}, ns + ms[1..] + ls[1..], es + fs + gs, qs, ds);
    Joined({"g"}, {"docker"}, ns + ms[1..] + ls[1..] + qs[1..], es + fs + gs + ds, ks, hs);
    vs, us := ns + ms[1..] + ls[1..] + qs[1..] + ks[1..], es + fs + gs + ds + hs;
    assert us[1..7] == fs && us[7..13] == gs && us[13..13 + |ds|] == ds && us[13 + |ds|..19 + |ds|] == hs;
    assert us[0] == es[0] && forall k | 0 <= k < |ds| :: us[13 + k] == ds[k];
    forall j | 0 <= j < |us| && us[j].Save? ensures j in {5, 11, 17 + |ds|} {
      if 0 < j < 7 {
        assert us[j] == fs[j - 1];
      } else if 7 <= j < 13 {
        assert us[j] == gs[j - 7];
      } else if 13 + |ds| <= j {
        assert us[j] == hs[j - 13 - |ds|];
      }
    }
  }
}
