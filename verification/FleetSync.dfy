/** What a host's worker does about one server, and where every stored report comes from. */
module FleetSync {
  import opened FleetState
  import opened FleetPlacement
  import opened FleetStore
  import opened FleetPlan
  import opened Controller
  import opened ControllerIntent
  import opened FleetWorld
  import opened FleetHistory
  import opened FleetSafety
  import opened FleetTraces
  import opened FleetTheorems
  import opened FleetIntent
  import opened FleetActions
  import opened FleetPasses
  import opened FleetRelease

  // -- What one sync does -------------------------------------------------------------------------

  /** The game answers players for this very request, as observed since the host booted and in the last 45 seconds. */
  predicate IsUp(v: Server, seen: Option<Instance>, startedAt: int, now: int) {
    && seen.Some?
    && var i := seen.value;
       && i.startRequestId == v.requestId && i.phase == Running && i.desired == Running && i.players.Some?
       && i.error == "" && i.updatedAt >= startedAt && now <= i.updatedAt + 45
  }

  /** A start is given up twenty minutes after its request, unless the game is up by now. */
  predicate IsGivenUp(v: Server, seen: Option<Instance>, startedAt: int, now: int) {
    v.desired == Running && IsLate(v, now) && !IsUp(v, seen, startedAt, now)
  }

  function LateReport(v: Server, host: string, now: int): Report {
    Report(v.id, host, v.requestId, Failed, Stopped, None,
           "Server startup timed out. Start again to retry, or remove the saved server.", now)
  }

  function FailedReport(v: Server, host: string, now: int): Report {
    Report(v.id, host, v.requestId, Failed, v.desired, None, "Server setup failed. Check the host logs.", now)
  }

  /** A late start is stopped, if its game exists, and reported as failed. */
  lemma LateStartsAreStopped(local: Local, setup: Setup, v: Server, host: string, seen: Option<Instance>, now: int)
    requires IsGivenUp(v, seen, setup.startedAt, now)
    ensures var done := Serve(local, setup, v, host, seen, now);
      if seen.None? then done == Service(local, Says(LateReport(v, host, now)))
      else if TakesIntent(local, v.id, Stopped) then
        && done.turn == Says(LateReport(v, host, now))
        && v.id in done.local.store && Replaces(local, done.local, v.id, done.local.store[v.id])
        && IsIntended(local.store[v.id], done.local.store[v.id], Stopped, now)
        && done.local.store[v.id].startRequestId == local.store[v.id].startRequestId
      else done == Service(local, if local.shuttingDown then Says(LateReport(v, host, now)) else Skips)
  {
    hide AnswerSetDesired, AfterSetDesired, Replaces, IsIntended, AnswerCreate, AfterCreate;
    SetDesiredIsExact(local, v.id, Stopped, now);
  }

  /** The instance a worker makes of a server, under its host's settings. */
  function Made(v: Server, setup: Setup, now: int): Instance {
    Instance(v.requestId, 1, v.id, Trimmed(v.name), v.game, "docker", Running, Queued,
             if v.game in setup.catalog then setup.catalog[v.game] else "", setup.idleMinutes, setup.maxMinutes,
             now, 0, now, None, "", "")
  }

  /** Without an instance, a server that need not run is settled, and one that shall run is created. */
  lemma MissingGamesAreServed(local: Local, setup: Setup, v: Server, host: string, now: int)
    requires !IsGivenUp(v, None, setup.startedAt, now)
    ensures var done := Serve(local, setup, v, host, None, now);
      var made := Made(v, setup, now);
      if v.desired != Running then
        done == Service(local, Says(Report(v.id, host, v.requestId, v.desired, v.desired, None, "", now)))
      else if local.shuttingDown then done == Service(local, Skips)
      else if v.game !in setup.catalog || !Wellformed(Normalized(CreateRequestOf(v, setup))) then
        done == Service(local, Says(FailedReport(v, host, now)))
      else if v.id !in local.store then
        done == Service(local.(store := local.store[v.id := made]), Has(made))
      else
        var i := local.store[v.id];
        if i.name == made.name && i.game == made.game && i.provider == made.provider && i.config == made.config
           && i.idleMinutes == made.idleMinutes && i.maxMinutes == made.maxMinutes then done == Service(local, Has(i))
        else done == Service(local, Says(FailedReport(v, host, now)))
  {
    hide Wellformed, Trimmed, AnswerSetDesired, AfterSetDesired;
  }

  lemma PresentGamesAreHeld(local: Local, setup: Setup, v: Server, host: string, i: Instance, now: int)
    requires !IsGivenUp(v, Some(i), setup.startedAt, now)
    ensures Serve(local, setup, v, host, Some(i), now) == Service(local, Has(i))
  {
    hide AnswerSetDesired, AfterSetDesired, AnswerCreate, AfterCreate;
  }

  /** What the report of an instance says: what it shows, unless that was observed before the host booted. */
  predicate Describes(r: Report, i: Instance, readyAt: int, startedAt: int) {
    && r.desired == i.desired && r.observedAt == i.updatedAt
    && (if i.phase != Deleted && i.desired == Running && i.updatedAt < startedAt
        then r.phase == Starting && r.players == None
        else r.phase == i.phase && r.players == i.players)
    && r.error == (if i.error != "" && (readyAt != 0 || i.phase != Starting)
                   then "Game unavailable. Check the host logs." else "")
  }

  lemma ObservedDescribes(v: Server, host: string, i: Instance, startedAt: int)
    ensures var r := Observed(v, host, i, startedAt);
      && r.id == v.id && r.host == host && r.requestId == v.requestId && Describes(r, i, v.readyAt, startedAt)
  {
  }

  /** A recorded request is reported on; a new one is recorded with its intent, or reported as a failed setup. */
  lemma RequestsAreHandedOver(local: Local, v: Server, host: string, i: Instance, startedAt: int, now: int)
    requires v.requestId != ""
    ensures var done := Ask(local, v, host, i, startedAt, now);
      if i.startRequestId == v.requestId then
        && done.local == local && done.turn.Says? && done.turn.report.id == v.id && done.turn.report.host == host
        && done.turn.report.requestId == v.requestId && Describes(done.turn.report, i, v.readyAt, startedAt)
      else if local.shuttingDown && v.desired in {Running, Stopped, Deleted} then done == Service(local, Skips)
      else if TakesIntent(local, v.id, v.desired) && local.store[v.id].startRequestId != v.requestId then
        && done.turn == Asks && v.id in done.local.store && Replaces(local, done.local, v.id, done.local.store[v.id])
        && IsIntended(local.store[v.id], done.local.store[v.id], v.desired, now)
        && done.local.store[v.id].startRequestId == v.requestId
      else done == Service(local, if v.desired in {Running, Stopped, Deleted} && v.id in local.store
                                     && local.store[v.id].startRequestId == v.requestId
                                  then Asks else Says(FailedReport(v, host, now)))
  {
    hide AnswerRequest, AfterRequest, Replaces, IsIntended, Describes;
    RequestIsExact(local, v.id, v.requestId, v.desired, now);
    ObservedDescribes(v, host, i, startedAt);
  }

  // -- Where reports come from --------------------------------------------------------------------

  /**
   * The report is of a server, by the event of a worker: that its setup failed, that it is late, that its host has no
   * instance of it and need not, or what its host's instance showed for the server's request.
   */
  predicate IsOrigin(w: World, e: Event, v: Server, r: Report) {
    && r.id == v.id && r.host == v.host && r.requestId == v.requestId
    && var store := LocalOf(w, v.host).store;
       || (r == FailedReport(v, v.host, r.observedAt))
       || (e.WorkerServes? && v.desired == Running && IsLate(v, e.now) && r == LateReport(v, v.host, e.now))
       || (e.WorkerServes? && v.desired != Running && v.id !in store
           && r == Report(v.id, v.host, v.requestId, v.desired, v.desired, None, "", e.now))
       || (v.id in store && store[v.id].startRequestId == v.requestId
           && ((e.WorkerAsks? && Describes(r, store[v.id], v.readyAt, e.setup.startedAt))
               || (e.WorkerRereads? && Describes(r, store[v.id], v.readyAt, e.setup.startedAt))))
  }

  /** Such an event came before state `n`, and the state it speaks of before that event. */
  ghost predicate HasOrigin(ws: seq<World>, es: seq<Event>, n: nat, r: Report) {
    exists m: nat, k: nat, v: Server :: m <= k < n && k < |es| && m < |ws| && IsOrigin(ws[m], es[k], v, r)
  }

  function InstanceOn(w: World, host: string, id: string): Option<Instance> {
    var store := LocalOf(w, host).store;
    if id in store then Some(store[id]) else None
  }

  /** The host had that instance, or none, at a state so far. */
  ghost predicate WasOn(ws: seq<World>, n: nat, host: string, id: string, seen: Option<Instance>) {
    exists m: nat :: m <= n && m < |ws| && InstanceOn(ws[m], host, id) == seen
  }

  /** What a worker has in hand is what its host had, or a report with an origin. */
  ghost predicate IsFounded(ws: seq<World>, es: seq<Event>, n: nat, q: Program)
    requires n < |ws|
  {
    match q
    case WorkerRead(host, snap, i, seen) => i < |snap.servers| ==> WasOn(ws, n, host, snap.servers[i].id, seen)
    case WorkerHas(host, snap, i, instance) =>
      i < |snap.servers| ==> WasOn(ws, n, host, snap.servers[i].id, Some(instance))
    case WorkerAsked(host, snap, i) =>
      i < |snap.servers| ==> RequestIn(LocalOf(ws[n], host), snap.servers[i].id) == snap.servers[i].requestId
    case WorkerSays(_, _, _, report) => HasOrigin(ws, es, n, report)
    case _ => true
  }

  ghost predicate AllFounded(ws: seq<World>, es: seq<Event>, n: nat)
    requires n < |ws|
  {
    && (forall p | p in ws[n].programs :: IsFounded(ws, es, n, ws[n].programs[p]))
    && (forall id | id in ws[n].store.reports ::
          ws[n].store.reports[id].id == id && HasOrigin(ws, es, n, ws[n].store.reports[id]))
  }

  lemma OriginStays(ws: seq<World>, es: seq<Event>, n: nat, r: Report)
    requires HasOrigin(ws, es, n, r)
    ensures HasOrigin(ws, es, n + 1, r)
  {
    hide IsOrigin;
    var m: nat, k: nat, v: Server :| m <= k < n && k < |es| && m < |ws| && IsOrigin(ws[m], es[k], v, r);
  }

  lemma WasOnStays(ws: seq<World>, n: nat, host: string, id: string, seen: Option<Instance>)
    requires WasOn(ws, n, host, id, seen)
    ensures WasOn(ws, n + 1, host, id, seen)
  {
    hide InstanceOn;
    var m: nat :| m <= n && m < |ws| && InstanceOn(ws[m], host, id) == seen;
  }

  /** Another program's step leaves the request a worker recorded where it is. */
  lemma RecordedStays(w: World, e: Event, x: World, p: nat)
    requires Step(w, e, x) && OneWorkerEach(w) && p in w.programs && w.programs[p].WorkerAsked?
    requires p != Mover(e) || !Handles(e)
    ensures var q := w.programs[p];
      forall id :: RequestIn(LocalOf(x, q.host), id) == RequestIn(LocalOf(w, q.host), id)
         || RequestIn(LocalOf(w, q.host), id) == ""
  {
    hide Step, Mover, Submission, Provision, WorkerStep, ReaderStep, SameWorker, KeepsConfig, KeepsHand;
    if AppliesNothing(e) {
      StepContinues(w, e, x);
    } else {
      StepIsOfItsKind(w, e, x);
      OtherTransactions(w, e, x, p);
    }
  }

  lemma OtherTransactions(w: World, e: Event, x: World, p: nat)
    requires (WorkerStep(w, e, x) || ReaderStep(w, e, x)) && !AppliesNothing(e)
    requires OneWorkerEach(w) && p in w.programs && w.programs[p].WorkerAsked? && (p != Mover(e) || !Handles(e))
    ensures var q := w.programs[p];
      forall id :: RequestIn(LocalOf(x, q.host), id) == RequestIn(LocalOf(w, q.host), id)
         || RequestIn(LocalOf(w, q.host), id) == ""
  {
    hide ReadStep, RereadStep, PublishStep, StumbleStep, MayBegin, CheckStep, ServeStep, AskStep, LocalMove;
    match e
    case Spawn(_, _) =>
    case Load(_) =>
    case WorkerServes(r, setup, now) => ServeStaysHome(w, r, setup, now, x, w.programs[p].host);
    case WorkerAsks(r, setup, now) => AskStaysHome(w, r, setup, now, x, w.programs[p].host);
    case LocalMoves(host, next) => LocalMoveKeeps(LocalOf(w, host), next);
  }

  lemma ServeStaysHome(w: World, r: nat, setup: Setup, now: int, x: World, host: string)
    requires r in w.programs && ServeStep(w, r, w.programs[r], setup, now, x) && WorkerHost(w.programs[r]) != Some(host)
    ensures LocalOf(x, host) == LocalOf(w, host)
  {
    hide Serve, AppliedAfter, AfterTurn;
  }

  lemma AskStaysHome(w: World, r: nat, setup: Setup, now: int, x: World, host: string)
    requires r in w.programs && AskStep(w, r, w.programs[r], setup, now, x) && WorkerHost(w.programs[r]) != Some(host)
    ensures LocalOf(x, host) == LocalOf(w, host)
  {
    hide Ask, AppliedAfter, AfterTurn;
  }

  lemma LocalMoveKeeps(a: Local, b: Local)
    requires LocalMove(a, b)
    ensures forall id :: RequestIn(b, id) == RequestIn(a, id) || RequestIn(a, id) == ""
  {
  }

  // -- One step of a worker -----------------------------------------------------------------------

  /** A turn whose instance was on the host, or whose report has an origin, leaves the worker founded. */
  lemma TurnIsFounded(ws: seq<World>, es: seq<Event>, n: nat, q: Program, turn: Turn)
    requires n < |ws| && Serving(q)
    requires turn.Has? ==> WasOn(ws, n, q.host, q.snap.servers[q.i].id, Some(turn.instance))
    requires turn.Asks? ==> RequestIn(LocalOf(ws[n], q.host), q.snap.servers[q.i].id) == q.snap.servers[q.i].requestId
    requires turn.Says? ==> HasOrigin(ws, es, n, turn.report)
    ensures IsFounded(ws, es, n, AfterTurn(q, turn))
  {
    hide WasOn, HasOrigin;
  }

  /** What serving turns up: an instance that was seen, or is there now, or a report with an origin. */
  lemma ServeIsFounded(w: World, e: Event, v: Server, seen: Option<Instance>)
    requires e.WorkerServes? && v.requestId != ""
    ensures var done := Serve(LocalOf(w, v.host), e.setup, v, v.host, seen, e.now);
      && !done.turn.Asks?
      && (done.turn.Has? ==> Some(done.turn.instance) == seen
                             || (v.id in done.local.store && done.local.store[v.id] == done.turn.instance))
      && (done.turn.Says? ==>
            forall y: World | InstanceOn(y, v.host, v.id) == seen :: IsOrigin(y, e, v, done.turn.report))
  {
    hide Wellformed, Trimmed, Describes, Replaces, IsIntended, TakesIntent, Serve, IsUp, IsOrigin;
    var local := LocalOf(w, v.host);
    var done := Serve(local, e.setup, v, v.host, seen, e.now);
    if IsGivenUp(v, seen, e.setup.startedAt, e.now) {
      LateStartsAreStopped(local, e.setup, v, v.host, seen, e.now);
    } else if seen.None? {
      MissingGamesAreServed(local, e.setup, v, v.host, e.now);
    } else {
      PresentGamesAreHeld(local, e.setup, v, v.host, seen.value, e.now);
    }
    if done.turn.Says? {
      forall y: World | InstanceOn(y, v.host, v.id) == seen ensures IsOrigin(y, e, v, done.turn.report) {
        SaidHasOrigin(y, e, v, seen, done.turn.report);
      }
    }
  }

  lemma SaidHasOrigin(y: World, e: Event, v: Server, seen: Option<Instance>, r: Report)
    requires e.WorkerServes? && InstanceOn(y, v.host, v.id) == seen
    requires || (v.desired == Running && IsLate(v, e.now) && r == LateReport(v, v.host, e.now))
             || (seen.None? && v.desired != Running
                 && r == Report(v.id, v.host, v.requestId, v.desired, v.desired, None, "", e.now))
             || r == FailedReport(v, v.host, e.now)
    ensures IsOrigin(y, e, v, r)
  {
    hide Describes;
  }

  lemma ServeStepIsFounded(ws: seq<World>, es: seq<Event>, n: nat)
    requires n < |es| && n + 1 < |ws| && es[n].WorkerServes? && es[n].p in ws[n].programs
    requires ServeStep(ws[n], es[n].p, ws[n].programs[es[n].p], es[n].setup, es[n].now, ws[n + 1])
    requires var q := ws[n].programs[es[n].p];
      IsFounded(ws, es, n, q) && q.snap.servers[q.i].host == q.host && q.snap.servers[q.i].requestId != ""
    ensures es[n].p in ws[n + 1].programs && IsFounded(ws, es, n + 1, ws[n + 1].programs[es[n].p])
  {
    hide Serve, AppliedAfter, AfterTurn, IsOrigin, IsFounded;
    var w, e, x, q := ws[n], es[n], ws[n + 1], ws[n].programs[es[n].p];
    var v := q.snap.servers[q.i];
    assert WasOn(ws, n, q.host, v.id, q.seen) by { ReadIsFounded(ws, es, n, q); }
    WasOnStays(ws, n, q.host, v.id, q.seen);
    ServeIsFounded(w, e, v, q.seen);
    var done := Serve(LocalOf(w, q.host), e.setup, v, q.host, q.seen, e.now);
    assert LocalOf(x, q.host) == done.local;
    if done.turn.Has? && v.id in done.local.store && done.local.store[v.id] == done.turn.instance {
      assert InstanceOn(x, q.host, v.id) == Some(done.turn.instance);
    }
    if done.turn.Says? {
      var m: nat :| m <= n && m < |ws| && InstanceOn(ws[m], q.host, v.id) == q.seen;
      assert IsOrigin(ws[m], es[n], v, done.turn.report);
    }
    TurnIsFounded(ws, es, n + 1, q, done.turn);
  }

  lemma ReadIsFounded(ws: seq<World>, es: seq<Event>, n: nat, q: Program)
    requires n < |ws| && IsFounded(ws, es, n, q) && Serving(q) && (q.WorkerRead? || q.WorkerHas?)
    ensures WasOn(ws, n, q.host, q.snap.servers[q.i].id, if q.WorkerRead? then q.seen else Some(q.instance))
  {
    hide WasOn;
  }

  lemma AskStepIsFounded(ws: seq<World>, es: seq<Event>, n: nat)
    requires n < |es| && n + 1 < |ws| && es[n].WorkerAsks? && es[n].p in ws[n].programs
    requires AskStep(ws[n], es[n].p, ws[n].programs[es[n].p], es[n].setup, es[n].now, ws[n + 1])
    requires var q := ws[n].programs[es[n].p];
      IsFounded(ws, es, n, q) && q.snap.servers[q.i].host == q.host && q.snap.servers[q.i].requestId != ""
    ensures es[n].p in ws[n + 1].programs && IsFounded(ws, es, n + 1, ws[n + 1].programs[es[n].p])
  {
    hide Ask, AppliedAfter, AfterTurn, IsFounded, Describes, IsIntended, Replaces, TakesIntent;
    var w, e, x, q := ws[n], es[n], ws[n + 1], ws[n].programs[es[n].p];
    var v := q.snap.servers[q.i];
    assert WasOn(ws, n, q.host, v.id, Some(q.instance)) by { ReadIsFounded(ws, es, n, q); }
    var done := Ask(LocalOf(w, q.host), v, q.host, q.instance, e.setup.startedAt, e.now);
    RequestsAreHandedOver(LocalOf(w, q.host), v, q.host, q.instance, e.setup.startedAt, e.now);
    assert LocalOf(x, q.host) == done.local;
    var m: nat :| m <= n && m < |ws| && InstanceOn(ws[m], q.host, v.id) == Some(q.instance);
    if done.turn.Says? {
      assert IsOrigin(ws[m], es[n], v, done.turn.report);
    }
    TurnIsFounded(ws, es, n + 1, q, done.turn);
  }

  lemma RereadHasOrigin(ws: seq<World>, es: seq<Event>, n: nat, v: Server)
    requires n < |es| && n + 1 < |ws| && es[n].WorkerRereads?
    requires RequestIn(LocalOf(ws[n], v.host), v.id) == v.requestId
    ensures var turn := Reread(LocalOf(ws[n], v.host), v, v.host, es[n].setup.startedAt);
      !turn.Has? && !turn.Asks? && (turn.Says? ==> HasOrigin(ws, es, n + 1, turn.report))
  {
    hide Describes, Observed;
    var turn := Reread(LocalOf(ws[n], v.host), v, v.host, es[n].setup.startedAt);
    if turn.Says? {
      ObservedDescribes(v, v.host, LocalOf(ws[n], v.host).store[v.id], es[n].setup.startedAt);
      assert IsOrigin(ws[n], es[n], v, turn.report);
    }
  }

  lemma RereadStepIsFounded(ws: seq<World>, es: seq<Event>, n: nat)
    requires n < |es| && n + 1 < |ws| && es[n].WorkerRereads? && es[n].p in ws[n].programs
    requires RereadStep(ws[n], es[n].p, ws[n].programs[es[n].p], es[n].setup, ws[n + 1])
    requires var q := ws[n].programs[es[n].p];
      IsFounded(ws, es, n, q) && q.snap.servers[q.i].host == q.host
    ensures es[n].p in ws[n + 1].programs && IsFounded(ws, es, n + 1, ws[n + 1].programs[es[n].p])
  {
    hide AfterTurn, Reread, HasOrigin;
    var w, e, q := ws[n], es[n], ws[n].programs[es[n].p];
    var v := q.snap.servers[q.i];
    RereadHasOrigin(ws, es, n, v);
    hide IsFounded;
    TurnIsFounded(ws, es, n + 1, q, Reread(LocalOf(w, q.host), v, q.host, e.setup.startedAt));
  }

  lemma StumbleIsFounded(ws: seq<World>, es: seq<Event>, n: nat)
    requires n < |es| && n + 1 < |ws| && es[n].WorkerFails? && es[n].p in ws[n].programs
    requires StumbleStep(ws[n], es[n].p, ws[n].programs[es[n].p], es[n].reported, ws[n + 1])
    requires var q := ws[n].programs[es[n].p]; q.snap.servers[q.i].host == q.host
    ensures es[n].p in ws[n + 1].programs && IsFounded(ws, es, n + 1, ws[n + 1].programs[es[n].p])
  {
    hide AfterTurn, IsFounded, Describes;
    var q, reported := ws[n].programs[es[n].p], es[n].reported;
    var v := q.snap.servers[q.i];
    var turn := if reported.None? then Skips else Says(SetupFailed(v, q.host, reported.value));
    if turn.Says? {
      assert IsOrigin(ws[n], es[n], v, turn.report);
    }
    TurnIsFounded(ws, es, n + 1, q, turn);
  }

  lemma ReadStepIsFounded(ws: seq<World>, es: seq<Event>, n: nat)
    requires n < |es| && n + 1 < |ws| && es[n].WorkerReads? && es[n].p in ws[n].programs
    requires ReadStep(ws[n], es[n].p, ws[n].programs[es[n].p], ws[n + 1])
    ensures es[n].p in ws[n + 1].programs && IsFounded(ws, es, n + 1, ws[n + 1].programs[es[n].p])
  {
    var q := ws[n].programs[es[n].p];
    if q.i < |q.snap.servers| {
      assert InstanceOn(ws[n], q.host, q.snap.servers[q.i].id) == InstanceOn(ws[n], q.host, q.snap.servers[q.i].id);
    }
  }

  /** A worker that serves a server serves one of its own host, which has a request. */
  lemma ServedIsNamed(w: World, q: Program)
    requires Inv(w) && ProgramOk(w, q) && Serving(q)
    ensures q.snap.servers[q.i].host == q.host && q.snap.servers[q.i].requestId != ""
  {
    hide Inv, ProgramOk;
    WorkerServesOwn(w, q);
    RequestsAreNamed(w, q.snap);
    assert q.snap.servers[q.i] in q.snap.servers;
  }

  lemma WorkIsFounded(ws: seq<World>, es: seq<Event>, n: nat)
    requires n < |es| && n + 1 < |ws| && Inv(ws[n]) && AllFounded(ws, es, n)
    requires WorkerStep(ws[n], es[n], ws[n + 1]) && Handles(es[n])
    ensures Mover(es[n]) in ws[n + 1].programs && IsFounded(ws, es, n + 1, ws[n + 1].programs[Mover(es[n])])
  {
    hide IsFounded, ReadStep, ServeStep, AskStep, RereadStep, PublishStep, StumbleStep, LocalMove, Serving;
    var w, e := ws[n], es[n];
    assert e.p in w.programs && ProgramOk(w, w.programs[e.p]) && IsFounded(ws, es, n, w.programs[e.p]);
    hide Inv;
    if !e.WorkerReads? {
      assert Serving(w.programs[e.p]) by { HandlingServes(w, e, ws[n + 1]); }
      ServedIsNamed(w, w.programs[e.p]);
    }
    match e
    case WorkerReads(_) => ReadStepIsFounded(ws, es, n);
    case WorkerServes(_, _, _) => ServeStepIsFounded(ws, es, n);
    case WorkerAsks(_, _, _) => AskStepIsFounded(ws, es, n);
    case WorkerRereads(_, _) => RereadStepIsFounded(ws, es, n);
    case WorkerFails(_, _) => StumbleIsFounded(ws, es, n);
  }

  lemma HandlingServes(w: World, e: Event, x: World)
    requires WorkerStep(w, e, x) && Handles(e) && !e.WorkerReads?
    ensures e.p in w.programs && Serving(w.programs[e.p])
  {
    hide Transacts, Serve, Ask, Reread, AfterTurn;
  }

  // -- Every step, and whole runs -----------------------------------------------------------------

  /** A worker that did not move keeps what it had in hand. */
  lemma FoundedStays(ws: seq<World>, es: seq<Event>, n: nat, p: nat)
    requires n < |es| && n + 1 < |ws| && Inv(ws[n]) && OneWorkerEach(ws[n]) && Step(ws[n], es[n], ws[n + 1])
    requires p in ws[n].programs && IsFounded(ws, es, n, ws[n].programs[p]) && (p != Mover(es[n]) || !Handles(es[n]))
    ensures IsFounded(ws, es, n + 1, ws[n].programs[p])
  {
    hide Step, Mover, Handles, OneWorkerEach, WasOn, HasOrigin, RequestIn;
    var q := ws[n].programs[p];
    assert ProgramOk(ws[n], q);
    hide Inv, ProgramOk;
    match q
    case WorkerRead(host, snap, i, seen) =>
      if i < |snap.servers| { WasOnStays(ws, n, host, snap.servers[i].id, seen); }
    case WorkerHas(host, snap, i, instance) =>
      if i < |snap.servers| { WasOnStays(ws, n, host, snap.servers[i].id, Some(instance)); }
    case WorkerAsked(host, snap, i) =>
      RecordedStays(ws[n], es[n], ws[n + 1], p);
      if i < |snap.servers| { ServedIsNamed(ws[n], q); }
    case WorkerSays(_, _, _, report) => OriginStays(ws, es, n, report);
    case _ =>
  }

  lemma ProgramsStayFounded(ws: seq<World>, es: seq<Event>, n: nat, p: nat)
    requires n < |es| && n + 1 < |ws| && Inv(ws[n]) && OneWorkerEach(ws[n]) && Step(ws[n], es[n], ws[n + 1])
    requires AllFounded(ws, es, n) && p in ws[n + 1].programs
    ensures IsFounded(ws, es, n + 1, ws[n + 1].programs[p])
  {
    hide Inv, OneWorkerEach, IsFounded, Step, WorkerStep, ReaderStep, Submission, Provision, Mover, KeepsConfig;
    var w, e, x := ws[n], es[n], ws[n + 1];
    StepIsOfItsKind(w, e, x);
    if p == Mover(e) && Handles(e) {
      WorkIsFounded(ws, es, n);
    } else if !InHand(x.programs[p]) {
      NothingInHand(ws, es, n + 1, x.programs[p]);
    } else {
      if e.Spawn? && p == Mover(e) {
        SpawnedIsEmpty(w, e, x);
      }
      StepLeavesOthers(w, e, x);
      FoundedStays(ws, es, n, p);
    }
  }

  lemma NothingInHand(ws: seq<World>, es: seq<Event>, n: nat, q: Program)
    requires n < |ws| && !InHand(q)
    ensures IsFounded(ws, es, n, q)
  {
  }

  lemma ReportsStayFounded(ws: seq<World>, es: seq<Event>, n: nat, id: string)
    requires n < |es| && n + 1 < |ws| && AllFounded(ws, es, n) && Step(ws[n], es[n], ws[n + 1])
    requires id in ws[n + 1].store.reports
    ensures ws[n + 1].store.reports[id].id == id && HasOrigin(ws, es, n + 1, ws[n + 1].store.reports[id])
  {
    hide Step, HasOrigin;
    var r := ws[n + 1].store.reports[id];
    ReportsAreSaid(ws[n], es[n], ws[n + 1], id);
    if !(id in ws[n].store.reports && ws[n].store.reports[id] == r) {
      assert IsFounded(ws, es, n, ws[n].programs[es[n].p]);
    }
    OriginStays(ws, es, n, r);
  }

  lemma {:induction false} RunKeepsFounded(ws: seq<World>, es: seq<Event>, n: nat)
    requires IsRun(ws, es) && n < |ws|
    ensures AllFounded(ws, es, n)
  {
    hide Step, Inv, IsFounded, HasOrigin, OneWorkerEach;
    if n > 0 {
      RunKeepsFounded(ws, es, n - 1);
      RunKeepsInv(ws, es, n - 1);
      RunKeepsIntent(ws, es, n - 1);
      IsStep(ws, es, n - 1);
      forall p | p in ws[n].programs ensures IsFounded(ws, es, n, ws[n].programs[p]) {
        ProgramsStayFounded(ws, es, n - 1, p);
      }
      forall id | id in ws[n].store.reports
        ensures ws[n].store.reports[id].id == id && HasOrigin(ws, es, n, ws[n].store.reports[id])
      {
        ReportsStayFounded(ws, es, n - 1, id);
      }
    }
  }

  // -- What reports, and readiness, rest on -------------------------------------------------------

  /**
   * Over every run, each stored report was made by a worker's step, of what that server's host had at a state before: a
   * failed setup, a late start, no instance where none is wanted, or the instance that had recorded this very request.
   */
  lemma ReportsTellWhatHostsHad(ws: seq<World>, es: seq<Event>, n: nat, id: string)
    requires IsRun(ws, es) && n < |ws| && id in ws[n].store.reports
    ensures ws[n].store.reports[id].id == id
    ensures exists m: nat, k: nat, v: Server :: m <= k < n && IsOrigin(ws[m], es[k], v, ws[n].store.reports[id])
  {
    hide IsOrigin, IsFounded;
    RunKeepsFounded(ws, es, n);
  }

  /**
   * End to end: when a pass that read its reports from the table makes a server ready, then at some state before it the
   * server's own host had an instance of it, with the newest request, running and wanted so, without an error, its
   * players counted at the very time readiness dates from, and that after the host's boot.
   */
  lemma ReadyServersWereUp(ws: seq<World>, es: seq<Event>, i: nat, v: Server, u: Server)
    requires IsRun(ws, es) && i < |es| && es[i].SubmitPass? && WereStored(ws, i, es[i].reports)
    requires v in ws[i].store.registry.servers && u in ws[i + 1].store.registry.servers && u.id == v.id
    requires u.readyAt != v.readyAt
    ensures exists m: nat, k: nat ::
      && m <= k < i && (es[k].WorkerAsks? || es[k].WorkerRereads?) && v.id in LocalOf(ws[m], v.host).store
      && var game := LocalOf(ws[m], v.host).store[v.id];
         && game.startRequestId == v.requestId && game.phase == Running && game.desired == Running
         && game.players.Some? && game.error == "" && game.updatedAt == u.readyAt
         && es[k].setup.startedAt <= u.readyAt
  {
    hide Step, Inv, IsOrigin;
    ServersBecomeReadyAsReported(ws, es, i, v, u);
    var r := es[i].reports[v.id];
    var t: nat :| t <= i && t < |ws| && v.id in ws[t].store.reports && ws[t].store.reports[v.id] == r;
    ReportsTellWhatHostsHad(ws, es, t, v.id);
    var m: nat, k: nat, s: Server :| m <= k < t && IsOrigin(ws[m], es[k], s, r);
    ReadyOriginWasUp(ws[m], es[k], s, r);
  }

  lemma ReadyOriginWasUp(w: World, e: Event, v: Server, r: Report)
    requires IsOrigin(w, e, v, r) && r.phase == Running && r.desired == Running && r.players.Some? && r.error == ""
    ensures (e.WorkerAsks? || e.WorkerRereads?) && r.id in LocalOf(w, r.host).store
    ensures var game := LocalOf(w, r.host).store[r.id];
      && game.startRequestId == r.requestId && game.phase == Running && game.desired == Running
      && game.players.Some? && game.error == "" && game.updatedAt == r.observedAt && e.setup.startedAt <= r.observedAt
  {
  }
}
