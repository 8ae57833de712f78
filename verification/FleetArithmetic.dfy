/** Placement in 64-bit arithmetic: when its sums can be trusted, and what happens when they cannot. */
module FleetArithmetic {
  import opened FleetState
  import opened FleetPlacement
  import opened FleetStore
  import opened FleetPlan
  import opened FleetWorld
  import opened FleetHistory
  import opened FleetSafety
  import opened FleetTheorems
  import opened FleetIntent
  import opened FleetTraces
  import opened FleetWitness

  // -- 64-bit sums --------------------------------------------------------------------------------

  const TWO_62 := 0x4000_0000_0000_0000
  const TWO_63 := 0x8000_0000_0000_0000

  /** The value a signed 64-bit sum has in place of `x`. */
  function Int64(x: int): int {
    (x + TWO_63) % (2 * TWO_63) - TWO_63
  }

  function Plus64(a: Resources, b: Resources): Resources {
    Resources(Int64(a.cpu + b.cpu), Int64(a.memory + b.memory), Int64(a.disk + b.disk))
  }

  /** The reservation loop as the machine computes it. */
  function Used64(servers: seq<Server>, host: string): Resources {
    if servers == [] then NOTHING
    else
      var last := servers[|servers| - 1];
      var before := Used64(servers[..|servers| - 1], host);
      if last.host == host then Plus64(before, last.resources) else before
  }

  predicate Fits64(capacity: Resources, used: Resources, required: Resources) {
    AtMost(Plus64(used, required), capacity)
  }

  /** Amounts that a saved document can hold. */
  predicate Countable(r: Resources) {
    0 <= r.cpu < TWO_63 && 0 <= r.memory < TWO_63 && 0 <= r.disk < TWO_63
  }

  predicate Wraps(a: int, b: int) {
    a + b >= TWO_63
  }

  predicate NoneWraps(a: Resources, b: Resources) {
    !Wraps(a.cpu, b.cpu) && !Wraps(a.memory, b.memory) && !Wraps(a.disk, b.disk)
  }

  /** Some component is refused by a sum that does not wrap. */
  predicate PlainlyTooLarge(capacity: Resources, used: Resources, required: Resources) {
    || (!Wraps(used.cpu, required.cpu) && used.cpu + required.cpu > capacity.cpu)
    || (!Wraps(used.memory, required.memory) && used.memory + required.memory > capacity.memory)
    || (!Wraps(used.disk, required.disk) && used.disk + required.disk > capacity.disk)
  }

  /** One component: a sum that wraps is negative, so it is admitted although it never fits. */
  lemma ComponentFit(capacity: int, used: int, required: int)
    requires 0 <= capacity < TWO_63 && 0 <= used < TWO_63 && 0 <= required < TWO_63
    ensures Int64(used + required) <= capacity <==> Wraps(used, required) || used + required <= capacity
    ensures Wraps(used, required) ==> used + required > capacity
  {
    if Wraps(used, required) {
      assert Int64(used + required) == used + required - 2 * TWO_63;
    } else {
      assert Int64(used + required) == used + required;
    }
  }

  /**
   * The machine's fit test is the exact one if and only if no sum wraps, or a component that does not wrap is too large
   * by itself; otherwise it admits what does not fit.
   */
  lemma FitIsExact(capacity: Resources, used: Resources, required: Resources)
    requires Countable(capacity) && Countable(used) && Countable(required)
    ensures Fits64(capacity, used, required) == Fits(capacity, used, required)
       <==> NoneWraps(used, required) || PlainlyTooLarge(capacity, used, required)
    ensures Fits(capacity, used, required) ==> Fits64(capacity, used, required)
  {
    ComponentFit(capacity.cpu, used.cpu, required.cpu);
    ComponentFit(capacity.memory, used.memory, required.memory);
    ComponentFit(capacity.disk, used.disk, required.disk);
  }

  lemma {:induction false} UsedIsCounted(servers: seq<Server>, host: string)
    requires forall v | v in servers :: Positive(v.resources)
    ensures var u := Used(servers, host); u.cpu >= 0 && u.memory >= 0 && u.disk >= 0
  {
    if servers != [] {
      assert servers[|servers| - 1] in servers;
      UsedIsCounted(servers[..|servers| - 1], host);
    }
  }

  /** Where the reservations fit the machine's integers, the loop adds them up exactly. */
  lemma {:induction false} UsedIsExact(servers: seq<Server>, host: string)
    requires (forall v | v in servers :: Positive(v.resources)) && Countable(Used(servers, host))
    ensures Used64(servers, host) == Used(servers, host)
  {
    if servers != [] {
      var last := servers[|servers| - 1];
      var before := servers[..|servers| - 1];
      assert last in servers;
      UsedIsCounted(before, host);
      UsedIsExact(before, host);
    }
  }

  // -- Choosing a host ----------------------------------------------------------------------------

  predicate Eligible64(c: Config, s: Registry, required: Resources, seen: map<string, Lifecycle>, h: Host) {
    && h in s.hosts && !h.retiring && Compatible(c, h) && Fits64(h.capacity, Used64(s.servers, h.id), required)
    && h.id in seen && Rank(seen[h.id]).Some?
  }

  function CandidateOf64(s: Registry, required: Resources, seen: map<string, Lifecycle>, h: Host): Candidate
    requires h.id in seen && Rank(seen[h.id]).Some?
  {
    Candidate(h, Rank(seen[h.id]).value,
              Int64(Int64(h.capacity.memory - Used64(s.servers, h.id).memory) - required.memory))
  }

  /** The choice the machine makes: the least of the hosts its own sums admit. */
  ghost predicate IsChoice64(c: Config, s: Registry, required: Resources, seen: map<string, Lifecycle>,
                             chosen: Option<Host>) {
    && (chosen.None? ==> forall h | h in s.hosts :: !Eligible64(c, s, required, seen, h))
    && (chosen.Some? ==>
          && Eligible64(c, s, required, seen, chosen.value)
          && forall h | Eligible64(c, s, required, seen, h) ::
               !Before(CandidateOf64(s, required, seen, h), CandidateOf64(s, required, seen, chosen.value)))
  }

  /** Capacities below 2^62 leave room to add two amounts. */
  predicate Modest(capacity: Resources) {
    capacity.cpu < TWO_62 && capacity.memory < TWO_62 && capacity.disk < TWO_62
  }

  ghost predicate ModestHosts(s: Registry) {
    forall h | h in s.hosts :: Modest(h.capacity)
  }

  lemma RoomIsExact(capacity: Resources, used: Resources, required: Resources)
    requires Modest(capacity) && Modest(required) && Positive(required) && AtMost(used, capacity)
    requires used.cpu >= 0 && used.memory >= 0 && used.disk >= 0
    ensures Countable(used) && Fits64(capacity, used, required) == Fits(capacity, used, required)
    ensures Int64(Int64(capacity.memory - used.memory) - required.memory)
        == capacity.memory - used.memory - required.memory
  {
    FitIsExact(capacity, used, required);
    var rest := capacity.memory - used.memory;
    assert Int64(rest) == rest;
    assert Int64(rest - required.memory) == rest - required.memory;
  }

  lemma HostIsExact(c: Config, s: Registry, required: Resources, seen: map<string, Lifecycle>, h: Host)
    requires Sound(s) && ModestHosts(s) && Positive(required) && Modest(required) && h in s.hosts
    ensures Eligible64(c, s, required, seen, h) == Eligible(c, s, required, seen, h)
    ensures h.id in seen && Rank(seen[h.id]).Some? ==>
              CandidateOf64(s, required, seen, h) == CandidateOf(s, required, seen, h)
  {
    hide RetirementIsSafe, UniqueHosts, UniqueServers, Used, Used64, Rank, Fits, Fits64, Int64, AtMost, Modest,
         Compatible;
    var used := Used(s.servers, h.id);
    UsedIsCounted(s.servers, h.id);
    RoomIsExact(h.capacity, used, required);
    UsedIsExact(s.servers, h.id);
  }

  /** In a sound document of modest hosts the machine chooses exactly as it should. */
  lemma ChoiceIsExact(c: Config, s: Registry, required: Resources, seen: map<string, Lifecycle>, chosen: Option<Host>)
    requires Sound(s) && ModestHosts(s) && Positive(required) && Modest(required)
    ensures IsChoice64(c, s, required, seen, chosen) <==> IsChoice(c, s, required, seen, chosen)
  {
    hide Sound, ModestHosts, Eligible, Eligible64, CandidateOf, CandidateOf64, Before;
    forall h | h in s.hosts
      ensures Eligible64(c, s, required, seen, h) == Eligible(c, s, required, seen, h)
      ensures h.id in seen && Rank(seen[h.id]).Some? ==>
                CandidateOf64(s, required, seen, h) == CandidateOf(s, required, seen, h)
    {
      HostIsExact(c, s, required, seen, h);
    }
    forall h ensures Eligible64(c, s, required, seen, h) == Eligible(c, s, required, seen, h) {
      EligibleIsSaved(c, s, required, seen, h);
    }
    forall h | Eligible(c, s, required, seen, h) ensures h in s.hosts && h.id in seen && Rank(seen[h.id]).Some? {
      EligibleIsSaved(c, s, required, seen, h);
    }
  }

  lemma EligibleIsSaved(c: Config, s: Registry, required: Resources, seen: map<string, Lifecycle>, h: Host)
    ensures Eligible(c, s, required, seen, h) ==> h in s.hosts && h.id in seen && Rank(seen[h.id]).Some?
    ensures Eligible64(c, s, required, seen, h) ==> h in s.hosts && h.id in seen && Rank(seen[h.id]).Some?
  {
  }

  // -- Runs of the machine ------------------------------------------------------------------------

  ghost predicate CreateStep64(w: World, p: nat, q: Program, seen: map<string, Lifecycle>, chosen: Option<Host>,
                               drawn: Drawn, now: int, told: Outcome, x: World) {
    q.CreateChecked? && IsChoice64(q.c, q.snap, q.game.resources, seen, chosen)
    && CreateTries(w, p, q, chosen, drawn, now, told, x)
  }

  /** The fleet's steps, with placement computed by the machine. */
  ghost predicate Step64(w: World, e: Event, x: World) {
    if e.SubmitCreate? then
      e.p in w.programs && CreateStep64(w, e.p, w.programs[e.p], e.seen, e.chosen, e.drawn, e.now, e.told, x)
    else Step(w, e, x)
  }

  ghost predicate IsRun64(ws: seq<World>, es: seq<Event>) {
    && |ws| == |es| + 1
    && ws[0] == INITIAL
    && forall i | 0 <= i < |es| :: Step64(ws[i], es[i], ws[i + 1])
  }

  /** Every create that is ever begun acts under capacities below 2^62. */
  predicate ModestConfigs(es: seq<Event>) {
    forall e | e in es && e.Spawn? && ActsUnder(e.program).Some? :: Modest(ActsUnder(e.program).value.capacity)
  }

  ghost predicate ModestInv(w: World) {
    && (forall id | id in w.book.hosts :: Modest(w.book.hosts[id].capacity))
    && forall p | p in w.programs && ActsUnder(w.programs[p]).Some? :: Modest(ActsUnder(w.programs[p]).value.capacity)
  }

  /** Where everything is modest, a step of the machine is a step of the fleet. */
  lemma StepIsExact(w: World, e: Event, x: World)
    requires Inv(w) && ModestInv(w) && Step64(w, e, x)
    ensures Step(w, e, x)
  {
    hide Step, CreateTries, IsChoice, IsChoice64, StoreInv, MachineInv, Sound, Known, Instances, ModestHosts;
    if e.SubmitCreate? {
      var q := w.programs[e.p];
      assert ProgramOk(w, q);
      assert Modest(q.c.capacity);
      CatalogIsModest(q.c, q.game);
      SnapIsModest(w, q.snap);
      ChoiceIsExact(q.c, q.snap, q.game.resources, e.seen, e.chosen);
      CreateIsStep(w, e, x);
    }
  }

  lemma CreateIsStep(w: World, e: Event, x: World)
    requires e.SubmitCreate? && e.p in w.programs
    requires CreateStep(w, e.p, w.programs[e.p], e.seen, e.chosen, e.drawn, e.now, e.told, x)
    ensures Step(w, e, x)
  {
    hide CreateStep, Provision, WorkerStep, ReaderStep;
  }

  lemma CatalogIsModest(c: Config, game: Game)
    requires ValidConfig(c) && game in c.games && Modest(c.capacity)
    ensures Positive(game.resources) && Modest(game.resources)
  {
  }

  lemma SnapIsModest(w: World, s: Registry)
    requires ModestInv(w) && SnapOk(w, s)
    ensures Sound(s) && ModestHosts(s)
  {
    hide Sound, Instances;
    forall h | h in s.hosts ensures Modest(h.capacity) {
      assert w.book.hosts[h.id] == BirthOf(h);
    }
  }

  // -- Where capacities come from -----------------------------------------------------------------

  /** A document with no host that an earlier one lacked adds no host to the history. */
  lemma NoNewHosts(b: Book, s: Registry, d: Registry)
    requires Known(b, s) && HostIds(d) <= HostIds(s)
    ensures Recorded(b, d).hosts.Keys == b.hosts.Keys
  {
    hide HostHolder, ServerBirths, Issues;
  }

  ghost predicate SameHosts(w: World, x: World) {
    x.book.hosts.Keys == w.book.hosts.Keys
  }

  lemma ActionHosts(c: Config, s: Registry, id: string, desired: Status, reports: map<string, Report>, token: string,
                    now: int)
    requires PlanAction(c, s, id, desired, reports, token, now).Change?
    ensures HostIds(PlanAction(c, s, id, desired, reports, token, now).next) == HostIds(s)
  {
  }

  lemma ActionAddsNoHost(w: World, p: nat, reports: map<string, Report>, token: string, now: int, told: Outcome,
                         x: World)
    requires Inv(w) && p in w.programs && ActionStep(w, p, w.programs[p], reports, token, now, told, x)
    ensures SameHosts(w, x)
  {
    hide StoreInv, MachineInv, Swap, Recorded, Saved, Sound, Known, Instances, PlanAction, Unused;
    var q := w.programs[p];
    assert ProgramOk(w, q);
    var plan := PlanAction(q.c, q.snap, q.id, q.desired, reports, token, now);
    if plan.Change? {
      ActionHosts(q.c, q.snap, q.id, q.desired, reports, token, now);
      NoNewHosts(w.book, q.snap, plan.next);
    }
  }

  lemma TeardownAddsNoHost(w: World, p: nat, x: World)
    requires Inv(w) && p in w.programs && TeardownStep(w, p, w.programs[p], x)
    ensures SameHosts(w, x)
  {
    hide StoreInv, MachineInv, Swap, Recorded, Saved, Sound, Known, Instances;
    var q := w.programs[p];
    assert ProgramOk(w, q);
    NoNewHosts(w.book, q.snap, q.snap.(deleting := true));
  }

  lemma PassHosts(c: Config, s: Registry, reports: map<string, Report>, now: int, plan: PassPlan)
    requires IsPass(c, s, reports, now, plan)
    ensures HostIds(plan.next) <= HostIds(s)
  {
    hide AllRefreshed, Retires, RemovalDone, Touched;
    var k := PassStops(c, s, reports, now, plan);
    forall h | h in plan.next.hosts ensures h.id in HostIds(s) {
      var i :| 0 <= i < |plan.next.hosts| && plan.next.hosts[i] == h;
      assert s.hosts[i] in s.hosts && h.id == s.hosts[i].id;
    }
  }

  lemma PassAddsNoHost(w: World, p: nat, reports: map<string, Report>, plan: PassPlan, now: int, told: Outcome,
                       x: World)
    requires Inv(w) && p in w.programs && PassStep(w, p, w.programs[p], reports, plan, now, told, x)
    ensures SameHosts(w, x)
  {
    hide StoreInv, MachineInv, Swap, ForgetOutcome, Recorded, Saved, Forgotten, Sound, Known, Instances, IsPass;
    var q := w.programs[p];
    assert ProgramOk(w, q);
    PassHosts(q.c, q.snap, reports, now, plan);
    NoNewHosts(w.book, q.snap, plan.next);
  }

  lemma ForgetHosts(s: Registry, id: string, plan: ForgetPlan)
    requires IsForgetRound(s, id, plan) && (plan.DropServer? || plan.DropHost?)
    ensures HostIds(plan.next) <= HostIds(s)
  {
    if plan.DropServer? {
      var k := RoundDropsServer(s, id, plan);
    } else {
      var k := RoundDropsHost(s, id, plan);
    }
  }

  lemma ForgetAddsNoHost(w: World, p: nat, plan: ForgetPlan, told: Outcome, x: World)
    requires Inv(w) && p in w.programs && ForgetStep(w, p, w.programs[p], plan, told, x)
    ensures SameHosts(w, x)
  {
    hide StoreInv, MachineInv, Swap, ForgetOutcome, Recorded, Saved, Forgotten, Sound, Known, Instances,
         IsForgetRound;
    var q := w.programs[p];
    assert ProgramOk(w, q);
    if plan.DropServer? || plan.DropHost? {
      ForgetHosts(q.read.value, q.s.snap.hosts[q.s.i].id, plan);
      NoNewHosts(w.book, q.read.value, plan.next);
    }
  }

  lemma NoteAddsNoHost(w: World, p: nat, next: Option<Registry>, told: Outcome, x: World)
    requires Inv(w) && p in w.programs && NoteStep(w, p, w.programs[p], next, told, x)
    ensures SameHosts(w, x)
  {
    hide StoreInv, MachineInv, Swap, Recorded, Saved, Sound, Known, Instances, IsNoted, AfterNote;
    var q := w.programs[p];
    assert ProgramOk(w, q);
    if next.Some? {
      var k := NoteChoosesHost(q.read.value, q.s.snap.hosts[q.s.i].id, q.note, next);
      NotedHosts(q.read.value, k, q.note);
      NoNewHosts(w.book, q.read.value, next.value);
    }
  }

  lemma NotedHosts(s: Registry, k: nat, note: HostNote)
    requires k < |s.hosts|
    ensures HostIds(s.(hosts := s.hosts[k := Noted(s.hosts[k], note)])) <= HostIds(s)
  {
    assert s.hosts[k] in s.hosts;
  }

  /** A create adds at most one host, with the capacity of its own configuration. */
  lemma CreateAddsItsHost(w: World, e: Event, x: World, id: string)
    requires Inv(w) && Inv(x) && Step(w, e, x) && e.SubmitCreate? && id in x.book.hosts && id !in w.book.hosts
    ensures e.p in w.programs && w.programs[e.p].CreateChecked?
    ensures x.book.hosts[id].capacity == w.programs[e.p].c.capacity
  {
    hide StoreInv, MachineInv, Swap, Recorded, Saved, Sound, Known, Instances, IsChoice, PlanCreate, Step;
    CreateTriesOf(w, e, x);
    var q := w.programs[e.p];
    assert ProgramOk(w, q);
    var plan := PlanCreate(q.c, q.id, q.game, q.name, q.snap, false, e.chosen, e.drawn, e.now);
    CreateHosts(q.c, q.id, q.game, q.name, q.snap, e.chosen, e.drawn, e.now);
    CreatedBirth(w, q.snap, plan.next, NewHost(q.c, e.drawn, e.now), id);
  }

  lemma CreateTriesOf(w: World, e: Event, x: World)
    requires Step(w, e, x) && e.SubmitCreate?
    ensures e.p in w.programs && w.programs[e.p].CreateChecked?
    ensures CreateTries(w, e.p, w.programs[e.p], e.chosen, e.drawn, e.now, e.told, x)
  {
    hide CreateTries, IsChoice, Step, Provision, WorkerStep, ReaderStep, ActionStep, TeardownStep, PassStep,
         ForgetStep, NoteStep;
    StepIsOfItsKind(w, e, x);
  }

  lemma CreateHosts(c: Config, id: string, game: Game, name: string, s: Registry, chosen: Option<Host>, drawn: Drawn,
                    now: int)
    requires PlanCreate(c, id, game, name, s, false, chosen, drawn, now).Propose?
    ensures var d := PlanCreate(c, id, game, name, s, false, chosen, drawn, now).next;
      d.hosts == s.hosts || d.hosts == s.hosts + [NewHost(c, drawn, now)]
  {
  }

  lemma CreatedBirth(w: World, s: Registry, d: Registry, h: Host, id: string)
    requires Known(w.book, s) && (d.hosts == s.hosts || d.hosts == s.hosts + [h])
    requires id in Recorded(w.book, d).hosts && id !in w.book.hosts
    ensures Recorded(w.book, d).hosts[id] == BirthOf(h)
  {
    hide ServerBirths, Issues;
  }

  /** Only creates bring new hosts, each with the capacity of the create's own configuration. */
  lemma NewHostsAreCreated(w: World, e: Event, x: World, id: string)
    requires Inv(w) && Inv(x) && Step(w, e, x) && id in x.book.hosts && id !in w.book.hosts
    ensures e.SubmitCreate? && e.p in w.programs && w.programs[e.p].CreateChecked?
    ensures x.book.hosts[id].capacity == w.programs[e.p].c.capacity
  {
    hide Inv, Step, Submission, Provision, WorkerStep, ReaderStep;
    StepIsOfItsKind(w, e, x);
    if !Submits(e) {
      StepKeepsDocument(w, e, x);
      assert false;
    } else if e.SubmitCreate? {
      CreateAddsItsHost(w, e, x, id);
    } else {
      SubmissionAddsNoHost(w, e, x);
      assert false;
    }
  }

  lemma SubmissionAddsNoHost(w: World, e: Event, x: World)
    requires Inv(w) && Submission(w, e, x) && !e.SubmitCreate?
    ensures SameHosts(w, x)
  {
    hide Inv, CreateStep, PassStep, ForgetStep, NoteStep, ActionStep, TeardownStep, SameHosts;
    match e
    case SubmitAction(p, reports, token, now, told) => ActionAddsNoHost(w, p, reports, token, now, told, x);
    case SubmitTeardown(p) => TeardownAddsNoHost(w, p, x);
    case SubmitPass(p, reports, plan, now, told) => PassAddsNoHost(w, p, reports, plan, now, told, x);
    case SubmitForget(p, plan, told) => ForgetAddsNoHost(w, p, plan, told, x);
    case SubmitNote(p, next, told) => NoteAddsNoHost(w, p, next, told, x);
  }

  lemma StepKeepsModest(w: World, e: Event, x: World)
    requires Inv(w) && Inv(x) && Grows(w, x) && ModestInv(w) && Step(w, e, x)
    requires e.Spawn? && ActsUnder(e.program).Some? ==> Modest(ActsUnder(e.program).value.capacity)
    ensures ModestInv(x)
  {
    hide Inv, Step, Modest, FleetHistory.Admits, Departs;
    forall id | id in x.book.hosts ensures Modest(x.book.hosts[id].capacity) {
      if id !in w.book.hosts {
        NewHostsAreCreated(w, e, x, id);
      }
    }
    StepLeavesOthers(w, e, x);
    if e.Spawn? {
      SpawnedIs(w, e, x);
    }
  }

  lemma SpawnedIs(w: World, e: Event, x: World)
    requires Step(w, e, x) && e.Spawn?
    ensures Mover(e) == e.p && x.programs == w.programs[e.p := e.program]
  {
    hide Step, Submission, Provision, WorkerStep, MayBegin, LoadStep, CheckStep;
    StepIsOfItsKind(w, e, x);
  }

  /** With capacities below 2^62, whatever the machine does is a run of the fleet: every theorem holds of it. */
  lemma {:induction false} ModestRunsAreExact(ws: seq<World>, es: seq<Event>)
    requires IsRun64(ws, es) && ModestConfigs(es)
    ensures IsRun(ws, es) && ModestInv(ws[|es|])
    decreases |es|
  {
    hide Step, Step64, Inv, ModestInv, Grows, MachinesGrow;
    if |es| == 0 {
      assert ModestInv(INITIAL) by { NothingIsModest(); }
    } else {
      var n := |es| - 1;
      var vs, fs := ws[..n + 1], es[..n];
      assert IsRun64(vs, fs);
      ModestRunsAreExact(vs, fs);
      FleetTheorems.RunKeepsInv(vs, fs, n);
      assert Step64(ws[n], es[n], ws[n + 1]);
      StepIsExact(ws[n], es[n], ws[n + 1]);
      forall i: nat | i < |es| ensures StepAt(ws, es, i) {
        if i < n {
          FleetTheorems.IsStep(vs, fs, i);
        }
      }
      FleetTheorems.RunGrows(ws, es, n);
      assert es[n] in es;
      StepKeepsModest(ws[n], es[n], ws[n + 1]);
    }
  }

  lemma NothingIsModest()
    ensures ModestInv(INITIAL)
  {
  }

  // -- The bound is sharp -------------------------------------------------------------------------

  /** Never overcommitted, for the machine: in every state of every run below 2^62. */
  lemma MachineNeverOvercommits(ws: seq<World>, es: seq<Event>, i: nat)
    requires IsRun64(ws, es) && ModestConfigs(es) && i < |ws|
    ensures WithinCapacity(ws[i].store.registry)
  {
    hide Step, Step64, WithinCapacity, StoreInv, MachineInv;
    ModestRunsAreExact(ws, es);
    FleetTheorems.RunKeepsInv(ws, es, i);
    assert Sound(ws[i].store.registry) by { StoreIsSound(ws[i]); }
  }

  lemma StoreIsSound(w: World)
    requires StoreInv(w)
    ensures Sound(w.store.registry)
  {
  }

  const LARGE := Resources(10, TWO_62, 10)
  const LARGE_GAME := Game("big", "Big", Resources(1, TWO_62, 1))
  const LARGE_CONFIG := Config("r1", "", [LARGE_GAME], LARGE, 16, 128, "lt-1", "1", 0, 0, 0)

  lemma LargeIsValid()
    ensures ValidConfig(LARGE_CONFIG) && LARGE_GAME in LARGE_CONFIG.games && !Expired(LARGE_CONFIG, 0)
  {
    assert LARGE_CONFIG.games[0] == LARGE_GAME;
    assert "Big"[0] == 'B' && 'B' in "Big" && !Blank("Big");
    assert Schedulable(LARGE_GAME, LARGE);
  }

  const FIRST_DRAWN := Drawn("a", "bb", "ccc")
  const NEXT_DRAWN := Drawn("dddd", "eeeee", "ffffff")

  /** On the full host the machine finds room once more: its sum of memory is negative. */
  lemma MachineFindsRoom(s: Registry)
    requires var h := NewHost(LARGE_CONFIG, FIRST_DRAWN, 0);
      s.hosts == [h] && s.servers == [NewServer("first", LARGE_GAME, "", h.id, FIRST_DRAWN, 0)]
    ensures IsChoice64(LARGE_CONFIG, s, LARGE_GAME.resources, map[s.hosts[0].id := Up], Some(s.hosts[0]))
  {
    hide TextBefore, Int64;
    var h := s.hosts[0];
    assert Int64(2) == 2 && Int64(1) == 1 && Int64(TWO_62) == TWO_62 && Int64(2 * TWO_62) == -TWO_63 by { Sums(); }
    assert s.servers[..0] == [];
    assert Used64(s.servers, h.id) == Resources(1, TWO_62, 1);
    assert Fits64(LARGE, Used64(s.servers, h.id), LARGE_GAME.resources);
    TextBeforeIsStrict(h.id);
  }

  lemma Sums()
    ensures Int64(2) == 2 && Int64(1) == 1 && Int64(TWO_62) == TWO_62 && Int64(2 * TWO_62) == -TWO_63
  {
  }

  function Creates(p: nat, id: string, seen: map<string, Lifecycle>, chosen: Option<Host>, drawn: Drawn): seq<Event> {
    [Spawn(p, CreateBegin(LARGE_CONFIG, id, LARGE_GAME, "", ATTEMPTS)), Load(p), CheckTombstone(p),
     SubmitCreate(p, seen, chosen, drawn, 0, Outcome.Committed)]
  }

  /** A create of the large game, as the machine runs it, when its sums choose the given host. */
  lemma LargeCreate(w: World, p: nat, id: string, seen: map<string, Lifecycle>, chosen: Option<Host>, drawn: Drawn)
    returns (ws: seq<World>)
    requires p !in w.programs && Fresh(w, drawn) && id !in w.store.tombstones
    requires IsChoice64(LARGE_CONFIG, w.store.registry, LARGE_GAME.resources, seen, chosen)
    requires var plan := PlanCreate(LARGE_CONFIG, id, LARGE_GAME, "", w.store.registry, false, chosen, drawn, 0);
      plan.Propose? && Storable(plan.next, w.store.registry.revision)
    ensures |ws| == 5 && ws[0] == w
    ensures forall i | 0 <= i < 4 :: Step64(ws[i], Creates(p, id, seen, chosen, drawn)[i], ws[i + 1])
    ensures var next := PlanCreate(LARGE_CONFIG, id, LARGE_GAME, "", w.store.registry, false, chosen, drawn, 0).next;
      && ws[4].store == Saved(w.store, next) && ws[4].programs == w.programs[p := Done]
      && ws[4].minted == w.minted + {drawn.host, drawn.launch, drawn.request}
  {
    hide Step, CreateTries, PlanCreate, IsChoice64, ValidConfig, Fresh, Storable;
    LargeIsValid();
    ws := CreatePath(w, p, LARGE_CONFIG, id, LARGE_GAME, "", chosen, drawn, 0);
  }

  const FIRST_HOST := NewHost(LARGE_CONFIG, FIRST_DRAWN, 0)

  function LargeServer(id: string, drawn: Drawn): Server {
    NewServer(id, LARGE_GAME, "", FIRST_HOST.id, drawn, 0)
  }

  lemma FirstLarge() returns (ws: seq<World>)
    ensures |ws| == 5 && ws[0] == INITIAL
    ensures forall i | 0 <= i < 4 :: Step64(ws[i], Creates(0, "first", map[], None, FIRST_DRAWN)[i], ws[i + 1])
    ensures ws[4].store == Store(Registry(1, [FIRST_HOST], [LargeServer("first", FIRST_DRAWN)], false), {}, map[])
    ensures ws[4].programs == map[0 := Done] && ws[4].minted == {"a", "bb", "ccc"}
  {
    hide Step64, IsChoice64;
    NoHostsNoChoice();
    ws := LargeCreate(INITIAL, 0, "first", map[], None, FIRST_DRAWN);
  }

  lemma SecondLarge(w: World) returns (ws: seq<World>)
    requires w.store == Store(Registry(1, [FIRST_HOST], [LargeServer("first", FIRST_DRAWN)], false), {}, map[])
    requires w.programs == map[0 := Done] && w.minted == {"a", "bb", "ccc"}
    ensures |ws| == 5 && ws[0] == w
    ensures var events := Creates(1, "second", map[FIRST_HOST.id := Up], Some(FIRST_HOST), NEXT_DRAWN);
      forall i | 0 <= i < 4 :: Step64(ws[i], events[i], ws[i + 1])
    ensures ws[4].store.registry
         == Registry(2, [FIRST_HOST], [LargeServer("first", FIRST_DRAWN), LargeServer("second", NEXT_DRAWN)], false)
  {
    hide Step64, IsChoice64;
    MachineFindsRoom(w.store.registry);
    ws := LargeCreate(w, 1, "second", map[FIRST_HOST.id := Up], Some(FIRST_HOST), NEXT_DRAWN);
  }

  /** A valid configuration whose second create overcommits its only host. */
  lemma MachineOvercommits() returns (ws: seq<World>, es: seq<Event>)
    ensures IsRun64(ws, es) && |ws| == 9
    ensures forall e | e in es && e.Spawn? && ActsUnder(e.program).Some? :: ActsUnder(e.program).value.capacity == LARGE
    ensures !WithinCapacity(ws[8].store.registry)
  {
    hide Step64, WithinCapacity;
    var us := FirstLarge();
    var vs := SecondLarge(us[4]);
    var fs := Creates(0, "first", map[], None, FIRST_DRAWN);
    var gs := Creates(1, "second", map[FIRST_HOST.id := Up], Some(FIRST_HOST), NEXT_DRAWN);
    ws, es := us + vs[1..], fs + gs;
    forall i | 0 <= i < 8 ensures Step64(ws[i], es[i], ws[i + 1]) {
      if i < 4 {
        assert ws[i] == us[i] && ws[i + 1] == us[i + 1] && es[i] == fs[i];
      } else {
        assert ws[i] == vs[i - 4] && ws[i + 1] == vs[i - 3] && es[i] == gs[i - 4];
      }
    }
    TwiceLarge(ws[8].store.registry, FIRST_HOST, LargeServer("first", FIRST_DRAWN), LargeServer("second", NEXT_DRAWN));
  }

  lemma NoHostsNoChoice()
    ensures IsChoice64(LARGE_CONFIG, EMPTY, LARGE_GAME.resources, map[], None)
  {
  }

  lemma TwiceLarge(s: Registry, h: Host, u: Server, v: Server)
    requires s.hosts == [h] && s.servers == [u, v] && u.host == v.host == h.id && h.capacity == LARGE
    requires u.resources == v.resources == LARGE_GAME.resources
    ensures !WithinCapacity(s)
  {
    assert s.servers[..1] == [u] && [u][..0] == [];
    assert Used([u], h.id).memory == TWO_62;
    assert Used(s.servers, h.id).memory == 2 * TWO_62;
    assert h in s.hosts;
  }

  /** Every configuration of a run stays within a bound that a deployer can check beforehand. */
  predicate ConfigsAtMost(es: seq<Event>, bound: int) {
    forall e | e in es && e.Spawn? && ActsUnder(e.program).Some? ::
      AtMost(ActsUnder(e.program).value.capacity, Resources(bound, bound, bound))
  }

  /**
   * A bound on configured capacities keeps every run of the machine within capacity if and only if it is below 2^62.
   */
  lemma BoundIsSharp(bound: int)
    ensures bound < TWO_62
       <==> forall ws: seq<World>, es: seq<Event>, i: int |
              IsRun64(ws, es) && ConfigsAtMost(es, bound) && 0 <= i < |ws| :: WithinCapacity(ws[i].store.registry)
  {
    hide IsRun64, WithinCapacity;
    if bound < TWO_62 {
      forall ws: seq<World>, es: seq<Event>, i: int | IsRun64(ws, es) && ConfigsAtMost(es, bound) && 0 <= i < |ws|
        ensures WithinCapacity(ws[i].store.registry)
      {
        MachineNeverOvercommits(ws, es, i);
      }
    } else {
      var ws, es := MachineOvercommits();
      assert ConfigsAtMost(es, bound);
      assert !WithinCapacity(ws[8].store.registry);
    }
  }
}
