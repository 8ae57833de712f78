/** Which host a new server gets, and what a create request is answered, in terms of the saved records. */
module FleetChoice {
  import opened FleetState
  import opened FleetPlacement
  import opened FleetStore
  import opened FleetWorld
  import opened FleetHistory
  import opened FleetSafety
  import opened FleetTheorems

  // -- The order of IDs ---------------------------------------------------------------------------

  /** IDs are ordered by their first difference, and a proper beginning comes first. */
  lemma {:induction false} FirstDifferenceDecides(a: string, b: string)
    ensures TextBefore(a, b) <==>
            exists k :: 0 <= k <= |a| && k < |b| && a[..k] == b[..k] && (k == |a| || a[k] < b[k])
  {
    if a != [] && b != [] && a[0] == b[0] {
      FirstDifferenceDecides(a[1..], b[1..]);
      if k :| 0 <= k <= |a[1..]| && k < |b[1..]| && a[1..][..k] == b[1..][..k]
              && (k == |a[1..]| || a[1..][k] < b[1..][k]) {
        assert a[..k + 1] == [a[0]] + a[1..][..k] && b[..k + 1] == [b[0]] + b[1..][..k];
      }
      if k :| 0 <= k <= |a| && k < |b| && a[..k] == b[..k] && (k == |a| || a[k] < b[k]) {
        assert k > 0;
        assert a[1..][..k - 1] == a[..k][1..] && b[1..][..k - 1] == b[..k][1..];
      }
    } else if b != [] && (a == [] || a[0] < b[0]) {
      assert a[..0] == b[..0];
    } else {
      forall k | 0 < k <= |a| && k < |b| && a[..k] == b[..k] ensures a[0] == b[0] {
        assert a[..k][0] == b[..k][0];
      }
    }
  }

  // -- The choice ---------------------------------------------------------------------------------

  /** The registry lets the host take the server: not retiring, the same release or workload, and room for it. */
  predicate IsOpen(c: Config, s: Registry, required: Resources, h: Host) {
    && h in s.hosts && !h.retiring
    && (h.release == c.release || (h.workload != "" && h.workload == c.workload))
    && var used := Used(s.servers, h.id);
       && used.cpu + required.cpu <= h.capacity.cpu
       && used.memory + required.memory <= h.capacity.memory
       && used.disk + required.disk <= h.capacity.disk
  }

  /** An open host that was seen in one of the given states. */
  ghost predicate OpenIn(c: Config, s: Registry, required: Resources, seen: map<string, Lifecycle>,
                         states: set<Lifecycle>, h: Host)
  {
    IsOpen(c, s, required, h) && h.id in seen && seen[h.id] in states
  }

  const AWAKE: set<Lifecycle> := {Up}
  const COMING: set<Lifecycle> := {Pending, NoMachine}
  const ASLEEP: set<Lifecycle> := {StoppedMachine, StoppingMachine}

  /**
   * An open host of a class, fullest first: none of the class would be left with less memory, and of those left with as
   * much none has an earlier ID.
   */
  ghost predicate FullestIn(c: Config, s: Registry, required: Resources, seen: map<string, Lifecycle>,
                            states: set<Lifecycle>, g: Host)
  {
    && OpenIn(c, s, required, seen, states, g)
    && forall h | OpenIn(c, s, required, seen, states, h) ::
         var left := h.capacity.memory - Used(s.servers, h.id).memory;
         var most := g.capacity.memory - Used(s.servers, g.id).memory;
         most < left || (most == left && !TextBefore(h.id, g.id))
  }

  /** A running host wins over one that is coming up or not yet launched, and that over a sleeping one. */
  ghost predicate IsBest(c: Config, s: Registry, required: Resources, seen: map<string, Lifecycle>, g: Host) {
    if exists h :: OpenIn(c, s, required, seen, AWAKE, h) then FullestIn(c, s, required, seen, AWAKE, g)
    else if exists h :: OpenIn(c, s, required, seen, COMING, h) then FullestIn(c, s, required, seen, COMING, g)
    else FullestIn(c, s, required, seen, ASLEEP, g)
  }

  lemma ClassesCoverAll(m: Lifecycle)
    requires m !in {ShuttingDown, Terminated}
    ensures m in AWAKE + COMING + ASLEEP
  {
    match m {
      case Up =>
      case Pending =>
      case NoMachine =>
      case StoppingMachine =>
      case StoppedMachine =>
    }
  }

  lemma EligibleIsOpen(c: Config, s: Registry, required: Resources, seen: map<string, Lifecycle>, h: Host)
    ensures Eligible(c, s, required, seen, h) <==> OpenIn(c, s, required, seen, AWAKE + COMING + ASLEEP, h)
  {
  }

  lemma ClassDecides(c: Config, s: Registry, required: Resources, seen: map<string, Lifecycle>, g: Host, h: Host)
    requires Eligible(c, s, required, seen, g) && Eligible(c, s, required, seen, h)
    requires (seen[g.id] in AWAKE && seen[h.id] !in AWAKE) || (seen[g.id] in COMING && seen[h.id] in ASLEEP)
    ensures Before(CandidateOf(s, required, seen, g), CandidateOf(s, required, seen, h))
  {
  }

  lemma MemoryDecides(c: Config, s: Registry, required: Resources, seen: map<string, Lifecycle>, g: Host, h: Host)
    requires Eligible(c, s, required, seen, g) && Eligible(c, s, required, seen, h)
    requires (seen[g.id] in AWAKE && seen[h.id] in AWAKE) || (seen[g.id] in COMING && seen[h.id] in COMING)
             || (seen[g.id] in ASLEEP && seen[h.id] in ASLEEP)
    ensures var left := h.capacity.memory - Used(s.servers, h.id).memory;
      var most := g.capacity.memory - Used(s.servers, g.id).memory;
      Before(CandidateOf(s, required, seen, h), CandidateOf(s, required, seen, g))
      <==> left < most || (left == most && TextBefore(h.id, g.id))
  {
    hide TextBefore;
  }

  /** The choice is the best open host; nobody is chosen exactly when no open host was seen in a usable state. */
  lemma ChoiceIsBest(c: Config, s: Registry, required: Resources, seen: map<string, Lifecycle>, chosen: Option<Host>)
    requires IsChoice(c, s, required, seen, chosen)
    ensures chosen.None? <==> forall h | IsOpen(c, s, required, h) ::
              h.id !in seen || seen[h.id] in {ShuttingDown, Terminated}
    ensures chosen.Some? ==> IsBest(c, s, required, seen, chosen.value)
  {
    hide IsOpen, Eligible, CandidateOf, Before, TextBefore;
    forall h ensures Eligible(c, s, required, seen, h) <==> OpenIn(c, s, required, seen, AWAKE + COMING + ASLEEP, h) {
      EligibleIsOpen(c, s, required, seen, h);
    }
    if chosen.None? {
      forall h | IsOpen(c, s, required, h) ensures h.id !in seen || seen[h.id] in {ShuttingDown, Terminated} {
        OpenIsSaved(c, s, required, h);
        if h.id in seen && seen[h.id] !in {ShuttingDown, Terminated} {
          ClassesCoverAll(seen[h.id]);
        }
      }
    } else {
      var g := chosen.value;
      forall h | Eligible(c, s, required, seen, h)
        ensures !(seen[h.id] in AWAKE && seen[g.id] !in AWAKE) && !(seen[h.id] in COMING && seen[g.id] in ASLEEP)
      {
        if (seen[h.id] in AWAKE && seen[g.id] !in AWAKE) || (seen[h.id] in COMING && seen[g.id] in ASLEEP) {
          ClassDecides(c, s, required, seen, h, g);
        }
      }
      forall h | OpenIn(c, s, required, seen, AWAKE, h) ensures seen[g.id] in AWAKE {
        assert OpenIn(c, s, required, seen, AWAKE + COMING + ASLEEP, h);
      }
      forall h | OpenIn(c, s, required, seen, COMING, h) ensures seen[g.id] !in ASLEEP {
        assert OpenIn(c, s, required, seen, AWAKE + COMING + ASLEEP, h);
      }
      var states := if seen[g.id] in AWAKE then AWAKE else if seen[g.id] in COMING then COMING else ASLEEP;
      assert OpenIn(c, s, required, seen, AWAKE + COMING + ASLEEP, g) && OpenIn(c, s, required, seen, states, g);
      forall h | OpenIn(c, s, required, seen, states, h)
        ensures var left := h.capacity.memory - Used(s.servers, h.id).memory;
          var most := g.capacity.memory - Used(s.servers, g.id).memory;
          most < left || (most == left && !TextBefore(h.id, g.id))
      {
        assert OpenIn(c, s, required, seen, AWAKE + COMING + ASLEEP, h);
        MemoryDecides(c, s, required, seen, g, h);
      }
      assert FullestIn(c, s, required, seen, states, g);
    }
  }

  lemma OpenIsSaved(c: Config, s: Registry, required: Resources, h: Host)
    requires IsOpen(c, s, required, h)
    ensures h in s.hosts
  {
  }

  // -- What a create is answered ------------------------------------------------------------------

  /** The deployment goes on: it was not torn down, and its end has not come. */
  predicate IsLive(c: Config, s: Registry, now: int) {
    !s.deleting && (c.deadline == 0 || c.deadline < 0 || now < c.deadline)
  }

  /** Who is turned away, who gets what exists, and what a new server's record says. */
  lemma CreatesAreAnswered(c: Config, id: string, game: Game, name: string, s: Registry, tombstoned: bool,
                           chosen: Option<Host>, drawn: Drawn, now: int)
    requires UniqueServers(s.servers)
    ensures var plan := PlanCreate(c, id, game, name, s, tombstoned, chosen, drawn, now);
      && (plan == Refuse(Ended) <==> !IsLive(c, s, now))
      && (plan == Refuse(InUse) <==>
            && IsLive(c, s, now)
            && exists v ::
                 v in s.servers && v.id == id && (v.game != game.id || v.name != name || v.desired == Deleted))
      && (forall v :: plan == Existing(v) <==>
            && IsLive(c, s, now) && v in s.servers && v.id == id && v.game == game.id && v.name == name
            && v.desired != Deleted)
      && (plan == Refuse(Removed) <==> IsLive(c, s, now) && tombstoned && forall v | v in s.servers :: v.id != id)
    ensures var plan := PlanCreate(c, id, game, name, s, tombstoned, chosen, drawn, now);
      plan.Propose? ==>
        && plan.server == Server(id, game.id, name, if chosen.Some? then chosen.value.id else drawn.host, Running,
                                 drawn.request, now, 0, "", game.resources)
        && plan.next.servers == s.servers + [plan.server]
        && plan.next.hosts == s.hosts + if chosen.Some? then [] else
             [Host(drawn.host, c.release, c.workload, c.capacity, "", c.launchTemplate, c.launchVersion, drawn.launch,
                   now, false, "")]
  {
    var holder := Holder(s.servers, id);
    if holder.Some? {
      forall v | v in s.servers && v.id == id ensures v == holder.value {
        ServerById(s.servers, v, holder.value);
      }
    }
  }

  /** A create whose save took effect: the plan it had made from the current document. */
  lemma SavedCreate(w: World, e: Event, x: World)
    requires Inv(w) && Submission(w, e, x) && e.SubmitCreate? && x.store.registry.revision != w.store.registry.revision
    ensures e.p in w.programs && w.programs[e.p].CreateChecked? && w.programs[e.p].snap == w.store.registry
    ensures var q := w.programs[e.p];
      var plan := PlanCreate(q.c, q.id, q.game, q.name, q.snap, false, e.chosen, e.drawn, e.now);
      && IsChoice(q.c, q.snap, q.game.resources, e.seen, e.chosen) && plan.Propose?
      && x.store.registry == plan.next.(revision := w.store.registry.revision + 1)
  {
    hide StoreInv, MachineInv, IsChoice, ValidConfig, SnapOk, PlanCreate, Recorded, Swap, ActionStep, TeardownStep,
         PassStep, ForgetStep, NoteStep;
    var q := w.programs[e.p];
    assert ProgramOk(w, q);
    var plan := PlanCreate(q.c, q.id, q.game, q.name, q.snap, false, e.chosen, e.drawn, e.now);
    if plan.Propose? && Swap(w.store, plan.next, q.snap.revision).Committed? {
      SwapNeedsCurrent(w, q.snap, plan.next);
    }
  }

  lemma SavedIsUnique(w: World)
    requires Inv(w)
    ensures UniqueServers(w.store.registry.servers)
  {
  }

  lemma FullestIsSaved(c: Config, s: Registry, required: Resources, seen: map<string, Lifecycle>, h: Host)
    requires IsBest(c, s, required, seen, h)
    ensures h in s.hosts
  {
  }

  /** The host of a saved create: the best open one, or a new one when no open one can be used. */
  ghost predicate TakesTheBestHost(q: Program, s: Registry, seen: map<string, Lifecycle>, d: Registry, v: Server)
    requires q.CreateChecked?
  {
    if d.hosts == s.hosts then
      exists h :: h in s.hosts && h.id == v.host
                  && IsBest(q.c, s, q.game.resources, seen, h)
    else
      && (exists h :: d.hosts == s.hosts + [h] && h.id == v.host && h.capacity == q.c.capacity && !h.retiring)
      && forall h | IsOpen(q.c, s, q.game.resources, h) ::
           h.id !in seen || seen[h.id] in {ShuttingDown, Terminated}
  }

  lemma SavedCreateIsBest(w: World, e: Event, x: World)
    requires Inv(w) && Submission(w, e, x) && e.SubmitCreate? && x.store.registry.revision != w.store.registry.revision
    requires e.p in w.programs && w.programs[e.p].CreateChecked?
    ensures var q := w.programs[e.p]; var s := w.store.registry; var d := x.store.registry;
      && |d.servers| == |s.servers| + 1 && d.servers[..|s.servers|] == s.servers
      && var v := d.servers[|s.servers|];
         && v.id == q.id && v.name == q.name && v.game == q.game.id && v.resources == q.game.resources
         && v.desired == Running && v.readyAt == 0 && v.error == "" && v.requestedAt == e.now
         && TakesTheBestHost(q, s, e.seen, d, v)
  {
    hide Submission, Inv, PlanCreate, IsChoice, IsBest, IsOpen;
    SavedCreate(w, e, x);
    var q, s := w.programs[e.p], w.store.registry;
    SavedIsUnique(w);
    CreatesAreAnswered(q.c, q.id, q.game, q.name, s, false, e.chosen, e.drawn, e.now);
    ChoiceIsBest(q.c, s, q.game.resources, e.seen, e.chosen);
    var plan := PlanCreate(q.c, q.id, q.game, q.name, q.snap, false, e.chosen, e.drawn, e.now);
    if e.chosen.Some? {
      FullestIsSaved(q.c, s, q.game.resources, e.seen, e.chosen.value);
      assert plan.next.hosts == s.hosts;
    } else {
      assert x.store.registry.hosts != s.hosts;
    }
  }

  /**
   * Over every run: a create that is saved puts its server on the best open host of the very document it replaces, as
   * the machines were seen, and draws a new host exactly when no open one can be used.
   */
  lemma CreatesTakeTheBestHost(ws: seq<World>, es: seq<Event>, i: nat)
    requires IsRun(ws, es) && i < |es| && es[i].SubmitCreate?
    requires ws[i + 1].store.registry.revision != ws[i].store.registry.revision
    ensures es[i].p in ws[i].programs && ws[i].programs[es[i].p].CreateChecked?
    ensures var q := ws[i].programs[es[i].p]; var s := ws[i].store.registry; var d := ws[i + 1].store.registry;
      && |d.servers| == |s.servers| + 1 && d.servers[..|s.servers|] == s.servers
      && var v := d.servers[|s.servers|];
         && v.id == q.id && v.name == q.name && v.game == q.game.id && v.resources == q.game.resources
         && v.desired == Running && v.readyAt == 0 && v.error == "" && v.requestedAt == es[i].now
         && TakesTheBestHost(q, s, es[i].seen, d, v)
  {
    hide Step, Inv, Submission, IsBest, IsOpen;
    RunKeepsInv(ws, es, i);
    IsStep(ws, es, i);
    StepIsOfItsKind(ws[i], es[i], ws[i + 1]);
    SavedCreate(ws[i], es[i], ws[i + 1]);
    SavedCreateIsBest(ws[i], es[i], ws[i + 1]);
  }
}
