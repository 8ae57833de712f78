/** Single-flight starts: everyone who waits for a game shares one attempt, and attempts are spaced in time. */
module SharedStarts {
  import opened FleetState

  const SECOND := 1000
  const FAILURE_COOLDOWN := 60 * SECOND
  const READY_TTL := 5 * SECOND

  datatype Outcome = Ready(address: string) | Refused(error: string)

  /** The outcome is set once, when the attempt's channel is closed. */
  datatype Attempt = Attempt(instance: string, began: int, outcome: Option<Outcome>, expires: int)

  /** `games` names each game's current attempt, `waiting` the attempt each waiting caller holds on to. */
  datatype State = State(attempts: seq<Attempt>, games: map<string, nat>, waiting: map<nat, nat>)

  const IDLE := State([], map[], map[])

  function Lifetime(o: Outcome): int {
    if o.Ready? then READY_TTL else FAILURE_COOLDOWN
  }

  function Settled(a: Attempt, outcome: Outcome, now: int): Attempt {
    a.(outcome := Some(outcome), expires := now + Lifetime(outcome))
  }

  ghost predicate GamesPoint(s: State) {
    forall i | i in s.games :: s.games[i] < |s.attempts| && s.attempts[s.games[i]].instance == i
  }

  ghost predicate CurrentIsLatest(s: State) {
    forall a | 0 <= a < |s.attempts| :: s.attempts[a].instance in s.games && a <= s.games[s.attempts[a].instance]
  }

  /** Of two attempts for one game the earlier had expired strictly before the later began. */
  ghost predicate Spaced(s: State) {
    forall a, b | 0 <= a < b < |s.attempts| && s.attempts[a].instance == s.attempts[b].instance ::
      s.attempts[a].outcome.Some? && s.attempts[a].expires < s.attempts[b].began
  }

  ghost predicate TimesRun(s: State) {
    forall a | 0 <= a < |s.attempts| && s.attempts[a].outcome.Some? :: s.attempts[a].began < s.attempts[a].expires
  }

  ghost predicate CallersHold(s: State) {
    forall c | c in s.waiting :: s.waiting[c] < |s.attempts|
  }

  ghost predicate Inv(s: State) {
    GamesPoint(s) && CurrentIsLatest(s) && Spaced(s) && TimesRun(s) && CallersHold(s)
  }

  /** Whether a caller finds no attempt to share: none was made, or the last one is over and out of date. */
  predicate NeedsAttempt(s: State, instance: string, now: int)
    requires instance in s.games ==> s.games[instance] < |s.attempts|
  {
    instance !in s.games
    || (s.attempts[s.games[instance]].outcome.Some? && now > s.attempts[s.games[instance]].expires)
  }

  datatype Event =
    | Resolve(caller: nat, instance: string, now: int)
    | Finish(attempt: nat, outcome: Outcome, now: int)
    | Answer(caller: nat, outcome: Outcome)
    | GiveUp(caller: nat)

  ghost predicate Step(s: State, e: Event, t: State) {
    match e
    case Resolve(caller, instance, now) =>
      && caller !in s.waiting && (instance in s.games ==> s.games[instance] < |s.attempts|)
      && if NeedsAttempt(s, instance, now) then
           t == State(s.attempts + [Attempt(instance, now, None, 0)], s.games[instance := |s.attempts|],
                      s.waiting[caller := |s.attempts|])
         else t == s.(waiting := s.waiting[caller := s.games[instance]])
    case Finish(attempt, outcome, now) =>
      && attempt < |s.attempts| && s.attempts[attempt].outcome.None? && s.attempts[attempt].began <= now
      && t == s.(attempts := s.attempts[attempt := Settled(s.attempts[attempt], outcome, now)])
    case Answer(caller, outcome) =>
      && caller in s.waiting && s.waiting[caller] < |s.attempts|
      && s.attempts[s.waiting[caller]].outcome == Some(outcome)
      && t == s.(waiting := s.waiting - {caller})
    case GiveUp(caller) => caller in s.waiting && t == s.(waiting := s.waiting - {caller})
  }

  /** Attempts are never forgotten and a published outcome never changes; callers keep their attempt. */
  predicate Grows(s: State, t: State) {
    && |s.attempts| <= |t.attempts|
    && (forall a | 0 <= a < |s.attempts| ::
          t.attempts[a].instance == s.attempts[a].instance && t.attempts[a].began == s.attempts[a].began
          && (s.attempts[a].outcome.Some? ==> t.attempts[a] == s.attempts[a]))
  }

  lemma BeginIsSpaced(s: State, instance: string, now: int, t: State)
    requires CurrentIsLatest(s) && Spaced(s) && TimesRun(s)
    requires instance in s.games ==>
        s.games[instance] < |s.attempts| && s.attempts[s.games[instance]].instance == instance
    requires NeedsAttempt(s, instance, now) && t.attempts == s.attempts + [Attempt(instance, now, None, 0)]
    ensures Spaced(t)
  {
    forall a, b | 0 <= a < b < |t.attempts| && t.attempts[a].instance == t.attempts[b].instance
      ensures t.attempts[a].outcome.Some? && t.attempts[a].expires < t.attempts[b].began
    {
      if b == |s.attempts| {
        assert s.attempts[a].instance == instance;
        var last := s.games[instance];
        assert a <= last;
        assert s.attempts[last].expires < now;
      } else {
        assert t.attempts[a] == s.attempts[a] && t.attempts[b] == s.attempts[b];
      }
    }
  }

  lemma BeginIsCurrent(s: State, instance: string, now: int, t: State)
    requires GamesPoint(s) && CurrentIsLatest(s)
    requires t.attempts == s.attempts + [Attempt(instance, now, None, 0)]
        && t.games == s.games[instance := |s.attempts|]
    ensures GamesPoint(t) && CurrentIsLatest(t)
  {
  }

  lemma BeginKeepsInv(s: State, instance: string, now: int, caller: nat, t: State)
    requires Inv(s) && NeedsAttempt(s, instance, now) && caller !in s.waiting
    requires t == State(s.attempts + [Attempt(instance, now, None, 0)], s.games[instance := |s.attempts|],
                        s.waiting[caller := |s.attempts|])
    ensures Inv(t)
  {
    hide CurrentIsLatest, Spaced;
    BeginIsCurrent(s, instance, now, t);
    BeginIsSpaced(s, instance, now, t);
  }

  lemma FinishKeepsInv(s: State, attempt: nat, outcome: Outcome, now: int, t: State)
    requires Inv(s) && Step(s, Finish(attempt, outcome, now), t)
    ensures Inv(t)
  {
    assert |t.attempts| == |s.attempts|;
    assert forall a | 0 <= a < |t.attempts| :: t.attempts[a].instance == s.attempts[a].instance;
    forall a, b | 0 <= a < b < |t.attempts| && t.attempts[a].instance == t.attempts[b].instance
      ensures t.attempts[a].outcome.Some? && t.attempts[a].expires < t.attempts[b].began
    {
      assert s.attempts[a].outcome.Some?;
    }
  }

  lemma JoinKeepsInv(s: State, caller: nat, attempt: nat, t: State)
    requires Inv(s) && attempt < |s.attempts| && t == s.(waiting := s.waiting[caller := attempt])
    ensures Inv(t)
  {
    hide GamesPoint, CurrentIsLatest, Spaced, TimesRun;
    SameAttempts(s, t);
  }

  lemma LeaveKeepsInv(s: State, caller: nat, t: State)
    requires Inv(s) && t == s.(waiting := s.waiting - {caller})
    ensures Inv(t)
  {
    hide GamesPoint, CurrentIsLatest, Spaced, TimesRun;
    SameAttempts(s, t);
  }

  lemma SameAttempts(s: State, t: State)
    requires t.attempts == s.attempts && t.games == s.games
    ensures GamesPoint(s) ==> GamesPoint(t)
    ensures CurrentIsLatest(s) ==> CurrentIsLatest(t)
    ensures Spaced(s) ==> Spaced(t)
    ensures TimesRun(s) ==> TimesRun(t)
  {
  }

  lemma StepKeepsInv(s: State, e: Event, t: State)
    requires Inv(s) && Step(s, e, t)
    ensures Inv(t) && Grows(s, t)
    ensures forall c | c in s.waiting && c in t.waiting :: t.waiting[c] == s.waiting[c]
  {
    hide Inv;
    match e
    case Resolve(caller, instance, now) =>
      if NeedsAttempt(s, instance, now) {
        BeginKeepsInv(s, instance, now, caller, t);
      } else {
        JoinKeepsInv(s, caller, s.games[instance], t);
      }
    case Finish(attempt, outcome, now) => FinishKeepsInv(s, attempt, outcome, now, t);
    case Answer(caller, _) => LeaveKeepsInv(s, caller, t);
    case GiveUp(caller) => LeaveKeepsInv(s, caller, t);
  }

  class Starts {
    var attempts: seq<Attempt>
    var games: map<string, nat>
    var waiting: map<nat, nat>

    function Value(): State
      reads this
    {
      State(attempts, games, waiting)
    }

    constructor ()
      ensures Value() == IDLE && Inv(Value())
    {
      attempts, games, waiting := [], map[], map[];
    }

    /** Joins the current attempt, or begins one; `began` says that the start callback must be run. */
    method Join(caller: nat, instance: string, now: int) returns (began: bool)
      requires Inv(Value()) && caller !in waiting
      modifies this
      ensures Inv(Value()) && Step(old(Value()), Resolve(caller, instance, now), Value())
      ensures began <==> |attempts| > |old(attempts)|
    {
      ghost var before := Value();
      began := instance !in games || (attempts[games[instance]].outcome != None
                                      && now > attempts[games[instance]].expires);
      if began {
        games := games[instance := |attempts|];
        attempts := attempts + [Attempt(instance, now, None, 0)];
      }
      waiting := waiting[caller := games[instance]];
      StepKeepsInv(before, Resolve(caller, instance, now), Value());
    }

    /** The start callback has returned: its outcome is published with the time it stays good for. */
    method Publish(attempt: nat, outcome: Outcome, now: int)
      requires Inv(Value()) && attempt < |attempts| && attempts[attempt].outcome.None? && attempts[attempt].began <= now
      modifies this
      ensures Inv(Value()) && Step(old(Value()), Finish(attempt, outcome, now), Value())
    {
      ghost var before := Value();
      var expires := now + READY_TTL;
      if outcome.Refused? {
        expires := now + FAILURE_COOLDOWN;
      }
      attempts := attempts[attempt := attempts[attempt].(outcome := Some(outcome), expires := expires)];
      StepKeepsInv(before, Finish(attempt, outcome, now), Value());
    }

    /** A caller whose attempt is over takes its outcome. */
    method Take(caller: nat) returns (outcome: Outcome)
      requires Inv(Value()) && caller in waiting && attempts[waiting[caller]].outcome.Some?
      modifies this
      ensures Inv(Value()) && Step(old(Value()), Answer(caller, outcome), Value())
    {
      outcome := attempts[waiting[caller]].outcome.value;
      waiting := waiting - {caller};
    }
  }

  // -- Whole runs ---------------------------------------------------------------------------------

  ghost predicate IsRun(ss: seq<State>, es: seq<Event>) {
    && |ss| == |es| + 1
    && ss[0] == IDLE
    && forall i | 0 <= i < |es| :: Step(ss[i], es[i], ss[i + 1])
  }

  lemma {:induction false} RunKeepsInv(ss: seq<State>, es: seq<Event>, i: nat)
    requires IsRun(ss, es) && i < |ss|
    ensures Inv(ss[i])
  {
    hide Step;
    if i > 0 {
      RunKeepsInv(ss, es, i - 1);
      StepKeepsInv(ss[i - 1], es[i - 1], ss[i]);
    }
  }

  lemma {:induction false} RunGrows(ss: seq<State>, es: seq<Event>, i: nat, j: nat)
    requires IsRun(ss, es) && i <= j < |ss|
    ensures Grows(ss[i], ss[j])
    decreases j
  {
    hide Step, Inv;
    if i < j {
      RunGrows(ss, es, i, j - 1);
      RunKeepsInv(ss, es, j - 1);
      StepKeepsInv(ss[j - 1], es[j - 1], ss[j]);
    }
  }

  /** At any time at most one start runs for a game, and each began strictly after the last one's lifetime. */
  lemma AttemptsAreSpaced(ss: seq<State>, es: seq<Event>, i: nat, a: nat, b: nat)
    requires IsRun(ss, es) && i < |ss| && a < |ss[i].attempts| && b < |ss[i].attempts|
    requires ss[i].attempts[a].instance == ss[i].attempts[b].instance
    ensures var s := ss[i];
      && s.attempts[a].instance in s.games
      && (s.attempts[a].outcome.None? && s.attempts[b].outcome.None? ==> a == b)
      && (s.attempts[a].outcome.None? ==> s.games[s.attempts[a].instance] == a)
      && (a < b ==> s.attempts[a].outcome.Some? && s.attempts[b].began > s.attempts[a].expires)
  {
    hide Step;
    RunKeepsInv(ss, es, i);
  }

  /**
   * Measured from when an attempt finished: the next start for that game begins strictly more than five seconds after a
   * ready one, strictly more than a minute after a failure.
   */
  lemma NextStartWaits(ss: seq<State>, es: seq<Event>, k: nat, i: nat, a: nat, b: nat, outcome: Outcome, finished: int)
    requires IsRun(ss, es) && k < |es| && k < i < |ss| && es[k] == Finish(a, outcome, finished)
    requires a < b < |ss[i].attempts| && ss[i].attempts[b].instance == ss[i].attempts[a].instance
    ensures ss[i].attempts[b].began > finished + if outcome.Ready? then 5000 else 60000
  {
    hide Inv;
    assert Step(ss[k], es[k], ss[k + 1]);
    RunGrows(ss, es, k + 1, i);
    AttemptsAreSpaced(ss, es, i, a, b);
  }

  /** While one step after another leaves a caller waiting, it waits for the attempt it joined. */
  lemma {:induction false} CallersKeepTheirAttempt(ss: seq<State>, es: seq<Event>, i: nat, j: nat, caller: nat)
    requires IsRun(ss, es) && i <= j < |ss| && forall k | i <= k <= j :: caller in ss[k].waiting
    ensures ss[j].waiting[caller] == ss[i].waiting[caller]
    decreases j
  {
    hide Step, Inv;
    if i < j {
      CallersKeepTheirAttempt(ss, es, i, j - 1, caller);
      RunKeepsInv(ss, es, j - 1);
      StepKeepsInv(ss[j - 1], es[j - 1], ss[j]);
    }
  }

  /** Everyone who waited for the same attempt came back with the same outcome: the one it finished with. */
  lemma WaitersShareTheOutcome(ss: seq<State>, es: seq<Event>, i: nat, j: nat, attempt: nat)
    requires IsRun(ss, es) && i <= j < |es| && es[i].Answer? && es[j].Answer?
    requires es[i].caller in ss[i].waiting && ss[i].waiting[es[i].caller] == attempt
    requires es[j].caller in ss[j].waiting && ss[j].waiting[es[j].caller] == attempt
    ensures es[i].outcome == es[j].outcome
  {
    assert Step(ss[i], es[i], ss[i + 1]) && Step(ss[j], es[j], ss[j + 1]);
    RunGrows(ss, es, i, j);
  }
}
