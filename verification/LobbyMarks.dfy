/** What the lobby shows: every completion and failure goes back to what was seen of that game for that request. */
module LobbyMarks {
  import opened FleetState
  import opened Controller
  import opened ControllerIntent
  import opened FleetIntent
  import opened Lobby

  // -- What a sync decides ------------------------------------------------------------------------

  predicate ToStart(action: string) {
    action == "start" || action == ""
  }

  /** The game is as the request wants it; a start needs an observation made since the host booted. */
  predicate Fulfils(i: Instance, action: string, startedAt: int) {
    || (action == "stop" && i.phase == Stopped)
    || (action == "remove" && i.phase == Deleted)
    || (ToStart(action) && i.phase == Running && i.desired == Running && i.players.Some? && i.updatedAt >= startedAt)
  }

  /** The game failed since the host booted, or somebody else stopped the game that was to start. */
  predicate Refuses(i: Instance, action: string, startedAt: int) {
    (i.phase == Failed && i.updatedAt >= startedAt) || (ToStart(action) && i.desired != Running)
  }

  function Reason(i: Instance): string {
    if i.error != "" then "Game is unavailable; ask the host administrator"
    else if i.stopReason != "" then i.stopReason
    else "Game stopped before becoming ready"
  }

  function Wanted(action: string): Status {
    if ToStart(action) then Running
    else if action == "stop" then Stopped
    else if action == "remove" then Deleted
    else Unset
  }

  /** The row asks for something that was not answered yet. */
  predicate IsOpen(r: Row, now: int)
    requires RowOk(r)
  {
    r.request != "" && r.completed != r.request && r.expiresAt.value > now
  }

  lemma NothingToDo(local: Local, id: string, r: Row, seen: Option<Instance>, template: Option<Instance>, now: int,
                    setup: Setup)
    requires RowOk(r) && !IsOpen(r, now)
    ensures Served(local, id, r, seen, template, now, setup)
         == Sync(local, if r.request != "" && r.completed != r.request && seen.Some?
                        then Some(Mark(r.request, Completed, "Request expired; try again")) else None)
  {
  }

  /** A request the host acted on is answered by the state of its game, and the controller is left alone. */
  lemma AcceptedIsAnswered(local: Local, id: string, r: Row, i: Instance, template: Option<Instance>, now: int,
                           setup: Setup)
    requires RowOk(r) && IsOpen(r, now) && r.accepted == r.request
    ensures Served(local, id, r, Some(i), template, now, setup)
         == Sync(local, if Fulfils(i, r.action, setup.startedAt) then Some(Mark(r.request, Completed, ""))
                        else if Refuses(i, r.action, setup.startedAt) then Some(Mark(r.request, Completed, Reason(i)))
                        else None)
  {
  }

  /** A new request is recorded by the controller with its intent, unless it is closing or the game was deleted. */
  lemma NewRequestIsHandedOver(local: Local, id: string, r: Row, seen: Instance, template: Option<Instance>, now: int,
                               setup: Setup)
    requires RowOk(r) && IsOpen(r, now) && r.accepted != r.request
    ensures var s := Served(local, id, r, Some(seen), template, now, setup);
      var isNew := TakesIntent(local, id, Wanted(r.action)) && local.store[id].startRequestId != r.request;
      var known := && !local.shuttingDown && Wanted(r.action) != Unset && id in local.store
                   && local.store[id].startRequestId == r.request;
      && s.mark == (if isNew || known then Some(Mark(r.request, Accepted, "")) else None)
      && if isNew then
           && id in s.local.store && Replaces(local, s.local, id, s.local.store[id])
           && IsIntended(local.store[id], s.local.store[id], Wanted(r.action), now)
           && s.local.store[id].startRequestId == r.request
         else s.local == local
  {
    hide AnswerRequest, AfterRequest, Replaces, IsIntended;
    RequestIsExact(local, id, r.request, Wanted(r.action), now);
  }

  /** Without the game a request fails, but a removal succeeds; a start from a preset needs the preset. */
  lemma MissingIsAnswered(local: Local, id: string, r: Row, template: Option<Instance>, now: int, setup: Setup)
    requires RowOk(r) && IsOpen(r, now)
    requires r.template == "" || r.action != "start" || template.None? || template.value.desired == Deleted
    ensures Served(local, id, r, None, template, now, setup)
         == Sync(local, Some(Mark(r.request, Completed,
              if r.template != "" && r.action == "start" then "Game preset is no longer available"
              else if r.action == "remove" then "" else "Saved game no longer exists")))
  {
  }

  /** A start from a preset creates the game with the preset's settings and the row's name, and counts as accepted. */
  lemma PresetIsCreated(local: Local, id: string, r: Row, preset: Instance, now: int, setup: Setup)
    requires RowOk(r) && IsOpen(r, now) && r.template != "" && r.action == "start" && preset.desired != Deleted
    requires id !in local.store
    ensures var s := Served(local, id, r, None, Some(preset), now, setup);
      var allowed := && !local.shuttingDown && preset.game in setup.games && preset.provider in setup.providers
                     && Wellformed(Normalized(CreateOf(id, r, preset)));
      && (!allowed ==> s == Sync(local, None))
      && (allowed ==>
            && s.mark == (if r.accepted == r.request then None else Some(Mark(r.request, Accepted, "")))
            && s.local == local.(store := local.store[id :=
                 Instance(r.request, 1, id, Trimmed(r.name), preset.game, preset.provider, Running, Queued,
                          preset.config, preset.idleMinutes, preset.maxMinutes, now, 0, now, None, "", "")]))
  {
    hide Wellformed, Trimmed;
    var created := AfterCreate(local, setup.games, setup.providers, CreateOf(id, r, preset), r.request, now);
    if id in created.store {
      assert created.store[id := created.store[id]] == created.store;
    }
  }

  // -- What a completion shows --------------------------------------------------------------------

  /** What the host had, and what the worker's clock said, that lets a request be shown as done in this way. */
  predicate Explains(w: World, id: string, r: Row, failure: string, now: int, startedAt: int) {
    if id !in w.local.store then
      || (r.action == "remove" && failure == "")
      || (r.action != "remove" && failure == "Saved game no longer exists")
      || (r.action == "start" && r.template != "" && failure == "Game preset is no longer available")
    else
      || (failure == "Request expired; try again" && r.expiresAt.Some? && r.expiresAt.value <= now)
      || (r.request in w.applied
          && if Fulfils(w.local.store[id], r.action, startedAt) then failure == ""
             else Refuses(w.local.store[id], r.action, startedAt) && failure == Reason(w.local.store[id]))
  }

  /** Such a state came before some sync of the worker, and that sync before state `n`. */
  ghost predicate Justified(id: string, ws: seq<World>, es: seq<Event>, n: nat, r: Row, failure: string) {
    exists m: nat, k: nat ::
      && m <= k < n && k < |es| && m < |ws| && es[k].Act?
      && Explains(ws[m], id, r, failure, es[k].now, es[k].setup.startedAt)
  }

  /** The game appeared after the worker looked: creating it again returns it, if it is the same. */
  lemma FoundWhileCreating(local: Local, id: string, r: Row, preset: Instance, now: int, setup: Setup)
    requires RowOk(r) && IsOpen(r, now) && r.template != "" && r.action == "start" && preset.desired != Deleted
    requires id in local.store
    ensures var s := Served(local, id, r, None, Some(preset), now, setup);
      || s == Sync(local, None)
      || s == Served(local, id, r, Some(local.store[id]), Some(preset), now, setup)
  {
    hide Handed;
  }

  lemma SeenIsExplained(local: Local, id: string, r: Row, i: Instance, template: Option<Instance>, now: int,
                        setup: Setup)
    requires RowOk(r)
    requires var s := Served(local, id, r, Some(i), template, now, setup); s.mark.Some? && s.mark.value.stage.Completed?
    ensures var f := Served(local, id, r, Some(i), template, now, setup).mark.value.failure;
      || (f == "Request expired; try again" && r.expiresAt.Some? && r.expiresAt.value <= now)
      || (IsOpen(r, now) && r.accepted == r.request
          && if Fulfils(i, r.action, setup.startedAt) then f == ""
             else Refuses(i, r.action, setup.startedAt) && f == Reason(i))
  {
    hide Served, Fulfils, Refuses, Reason, IsIntended, Replaces, TakesIntent;
    if !IsOpen(r, now) {
      NothingToDo(local, id, r, Some(i), template, now, setup);
    } else if r.accepted == r.request {
      AcceptedIsAnswered(local, id, r, i, template, now, setup);
    } else {
      NewRequestIsHandedOver(local, id, r, i, template, now, setup);
    }
  }

  /** A completion comes from the instance that was seen, from its absence, or from the one found while creating it. */
  lemma CompletionsAreExplained(local: Local, id: string, r: Row, seen: Option<Instance>, template: Option<Instance>,
                                now: int, setup: Setup)
    requires RowOk(r)
    requires var s := Served(local, id, r, seen, template, now, setup); s.mark.Some? && s.mark.value.stage.Completed?
    ensures var f := Served(local, id, r, seen, template, now, setup).mark.value.failure;
      || (seen.Some? && f == "Request expired; try again" && r.expiresAt.Some? && r.expiresAt.value <= now)
      || (seen.None? && f == (if r.template != "" && r.action == "start" then "Game preset is no longer available"
                              else if r.action == "remove" then "" else "Saved game no longer exists"))
      || (&& r.accepted == r.request && r.request != "" && (seen.Some? || id in local.store)
          && var i := if seen.Some? then seen.value else local.store[id];
             if Fulfils(i, r.action, setup.startedAt) then f == ""
             else Refuses(i, r.action, setup.startedAt) && f == Reason(i))
  {
    hide Served, Fulfils, Refuses, Reason, Wellformed, Trimmed, ToStart;
    if seen.Some? {
      SeenIsExplained(local, id, r, seen.value, template, now, setup);
    } else if !IsOpen(r, now) {
      NothingToDo(local, id, r, seen, template, now, setup);
    } else if r.template == "" || r.action != "start" || template.None? || template.value.desired == Deleted {
      MissingIsAnswered(local, id, r, template, now, setup);
    } else if id !in local.store {
      PresetIsCreated(local, id, r, template.value, now, setup);
    } else {
      FoundWhileCreating(local, id, r, template.value, now, setup);
      if Served(local, id, r, None, template, now, setup) != Sync(local, None) {
        SeenIsExplained(local, id, r, local.store[id], template, now, setup);
      }
    }
  }

  // -- Over every run -----------------------------------------------------------------------------

  /** The worker's view was the host's at a state so far, when all that the row shows as accepted was applied. */
  ghost predicate WasSeen(id: string, ws: seq<World>, n: nat, r: Row, seen: Option<Instance>) {
    exists m: nat :: m <= n && m < |ws| && SawIn(ws[m], id, r, seen)
  }

  predicate SawIn(w: World, id: string, r: Row, seen: Option<Instance>) {
    && seen == (if id in w.local.store then Some(w.local.store[id]) else None)
    && (r.accepted != "" ==> r.accepted in w.applied)
  }

  predicate IsDone(r: Row) {
    r.request != "" && r.completed == r.request
  }

  ghost predicate MarksAreTrue(id: string, ws: seq<World>, es: seq<Event>, n: nat)
    requires n < |ws|
  {
    var w := ws[n];
    && (w.program.Saw? ==> WasSeen(id, ws, n, w.program.row, w.program.seen))
    && (w.program.Marks? && w.program.mark.stage.Completed? ==>
          Justified(id, ws, es, n, w.program.row, w.program.mark.failure))
    && (IsDone(w.row) ==> Justified(id, ws, es, n, w.row, w.row.failure))
  }

  lemma JustifiedStays(id: string, ws: seq<World>, es: seq<Event>, n: nat, r: Row, failure: string, d: Row)
    requires Justified(id, ws, es, n, r, failure)
    requires d.action == r.action && d.request == r.request && d.expiresAt == r.expiresAt && d.template == r.template
    ensures Justified(id, ws, es, n + 1, d, failure)
  {
    hide Fulfils, Refuses, Reason;
    var m: nat, k: nat :| m <= k < n && k < |es| && m < |ws| && es[k].Act?
                          && Explains(ws[m], id, r, failure, es[k].now, es[k].setup.startedAt);
    assert Explains(ws[m], id, d, failure, es[k].now, es[k].setup.startedAt);
  }

  lemma WasSeenStays(id: string, ws: seq<World>, n: nat, r: Row, seen: Option<Instance>)
    requires WasSeen(id, ws, n, r, seen)
    ensures WasSeen(id, ws, n + 1, r, seen)
  {
    var m: nat :| m <= n && m < |ws| && SawIn(ws[m], id, r, seen);
  }

  lemma LookIsTrue(id: string, ws: seq<World>, n: nat)
    requires n + 1 < |ws| && Inv(id, ws[n]) && Step(id, ws[n], Look, ws[n + 1])
    ensures WasSeen(id, ws, n + 1, ws[n].program.row, ws[n + 1].program.seen)
  {
    hide Subsequence, UpTo, RowInv;
    assert SawIn(ws[n], id, ws[n].program.row, ws[n + 1].program.seen);
  }

  /** A sync that completes a request found what explains it. */
  lemma ActIsTrue(id: string, ws: seq<World>, es: seq<Event>, n: nat)
    requires n < |es| && n + 1 < |ws| && Inv(id, ws[n]) && MarksAreTrue(id, ws, es, n)
    requires es[n].Act? && Step(id, ws[n], es[n], ws[n + 1])
    ensures var q := ws[n + 1].program;
      q.Marks? && q.mark.stage.Completed? ==> Justified(id, ws, es, n + 1, q.row, q.mark.failure)
  {
    hide Subsequence, UpTo, Served, RowInv, Fulfils, Refuses, Reason;
    var w, q := ws[n], ws[n + 1].program;
    var r, e := w.program.row, es[n];
    if q.Marks? && q.mark.stage.Completed? {
      CompletionsAreExplained(w.local, id, r, w.program.seen, e.template, e.now, e.setup);
      var m: nat :| m <= n && m < |ws| && SawIn(ws[m], id, r, w.program.seen);
      if w.program.seen.None? && id in w.local.store && r.accepted == r.request && r.request != "" {
        assert Explains(ws[m], id, r, q.mark.failure, e.now, e.setup.startedAt)
            || Explains(ws[n], id, r, q.mark.failure, e.now, e.setup.startedAt);
      } else {
        assert Explains(ws[m], id, r, q.mark.failure, e.now, e.setup.startedAt);
      }
    }
  }

  /** A completion that becomes visible is the worker's mark for the current request, or was visible before. */
  lemma NewCompletion(id: string, w: World, e: Event, x: World)
    requires Inv(id, w) && Step(id, w, e, x) && IsDone(x.row)
    ensures var d, q := x.row, w.program;
      || (IsDone(w.row) && d.request == w.row.request && d.failure == w.row.failure && d.action == w.row.action
          && d.expiresAt == w.row.expiresAt && d.template == w.row.template)
      || (e.Leave? && q.Marks? && q.mark == Mark(d.request, Completed, d.failure) && q.row.request == d.request
          && q.row.action == d.action && q.row.expiresAt == d.expiresAt && q.row.template == d.template)
  {
    hide Subsequence, UpTo, Served;
  }

  lemma StepKeepsMarks(id: string, ws: seq<World>, es: seq<Event>, n: nat)
    requires IsRun(id, ws, es) && n < |es| && Inv(id, ws[n]) && MarksAreTrue(id, ws, es, n)
    ensures MarksAreTrue(id, ws, es, n + 1)
  {
    hide Inv, Served, Justified, WasSeen;
    var w, x := ws[n], ws[n + 1];
    if w.program.Saw? {
      WasSeenStays(id, ws, n, w.program.row, w.program.seen);
    }
    if w.program.Marks? && w.program.mark.stage.Completed? {
      JustifiedStays(id, ws, es, n, w.program.row, w.program.mark.failure, w.program.row);
    }
    if IsDone(x.row) {
      NewCompletion(id, w, es[n], x);
      if IsDone(w.row) && x.row.request == w.row.request && x.row.failure == w.row.failure
         && x.row.action == w.row.action && x.row.expiresAt == w.row.expiresAt && x.row.template == w.row.template {
        JustifiedStays(id, ws, es, n, w.row, w.row.failure, x.row);
      } else {
        JustifiedStays(id, ws, es, n, w.program.row, w.program.mark.failure, x.row);
      }
    }
    if es[n].Look? {
      LookIsTrue(id, ws, n);
    } else if es[n].Act? {
      ActIsTrue(id, ws, es, n);
    }
  }

  lemma {:induction false} RunKeepsMarks(id: string, ws: seq<World>, es: seq<Event>, n: nat)
    requires IsRun(id, ws, es) && n < |ws|
    ensures MarksAreTrue(id, ws, es, n)
  {
    hide Step, Inv;
    if n > 0 {
      hide MarksAreTrue;
      RunKeepsMarks(id, ws, es, n - 1);
      RunKeepsInv(id, ws, es, n - 1);
      StepKeepsMarks(id, ws, es, n - 1);
    }
  }

  /**
   * Over every run, whatever the row shows as completed, and the reason it shows, goes back to the game the worker
   * looked at when the host had acted on that very request, to the game's absence, or to the worker's clock.
   */
  lemma ShownCompletionsAreTrue(id: string, ws: seq<World>, es: seq<Event>, n: nat)
    requires IsRun(id, ws, es) && n < |ws| && ws[n].row.request != "" && ws[n].row.completed == ws[n].row.request
    ensures exists m: nat, k: nat ::
              && m <= k < n && es[k].Act?
              && Explains(ws[m], id, ws[n].row, ws[n].row.failure, es[k].now, es[k].setup.startedAt)
  {
    hide Step, Explains;
    RunKeepsMarks(id, ws, es, n);
    var m: nat, k: nat :| m <= k < n && k < |es| && m < |ws| && es[k].Act?
                          && Explains(ws[m], id, ws[n].row, ws[n].row.failure, es[k].now, es[k].setup.startedAt);
  }

  /** A start that is shown as done was ready on its host, with its players counted since the host booted. */
  lemma CompletedStartsWereReady(id: string, ws: seq<World>, es: seq<Event>, n: nat)
    requires IsRun(id, ws, es) && n < |ws| && ws[n].row.action in {"", "start"}
    requires ws[n].row.request != "" && ws[n].row.completed == ws[n].row.request && ws[n].row.failure == ""
    ensures exists m: nat, k: nat ::
              && m <= k < n && es[k].Act?
              && id in ws[m].local.store && ws[n].row.request in ws[m].applied
              && var i := ws[m].local.store[id];
                 i.phase == Running && i.desired == Running && i.players.Some? && i.updatedAt >= es[k].setup.startedAt
  {
    hide Step;
    ShownCompletionsAreTrue(id, ws, es, n);
    var m: nat, k: nat :| m <= k < n && es[k].Act?
                          && Explains(ws[m], id, ws[n].row, "", es[k].now, es[k].setup.startedAt);
    var i := ws[m].local.store[id];
    assert i.phase == Running && i.desired == Running && i.players.Some? && i.updatedAt >= es[k].setup.startedAt;
  }
}
