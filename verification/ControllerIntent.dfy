/** What user intent does to a saved instance, field by field, and when the controller takes it. */
module ControllerIntent {
  import opened FleetState
  import opened Controller

  /** A new intent, and the retry of a failure, start a new generation. */
  predicate StartsAnew(i: Instance, desired: Status) {
    || i.desired != desired
    || (desired == Running && i.phase == Failed)
    || (desired == Deleted && i.phase != Deleted && i.error != "")
  }

  /** A new generation has no error; a changed intent forgets why the game stopped and how long it was empty. */
  predicate IsIntended(i: Instance, j: Instance, desired: Status, now: int) {
    && j.desired == desired
    && j.generation == i.generation + (if StartsAnew(i, desired) then 1 else 0)
    && j.error == (if StartsAnew(i, desired) then "" else i.error)
    && j.stopReason == (if i.desired != desired then "" else i.stopReason)
    && j.emptySince == (if i.desired != desired then 0 else i.emptySince)
    && j.phase == (if StartsAnew(i, desired) && desired == Running then Queued else i.phase)
    && j.startedAt == (if StartsAnew(i, desired) && desired == Running then now else i.startedAt)
    && j.id == i.id && j.name == i.name && j.game == i.game && j.provider == i.provider && j.config == i.config
    && j.idleMinutes == i.idleMinutes && j.maxMinutes == i.maxMinutes && j.updatedAt == i.updatedAt
    && j.players == i.players
  }

  /** Only the one instance changes, to the given one. */
  predicate Replaces(c: Local, d: Local, id: string, j: Instance) {
    && d.shuttingDown == c.shuttingDown && d.store.Keys == c.store.Keys + {id} && id in d.store && d.store[id] == j
    && forall k | k in c.store && k != id :: k in d.store && d.store[k] == c.store[k]
  }

  /** Intent is taken unless the controller is closing, or the instance is missing or was deleted. */
  predicate TakesIntent(c: Local, id: string, desired: Status) {
    && !c.shuttingDown && id in c.store && desired in {Running, Stopped, Deleted}
    && (c.store[id].desired == Deleted ==> desired == Deleted)
  }

  lemma IntentIsExact(i: Instance, desired: Status, now: int)
    ensures WithDesired(i, desired, now).Some? <==> (i.desired == Deleted ==> desired == Deleted)
    ensures WithDesired(i, desired, now).Some? ==>
      && IsIntended(i, WithDesired(i, desired, now).value, desired, now)
      && WithDesired(i, desired, now).value.startRequestId == i.startRequestId
  {
  }

  lemma SetDesiredIsExact(c: Local, id: string, desired: Status, now: int)
    ensures AnswerSetDesired(c, id, desired, now) == Ok <==> TakesIntent(c, id, desired)
    ensures AnswerSetDesired(c, id, desired, now) == ClosedForShutdown <==> c.shuttingDown
    ensures var d := AfterSetDesired(c, id, desired, now);
      if TakesIntent(c, id, desired) then
        id in d.store && Replaces(c, d, id, d.store[id]) && IsIntended(c.store[id], d.store[id], desired, now)
        && d.store[id].startRequestId == c.store[id].startRequestId
      else d == c
  {
    hide WithDesired, IsIntended;
    if id in c.store {
      IntentIsExact(c.store[id], desired, now);
    }
  }

  /** A request the instance recorded is done; a new one is recorded together with its intent. */
  lemma RequestIsExact(c: Local, id: string, request: string, desired: Status, now: int)
    requires request != ""
    ensures AnswerRequest(c, id, request, desired, now) == Ok <==>
      || TakesIntent(c, id, desired)
      || (!c.shuttingDown && desired in {Running, Stopped, Deleted} && id in c.store
          && c.store[id].startRequestId == request)
    ensures AnswerRequest(c, id, request, desired, now) == ClosedForShutdown <==>
            c.shuttingDown && desired in {Running, Stopped, Deleted}
    ensures var d := AfterRequest(c, id, request, desired, now);
      if TakesIntent(c, id, desired) && c.store[id].startRequestId != request then
        id in d.store && Replaces(c, d, id, d.store[id]) && IsIntended(c.store[id], d.store[id], desired, now)
        && d.store[id].startRequestId == request
      else d == c
  {
    hide WithDesired, IsIntended;
    if id in c.store {
      IntentIsExact(c.store[id], desired, now);
      IntendedIgnoresRequest(c.store[id], desired, now, request);
      assert c.store[id := c.store[id]] == c.store;
    }
  }

  lemma IntendedIgnoresRequest(i: Instance, desired: Status, now: int, request: string)
    requires WithDesired(i, desired, now).Some? ==> IsIntended(i, WithDesired(i, desired, now).value, desired, now)
    ensures var j := WithDesired(i, desired, now);
      j.Some? ==> IsIntended(i, j.value.(startRequestId := request), desired, now)
  {
    hide WithDesired;
  }
}
