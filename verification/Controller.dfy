/** The local controller of one host: saved instances, user intent, and the admission gate. */
module Controller {
  import opened FleetState

  /** `emptySince` is zero while the game has players or has not been observed empty. */
  datatype Instance = Instance(startRequestId: string, generation: int, id: string, name: string, game: string,
                               provider: string, desired: Status, phase: Status, config: string, idleMinutes: int,
                               maxMinutes: int, startedAt: int, emptySince: int, updatedAt: int,
                               players: Option<int>, error: string, stopReason: string)

  /** `shuttingDown` lives in memory and is false again after a restart; the store is on disk. */
  datatype Local = Local(shuttingDown: bool, store: map<string, Instance>)

  datatype Answer = Ok | ClosedForShutdown | NotFound | AlreadyDeleted | DifferentSettings | Invalid

  datatype CreateRequest = CreateRequest(id: string, name: string, game: string, provider: string, config: string,
                                         idleMinutes: int, maxMinutes: int)

  // -- Intent -------------------------------------------------------------------------------------

  predicate IsIntent(desired: Status) {
    desired in {Running, Stopped, Deleted}
  }

  /** A new intent starts a new generation; repeating the current one does not, except to retry a failure. */
  function WithDesired(i: Instance, desired: Status, now: int): Option<Instance> {
    if i.desired == Deleted then
      if desired != Deleted then None
      else if i.phase != Deleted && i.error != "" then Some(i.(generation := i.generation + 1, error := ""))
      else Some(i)
    else if i.desired == desired then
      if desired == Running && i.phase == Failed then
        Some(i.(generation := i.generation + 1, error := "", phase := Queued, startedAt := now))
      else Some(i)
    else
      var changed := i.(generation := i.generation + 1, desired := desired, error := "", stopReason := "",
                        emptySince := 0);
      Some(if desired == Running then changed.(startedAt := now, phase := Queued) else changed)
  }

  function WithRequest(i: Instance, requestId: string, desired: Status, now: int): Option<Instance> {
    if i.startRequestId == requestId then Some(i)
    else
      var changed := WithDesired(i, desired, now);
      if changed.None? then None else Some(changed.value.(startRequestId := requestId))
  }

  function AnswerSetDesired(c: Local, id: string, desired: Status, now: int): Answer {
    if c.shuttingDown then ClosedForShutdown
    else if !IsIntent(desired) then Invalid
    else if id !in c.store then NotFound
    else if WithDesired(c.store[id], desired, now).None? then AlreadyDeleted
    else Ok
  }

  function AfterSetDesired(c: Local, id: string, desired: Status, now: int): Local {
    if AnswerSetDesired(c, id, desired, now) == Ok then
      c.(store := c.store[id := WithDesired(c.store[id], desired, now).value])
    else c
  }

  function AnswerRequest(c: Local, id: string, requestId: string, desired: Status, now: int): Answer {
    if !IsIntent(desired) then Invalid
    else if c.shuttingDown then ClosedForShutdown
    else if requestId == "" then Invalid
    else if id !in c.store then NotFound
    else if WithRequest(c.store[id], requestId, desired, now).None? then AlreadyDeleted
    else Ok
  }

  function AfterRequest(c: Local, id: string, requestId: string, desired: Status, now: int): Local {
    if AnswerRequest(c, id, requestId, desired, now) == Ok then
      c.(store := c.store[id := WithRequest(c.store[id], requestId, desired, now).value])
    else c
  }

  function WithoutLead(s: string): (r: string)
    ensures |r| <= |s| && r == s[|s| - |r|..] && Blank(s[..|s| - |r|])
    ensures r != "" ==> !IsSpace(r[0])
  {
    if s == "" || !IsSpace(s[0]) then s
    else
      var r := WithoutLead(s[1..]);
      assert s[..|s| - |r|] == [s[0]] + s[1..][..|s| - 1 - |r|];
      r
  }

  function WithoutTail(s: string): (r: string)
    ensures |r| <= |s| && r == s[..|r|] && Blank(s[|r|..])
    ensures r != "" ==> !IsSpace(r[|r| - 1])
  {
    if s == "" || !IsSpace(s[|s| - 1]) then s
    else
      var before := s[..|s| - 1];
      var r := WithoutTail(before);
      assert s[|r|..] == before[|r|..] + [s[|s| - 1]];
      r
  }

  /** A name without the white space around it. */
  function Trimmed(s: string): string {
    WithoutTail(WithoutLead(s))
  }

  /** Only white space is cut off, all of it at both ends, and an all-blank name becomes empty. */
  lemma TrimmedIsTight(s: string)
    ensures var r := Trimmed(s);
      && (r != "" ==> !IsSpace(r[0]) && !IsSpace(r[|r| - 1]))
      && (r == "" <==> Blank(s))
    ensures exists i, j :: 0 <= i <= j <= |s| && Trimmed(s) == s[i..j] && Blank(s[..i]) && Blank(s[j..])
  {
    hide IsSpace, WithoutLead, WithoutTail;
    var lead := WithoutLead(s);
    var r := WithoutTail(lead);
    var i := |s| - |lead|;
    assert s[i..] == lead && s[i..i + |r|] == lead[..|r|] && s[i + |r|..] == lead[|r|..];
    assert s == s[..i] + r + s[i + |r|..];
    if r != "" {
      assert r[0] == lead[0] && r[0] in s;
    }
  }

  /** The request that is checked and stored. */
  function Normalized(r: CreateRequest): CreateRequest {
    r.(name := Trimmed(r.name))
  }

  /** A create request as it was sent: without an ID one is drawn, and provider and configuration have defaults. */
  datatype Submitted = Submitted(id: string, name: string, game: string, provider: string, config: Option<string>,
                                 idleMinutes: int, maxMinutes: int)

  function Filled(r: Submitted, drawn: string, catalog: map<string, string>, defaultProvider: string): CreateRequest {
    CreateRequest(if r.id == "" then drawn else r.id, r.name, r.game,
                  if r.provider == "" then defaultProvider else r.provider,
                  if r.config.Some? then r.config.value else if r.game in catalog then catalog[r.game] else "",
                  r.idleMinutes, r.maxMinutes)
  }

  /** The limits a create request must meet; game and provider are looked up by the caller. */
  predicate Wellformed(r: CreateRequest) {
    && ValidId(r.id)
    && r.name != "" && |r.name| <= 80
    && 0 <= r.idleMinutes <= 10080 && 0 <= r.maxMinutes <= 10080
    && |r.config| <= 60000 && '\0' !in r.config
  }

  function Candidate(r: CreateRequest, requestId: string, now: int): Instance {
    Instance(requestId, 1, r.id, r.name, r.game, r.provider, Running, Queued, r.config, r.idleMinutes, r.maxMinutes,
             now, 0, now, None, "", "")
  }

  predicate SameSettings(a: Instance, b: Instance) {
    && a.provider == b.provider && a.game == b.game && a.name == b.name && a.config == b.config
    && a.idleMinutes == b.idleMinutes && a.maxMinutes == b.maxMinutes
  }

  function AnswerCreate(c: Local, games: set<string>, providers: set<string>, request: CreateRequest): Answer {
    var r := Normalized(request);
    if c.shuttingDown then ClosedForShutdown
    else if !Wellformed(r) || r.game !in games || r.provider !in providers then Invalid
    else if r.id in c.store && !SameSettings(c.store[r.id], Candidate(r, "", 0)) then DifferentSettings
    else Ok
  }

  /** Creating an instance that exists with the same settings returns it unchanged. */
  function AfterCreate(c: Local, games: set<string>, providers: set<string>, r: CreateRequest, requestId: string,
                       now: int): Local {
    if AnswerCreate(c, games, providers, r) == Ok && r.id !in c.store then
      c.(store := c.store[r.id := Candidate(Normalized(r), requestId, now)])
    else c
  }

  // -- Idle shutdown ------------------------------------------------------------------------------

  predicate AtRest(i: Instance) {
    && ((i.desired == Stopped && i.phase == Stopped) || (i.desired == Deleted && i.phase == Deleted))
    && i.error == ""
  }

  predicate InstancesIdle(store: map<string, Instance>) {
    forall id | id in store :: AtRest(store[id])
  }

  // -- The controller object ----------------------------------------------------------------------

  class LocalController {
    var shuttingDown: bool
    var store: map<string, Instance>
    const catalog: map<string, string>
    const providers: set<string>
    const defaultProvider: string

    function Value(): Local
      reads this
    {
      Local(shuttingDown, store)
    }

    /** `catalog` holds the known games with their default configurations. */
    constructor (store: map<string, Instance>, catalog: map<string, string>, providers: set<string>,
                 defaultProvider: string)
      ensures Value() == Local(false, store)
      ensures this.catalog == catalog && this.providers == providers && this.defaultProvider == defaultProvider
    {
      this.shuttingDown, this.store := false, store;
      this.catalog, this.providers, this.defaultProvider := catalog, providers, defaultProvider;
    }

    method CreateRequested(request: Submitted, drawn: string, requestId: string, now: int)
      returns (answer: Answer, stored: Instance)
      modifies this
      ensures var r := Filled(request, drawn, catalog, defaultProvider);
        && answer == AnswerCreate(old(Value()), catalog.Keys, providers, r)
        && Value() == AfterCreate(old(Value()), catalog.Keys, providers, r, requestId, now)
        && (answer == Ok ==>
              && r.id in store && stored == store[r.id]
              && stored.name != "" && SameSettings(stored, Candidate(Normalized(r), "", 0)))
    {
      hide Trimmed, ValidId;
      var r := CreateRequest(request.id, Trimmed(request.name), request.game, request.provider, "",
                             request.idleMinutes, request.maxMinutes);
      if r.id == "" {
        r := r.(id := drawn);
      }
      if r.provider == "" {
        r := r.(provider := defaultProvider);
      }
      if request.config.Some? {
        r := r.(config := request.config.value);
      } else if r.game in catalog {
        r := r.(config := catalog[r.game]);
      }
      stored := Candidate(r, requestId, now);
      if shuttingDown {
        return ClosedForShutdown, stored;
      }
      if !Wellformed(r) || r.game !in catalog || r.provider !in providers {
        return Invalid, stored;
      }
      if r.id in store {
        if !SameSettings(store[r.id], stored) {
          return DifferentSettings, stored;
        }
        return Ok, store[r.id];
      }
      store := store[r.id := stored];
      return Ok, stored;
    }

    method SetDesired(id: string, desired: Status, now: int) returns (answer: Answer)
      modifies this
      ensures answer == AnswerSetDesired(old(Value()), id, desired, now)
      ensures Value() == AfterSetDesired(old(Value()), id, desired, now)
    {
      if shuttingDown {
        return ClosedForShutdown;
      }
      if desired != Running && desired != Stopped && desired != Deleted {
        return Invalid;
      }
      if id !in store {
        return NotFound;
      }
      var i := store[id];
      answer, i := Apply(i, desired, now);
      if answer == Ok {
        store := store[id := i];
      }
    }

    method RequestDesired(id: string, requestId: string, desired: Status, now: int) returns (answer: Answer)
      modifies this
      ensures answer == AnswerRequest(old(Value()), id, requestId, desired, now)
      ensures Value() == AfterRequest(old(Value()), id, requestId, desired, now)
    {
      if desired != Running && desired != Stopped && desired != Deleted {
        return Invalid;
      }
      if shuttingDown {
        return ClosedForShutdown;
      }
      if requestId == "" {
        return Invalid;
      }
      if id !in store {
        return NotFound;
      }
      var i := store[id];
      if i.startRequestId == requestId {
        return Ok;
      }
      answer, i := Apply(i, desired, now);
      if answer == Ok {
        store := store[id := i.(startRequestId := requestId)];
      }
    }

    /** Edits a copy of the record; the enclosing transaction stores it only on success. */
    static method Apply(saved: Instance, desired: Status, now: int) returns (answer: Answer, i: Instance)
      requires IsIntent(desired)
      ensures answer == if WithDesired(saved, desired, now).None? then AlreadyDeleted else Ok
      ensures answer == Ok ==> i == WithDesired(saved, desired, now).value
    {
      i := saved;
      if i.desired == Deleted {
        if desired != Deleted {
          return AlreadyDeleted, i;
        }
        if i.phase != Deleted && i.error != "" {
          i := i.(generation := i.generation + 1);
          i := i.(error := "");
        }
        return Ok, i;
      }
      if i.desired == desired {
        if desired == Running && i.phase == Failed {
          i := i.(generation := i.generation + 1);
          i := i.(error := "");
          i := i.(phase := Queued);
          i := i.(startedAt := now);
        }
        return Ok, i;
      }
      i := i.(generation := i.generation + 1);
      i := i.(desired := desired);
      i := i.(error := "");
      i := i.(stopReason := "");
      i := i.(emptySince := 0);
      if desired == Running {
        i := i.(startedAt := now);
        i := i.(phase := Queued);
      }
      return Ok, i;
    }

    /** Closes admission in the same critical section as the idle check. */
    method BeginIdleShutdown() returns (committed: bool)
      modifies this`shuttingDown
      ensures committed <==> InstancesIdle(store)
      ensures shuttingDown == (old(shuttingDown) || committed)
    {
      var remaining := store.Keys;
      while remaining != {}
        invariant remaining <= store.Keys
        invariant forall id | id in store && id !in remaining :: AtRest(store[id])
        invariant shuttingDown == old(shuttingDown)
        decreases |remaining|
      {
        var id :| id in remaining;
        if !AtRest(store[id]) {
          return false;
        }
        remaining := remaining - {id};
      }
      shuttingDown := true;
      return true;
    }
  }

  /** Repeating a request the controller has recorded changes nothing, whatever happened to the instance since. */
  lemma RepeatedRequestIsIgnored(c: Local, id: string, requestId: string, desired: Status, now: int)
    requires id in c.store && c.store[id].startRequestId == requestId
    ensures AfterRequest(c, id, requestId, desired, now) == c
  {
    assert c.store[id := c.store[id]] == c.store;
  }
}
