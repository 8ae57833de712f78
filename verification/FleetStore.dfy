/** The shared table: one revisioned registry, permanent tombstones, and host-fenced reports. */
module FleetStore {
  import opened FleetState

  /** `registry.revision` is zero exactly while no document has been saved. */
  datatype Store = Store(registry: Registry, tombstones: set<string>, reports: map<string, Report>)

  datatype Outcome = Committed | Conflict | Rejected

  const MAX_HOSTS := 16
  const MAX_SERVERS := 128
  const MAX_INT64 := 0x7fff_ffff_ffff_ffff

  predicate Storable(s: Registry, previous: int) {
    0 <= previous < MAX_INT64 && |s.hosts| <= MAX_HOSTS && |s.servers| <= MAX_SERVERS
  }

  /** The outcome of a compare-and-swap of the registry document. */
  function Swap(t: Store, s: Registry, previous: int): Outcome {
    if !Storable(s, previous) then Rejected
    else if t.registry.revision != previous then Conflict
    else Committed
  }

  function Saved(t: Store, s: Registry): Store {
    t.(registry := s.(revision := t.registry.revision + 1))
  }

  function ForgetOutcome(t: Store, s: Registry, previous: int, id: string): Outcome {
    if !ValidId(id) || id in ServerIds(s) then Rejected else Swap(t, s, previous)
  }

  /** Releasing a server's slot, its tombstone and the loss of its report are one transaction. */
  function Forgotten(t: Store, s: Registry, id: string): Store {
    Saved(t, s).(tombstones := t.tombstones + {id}, reports := t.reports - {id})
  }

  datatype Publication = Accepted | Ignored | WrongOwner | Malformed

  function PublishOutcome(t: Store, r: Report): Publication {
    if !ValidId(r.id) || !ValidId(r.host) || r.requestId == "" || r.observedAt == 0 then Malformed
    else if r.id in t.tombstones then Ignored
    else if r.id in t.reports && t.reports[r.id].host != r.host then WrongOwner
    else Accepted
  }

  function Published(t: Store, r: Report): Store {
    if PublishOutcome(t, r).Accepted? then t.(reports := t.reports[r.id := r]) else t
  }

  /** The table as the program sees it. */
  class Table {
    var registry: Registry
    var tombstones: set<string>
    var reports: map<string, Report>

    function Value(): Store
      reads this
    {
      Store(registry, tombstones, reports)
    }

    constructor ()
      ensures Value() == Store(EMPTY, {}, map[])
    {
      registry, tombstones, reports := EMPTY, {}, map[];
    }

    method Save(s: Registry, previous: int) returns (result: Outcome)
      modifies this
      ensures result == Swap(old(Value()), s, previous)
      ensures Value() == if result.Committed? then Saved(old(Value()), s) else old(Value())
    {
      if previous < 0 || previous >= MAX_INT64 || |s.hosts| > MAX_HOSTS || |s.servers| > MAX_SERVERS {
        return Rejected;
      }
      if registry.revision != previous {
        return Conflict;
      }
      registry := s.(revision := previous + 1);
      return Committed;
    }

    method Forget(s: Registry, previous: int, id: string) returns (result: Outcome)
      modifies this
      ensures result == ForgetOutcome(old(Value()), s, previous, id)
      ensures Value() == if result.Committed? then Forgotten(old(Value()), s, id) else old(Value())
    {
      if !ValidId(id) {
        return Rejected;
      }
      for i := 0 to |s.servers|
        invariant forall j | 0 <= j < i :: s.servers[j].id != id
        invariant Value() == old(Value())
      {
        if s.servers[i].id == id {
          assert s.servers[i] in s.servers;
          return Rejected;
        }
      }
      assert id !in ServerIds(s);
      result := Save(s, previous);
      if result.Committed? {
        tombstones := tombstones + {id};
        reports := reports - {id};
      }
    }

    method Tombstoned(id: string) returns (removed: bool)
      ensures removed <==> id in tombstones
    {
      removed := id in tombstones;
    }

    /** Reports of the servers in the registry; the order of the answer carries no meaning. */
    method Reports() returns (found: map<string, Report>)
      ensures found.Keys == reports.Keys * ServerIds(registry)
      ensures forall id | id in found :: found[id] == reports[id]
    {
      found := map[];
      for i := 0 to |registry.servers|
        invariant found.Keys == reports.Keys * (set j | 0 <= j < i :: registry.servers[j].id)
        invariant forall id | id in found :: id in reports && found[id] == reports[id]
      {
        var id := registry.servers[i].id;
        if id in reports {
          found := found[id := reports[id]];
        }
      }
      assert (set j | 0 <= j < |registry.servers| :: registry.servers[j].id) == ServerIds(registry);
    }

    method Publish(r: Report) returns (result: Publication)
      modifies this
      ensures result == PublishOutcome(old(Value()), r)
      ensures Value() == Published(old(Value()), r)
    {
      if !ValidId(r.id) || !ValidId(r.host) || r.requestId == "" || r.observedAt == 0 {
        return Malformed;
      }
      if r.id in tombstones {
        return Ignored;
      }
      if r.id in reports && reports[r.id].host != r.host {
        return WrongOwner;
      }
      reports := reports[r.id := r];
      return Accepted;
    }
  }
}
