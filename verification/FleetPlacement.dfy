/** Choosing a host for a new server, and deciding whether a create request is admitted. */
module FleetPlacement {
  import opened FleetState

  // -- Ordering -----------------------------------------------------------------------------------

  /** Go's `<` on strings. */
  predicate TextBefore(a: string, b: string) {
    b != [] && (a == [] || a[0] < b[0] || (a[0] == b[0] && TextBefore(a[1..], b[1..])))
  }

  lemma {:induction false} TextBeforeIsStrict(a: string)
    ensures !TextBefore(a, a)
  {
    if a != [] {
      TextBeforeIsStrict(a[1..]);
    }
  }

  lemma {:induction false} TextBeforeIsTransitive(a: string, b: string, c: string)
    requires TextBefore(a, b) && TextBefore(b, c)
    ensures TextBefore(a, c)
  {
    if a != [] && a[0] == b[0] == c[0] {
      TextBeforeIsTransitive(a[1..], b[1..], c[1..]);
    }
  }

  lemma {:induction false} TextBeforeIsTotal(a: string, b: string)
    ensures a == b || TextBefore(a, b) || TextBefore(b, a)
  {
    if a != [] && b != [] && a[0] == b[0] {
      TextBeforeIsTotal(a[1..], b[1..]);
      assert a[1..] == b[1..] ==> a == [a[0]] + a[1..] == [b[0]] + b[1..] == b;
    }
  }

  // -- Candidates ---------------------------------------------------------------------------------

  /** What the machine provider reports for a host. */
  datatype Lifecycle = NoMachine | Pending | Up | StoppingMachine | StoppedMachine | ShuttingDown | Terminated

  datatype Candidate = Candidate(host: Host, rank: int, remaining: int)

  /** Running machines first, then ones that are starting or not yet launched, then sleeping ones. */
  function Rank(m: Lifecycle): Option<int> {
    match m
    case Up => Some(0)
    case Pending => Some(1)
    case NoMachine => Some(1)
    case StoppedMachine => Some(2)
    case StoppingMachine => Some(2)
    case ShuttingDown => None
    case Terminated => None
  }

  predicate Fits(capacity: Resources, used: Resources, required: Resources) {
    AtMost(Plus(used, required), capacity)
  }

  predicate Compatible(c: Config, h: Host) {
    h.release == c.release || (h.workload != "" && h.workload == c.workload)
  }

  /** Whether the registry alone lets this host take the server. */
  predicate Admits(c: Config, s: Registry, required: Resources, h: Host) {
    !h.retiring && Compatible(c, h) && Fits(h.capacity, Used(s.servers, h.id), required)
  }

  /** `seen` maps a host to its inspected machine state; a host it misses could not be inspected. */
  predicate Eligible(c: Config, s: Registry, required: Resources, seen: map<string, Lifecycle>, h: Host) {
    h in s.hosts && Admits(c, s, required, h) && h.id in seen && Rank(seen[h.id]).Some?
  }

  function CandidateOf(s: Registry, required: Resources, seen: map<string, Lifecycle>, h: Host): Candidate
    requires h.id in seen && Rank(seen[h.id]).Some?
  {
    Candidate(h, Rank(seen[h.id]).value, h.capacity.memory - Used(s.servers, h.id).memory - required.memory)
  }

  predicate Before(a: Candidate, b: Candidate) {
    if a.rank != b.rank then a.rank < b.rank
    else if a.remaining != b.remaining then a.remaining < b.remaining
    else TextBefore(a.host.id, b.host.id)
  }

  lemma BeforeIsTransitive(a: Candidate, b: Candidate, c: Candidate)
    requires Before(a, b) && Before(b, c)
    ensures Before(a, c)
  {
    if a.rank == b.rank == c.rank && a.remaining == b.remaining == c.remaining {
      TextBeforeIsTransitive(a.host.id, b.host.id, c.host.id);
    }
  }

  /** What `choose` promises: the least eligible host, or none exactly when no host is eligible. */
  ghost predicate IsChoice(c: Config, s: Registry, required: Resources, seen: map<string, Lifecycle>,
                           chosen: Option<Host>) {
    && (chosen.None? ==> forall h | h in s.hosts :: !Eligible(c, s, required, seen, h))
    && (chosen.Some? ==>
          && Eligible(c, s, required, seen, chosen.value)
          && forall h | Eligible(c, s, required, seen, h) ::
               !Before(CandidateOf(s, required, seen, h), CandidateOf(s, required, seen, chosen.value)))
  }

  /** Host IDs are unique in a registry, so the ordering leaves exactly one answer. */
  lemma ChoiceIsUnique(c: Config, s: Registry, required: Resources, seen: map<string, Lifecycle>,
                       a: Option<Host>, b: Option<Host>)
    requires UniqueHosts(s.hosts)
    requires IsChoice(c, s, required, seen, a) && IsChoice(c, s, required, seen, b)
    ensures a == b
  {
    if a.Some? && b.Some? {
      TextBeforeIsTotal(a.value.id, b.value.id);
      HostById(s.hosts, a.value, b.value);
    }
  }

  /** The reservation loop. */
  method SumUsed(s: Registry, host: string) returns (r: Resources)
    ensures r == Used(s.servers, host)
  {
    r := NOTHING;
    for i := 0 to |s.servers|
      invariant r == Used(s.servers[..i], host)
    {
      assert s.servers[..i + 1] == s.servers[..i] + [s.servers[i]];
      UsedAppend(s.servers[..i], s.servers[i], host);
      if s.servers[i].host == host {
        r := Plus(r, s.servers[i].resources);
      }
    }
    assert s.servers[..|s.servers|] == s.servers;
  }

  method Choose(c: Config, s: Registry, required: Resources, seen: map<string, Lifecycle>)
    returns (chosen: Option<Host>)
    ensures IsChoice(c, s, required, seen, chosen)
  {
    var candidates: seq<Candidate> := [];
    for i := 0 to |s.hosts|
      invariant forall k | 0 <= k < |candidates| ::
          && Eligible(c, s, required, seen, candidates[k].host)
          && candidates[k] == CandidateOf(s, required, seen, candidates[k].host)
      invariant forall j | 0 <= j < i && Eligible(c, s, required, seen, s.hosts[j]) ::
          CandidateOf(s, required, seen, s.hosts[j]) in candidates
    {
      var h := s.hosts[i];
      var load := SumUsed(s, h.id);
      if h.retiring || !Compatible(c, h) || !Fits(h.capacity, load, required) || h.id !in seen {
        continue;
      }
      var rank := Rank(seen[h.id]);
      if rank.None? {
        continue;
      }
      candidates := candidates + [Candidate(h, rank.value, h.capacity.memory - load.memory - required.memory)];
    }
    if candidates == [] {
      return None;
    }
    var least := Least(candidates);
    forall h | Eligible(c, s, required, seen, h)
      ensures !Before(CandidateOf(s, required, seen, h), CandidateOf(s, required, seen, least.host))
    {
      var j :| 0 <= j < |s.hosts| && s.hosts[j] == h;
      assert CandidateOf(s, required, seen, s.hosts[j]) in candidates;
    }
    return Some(least.host);
  }

  /** The head of the sorted candidates. */
  method Least(candidates: seq<Candidate>) returns (least: Candidate)
    requires candidates != []
    ensures least in candidates
    ensures forall x | x in candidates :: !Before(x, least)
  {
    least := candidates[0];
    TextBeforeIsStrict(least.host.id);
    for i := 1 to |candidates|
      invariant least in candidates
      invariant forall j | 0 <= j < i :: !Before(candidates[j], least)
    {
      var x := candidates[i];
      TextBeforeIsStrict(x.host.id);
      if Before(x, least) {
        forall j | 0 <= j < i ensures !Before(candidates[j], x) {
          if Before(candidates[j], x) {
            BeforeIsTransitive(candidates[j], x, least);
          }
        }
        least := x;
      }
    }
  }

  // -- Admission ----------------------------------------------------------------------------------

  datatype Refusal = Ended | InUse | Removed | AtCapacity

  /** Identities drawn from the random source while a create attempt is prepared. */
  datatype Drawn = Drawn(host: string, launch: string, request: string)

  datatype CreatePlan = Refuse(why: Refusal) | Existing(server: Server) | Propose(next: Registry, server: Server)

  predicate Expired(c: Config, now: int) {
    c.deadline > 0 && now >= c.deadline
  }

  /** The scan for a server that already carries the requested ID. */
  function Holder(servers: seq<Server>, id: string): (r: Option<Server>)
    ensures r.None? <==> forall v | v in servers :: v.id != id
    ensures r.Some? ==> r.value in servers && r.value.id == id
  {
    if servers == [] then None
    else if servers[0].id == id then Some(servers[0])
    else Holder(servers[1..], id)
  }

  function NewHost(c: Config, drawn: Drawn, now: int): Host {
    Host(drawn.host, c.release, c.workload, c.capacity, "", c.launchTemplate, c.launchVersion, drawn.launch, now,
         false, "")
  }

  function NewServer(id: string, game: Game, name: string, host: string, drawn: Drawn, now: int): Server {
    Server(id, game.id, name, host, Running, drawn.request, now, 0, "", game.resources)
  }

  /** One attempt of a create request, from the registry it loaded to the document it will try to save. */
  function PlanCreate(c: Config, id: string, game: Game, name: string, s: Registry, tombstoned: bool,
                      chosen: Option<Host>, drawn: Drawn, now: int): CreatePlan
  {
    if s.deleting || Expired(c, now) then Refuse(Ended)
    else
      var holder := Holder(s.servers, id);
      if holder.Some? then
        var v := holder.value;
        if v.game != game.id || v.name != name || v.desired == Deleted then Refuse(InUse) else Existing(v)
      else if tombstoned then Refuse(Removed)
      else if |s.servers| >= c.maxServers then Refuse(AtCapacity)
      else if chosen.Some? then
        var v := NewServer(id, game, name, chosen.value.id, drawn, now);
        Propose(s.(servers := s.servers + [v]), v)
      else if |s.hosts| >= c.maxHosts then Refuse(AtCapacity)
      else
        var h := NewHost(c, drawn, now);
        var v := NewServer(id, game, name, h.id, drawn, now);
        Propose(s.(hosts := s.hosts + [h], servers := s.servers + [v]), v)
  }

  /**
   * A create that got past identity checks is refused for capacity exactly when the server limit is reached,
   * or when no host can take the server and the host limit is reached.
   */
  lemma CapacityRefusalIsExact(c: Config, id: string, game: Game, name: string, s: Registry, tombstoned: bool,
                               seen: map<string, Lifecycle>, chosen: Option<Host>, drawn: Drawn, now: int)
    requires IsChoice(c, s, game.resources, seen, chosen)
    ensures PlanCreate(c, id, game, name, s, tombstoned, chosen, drawn, now) == Refuse(AtCapacity)
        <==> && !s.deleting && !Expired(c, now) && id !in ServerIds(s) && !tombstoned
             && (|| |s.servers| >= c.maxServers
                 || (|s.hosts| >= c.maxHosts && forall h | h in s.hosts :: !Eligible(c, s, game.resources, seen, h)))
  {
    var holder := Holder(s.servers, id);
    if holder.Some? {
      assert holder.value in s.servers;
    }
  }

  /** An admitted create adds one server, to a host that was open and had room, within the caller's limits. */
  lemma ProposalIsAdmissible(c: Config, id: string, game: Game, name: string, s: Registry, tombstoned: bool,
                             seen: map<string, Lifecycle>, chosen: Option<Host>, drawn: Drawn, now: int)
    requires ValidConfig(c) && game in c.games
    requires IsChoice(c, s, game.resources, seen, chosen)
    requires PlanCreate(c, id, game, name, s, tombstoned, chosen, drawn, now).Propose?
    ensures var p := PlanCreate(c, id, game, name, s, tombstoned, chosen, drawn, now);
      && !s.deleting && !tombstoned && id !in ServerIds(s)
      && p.server.id == id && p.server.desired == Running && p.server.requestId == drawn.request
      && p.next.servers == s.servers + [p.server] && p.next.deleting == s.deleting && p.next.revision == s.revision
      && |p.next.servers| <= c.maxServers
      && (|| (p.next.hosts == s.hosts && exists h ::
                h in s.hosts && h.id == p.server.host && !h.retiring
                && AtMost(Plus(Used(s.servers, h.id), p.server.resources), h.capacity))
          || (exists h ::
                p.next.hosts == s.hosts + [h] && |p.next.hosts| <= c.maxHosts && h.id == p.server.host == drawn.host
                && h.launchToken == drawn.launch && !h.retiring && h.instanceId == ""
                && AtMost(p.server.resources, h.capacity) && Positive(h.capacity)))
  {
    var p := PlanCreate(c, id, game, name, s, tombstoned, chosen, drawn, now);
    assert Holder(s.servers, id).None?;
    if chosen.Some? {
      var h := chosen.value;
      assert h in s.hosts && h.id == p.server.host && !h.retiring
             && AtMost(Plus(Used(s.servers, h.id), p.server.resources), h.capacity);
    } else {
      var h := NewHost(c, drawn, now);
      assert p.next.hosts == s.hosts + [h] && h.id == p.server.host;
    }
  }
}
