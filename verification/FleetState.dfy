/** The fleet registry document: what one revision of it records, and how placement reads it. */
module FleetState {

  datatype Option<+T> = None | Some(value: T)

  /** A server's desired state and an instance's phase are compared with each other, so they share a type. */
  datatype Status = Unset | Queued | Preparing | Starting | Running | Stopping | Stopped | Failed | Deleted

  datatype Resources = Resources(cpu: int, memory: int, disk: int)

  const NOTHING := Resources(0, 0, 0)

  function Plus(a: Resources, b: Resources): Resources {
    Resources(a.cpu + b.cpu, a.memory + b.memory, a.disk + b.disk)
  }

  predicate AtMost(a: Resources, b: Resources) {
    a.cpu <= b.cpu && a.memory <= b.memory && a.disk <= b.disk
  }

  predicate Positive(a: Resources) {
    a.cpu > 0 && a.memory > 0 && a.disk > 0
  }

  datatype Game = Game(id: string, name: string, resources: Resources)

  datatype Config = Config(release: string, workload: string, games: seq<Game>, capacity: Resources,
                           maxHosts: int, maxServers: int, launchTemplate: string, launchVersion: string,
                           idleMinutes: int, maxMinutes: int, deadline: int)

  datatype Host = Host(id: string, release: string, workload: string, capacity: Resources, instanceId: string,
                       launchTemplate: string, launchVersion: string, launchToken: string, createdAt: int,
                       retiring: bool, error: string)

  datatype Server = Server(id: string, game: string, name: string, host: string, desired: Status,
                           requestId: string, requestedAt: int, readyAt: int, error: string, resources: Resources)

  datatype Registry = Registry(revision: nat, hosts: seq<Host>, servers: seq<Server>, deleting: bool)

  /** What a missing document loads as. */
  const EMPTY := Registry(0, [], [], false)

  datatype Report = Report(id: string, host: string, requestId: string, phase: Status, desired: Status,
                           players: Option<int>, error: string, observedAt: int)

  /** What looking up a server without a report yields. */
  const NO_REPORT := Report("", "", "", Unset, Unset, None, "", 0)

  function ReportOf(reports: map<string, Report>, id: string): Report {
    if id in reports then reports[id] else NO_REPORT
  }

  function HostIds(s: Registry): set<string> {
    set h | h in s.hosts :: h.id
  }

  function ServerIds(s: Registry): set<string> {
    set v | v in s.servers :: v.id
  }

  ghost predicate UniqueHosts(hosts: seq<Host>) {
    forall i, j | 0 <= i < j < |hosts| :: hosts[i].id != hosts[j].id
  }

  ghost predicate UniqueServers(servers: seq<Server>) {
    forall i, j | 0 <= i < j < |servers| :: servers[i].id != servers[j].id
  }

  /** The resources reserved on a host, whatever the desired state of its servers. */
  function Used(servers: seq<Server>, host: string): Resources {
    if servers == [] then NOTHING
    else
      var last := servers[|servers| - 1];
      var before := Used(servers[..|servers| - 1], host);
      if last.host == host then Plus(before, last.resources) else before
  }

  predicate LowerOrDigit(c: char) {
    'a' <= c <= 'z' || '0' <= c <= '9'
  }

  predicate ValidId(s: string) {
    1 <= |s| <= 64 && LowerOrDigit(s[0]) && forall c | c in s :: LowerOrDigit(c) || c == '-'
  }

  predicate PinnedVersion(s: string) {
    s != [] && '1' <= s[0] <= '9' && forall c | c in s :: '0' <= c <= '9'
  }

  /** Unicode white space. */
  predicate IsSpace(c: char) {
    || '\t' <= c <= '\r' || c == ' ' || c == '\U{85}' || c == '\U{A0}' || c == '\U{1680}'
    || '\U{2000}' <= c <= '\U{200A}' || c == '\U{2028}' || c == '\U{2029}' || c == '\U{202F}' || c == '\U{205F}'
    || c == '\U{3000}'
  }

  predicate Blank(s: string) {
    forall c | c in s :: IsSpace(c)
  }

  predicate Schedulable(g: Game, capacity: Resources) {
    && ValidId(g.id) && !Blank(g.name) && |g.name| <= 80
    && Positive(g.resources) && AtMost(g.resources, capacity)
  }

  /** A configuration whose catalog has unique games, each of which fits an empty host. */
  ghost predicate ValidConfig(c: Config) {
    && 1 <= c.maxHosts <= 16 && 1 <= c.maxServers <= 128
    && Positive(c.capacity)
    && c.launchTemplate != "" && PinnedVersion(c.launchVersion)
    && 0 <= c.idleMinutes <= 10080 && 0 <= c.maxMinutes <= 10080 && 0 <= c.deadline
    && c.games != []
    && (forall g | g in c.games :: Schedulable(g, c.capacity))
    && (forall i, j | 0 <= i < j < |c.games| :: c.games[i].id != c.games[j].id)
  }

  method Validate(c: Config) returns (ok: bool)
    ensures ok <==> ValidConfig(c)
  {
    if c.maxHosts < 1 || c.maxHosts > 16 || c.maxServers < 1 || c.maxServers > 128 {
      return false;
    }
    if c.capacity.cpu <= 0 || c.capacity.memory <= 0 || c.capacity.disk <= 0 {
      return false;
    }
    if c.launchTemplate == "" || !PinnedVersion(c.launchVersion) {
      return false;
    }
    if c.idleMinutes < 0 || c.idleMinutes > 10080 || c.maxMinutes < 0 || c.maxMinutes > 10080 || c.deadline < 0 {
      return false;
    }
    if |c.games| == 0 {
      return false;
    }
    var seen: set<string> := {};
    for k := 0 to |c.games|
      invariant seen == set i | 0 <= i < k :: c.games[i].id
      invariant forall i | 0 <= i < k :: Schedulable(c.games[i], c.capacity)
      invariant forall i, j | 0 <= i < j < k :: c.games[i].id != c.games[j].id
    {
      var g := c.games[k];
      assert g in c.games;
      if g.id in seen {
        ghost var i :| 0 <= i < k && c.games[i].id == g.id;
      }
      if !ValidId(g.id) || g.id in seen || Blank(g.name) || |g.name| > 80 {
        return false;
      }
      seen := seen + {g.id};
      var r := g.resources;
      if r.cpu <= 0 || r.memory <= 0 || r.disk <= 0
         || r.cpu > c.capacity.cpu || r.memory > c.capacity.memory || r.disk > c.capacity.disk {
        return false;
      }
    }
    return true;
  }

  // -- Facts about reservations ------------------------------------------------------------------

  lemma {:induction false} UsedAppend(servers: seq<Server>, v: Server, host: string)
    ensures Used(servers + [v], host)
         == if v.host == host then Plus(Used(servers, host), v.resources) else Used(servers, host)
  {
    assert (servers + [v])[..|servers|] == servers;
  }

  /** Editing servers in place leaves every reservation alone as long as host and resources stay. */
  lemma {:induction false} UsedPointwise(a: seq<Server>, b: seq<Server>, host: string)
    requires |a| == |b|
    requires forall i | 0 <= i < |a| :: a[i].host == b[i].host && a[i].resources == b[i].resources
    ensures Used(a, host) == Used(b, host)
  {
    if a != [] {
      UsedPointwise(a[..|a| - 1], b[..|b| - 1], host);
    }
  }

  /** Removing a server releases exactly its own reservation. */
  lemma {:induction false} UsedRemove(servers: seq<Server>, i: nat, host: string)
    requires i < |servers|
    ensures Used(servers, host)
         == var rest := Used(servers[..i] + servers[i + 1..], host);
            if servers[i].host == host then Plus(rest, servers[i].resources) else rest
  {
    var n := |servers| - 1;
    if i == n {
      assert servers[..i] + servers[i + 1..] == servers[..n];
    } else {
      var shorter := servers[..n];
      UsedRemove(shorter, i, host);
      var rest := servers[..i] + servers[i + 1..];
      assert rest[..|rest| - 1] == shorter[..i] + shorter[i + 1..];
      assert rest[|rest| - 1] == servers[n];
    }
  }

  lemma {:induction false} UsedNowhere(servers: seq<Server>, host: string)
    requires forall v | v in servers :: v.host != host
    ensures Used(servers, host) == NOTHING
  {
    if servers != [] {
      assert servers[|servers| - 1] in servers;
      UsedNowhere(servers[..|servers| - 1], host);
    }
  }

  // -- Facts about unique identities --------------------------------------------------------------

  lemma ServerById(servers: seq<Server>, v: Server, w: Server)
    requires UniqueServers(servers) && v in servers && w in servers && v.id == w.id
    ensures v == w
  {
    var i :| 0 <= i < |servers| && servers[i] == v;
    var j :| 0 <= j < |servers| && servers[j] == w;
  }

  lemma HostById(hosts: seq<Host>, g: Host, h: Host)
    requires UniqueHosts(hosts) && g in hosts && h in hosts && g.id == h.id
    ensures g == h
  {
    var i :| 0 <= i < |hosts| && hosts[i] == g;
    var j :| 0 <= j < |hosts| && hosts[j] == h;
  }

  /** A sequence without the element at one place: where the others went. */
  lemma CutAt<T>(s: seq<T>, i: nat)
    requires i < |s|
    ensures var rest := s[..i] + s[i + 1..];
      && |rest| == |s| - 1
      && (forall k | 0 <= k < |rest| :: rest[k] == s[if k < i then k else k + 1])
      && (forall k | 0 <= k < |s| && k != i :: s[k] in rest)
  {
    var rest := s[..i] + s[i + 1..];
    forall k | 0 <= k < |s| && k != i ensures s[k] in rest {
      assert s[k] == rest[if k < i then k else k - 1];
    }
  }

  lemma RemovedServers(servers: seq<Server>, i: nat)
    requires UniqueServers(servers) && i < |servers|
    ensures UniqueServers(servers[..i] + servers[i + 1..])
    ensures forall v :: v in servers[..i] + servers[i + 1..] <==> v in servers && v.id != servers[i].id
  {
    CutAt(servers, i);
  }

  lemma RemovedHosts(hosts: seq<Host>, i: nat)
    requires UniqueHosts(hosts) && i < |hosts|
    ensures UniqueHosts(hosts[..i] + hosts[i + 1..])
    ensures forall h :: h in hosts[..i] + hosts[i + 1..] <==> h in hosts && h.id != hosts[i].id
  {
    CutAt(hosts, i);
  }
}
