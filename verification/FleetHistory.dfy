/** Invariants of the stored fleet document and its history, and what keeps them across a commit. */
module FleetHistory {
  import opened FleetState
  import opened FleetPlacement
  import opened FleetStore
  import opened FleetPlan
  import opened Controller
  import opened FleetWorld

  // -- One document -------------------------------------------------------------------------------

  /** A retiring host holds nothing but servers on their way out. */
  ghost predicate RetirementIsSafe(s: Registry) {
    forall h, v | h in s.hosts && v in s.servers && h.retiring && v.host == h.id :: s.deleting || v.desired == Deleted
  }

  ghost predicate WithinCapacity(s: Registry) {
    forall h | h in s.hosts :: AtMost(Used(s.servers, h.id), h.capacity)
  }

  /** What every committed document satisfies. */
  ghost predicate Sound(s: Registry) {
    && UniqueHosts(s.hosts) && UniqueServers(s.servers)
    && (forall v | v in s.servers :: v.host in HostIds(s) && Positive(v.resources) && IsIntent(v.desired))
    && WithinCapacity(s)
    && RetirementIsSafe(s)
  }

  predicate HostEdit(g: Host, h: Host) {
    h.id == g.id && BirthOf(h) == BirthOf(g) && (g.retiring ==> h.retiring)
  }

  predicate ServerEdit(u: Server, v: Server) {
    v.id == u.id && ServerBirthOf(v) == ServerBirthOf(u) && (u.desired == Deleted ==> v.desired == Deleted)
    && IsIntent(v.desired)
  }

  /** Records edited where they stand: identities stay, intent to delete stays, retirement stays. */
  ghost predicate Edits(s: Registry, d: Registry) {
    && |d.hosts| == |s.hosts| && |d.servers| == |s.servers|
    && (forall i | 0 <= i < |s.hosts| :: HostEdit(s.hosts[i], d.hosts[i]))
    && (forall i | 0 <= i < |s.servers| :: ServerEdit(s.servers[i], d.servers[i]))
    && (s.deleting ==> d.deleting)
    && RetirementIsSafe(d)
  }

  /** When hosts and the deployment flag stay as they are, edited servers keep retirement safe. */
  lemma ServerEditsAreEdits(s: Registry, d: Registry)
    requires RetirementIsSafe(s) && d.hosts == s.hosts && d.deleting == s.deleting && |d.servers| == |s.servers|
    requires forall i | 0 <= i < |s.servers| :: ServerEdit(s.servers[i], d.servers[i])
    ensures Edits(s, d)
  {
    forall h, v | h in d.hosts && v in d.servers && h.retiring && v.host == h.id
      ensures d.deleting || v.desired == Deleted
    {
      var i :| 0 <= i < |d.servers| && d.servers[i] == v;
      assert ServerEdit(s.servers[i], d.servers[i]);
      assert s.servers[i] in s.servers && s.servers[i].host == h.id;
    }
  }

  lemma EditedIsSound(s: Registry, d: Registry)
    requires Sound(s) && Edits(s, d)
    ensures Sound(d) && HostIds(d) == HostIds(s) && ServerIds(d) == ServerIds(s)
  {
    SameIds(s, d);
    forall v | v in d.servers ensures v.host in HostIds(d) && Positive(v.resources) && IsIntent(v.desired) {
      var i :| 0 <= i < |d.servers| && d.servers[i] == v;
      assert ServerEdit(s.servers[i], d.servers[i]) && s.servers[i] in s.servers;
    }
    forall h | h in d.hosts ensures AtMost(Used(d.servers, h.id), h.capacity) {
      var i :| 0 <= i < |d.hosts| && d.hosts[i] == h;
      assert HostEdit(s.hosts[i], d.hosts[i]) && s.hosts[i] in s.hosts;
      UsedEdited(s.servers, d.servers, h.id);
    }
  }

  lemma UsedEdited(a: seq<Server>, b: seq<Server>, host: string)
    requires |a| == |b| && forall i | 0 <= i < |a| :: ServerEdit(a[i], b[i])
    ensures Used(a, host) == Used(b, host)
  {
    forall i | 0 <= i < |a| ensures a[i].host == b[i].host && a[i].resources == b[i].resources {
      assert ServerEdit(a[i], b[i]) && a[i].host == ServerBirthOf(a[i]).host
          && a[i].resources == ServerBirthOf(a[i]).resources;
    }
    UsedPointwise(a, b, host);
  }

  lemma SameIds(s: Registry, d: Registry)
    requires Edits(s, d)
    ensures HostIds(d) == HostIds(s) && ServerIds(d) == ServerIds(s)
  {
    forall id ensures id in HostIds(d) <==> id in HostIds(s) {
      if id in HostIds(d) {
        var i :| 0 <= i < |d.hosts| && d.hosts[i].id == id;
        assert HostEdit(s.hosts[i], d.hosts[i]) && s.hosts[i] in s.hosts;
      }
      if id in HostIds(s) {
        var i :| 0 <= i < |s.hosts| && s.hosts[i].id == id;
        assert HostEdit(s.hosts[i], d.hosts[i]) && d.hosts[i] in d.hosts;
      }
    }
    forall id ensures id in ServerIds(d) <==> id in ServerIds(s) {
      if id in ServerIds(d) {
        var i :| 0 <= i < |d.servers| && d.servers[i].id == id;
        assert ServerEdit(s.servers[i], d.servers[i]) && s.servers[i] in s.servers;
      }
      if id in ServerIds(s) {
        var i :| 0 <= i < |s.servers| && s.servers[i].id == id;
        assert ServerEdit(s.servers[i], d.servers[i]) && d.servers[i] in d.servers;
      }
    }
  }

  function WithoutServer(s: Registry, k: nat): Registry
    requires k < |s.servers|
  {
    s.(servers := s.servers[..k] + s.servers[k + 1..])
  }

  function WithoutHost(s: Registry, k: nat): Registry
    requires k < |s.hosts|
  {
    s.(hosts := s.hosts[..k] + s.hosts[k + 1..])
  }

  lemma ReleasedServerIsSound(s: Registry, k: nat)
    requires Sound(s) && k < |s.servers|
    ensures Sound(WithoutServer(s, k))
    ensures ServerIds(WithoutServer(s, k)) == ServerIds(s) - {s.servers[k].id}
  {
    RemovedServers(s.servers, k);
    var d := WithoutServer(s, k);
    assert s.servers[k] in s.servers && Positive(s.servers[k].resources);
    forall h | h in d.hosts ensures AtMost(Used(d.servers, h.id), h.capacity) {
      UsedRemove(s.servers, k, h.id);
    }
    forall id ensures id in ServerIds(d) <==> id in ServerIds(s) - {s.servers[k].id} {
      if id in ServerIds(s) && id != s.servers[k].id {
        var v :| v in s.servers && v.id == id;
        assert v in d.servers;
      }
    }
  }

  lemma ReleasedHostIsSound(s: Registry, k: nat)
    requires Sound(s) && k < |s.hosts| && forall v | v in s.servers :: v.host != s.hosts[k].id
    ensures Sound(WithoutHost(s, k))
    ensures HostIds(WithoutHost(s, k)) == HostIds(s) - {s.hosts[k].id}
  {
    RemovedHosts(s.hosts, k);
    var d := WithoutHost(s, k);
    forall id ensures id in HostIds(d) <==> id in HostIds(s) - {s.hosts[k].id} {
      if id in HostIds(s) && id != s.hosts[k].id {
        var h :| h in s.hosts && h.id == id;
        assert h in d.hosts;
      }
    }
  }

  /** The document after one server, and perhaps the host for it, was added. */
  function Grown(s: Registry, hosts: seq<Host>, v: Server): Registry {
    s.(hosts := hosts, servers := s.servers + [v])
  }

  /** `hosts` are the saved ones, or the saved ones and a new one for the server. */
  ghost predicate MayGrow(s: Registry, hosts: seq<Host>, v: Server) {
    && v.id !in ServerIds(s) && Positive(v.resources) && v.desired == Running
    && (|| hosts == s.hosts
        || exists h :: hosts == s.hosts + [h] && h.id !in HostIds(s) && Positive(h.capacity) && h.id == v.host)
  }

  predicate HasRoom(s: Registry, h: Host, v: Server) {
    h.id == v.host && !h.retiring && AtMost(Plus(Used(s.servers, h.id), v.resources), h.capacity)
  }

  lemma GrownIdentities(s: Registry, hosts: seq<Host>, v: Server)
    requires UniqueHosts(s.hosts) && UniqueServers(s.servers) && MayGrow(s, hosts, v)
    ensures UniqueHosts(hosts) && UniqueServers(s.servers + [v])
    ensures HostIds(s) <= HostIds(Grown(s, hosts, v))
    ensures ServerIds(Grown(s, hosts, v)) == ServerIds(s) + {v.id}
    ensures forall h | h in s.hosts :: h in hosts
  {
    assert forall x | x in s.servers :: x.id in ServerIds(s);
    assert forall h | h in s.hosts :: h.id in HostIds(s);
    if hosts != s.hosts {
      assert forall i | 0 <= i < |s.hosts| :: s.hosts[i] in s.hosts && hosts[i] == s.hosts[i];
    }
    assert forall x :: x in s.servers + [v] <==> x in s.servers || x == v;
  }

  lemma GrownCapacity(s: Registry, hosts: seq<Host>, v: Server, target: Host)
    requires UniqueHosts(hosts) && WithinCapacity(s) && MayGrow(s, hosts, v)
    requires forall x | x in s.servers :: x.host in HostIds(s)
    requires target in hosts && HasRoom(s, target, v)
    ensures WithinCapacity(Grown(s, hosts, v))
  {
    forall h | h in hosts ensures AtMost(Used(s.servers + [v], h.id), h.capacity) {
      UsedAppend(s.servers, v, h.id);
      if h.id == v.host {
        HostById(hosts, h, target);
      } else {
        assert h in s.hosts;
      }
    }
  }

  lemma GrownRetirement(s: Registry, hosts: seq<Host>, v: Server, target: Host)
    requires UniqueHosts(hosts) && RetirementIsSafe(s) && (forall h | h in s.hosts :: h in hosts)
    requires forall x | x in s.servers :: x.host in HostIds(s)
    requires target in hosts && target.id == v.host && !target.retiring
    ensures RetirementIsSafe(Grown(s, hosts, v))
  {
    forall h, x | h in hosts && x in s.servers + [v] && h.retiring && x.host == h.id
      ensures s.deleting || x.desired == Deleted
    {
      if x == v {
        HostById(hosts, h, target);
      } else {
        var g :| g in s.hosts && g.id == x.host;
        HostById(hosts, g, h);
      }
    }
  }

  /** Room on one open host for one more server keeps every host within its capacity. */
  lemma AdmittedIsSound(s: Registry, hosts: seq<Host>, v: Server, target: Host)
    requires Sound(s) && MayGrow(s, hosts, v) && target in hosts && HasRoom(s, target, v)
    ensures Sound(Grown(s, hosts, v)) && ServerIds(Grown(s, hosts, v)) == ServerIds(s) + {v.id}
  {
    hide WithinCapacity, RetirementIsSafe, HasRoom;
    GrownIdentities(s, hosts, v);
    GrownCapacity(s, hosts, v, target);
    assert target.id == v.host && !target.retiring by {
      GrownTarget(s, v, target);
    }
    GrownRetirement(s, hosts, v, target);
  }

  lemma GrownTarget(s: Registry, v: Server, target: Host)
    requires HasRoom(s, target, v)
    ensures target.id == v.host && !target.retiring
  {
  }

  // -- History ------------------------------------------------------------------------------------

  /** A record of a document holds each host's identity, each server's, and each server's current request. */
  lemma RecordedHosts(b: Book, s: Registry)
    requires UniqueHosts(s.hosts)
    ensures Recorded(b, s).hosts.Keys == b.hosts.Keys + HostIds(s)
    ensures forall h | h in s.hosts :: Recorded(b, s).hosts[h.id] == BirthOf(h)
    ensures forall id | id in b.hosts && id !in HostIds(s) :: Recorded(b, s).hosts[id] == b.hosts[id]
  {
    hide HostHolder, ServerBirths, Issues;
    forall h | h in s.hosts ensures Recorded(b, s).hosts[h.id] == BirthOf(h) {
      HostById(s.hosts, h, HostHolder(s.hosts, h.id).value);
    }
  }

  lemma RecordedServers(b: Book, s: Registry)
    requires UniqueServers(s.servers)
    ensures Recorded(b, s).servers.Keys == b.servers.Keys + ServerIds(s)
    ensures forall v | v in s.servers :: Recorded(b, s).servers[v.id] == ServerBirthOf(v)
    ensures forall id | id in b.servers && id !in ServerIds(s) :: Recorded(b, s).servers[id] == b.servers[id]
  {
    hide Holder, HostBirths, Issues;
    forall v | v in s.servers ensures Recorded(b, s).servers[v.id] == ServerBirthOf(v) {
      ServerById(s.servers, v, Holder(s.servers, v.id).value);
    }
  }

  lemma RecordedIssues(b: Book, s: Registry)
    requires UniqueServers(s.servers)
    ensures Recorded(b, s).issued.Keys == b.issued.Keys + ServerIds(s)
    ensures forall v | v in s.servers ::
              Recorded(b, s).issued[v.id] == WithIssue(IssuedTo(b.issued, v.id), v.requestId)
    ensures forall id | id in b.issued && id !in ServerIds(s) :: Recorded(b, s).issued[id] == b.issued[id]
  {
    hide Holder, HostBirths, ServerBirths;
    forall v | v in s.servers
      ensures Recorded(b, s).issued[v.id] == WithIssue(IssuedTo(b.issued, v.id), v.requestId)
    {
      ServerById(s.servers, v, Holder(s.servers, v.id).value);
    }
  }

  predicate Distinct(q: seq<string>) {
    forall i, j | 0 <= i < j < |q| :: q[i] != q[j]
  }

  predicate IsLast(q: seq<string>, r: string) {
    q != [] && q[|q| - 1] == r
  }

  /** A document, current or long superseded, agrees with the history about identities and requests. */
  ghost predicate Known(b: Book, s: Registry) {
    && (forall h | h in s.hosts ::
          h.id in b.hosts && b.hosts[h.id] == BirthOf(h) && (h.retiring ==> h.id in b.retired))
    && (forall v | v in s.servers ::
          v.id in b.servers && b.servers[v.id] == ServerBirthOf(v)
          && v.id in b.issued && v.requestId in b.issued[v.id])
  }

  /** The current document: retirement is never taken back, and each server carries its newest request. */
  ghost predicate Newest(b: Book, s: Registry) {
    && (forall h | h in s.hosts :: h.id in b.retired ==> h.retiring)
    && (forall v | v in s.servers ::
          v.id in b.issued && IsLast(b.issued[v.id], v.requestId))
  }

  ghost predicate BookIsConsistent(b: Book, minted: set<string>) {
    && b.retired <= b.hosts.Keys
    && (forall id | id in b.hosts :: id in minted && b.hosts[id].token in minted)
    && (forall x, y | x in b.hosts && y in b.hosts && b.hosts[x].token == b.hosts[y].token :: x == y)
    && b.issued.Keys == b.servers.Keys
    && (forall id | id in b.issued ::
          Distinct(b.issued[id]) && forall r | r in b.issued[id] :: r in minted && r != "")
  }

  /** Every server ever committed is either saved or tombstoned, and reports exist for saved servers only. */
  ghost predicate NothingResurrected(t: Store, b: Book) {
    && b.servers.Keys == ServerIds(t.registry) + t.tombstones
    && ServerIds(t.registry) !! t.tombstones
    && (forall id | id in t.reports ::
          id in ServerIds(t.registry) && id in b.servers && t.reports[id].host == b.servers[id].host)
  }

  ghost predicate StoreInv(w: World) {
    && Sound(w.store.registry)
    && Known(w.book, w.store.registry) && Newest(w.book, w.store.registry)
    && BookIsConsistent(w.book, w.minted)
    && NothingResurrected(w.store, w.book)
  }

  /** History only grows, and a document that did not change carries no other change with it. */
  ghost predicate Grows(w: World, x: World) {
    && w.store.registry.revision <= x.store.registry.revision
    && (x.store.registry.revision == w.store.registry.revision ==>
          x.store.registry == w.store.registry && x.store.tombstones == w.store.tombstones)
    && w.book.hosts.Keys <= x.book.hosts.Keys
    && (forall id | id in w.book.hosts :: x.book.hosts[id] == w.book.hosts[id])
    && w.book.retired <= x.book.retired
    && w.book.servers.Keys <= x.book.servers.Keys
    && (forall id | id in w.book.servers :: x.book.servers[id] == w.book.servers[id])
    && w.book.issued.Keys <= x.book.issued.Keys
    && (forall id | id in w.book.issued :: w.book.issued[id] <= x.book.issued[id])
    && w.minted <= x.minted
    && w.store.tombstones <= x.store.tombstones
    && (w.store.registry.deleting ==> x.store.registry.deleting)
    && Admits(w, x.store.registry)
    && Departs(w.store.registry, x.store.registry)
  }

  /** Hosts never come back, and no server joins a host that was ever retired. */
  ghost predicate Admits(w: World, d: Registry) {
    && (forall id | id in w.book.hosts && id in HostIds(d) :: id in HostIds(w.store.registry))
    && (forall v | v in d.servers && v.host in w.book.retired :: v.id in ServerIds(w.store.registry))
  }

  /** The servers a document wants deleted. */
  function DeletedIds(s: Registry): set<string> {
    set v | v in s.servers && v.desired == Deleted :: v.id
  }

  /**
   * Servers leave with deletion intent, which is never taken back, or with the deployment; hosts leave retired and
   * empty.
   */
  ghost predicate Departs(s: Registry, d: Registry) {
    && DeletedIds(s) * ServerIds(d) <= DeletedIds(d)
    && (forall v | v in s.servers && v.id !in ServerIds(d) :: s.deleting || v.desired == Deleted)
    && (forall h | h in s.hosts && h.id !in HostIds(d) :: h.retiring && forall v | v in s.servers :: v.host != h.id)
  }

  lemma KnownStays(w: World, x: World, s: Registry)
    requires Grows(w, x) && Known(w.book, s)
    ensures Known(x.book, s)
  {
    forall v | v in s.servers ensures v.id in x.book.issued && v.requestId in x.book.issued[v.id] {
      var i :| 0 <= i < |w.book.issued[v.id]| && w.book.issued[v.id][i] == v.requestId;
      assert x.book.issued[v.id][i] == v.requestId;
    }
  }

  // -- Commits ------------------------------------------------------------------------------------

  /** A host the draft carries over from the current document. */
  ghost predicate KeptHost(w: World, h: Host) {
    && h.id in HostIds(w.store.registry)
    && h.id in w.book.hosts && w.book.hosts[h.id] == BirthOf(h) && (h.id in w.book.retired ==> h.retiring)
  }

  ghost predicate AddedHost(w: World, x: World, h: Host) {
    && h.id !in w.minted && h.launchToken !in w.minted && h.id in x.minted && h.launchToken in x.minted
    && !h.retiring
  }

  ghost predicate NewRequest(w: World, x: World, requestId: string) {
    requestId != "" && requestId !in w.minted && requestId in x.minted
  }

  ghost predicate KeptServer(w: World, x: World, v: Server) {
    && v.id in ServerIds(w.store.registry)
    && v.id in w.book.servers && w.book.servers[v.id] == ServerBirthOf(v)
    && (IsLast(IssuedTo(w.book.issued, v.id), v.requestId) || NewRequest(w, x, v.requestId))
  }

  ghost predicate AddedServer(w: World, x: World, v: Server) {
    v.id !in w.book.servers && v.host !in w.book.retired && NewRequest(w, x, v.requestId)
  }

  /** Hosts are carried over or new, and at most one is new. */
  ghost predicate HostsSucceed(w: World, x: World, d: Registry) {
    && (forall h | h in d.hosts :: KeptHost(w, h) || AddedHost(w, x, h))
    && (forall g, h | g in d.hosts && h in d.hosts && AddedHost(w, x, g) && AddedHost(w, x, h) :: g.id == h.id)
  }

  ghost predicate ServersSucceed(w: World, x: World, d: Registry) {
    forall v | v in d.servers :: KeptServer(w, x, v) || AddedServer(w, x, v)
  }

  /** What a draft may do to the document it was prepared from; `gone` are the servers it drops. */
  ghost predicate Succeeds(w: World, x: World, d: Registry, gone: set<string>) {
    && Sound(d)
    && HostsSucceed(w, x, d)
    && ServersSucceed(w, x, d)
    && gone == ServerIds(w.store.registry) - ServerIds(d)
    && (w.store.registry.deleting ==> d.deleting)
    && Departs(w.store.registry, d)
  }

  /** `x` is `w` with the draft committed, and with the dropped servers tombstoned. */
  ghost predicate Commits(w: World, x: World, d: Registry, gone: set<string>) {
    && x.store.registry == d.(revision := w.store.registry.revision + 1)
    && x.store.tombstones == w.store.tombstones + gone
    && x.store.reports == w.store.reports - gone
    && x.book == Recorded(w.book, d)
    && w.minted <= x.minted
  }

  /** The history of hosts after a commit: every old identity stays and a new one is fresh. */
  lemma HostHistory(w: World, x: World, d: Registry)
    requires BookIsConsistent(w.book, w.minted) && UniqueHosts(d.hosts) && HostsSucceed(w, x, d)
    requires x.book == Recorded(w.book, d) && w.minted <= x.minted
    ensures w.book.hosts.Keys <= x.book.hosts.Keys
    ensures forall id | id in w.book.hosts :: x.book.hosts[id] == w.book.hosts[id]
    ensures forall id | id in x.book.hosts && id !in w.book.hosts ::
              exists h :: h in d.hosts && h.id == id && AddedHost(w, x, h) && x.book.hosts[id] == BirthOf(h)
    ensures x.book.retired <= x.book.hosts.Keys
  {
    RecordedHosts(w.book, d);
    forall id | id in w.book.hosts ensures x.book.hosts[id] == w.book.hosts[id] {
      if h :| h in d.hosts && h.id == id {
        assert KeptHost(w, h);
      }
    }
    forall id | id in x.book.hosts && id !in w.book.hosts
      ensures exists h :: h in d.hosts && h.id == id && AddedHost(w, x, h) && x.book.hosts[id] == BirthOf(h)
    {
      var h :| h in d.hosts && h.id == id;
      assert AddedHost(w, x, h);
    }
  }

  lemma HostTokens(w: World, x: World, d: Registry)
    requires BookIsConsistent(w.book, w.minted) && UniqueHosts(d.hosts) && HostsSucceed(w, x, d)
    requires x.book == Recorded(w.book, d) && w.minted <= x.minted
    ensures forall id | id in x.book.hosts :: id in x.minted && x.book.hosts[id].token in x.minted
    ensures forall a, b | a in x.book.hosts && b in x.book.hosts
        && x.book.hosts[a].token == x.book.hosts[b].token :: a == b
  {
    HostHistory(w, x, d);
    forall a, b | a in x.book.hosts && b in x.book.hosts && x.book.hosts[a].token == x.book.hosts[b].token
      ensures a == b
    {
      if a !in w.book.hosts && b !in w.book.hosts {
        var g :| g in d.hosts && g.id == a && AddedHost(w, x, g);
        var h :| h in d.hosts && h.id == b && AddedHost(w, x, h);
      }
    }
  }

  lemma ServerHistory(w: World, x: World, d: Registry)
    requires UniqueServers(d.servers) && ServersSucceed(w, x, d) && x.book == Recorded(w.book, d)
    ensures w.book.servers.Keys <= x.book.servers.Keys
    ensures forall id | id in w.book.servers :: x.book.servers[id] == w.book.servers[id]
  {
    RecordedServers(w.book, d);
    forall id | id in w.book.servers ensures x.book.servers[id] == w.book.servers[id] {
      if v :| v in d.servers && v.id == id {
        assert KeptServer(w, x, v);
      }
    }
  }

  lemma WithIssueKeeps(q: seq<string>, r: string)
    requires Distinct(q) && (IsLast(q, r) || r !in q)
    ensures q <= WithIssue(q, r) && Distinct(WithIssue(q, r))
    ensures forall e | e in WithIssue(q, r) :: e in q || e == r
  {
  }

  /** A request enters a server's history once, when it is drawn; what was there before stays in front. */
  lemma IssueHistory(w: World, x: World, d: Registry, id: string)
    requires BookIsConsistent(w.book, w.minted) && UniqueServers(d.servers) && ServersSucceed(w, x, d)
    requires x.book == Recorded(w.book, d) && w.minted <= x.minted && id in x.book.issued
    ensures IssuedTo(w.book.issued, id) <= x.book.issued[id]
    ensures Distinct(x.book.issued[id]) && forall r | r in x.book.issued[id] :: r in x.minted && r != ""
  {
    hide Recorded, Distinct, WithIssue;
    RecordedIssues(w.book, d);
    var earlier := IssuedTo(w.book.issued, id);
    assert Distinct(earlier) && forall r | r in earlier :: r in w.minted && r != "" by {
      EarlierIssues(w.book, w.minted, id);
    }
    if v :| v in d.servers && v.id == id {
      assert x.book.issued[id] == WithIssue(earlier, v.requestId);
      assert IsLast(earlier, v.requestId) || NewRequest(w, x, v.requestId);
      assert IsLast(earlier, v.requestId) ==> v.requestId in earlier;
      WithIssueKeeps(earlier, v.requestId);
    }
  }

  lemma EarlierIssues(b: Book, minted: set<string>, id: string)
    requires BookIsConsistent(b, minted)
    ensures Distinct(IssuedTo(b.issued, id)) && forall r | r in IssuedTo(b.issued, id) :: r in minted && r != ""
  {
  }

  lemma CommitAdmits(w: World, x: World, d: Registry)
    requires BookIsConsistent(w.book, w.minted) && HostsSucceed(w, x, d) && ServersSucceed(w, x, d)
    ensures forall e: Registry | e.hosts == d.hosts && e.servers == d.servers :: Admits(w, e)
  {
    forall e: Registry | e.hosts == d.hosts && e.servers == d.servers ensures Admits(w, e) {
      forall id | id in w.book.hosts && id in HostIds(e) ensures id in HostIds(w.store.registry) {
        var h :| h in d.hosts && h.id == id;
        assert KeptHost(w, h);
      }
      forall v | v in d.servers && v.host in w.book.retired ensures v.id in ServerIds(w.store.registry) {
        assert KeptServer(w, x, v);
      }
    }
  }

  lemma DepartsIgnoresRevision(s: Registry, d: Registry, e: Registry)
    requires Departs(s, d) && e.hosts == d.hosts && e.servers == d.servers
    ensures Departs(s, e)
  {
    assert HostIds(e) == HostIds(d) && ServerIds(e) == ServerIds(d) && DeletedIds(e) == DeletedIds(d);
  }

  lemma CommitGrows(w: World, x: World, d: Registry, gone: set<string>)
    requires BookIsConsistent(w.book, w.minted) && UniqueHosts(d.hosts) && UniqueServers(d.servers)
    requires HostsSucceed(w, x, d) && ServersSucceed(w, x, d) && Commits(w, x, d, gone)
    requires (w.store.registry.deleting ==> d.deleting) && Departs(w.store.registry, d)
    ensures Grows(w, x)
  {
    hide Departs;
    CommitAdmits(w, x, d);
    DepartsIgnoresRevision(w.store.registry, d, x.store.registry);
    HostHistory(w, x, d);
    ServerHistory(w, x, d);
    RecordedIssues(w.book, d);
    forall id | id in w.book.issued ensures w.book.issued[id] <= x.book.issued[id] {
      IssueHistory(w, x, d, id);
    }
  }

  lemma HostsAreKnown(w: World, x: World, d: Registry, h: Host)
    requires w.book.retired <= w.book.hosts.Keys && UniqueHosts(d.hosts) && h in d.hosts
    requires KeptHost(w, h) || (AddedHost(w, x, h) && h.id !in w.book.hosts)
    requires x.book == Recorded(w.book, d)
    ensures h.id in x.book.hosts && x.book.hosts[h.id] == BirthOf(h) && (h.retiring <==> h.id in x.book.retired)
  {
    RecordedHosts(w.book, d);
    if h.id in x.book.retired && h.id !in w.book.retired {
      var g :| g in d.hosts && g.retiring && g.id == h.id;
      HostById(d.hosts, g, h);
    }
  }

  lemma ServersAreKnown(w: World, x: World, d: Registry, v: Server)
    requires UniqueServers(d.servers) && v in d.servers && x.book == Recorded(w.book, d)
    ensures v.id in x.book.servers && x.book.servers[v.id] == ServerBirthOf(v)
    ensures v.id in x.book.issued && IsLast(x.book.issued[v.id], v.requestId)
  {
    hide Recorded;
    RecordedServers(w.book, d);
    RecordedIssues(w.book, d);
  }

  lemma CommitKnown(w: World, x: World, d: Registry)
    requires BookIsConsistent(w.book, w.minted) && UniqueHosts(d.hosts) && UniqueServers(d.servers)
    requires HostsSucceed(w, x, d) && x.book == Recorded(w.book, d)
    ensures Known(x.book, d) && Newest(x.book, d)
  {
    forall h | h in d.hosts
      ensures h.id in x.book.hosts && x.book.hosts[h.id] == BirthOf(h) && (h.retiring <==> h.id in x.book.retired)
    {
      HostsAreKnown(w, x, d, h);
    }
    forall v | v in d.servers
      ensures v.id in x.book.servers && x.book.servers[v.id] == ServerBirthOf(v)
      ensures v.id in x.book.issued && IsLast(x.book.issued[v.id], v.requestId)
    {
      ServersAreKnown(w, x, d, v);
    }
  }

  lemma CommitBook(w: World, x: World, d: Registry)
    requires BookIsConsistent(w.book, w.minted) && UniqueHosts(d.hosts) && UniqueServers(d.servers)
    requires HostsSucceed(w, x, d) && ServersSucceed(w, x, d)
    requires x.book == Recorded(w.book, d) && w.minted <= x.minted
    ensures BookIsConsistent(x.book, x.minted)
  {
    HostHistory(w, x, d);
    HostTokens(w, x, d);
    RecordedIssues(w.book, d);
    RecordedServers(w.book, d);
    forall id | id in x.book.issued
      ensures Distinct(x.book.issued[id]) && forall r | r in x.book.issued[id] :: r in x.minted && r != ""
    {
      IssueHistory(w, x, d, id);
    }
  }

  lemma CommitResurrectsNothing(w: World, x: World, d: Registry, gone: set<string>)
    requires NothingResurrected(w.store, w.book) && UniqueServers(d.servers) && ServersSucceed(w, x, d)
    requires Commits(w, x, d, gone) && gone == ServerIds(w.store.registry) - ServerIds(d)
    ensures NothingResurrected(x.store, x.book)
  {
    ServerHistory(w, x, d);
    RecordedServers(w.book, d);
    assert ServerIds(x.store.registry) == ServerIds(d);
    forall id | id in ServerIds(d) ensures id !in x.store.tombstones {
      var v :| v in d.servers && v.id == id;
      assert KeptServer(w, x, v) || AddedServer(w, x, v);
    }
  }

  /** A commit that succeeds the current document keeps every invariant of the store. */
  lemma CommitKeeps(w: World, x: World, d: Registry, gone: set<string>)
    requires StoreInv(w) && Succeeds(w, x, d, gone) && Commits(w, x, d, gone)
    ensures StoreInv(x) && Grows(w, x)
  {
    CommitGrows(w, x, d, gone);
    CommitKnown(w, x, d);
    CommitBook(w, x, d);
    CommitResurrectsNothing(w, x, d, gone);
    SameContent(d, x.store.registry);
  }

  /** The revision number takes no part in what a document says. */
  lemma SameContent(d: Registry, e: Registry)
    requires Sound(d) && e.hosts == d.hosts && e.servers == d.servers && e.deleting == d.deleting
    ensures Sound(e) && HostIds(e) == HostIds(d) && ServerIds(e) == ServerIds(d)
  {
  }

  // -- The drafts programs prepare ----------------------------------------------------------------

  /** Edits where requests change only to a freshly drawn one. */
  ghost predicate EditsWith(w: World, x: World, d: Registry) {
    var s := w.store.registry;
    && Edits(s, d)
    && forall i | 0 <= i < |s.servers| ::
         d.servers[i].requestId == s.servers[i].requestId || NewRequest(w, x, d.servers[i].requestId)
  }

  lemma EditPedigree(w: World, x: World, d: Registry)
    requires Known(w.book, w.store.registry) && Newest(w.book, w.store.registry) && EditsWith(w, x, d)
    requires BookIsConsistent(w.book, w.minted)
    ensures HostsSucceed(w, x, d) && ServersSucceed(w, x, d)
    ensures forall h | h in d.hosts :: KeptHost(w, h)
    ensures forall v | v in d.servers :: KeptServer(w, x, v)
  {
    var s := w.store.registry;
    forall h | h in d.hosts ensures KeptHost(w, h) && !AddedHost(w, x, h) {
      var i :| 0 <= i < |d.hosts| && d.hosts[i] == h;
      assert HostEdit(s.hosts[i], d.hosts[i]) && s.hosts[i] in s.hosts;
    }
    forall v | v in d.servers ensures KeptServer(w, x, v) {
      var i :| 0 <= i < |d.servers| && d.servers[i] == v;
      assert ServerEdit(s.servers[i], d.servers[i]) && s.servers[i] in s.servers;
    }
  }

  lemma EditSucceeds(w: World, x: World, d: Registry)
    requires StoreInv(w) && EditsWith(w, x, d)
    ensures Succeeds(w, x, d, {})
  {
    EditedIsSound(w.store.registry, d);
    EditPedigree(w, x, d);
    EditsKeepDeleted(w.store.registry, d);
    NobodyDeparts(w.store.registry, d);
  }

  lemma EditsKeepDeleted(s: Registry, d: Registry)
    requires Edits(s, d)
    ensures DeletedIds(s) <= DeletedIds(d)
  {
    forall v | v in s.servers && v.desired == Deleted ensures v.id in DeletedIds(d) {
      var i :| 0 <= i < |s.servers| && s.servers[i] == v;
      assert ServerEdit(s.servers[i], d.servers[i]) && d.servers[i] in d.servers;
    }
  }

  lemma NobodyDeparts(s: Registry, d: Registry)
    requires HostIds(s) <= HostIds(d) && ServerIds(s) <= ServerIds(d) && DeletedIds(s) <= DeletedIds(d)
    ensures Departs(s, d)
  {
    assert forall h | h in s.hosts :: h.id in HostIds(s);
    assert forall v | v in s.servers :: v.id in ServerIds(s);
  }

  lemma ReleasePedigree(w: World, x: World, e: Registry, k: nat)
    requires UniqueServers(e.servers) && k < |e.servers| && HostsSucceed(w, x, e) && ServersSucceed(w, x, e)
    ensures HostsSucceed(w, x, WithoutServer(e, k)) && ServersSucceed(w, x, WithoutServer(e, k))
  {
    RemovedServers(e.servers, k);
  }

  lemma SoundIsUnique(s: Registry)
    requires Sound(s)
    ensures UniqueHosts(s.hosts) && UniqueServers(s.servers)
  {
  }

  lemma EditsKeepDeleting(w: World, x: World, d: Registry)
    requires EditsWith(w, x, d)
    ensures Edits(w.store.registry, d) && (w.store.registry.deleting ==> d.deleting)
  {
  }

  /** Dropping one server after edits made with it. */
  lemma ReleaseSucceeds(w: World, x: World, e: Registry, k: nat)
    requires StoreInv(w) && EditsWith(w, x, e) && k < |e.servers|
    requires w.store.registry.deleting || w.store.registry.servers[k].desired == Deleted
    ensures Succeeds(w, x, WithoutServer(e, k), {e.servers[k].id})
  {
    hide Sound, Known, Newest, BookIsConsistent, NothingResurrected, HostsSucceed, ServersSucceed, EditsWith, Edits;
    var s := w.store.registry;
    EditsKeepDeleting(w, x, e);
    EditedIsSound(s, e);
    SoundIsUnique(e);
    EditPedigree(w, x, e);
    ReleasedServerIsSound(e, k);
    ReleasePedigree(w, x, e, k);
    SoundIsUnique(s);
    OneDeparts(s, e, k);
    assert e.servers[k] in e.servers && e.servers[k].id in ServerIds(e);
  }

  lemma EditAt(s: Registry, e: Registry, k: nat)
    requires Edits(s, e) && k < |e.servers|
    ensures k < |s.servers| && ServerEdit(s.servers[k], e.servers[k])
  {
  }

  lemma DeletedWithout(e: Registry, k: nat)
    requires k < |e.servers|
    ensures DeletedIds(e) - {e.servers[k].id} <= DeletedIds(WithoutServer(e, k))
  {
    forall v | v in e.servers && v.desired == Deleted && v.id != e.servers[k].id
      ensures v.id in DeletedIds(WithoutServer(e, k))
    {
      assert v in WithoutServer(e, k).servers;
    }
  }

  lemma OneDeparts(s: Registry, e: Registry, k: nat)
    requires UniqueServers(s.servers) && Edits(s, e) && k < |e.servers|
        && (s.deleting || s.servers[k].desired == Deleted)
    requires ServerIds(WithoutServer(e, k)) == ServerIds(e) - {e.servers[k].id} && ServerIds(e) == ServerIds(s)
    requires HostIds(e) == HostIds(s)
    ensures Departs(s, WithoutServer(e, k))
  {
    hide Edits;
    assert ServerEdit(s.servers[k], e.servers[k]) by { EditAt(s, e, k); }
    EditsKeepDeleted(s, e);
    DeletedWithout(e, k);
    forall v | v in s.servers && v.id !in ServerIds(WithoutServer(e, k)) ensures s.deleting || v.desired == Deleted {
      assert v.id in ServerIds(s);
      ServerById(s.servers, v, s.servers[k]);
    }
    assert forall h | h in s.hosts :: h.id in HostIds(s);
  }

  lemma DropHostSucceeds(w: World, x: World, k: nat)
    requires StoreInv(w) && k < |w.store.registry.hosts| && w.store.registry.hosts[k].retiring
    requires forall v | v in w.store.registry.servers :: v.host != w.store.registry.hosts[k].id
    ensures Succeeds(w, x, WithoutHost(w.store.registry, k), {})
  {
    hide Sound, Known, Newest, BookIsConsistent, NothingResurrected, HostsSucceed, ServersSucceed, Departs, HostIds,
         EditsWith, WithoutHost;
    var s := w.store.registry;
    ReleasedHostIsSound(s, k);
    SameSucceed(w, x);
    SoundIsUnique(s);
    DropPedigree(w, x, k);
    HostDeparts(s, k);
  }

  /** The current document succeeds itself. */
  lemma SameSucceed(w: World, x: World)
    requires Known(w.book, w.store.registry) && Newest(w.book, w.store.registry)
    ensures forall h | h in w.store.registry.hosts :: KeptHost(w, h)
    ensures ServersSucceed(w, x, w.store.registry)
  {
  }

  lemma DropPedigree(w: World, x: World, k: nat)
    requires UniqueHosts(w.store.registry.hosts) && k < |w.store.registry.hosts|
    requires BookIsConsistent(w.book, w.minted) && ServersSucceed(w, x, w.store.registry)
    requires forall h | h in w.store.registry.hosts :: KeptHost(w, h)
    ensures HostsSucceed(w, x, WithoutHost(w.store.registry, k))
        && ServersSucceed(w, x, WithoutHost(w.store.registry, k))
    ensures ServerIds(WithoutHost(w.store.registry, k)) == ServerIds(w.store.registry)
    ensures WithoutHost(w.store.registry, k).deleting == w.store.registry.deleting
  {
    RemovedHosts(w.store.registry.hosts, k);
    forall h | h in w.store.registry.hosts ensures !AddedHost(w, x, h) {
      assert KeptHost(w, h);
    }
  }

  lemma HostDeparts(s: Registry, k: nat)
    requires UniqueHosts(s.hosts) && k < |s.hosts| && s.hosts[k].retiring
    requires forall v | v in s.servers :: v.host != s.hosts[k].id
    ensures Departs(s, WithoutHost(s, k))
  {
    RemovedHosts(s.hosts, k);
    var d := WithoutHost(s, k);
    forall h | h in s.hosts && h.id !in HostIds(d) ensures h.retiring && forall v | v in s.servers :: v.host != h.id {
      HostById(s.hosts, h, s.hosts[k]);
    }
    assert forall v | v in s.servers :: v.id in ServerIds(d);
  }

  /** A proposed create names a host that is open and has room, among the hosts it proposes. */
  lemma ProposalMayGrow(s: Registry, c: Config, id: string, game: Game, name: string, seen: map<string, Lifecycle>,
                        chosen: Option<Host>, drawn: Drawn, now: int)
    returns (target: Host)
    requires Sound(s) && ValidConfig(c) && game in c.games && drawn.host !in HostIds(s)
    requires IsChoice(c, s, game.resources, seen, chosen)
    requires PlanCreate(c, id, game, name, s, false, chosen, drawn, now).Propose?
    ensures var p := PlanCreate(c, id, game, name, s, false, chosen, drawn, now);
      && p.next == Grown(s, p.next.hosts, p.server) && MayGrow(s, p.next.hosts, p.server)
      && target in p.next.hosts && HasRoom(s, target, p.server)
      && p.server.id == id && p.server.requestId == drawn.request
      && (p.next.hosts == s.hosts || p.next.hosts == s.hosts + [NewHost(c, drawn, now)])
  {
    hide ValidConfig;
    var p := PlanCreate(c, id, game, name, s, false, chosen, drawn, now);
    assert id !in ServerIds(s) by {
      assert Holder(s.servers, id).None?;
    }
    assert Positive(game.resources) && AtMost(game.resources, c.capacity) && Positive(c.capacity) by {
      CatalogFits(c, game);
    }
    if chosen.Some? {
      target := chosen.value;
    } else {
      target := NewHost(c, drawn, now);
      UsedNowhere(s.servers, target.id) by {
        assert forall u | u in s.servers :: u.host in HostIds(s);
      }
      assert p.next.hosts == s.hosts + [target];
      assert target in p.next.hosts;
    }
  }

  lemma CatalogFits(c: Config, game: Game)
    requires ValidConfig(c) && game in c.games
    ensures Positive(game.resources) && AtMost(game.resources, c.capacity) && Positive(c.capacity)
  {
    assert Schedulable(game, c.capacity);
  }

  lemma AdmissionPedigree(w: World, x: World, hosts: seq<Host>, v: Server, h: Host)
    requires Known(w.book, w.store.registry) && Newest(w.book, w.store.registry) && BookIsConsistent(w.book, w.minted)
    requires hosts == w.store.registry.hosts || (hosts == w.store.registry.hosts + [h] && AddedHost(w, x, h))
    requires v.id !in w.book.servers && v.host !in w.book.retired && NewRequest(w, x, v.requestId)
    ensures HostsSucceed(w, x, Grown(w.store.registry, hosts, v))
    ensures ServersSucceed(w, x, Grown(w.store.registry, hosts, v))
  {
    var s := w.store.registry;
    var d := Grown(s, hosts, v);
    forall g | g in s.hosts ensures KeptHost(w, g) && !AddedHost(w, x, g) {
    }
    assert forall g | g in d.hosts :: g in s.hosts || g == h;
    forall u | u in d.servers ensures KeptServer(w, x, u) || AddedServer(w, x, u) {
      if u != v {
        assert u in s.servers;
      }
    }
  }

  /** An admitted create, prepared from the current document with fresh identities. */
  lemma AdmissionSucceeds(w: World, x: World, c: Config, id: string, game: Game, name: string,
                          seen: map<string, Lifecycle>, chosen: Option<Host>, drawn: Drawn, now: int)
    requires StoreInv(w) && ValidConfig(c) && game in c.games
    requires IsChoice(c, w.store.registry, game.resources, seen, chosen)
    requires id !in w.store.tombstones
    requires PlanCreate(c, id, game, name, w.store.registry, false, chosen, drawn, now).Propose?
    requires Unused(w, drawn.host) && Unused(w, drawn.launch) && Unused(w, drawn.request)
    requires w.minted + {drawn.host, drawn.launch, drawn.request} <= x.minted
    ensures Succeeds(w, x, PlanCreate(c, id, game, name, w.store.registry, false, chosen, drawn, now).next, {})
  {
    hide Sound, ValidConfig, IsChoice, MayGrow, HasRoom, Newest, HostsSucceed, ServersSucceed;
    var s := w.store.registry;
    var plan := PlanCreate(c, id, game, name, s, false, chosen, drawn, now);
    assert drawn.host !in HostIds(s);
    var target := ProposalMayGrow(s, c, id, game, name, seen, chosen, drawn, now);
    AdmittedIsSound(s, plan.next.hosts, plan.server, target);
    assert id !in ServerIds(s) by { GrownIsNew(s, plan.next.hosts, plan.server); }
    TargetIsOpen(w, plan.next.hosts, plan.server, NewHost(c, drawn, now), target);
    AdmissionPedigree(w, x, plan.next.hosts, plan.server, NewHost(c, drawn, now));
    NobodyDeparts(s, plan.next) by { GrownHostIds(s, plan.next.hosts, plan.server); }
  }

  lemma GrownHostIds(s: Registry, hosts: seq<Host>, v: Server)
    requires MayGrow(s, hosts, v)
    ensures HostIds(s) <= HostIds(Grown(s, hosts, v)) && ServerIds(s) <= ServerIds(Grown(s, hosts, v))
    ensures DeletedIds(s) <= DeletedIds(Grown(s, hosts, v))
  {
    assert forall x | x in s.servers :: x in s.servers + [v];
  }

  lemma TargetIsOpen(w: World, hosts: seq<Host>, v: Server, h: Host, target: Host)
    requires Newest(w.book, w.store.registry) && w.book.retired <= w.book.hosts.Keys && h.id !in w.book.hosts
    requires hosts == w.store.registry.hosts || hosts == w.store.registry.hosts + [h]
    requires target in hosts && HasRoom(w.store.registry, target, v)
    ensures v.host !in w.book.retired
  {
  }

  lemma GrownIsNew(s: Registry, hosts: seq<Host>, v: Server)
    requires MayGrow(s, hosts, v)
    ensures v.id !in ServerIds(s)
  {
  }
}
