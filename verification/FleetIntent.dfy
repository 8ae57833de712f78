/** From a request in the registry to the host that acts on it: each request is applied at most once, in order. */
module FleetIntent {
  import opened FleetState
  import opened FleetPlacement
  import opened FleetStore
  import opened FleetPlan
  import opened Controller
  import opened FleetWorld
  import opened FleetHistory
  import opened FleetSafety
  import opened FleetTheorems
  import opened FleetTraces
  import Runs = ControllerRuns

  // -- Subsequences -------------------------------------------------------------------------------

  predicate Subsequence(a: seq<string>, q: seq<string>) {
    || a == []
    || (q != []
        && ((a[|a| - 1] == q[|q| - 1] && Subsequence(a[..|a| - 1], q[..|q| - 1])) || Subsequence(a, q[..|q| - 1])))
  }

  lemma {:induction false} SubsequenceOfLonger(a: seq<string>, q: seq<string>, r: seq<string>)
    requires Subsequence(a, q) && q <= r
    ensures Subsequence(a, r)
  {
    if |q| == |r| {
      assert q == r;
    } else {
      SubsequenceOfLonger(a, q, r[..|r| - 1]);
    }
  }

  lemma {:induction false} SubsequenceMembers(a: seq<string>, q: seq<string>)
    requires Subsequence(a, q)
    ensures forall r | r in a :: r in q
  {
    if a != [] {
      var last := q[..|q| - 1];
      if a[|a| - 1] == q[|q| - 1] && Subsequence(a[..|a| - 1], last) {
        SubsequenceMembers(a[..|a| - 1], last);
        assert a == a[..|a| - 1] + [a[|a| - 1]];
      } else {
        SubsequenceMembers(a, last);
      }
    }
  }

  lemma {:induction false} SubsequenceIsDistinct(a: seq<string>, q: seq<string>)
    requires Subsequence(a, q) && Distinct(q)
    ensures Distinct(a)
  {
    if a != [] {
      var last := q[..|q| - 1];
      if a[|a| - 1] == q[|q| - 1] && Subsequence(a[..|a| - 1], last) {
        SubsequenceIsDistinct(a[..|a| - 1], last);
        SubsequenceMembers(a[..|a| - 1], last);
        assert forall i | 0 <= i < |a| - 1 :: a[i] == a[..|a| - 1][i] && a[i] in last;
      } else {
        SubsequenceIsDistinct(a, last);
      }
    }
  }

  /** `a` picks from `q` no further than the request `r`. */
  ghost predicate UpTo(a: seq<string>, q: seq<string>, r: string) {
    exists n :: 0 <= n < |q| && q[n] == r && Subsequence(a, q[..n + 1])
  }

  function Last(a: seq<string>): string {
    if a == [] then "" else a[|a| - 1]
  }

  /** A request that is last in `q` but not in `a` may be appended to `a`. */
  lemma AppendLast(a: seq<string>, q: seq<string>, r: string)
    requires Subsequence(a, q + [r]) && (a == [] || Last(a) != r)
    ensures Subsequence(a + [r], q + [r])
  {
    assert (q + [r])[..|q|] == q;
    assert Subsequence(a, q);
    assert (a + [r])[..|a|] == a;
  }

  /** The next applied request extends the subsequence, provided it differs from the one before. */
  lemma UpToExtends(a: seq<string>, q: seq<string>, r: string)
    requires UpTo(a, q, r) && (a == [] || Last(a) != r)
    ensures UpTo(a + [r], q, r)
  {
    hide Subsequence;
    var n :| 0 <= n < |q| && q[n] == r && Subsequence(a, q[..n + 1]);
    assert q[..n + 1] == q[..n] + [r];
    AppendLast(a, q[..n], r);
  }

  lemma UpToIsSubsequence(a: seq<string>, q: seq<string>, r: string)
    requires UpTo(a, q, r)
    ensures Subsequence(a, q)
  {
    var n :| 0 <= n < |q| && q[n] == r && Subsequence(a, q[..n + 1]);
    SubsequenceOfLonger(a, q[..n + 1], q);
  }

  lemma UpToLast(a: seq<string>, q: seq<string>, r: string)
    requires Subsequence(a, q) && IsLast(q, r)
    ensures UpTo(a, q, r)
  {
    assert q[..|q| - 1 + 1] == q;
  }

  lemma UpToStays(a: seq<string>, q: seq<string>, p: seq<string>, r: string)
    requires UpTo(a, q, r) && q <= p
    ensures UpTo(a, p, r)
  {
    var n :| 0 <= n < |q| && q[n] == r && Subsequence(a, q[..n + 1]);
    assert q[..n + 1] == p[..n + 1];
  }

  // -- Invariant ----------------------------------------------------------------------------------

  /** The request an instance on a host recorded last; none reads as the empty string. */
  function RequestIn(local: Local, id: string): string {
    if id in local.store then local.store[id].startRequestId else ""
  }

  predicate LivesOn(b: Book, id: string, host: string) {
    id in b.servers && b.servers[id].host == host
  }

  /** Each host remembers the last request it applied to each of its servers, and knows no other requests. */
  ghost predicate Remembered(w: World) {
    forall host, id ::
      RequestIn(LocalOf(w, host), id) == if LivesOn(w.book, id, host) then Last(AppliedTo(w, id)) else ""
  }

  ghost predicate Ordered(w: World) {
    && w.applied.Keys <= w.book.issued.Keys
    && forall id | id in w.applied :: Subsequence(w.applied[id], w.book.issued[id])
  }

  predicate OneWorkerEach(w: World) {
    forall p, r | p in w.programs && r in w.programs && WorkerHost(w.programs[p]).Some?
                  && WorkerHost(w.programs[p]) == WorkerHost(w.programs[r]) :: p == r
  }

  /** Nothing beyond what a worker's document asks for was applied on its host. */
  ghost predicate NotAhead(w: World, host: string, s: Registry) {
    forall v | v in s.servers && v.host == host ::
      v.id in w.book.issued && UpTo(AppliedTo(w, v.id), w.book.issued[v.id], v.requestId)
  }

  ghost predicate ProgramNotAhead(w: World, q: Program) {
    WorkerSnap(q).Some? ==> WorkerHost(q).Some? && NotAhead(w, WorkerHost(q).value, WorkerSnap(q).value)
  }

  ghost predicate IntentInv(w: World) {
    && Remembered(w) && Ordered(w) && OneWorkerEach(w)
    && forall p | p in w.programs :: ProgramNotAhead(w, w.programs[p])
  }

  // -- Steps that apply nothing -------------------------------------------------------------------

  lemma NotAheadStays(w: World, x: World, host: string, s: Registry)
    requires NotAhead(w, host, s) && Grows(w, x) && x.applied == w.applied
    ensures NotAhead(x, host, s)
  {
    hide UpTo, FleetHistory.Admits, Departs;
    forall v | v in s.servers && v.host == host
      ensures v.id in x.book.issued && UpTo(AppliedTo(x, v.id), x.book.issued[v.id], v.requestId)
    {
      UpToStays(AppliedTo(w, v.id), w.book.issued[v.id], x.book.issued[v.id], v.requestId);
    }
  }

  lemma NewServersAreUntouched(w: World, x: World)
    requires BookIsConsistent(w.book, w.minted) && Grows(w, x) && x.locals == w.locals && x.applied == w.applied
    requires Remembered(w) && Ordered(w)
    ensures Remembered(x)
  {
    hide FleetHistory.Admits, Departs, Subsequence;
    forall host, id
      ensures RequestIn(LocalOf(x, host), id) == if LivesOn(x.book, id, host) then Last(AppliedTo(x, id)) else ""
    {
      assert RequestIn(LocalOf(w, host), id) == if LivesOn(w.book, id, host) then Last(AppliedTo(w, id)) else "";
      assert id !in w.book.servers ==> AppliedTo(w, id) == [];
    }
  }

  lemma OrderStays(w: World, x: World)
    requires Ordered(w) && Grows(w, x) && x.applied == w.applied
    ensures Ordered(x)
  {
    hide FleetHistory.Admits, Departs, Subsequence;
    forall id | id in x.applied ensures Subsequence(x.applied[id], x.book.issued[id]) {
      SubsequenceOfLonger(x.applied[id], w.book.issued[id], x.book.issued[id]);
    }
  }

  lemma CalmKeeps(w: World, x: World, p: nat)
    requires BookIsConsistent(w.book, w.minted) && IntentInv(w) && Grows(w, x) && Calm(w, x, p)
    requires OneWorkerEach(x)
    requires p in x.programs ==> ProgramNotAhead(x, x.programs[p])
    ensures IntentInv(x)
  {
    hide Grows, Remembered, Ordered, NotAhead, BookIsConsistent, OneWorkerEach;
    NewServersAreUntouched(w, x);
    OrderStays(w, x);
    forall r | r in x.programs ensures ProgramNotAhead(x, x.programs[r]) {
      if r != p && WorkerSnap(x.programs[r]).Some? {
        assert ProgramNotAhead(w, w.programs[r]);
        NotAheadStays(w, x, WorkerHost(w.programs[r]).value, WorkerSnap(w.programs[r]).value);
      }
    }
  }

  lemma SameWorkerKeeps(w: World, x: World, p: nat)
    requires BookIsConsistent(w.book, w.minted) && IntentInv(w) && Grows(w, x) && Calm(w, x, p) && SameWorker(w, x, p)
    ensures IntentInv(x)
  {
    hide Grows, Remembered, Ordered, NotAhead, BookIsConsistent;
    if p in x.programs && WorkerSnap(x.programs[p]).Some? {
      assert ProgramNotAhead(w, w.programs[p]);
      NotAheadStays(w, x, WorkerHost(w.programs[p]).value, WorkerSnap(w.programs[p]).value);
    }
    CalmKeeps(w, x, p);
  }

  // -- Loading ------------------------------------------------------------------------------------

  /** A freshly loaded document carries every server's newest request, so nothing can be ahead of it. */
  lemma CurrentIsNotBehind(w: World, host: string)
    requires StoreInv(w) && Ordered(w)
    ensures NotAhead(w, host, w.store.registry)
  {
    hide Sound, Known, NothingResurrected, Subsequence, UpTo;
    forall v | v in w.store.registry.servers && v.host == host
      ensures v.id in w.book.issued && UpTo(AppliedTo(w, v.id), w.book.issued[v.id], v.requestId)
    {
      assert IsLast(w.book.issued[v.id], v.requestId);
      UpToLast(AppliedTo(w, v.id), w.book.issued[v.id], v.requestId);
    }
  }

  lemma LoadedIsNotAhead(w: World, q: Program)
    requires StoreInv(w) && Ordered(w) && AfterLoad(q, w.store.registry).Some?
    ensures ProgramNotAhead(w, AfterLoad(q, w.store.registry).value)
    ensures var next := AfterLoad(q, w.store.registry).value;
      WorkerHost(next).Some? ==> WorkerHost(next) == WorkerHost(q)
  {
    hide StoreInv, Ordered, NotAhead;
    if q.WorkerBegin? {
      CurrentIsNotBehind(w, q.host);
    }
  }

  lemma LoadKeepsIntent(w: World, p: nat, x: World)
    requires Inv(w) && IntentInv(w) && p in w.programs && LoadStep(w, p, w.programs[p], x) && Grows(w, x)
    ensures IntentInv(x)
  {
    hide StoreInv, MachineInv, AfterLoad, Grows, Remembered, Ordered, NotAhead, ProgramOk;
    assert BookIsConsistent(w.book, w.minted) by { StoreBook(w); }
    LoadedIsNotAhead(w, w.programs[p]);
    var next := AfterLoad(w.programs[p], w.store.registry).value;
    if WorkerSnap(next).Some? {
      NotAheadStays(w, x, WorkerHost(next).value, WorkerSnap(next).value);
    }
    CalmKeeps(w, x, p);
  }

  lemma StoreBook(w: World)
    requires StoreInv(w)
    ensures BookIsConsistent(w.book, w.minted)
  {
  }

  // -- Serving ------------------------------------------------------------------------------------

  /** A transaction records the served server's own request or leaves its record alone; no other is touched. */
  ghost predicate RecordsOwn(before: Local, after: Local, v: Server) {
    && (forall id | id != v.id :: RequestIn(after, id) == RequestIn(before, id))
    && (RequestIn(after, v.id) == RequestIn(before, v.id)
        || (v.id in after.store && RequestIn(after, v.id) == v.requestId))
  }

  lemma ServeRecords(local: Local, setup: Setup, v: Server, host: string, seen: Option<Instance>, now: int)
    ensures RecordsOwn(local, Serve(local, setup, v, host, seen, now).local, v)
  {
    hide Observed, Wellformed, SameSettings, StartupExpired, LocallyReady, Trimmed;
  }

  lemma AskRecords(local: Local, v: Server, host: string, i: Instance, startedAt: int, now: int)
    ensures RecordsOwn(local, Ask(local, v, host, i, startedAt, now).local, v)
  {
    hide Observed;
  }

  lemma AppliedGrows(w: World, v: Server, before: Local, after: Local)
    requires RequestIn(after, v.id) == RequestIn(before, v.id)
             || (v.id in after.store && RequestIn(after, v.id) == v.requestId)
    ensures RequestIn(after, v.id) == RequestIn(before, v.id) ==>
              AppliedAfter(w, v.id, before, after) == w.applied
    ensures RequestIn(after, v.id) != RequestIn(before, v.id) ==>
              AppliedAfter(w, v.id, before, after) == w.applied[v.id := AppliedTo(w, v.id) + [v.requestId]]
  {
  }

  /** The applied requests of the served server after a serve that recorded a request it had not recorded before. */
  lemma ServedIsRemembered(w: World, x: World, host: string, v: Server)
    requires Remembered(w) && LivesOn(w.book, v.id, host)
    requires x.book == w.book && (forall h | h != host :: LocalOf(x, h) == LocalOf(w, h))
    requires forall id | id != v.id :: RequestIn(LocalOf(x, host), id) == RequestIn(LocalOf(w, host), id)
    requires forall id | id != v.id :: AppliedTo(x, id) == AppliedTo(w, id)
    requires RequestIn(LocalOf(x, host), v.id) == Last(AppliedTo(x, v.id))
    ensures Remembered(x)
  {
    forall h, id
      ensures RequestIn(LocalOf(x, h), id) == if LivesOn(x.book, id, h) then Last(AppliedTo(x, id)) else ""
    {
      assert RequestIn(LocalOf(w, h), id) == if LivesOn(w.book, id, h) then Last(AppliedTo(w, id)) else "";
    }
  }

  /** A worker that recorded a new request is not ahead of its own document, and no other worker serves that host. */
  lemma ServedIsNotAhead(w: World, x: World, host: string, s: Registry, v: Server)
    requires NotAhead(w, host, s) && UniqueServers(s.servers) && v in s.servers && v.host == host
    requires x.book == w.book && x.applied == w.applied[v.id := AppliedTo(w, v.id) + [v.requestId]]
    requires Last(AppliedTo(w, v.id)) != v.requestId
    ensures NotAhead(x, host, s)
  {
    hide UpTo;
    forall u | u in s.servers && u.host == host
      ensures u.id in x.book.issued && UpTo(AppliedTo(x, u.id), x.book.issued[u.id], u.requestId)
    {
      if u.id == v.id {
        ServerById(s.servers, u, v);
        UpToExtends(AppliedTo(w, v.id), w.book.issued[v.id], v.requestId);
      }
    }
  }

  lemma OthersNotAhead(w: World, x: World, host: string, s: Registry, id: string)
    requires NotAhead(w, host, s) && Known(w.book, s) && x.book == w.book && !LivesOn(w.book, id, host)
    requires forall k | k != id :: AppliedTo(x, k) == AppliedTo(w, k)
    ensures NotAhead(x, host, s)
  {
    hide UpTo;
    forall u | u in s.servers && u.host == host
      ensures u.id in x.book.issued && UpTo(AppliedTo(x, u.id), x.book.issued[u.id], u.requestId)
    {
      assert w.book.servers[u.id] == ServerBirthOf(u);
    }
  }

  /** The snapshot a worker serves from names a server of the worker's own host. */
  lemma WorkerServesOwn(w: World, q: Program)
    requires Serving(q) && ProgramOk(w, q)
    ensures q.i < |q.snap.servers| && Known(w.book, q.snap) && UniqueServers(q.snap.servers)
    ensures LivesOn(w.book, q.snap.servers[q.i].id, q.host) && q.snap.servers[q.i].host == q.host
    ensures q.snap.servers[q.i].id in w.book.issued
  {
    hide Instances;
    assert q.snap.servers[q.i] in q.snap.servers;
  }

  lemma SnapIsKnown(w: World, q: Program)
    requires ProgramOk(w, q) && WorkerSnap(q).Some?
    ensures Known(w.book, WorkerSnap(q).value)
  {
    hide Instances, Sound, Known;
  }

  /** What the transaction recorded is next in line: records, order and the worker's own document agree again. */
  lemma TransactionIsOrdered(w: World, q: Program, done: Service, x: World)
    requires Remembered(w) && Ordered(w) && Serving(q) && ProgramOk(w, q) && NotAhead(w, q.host, q.snap)
    requires var v := q.snap.servers[q.i];
      && RecordsOwn(LocalOf(w, q.host), done.local, v)
      && x.book == w.book && x.locals == w.locals[q.host := done.local]
      && x.applied == AppliedAfter(w, v.id, LocalOf(w, q.host), done.local)
    ensures Remembered(x) && Ordered(x) && NotAhead(x, q.host, q.snap)
  {
    hide Remembered, Ordered, NotAhead, ProgramOk, AppliedAfter, Known, UpTo;
    var v := q.snap.servers[q.i];
    var before := LocalOf(w, q.host);
    WorkerServesOwn(w, q);
    AppliedGrows(w, v, before, done.local);
    assert v in q.snap.servers;
    assert RequestIn(before, v.id) == Last(AppliedTo(w, v.id)) by { RememberedHere(w, q.host, v.id); }
    ServedIsRemembered(w, x, q.host, v);
    if RequestIn(done.local, v.id) == RequestIn(before, v.id) {
      SameHistory(w, x);
    } else {
      ServedIsNotAhead(w, x, q.host, q.snap, v);
      ServedIsOrdered(w, x, q.host, q.snap, v);
    }
  }

  /** Workers of other hosts hold no document that names the served server as theirs. */
  lemma OtherWorkersStay(w: World, x: World, p: nat, r: nat, id: string)
    requires Inv(w) && IntentInv(w) && p in w.programs && r in w.programs && r != p
    requires WorkerHost(w.programs[p]).Some? && LivesOn(w.book, id, WorkerHost(w.programs[p]).value)
    requires x.book == w.book && forall k | k != id :: AppliedTo(x, k) == AppliedTo(w, k)
    ensures ProgramNotAhead(x, w.programs[r])
  {
    hide StoreInv, MachineInv, Remembered, Ordered, NotAhead, ProgramOk, Known;
    var q := w.programs[r];
    if WorkerSnap(q).Some? {
      assert ProgramNotAhead(w, q) && ProgramOk(w, q);
      SnapIsKnown(w, q);
      OthersNotAhead(w, x, WorkerHost(q).value, WorkerSnap(q).value, id);
    }
  }

  lemma TransactionKeepsIntent(w: World, p: nat, done: Service, x: World)
    requires Inv(w) && IntentInv(w) && p in w.programs && Serving(w.programs[p])
        && Transacts(w, p, w.programs[p], done, x)
    requires RecordsOwn(LocalOf(w, w.programs[p].host), done.local, w.programs[p].snap.servers[w.programs[p].i])
    ensures IntentInv(x)
  {
    hide Inv, StoreInv, MachineInv, Remembered, Ordered, NotAhead, ProgramOk, AppliedAfter, Known, UpTo, RecordsOwn,
         AfterTurn;
    var q := w.programs[p];
    var v := q.snap.servers[q.i];
    ProgramIsOk(w, p);
    TurnIsSameWorker(q, done.turn);
    assert ProgramNotAhead(w, q);
    TransactionIsOrdered(w, q, done, x);
    WorkerServesOwn(w, q);
    assert forall k | k != v.id :: AppliedTo(x, k) == AppliedTo(w, k) by {
      OnlyServed(w, v.id, LocalOf(w, q.host), done.local);
    }
    forall r | r in x.programs ensures ProgramNotAhead(x, x.programs[r]) {
      if r != p {
        OtherWorkersStay(w, x, p, r, v.id);
      }
    }
  }

  lemma OnlyServed(w: World, id: string, before: Local, after: Local)
    ensures forall k | k != id :: AppliedTo(w.(applied := AppliedAfter(w, id, before, after)), k) == AppliedTo(w, k)
  {
  }

  lemma ServeKeepsIntent(w: World, p: nat, setup: Setup, now: int, x: World)
    requires Inv(w) && IntentInv(w) && p in w.programs && ServeStep(w, p, w.programs[p], setup, now, x)
    ensures IntentInv(x)
  {
    hide Inv, IntentInv, Serve, RecordsOwn, Transacts;
    var q := w.programs[p];
    var v := q.snap.servers[q.i];
    ServeRecords(LocalOf(w, q.host), setup, v, q.host, q.seen, now);
    TransactionKeepsIntent(w, p, Serve(LocalOf(w, q.host), setup, v, q.host, q.seen, now), x);
  }

  lemma AskKeepsIntent(w: World, p: nat, setup: Setup, now: int, x: World)
    requires Inv(w) && IntentInv(w) && p in w.programs && AskStep(w, p, w.programs[p], setup, now, x)
    ensures IntentInv(x)
  {
    hide Inv, IntentInv, Ask, RecordsOwn, Transacts;
    var q := w.programs[p];
    var v := q.snap.servers[q.i];
    AskRecords(LocalOf(w, q.host), v, q.host, q.instance, setup.startedAt, now);
    TransactionKeepsIntent(w, p, Ask(LocalOf(w, q.host), v, q.host, q.instance, setup.startedAt, now), x);
  }

  lemma RememberedHere(w: World, host: string, id: string)
    requires Remembered(w) && LivesOn(w.book, id, host)
    ensures RequestIn(LocalOf(w, host), id) == Last(AppliedTo(w, id))
  {
  }

  lemma SameHistory(w: World, x: World)
    requires Ordered(w) && x.book == w.book && x.applied == w.applied
    ensures Ordered(x)
    ensures forall host, s :: NotAhead(w, host, s) ==> NotAhead(x, host, s)
  {
    hide UpTo, Subsequence;
  }

  lemma ServedIsOrdered(w: World, x: World, host: string, s: Registry, v: Server)
    requires Ordered(w) && NotAhead(x, host, s) && v in s.servers && v.host == host
    requires x.book == w.book && x.applied == w.applied[v.id := AppliedTo(w, v.id) + [v.requestId]]
    ensures Ordered(x)
  {
    hide Subsequence;
    UpToIsSubsequence(x.applied[v.id], x.book.issued[v.id], v.requestId);
  }

  // -- Every step ---------------------------------------------------------------------------------

  lemma LocalKeepsIntent(w: World, host: string, after: Local, x: World)
    requires IntentInv(w) && LocalMove(LocalOf(w, host), after) && x == w.(locals := w.locals[host := after])
    ensures IntentInv(x)
  {
    hide UpTo, Subsequence;
    forall h, id
      ensures RequestIn(LocalOf(x, h), id) == if LivesOn(x.book, id, h) then Last(AppliedTo(x, id)) else ""
    {
      assert RequestIn(LocalOf(w, h), id) == if LivesOn(w.book, id, h) then Last(AppliedTo(w, id)) else "";
    }
    forall p | p in x.programs ensures ProgramNotAhead(x, x.programs[p]) {
      assert ProgramNotAhead(w, w.programs[p]);
    }
  }

  lemma SpawnKeepsIntent(w: World, p: nat, q: Program, x: World)
    requires BookIsConsistent(w.book, w.minted) && IntentInv(w) && Grows(w, x)
    requires p !in w.programs && MayBegin(w, q) && x == Resumed(w, p, q)
    ensures IntentInv(x)
  {
    hide Grows, Remembered, Ordered, BookIsConsistent;
    CalmKeeps(w, x, p);
  }

  lemma OtherStepKeepsIntent(w: World, e: Event, x: World)
    requires BookIsConsistent(w.book, w.minted) && Inv(w) && IntentInv(w) && Grows(w, x)
    requires (WorkerStep(w, e, x) || ReaderStep(w, e, x)) && !AppliesNothing(e)
    ensures IntentInv(x)
  {
    hide Inv, IntentInv, Grows, BookIsConsistent, MayBegin, LoadStep, CheckStep, ReadStep, ServeStep, AskStep,
         RereadStep, PublishStep, StumbleStep, LocalMove;
    match e
    case Spawn(p, q) => SpawnKeepsIntent(w, p, q, x);
    case Load(p) => LoadKeepsIntent(w, p, x);
    case WorkerServes(p, setup, now) => ServeKeepsIntent(w, p, setup, now, x);
    case WorkerAsks(p, setup, now) => AskKeepsIntent(w, p, setup, now, x);
    case LocalMoves(host, after) => LocalKeepsIntent(w, host, after, x);
  }

  lemma StepKeepsIntent(w: World, e: Event, x: World)
    requires Inv(w) && IntentInv(w) && Step(w, e, x)
    ensures IntentInv(x)
  {
    hide StoreInv, MachineInv, IntentInv, Grows, MachinesGrow, BookIsConsistent, Step, ProgramOk, Calm, SameWorker,
         Submission, Provision, WorkerStep, ReaderStep;
    StepKeepsInv(w, e, x);
    StoreBook(w);
    if AppliesNothing(e) {
      StepContinues(w, e, x);
      SameWorkerKeeps(w, x, Mover(e));
    } else {
      StepIsOfItsKind(w, e, x);
      OtherStepKeepsIntent(w, e, x);
    }
  }

  lemma {:induction false} RunKeepsIntent(ws: seq<World>, es: seq<Event>, i: nat)
    requires IsRun(ws, es) && i < |ws|
    ensures Inv(ws[i]) && IntentInv(ws[i])
  {
    hide Step, Inv, IntentInv;
    RunKeepsInv(ws, es, i);
    if i == 0 {
      InitialIntent();
    } else {
      RunKeepsIntent(ws, es, i - 1);
      IsStep(ws, es, i - 1);
      StepKeepsIntent(ws[i - 1], es[i - 1], ws[i]);
    }
  }

  lemma InitialIntent()
    ensures IntentInv(INITIAL)
  {
    forall host, id
      ensures RequestIn(LocalOf(INITIAL, host), id)
           == if LivesOn(INITIAL.book, id, host) then Last(AppliedTo(INITIAL, id)) else ""
    {
    }
  }

  // -- Exactly once -------------------------------------------------------------------------------

  /**
   * End to end: what a host applied to a server is a duplicate-free subsequence of what was issued for it, and the
   * host still remembers the last of it.
   */
  lemma RequestsApplyOnceInOrder(ws: seq<World>, es: seq<Event>, i: nat, id: string)
    requires IsRun(ws, es) && i < |ws| && id in ws[i].book.servers
    ensures id in ws[i].book.issued && Distinct(ws[i].book.issued[id])
    ensures Subsequence(AppliedTo(ws[i], id), ws[i].book.issued[id]) && Distinct(AppliedTo(ws[i], id))
    ensures RequestIn(LocalOf(ws[i], ws[i].book.servers[id].host), id) == Last(AppliedTo(ws[i], id))
  {
    hide Step, MachineInv, Sound, Known, Newest, NothingResurrected;
    RunKeepsIntent(ws, es, i);
    RememberedHere(ws[i], ws[i].book.servers[id].host, id);
    SubsequenceIsDistinct(AppliedTo(ws[i], id), ws[i].book.issued[id]);
  }

  /**
   * Handing over a request the host has recorded changes nothing, and no transaction of a sync about such a request
   * brings back a game that was stopped since.
   */
  lemma RetryNeverRestarts(local: Local, setup: Setup, v: Server, host: string, seen: Option<Instance>, i: Instance,
                           now: int)
    requires v.id in local.store && local.store[v.id].startRequestId == v.requestId
    ensures Ask(local, v, host, i, setup.startedAt, now).local == local
    ensures var after := Serve(local, setup, v, host, seen, now).local;
      && v.id in after.store
      && (after.store[v.id].desired == Running ==> local.store[v.id].desired == Running)
      && (!StartupExpired(v, now) || LocallyReady(v, seen, setup.startedAt, now) ==> after == local)
  {
    hide Observed, Wellformed, SameSettings, StartupExpired, LocallyReady, Trimmed;
    RepeatedRequestIsIgnored(local, v.id, v.requestId, v.desired, now);
  }

  /** The controller's own steps, across restarts, are the local moves the fleet allows beside its worker. */
  lemma ControllerStepsAreLocalMoves(games: set<string>, providers: set<string>, n: Runs.Node, e: Runs.Event,
                                     m: Runs.Node)
    requires Runs.Inv(n) && Runs.Step(games, providers, n, e, m)
    requires e.User? ==> !e.user.Requests? && (e.user.Creates? ==> e.user.requestId == "")
    ensures LocalMove(n.local, m.local)
  {
    forall id | id in n.local.store
      ensures id in m.local.store && m.local.store[id].startRequestId == n.local.store[id].startRequestId
    {
      hide Runs.Inv, Runs.Step;
      Runs.StoredFollows(games, providers, n, e, m, id);
    }
    AddedIsUnasked(games, providers, n, e, m);
  }

  lemma AddedIsUnasked(games: set<string>, providers: set<string>, n: Runs.Node, e: Runs.Event, m: Runs.Node)
    requires Runs.Step(games, providers, n, e, m)
    requires e.User? ==> !e.user.Requests? && (e.user.Creates? ==> e.user.requestId == "")
    ensures forall id | id in m.local.store && id !in n.local.store :: m.local.store[id].startRequestId == ""
  {
    hide Runs.Next, Runs.WithFinding, Runs.WithTimeout, WithDesired, Wellformed, SameSettings, Trimmed;
  }

  /** A pass keeps each server or refreshes it from the report filed under its ID. */
  lemma PassRefreshes(c: Config, s: Registry, reports: map<string, Report>, now: int, plan: PassPlan, u: Server)
    requires IsPass(c, s, reports, now, plan) && u in plan.next.servers
    ensures exists v :: v in s.servers && v.id == u.id
              && (u == v || u == Refreshed(v, ReportOf(reports, v.id), s.deleting || Expired(c, now), now))
  {
    hide Refreshed, AllRetired, RemovalDone, Retires, Touched;
    var k := PassStops(c, s, reports, now, plan);
    var servers := AllRefreshed(s.servers, reports, s.deleting || Expired(c, now), now);
    var i :| 0 <= i < |plan.next.servers| && plan.next.servers[i] == u;
    if plan.Keep? {
      KeepsId(s.servers[i], ReportOf(reports, s.servers[i].id), s.deleting || Expired(c, now), now);
      assert s.servers[i] in s.servers;
    } else if i < k {
      KeepsId(s.servers[i], ReportOf(reports, s.servers[i].id), s.deleting || Expired(c, now), now);
      assert u == servers[i] && s.servers[i] in s.servers;
    } else {
      assert u == s.servers[i + 1] && s.servers[i + 1] in s.servers;
    }
  }

  lemma KeepsId(v: Server, r: Report, deleting: bool, now: int)
    ensures Refreshed(v, r, deleting, now).id == v.id
  {
  }

  /** Refreshing changes an intent only to copy a stop that was reported for the server's own request. */
  lemma RefreshMirrors(v: Server, r: Report, deleting: bool, now: int)
    ensures var u := Refreshed(v, r, deleting, now);
      u.requestId == v.requestId && (u.desired != v.desired ==> u.desired == Stopped && StoppedLocally(v, r))
  {
  }

  lemma PassCommits(w: World, p: nat, reports: map<string, Report>, plan: PassPlan, now: int, told: Outcome, x: World)
    requires Inv(w) && p in w.programs && PassStep(w, p, w.programs[p], reports, plan, now, told, x)
    ensures var q := w.programs[p];
      || x.store.registry == w.store.registry
      || (q.snap == w.store.registry && x.store.registry.servers == plan.next.servers)
  {
    hide StoreInv, MachineInv, SnapOk, Recorded, IsPass, Swap, ForgetOutcome;
    var q := w.programs[p];
    assert ProgramOk(w, q);
    if plan.Release? && ForgetOutcome(w.store, plan.next, q.snap.revision, plan.id).Committed? {
      ForgetNeedsCurrent(w, q.snap, plan.next, plan.id);
    }
    if plan.Keep? && plan.changed && Swap(w.store, plan.next, q.snap.revision).Committed? {
      SwapNeedsCurrent(w, q.snap, plan.next);
    }
  }

  /**
   * A pass that commits gives no server a new request, and changes an intent only to mirror a stop that its own host
   * reported for the newest request; it never overrides a start issued later.
   */
  lemma MirroredStopIsCurrent(w: World, p: nat, reports: map<string, Report>, plan: PassPlan, now: int, told: Outcome,
                              x: World, v: Server, u: Server)
    requires Inv(w) && p in w.programs && PassStep(w, p, w.programs[p], reports, plan, now, told, x)
    requires v in w.store.registry.servers && u in x.store.registry.servers && u.id == v.id
    ensures u.requestId == v.requestId && IsLast(w.book.issued[v.id], v.requestId)
    ensures u.desired != v.desired ==>
      && v.desired == Running && u.desired == Stopped && v.id in reports
      && reports[v.id].host == v.host && reports[v.id].requestId == v.requestId && reports[v.id].desired == Stopped
  {
    hide MachineInv, Known, BookIsConsistent, NothingResurrected, WithinCapacity, RetirementIsSafe, PassStep, IsPass,
         Refreshed, Marked;
    PassCommits(w, p, reports, plan, now, told, x);
    var s := w.store.registry;
    if x.store.registry == s {
      ServerById(s.servers, u, v);
    } else {
      PassIsPass(w, p, reports, plan, now, told, x);
      var c := w.programs[p].c;
      PassRefreshes(c, s, reports, now, plan, u);
      var t :| t in s.servers && t.id == u.id
               && (u == t || u == Refreshed(t, ReportOf(reports, t.id), s.deleting || Expired(c, now), now));
      ServerById(s.servers, t, v);
      RefreshMirrors(v, ReportOf(reports, v.id), s.deleting || Expired(c, now), now);
    }
  }

  lemma PassIsPass(w: World, p: nat, reports: map<string, Report>, plan: PassPlan, now: int, told: Outcome, x: World)
    requires p in w.programs && PassStep(w, p, w.programs[p], reports, plan, now, told, x)
    ensures w.programs[p].PassLoaded? && IsPass(w.programs[p].c, w.programs[p].snap, reports, now, plan)
  {
    hide IsPass;
  }
}
