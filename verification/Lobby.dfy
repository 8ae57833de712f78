/** The lobby: one stored request per saved game, and the worker that hands it to the local controller. */
module Lobby {
  import opened FleetState
  import opened Controller
  import FleetWorld
  import opened FleetIntent
  import FleetHistory

  // -- The stored row -----------------------------------------------------------------------------

  const REQUEST_LIFETIME := 600
  const COOLDOWN := 30

  /** Empty strings are absent attributes; `listed` rows have a published snapshot. Times are whole seconds. */
  datatype Row = Row(listed: bool, name: string, template: string, action: string, request: string, accepted: string,
                     completed: string, failure: string, expiresAt: Option<int>, requestedAt: Option<int>)

  const NO_ROW := Row(false, "", "", "", "", "", "", "", None, None)

  datatype Stage = Accepted | Completed

  datatype Mark = Mark(request: string, stage: Stage, failure: string)

  predicate Pending(r: Row, now: int) {
    r.request != "" && r.request != r.completed && r.expiresAt.Some? && r.expiresAt.value > now
  }

  /** The store's condition for a new request. */
  predicate MayQueue(r: Row, action: string, now: int) {
    && r.listed
    && (r.expiresAt.None? || r.expiresAt.value <= now || (r.request != "" && r.request == r.completed))
    && (r.requestedAt.None? || r.requestedAt.value <= now - COOLDOWN || r.action != action)
  }

  function Requested(r: Row, action: string, token: string, now: int): Row {
    r.(action := action, request := token, expiresAt := Some(now + REQUEST_LIFETIME), requestedAt := Some(now),
       failure := "")
  }

  function Marked(r: Row, m: Mark): Row {
    if r.request == "" || r.request != m.request then r
    else if m.stage.Accepted? then r.(accepted := m.request)
    else r.(completed := m.request, failure := m.failure)
  }

  /** A game started from a preset: its first request carries the game's own ID. */
  function Created(id: string, name: string, template: string, now: int): Row {
    Row(true, name, template, "start", id, "", "", "", Some(now + REQUEST_LIFETIME), Some(now))
  }

  class StoredRow {
    var row: Row

    constructor ()
      ensures row == NO_ROW
    {
      row := NO_ROW;
    }

    method Queue(action: string, token: string, now: int) returns (busy: bool)
      modifies this
      ensures busy <==> !MayQueue(old(row), action, now)
      ensures row == if busy then old(row) else Requested(old(row), action, token, now)
    {
      busy := !(row.listed
                && (row.expiresAt == None || row.expiresAt.value <= now
                    || (row.request != "" && row.request == row.completed))
                && (row.requestedAt == None || row.requestedAt.value <= now - COOLDOWN || row.action != action));
      if !busy {
        row := row.(action := action, request := token, failure := "");
        row := row.(expiresAt := Some(now + REQUEST_LIFETIME), requestedAt := Some(now));
      }
    }

    method Note(m: Mark)
      modifies this
      ensures row == Marked(old(row), m)
    {
      if row.request != "" && row.request == m.request {
        if m.stage.Accepted? {
          row := row.(accepted := m.request);
        } else {
          row := row.(completed := m.request, failure := m.failure);
        }
      }
    }

    method Create(id: string, name: string, template: string, now: int) returns (busy: bool)
      modifies this
      ensures busy <==> old(row).listed
      ensures row == if busy then old(row) else Created(id, name, template, now)
    {
      busy := row.listed;
      if !busy {
        row := Created(id, name, template, now);
      }
    }
  }

  /** Request, expiry and time are written together. */
  predicate RowOk(r: Row) {
    && (r.request != "" <==> r.expiresAt.Some?) && (r.request != "" <==> r.requestedAt.Some?)
    && (r.request != "" ==> r.listed)
  }

  /** A listed game takes a new request exactly when none is pending and this action was not asked for just now. */
  lemma OneRequestAtATime(r: Row, action: string, token: string, now: int)
    requires RowOk(r) && token != ""
    ensures MayQueue(r, action, now) <==>
            && r.listed && !Pending(r, now)
            && !(r.action == action && r.requestedAt.Some? && now < r.requestedAt.value + 30)
    ensures MayQueue(r, action, now) ==> RowOk(Requested(r, action, token, now))
    ensures MayQueue(r, action, now) && token != r.completed ==>
              forall t | now <= t :: Pending(Requested(r, action, token, now), t) <==> t < now + 10 * 60
  {
  }

  // -- The worker ---------------------------------------------------------------------------------

  const PRESET_GONE := "Game preset is no longer available"
  const GAME_GONE := "Saved game no longer exists"
  const EXPIRED := "Request expired; try again"
  const UNAVAILABLE := "Game is unavailable; ask the host administrator"
  const STOPPED_EARLY := "Game stopped before becoming ready"

  datatype Setup = Setup(games: set<string>, providers: set<string>, startedAt: int)

  function DesiredOf(action: string): Status {
    if action == "" || action == "start" then Running
    else if action == "stop" then Stopped
    else if action == "remove" then Deleted
    else Unset
  }

  function CreateOf(id: string, r: Row, template: Instance): CreateRequest {
    CreateRequest(id, r.name, template.game, template.provider, template.config, template.idleMinutes,
                  template.maxMinutes)
  }

  function FailureReason(i: Instance): string {
    if i.error != "" then UNAVAILABLE else if i.stopReason != "" then i.stopReason else STOPPED_EARLY
  }

  predicate Ready(i: Instance, startedAt: int) {
    i.phase == Running && i.desired == Running && i.players.Some? && i.updatedAt >= startedAt
  }

  /** What one sync of a game does to the controller, and the mark it leaves. */
  datatype Sync = Sync(local: Local, mark: Option<Mark>)

  function Handed(local: Local, id: string, r: Row, i: Instance, now: int, setup: Setup): Sync {
    var completed := (failure: string) => Sync(local, Some(Mark(r.request, Completed, failure)));
    if r.request == "" || r.request == r.completed then Sync(local, None)
    else if !Pending(r, now) then completed(EXPIRED)
    else if r.accepted != r.request then
      if AnswerRequest(local, id, r.request, DesiredOf(r.action), now) == Ok then
        Sync(AfterRequest(local, id, r.request, DesiredOf(r.action), now), Some(Mark(r.request, Accepted, "")))
      else Sync(local, None)
    else if (r.action == "stop" && i.phase == Stopped) || (r.action == "remove" && i.phase == Deleted) then
      completed("")
    else if DesiredOf(r.action) == Running && Ready(i, setup.startedAt) then completed("")
    else if (i.phase == Failed && i.updatedAt >= setup.startedAt)
        || (DesiredOf(r.action) == Running && i.desired != Running) then
      completed(FailureReason(i))
    else Sync(local, None)
  }

  function Served(local: Local, id: string, r: Row, seen: Option<Instance>, template: Option<Instance>, now: int,
                  setup: Setup): Sync {
    if seen.Some? then Handed(local, id, r, seen.value, now, setup)
    else if r.template != "" && Pending(r, now) && r.action == "start" then
      if template.None? || template.value.desired == Deleted then
        Sync(local, Some(Mark(r.request, Completed, PRESET_GONE)))
      else
        var request := CreateOf(id, r, template.value);
        if AnswerCreate(local, setup.games, setup.providers, request) != Ok then Sync(local, None)
        else
          var created := AfterCreate(local, setup.games, setup.providers, request, r.request, now);
          Handed(created, id, r, created.store[id], now, setup)
    else if Pending(r, now) then
      Sync(local, Some(Mark(r.request, Completed, if r.action == "remove" then "" else GAME_GONE)))
    else Sync(local, None)
  }

  // -- One game's row, its worker and its host, interleaved ----------------------------------------

  /** The single worker's position: it holds a row, then what the host had, then the mark it will leave. */
  datatype Program = Idle | Holds(row: Row) | Saw(row: Row, seen: Option<Instance>) | Marks(row: Row, mark: Mark)

  /** `asked` are all requests ever stored for the game, `applied` those its host acted on, both in order. */
  datatype World = World(row: Row, local: Local, asked: seq<string>, applied: seq<string>, minted: set<string>,
                         program: Program)

  datatype Event =
    | Ask(action: string, token: string, now: int)
    | Open(name: string, preset: string, now: int)
    | List
    | Read
    | Look
    | Act(template: Option<Instance>, now: int, setup: Setup)
    | Leave
    | Fail
    | LocalMoves(next: Local)

  function Growing(applied: seq<string>, id: string, before: Local, after: Local): seq<string> {
    if RequestIn(after, id) != RequestIn(before, id) then applied + [RequestIn(after, id)] else applied
  }

  ghost predicate Step(id: string, w: World, e: Event, x: World) {
    match e
    case Ask(action, token, now) =>
      && token != "" && token !in w.minted && MayQueue(w.row, action, now)
      && x == w.(row := Requested(w.row, action, token, now), asked := w.asked + [token], minted := w.minted + {token})
    case Open(name, preset, now) =>
      && !w.row.listed && id !in w.minted && id != ""
      && x == w.(row := Created(id, name, preset, now), asked := w.asked + [id], minted := w.minted + {id})
    case List => x == w.(row := w.row.(listed := true))
    case Read => w.program.Idle? && x == w.(program := Holds(w.row))
    case Look =>
      && w.program.Holds?
      && x == w.(program := Saw(w.program.row, if id in w.local.store then Some(w.local.store[id]) else None))
    case Act(template, now, setup) =>
      && w.program.Saw?
      && var done := Served(w.local, id, w.program.row, w.program.seen, template, now, setup);
         x == w.(local := done.local, applied := Growing(w.applied, id, w.local, done.local),
                 program := if done.mark.Some? then Marks(w.program.row, done.mark.value) else Idle)
    case Leave => w.program.Marks? && x == w.(row := Marked(w.row, w.program.mark), program := Idle)
    case Fail => x == w.(program := Idle)
    case LocalMoves(next) => FleetWorld.LocalMove(w.local, next) && x == w.(local := next)
  }

  ghost predicate RowInv(w: World) {
    && RowOk(w.row) && Last(w.asked) == w.row.request
    && (w.row.failure != "" ==> w.row.completed == w.row.request && w.row.request != "")
    && (w.row.completed != "" ==> w.row.completed in w.asked)
    && FleetHistory.Distinct(w.asked) && forall r | r in w.asked :: r in w.minted && r != ""
  }

  /** A row the worker holds is about a request of the past, or agrees with the stored row about the current one. */
  predicate HeldAgrees(w: World, r: Row) {
    && (r.request != "" ==> r.request in w.minted)
    && RowOk(r)
    && (r.request != "" && r.request == w.row.request ==>
          r.action == w.row.action && r.expiresAt == w.row.expiresAt && r.template == w.row.template)
    && (r.accepted != "" ==> r.accepted in w.applied)
  }

  ghost predicate HeldOk(w: World, r: Row) {
    r.request != "" ==> UpTo(w.applied, w.asked, r.request)
  }

  ghost predicate Inv(id: string, w: World) {
    && RowInv(w)
    && RequestIn(w.local, id) == Last(w.applied)
    && Subsequence(w.applied, w.asked)
    && (w.program.Holds? || w.program.Saw? ==> HeldOk(w, w.program.row))
    && (!w.program.Idle? ==> HeldAgrees(w, w.program.row))
    && (w.program.Marks? ==> w.program.mark.request == w.program.row.request)
    && (w.program.Marks? && w.program.mark.stage.Accepted? ==> w.program.mark.request in w.applied)
    && (w.row.accepted != "" ==> w.row.accepted in w.applied)
  }

  lemma ServedRecords(local: Local, id: string, r: Row, seen: Option<Instance>, template: Option<Instance>, now: int,
                      setup: Setup)
    ensures var s := Served(local, id, r, seen, template, now, setup);
      && (RequestIn(s.local, id) == RequestIn(local, id)
          || (r.request != "" && RequestIn(s.local, id) == r.request))
      && (s.mark.Some? && s.mark.value.stage.Accepted? ==>
            r.request == RequestIn(s.local, id) && r.request != "")
      && (s.mark.Some? ==> s.mark.value.request == r.request)
  {
    hide Wellformed, SameSettings, Trimmed, FailureReason;
  }

  lemma ActKeeps(id: string, w: World, template: Option<Instance>, now: int, setup: Setup, x: World)
    requires Inv(id, w) && Step(id, w, Act(template, now, setup), x)
    ensures Inv(id, x)
  {
    hide Served, Subsequence, UpTo;
    var r := w.program.row;
    ServedRecords(w.local, id, r, w.program.seen, template, now, setup);
    if RequestIn(x.local, id) != RequestIn(w.local, id) {
      UpToExtends(w.applied, w.asked, r.request);
      UpToIsSubsequence(x.applied, w.asked, r.request);
    }
    if x.program.Marks? && x.program.mark.stage.Accepted? {
      assert Last(x.applied) == r.request && x.applied != [];
      assert x.applied[|x.applied| - 1] in x.applied;
    }
  }

  /** A new request extends what was asked and disturbs nobody's place in it. */
  lemma AskKeeps(id: string, w: World, row: Row, token: string, x: World)
    requires Inv(id, w) && token != "" && token !in w.minted
    requires RowOk(row) && row.request == token && row.accepted in {"", w.row.accepted}
    requires row.failure == "" && row.completed in {"", w.row.completed}
    requires x == w.(row := row, asked := w.asked + [token], minted := w.minted + {token})
    ensures Inv(id, x)
  {
    hide Subsequence, UpTo;
    SubsequenceOfLonger(w.applied, w.asked, x.asked);
    if (w.program.Holds? || w.program.Saw?) && w.program.row.request != "" {
      UpToStays(w.applied, w.asked, x.asked, w.program.row.request);
    }
  }

  lemma ReadKeeps(id: string, w: World, x: World)
    requires Inv(id, w) && Step(id, w, Read, x)
    ensures Inv(id, x)
  {
    hide Subsequence, UpTo;
    if w.row.request != "" {
      UpToLast(w.applied, w.asked, w.row.request);
    }
  }

  lemma StepKeepsInv(id: string, w: World, e: Event, x: World)
    requires Inv(id, w) && Step(id, w, e, x)
    ensures Inv(id, x)
  {
    hide Subsequence, UpTo, Served;
    match e
    case Ask(action, token, now) => AskKeeps(id, w, x.row, token, x);
    case Open(name, preset, now) => AskKeeps(id, w, x.row, id, x);
    case Read => ReadKeeps(id, w, x);
    case Act(template, now, setup) => ActKeeps(id, w, template, now, setup, x);
    case _ =>
  }

  ghost predicate IsRun(id: string, ws: seq<World>, es: seq<Event>) {
    && |ws| == |es| + 1
    && ws[0] == World(NO_ROW, Local(false, map[]), [], [], {}, Idle)
    && forall i | 0 <= i < |es| :: Step(id, ws[i], es[i], ws[i + 1])
  }

  lemma {:induction false} RunKeepsInv(id: string, ws: seq<World>, es: seq<Event>, i: nat)
    requires IsRun(id, ws, es) && i < |ws|
    ensures Inv(id, ws[i])
  {
    hide Step;
    if i > 0 {
      hide Inv;
      RunKeepsInv(id, ws, es, i - 1);
      StepKeepsInv(id, ws[i - 1], es[i - 1], ws[i]);
    }
  }

  // -- What the row shows --------------------------------------------------------------------------

  /**
   * Over every run the shown state of a request changes only by a mark made for that request, read together with the
   * action it asked for; marks of replaced requests change nothing, and a shown failure is one of the current request.
   */
  lemma MarksSpeakForTheirRequest(id: string, ws: seq<World>, es: seq<Event>, n: nat)
    requires IsRun(id, ws, es) && n < |es|
    ensures var r, d := ws[n].row, ws[n + 1].row;
      && (d.request == r.request && d != r.(listed := d.listed) ==>
            && es[n].Leave? && ws[n].program.mark.request == r.request
            && ws[n].program.row.request == r.request && ws[n].program.row.action == r.action)
      && (es[n].Leave? && ws[n].program.mark.request != r.request ==> d == r)
      && (r.failure != "" ==> r.completed == r.request && r.request != "")
      && (r.completed != "" ==> r.completed in ws[n].asked)
  {
    hide Subsequence, UpTo, Served;
    RunKeepsInv(id, ws, es, n);
    assert Step(id, ws[n], es[n], ws[n + 1]);
  }

  /**
   * Requests reach the controller in the order they were stored, each at most once, whatever marks are lost; and a
   * request is shown as accepted only after the host really applied it.
   */
  lemma RequestsReachTheHostInOrder(id: string, ws: seq<World>, es: seq<Event>, i: nat)
    requires IsRun(id, ws, es) && i < |ws|
    ensures var w := ws[i];
      && Subsequence(w.applied, w.asked) && FleetHistory.Distinct(w.applied)
      && RequestIn(w.local, id) == Last(w.applied)
      && (w.row.accepted != "" ==> w.row.accepted in w.applied)
  {
    hide Step;
    RunKeepsInv(id, ws, es, i);
    SubsequenceIsDistinct(ws[i].applied, ws[i].asked);
  }
}
