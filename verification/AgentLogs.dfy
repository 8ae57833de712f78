/** The last N log lines of a byte stream that arrives in arbitrary pieces, with live subscribers. */
module AgentLogs {

  // -- Lines --------------------------------------------------------------------------------------

  datatype Splitting = Splitting(lines: seq<string>, rest: string)

  /** LF, CR and CRLF each end one line; what follows the last of them is left over. */
  function Split(text: string): Splitting {
    if text == "" then Splitting([], "")
    else if text[0] == '\n' then Cons("", Split(text[1..]))
    else if text[0] == '\r' then Cons("", Split(if StartsLf(text[1..]) then text[2..] else text[1..]))
    else Lengthened(text[0], Split(text[1..]))
  }

  function Cons(line: string, s: Splitting): Splitting {
    Splitting([line] + s.lines, s.rest)
  }

  function Lengthened(c: char, s: Splitting): Splitting {
    if s.lines == [] then Splitting([], [c] + s.rest) else Splitting([[c] + s.lines[0]] + s.lines[1..], s.rest)
  }

  predicate StartsLf(text: string) {
    text != "" && text[0] == '\n'
  }

  predicate EndsCr(text: string) {
    text != "" && text[|text| - 1] == '\r'
  }

  /** What is left to split after the first character, and what that character adds. */
  function After(text: string): string
    requires text != ""
  {
    if text[0] == '\r' && StartsLf(text[1..]) then text[2..] else text[1..]
  }

  function Headed(c: char, s: Splitting): Splitting {
    if c == '\n' || c == '\r' then Cons("", s) else Lengthened(c, s)
  }

  lemma SplitHead(text: string)
    requires text != ""
    ensures Split(text) == Headed(text[0], Split(After(text)))
  {
  }

  lemma AfterJoins(t: string, u: string)
    requires t != "" && !(t == "\r" && StartsLf(u))
    ensures After(t + u) == After(t) + u && (t + u)[0] == t[0]
  {
    var r := t + u;
    assert r[1..] == t[1..] + u;
    if |t| >= 2 {
      assert r[2..] == t[2..] + u;
    } else {
      assert t[1..] == "" && r[1..] == u;
    }
  }

  function Continued(s: Splitting, more: Splitting): Splitting {
    Splitting(s.lines + more.lines, more.rest)
  }

  lemma ContinuedEnds(lines: seq<string>, rest: string)
    ensures Continued(Splitting([], ""), Splitting(lines, rest)) == Splitting(lines, rest)
    ensures Continued(Splitting(lines, ""), Splitting([], rest)) == Splitting(lines, rest)
  {
  }

  lemma LengthenedContinues(c: char, s: Splitting, more: Splitting)
    requires s.lines != []
    ensures Lengthened(c, Continued(s, more)) == Continued(Lengthened(c, s), more)
  {
    assert (s.lines + more.lines)[1..] == s.lines[1..] + more.lines;
  }

  /** Putting one character in front commutes with reading on. */
  lemma HeadedContinues(c: char, s: Splitting, u: string)
    ensures Headed(c, Continued(s, Split(s.rest + u))) == Continued(Headed(c, s), Split(Headed(c, s).rest + u))
  {
    hide Split;
    var more := Split(s.rest + u);
    if c == '\n' || c == '\r' {
      assert [""] + (s.lines + more.lines) == [""] + s.lines + more.lines;
    } else if s.lines == [] {
      var longer := [c] + s.rest + u;
      assert longer[1..] == s.rest + u;
      SplitHead(longer);
      assert [] + more.lines == more.lines && [] + Split(longer).lines == Split(longer).lines;
    } else {
      LengthenedContinues(c, s, more);
    }
  }

  /** What a splitting of `t` becomes when more text is read; a CR at its end must not be joined by an LF. */
  lemma {:induction false} SplitContinues(t: string, u: string)
    requires !(EndsCr(t) && StartsLf(u))
    ensures Split(t + u) == Continued(Split(t), Split(Split(t).rest + u))
  {
    if t == "" {
      assert t + u == u && Split(t).rest + u == u;
    } else {
      hide Split, Headed, Continued;
      AfterJoins(t, u);
      assert EndsCr(After(t)) ==> EndsCr(t);
      SplitContinues(After(t), u);
      SplitHead(t);
      SplitHead(t + u);
      HeadedContinues(t[0], Split(After(t)), u);
    }
  }

  lemma HeadedStands(c: char, s: Splitting, more: Splitting)
    requires c == '\n' || c == '\r' || s.lines != []
    ensures Headed(c, Continued(s, more)) == Continued(Headed(c, s), more)
    ensures Headed(c, s).rest == s.rest && Headed(c, s).lines != []
  {
    if c == '\n' || c == '\r' {
      assert [""] + (s.lines + more.lines) == [""] + s.lines + more.lines;
    } else {
      LengthenedContinues(c, s, more);
    }
  }

  /** An LF right after a CR adds no line of its own. */
  lemma {:induction false} SplitSwallows(t: string, u: string)
    requires EndsCr(t) && StartsLf(u)
    ensures Split(t).rest == "" && Split(t).lines != [] && Split(t + u) == Continued(Split(t), Split(u[1..]))
  {
    SplitHead(t);
    SplitHead(t + u);
    if |t| == 1 {
      assert t[1..] == "" && (t + u)[1..] == u && (t + u)[2..] == u[1..];
      assert Split("") == Splitting([], "");
      HeadedStands('\r', Split(""), Split(u[1..]));
      assert Continued(Split(""), Split(u[1..])) == Split(u[1..]);
    } else {
      hide Split, Headed, Continued;
      AfterJoins(t, u);
      AfterEndsCr(t);
      SplitSwallows(After(t), u);
      HeadedStands(t[0], Split(After(t)), Split(u[1..]));
    }
  }

  lemma AfterEndsCr(t: string)
    requires EndsCr(t) && |t| >= 2
    ensures EndsCr(After(t)) && t != "\r"
  {
    if t[0] == '\r' && StartsLf(t[1..]) {
      assert |t| > 2;
    }
  }

  lemma {:induction false} CrLeavesNothing(t: string)
    requires EndsCr(t)
    ensures Split(t).rest == ""
  {
    SplitSwallows(t, "\n");
  }

  /** The first line ends at the first terminator. */
  lemma {:induction false} FirstLine(text: string, k: nat)
    requires k < |text| && text[k] in {'\n', '\r'} && forall i | 0 <= i < k :: text[i] != '\n' && text[i] != '\r'
    ensures Split(text)
         == Cons(text[..k], Split(if text[k] == '\r' && StartsLf(text[k + 1..]) then text[k + 2..] else text[k + 1..]))
  {
    if k > 0 {
      FirstLine(text[1..], k - 1);
      assert text[1..][k..] == text[k + 1..];
      assert k + 2 <= |text| ==> text[1..][k + 1..] == text[k + 2..];
      assert [text[0]] + text[1..][..k - 1] == text[..k];
    }
  }

  lemma {:induction false} NoLine(text: string)
    requires forall i | 0 <= i < |text| :: text[i] != '\n' && text[i] != '\r'
    ensures Split(text) == Splitting([], text)
  {
    if text != "" {
      NoLine(text[1..]);
      assert [text[0]] + text[1..] == text;
    }
  }

  // -- Writes -------------------------------------------------------------------------------------

  /** Every line completed so far, the fragment that waits for its end, and whether the last write ended in CR. */
  datatype Written = Written(lines: seq<string>, partial: string, pendingCR: bool)

  const NOTHING := Written([], "", false)

  function TextOf(s: Written, p: string): string {
    s.partial + if s.pendingCR && StartsLf(p) then p[1..] else p
  }

  function AfterWrite(s: Written, p: string): Written {
    var text := TextOf(s, p);
    Written(s.lines + Split(text).lines, Split(text).rest, EndsCr(text))
  }

  function AfterWrites(writes: seq<string>): Written {
    if writes == [] then NOTHING
    else AfterWrite(AfterWrites(writes[..|writes| - 1]), writes[|writes| - 1])
  }

  function Input(writes: seq<string>): string {
    if writes == [] then "" else Input(writes[..|writes| - 1]) + writes[|writes| - 1]
  }

  /** The last write begins with the LF of a CRLF whose CR was followed by an empty write. */
  predicate TearsLast(writes: seq<string>) {
    && |writes| >= 2 && StartsLf(writes[|writes| - 1]) && writes[|writes| - 2] == ""
    && EndsCr(Input(writes[..|writes| - 1]))
  }

  /** How often an empty write separated the two halves of a CRLF. */
  function Tears(writes: seq<string>): nat {
    if writes == [] then 0 else Tears(writes[..|writes| - 1]) + if TearsLast(writes) then 1 else 0
  }

  /** What is remembered between writes, for any way the input was cut into writes, empty ones included. */
  lemma {:induction false} WritesRemember(writes: seq<string>)
    ensures var s := AfterWrites(writes); var whole := Split(Input(writes));
      && s.partial == whole.rest
      && s.pendingCR == (writes != [] && writes[|writes| - 1] != "" && EndsCr(Input(writes)))
      && |s.lines| == |whole.lines| + Tears(writes)
      && (Tears(writes) == 0 ==> s.lines == whole.lines)
  {
    if writes != [] {
      var last := |writes| - 1;
      var p := writes[last];
      var t := Input(writes[..last]);
      WritesRemember(writes[..last]);
      if last > 0 {
        assert writes[..last][last - 1] == writes[last - 1];
      }
      WriteRemembers(AfterWrites(writes[..last]), t, p);
    }
  }

  /** One write on top of input `t`. */
  lemma WriteRemembers(s: Written, t: string, p: string)
    requires s.partial == Split(t).rest && (s.pendingCR ==> EndsCr(t))
    ensures var r := AfterWrite(s, p); var whole := Split(t + p);
      && r.partial == whole.rest
      && r.pendingCR == (p != "" && EndsCr(t + p))
      && (if EndsCr(t) && StartsLf(p) && !s.pendingCR then
            |r.lines| - |s.lines| == |whole.lines| - |Split(t).lines| + 1
          else
            r.lines == s.lines + Split(TextOf(s, p)).lines && whole.lines == Split(t).lines + Split(TextOf(s, p)).lines)
  {
    hide Split;
    if EndsCr(t) {
      CrLeavesNothing(t);
    }
    PendingIsRight(s, t, p);
    if EndsCr(t) && StartsLf(p) {
      SplitSwallows(t, p);
      assert "" + p[1..] == p[1..] && "" + p == p;
      SplitHead(p);
    } else {
      SplitContinues(t, p);
    }
  }

  lemma PendingIsRight(s: Written, t: string, p: string)
    requires s.partial == Split(t).rest && (s.pendingCR ==> EndsCr(t))
    ensures EndsCr(TextOf(s, p)) == (p != "" && EndsCr(t + p))
  {
    hide Split;
    if p == "" {
      PartialHasNoCr(t);
      assert TextOf(s, p) == s.partial;
      assert s.partial != "" ==> s.partial[|s.partial| - 1] in Split(t).rest;
    } else {
      assert (t + p)[|t + p| - 1] == p[|p| - 1];
      if s.pendingCR {
        CrLeavesNothing(t);
      }
    }
  }

  lemma {:induction false} PartialHasNoCr(t: string)
    ensures forall c | c in Split(t).rest :: c != '\r' && c != '\n'
  {
    if t != "" {
      PartialHasNoCr(if t[0] == '\r' && StartsLf(t[1..]) then t[2..] else t[1..]);
    }
  }

  /** For every way to cut the input into writes: its lines are recorded exactly if no empty write tore a CRLF apart. */
  lemma LinesAreTheInputs(writes: seq<string>)
    ensures AfterWrites(writes).lines == Split(Input(writes)).lines <==> Tears(writes) == 0
  {
    WritesRemember(writes);
  }

  lemma {:induction false} NonEmptyWritesNeverTear(writes: seq<string>)
    requires forall p | p in writes :: p != ""
    ensures Tears(writes) == 0
  {
    if writes != [] {
      assert forall i | 0 <= i < |writes| :: writes[i] in writes;
      NonEmptyWritesNeverTear(writes[..|writes| - 1]);
    }
  }

  /** However non-empty writes cut the input, the last N lines recorded are the last N lines of the input. */
  lemma HistoryIsTheInputsEnd(writes: seq<string>, n: nat)
    requires forall p | p in writes :: p != ""
    ensures Newest(AfterWrites(writes).lines, n) == Newest(Split(Input(writes)).lines, n)
    ensures AfterWrites(writes).partial == Split(Input(writes)).rest
  {
    NonEmptyWritesNeverTear(writes);
    WritesRemember(writes);
  }

  /** Three writes of one terminated line, recorded as two. */
  lemma EmptyWriteTears()
    ensures AfterWrites(["a\r", "", "\n"]).lines != Split(Input(["a\r", "", "\n"])).lines
  {
    var writes := ["a\r", "", "\n"];
    assert writes[..2] == ["a\r", ""] && ["a\r", ""][..1] == ["a\r"] && ["a\r"][..0] == [];
    assert Input(["a\r", ""]) == "a\r";
    assert TearsLast(writes);
    LinesAreTheInputs(writes);
  }

  // -- The ring -----------------------------------------------------------------------------------

  function Newest(lines: seq<string>, n: nat): seq<string> {
    if |lines| <= n then lines else lines[|lines| - n..]
  }

  const SUBSCRIBER_QUEUE := 64

  /** A subscription: the lines completed before it, and what was received; `full` once a line found no room. */
  datatype Watch = Watch(since: nat, received: seq<string>, full: bool)

  lemma Wraps(i: nat, n: nat)
    requires i < 2 * n
    ensures i % n == if i < n then i else i - n
  {
    if i >= n {
      assert i == n + (i - n);
      assert (i - n) % n == i - n;
    }
  }

  /** Where the ring keeps line `i` of its history. */
  lemma RingSlot(buf: seq<string>, head: nat, i: nat)
    requires head < |buf| && i < |buf|
    ensures (head + i) % |buf| == if head + i < |buf| then head + i else head + i - |buf|
  {
    Wraps(head + i, |buf|);
  }

  /** A buffer holds the newest lines, oldest at `head`, going round at its end. */
  predicate Ring(buf: seq<string>, head: nat, size: nat, lines: seq<string>) {
    && head < |buf| && size == |Newest(lines, |buf|)| && (size < |buf| ==> head == 0)
    && forall i | 0 <= i < size :: Newest(lines, |buf|)[i] == buf[(head + i) % |buf|]
  }

  lemma NewestAppends(lines: seq<string>, line: string, n: nat)
    requires n > 0
    ensures var kept := Newest(lines, n);
      Newest(lines + [line], n) == (if |kept| < n then kept else kept[1..]) + [line]
  {
  }

  lemma NewestThenRest(lines: seq<string>, since: nat, n: nat)
    requires since <= |lines|
    ensures Newest(lines[..since], n) + lines[since..] == lines[if since <= n then 0 else since - n..]
  {
  }

  /** A line goes into the first free slot, or over the oldest line. */
  lemma RingTakes(buf: seq<string>, head: nat, size: nat, lines: seq<string>, line: string)
    requires Ring(buf, head, size, lines)
    ensures size < |buf| ==> Ring(buf[(head + size) % |buf| := line], head, size + 1, lines + [line])
    ensures size == |buf| ==> Ring(buf[head := line], (head + 1) % |buf|, size, lines + [line])
  {
    var n := |buf|;
    NewestAppends(lines, line, n);
    var newest := Newest(lines + [line], n);
    if size < n {
      RingSlot(buf, head, size);
      forall i | 0 <= i < size + 1 ensures newest[i] == buf[(head + size) % n := line][(head + i) % n] {
        RingSlot(buf, head, i);
      }
    } else {
      Wraps(head + 1, n);
      forall i | 0 <= i < n ensures newest[i] == buf[head := line][((head + 1) % n + i) % n] {
        Wraps((head + 1) % n + i, n);
        if i < n - 1 {
          Wraps(head + (i + 1), n);
        }
      }
    }
  }

  class RingLog {
    const buf: array<string>
    var head: nat
    var size: nat
    var partial: string
    var pendingCR: bool
    var subs: map<nat, seq<string>>
    ghost var lines: seq<string>
    ghost var watches: map<nat, Watch>
    ghost var writes: seq<string>

    ghost predicate RingHolds()
      reads this`head, this`size, this`lines, buf
    {
      Ring(buf[..], head, size, lines)
    }

    /** A subscriber that never found its queue full has every line since it subscribed, in order. */
    ghost predicate Watched(id: nat)
      reads this`lines, this`subs, this`watches
      requires id in subs && id in watches
    {
      && |subs[id]| <= SUBSCRIBER_QUEUE && watches[id].since <= |lines|
      && (!watches[id].full ==> watches[id].received + subs[id] == lines[watches[id].since..])
    }

    ghost predicate Kept()
      reads this`head, this`size, this`lines, this`subs, this`watches, buf
    {
      && RingHolds()
      && subs.Keys == watches.Keys
      && forall id | id in subs :: Watched(id)
    }

    ghost function State(): Written
      reads this`lines, this`partial, this`pendingCR
    {
      Written(lines, partial, pendingCR)
    }

    /** The log keeps what all its writes so far amount to. */
    ghost predicate Valid()
      reads this, buf
    {
      Kept() && State() == AfterWrites(writes)
    }

    constructor (capacity: nat)
      requires capacity > 0
      ensures Valid() && fresh(buf) && buf.Length == capacity && writes == [] && State() == NOTHING && subs == map[]
    {
      buf := new string[capacity](_ => "");
      head, size, partial, pendingCR, subs := 0, 0, "", false, map[];
      lines, watches, writes := [], map[], [];
    }

    /** The ring keeps the newest lines by overwriting the oldest slot. */
    method Record(line: string)
      requires RingHolds()
      modifies this`head, this`size, this`lines, buf
      ensures RingHolds() && lines == old(lines) + [line]
    {
      hide Ring;
      RingFits(buf[..], head, size, lines);
      RingTakes(buf[..], head, size, lines, line);
      ghost var before := buf[..];
      if size < buf.Length {
        var slot := (head + size) % buf.Length;
        buf[slot] := line;
        assert buf[..] == before[slot := line];
        size := size + 1;
      } else {
        buf[head] := line;
        assert buf[..] == before[head := line];
        head := (head + 1) % buf.Length;
      }
      lines := lines + [line];
    }

    /** Offers a line to every subscriber; one whose queue is full misses it. */
    method FanOut(line: string)
      requires subs.Keys == watches.Keys && forall id | id in subs :: |subs[id]| <= SUBSCRIBER_QUEUE
      modifies this`subs, this`watches
      ensures Offered(old(subs), subs, [line]) && Noted(old(subs), old(watches), watches, [line])
    {
      hide Delivered, Missed;
      var remaining := subs.Keys;
      while remaining != {}
        invariant remaining <= subs.Keys == watches.Keys == old(subs).Keys
        invariant forall id | id in remaining :: subs[id] == old(subs)[id] && watches[id] == old(watches)[id]
        invariant forall id | id in subs && id !in remaining ::
                    subs[id] == Delivered(old(subs)[id], [line])
                    && watches[id] == Missed(old(subs)[id], old(watches)[id], [line])
        decreases |remaining|
      {
        var id :| id in remaining;
        OneLine(subs[id], watches[id], line);
        if |subs[id]| < SUBSCRIBER_QUEUE {
          subs := subs[id := subs[id] + [line]];
        } else {
          watches := watches[id := watches[id].(full := true)];
        }
        remaining := remaining - {id};
      }
    }

    method Append(line: string)
      requires Kept()
      modifies this`head, this`size, this`lines, this`subs, this`watches, buf
      ensures Kept() && lines == old(lines) + [line]
      ensures Offered(old(subs), subs, [line]) && Noted(old(subs), old(watches), watches, [line])
    {
      hide Ring, Delivered, Missed;
      Record(line);
      assert forall id | id in subs :: old(Watched(id));
      FanOut(line);
      forall id | id in subs ensures Watched(id) {
        WatchGoesOn(old(subs)[id], old(watches)[id], old(lines), line);
      }
    }

    lemma NothingYet()
      requires Kept()
      ensures Offered(subs, subs, []) && Noted(subs, watches, watches, [])
    {
      assert forall id | id in subs :: Watched(id);
      OfferNothing(subs, watches);
    }

    method Write(p: string) returns (n: nat)
      requires Valid()
      modifies this, buf
      ensures Valid() && n == |p| && writes == old(writes) + [p]
      ensures State() == AfterWrite(old(State()), p)
      ensures var more := Split(TextOf(old(State()), p)).lines;
        Offered(old(subs), subs, more) && Noted(old(subs), old(watches), watches, more)
    {
      hide Kept, Split, AfterWrites, Offered, Noted, Continued;
      var chunk := p;
      if pendingCR {
        if StartsLf(chunk) {
          chunk := chunk[1..];
        }
        pendingCR := false;
      }
      var text := partial + chunk;
      var start, i := 0, 0;
      ghost var more: seq<string> := [];
      NothingYet();
      assert text[0..] == text && Continued(Splitting([], ""), Split(text)) == Split(text) by {
        ContinuedEnds(Split(text).lines, Split(text).rest);
      }
      while i < |text|
        invariant 0 <= start <= i <= |text| && Kept() && writes == old(writes)
        invariant partial == old(partial) && !pendingCR
        invariant lines == old(lines) + more && Split(text) == Continued(Splitting(more, ""), Split(text[start..]))
        invariant forall k | start <= k < i :: text[k] != '\n' && text[k] != '\r'
        invariant Offered(old(subs), subs, more) && Noted(old(subs), old(watches), watches, more)
      {
        if text[i] == '\n' || text[i] == '\r' {
          ghost var line := text[start..i];
          ghost var queues, seen := subs, watches;
          LineAt(text, start, i, more);
          Append(text[start..i]);
          OfferMore(old(subs), queues, subs, old(watches), seen, watches, more, line);
          more := more + [line];
          if text[i] == '\r' && i + 1 < |text| && text[i + 1] == '\n' {
            i := i + 1;
          }
          start := i + 1;
        }
        i := i + 1;
      }
      partial := text[start..];
      NoLine(text[start..]);
      ContinuedEnds(more, text[start..]);
      assert Split(text).lines == more + [] == more && text == TextOf(old(State()), p);
      if |text| > 0 && text[|text| - 1] == '\r' {
        pendingCR := true;
        CrLeavesNothing(text);
        partial := "";
      }
      writes := writes + [p];
      assert State() == AfterWrites(writes) by { OneMoreWrite(old(writes), p); }
      return |p|;
    }

    method History() returns (history: seq<string>)
      requires RingHolds()
      ensures history == Newest(lines, buf.Length)
    {
      hide Newest;
      ghost var newest := Newest(lines, buf.Length);
      history := [];
      for i := 0 to size
        invariant history == newest[..i]
      {
        assert newest[..i + 1] == newest[..i] + [newest[i]];
        history := history + [buf[(head + i) % buf.Length]];
      }
    }

    /** History and subscription are taken in one critical section. */
    method Subscribe(id: nat) returns (history: seq<string>)
      requires Valid() && id !in subs
      modifies this`subs, this`watches
      ensures Valid() && history == Newest(lines, buf.Length) && writes == old(writes)
      ensures (forall p | p in writes :: p != "") ==> history == Newest(Split(Input(writes)).lines, buf.Length)
      ensures subs == old(subs)[id := []] && watches == old(watches)[id := Watch(|lines|, [], false)]
    {
      hide Ring, Newest, Split, AfterWrites;
      history := History();
      if forall p | p in writes :: p != "" {
        NonEmptyWritesNeverTear(writes);
        LinesAreTheInputs(writes);
      }
      assert forall k | k in subs :: Watched(k);
      subs := subs[id := []];
      watches := watches[id := Watch(|lines|, [], false)];
    }

    /** A subscriber takes the next line from its queue. */
    method Receive(id: nat) returns (line: string)
      requires Valid() && id in subs && subs[id] != []
      modifies this`subs, this`watches
      ensures Valid() && line == old(subs)[id][0]
      ensures subs == old(subs)[id := old(subs)[id][1..]]
      ensures watches == old(watches)[id := old(watches)[id].(received := old(watches)[id].received + [line])]
    {
      hide Ring, Newest, RingHolds, AfterWrites;
      assert Watched(id);
      line := subs[id][0];
      assert watches[id].received + subs[id] == (watches[id].received + [line]) + subs[id][1..];
      subs := subs[id := subs[id][1..]];
      watches := watches[id := watches[id].(received := watches[id].received + [line])];
      forall k | k in subs ensures Watched(k) {
        assert old(Watched(k));
      }
    }

    /** Cancelling, the first time and again, leaves every other subscriber alone. */
    method Cancel(id: nat)
      requires Valid()
      modifies this`subs, this`watches
      ensures Valid() && subs == old(subs) - {id} && watches == old(watches) - {id}
    {
      hide Ring, Newest, RingHolds, AfterWrites;
      assert forall k | k in subs :: Watched(k);
      subs := subs - {id};
      watches := watches - {id};
    }

    /** A subscriber's history, then what it received, then what waits for it: one gapless end of the log. */
    lemma HistoryThenLive(id: nat)
      requires Valid() && id in subs && !watches[id].full
      ensures var since := watches[id].since;
        && since <= |lines|
        && Newest(lines[..since], buf.Length) + watches[id].received + subs[id]
           == lines[if since <= buf.Length then 0 else since - buf.Length..]
    {
      hide Newest, Ring, RingHolds;
      var w := watches[id];
      assert Watched(id);
      NewestThenRest(lines, w.since, buf.Length);
      assert Newest(lines[..w.since], buf.Length) + (w.received + subs[id])
          == Newest(lines[..w.since], buf.Length) + w.received + subs[id];
    }
  }

  lemma OneMoreWrite(writes: seq<string>, p: string)
    ensures AfterWrites(writes + [p]) == AfterWrite(AfterWrites(writes), p)
  {
    assert (writes + [p])[..|writes|] == writes;
  }

  /** What a queue of bounded length takes of the offered lines when nobody reads meanwhile. */
  function Delivered(queue: seq<string>, more: seq<string>): seq<string>
    requires |queue| <= SUBSCRIBER_QUEUE
  {
    if |queue| + |more| <= SUBSCRIBER_QUEUE then queue + more else queue + more[..SUBSCRIBER_QUEUE - |queue|]
  }

  function Missed(queue: seq<string>, w: Watch, more: seq<string>): Watch {
    w.(full := w.full || |queue| + |more| > SUBSCRIBER_QUEUE)
  }

  lemma OneLine(queue: seq<string>, w: Watch, line: string)
    requires |queue| <= SUBSCRIBER_QUEUE
    ensures Delivered(queue, [line]) == if |queue| < SUBSCRIBER_QUEUE then queue + [line] else queue
    ensures Missed(queue, w, [line]) == if |queue| < SUBSCRIBER_QUEUE then w else w.(full := true)
  {
  }

  /** A subscriber that took the new line, or already missed one, is still accounted for. */
  lemma WatchGoesOn(queue: seq<string>, w: Watch, lines: seq<string>, line: string)
    requires |queue| <= SUBSCRIBER_QUEUE && w.since <= |lines|
    requires !w.full ==> w.received + queue == lines[w.since..]
    ensures |Delivered(queue, [line])| <= SUBSCRIBER_QUEUE
    ensures var now := Missed(queue, w, [line]);
      now.since == w.since && now.received == w.received
      && (!now.full ==> now.received + Delivered(queue, [line]) == (lines + [line])[now.since..])
  {
    if !w.full && |queue| < SUBSCRIBER_QUEUE {
      assert w.received + (queue + [line]) == (w.received + queue) + [line];
    }
  }

  lemma OfferNothing(queues: map<nat, seq<string>>, watches: map<nat, Watch>)
    requires queues.Keys == watches.Keys && forall id | id in queues :: |queues[id]| <= SUBSCRIBER_QUEUE
    ensures Offered(queues, queues, []) && Noted(queues, watches, watches, [])
  {
  }

  predicate Offered(before: map<nat, seq<string>>, now: map<nat, seq<string>>, more: seq<string>) {
    && now.Keys == before.Keys
    && forall id | id in before :: |before[id]| <= SUBSCRIBER_QUEUE && now[id] == Delivered(before[id], more)
  }

  ghost predicate Noted(queues: map<nat, seq<string>>, before: map<nat, Watch>, now: map<nat, Watch>,
                        more: seq<string>) {
    && now.Keys == before.Keys == queues.Keys
    && forall id | id in before :: now[id] == Missed(queues[id], before[id], more)
  }

  lemma OfferMore(before: map<nat, seq<string>>, mid: map<nat, seq<string>>, now: map<nat, seq<string>>,
                  seen: map<nat, Watch>, watched: map<nat, Watch>, after: map<nat, Watch>, more: seq<string>,
                  line: string)
    requires Offered(before, mid, more) && Noted(before, seen, watched, more)
    requires Offered(mid, now, [line]) && Noted(mid, watched, after, [line])
    ensures Offered(before, now, more + [line]) && Noted(before, seen, after, more + [line])
  {
    forall id | id in before
      ensures now[id] == Delivered(before[id], more + [line])
          && after[id] == Missed(before[id], seen[id], more + [line])
    {
      var q := before[id];
      assert mid[id] == Delivered(q, more) && now[id] == Delivered(mid[id], [line]);
      if |q| + |more| < SUBSCRIBER_QUEUE {
        assert q + more + [line] == q + (more + [line]);
      } else {
        assert (more + [line])[..SUBSCRIBER_QUEUE - |q|] == more[..SUBSCRIBER_QUEUE - |q|];
        assert mid[id] + [] == mid[id];
        if |q| + |more| == SUBSCRIBER_QUEUE {
          assert more[..SUBSCRIBER_QUEUE - |q|] == more;
        }
      }
    }
  }

  /** One line found in the text: the rest is split from behind its terminator. */
  lemma LineAt(text: string, start: nat, i: nat, more: seq<string>)
    requires start <= i < |text| && text[i] in {'\n', '\r'}
    requires forall k | start <= k < i :: text[k] != '\n' && text[k] != '\r'
    ensures var next := if text[i] == '\r' && i + 1 < |text| && text[i + 1] == '\n' then i + 2 else i + 1;
      Continued(Splitting(more, ""), Split(text[start..]))
      == Continued(Splitting(more + [text[start..i]], ""), Split(text[next..]))
  {
    hide Split;
    var rest := text[start..];
    FirstLine(rest, i - start);
    assert rest[i - start + 1..] == text[i + 1..];
    if i + 1 < |text| {
      assert rest[i - start + 2..] == text[i + 2..];
    }
    assert rest[..i - start] == text[start..i];
  }

  lemma RingFits(buf: seq<string>, head: nat, size: nat, lines: seq<string>)
    requires Ring(buf, head, size, lines)
    ensures head < |buf| && size <= |buf|
  {
  }
}
