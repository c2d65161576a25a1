/** The change stream's event ids: a position in the audit log and in the two call tables. */
module Cursors {
  import opened Domain
  import opened Numerals

  datatype Cursor = Cursor(audit: nat, llm: nat, tool: nat)

  function Show(c: Cursor): string {
    Digits(c.audit) + "." + (Digits(c.llm) + "." + Digits(c.tool))
  }

  function FirstDot(s: string): (n: nat)
    ensures n <= |s| && '.' !in s[..n] && (n < |s| ==> s[n] == '.')
  {
    if s == "" || s[0] == '.' then 0 else 1 + FirstDot(s[1..])
  }

  function SplitDots(s: string): seq<string>
    decreases |s|
  {
    var n := FirstDot(s);
    if n == |s| then [s] else [s[..n]] + SplitDots(s[n + 1..])
  }

  function Parse(text: Option<string>): Option<Cursor> {
    var parts := SplitDots(if text.Some? then text.value else "");
    if |parts| != 3 then None
    else
      var a, m, t := ParseInt(parts[0]), ParseInt(parts[1]), ParseInt(parts[2]);
      if a.Some? && m.Some? && t.Some? && a.value >= 0 && m.value >= 0 && t.value >= 0
      then Some(Cursor(a.value, m.value, t.value))
      else None
  }

  lemma {:induction false} FirstDotAt(a: string, b: string)
    requires '.' !in a
    ensures FirstDot(a + "." + b) == |a|
  {
    var s := a + "." + b;
    if a != "" {
      assert s[1..] == a[1..] + "." + b;
      FirstDotAt(a[1..], b);
    }
  }

  lemma SplitAtDot(a: string, b: string)
    requires '.' !in a
    ensures SplitDots(a + "." + b) == [a] + SplitDots(b)
  {
    var s := a + "." + b;
    FirstDotAt(a, b);
    assert s[..|a|] == a && s[|a| + 1..] == b;
  }

  lemma {:induction false} SplitNothing(a: string)
    requires '.' !in a
    ensures FirstDot(a) == |a| && SplitDots(a) == [a]
  {
    if a != "" {
      SplitNothing(a[1..]);
    }
  }

  /** A cursor survives the trip to the client and back. */
  lemma CursorRoundTrip(c: Cursor)
    ensures Parse(Some(Show(c))) == Some(c)
  {
    hide Digits, ParseInt, SplitDots;
    SplitAtDot(Digits(c.audit), Digits(c.llm) + "." + Digits(c.tool));
    SplitAtDot(Digits(c.llm), Digits(c.tool));
    SplitNothing(Digits(c.tool));
    ParseIntOfDigits(c.audit);
    ParseIntOfDigits(c.llm);
    ParseIntOfDigits(c.tool);
  }

  /** A cursor can stand in an event stream's id field: no line end, no NUL. */
  lemma ShownCursorIsOneLine(c: Cursor)
    ensures forall i :: 0 <= i < |Show(c)| ==> IsDigit(Show(c)[i]) || Show(c)[i] == '.'
  {
    hide Digits;
  }
}

/** One poll of the change stream, and what a client that reconnects receives over time. */
module ChangeStream {
  import opened Domain
  import opened Audit
  import opened Cursors
  import opened Names
  import Log = AuditAppenders

  datatype Entry = Entry(tenant: string, payload: string)

  /** A row of llm_calls or tool_calls; a null agent reads as the empty name. */
  datatype Call = Call(id: nat, tenant: string, incident: Option<IncidentId>, agent: string)

  datatype Frame =
    | Ready(at: Cursor)
    | AuditRow(row: Row<Entry>, at: Cursor)
    | Activity(incident: IncidentId, agents: seq<string>, at: Cursor)

  const BATCH := 500

  function Take<T>(s: seq<T>, n: nat): seq<T> { if |s| <= n then s else s[..n] }

  /** The tenant's rows after number a, in order. */
  function After(log: seq<Row<Entry>>, tenant: string, a: nat): (found: seq<Row<Entry>>)
    ensures forall r :: r in found <==> r in log && r.content.tenant == tenant && r.number > a
  {
    if log == [] then []
    else (if log[0].content.tenant == tenant && log[0].number > a then [log[0]] else []) + After(log[1..], tenant, a)
  }

  /** The tenant's rows after number a up to number b, in order. */
  function Between(log: seq<Row<Entry>>, tenant: string, a: nat, b: nat): seq<Row<Entry>> {
    if log == [] then []
    else
      (if log[0].content.tenant == tenant && a < log[0].number <= b then [log[0]] else []) + Between(log[1..], tenant, a, b)
  }

  function CallsAfter(calls: seq<Call>, tenant: string, a: nat): (found: seq<Call>)
    ensures forall c :: c in found <==> c in calls && c.tenant == tenant && c.id > a
  {
    if calls == [] then []
    else (if calls[0].tenant == tenant && calls[0].id > a then [calls[0]] else []) + CallsAfter(calls[1..], tenant, a)
  }

  ghost predicate Ascending(log: seq<Row<Entry>>) {
    forall i, j :: 0 <= i < j < |log| ==> log[i].number < log[j].number
  }

  ghost predicate CallsAscending(calls: seq<Call>) {
    forall i, j :: 0 <= i < j < |calls| ==> calls[i].id < calls[j].id
  }

  // ----- One poll -----

  function RowsFound(log: seq<Row<Entry>>, tenant: string, since: Cursor): seq<Row<Entry>> {
    Take(After(log, tenant, since.audit), BATCH)
  }

  function CallsFound(calls: seq<Call>, tenant: string, a: nat): seq<Call> { Take(CallsAfter(calls, tenant, a), BATCH) }

  function LastCall(calls: seq<Call>, otherwise: nat): nat {
    if calls == [] then otherwise else calls[|calls| - 1].id
  }

  function LastRow(rows: seq<Row<Entry>>, otherwise: nat): nat {
    if rows == [] then otherwise else rows[|rows| - 1].number
  }

  /** Each audit row is delivered with the cursor to resume from once it has arrived. */
  function AuditFrames(rows: seq<Row<Entry>>, since: Cursor): (fs: seq<Frame>)
    ensures |fs| == |rows|
    ensures forall i :: 0 <= i < |rows| ==> fs[i] == AuditRow(rows[i], Cursor(rows[i].number, since.llm, since.tool))
  {
    if rows == [] then []
    else AuditFrames(rows[..|rows| - 1], since)
         + [AuditRow(rows[|rows| - 1], Cursor(rows[|rows| - 1].number, since.llm, since.tool))]
  }

  function AgentsOf(calls: seq<Call>, incident: IncidentId): set<string> {
    set c | c in calls && c.incident == Some(incident) && c.agent != "" :: c.agent
  }

  ghost predicate Touched(calls: seq<Call>, incident: IncidentId) {
    exists c :: c in calls && c.incident == Some(incident)
  }

  /** One frame for each incident the calls touch, with the agents that touched it, sorted; by incident. */
  ghost predicate ActivityFrames(calls: seq<Call>, after: Cursor, frames: seq<Frame>) {
    && (forall k :: 0 <= k < |frames| ==>
          && frames[k].Activity? && frames[k].at == after
          && Touched(calls, frames[k].incident)
          && IsSorted(frames[k].agents, AgentsOf(calls, frames[k].incident)))
    && (forall j, k :: 0 <= j < k < |frames| ==> frames[j].incident < frames[k].incident)
    && (forall i :: Touched(calls, i) ==> exists k :: 0 <= k < |frames| && frames[k].incident == i)
  }

  datatype Tables = Tables(log: seq<Row<Entry>>, llm: seq<Call>, tool: seq<Call>)

  /** What `changes` returns on these tables. */
  ghost predicate IsBatch(db: Tables, tenant: string, since: Cursor, out: seq<Frame>, after: Cursor) {
    var rows := RowsFound(db.log, tenant, since);
    var llm, tool := CallsFound(db.llm, tenant, since.llm), CallsFound(db.tool, tenant, since.tool);
    && after == Cursor(LastRow(rows, since.audit), LastCall(llm, since.llm), LastCall(tool, since.tool))
    && |rows| <= |out|
    && out[..|rows|] == AuditFrames(rows, since)
    && ActivityFrames(llm + tool, after, out[|rows|..])
  }

  ghost predicate Gathered(activity: map<IncidentId, set<string>>, calls: seq<Call>) {
    && (forall i :: i in activity <==> Touched(calls, i))
    && (forall i :: i in activity ==> activity[i] - {""} == AgentsOf(calls, i))
  }

  /** Note which agents touched which incidents, and how far the table was read. */
  method Gather(found: seq<Call>, before: map<IncidentId, set<string>>, since: nat, ghost calls: seq<Call>)
    returns (activity: map<IncidentId, set<string>>, last: nat)
    requires Gathered(before, calls)
    ensures Gathered(activity, calls + found) && last == LastCall(found, since)
  {
    activity, last := before, since;
    assert calls + found[..0] == calls;
    for n := 0 to |found|
      invariant last == LastCall(found[..n], since)
      invariant Gathered(activity, calls + found[..n])
    {
      var r := found[n];
      last := r.id;
      ghost var was := activity;
      if r.incident.Some? {
        var i := r.incident.value;
        activity := activity[i := (if i in activity then activity[i] else {}) + {r.agent}];
      }
      GatherOne(was, activity, calls + found[..n], r);
      assert found[..n + 1] == found[..n] + [r];
      assert calls + found[..n + 1] == (calls + found[..n]) + [r];
    }
    assert found[..|found|] == found;
  }

  lemma GatherOne(was: map<IncidentId, set<string>>, activity: map<IncidentId, set<string>>, calls: seq<Call>, r: Call)
    requires Gathered(was, calls)
    requires activity == match r.incident
                         case None => was
                         case Some(i) => was[i := (if i in was then was[i] else {}) + {r.agent}]
    ensures Gathered(activity, calls + [r])
  {
    var more := calls + [r];
    forall i ensures Touched(more, i) <==> Touched(calls, i) || r.incident == Some(i) {
      if Touched(calls, i) {
        var c :| c in calls && c.incident == Some(i);
        assert c in more;
      }
      if r.incident == Some(i) { assert r in more; }
    }
    forall i ensures AgentsOf(more, i) == AgentsOf(calls, i) + (if r.incident == Some(i) && r.agent != "" then {r.agent} else {}) {
    }
    forall i | i !in was ensures AgentsOf(calls, i) == {} {
      assert forall c :: c in calls ==> c.incident != Some(i);
    }
  }

  lemma EmptyOrNot(keys: set<IncidentId>)
    ensures keys == {} || exists k :: k in keys
  {
    if forall k :: k !in keys { assert keys == {}; }
  }

  lemma {:induction false} HasLeast(keys: set<IncidentId>)
    requires keys != {}
    ensures exists k :: k in keys && forall j :: j in keys ==> k <= j
    decreases |keys|
  {
    EmptyOrNot(keys);
    var k: IncidentId :| k in keys;
    var rest := keys - {k};
    assert forall j :: j in keys ==> j == k || j in rest;
    var least := k;
    if rest != {} {
      HasLeast(rest);
      var m :| m in rest && forall j :: j in rest ==> m <= j;
      if m < k { least := m; }
    }
    assert least in keys && forall j :: j in keys ==> least <= j;
  }

  /** What happened after `since`, oldest first, and the cursor to go on from. */
  method Changes(db: Tables, tenant: string, since: Cursor) returns (out: seq<Frame>, after: Cursor)
    ensures IsBatch(db, tenant, since, out, after)
  {
    out := [];
    var rows := RowsFound(db.log, tenant, since);
    var audit := since.audit;
    for n := 0 to |rows|
      invariant audit == LastRow(rows[..n], since.audit)
      invariant out == AuditFrames(rows[..n], since)
    {
      audit := rows[n].number;
      out := out + [AuditRow(rows[n], Cursor(audit, since.llm, since.tool))];
      assert rows[..n + 1][..n] == rows[..n];
    }
    assert rows[..|rows|] == rows;
    var llmFound, toolFound := CallsFound(db.llm, tenant, since.llm), CallsFound(db.tool, tenant, since.tool);
    var activity, llm := Gather(llmFound, map[], since.llm, []);
    assert [] + llmFound == llmFound;
    var tool;
    activity, tool := Gather(toolFound, activity, since.tool, llmFound);
    after := Cursor(audit, llm, tool);
    var frames := Announce(activity, llmFound + toolFound, after);
    out := out + frames;
    assert out[..|rows|] == AuditFrames(rows, since) && out[|rows|..] == frames;
  }

  /** The frames so far announce exactly the keys taken, and what is left comes after them. */
  ghost predicate Announced(calls: seq<Call>, after: Cursor, frames: seq<Frame>, activity: map<IncidentId, set<string>>, left: set<IncidentId>) {
    && left <= activity.Keys
    && (forall k :: 0 <= k < |frames| ==>
          && frames[k].Activity? && frames[k].at == after
          && frames[k].incident in activity.Keys - left
          && IsSorted(frames[k].agents, activity[frames[k].incident] - {""}))
    && (forall j, k :: 0 <= j < k < |frames| ==> frames[j].incident < frames[k].incident)
    && (forall k, i :: 0 <= k < |frames| && i in left ==> frames[k].incident < i)
    && (forall i :: i in activity.Keys - left ==> exists k :: 0 <= k < |frames| && frames[k].incident == i)
  }

  lemma AnnounceNext(calls: seq<Call>, after: Cursor, frames: seq<Frame>, activity: map<IncidentId, set<string>>, left: set<IncidentId>, i: IncidentId,
                     agents: seq<string>)
    requires Announced(calls, after, frames, activity, left)
    requires i in left && forall j :: j in left ==> i <= j
    requires IsSorted(agents, activity[i] - {""})
    ensures Announced(calls, after, frames + [Activity(i, agents, after)], activity, left - {i})
  {
    hide IsSorted;
    var longer := frames + [Activity(i, agents, after)];
    forall k | k in activity.Keys - (left - {i}) ensures exists n :: 0 <= n < |longer| && longer[n].incident == k {
      if k == i {
        assert longer[|frames|].incident == k;
      } else {
        assert k in activity.Keys - left;
        var n :| 0 <= n < |frames| && frames[n].incident == k;
        assert longer[n].incident == k;
      }
    }
  }

  method Announce(activity: map<IncidentId, set<string>>, ghost calls: seq<Call>, after: Cursor) returns (frames: seq<Frame>)
    requires Gathered(activity, calls)
    ensures ActivityFrames(calls, after, frames)
  {
    hide AgentsOf, Touched, IsSorted;
    frames := [];
    var left := activity.Keys;
    while left != {}
      invariant Announced(calls, after, frames, activity, left)
      decreases |left|
    {
      hide Announced;
      HasLeast(left);
      var i :| i in left && forall j :: j in left ==> i <= j;
      assert i in activity by { LeftIsKnown(calls, after, frames, activity, left, i); }
      var agents := Sorted(activity[i] - {""});
      AnnounceNext(calls, after, frames, activity, left, i, agents);
      frames := frames + [Activity(i, agents, after)];
      left := left - {i};
    }
    AllAnnounced(calls, after, frames, activity);
  }

  lemma AllAnnounced(calls: seq<Call>, after: Cursor, frames: seq<Frame>, activity: map<IncidentId, set<string>>)
    requires Gathered(activity, calls) && Announced(calls, after, frames, activity, {})
    ensures ActivityFrames(calls, after, frames)
  {
    hide AgentsOf, Touched, IsSorted;
    forall i | Touched(calls, i) ensures exists k :: 0 <= k < |frames| && frames[k].incident == i {
      assert i in activity.Keys - {};
    }
  }

  lemma LeftIsKnown(calls: seq<Call>, after: Cursor, frames: seq<Frame>, activity: map<IncidentId, set<string>>, left: set<IncidentId>, i: IncidentId)
    requires Announced(calls, after, frames, activity, left) && i in left
    ensures i in activity
  {
    assert i in activity.Keys;
  }
}

/** A client that resumes from the id of the last whole frame it received. */
module StreamResume {
  import opened Domain
  import opened Audit
  import opened Cursors
  import opened ChangeStream
  import Log = AuditAppenders
  import Sse

  /** A connection: where the server's loop stands, and the frames written but not yet received. */
  datatype Connection = Connection(cursor: Cursor, flight: seq<Frame>)

  datatype Stream = Stream(
    db: Log.Db<Entry>, tenant: string, conn: Option<Connection>, lastId: Option<string>, received: seq<Frame>)

  /** The database moves on; the client connects; the server polls; a frame arrives; the connection is cut. */
  datatype Event =
    | Write(e: Log.Event<Entry>)
    | Connect(llmNow: nat, toolNow: nat)
    | Poll(llm: seq<Call>, tool: seq<Call>, out: seq<Frame>, after: Cursor)
    | Deliver
    | Cut

  /** The largest number among the tenant's rows, or 0. */
  function Newest(log: seq<Row<Entry>>, tenant: string): nat {
    if log == [] then 0
    else
      var rest := Newest(log[1..], tenant);
      if log[0].content.tenant == tenant && log[0].number > rest then log[0].number else rest
  }

  function StartCursor(s: Stream, llmNow: nat, toolNow: nat): Cursor {
    var given := Parse(s.lastId);
    if given.Some? then given.value else Cursor(Newest(s.db.committed, s.tenant), llmNow, toolNow)
  }

  /** A poll happens with whatever the tables hold at that moment. */
  ghost predicate CanPoll(s: Stream, e: Event)
    requires e.Poll?
  {
    s.conn.Some? && IsBatch(Tables(s.db.committed, e.llm, e.tool), s.tenant, s.conn.value.cursor, e.out, e.after)
  }

  ghost function Step(s: Stream, e: Event): Stream {
    match e
    case Write(w) => s.(db := Log.Step(s.db, w))
    case Connect(llmNow, toolNow) =>
      var start := StartCursor(s, llmNow, toolNow);
      s.(conn := Some(Connection(start, [Ready(start)])))
    case Poll(_, _, out, after) =>
      if CanPoll(s, e) then s.(conn := Some(Connection(after, s.conn.value.flight + out))) else s
    case Deliver =>
      if s.conn.None? || s.conn.value.flight == [] then s
      else
        var f := s.conn.value.flight[0];
        s.(conn := Some(s.conn.value.(flight := s.conn.value.flight[1..])),
           received := s.received + [f], lastId := Some(Show(f.at)))
    case Cut => s.(conn := None)
  }

  ghost function Run(tenant: string, lastId: Option<string>, events: seq<Event>): Stream {
    if events == [] then Stream(Log.Run([]), tenant, None, lastId, [])
    else Step(Run(tenant, lastId, events[..|events| - 1]), events[|events| - 1])
  }

  /** The audit rows among the frames, in the order received. */
  function RowsOf(frames: seq<Frame>): seq<Row<Entry>> {
    if frames == [] then [] else (if frames[0].AuditRow? then [frames[0].row] else []) + RowsOf(frames[1..])
  }

  // ----- Windows of the log -----

  lemma {:induction false} NothingBelow(log: seq<Row<Entry>>, tenant: string, a: nat, b: nat)
    requires forall i :: 0 <= i < |log| ==> log[i].number > b
    ensures Between(log, tenant, a, b) == []
  {
    if log != [] { NothingBelow(log[1..], tenant, a, b); }
  }

  lemma {:induction false} EmptyWindow(log: seq<Row<Entry>>, tenant: string, a: nat)
    ensures Between(log, tenant, a, a) == []
  {
    if log != [] { EmptyWindow(log[1..], tenant, a); }
  }

  lemma {:induction false} WindowsJoin(log: seq<Row<Entry>>, tenant: string, a: nat, b: nat, c: nat)
    requires Ascending(log) && a <= b <= c
    ensures Between(log, tenant, a, b) + Between(log, tenant, b, c) == Between(log, tenant, a, c)
  {
    if log != [] {
      WindowsJoin(log[1..], tenant, a, b, c);
      if log[0].number > b { NothingBelow(log[1..], tenant, a, b); }
    }
  }

  /** Rows committed later than row number b do not change a window that ends at b. */
  lemma {:induction false} WindowIsStable(log: seq<Row<Entry>>, more: seq<Row<Entry>>, tenant: string, a: nat, b: nat)
    requires forall i :: 0 <= i < |more| ==> more[i].number > b
    ensures Between(log + more, tenant, a, b) == Between(log, tenant, a, b)
  {
    if log == [] {
      assert log + more == more;
      NothingBelow(more, tenant, a, b);
    } else {
      assert (log + more)[1..] == log[1..] + more;
      WindowIsStable(log[1..], more, tenant, a, b);
    }
  }

  lemma {:induction false} AfterSkips(log: seq<Row<Entry>>, tenant: string, a: nat, b: nat)
    requires forall i :: 0 <= i < |log| ==> log[i].number > b && log[i].number > a
    ensures After(log, tenant, a) == After(log, tenant, b)
  {
    if log != [] { AfterSkips(log[1..], tenant, a, b); }
  }

  /** The first row found is alone in its window, and the rest is what comes after it. */
  lemma {:induction false} FirstFound(log: seq<Row<Entry>>, tenant: string, a: nat)
    requires Ascending(log) && After(log, tenant, a) != []
    ensures var r := After(log, tenant, a)[0];
            && r in log && r.number > a
            && Between(log, tenant, a, r.number) == [r]
            && After(log, tenant, r.number) == After(log, tenant, a)[1..]
  {
    if log[0].content.tenant == tenant && log[0].number > a {
      NothingBelow(log[1..], tenant, a, log[0].number);
      AfterSkips(log[1..], tenant, a, log[0].number);
    } else {
      FirstFound(log[1..], tenant, a);
    }
  }

  // ----- What a run keeps -----

  /** A frame takes the client's audit position from a to its own cursor without skipping a row. */
  ghost predicate Advances(log: seq<Row<Entry>>, tenant: string, a: nat, f: Frame) {
    match f
    case AuditRow(row, at) => at.audit == row.number && row in log && a < row.number && Between(log, tenant, a, row.number) == [row]
    case _ => f.at.audit == a
  }

  ghost predicate Path(log: seq<Row<Entry>>, tenant: string, a: nat, frames: seq<Frame>, end: nat)
    decreases |frames|
  {
    if frames == [] then a == end
    else Advances(log, tenant, a, frames[0]) && Path(log, tenant, frames[0].at.audit, frames[1..], end)
  }

  lemma {:induction false} PathsJoin(log: seq<Row<Entry>>, tenant: string, a: nat, f: seq<Frame>, b: nat, g: seq<Frame>, c: nat)
    requires Path(log, tenant, a, f, b) && Path(log, tenant, b, g, c)
    ensures Path(log, tenant, a, f + g, c)
    decreases |f|
  {
    hide Advances;
    if f == [] {
      assert f + g == g;
    } else {
      PathsJoin(log, tenant, f[0].at.audit, f[1..], b, g, c);
      assert (f + g)[1..] == f[1..] + g;
    }
  }

  lemma AdvancesStill(log: seq<Row<Entry>>, more: seq<Row<Entry>>, tenant: string, a: nat, f: Frame)
    requires Advances(log, tenant, a, f) && Ascending(log + more)
    ensures Advances(log + more, tenant, a, f)
  {
    if f.AuditRow? {
      var i :| 0 <= i < |log| && log[i] == f.row;
      forall k | 0 <= k < |more| ensures more[k].number > f.row.number {
        assert (log + more)[i].number < (log + more)[|log| + k].number;
      }
      WindowIsStable(log, more, tenant, a, f.row.number);
    }
  }

  lemma {:induction false} PathStill(log: seq<Row<Entry>>, more: seq<Row<Entry>>, tenant: string, a: nat, f: seq<Frame>, end: nat)
    requires Path(log, tenant, a, f, end) && Ascending(log + more)
    ensures Path(log + more, tenant, a, f, end)
    decreases |f|
  {
    hide Advances, Ascending;
    if f != [] {
      AdvancesStill(log, more, tenant, a, f[0]);
      PathStill(log, more, tenant, f[0].at.audit, f[1..], end);
    }
  }

  /** The rows along a path are exactly the window it crosses. */
  lemma {:induction false} PathRows(log: seq<Row<Entry>>, tenant: string, a: nat, f: seq<Frame>, end: nat)
    requires Path(log, tenant, a, f, end) && Ascending(log)
    ensures a <= end && RowsOf(f) == Between(log, tenant, a, end)
    decreases |f|
  {
    if f == [] {
      EmptyWindow(log, tenant, a);
    } else {
      var b := f[0].at.audit;
      PathRows(log, tenant, b, f[1..], end);
      if !f[0].AuditRow? { EmptyWindow(log, tenant, a); }
      hide Between;
      WindowsJoin(log, tenant, a, b, end);
    }
  }

  /** The audit frames of a batch are a path from the cursor they were asked for. */
  lemma {:induction false} AuditFramesArePath(log: seq<Row<Entry>>, tenant: string, a: nat, rows: seq<Row<Entry>>, frames: seq<Frame>)
    requires Ascending(log) && rows <= After(log, tenant, a)
    requires |frames| == |rows| && forall i :: 0 <= i < |rows| ==> frames[i].AuditRow? && frames[i].row == rows[i] && frames[i].at.audit == rows[i].number
    ensures Path(log, tenant, a, frames, LastRow(rows, a))
    decreases |rows|
  {
    if rows != [] {
      FirstFound(log, tenant, a);
      hide Ascending, After, Between;
      AuditFramesArePath(log, tenant, rows[0].number, rows[1..], frames[1..]);
    }
  }

  lemma {:induction false} StayingPut(log: seq<Row<Entry>>, tenant: string, a: nat, frames: seq<Frame>)
    requires forall i :: 0 <= i < |frames| ==> !frames[i].AuditRow? && frames[i].at.audit == a
    ensures Path(log, tenant, a, frames, a)
    decreases |frames|
  {
    if frames != [] { StayingPut(log, tenant, a, frames[1..]); }
  }

  lemma BatchIsPath(db: Tables, tenant: string, since: Cursor, out: seq<Frame>, after: Cursor)
    requires Ascending(db.log) && IsBatch(db, tenant, since, out, after)
    ensures Path(db.log, tenant, since.audit, out, after.audit)
  {
    hide After, CallsFound, Touched, AgentsOf, Ascending, Path;
    var rows := RowsFound(db.log, tenant, since);
    AuditFramesArePath(db.log, tenant, since.audit, rows, out[..|rows|]);
    StayingPut(db.log, tenant, after.audit, out[|rows|..]);
    PathsJoin(db.log, tenant, since.audit, out[..|rows|], after.audit, out[|rows|..], after.audit);
    assert out[..|rows|] + out[|rows|..] == out;
  }

  /** Where the client's audit position starts from: the cursor of the first frame it ever received. */
  function Origin(s: Stream): nat
    requires s.received != []
  {
    s.received[0].at.audit
  }

  function Position(s: Stream): Cursor
    requires s.received != []
  {
    s.received[|s.received| - 1].at
  }

  ghost predicate Inv(s: Stream) {
    && Log.Inv(s.db)
    && Ascending(s.db.committed)
    && (s.received != [] ==> s.lastId == Some(Show(Position(s))) && Path(s.db.committed, s.tenant, Origin(s), s.received, Position(s).audit))
    && (s.conn.Some? ==>
          var conn := s.conn.value;
          && (s.received == [] ==> conn.flight != [])
          && Path(s.db.committed, s.tenant, if s.received != [] then Position(s).audit else conn.flight[0].at.audit,
                  conn.flight, conn.cursor.audit))
  }

  /** Whatever a transaction does, committed rows are only added at the end, with larger numbers. */
  lemma WriteExtends(db: Log.Db<Entry>, w: Log.Event<Entry>)
    requires Log.Inv(db)
    ensures Log.Inv(Log.Step(db, w)) && Ascending(Log.Step(db, w).committed)
    ensures Log.Step(db, w).committed == db.committed + Log.Step(db, w).committed[|db.committed|..]
  {
    Log.StepKeepsInv(db, w);
    hide Log.Step;
    assert Log.OneChain(Log.Step(db, w).committed, Log.Step(db, w).nextNumber);
  }

  lemma WriteKeepsInv(s: Stream, w: Log.Event<Entry>)
    requires Inv(s)
    ensures Inv(Step(s, Write(w)))
  {
    hide Path, Ascending, Log.Inv, Log.Step, Show;
    WriteExtends(s.db, w);
    var db := Log.Step(s.db, w);
    var more := db.committed[|s.db.committed|..];
    if s.received != [] {
      PathStill(s.db.committed, more, s.tenant, Origin(s), s.received, Position(s).audit);
    }
    if s.conn.Some? {
      var conn := s.conn.value;
      PathStill(s.db.committed, more, s.tenant, if s.received != [] then Position(s).audit else conn.flight[0].at.audit,
                conn.flight, conn.cursor.audit);
    }
  }

  lemma DeliverKeepsInv(s: Stream)
    requires Inv(s)
    ensures Inv(Step(s, Deliver))
  {
    hide Log.Inv, Ascending, Advances, Show;
    if s.conn.Some? && s.conn.value.flight != [] {
      var conn := s.conn.value;
      var f := conn.flight[0];
      var log := s.db.committed;
      if s.received == [] {
        assert Path(log, s.tenant, f.at.audit, [f], f.at.audit) by {
          assert [f][1..] == [];
          hide Between;
        }
        assert s.received + [f] == [f];
      } else {
        assert Path(log, s.tenant, Position(s).audit, [f], f.at.audit) by { assert [f][1..] == []; }
        PathsJoin(log, s.tenant, Origin(s), s.received, Position(s).audit, [f], f.at.audit);
      }
    }
  }

  lemma StepKeepsInv(s: Stream, e: Event)
    requires Inv(s)
    ensures Inv(Step(s, e))
  {
    hide Log.Inv, Ascending, IsBatch, Show, Parse;
    match e
    case Write(w) => WriteKeepsInv(s, w);
    case Deliver => DeliverKeepsInv(s);
    case Cut =>
    case Connect(llmNow, toolNow) =>
      if s.received != [] { CursorRoundTrip(Position(s)); }
      var start := StartCursor(s, llmNow, toolNow);
      StayingPut(s.db.committed, s.tenant, start.audit, [Ready(start)]);
    case Poll(llm, tool, out, after) =>
      if CanPoll(s, e) {
        var conn := s.conn.value;
        BatchIsPath(Tables(s.db.committed, llm, tool), s.tenant, conn.cursor, out, after);
        PathsJoin(s.db.committed, s.tenant, if s.received != [] then Position(s).audit else conn.flight[0].at.audit,
                  conn.flight, conn.cursor.audit, out, after.audit);
      }
  }

  lemma {:induction false} RunKeepsInv(tenant: string, lastId: Option<string>, events: seq<Event>)
    ensures Inv(Run(tenant, lastId, events)) && Run(tenant, lastId, events).tenant == tenant
    decreases |events|
  {
    if events != [] {
      RunKeepsInv(tenant, lastId, events[..|events| - 1]);
      StepKeepsInv(Run(tenant, lastId, events[..|events| - 1]), events[|events| - 1]);
    }
  }

  /**
   * Whatever is appended meanwhile, wherever connections are cut between frames and however the
   * rows fall into batches, the audit rows received are exactly the tenant's committed rows
   * from the first cursor to the last, each once, in order.
   */
  lemma EachRowOnceInOrder(tenant: string, lastId: Option<string>, events: seq<Event>)
    ensures var s := Run(tenant, lastId, events);
            s.received != [] ==>
              && RowsOf(s.received) == Between(s.db.committed, tenant, Origin(s), Position(s).audit)
              && s.lastId == Some(Show(Position(s)))
  {
    RunKeepsInv(tenant, lastId, events);
    var s := Run(tenant, lastId, events);
    if s.received != [] {
      PathRows(s.db.committed, tenant, Origin(s), s.received, Position(s).audit);
    }
  }

  lemma {:induction false} WindowThenRest(log: seq<Row<Entry>>, tenant: string, a: nat, b: nat)
    requires Ascending(log) && a <= b
    ensures Between(log, tenant, a, b) + After(log, tenant, b) == After(log, tenant, a)
  {
    if log != [] {
      WindowThenRest(log[1..], tenant, a, b);
      if log[0].number > b { NothingBelow(log[1..], tenant, a, b); }
    }
  }

  /** A client with nothing left to fetch has received everything since its first cursor. */
  lemma CaughtUpMeansComplete(tenant: string, lastId: Option<string>, events: seq<Event>)
    ensures var s := Run(tenant, lastId, events);
            s.received != [] && After(s.db.committed, tenant, Position(s).audit) == []
            ==> RowsOf(s.received) == After(s.db.committed, tenant, Origin(s))
  {
    RunKeepsInv(tenant, lastId, events);
    var s := Run(tenant, lastId, events);
    if s.received != [] {
      EachRowOnceInOrder(tenant, lastId, events);
      PathRows(s.db.committed, tenant, Origin(s), s.received, Position(s).audit);
      WindowThenRest(s.db.committed, tenant, Origin(s), Position(s).audit);
    }
  }

  // ----- Activity frames -----

  /** The cursor a client resumes from after the first j frames of a batch. */
  function ResumeAt(since: Cursor, out: seq<Frame>, j: nat): Cursor
    requires j <= |out|
  {
    if j == 0 then since else out[j - 1].at
  }

  ghost predicate Told(out: seq<Frame>, j: nat, incident: IncidentId)
    requires j <= |out|
  {
    exists k :: 0 <= k < j && out[k].Activity? && out[k].incident == incident
  }

  /** Each call found for an incident was announced before the cut or is found again after it. */
  ghost predicate NothingLost(db: Tables, tenant: string, since: Cursor, out: seq<Frame>, j: nat)
    requires j <= |out|
  {
    var at := ResumeAt(since, out, j);
    && (forall c :: c in CallsFound(db.llm, tenant, since.llm) && c.incident.Some? ==>
          Told(out, j, c.incident.value) || c in CallsFound(db.llm, tenant, at.llm))
    && (forall c :: c in CallsFound(db.tool, tenant, since.tool) && c.incident.Some? ==>
          Told(out, j, c.incident.value) || c in CallsFound(db.tool, tenant, at.tool))
  }

  lemma FoundUpToLast(calls: seq<Call>, tenant: string, a: nat, c: Call)
    requires CallsAscending(calls) && c in CallsFound(calls, tenant, a)
    ensures c.id <= LastCall(CallsFound(calls, tenant, a), a)
  {
    CallsStayAscending(calls, tenant, a);
  }

  lemma {:induction false} CallsStayAscending(calls: seq<Call>, tenant: string, a: nat)
    requires CallsAscending(calls)
    ensures CallsAscending(CallsAfter(calls, tenant, a))
  {
    if calls != [] {
      CallsStayAscending(calls[1..], tenant, a);
      forall c | c in CallsAfter(calls[1..], tenant, a) ensures c.id > calls[0].id {
        var i :| 0 <= i < |calls[1..]| && calls[1..][i] == c;
        assert calls[i + 1] == c;
      }
    }
  }

  /**
   * Resuming after j frames of a batch loses no activity exactly if the cut does not fall between
   * two activity frames: each of those carries the cursor of the whole batch.
   */
  lemma ActivitySurvivesCut(db: Tables, tenant: string, since: Cursor, out: seq<Frame>, after: Cursor, j: nat)
    requires CallsAscending(db.llm) && CallsAscending(db.tool) && IsBatch(db, tenant, since, out, after) && j <= |out|
    ensures NothingLost(db, tenant, since, out, j) <==> j <= |RowsFound(db.log, tenant, since)| || j == |out|
  {
    var n := |RowsFound(db.log, tenant, since)|;
    var llm, tool := CallsFound(db.llm, tenant, since.llm), CallsFound(db.tool, tenant, since.tool);
    hide RowsFound, CallsFound, AgentsOf;
    if j <= n {
      if j > 0 { assert out[..n][j - 1] == out[j - 1]; }
    } else if j == |out| {
      forall c: Call | c in llm + tool && c.incident.Some? ensures Told(out, j, c.incident.value) {
        assert Touched(llm + tool, c.incident.value);
        var k :| 0 <= k < |out[n..]| && out[n..][k].incident == c.incident.value;
        assert out[n + k].Activity?;
      }
    } else {
      LaterFrameIsLost(db, tenant, since, out, after, j);
    }
  }

  lemma LaterFrameIsLost(db: Tables, tenant: string, since: Cursor, out: seq<Frame>, after: Cursor, j: nat)
    requires CallsAscending(db.llm) && CallsAscending(db.tool) && IsBatch(db, tenant, since, out, after)
    requires |RowsFound(db.log, tenant, since)| < j < |out|
    ensures !NothingLost(db, tenant, since, out, j)
  {
    var n := |RowsFound(db.log, tenant, since)|;
    var llm, tool := CallsFound(db.llm, tenant, since.llm), CallsFound(db.tool, tenant, since.tool);
    hide RowsFound, CallsFound, AgentsOf, Told;
    var lost := out[n..][j - n].incident;
    assert Touched(llm + tool, lost);
    assert forall k :: 0 <= k < n ==> out[k] == out[..n][k];
    NotToldYet(out, n, llm + tool, after, j);
    var c: Call :| c in llm + tool && c.incident == Some(lost);
    if c in llm { FoundUpToLast(db.llm, tenant, since.llm, c); } else { FoundUpToLast(db.tool, tenant, since.tool, c); }
    FoundAreLater(db.llm, tenant, after.llm);
    FoundAreLater(db.tool, tenant, after.tool);
  }

  lemma FoundAreLater(calls: seq<Call>, tenant: string, a: nat)
    ensures forall c :: c in CallsFound(calls, tenant, a) ==> c.id > a
  {
  }

  lemma NotToldYet(out: seq<Frame>, n: nat, calls: seq<Call>, after: Cursor, j: nat)
    requires n < j < |out| && ActivityFrames(calls, after, out[n..])
    requires forall k :: 0 <= k < n ==> out[k].AuditRow?
    ensures out[j - 1].at == after && !Told(out, j, out[n..][j - n].incident)
  {
    hide AgentsOf, Touched;
    var frames := out[n..];
    assert out[j - 1] == frames[j - 1 - n];
    forall k | 0 <= k < j && out[k].Activity? ensures out[k].incident != frames[j - n].incident {
      if k >= n { assert frames[k - n].incident < frames[j - n].incident; }
    }
  }

  // ----- On the wire -----

  function EventName(f: Frame): string {
    match f
    case Ready(_) => "ready"
    case AuditRow(_, _) => "audit"
    case Activity(_, _, _) => "activity"
  }

  /** What is written for a connection: the reconnect delay, then a frame with its cursor and JSON text. */
  function Written(frames: seq<Frame>, json: Frame -> string): (items: seq<Sse.Item>)
    ensures |items| == |frames|
    ensures forall i :: 0 <= i < |frames| ==> items[i] == Sse.Frame(Show(frames[i].at), EventName(frames[i]), json(frames[i]))
  {
    if frames == [] then []
    else Written(frames[..|frames| - 1], json)
         + [Sse.Frame(Show(frames[|frames| - 1].at), EventName(frames[|frames| - 1]), json(frames[|frames| - 1]))]
  }

  /** One event per frame, in order: the frame's cursor, name and JSON text. */
  ghost predicate OneEventPerFrame(events: seq<Sse.SseEvent>, frames: seq<Frame>, json: Frame -> string) {
    && |events| == |frames|
    && forall i :: 0 <= i < |frames| ==>
         events[i] == Sse.SseEvent(Some(Show(frames[i].at)), EventName(frames[i]), json(frames[i]))
  }

  lemma CursorIsSendable(c: Cursor)
    ensures Sse.NoNewline(Show(c)) && '\0' !in Show(c)
  {
    hide Show;
    ShownCursorIsOneLine(c);
    assert forall k :: 0 <= k < |Show(c)| ==> Show(c)[k] != '\0';
  }

  lemma EventNameIsSendable(f: Frame)
    ensures Sse.NoNewline(EventName(f)) && EventName(f) != ""
  {
  }

  lemma RetryIsSendable()
    ensures Sse.Sendable(Sse.Retry("2000"))
  {
  }

  lemma WrittenIsSendable(frames: seq<Frame>, json: Frame -> string, i: nat)
    requires i < |frames| && Sse.NoNewline(json(frames[i]))
    ensures Sse.Sendable(Written(frames, json)[i])
  {
    hide Show, EventName, Written, Sse.NoNewline;
    CursorIsSendable(frames[i].at);
    EventNameIsSendable(frames[i]);
  }

  /** However the bytes are cut into chunks, the console's parser hands over one event per frame written, under its cursor. */
  lemma ParserReturnsFrames(frames: seq<Frame>, json: Frame -> string, chunks: seq<string>)
    requires forall i :: 0 <= i < |frames| ==> Sse.NoNewline(json(frames[i]))
    requires Sse.Concat(chunks) == Sse.Texts([Sse.Retry("2000")] + Written(frames, json))
    ensures OneEventPerFrame(Sse.FedAll(Sse.NEW_PARSER, chunks).1, frames, json) && Sse.AtRest(Sse.FedAll(Sse.NEW_PARSER, chunks).0)
  {
    var written := Written(frames, json);
    var items := [Sse.Retry("2000")] + written;
    RetryIsSendable();
    hide Written, OneEventPerFrame, Sse.FramesOf, Sse.FedAll, Sse.Texts, Sse.Concat, Sse.Sendable, Sse.NoNewline, Sse.AtRest, Show, EventName;
    forall i | 0 <= i < |items| ensures Sse.Sendable(items[i]) {
      if i > 0 { WrittenIsSendable(frames, json, i - 1); }
    }
    Sse.FramesSurviveChunking(items, chunks);
    EventsOfFrames(frames, json);
  }

  lemma {:induction false} EventsOfFrames(frames: seq<Frame>, json: Frame -> string)
    ensures OneEventPerFrame(Sse.FramesOf([Sse.Retry("2000")] + Written(frames, json)), frames, json)
  {
    hide Show, EventName;
    var written := Written(frames, json);
    assert ([Sse.Retry("2000")] + written)[1..] == written;
    assert Sse.FramesOf([Sse.Retry("2000")] + written) == Sse.FramesOf(written);
    ItemsOneByOne(written);
  }

  lemma {:induction false} ItemsOneByOne(items: seq<Sse.Item>)
    requires forall i :: 0 <= i < |items| ==> items[i].Frame?
    ensures |Sse.FramesOf(items)| == |items|
    ensures forall i :: 0 <= i < |items| ==> Sse.FramesOf(items)[i] == Sse.SseEvent(Some(items[i].id), items[i].event, items[i].data)
  {
    if items != [] { ItemsOneByOne(items[1..]); }
  }

  // ----- Cuts inside a frame -----

  /** One poll of a connection: the tables it read, the frames it wrote and the cursor it went on from. */
  datatype Round = Round(db: Tables, out: seq<Frame>, after: Cursor)

  function CursorAfter(start: Cursor, rounds: seq<Round>): Cursor {
    if rounds == [] then start else rounds[|rounds| - 1].after
  }

  /** The polls of one connection, each from the cursor the one before it returned. */
  ghost predicate Connected(tenant: string, start: Cursor, rounds: seq<Round>) {
    rounds != [] ==>
      var before, last := rounds[..|rounds| - 1], rounds[|rounds| - 1];
      Connected(tenant, start, before) && IsBatch(last.db, tenant, CursorAfter(start, before), last.out, last.after)
  }

  /** All frames of the connection. */
  function Sent(start: Cursor, rounds: seq<Round>): (frames: seq<Frame>)
    ensures frames != []
  {
    if rounds == [] then [Ready(start)] else Sent(start, rounds[..|rounds| - 1]) + rounds[|rounds| - 1].out
  }

  /** What the client resumes from after the whole frames of a connection. */
  function Seen(frames: seq<Frame>): Cursor
    requires frames != []
  {
    frames[|frames| - 1].at
  }

  /** The last frame written says how far the audit log was read; the call tables may have been read further. */
  ghost predicate NotAhead(seen: Cursor, since: Cursor) {
    seen.audit == since.audit && seen.llm <= since.llm && seen.tool <= since.tool
  }

  /** The next poll from the cursor `at` will come to what the frame told, once more. */
  ghost predicate FoundAgain(db: Tables, tenant: string, since: Cursor, at: Cursor, f: Frame) {
    match f
    case Ready(_) => true
    case AuditRow(row, _) => row in After(db.log, tenant, at.audit)
    case Activity(i, _, _) =>
      && (forall c :: c in CallsFound(db.llm, tenant, since.llm) && c.incident == Some(i) ==> c in CallsAfter(db.llm, tenant, at.llm))
      && (forall c :: c in CallsFound(db.tool, tenant, since.tool) && c.incident == Some(i) ==> c in CallsAfter(db.tool, tenant, at.tool))
  }

  lemma CallsMoveOn(calls: seq<Call>, tenant: string, a: nat)
    ensures a <= LastCall(CallsFound(calls, tenant, a), a)
  {
    var found := CallsFound(calls, tenant, a);
    if found != [] { assert found[|found| - 1] in CallsAfter(calls, tenant, a); }
  }

  /** The parts of a batch: its rows' frames, each at its row's number, then the activity, all at the last cursor. */
  lemma BatchParts(db: Tables, tenant: string, since: Cursor, out: seq<Frame>, after: Cursor, j: nat)
    requires IsBatch(db, tenant, since, out, after) && j < |out|
    ensures var rows := RowsFound(db.log, tenant, since);
            && (j < |rows| ==> out[j] == AuditRow(rows[j], Cursor(rows[j].number, since.llm, since.tool)) && rows[j] in After(db.log, tenant, since.audit))
            && (j >= |rows| ==> out[j].Activity? && out[j].at == after)
  {
    hide After, CallsFound, AgentsOf, Touched, RowsFound;
    var n := |RowsFound(db.log, tenant, since)|;
    if j < n {
      assert out[j] == out[..n][j];
      RowsFoundAreAfter(db.log, tenant, since, j);
    } else {
      assert out[j] == out[n..][j - n];
    }
  }

  lemma RowsFoundAreAfter(log: seq<Row<Entry>>, tenant: string, since: Cursor, j: nat)
    requires j < |RowsFound(log, tenant, since)|
    ensures RowsFound(log, tenant, since)[j] in After(log, tenant, since.audit)
  {
    hide After;
    assert RowsFound(log, tenant, since)[j] == After(log, tenant, since.audit)[j];
  }

  lemma {:induction false} SeenIsNotAhead(tenant: string, start: Cursor, rounds: seq<Round>)
    requires Connected(tenant, start, rounds)
    ensures NotAhead(Seen(Sent(start, rounds)), CursorAfter(start, rounds))
    decreases |rounds|
  {
    hide IsBatch;
    if rounds != [] {
      var before, last := rounds[..|rounds| - 1], rounds[|rounds| - 1];
      SeenIsNotAhead(tenant, start, before);
      BatchMovesOn(last.db, tenant, CursorAfter(start, before), last.out, last.after);
      SeenOfMore(Sent(start, before), last.out);
    }
  }

  lemma SeenOfMore(frames: seq<Frame>, out: seq<Frame>)
    requires frames != []
    ensures frames + out != [] && Seen(frames + out) == if out == [] then Seen(frames) else Seen(out)
  {
    assert out != [] ==> (frames + out)[|frames + out| - 1] == out[|out| - 1];
    assert out == [] ==> frames + out == frames;
  }

  lemma BatchMovesOn(db: Tables, tenant: string, since: Cursor, out: seq<Frame>, after: Cursor)
    requires IsBatch(db, tenant, since, out, after)
    ensures since.llm <= after.llm && since.tool <= after.tool
    ensures if out == [] then after.audit == since.audit else NotAhead(Seen(out), after)
  {
    hide After, AgentsOf, Touched;
    CallsMoveOn(db.llm, tenant, since.llm);
    CallsMoveOn(db.tool, tenant, since.tool);
    if out != [] { BatchParts(db, tenant, since, out, after, |out| - 1); }
    hide CallsFound, RowsFound;
  }

  /** Along a path each frame starts from where the one before it ended. */
  lemma {:induction false} PathAt(log: seq<Row<Entry>>, tenant: string, a: nat, frames: seq<Frame>, end: nat, j: nat)
    requires Path(log, tenant, a, frames, end) && j < |frames|
    ensures Advances(log, tenant, if j == 0 then a else frames[j - 1].at.audit, frames[j])
    decreases |frames|
  {
    hide Advances;
    if j > 0 { PathAt(log, tenant, frames[0].at.audit, frames[1..], end, j - 1); }
  }

  /** An audit row is found again from the cursor before it, and not from its own. */
  lemma RowFoundAgain(db: Tables, tenant: string, since: Cursor, out: seq<Frame>, after: Cursor, j: nat, at: Cursor)
    requires Ascending(db.log) && IsBatch(db, tenant, since, out, after) && j < |out| && out[j].AuditRow?
    requires at.audit == out[j].at.audit || at.audit == (if j == 0 then since.audit else out[j - 1].at.audit)
    ensures FoundAgain(db, tenant, since, at, out[j]) <==> at.audit != out[j].at.audit
  {
    hide IsBatch, CallsFound, Between, Ascending;
    BatchIsPath(db, tenant, since, out, after);
    PathAt(db.log, tenant, since.audit, out, after.audit, j);
    BatchParts(db, tenant, since, out, after, j);
  }

  /** The poll read a call that touched the frame's incident, and its cursor is at or after that call. */
  lemma TouchedCall(db: Tables, tenant: string, since: Cursor, out: seq<Frame>, after: Cursor, j: nat) returns (c: Call, fromModel: bool)
    requires CallsAscending(db.llm) && CallsAscending(db.tool) && IsBatch(db, tenant, since, out, after)
    requires j < |out| && out[j].Activity?
    ensures c.incident == Some(out[j].incident)
    ensures if fromModel then c in CallsFound(db.llm, tenant, since.llm) && since.llm < c.id <= after.llm
            else c in CallsFound(db.tool, tenant, since.tool) && since.tool < c.id <= after.tool
  {
    hide RowsFound, AgentsOf, CallsAscending, CallsFound;
    var n := |RowsFound(db.log, tenant, since)|;
    var llm, tool := CallsFound(db.llm, tenant, since.llm), CallsFound(db.tool, tenant, since.tool);
    BatchParts(db, tenant, since, out, after, j);
    assert out[j] == out[n..][j - n];
    assert Touched(llm + tool, out[j].incident);
    c :| c in llm + tool && c.incident == Some(out[j].incident);
    fromModel := c in llm;
    FoundIsInTable(db.llm, tenant, since.llm);
    FoundIsInTable(db.tool, tenant, since.tool);
    if fromModel { FoundUpToLast(db.llm, tenant, since.llm, c); } else { FoundUpToLast(db.tool, tenant, since.tool, c); }
  }

  /** Activity is found again from a cursor that is not ahead of the poll's start, and not from the poll's end. */
  lemma ActivityFoundAgain(db: Tables, tenant: string, since: Cursor, out: seq<Frame>, after: Cursor, j: nat, at: Cursor)
    requires CallsAscending(db.llm) && CallsAscending(db.tool) && IsBatch(db, tenant, since, out, after)
    requires j < |out| && out[j].Activity?
    requires at == after || (at.llm <= since.llm && at.tool <= since.tool)
    ensures FoundAgain(db, tenant, since, at, out[j]) <==> at.llm <= since.llm && at.tool <= since.tool
  {
    hide IsBatch, CallsAscending, CallsFound;
    var c, fromModel := TouchedCall(db, tenant, since, out, after, j);
    FoundIsInTable(db.llm, tenant, since.llm);
    FoundIsInTable(db.tool, tenant, since.tool);
    if at == after {
      assert fromModel ==> c !in CallsAfter(db.llm, tenant, at.llm);
      assert !fromModel ==> c !in CallsAfter(db.tool, tenant, at.tool);
    }
  }

  lemma FoundIsInTable(calls: seq<Call>, tenant: string, a: nat)
    ensures forall c :: c in CallsFound(calls, tenant, a) ==> c in calls && c.tenant == tenant && c.id > a
  {
    assert forall c :: c in CallsFound(calls, tenant, a) ==> c in CallsAfter(calls, tenant, a);
  }

  /** Where a client resumes whose connection is cut after k characters of frame j. */
  function ResumeInside(before: Cursor, f: Frame, k: nat): Cursor {
    if k < |Sse.Line("id", Show(f.at))| then before else f.at
  }

  /** The frame is activity and comes right after activity of the same poll. */
  predicate FollowsActivity(out: seq<Frame>, j: nat)
    requires j < |out|
  {
    out[j].Activity? && j > 0 && out[j - 1].Activity?
  }

  lemma CutFrameFoundAgain(tenant: string, start: Cursor, rounds: seq<Round>, r: Round, j: nat, k: nat)
    requires Connected(tenant, start, rounds) && IsBatch(r.db, tenant, CursorAfter(start, rounds), r.out, r.after)
    requires Ascending(r.db.log) && CallsAscending(r.db.llm) && CallsAscending(r.db.tool) && j < |r.out|
    ensures var at := ResumeInside(Seen(Sent(start, rounds) + r.out[..j]), r.out[j], k);
            FoundAgain(r.db, tenant, CursorAfter(start, rounds), at, r.out[j])
            <==> k < |Sse.Line("id", Show(r.out[j].at))| && !FollowsActivity(r.out, j)
  {
    hide IsBatch, Ascending, CallsAscending, Sse.Line, Show, FoundAgain, Connected;
    var since := CursorAfter(start, rounds);
    var seen := Seen(Sent(start, rounds) + r.out[..j]);
    SeenIsNotAhead(tenant, start, rounds);
    assert seen == if j == 0 then Seen(Sent(start, rounds)) else r.out[j - 1].at;
    var at := ResumeInside(seen, r.out[j], k);
    BatchParts(r.db, tenant, since, r.out, r.after, j);
    if j > 0 { BatchParts(r.db, tenant, since, r.out, r.after, j - 1); }
    if r.out[j].AuditRow? {
      RowFoundAgain(r.db, tenant, since, r.out, r.after, j, at);
      RowIsBeyond(r.db, tenant, since, r.out, r.after, j);
    } else {
      ActivityFoundAgain(r.db, tenant, since, r.out, r.after, j, at);
      ActivityIsBeyond(r.db, tenant, since, r.out, r.after, j);
    }
  }

  lemma RowIsBeyond(db: Tables, tenant: string, since: Cursor, out: seq<Frame>, after: Cursor, j: nat)
    requires Ascending(db.log) && IsBatch(db, tenant, since, out, after) && j < |out| && out[j].AuditRow?
    ensures out[j].at.audit > if j == 0 then since.audit else out[j - 1].at.audit
  {
    hide IsBatch, Between, Ascending;
    BatchIsPath(db, tenant, since, out, after);
    PathAt(db.log, tenant, since.audit, out, after.audit, j);
  }

  lemma ActivityIsBeyond(db: Tables, tenant: string, since: Cursor, out: seq<Frame>, after: Cursor, j: nat)
    requires CallsAscending(db.llm) && CallsAscending(db.tool) && IsBatch(db, tenant, since, out, after)
    requires j < |out| && out[j].Activity?
    ensures !(after.llm <= since.llm && after.tool <= since.tool)
  {
    hide IsBatch, CallsAscending, CallsFound;
    var _, _ := TouchedCall(db, tenant, since, out, after, j);
  }

  function ItemOf(f: Frame, json: Frame -> string): Sse.Item { Sse.Frame(Show(f.at), EventName(f), json(f)) }

  lemma {:induction false} LastIdWritten(frames: seq<Frame>, json: Frame -> string)
    requires frames != []
    ensures Sse.LastIdOf([Sse.Retry("2000")] + Written(frames, json), None) == Some(Show(Seen(frames)))
  {
    hide Show, EventName;
    var items := [Sse.Retry("2000")] + Written(frames, json);
    assert items[1..] == Written(frames, json);
    LastIdIsLast(Written(frames, json), None);
  }

  lemma {:induction false} LastIdIsLast(items: seq<Sse.Item>, before: Option<string>)
    requires items != [] && forall i :: 0 <= i < |items| ==> items[i].Frame?
    ensures Sse.LastIdOf(items, before) == Some(items[|items| - 1].id)
    decreases |items|
  {
    if |items| > 1 { LastIdIsLast(items[1..], Some(items[0].id)); }
  }

  /**
   * A connection is cut after any polls, j whole frames of the last one and k characters of the next
   * frame. The client has exactly the whole frames, and a poll from the id it resumes with finds what
   * the cut frame told exactly if the cut comes before the end of its id line and the frame is not
   * activity right after activity of the same poll.
   */
  lemma CutLosesExactly(tenant: string, start: Cursor, rounds: seq<Round>, r: Round, j: nat, k: nat, json: Frame -> string, chunks: seq<string>)
    requires Connected(tenant, start, rounds) && IsBatch(r.db, tenant, CursorAfter(start, rounds), r.out, r.after)
    requires Ascending(r.db.log) && CallsAscending(r.db.llm) && CallsAscending(r.db.tool)
    requires forall f :: Sse.NoNewline(json(f))
    requires j < |r.out| && k < |Sse.Text(ItemOf(r.out[j], json))|
    requires Sse.Concat(chunks) == Sse.Texts([Sse.Retry("2000")] + Written(Sent(start, rounds) + r.out[..j], json))
                                   + Sse.Text(ItemOf(r.out[j], json))[..k]
    ensures var (q, events) := Sse.FedAll(Sse.NEW_PARSER, chunks);
            && OneEventPerFrame(events, Sent(start, rounds) + r.out[..j], json)
            && Parse(q.lastId).Some?
            && (FoundAgain(r.db, tenant, CursorAfter(start, rounds), Parse(q.lastId).value, r.out[j])
                <==> k < |Sse.Line("id", Show(r.out[j].at))| && !FollowsActivity(r.out, j))
  {
    hide IsBatch, Ascending, CallsAscending, FoundAgain, Connected, Sse.FedAll, Sse.Texts, Sse.Text, Sse.Concat, Sse.Line, Show, EventName,
      OneEventPerFrame, Written, Sse.FramesOf, Sse.LastIdOf, Parse, Sse.NoNewline;
    var frames, f := Sent(start, rounds) + r.out[..j], r.out[j];
    FramesAreSendable(frames, json);
    FrameIsSendable(f, json);
    Sse.CutStream([Sse.Retry("2000")] + Written(frames, json), Show(f.at), EventName(f), json(f), k, chunks);
    EventsOfFrames(frames, json);
    LastIdWritten(frames, json);
    CursorRoundTrip(Seen(frames));
    CursorRoundTrip(f.at);
    CutFrameFoundAgain(tenant, start, rounds, r, j, k);
  }

  lemma FrameIsSendable(f: Frame, json: Frame -> string)
    requires Sse.NoNewline(json(f))
    ensures Sse.Sendable(ItemOf(f, json))
  {
    hide Show, EventName, Sse.NoNewline;
    CursorIsSendable(f.at);
    EventNameIsSendable(f);
  }

  lemma FramesAreSendable(frames: seq<Frame>, json: Frame -> string)
    requires forall f :: Sse.NoNewline(json(f))
    ensures var items := [Sse.Retry("2000")] + Written(frames, json);
            forall i :: 0 <= i < |items| ==> Sse.Sendable(items[i])
  {
    hide Written, Sse.Sendable, Sse.NoNewline;
    RetryIsSendable();
    var items := [Sse.Retry("2000")] + Written(frames, json);
    forall i | 0 <= i < |items| ensures Sse.Sendable(items[i]) {
      if i > 0 { WrittenIsSendable(frames, json, i - 1); }
    }
  }
}
