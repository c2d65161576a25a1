/** What the polls of a connection cover: each row and each call once, none before its time. */
module StreamCoverage {
  import opened Domain
  import opened Audit
  import opened Cursors
  import opened ChangeStream
  import opened StreamResume

  /** The tenant's calls after number a up to number b, in order. */
  function CallsBetween(calls: seq<Call>, tenant: string, a: nat, b: nat): seq<Call> {
    if calls == [] then []
    else (if calls[0].tenant == tenant && a < calls[0].id <= b then [calls[0]] else []) + CallsBetween(calls[1..], tenant, a, b)
  }

  lemma {:induction false} NoCallsBelow(calls: seq<Call>, tenant: string, a: nat, b: nat)
    requires forall i :: 0 <= i < |calls| ==> calls[i].id > b
    ensures CallsBetween(calls, tenant, a, b) == []
  {
    if calls != [] { NoCallsBelow(calls[1..], tenant, a, b); }
  }

  lemma {:induction false} CallWindowsJoin(calls: seq<Call>, tenant: string, a: nat, b: nat, c: nat)
    requires CallsAscending(calls) && a <= b <= c
    ensures CallsBetween(calls, tenant, a, b) + CallsBetween(calls, tenant, b, c) == CallsBetween(calls, tenant, a, c)
  {
    if calls != [] {
      CallWindowsJoin(calls[1..], tenant, a, b, c);
      if calls[0].id > b { NoCallsBelow(calls[1..], tenant, a, b); }
    }
  }

  lemma {:induction false} CallWindowIsStable(calls: seq<Call>, more: seq<Call>, tenant: string, a: nat, b: nat)
    requires forall i :: 0 <= i < |more| ==> more[i].id > b
    ensures CallsBetween(calls + more, tenant, a, b) == CallsBetween(calls, tenant, a, b)
  {
    if calls == [] {
      assert calls + more == more;
      NoCallsBelow(more, tenant, a, b);
    } else {
      assert (calls + more)[1..] == calls[1..] + more;
      CallWindowIsStable(calls[1..], more, tenant, a, b);
    }
  }

  lemma {:induction false} EmptyCallWindow(calls: seq<Call>, tenant: string, a: nat)
    ensures CallsBetween(calls, tenant, a, a) == []
  {
    if calls != [] { EmptyCallWindow(calls[1..], tenant, a); }
  }

  lemma {:induction false} CallsAfterSkips(calls: seq<Call>, tenant: string, a: nat, b: nat)
    requires forall i :: 0 <= i < |calls| ==> calls[i].id > b && calls[i].id > a
    ensures CallsAfter(calls, tenant, a) == CallsAfter(calls, tenant, b)
  {
    if calls != [] { CallsAfterSkips(calls[1..], tenant, a, b); }
  }

  /** The first call found is alone in its window, and the rest is what comes after it. */
  lemma {:induction false} FirstCallFound(calls: seq<Call>, tenant: string, a: nat)
    requires CallsAscending(calls) && CallsAfter(calls, tenant, a) != []
    ensures var c := CallsAfter(calls, tenant, a)[0];
            && c in calls && c.id > a
            && CallsBetween(calls, tenant, a, c.id) == [c]
            && CallsAfter(calls, tenant, c.id) == CallsAfter(calls, tenant, a)[1..]
  {
    if calls[0].tenant == tenant && calls[0].id > a {
      NoCallsBelow(calls[1..], tenant, a, calls[0].id);
      CallsAfterSkips(calls[1..], tenant, a, calls[0].id);
    } else {
      FirstCallFound(calls[1..], tenant, a);
    }
  }

  lemma {:induction false} LastIsReached(calls: seq<Call>, tenant: string, a: nat, found: seq<Call>)
    requires CallsAscending(calls) && found <= CallsAfter(calls, tenant, a)
    ensures a <= LastCall(found, a) && found == CallsBetween(calls, tenant, a, LastCall(found, a))
    ensures found != [] ==> found[|found| - 1] in calls
    decreases |found|
  {
    hide CallsAfter, CallsBetween, CallsAscending;
    if found == [] {
      EmptyCallWindow(calls, tenant, a);
    } else {
      FirstCallFound(calls, tenant, a);
      var b := found[0].id;
      LastIsReached(calls, tenant, b, found[1..]);
      CallWindowsJoin(calls, tenant, a, b, LastCall(found[1..], b));
    }
  }

  /** A poll reads exactly the calls up to the cursor it returns, at most 500, and all there are if fewer. */
  lemma PollReadsItsWindow(calls: seq<Call>, tenant: string, a: nat)
    requires CallsAscending(calls)
    ensures var found := CallsFound(calls, tenant, a);
            && a <= LastCall(found, a) && found == CallsBetween(calls, tenant, a, LastCall(found, a))
            && |found| == (if |CallsAfter(calls, tenant, a)| <= 500 then |CallsAfter(calls, tenant, a)| else 500)
  {
    LastIsReached(calls, tenant, a, CallsFound(calls, tenant, a));
  }

  /** As many audit rows as there are, at most 500. */
  lemma PollReadsItsRows(db: Tables, tenant: string, since: Cursor, out: seq<Frame>, after: Cursor)
    requires IsBatch(db, tenant, since, out, after)
    ensures var rows, pending := RowsFound(db.log, tenant, since), After(db.log, tenant, since.audit);
            && rows <= pending && |rows| == (if |pending| <= 500 then |pending| else 500)
            && |rows| <= |out| && (forall k :: 0 <= k < |out| ==> (out[k].AuditRow? <==> k < |rows|))
  {
    var rows := RowsFound(db.log, tenant, since);
    forall k | 0 <= k < |out| ensures out[k].AuditRow? <==> k < |rows| {
      if k < |rows| { assert out[k] == out[..|rows|][k]; } else { assert out[k] == out[|rows|..][k - |rows|]; }
    }
  }

  // ----- A connection -----

  /** Between the polls the two call tables only grow, with larger numbers. */
  ghost predicate CallsGrow(rounds: seq<Round>) {
    && (forall i :: 0 <= i < |rounds| ==> CallsAscending(rounds[i].db.llm) && CallsAscending(rounds[i].db.tool))
    && (forall i, j :: 0 <= i < j < |rounds| ==> rounds[i].db.llm <= rounds[j].db.llm && rounds[i].db.tool <= rounds[j].db.tool)
  }

  /** One of the two call tables, and the cursor's position in it. */
  function TableOf(db: Tables, llm: bool): seq<Call> { if llm then db.llm else db.tool }

  function PositionIn(c: Cursor, llm: bool): nat { if llm then c.llm else c.tool }

  /** The calls of one table that the polls of a connection tell of, in order. */
  function Told(tenant: string, start: Cursor, rounds: seq<Round>, llm: bool): seq<Call> {
    if rounds == [] then []
    else
      var before := rounds[..|rounds| - 1];
      Told(tenant, start, before, llm)
      + CallsFound(TableOf(rounds[|rounds| - 1].db, llm), tenant, PositionIn(CursorAfter(start, before), llm))
  }

  lemma StableWindow(calls: seq<Call>, longer: seq<Call>, tenant: string, a: nat, b: nat)
    requires calls <= longer && CallsAscending(longer) && (b == a || exists c :: c in calls && c.id == b)
    ensures CallsBetween(longer, tenant, a, b) == CallsBetween(calls, tenant, a, b)
  {
    if b == a {
      EmptyCallWindow(longer, tenant, a);
      EmptyCallWindow(calls, tenant, a);
    } else {
      var more := longer[|calls|..];
      assert longer == calls + more;
      var k :| 0 <= k < |calls| && calls[k].id == b;
      forall i | 0 <= i < |more| ensures more[i].id > b {
        assert longer[|calls| + i] == more[i] && longer[k] == calls[k];
      }
      CallWindowIsStable(calls, more, tenant, a, b);
    }
  }

  /** Where the polls stand in a table: at the start, or at a call they have read. */
  ghost predicate StandsAtCall(calls: seq<Call>, start: nat, now: nat) {
    start <= now && (now == start || exists c :: c in calls && c.id == now)
  }

  lemma PollMovesOn(calls: seq<Call>, tenant: string, start: nat, a: nat)
    requires CallsAscending(calls) && StandsAtCall(calls, start, a)
    ensures StandsAtCall(calls, start, LastCall(CallsFound(calls, tenant, a), a))
  {
    LastIsReached(calls, tenant, a, CallsFound(calls, tenant, a));
    hide CallsFound, CallsAscending;
    var found := CallsFound(calls, tenant, a);
    if found != [] { assert found[|found| - 1] in calls; }
  }

  lemma FirstRounds(tenant: string, start: Cursor, rounds: seq<Round>, llm: bool)
    requires rounds != [] && Connected(tenant, start, rounds) && CallsGrow(rounds)
    ensures Connected(tenant, start, rounds[..|rounds| - 1]) && CallsGrow(rounds[..|rounds| - 1])
    ensures var last, b := rounds[|rounds| - 1], PositionIn(CursorAfter(start, rounds[..|rounds| - 1]), llm);
            PositionIn(last.after, llm) == LastCall(CallsFound(TableOf(last.db, llm), tenant, b), b)
  {
    hide CallsFound, RowsFound, ActivityFrames, CallsAscending;
    var before := rounds[..|rounds| - 1];
    assert forall i :: 0 <= i < |before| ==> before[i] == rounds[i];
  }

  /**
   * However the calls fall into polls, a connection tells of exactly the tenant's calls between its first
   * cursor and its last, each once, in order.
   */
  lemma {:induction false} EachCallOnceInOrder(tenant: string, start: Cursor, rounds: seq<Round>, llm: bool)
    requires Connected(tenant, start, rounds) && CallsGrow(rounds)
    ensures rounds == [] ==> Told(tenant, start, rounds, llm) == []
    ensures rounds != [] ==>
      var calls := TableOf(rounds[|rounds| - 1].db, llm);
      var a, b := PositionIn(start, llm), PositionIn(CursorAfter(start, rounds), llm);
      StandsAtCall(calls, a, b) && Told(tenant, start, rounds, llm) == CallsBetween(calls, tenant, a, b)
    decreases |rounds|
  {
    hide CallsFound, CallsBetween, Connected;
    if rounds != [] {
      var before, last := rounds[..|rounds| - 1], rounds[|rounds| - 1];
      FirstRounds(tenant, start, rounds, llm);
      EachCallOnceInOrder(tenant, start, before, llm);
      var calls, a, b := TableOf(last.db, llm), PositionIn(start, llm), PositionIn(CursorAfter(start, before), llm);
      if before == [] {
        EmptyCallWindow(calls, tenant, a);
      } else {
        LaterTable(rounds, llm, a, b);
        StableWindow(TableOf(before[|before| - 1].db, llm), calls, tenant, a, b);
      }
      PollMovesOn(calls, tenant, a, b);
      PollReadsItsWindow(calls, tenant, b);
      CallWindowsJoin(calls, tenant, a, b, LastCall(CallsFound(calls, tenant, b), b));
    }
  }

  lemma LaterTable(rounds: seq<Round>, llm: bool, a: nat, b: nat)
    requires |rounds| >= 2 && CallsGrow(rounds) && StandsAtCall(TableOf(rounds[|rounds| - 2].db, llm), a, b)
    ensures TableOf(rounds[|rounds| - 2].db, llm) <= TableOf(rounds[|rounds| - 1].db, llm)
    ensures CallsAscending(TableOf(rounds[|rounds| - 1].db, llm))
    ensures StandsAtCall(TableOf(rounds[|rounds| - 1].db, llm), a, b)
  {
    hide CallsAscending;
  }

  // ----- A client without a position -----

  lemma {:induction false} NothingAfterNewest(log: seq<Row<Entry>>, tenant: string, b: nat)
    requires b >= Newest(log, tenant)
    ensures After(log, tenant, b) == []
  {
    if log != [] { NothingAfterNewest(log[1..], tenant, b); }
  }

  /**
   * A client with a readable id goes on exactly from it; one without gets nothing that was committed before
   * it connected.
   */
  lemma ConnectsWhereItShould(s: Stream, llmNow: nat, toolNow: nat)
    ensures var start := StartCursor(s, llmNow, toolNow);
            if Parse(s.lastId).Some? then start == Parse(s.lastId).value
            else After(s.db.committed, s.tenant, start.audit) == [] && start.llm == llmNow && start.tool == toolNow
  {
    hide After, Newest, Parse;
    NothingAfterNewest(s.db.committed, s.tenant, Newest(s.db.committed, s.tenant));
  }
}
