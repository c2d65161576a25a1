/** Agent checkpoints and the blackboard of one incident. */
module Checkpoints {
  import opened Domain

  datatype RunStatus = Running | Failed | Done

  /** An agent_runs row: what the last write left. */
  datatype RunRow = RunRow(status: RunStatus, steps: nat, result: string, error: Option<string>)

  datatype Entry = Entry(kind: string, author: string, body: string, evidence: seq<string>)

  datatype Store = Store(runs: map<string, RunRow>, board: seq<Entry>)

  predicate IsDone(s: Store, agent: string) { agent in s.runs && s.runs[agent].status == Done }

  /** A new row, or the old one reset, unless the agent is done. */
  function Started(s: Store, agent: string): Store {
    if IsDone(s, agent) then s else s.(runs := s.runs[agent := RunRow(Running, 0, "", None)])
  }

  /** Only an agent with a row that is not done is finished, and only then are the entries inserted. */
  function Finished(s: Store, agent: string, steps: nat, result: string, entries: seq<Entry>): Store {
    if agent !in s.runs || IsDone(s, agent) then s
    else Store(s.runs[agent := s.runs[agent].(status := Done, steps := steps, result := result)], s.board + entries)
  }

  function FailedRun(s: Store, agent: string, steps: nat, error: string): Store {
    if agent !in s.runs || IsDone(s, agent) then s
    else s.(runs := s.runs[agent := s.runs[agent].(status := Failed, steps := steps, error := Some(error))])
  }

  function By(entries: seq<Entry>, author: string): seq<Entry> {
    if entries == [] then []
    else By(entries[..|entries| - 1], author) + (if entries[|entries| - 1].author == author then [entries[|entries| - 1]] else [])
  }

  /** The two tables as the transactions change them. */
  class AgentStore {
    var runs: map<string, RunRow>
    var board: seq<Entry>

    function View(): Store
      reads this
    {
      Store(runs, board)
    }

    constructor ()
      ensures View() == Store(map[], [])
    {
      runs, board := map[], [];
    }

    method StartRun(agent: string)
      modifies this
      ensures View() == Started(old(View()), agent)
    {
      if agent !in runs || runs[agent].status != Done {
        runs := runs[agent := RunRow(Running, 0, "", None)];
      }
    }

    method FinishRun(agent: string, steps: nat, result: string, entries: seq<Entry>)
      modifies this
      ensures View() == Finished(old(View()), agent, steps, result, entries)
    {
      if agent !in runs || runs[agent].status == Done { return; }
      runs := runs[agent := runs[agent].(status := Done, steps := steps, result := result)];
      ghost var start := board;
      for i := 0 to |entries|
        invariant board == start + entries[..i]
        invariant runs == old(runs)[agent := old(runs)[agent].(status := Done, steps := steps, result := result)]
      {
        board := board + [entries[i]];
      }
    }

    method FailRun(agent: string, steps: nat, error: string)
      modifies this
      ensures View() == FailedRun(old(View()), agent, steps, error)
    {
      if agent in runs && runs[agent].status != Done {
        runs := runs[agent := runs[agent].(status := Failed, steps := steps, error := Some(error))];
      }
    }

    /** The entries an author has on the board, in insertion order. */
    method EntriesBy(author: string) returns (found: seq<Entry>)
      ensures found == By(board, author)
    {
      found := [];
      for i := 0 to |board|
        invariant found == By(board[..i], author)
      {
        if board[i].author == author { found := found + [board[i]]; }
        assert board[..i + 1][..i] == board[..i];
      }
      assert board[..|board|] == board;
    }
  }
}

/** Several attempts at one incident's investigation, stale ones included. */
module Investigations {
  import opened Domain
  import opened Checkpoints

  /** What an attempt has read, and the agents it is running now. */
  datatype Attempt = Attempt(runs: Option<map<string, RunRow>>, board: Option<seq<Entry>>, running: set<string>)

  /** A model call made by an attempt for an agent. */
  datatype ModelCall = ModelCall(attempt: nat, agent: string)

  datatype World = World(store: Store, attempts: map<nat, Attempt>, calls: seq<ModelCall>)

  /**
   * Attempt i reads the runs, then the board, when it begins and again before it concludes; in between
   * it begins, steps, finishes or fails an agent; or it dies.
   */
  datatype Event =
    | ReadRuns(i: nat)
    | ReadBoard(i: nat)
    | Begin(i: nat, agent: string)
    | CallModel(i: nat, agent: string)
    | Finish(i: nat, agent: string, steps: nat, result: string, entries: seq<Entry>)
    | Fail(i: nat, agent: string, error: string)
    | Die(i: nat)

  predicate Ready(w: World, i: nat) { i in w.attempts && w.attempts[i].runs.Some? && w.attempts[i].board.Some? }

  /** The attempt's own reading says that the agent is done: its output is read back, not asked for again. */
  predicate Reuses(a: Attempt, agent: string) {
    a.runs.Some? && agent in a.runs.value && a.runs.value[agent].status == Done
  }

  predicate OwnEntries(agent: string, entries: seq<Entry>) {
    forall e :: e in entries ==> e.author == agent
  }

  predicate IsRunning(w: World, i: nat, agent: string) { i in w.attempts && agent in w.attempts[i].running }

  function Stopped(w: World, i: nat, agent: string): map<nat, Attempt>
    requires i in w.attempts
  {
    w.attempts[i := w.attempts[i].(running := w.attempts[i].running - {agent})]
  }

  function Step(w: World, e: Event): World {
    match e
    case ReadRuns(i) =>
      var running := if i in w.attempts then w.attempts[i].running else {};
      w.(attempts := w.attempts[i := Attempt(Some(w.store.runs), None, running)])
    case ReadBoard(i) =>
      if i !in w.attempts || w.attempts[i].board.Some? then w
      else w.(attempts := w.attempts[i := w.attempts[i].(board := Some(w.store.board))])
    case Begin(i, agent) =>
      if !Ready(w, i) || agent in w.attempts[i].running || Reuses(w.attempts[i], agent) then w
      else w.(store := Started(w.store, agent), attempts := w.attempts[i := w.attempts[i].(running := w.attempts[i].running + {agent})])
    case CallModel(i, agent) => if IsRunning(w, i, agent) then w.(calls := w.calls + [ModelCall(i, agent)]) else w
    case Finish(i, agent, steps, result, entries) =>
      if IsRunning(w, i, agent) && OwnEntries(agent, entries)
      then w.(store := Finished(w.store, agent, steps, result, entries), attempts := Stopped(w, i, agent))
      else w
    case Fail(i, agent, error) =>
      if IsRunning(w, i, agent) then w.(store := FailedRun(w.store, agent, 0, error), attempts := Stopped(w, i, agent)) else w
    case Die(i) => if i in w.attempts then w.(attempts := w.attempts[i := w.attempts[i].(running := {})]) else w
  }

  function Run(events: seq<Event>): World {
    if events == [] then World(Store(map[], []), map[], [])
    else Step(Run(events[..|events| - 1]), events[|events| - 1])
  }

  // ----- Done stays done -----

  lemma {:induction false} ByOfConcat(x: seq<Entry>, y: seq<Entry>, author: string)
    ensures By(x + y, author) == By(x, author) + By(y, author)
    decreases |y|
  {
    if y == [] {
      assert x + y == x;
    } else {
      assert (x + y)[..|x + y| - 1] == x + y[..|y| - 1];
      ByOfConcat(x, y[..|y| - 1], author);
    }
  }

  lemma {:induction false} ByOwner(entries: seq<Entry>, agent: string, author: string)
    requires OwnEntries(agent, entries)
    ensures By(entries, author) == if author == agent then entries else []
  {
    if entries != [] {
      var shorter, last := entries[..|entries| - 1], entries[|entries| - 1];
      assert last.author == agent && OwnEntries(agent, shorter) by { assert last in entries; }
      ByOwner(shorter, agent, author);
      assert shorter + [last] == entries;
    }
  }

  /** The event is the finish that makes the agent done. */
  predicate Completes(w: World, e: Event, agent: string) {
    && e.Finish? && e.agent == agent && IsRunning(w, e.i, agent) && OwnEntries(agent, e.entries)
    && agent in w.store.runs && !IsDone(w.store, agent)
  }

  lemma StepAndAgent(w: World, e: Event, agent: string)
    ensures var w' := Step(w, e);
            && (IsDone(w.store, agent) ==> w'.store.runs[agent] == w.store.runs[agent] && IsDone(w'.store, agent))
            && (IsDone(w'.store, agent) && !IsDone(w.store, agent) <==> Completes(w, e, agent))
            && By(w'.store.board, agent) == By(w.store.board, agent) + (if Completes(w, e, agent) then e.entries else [])
            && (Completes(w, e, agent) ==> w'.store.runs[agent].result == e.result && w'.store.runs[agent].steps == e.steps)
            && w.store.board <= w'.store.board
  {
    hide By, OwnEntries, Reuses;
    if e.Finish? && OwnEntries(e.agent, e.entries) {
      ByOfConcat(w.store.board, e.entries, agent);
      ByOwner(e.entries, e.agent, agent);
    }
  }

  /** Once an agent is done, no attempt changes its row or its entries any more. */
  lemma {:induction false} DoneIsFinal(events: seq<Event>, m: nat, agent: string)
    requires m <= |events| && IsDone(Run(events[..m]).store, agent)
    ensures var then_, now := Run(events[..m]).store, Run(events).store;
            && IsDone(now, agent) && now.runs[agent] == then_.runs[agent]
            && By(now.board, agent) == By(then_.board, agent)
    decreases |events|
  {
    hide Step, By;
    if m == |events| {
      assert events[..m] == events;
    } else {
      var shorter := events[..|events| - 1];
      assert shorter[..m] == events[..m];
      DoneIsFinal(shorter, m, agent);
      StepAndAgent(Run(shorter), events[|events| - 1], agent);
    }
  }

  /** Event k is the finish that made the agent done. */
  predicate CompletedAt(events: seq<Event>, k: nat, agent: string)
    requires k < |events|
  {
    Completes(Run(events[..k]), events[k], agent)
  }

  lemma {:induction false} NothingBeforeDone(events: seq<Event>, agent: string)
    requires !IsDone(Run(events).store, agent)
    ensures By(Run(events).store.board, agent) == [] && forall k :: 0 <= k < |events| ==> !CompletedAt(events, k, agent)
    decreases |events|
  {
    hide Step, By, Completes;
    if events == [] {
      NothingBy(agent);
    } else {
      var shorter, last := events[..|events| - 1], |events| - 1;
      StepAndAgent(Run(shorter), events[last], agent);
      NothingBeforeDone(shorter, agent);
      forall k | 0 <= k < |events| ensures !CompletedAt(events, k, agent) {
        if k < last {
          assert !CompletedAt(shorter, k, agent) && shorter[..k] == events[..k];
        } else {
          assert events[..k] == shorter;
        }
      }
    }
  }

  lemma NothingBy(agent: string)
    ensures By([], agent) == []
  {
  }

  lemma {:induction false} DoneByOneFinish(events: seq<Event>, agent: string)
    requires IsDone(Run(events).store, agent)
    ensures exists k :: 0 <= k < |events| && IsItsFinish(events, k, agent)
    decreases |events|
  {
    hide Step, By, Completes;
    var shorter, e := events[..|events| - 1], events[|events| - 1];
    StepAndAgent(Run(shorter), e, agent);
    if IsDone(Run(shorter).store, agent) {
      DoneByOneFinish(shorter, agent);
      var k :| 0 <= k < |shorter| && IsItsFinish(shorter, k, agent);
      assert shorter[..k] == events[..k];
      NotCompletedTwice(Run(shorter), e, agent);
      assert By(Run(shorter).store.board, agent) + [] == By(Run(shorter).store.board, agent);
      assert IsItsFinish(events, k, agent);
    } else {
      CompletesIsFinish(Run(shorter), e, agent);
      NothingBeforeDone(shorter, agent);
      assert [] + e.entries == e.entries;
      assert IsItsFinish(events, |shorter|, agent);
    }
  }

  lemma {:induction false} OneFinishCompletes(events: seq<Event>, j: nat, k: nat, agent: string)
    requires j < k < |events| && CompletedAt(events, j, agent)
    ensures !CompletedAt(events, k, agent)
  {
    hide Step, By, Completes;
    StepAndAgent(Run(events[..j]), events[j], agent);
    assert events[..k][..j + 1] == events[..j + 1] && events[..j + 1][..j] == events[..j];
    DoneIsFinal(events[..k], j + 1, agent);
    NotCompletedTwice(Run(events[..k]), events[k], agent);
  }

  /**
   * An agent has no entries before it is done; and then exactly those of the one finish that
   * made it done, with that finish's result.
   */
  lemma EntriesOfOneFinish(events: seq<Event>, agent: string)
    ensures if IsDone(Run(events).store, agent)
            then exists k :: 0 <= k < |events| && IsItsFinish(events, k, agent)
            else By(Run(events).store.board, agent) == []
    ensures forall j, k :: 0 <= j < k < |events| ==> !(CompletedAt(events, j, agent) && CompletedAt(events, k, agent))
  {
    hide Run, By, IsDone, CompletedAt, IsItsFinish;
    if IsDone(Run(events).store, agent) {
      DoneByOneFinish(events, agent);
    } else {
      NothingBeforeDone(events, agent);
    }
    forall j, k | 0 <= j < k < |events| && CompletedAt(events, j, agent) ensures !CompletedAt(events, k, agent) {
      OneFinishCompletes(events, j, k, agent);
    }
  }

  lemma CompletesIsFinish(w: World, e: Event, agent: string)
    requires Completes(w, e, agent)
    ensures e.Finish?
  {
  }

  lemma NotCompletedTwice(w: World, e: Event, agent: string)
    requires IsDone(w.store, agent)
    ensures !Completes(w, e, agent)
  {
  }

  // ----- What is on the board -----

  lemma {:induction false} InByItsAuthor(entries: seq<Entry>, e: Entry)
    requires e in entries
    ensures e in By(entries, e.author)
  {
    var shorter, last := entries[..|entries| - 1], entries[|entries| - 1];
    assert entries == shorter + [last];
    if e in shorter { InByItsAuthor(shorter, e); }
  }

  /** Every entry on the board was brought by the finish that made its author done. */
  lemma BroughtByFinish(events: seq<Event>, e: Entry)
    requires e in Run(events).store.board
    ensures exists k :: 0 <= k < |events| && IsItsFinish(events, k, e.author) && e in events[k].entries
  {
    hide Run, By, IsDone;
    InByItsAuthor(Run(events).store.board, e);
    EntriesOfOneFinish(events, e.author);
    var k :| 0 <= k < |events| && IsItsFinish(events, k, e.author);
    assert e in events[k].entries;
  }

  ghost predicate ReadsPrefix(w: World, i: nat) {
    i in w.attempts && w.attempts[i].board.Some? ==> w.attempts[i].board.value <= w.store.board
  }

  lemma ReadingsAfter(w: World, e: Event, i: nat)
    ensures var w' := Step(w, e);
            i in w'.attempts && w'.attempts[i].board.Some? ==>
              || w'.attempts[i].board.value == w.store.board
              || (i in w.attempts && w.attempts[i].board == w'.attempts[i].board)
  {
    hide By, Started, Finished, FailedRun, OwnEntries, Reuses;
  }

  lemma StepKeepsReading(w: World, e: Event, i: nat)
    requires ReadsPrefix(w, i)
    ensures ReadsPrefix(Step(w, e), i) && w.store.board <= Step(w, e).store.board
  {
    StepAndAgent(w, e, "");
    ReadingsAfter(w, e, i);
    hide By, Step, Completes, IsDone;
  }

  lemma {:induction false} ReadingIsPrefix(events: seq<Event>, i: nat)
    ensures ReadsPrefix(Run(events), i)
    decreases |events|
  {
    hide Step;
    if events != [] {
      ReadingIsPrefix(events[..|events| - 1], i);
      StepKeepsReading(Run(events[..|events| - 1]), events[|events| - 1], i);
    }
  }

  /** What an attempt has read, at any time, is the beginning of what is on the board later. */
  lemma {:induction false} BoardOnlyGrows(events: seq<Event>, m: nat, i: nat)
    requires m <= |events|
    ensures var then_, now := Run(events[..m]), Run(events);
            && then_.store.board <= now.store.board
            && (i in then_.attempts && then_.attempts[i].board.Some? ==> then_.attempts[i].board.value <= now.store.board)
    decreases |events|
  {
    hide Step;
    ReadingIsPrefix(events[..m], i);
    if m < |events| {
      var shorter := events[..|events| - 1];
      assert shorter[..m] == events[..m];
      BoardOnlyGrows(shorter, m, i);
      ReadingIsPrefix(shorter, i);
      StepKeepsReading(Run(shorter), events[|events| - 1], i);
    } else {
      assert events[..m] == events;
    }
  }

  /** Event k made the agent done, and what is stored now is what it brought. */
  ghost predicate IsItsFinish(events: seq<Event>, k: nat, agent: string)
    requires k < |events|
  {
    && CompletedAt(events, k, agent)
    && events[k].Finish?
    && IsDone(Run(events).store, agent)
    && By(Run(events).store.board, agent) == events[k].entries
    && Run(events).store.runs[agent].result == events[k].result
  }

  // ----- No model call for a finished agent -----

  /** An attempt that saw the agent done runs it never, and reads back what is stored for it. */
  ghost predicate Spared(w: World, i: nat, agent: string) {
    && IsDone(w.store, agent)
    && ModelCall(i, agent) !in w.calls
    && (i in w.attempts ==>
          && Reuses(w.attempts[i], agent) && agent !in w.attempts[i].running
          && (w.attempts[i].board.Some? ==> By(w.attempts[i].board.value, agent) == By(w.store.board, agent)))
  }

  lemma StepSpares(w: World, e: Event, i: nat, agent: string)
    requires Spared(w, i, agent)
    ensures Spared(Step(w, e), i, agent)
  {
    StepAndAgent(w, e, agent);
    hide By, Started, FailedRun, Finished;
    assert !Completes(w, e, agent);
    assert By(w.store.board, agent) + [] == By(w.store.board, agent);
  }

  lemma {:induction false} CallersHaveBegun(events: seq<Event>)
    ensures forall c :: c in Run(events).calls ==> c.attempt in Run(events).attempts
    decreases |events|
  {
    hide By, Started, FailedRun, Finished;
    if events != [] { CallersHaveBegun(events[..|events| - 1]); }
  }

  /**
   * An attempt that begins after an agent is done never calls the model for it, and hands on the
   * entries that its one finish left.
   */
  lemma {:induction false} FinishedAgentIsNotAskedAgain(events: seq<Event>, m: nat, i: nat, agent: string)
    requires m <= |events| && IsDone(Run(events[..m]).store, agent) && i !in Run(events[..m]).attempts
    ensures ModelCall(i, agent) !in Run(events).calls
    ensures var w := Run(events);
            Ready(w, i) ==> Reuses(w.attempts[i], agent) && By(w.attempts[i].board.value, agent) == By(w.store.board, agent)
    ensures Spared(Run(events), i, agent)
    decreases |events|
  {
    hide Step, By;
    if m == |events| {
      assert events[..m] == events;
      CallersHaveBegun(events);
    } else {
      var shorter := events[..|events| - 1];
      assert shorter[..m] == events[..m];
      FinishedAgentIsNotAskedAgain(shorter, m, i, agent);
      StepSpares(Run(shorter), events[|events| - 1], i, agent);
    }
  }

  // ----- What a row says -----

  /** An attempt begins the agent now: it has read everything, and neither runs the agent nor found it done. */
  predicate BeginsNow(w: World, e: Event, agent: string) {
    && e.Begin? && e.agent == agent && Ready(w, e.i)
    && agent !in w.attempts[e.i].running && !Reuses(w.attempts[e.i], agent) && !IsDone(w.store, agent)
  }

  predicate FailsNow(w: World, e: Event, agent: string) {
    e.Fail? && e.agent == agent && IsRunning(w, e.i, agent) && agent in w.store.runs && !IsDone(w.store, agent)
  }

  predicate WritesRow(w: World, e: Event, agent: string) {
    BeginsNow(w, e, agent) || FailsNow(w, e, agent) || Completes(w, e, agent)
  }

  /** The row after one write: begun from nothing, failed with its error, or done with its result. */
  predicate RowIs(row: RunRow, e: Event) {
    match e
    case Begin(_, _) => row == RunRow(Running, 0, "", None)
    case Fail(_, _, error) => row.status == Failed && row.error == Some(error)
    case Finish(_, _, steps, result, _) => row.status == Done && row.steps == steps && row.result == result
    case _ => false
  }

  lemma WriteTells(w: World, e: Event, agent: string)
    ensures var w' := Step(w, e);
            if WritesRow(w, e, agent) then agent in w'.store.runs && RowIs(w'.store.runs[agent], e)
            else (agent in w'.store.runs <==> agent in w.store.runs)
                 && (agent in w.store.runs ==> w'.store.runs[agent] == w.store.runs[agent])
  {
  }

  /** Event k is the last that wrote the agent's row. */
  ghost predicate LastWrite(events: seq<Event>, k: nat, agent: string) {
    && k < |events| && WritesRow(Run(events[..k]), events[k], agent)
    && forall m :: k < m < |events| ==> !WritesRow(Run(events[..m]), events[m], agent)
  }

  lemma WrittenLast(events: seq<Event>, e: Event, agent: string)
    requires WritesRow(Run(events), e, agent)
    ensures LastWrite(events + [e], |events|, agent)
  {
    hide Run, WritesRow;
    assert (events + [e])[..|events|] == events;
  }

  lemma WrittenBefore(events: seq<Event>, e: Event, agent: string, k: nat)
    requires LastWrite(events, k, agent) && !WritesRow(Run(events), e, agent)
    ensures LastWrite(events + [e], k, agent) && (events + [e])[k] == events[k]
  {
    hide Run, WritesRow;
    var longer := events + [e];
    forall m | 0 <= m <= |events| ensures longer[..m] == events[..m] {}
    assert events[..|events|] == events;
  }

  ghost predicate NeverWritten(events: seq<Event>, agent: string) {
    forall k :: 0 <= k < |events| ==> !WritesRow(Run(events[..k]), events[k], agent)
  }

  lemma StillNotWritten(events: seq<Event>, e: Event, agent: string)
    requires NeverWritten(events, agent) && !WritesRow(Run(events), e, agent)
    ensures NeverWritten(events + [e], agent)
  {
    hide Run, WritesRow;
    var longer := events + [e];
    forall m | 0 <= m <= |events| ensures longer[..m] == events[..m] {}
    assert events[..|events|] == events;
  }

  /** An agent has a row exactly if some attempt began it, and the row says what its last write was. */
  lemma {:induction false} RowTellsLastWrite(events: seq<Event>, agent: string)
    ensures if agent in Run(events).store.runs
            then exists k: nat :: LastWrite(events, k, agent) && RowIs(Run(events).store.runs[agent], events[k])
            else NeverWritten(events, agent)
    decreases |events|
  {
    hide Step, WritesRow, NeverWritten, RowIs;
    if events == [] {
      NothingWritten(agent);
    } else {
      var shorter, e := events[..|events| - 1], events[|events| - 1];
      assert shorter + [e] == events;
      RowTellsLastWrite(shorter, agent);
      WriteTells(Run(shorter), e, agent);
      if WritesRow(Run(shorter), e, agent) {
        WrittenLast(shorter, e, agent);
      } else if agent in Run(shorter).store.runs {
        var k: nat :| LastWrite(shorter, k, agent) && RowIs(Run(shorter).store.runs[agent], shorter[k]);
        WrittenBefore(shorter, e, agent, k);
      } else {
        StillNotWritten(shorter, e, agent);
      }
    }
  }

  lemma NothingWritten(agent: string)
    ensures NeverWritten([], agent)
  {
  }
}
