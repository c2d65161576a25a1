/** The incident state machine: which moves exist, the guarded update, and what a history of moves means. */
module Incidents {
  import opened Domain

  datatype State =
    | Received | Triaged | Investigating | Diagnosed | Planned | SafetyReviewed
    | AwaitingApproval | Executing | Verifying | Resolved | Escalated

  /** The row of an incident: `version` is the optimistic lock, `closed` says that closed_at is set. */
  datatype IncidentRow = IncidentRow(state: State, version: nat, closed: bool)

  const NEW_ROW := IncidentRow(Received, 1, false)

  datatype Refusal = IllegalTransition | StaleVersion

  datatype Outcome = Moved(row: IncidentRow) | Refused(why: Refusal)

  predicate Terminal(s: State) { s == Resolved || s == Escalated }

  function Moves(s: State): set<State> {
    match s
    case Received => {Triaged}
    case Triaged => {Investigating}
    case Investigating => {Diagnosed}
    case Diagnosed => {Planned, Investigating}
    case Planned => {SafetyReviewed}
    case SafetyReviewed => {AwaitingApproval, Executing}
    case AwaitingApproval => {Executing, Planned}
    case Executing => {Verifying}
    case Verifying => {Resolved}
    case Resolved => {}
    case Escalated => {}
  }

  predicate Allowed(from: State, to: State) {
    !Terminal(from) && (to == Escalated || to in Moves(from))
  }

  /** `UPDATE ... WHERE state = from AND version = expected`, after the move itself was checked. */
  function Guarded(row: IncidentRow, from: State, to: State, expected: nat): Outcome {
    if !Allowed(from, to) then Refused(IllegalTransition)
    else if row.state != from || row.version != expected then Refused(StaleVersion)
    else Moved(IncidentRow(to, row.version + 1, row.closed || Terminal(to)))
  }

  /** One `incident.transition` audit row. */
  datatype Move = Move(from: State, to: State, version: nat)

  /** The row a history of moves leads to. */
  function RowAfter(history: seq<Move>): IncidentRow {
    if history == [] then NEW_ROW
    else
      var last := history[|history| - 1];
      IncidentRow(last.to, last.version, Terminal(last.to))
  }

  /** A path in the graph from Received, with consecutive versions. */
  predicate IsPath(history: seq<Move>) {
    history == []
    || (var before, last := history[..|history| - 1], history[|history| - 1];
        && IsPath(before)
        && Allowed(last.from, last.to)
        && last.from == RowAfter(before).state
        && last.version == RowAfter(before).version + 1)
  }

  /** A transition that goes through extends the path; its row is the path's new end. */
  lemma TransitionExtendsPath(history: seq<Move>, from: State, to: State, expected: nat)
    requires IsPath(history)
    requires Guarded(RowAfter(history), from, to, expected).Moved?
    ensures var longer := history + [Move(from, to, expected + 1)];
            IsPath(longer) && Guarded(RowAfter(history), from, to, expected).row == RowAfter(longer)
  {
    var longer := history + [Move(from, to, expected + 1)];
    assert longer[..|longer| - 1] == history;
    PathFacts(history);
  }

  /** Along a path the version counts the moves, and closed is set exactly at a terminal state. */
  lemma PathFacts(history: seq<Move>)
    requires IsPath(history)
    ensures RowAfter(history).version == 1 + |history|
    ensures RowAfter(history).closed <==> Terminal(RowAfter(history).state)
  {
    if history != [] { PathFacts(history[..|history| - 1]); }
  }

  /** A terminal state is absorbing: a path that has reached one has ended. */
  lemma {:induction false} TerminalIsLast(history: seq<Move>, m: nat)
    requires IsPath(history) && m <= |history| && Terminal(RowAfter(history[..m]).state)
    ensures m == |history|
    decreases |history|
  {
    if m < |history| {
      var shorter := history[..|history| - 1];
      assert shorter[..m] == history[..m];
      assert RowAfter(shorter).state == history[|history| - 1].from;
      if m < |shorter| { TerminalIsLast(shorter, m); }
    }
  }

  /** States an incident can be in once a plan was let through: nothing in them leads back to planning. */
  predicate PastPlanning(s: State) { s == Executing || s == Verifying || Terminal(s) }

  /** Execution is a one-way door: every state after it along any path is past planning. */
  lemma {:induction false} NeverBackToPlanning(history: seq<Move>, m: nat)
    requires IsPath(history) && m <= |history| && PastPlanning(RowAfter(history[..m]).state)
    ensures PastPlanning(RowAfter(history).state)
    decreases |history|
  {
    if m == |history| {
      assert history[..m] == history;
    } else {
      var shorter := history[..|history| - 1];
      assert shorter[..m] == history[..m];
      NeverBackToPlanning(shorter, m);
    }
  }

  function Along(states: seq<State>): (history: seq<Move>)
    requires |states| > 0
    ensures |history| == |states| - 1
  {
    if |states| == 1 then []
    else
      var n := |states| - 1;
      Along(states[..n]) + [Move(states[n - 1], states[n], n + 1)]
  }

  lemma {:induction false} AlongIsPath(states: seq<State>)
    requires |states| > 0 && states[0] == Received
    requires forall i :: 0 <= i < |states| - 1 ==> Allowed(states[i], states[i + 1])
    ensures IsPath(Along(states)) && RowAfter(Along(states)).state == states[|states| - 1]
  {
    if |states| > 1 {
      var n, history := |states| - 1, Along(states);
      AlongIsPath(states[..n]);
      assert history[..|history| - 1] == Along(states[..n]);
      PathFacts(Along(states[..n]));
    }
  }

  /** How far along the road from alert to repair a state is. */
  function Place(s: State): nat {
    match s
    case Received => 0
    case Triaged => 1
    case Investigating => 2
    case Diagnosed => 3
    case Planned => 4
    case SafetyReviewed => 5
    case AwaitingApproval => 6
    case Executing => 7
    case Verifying => 8
    case Resolved => 9
    case Escalated => 10
  }

  /** The graph is one road with a way out to a human, two ways back, and one that passes the approval by. */
  lemma OneRoad(from: State, to: State)
    ensures Allowed(from, to) <==>
            && Place(from) < 9
            && (|| to == Escalated
                || Place(to) == Place(from) + 1
                || (from, to) in {(Diagnosed, Investigating), (AwaitingApproval, Planned), (SafetyReviewed, Executing)})
  {
  }

  /** An incident that is repaired was reviewed after every time it was planned: EXECUTING follows SAFETY_REVIEWED or AWAITING_APPROVAL. */
  lemma {:induction false} RepairedWasReviewed(history: seq<Move>)
    requires IsPath(history) && Place(RowAfter(history).state) in {7, 8, 9}
    ensures exists k :: 0 <= k < |history| && history[k].to == Executing && history[k].from in {SafetyReviewed, AwaitingApproval}
    decreases |history|
  {
    var n := |history| - 1;
    var shorter, last := history[..n], history[n];
    OneRoad(last.from, last.to);
    if last.to != Executing {
      RepairedWasReviewed(shorter);
      var k :| 0 <= k < |shorter| && shorter[k].to == Executing && shorter[k].from in {SafetyReviewed, AwaitingApproval};
      assert history[k] == shorter[k];
    }
  }

  /** The ways through the graph: investigated again, revised, approved or allowed at once, repaired; and out of any of them to a human. */
  lemma WaysThrough() returns (repaired: seq<State>, revised: seq<State>)
    ensures repaired == [Received, Triaged, Investigating, Diagnosed, Planned, SafetyReviewed, Executing, Verifying, Resolved]
    ensures revised == [Received, Triaged, Investigating, Diagnosed, Investigating, Diagnosed, Planned, SafetyReviewed, AwaitingApproval,
                        Planned, SafetyReviewed, AwaitingApproval, Executing, Verifying]
    ensures IsPath(Along(repaired)) && RowAfter(Along(repaired)).state == Resolved
    ensures IsPath(Along(revised)) && forall i :: 0 < i <= |revised| ==> IsPath(Along(revised[..i] + [Escalated]))
  {
    hide Along, IsPath;
    repaired := [Received, Triaged, Investigating, Diagnosed, Planned, SafetyReviewed, Executing, Verifying, Resolved];
    revised := [Received, Triaged, Investigating, Diagnosed, Investigating, Diagnosed, Planned, SafetyReviewed, AwaitingApproval,
                Planned, SafetyReviewed, AwaitingApproval, Executing, Verifying];
    AlongIsPath(repaired);
    AlongIsPath(revised);
    forall i | 0 < i <= |revised| ensures IsPath(Along(revised[..i] + [Escalated])) { AlongIsPath(revised[..i] + [Escalated]); }
  }

  /** The incident row as the code updates it, with the audit rows the update writes. */
  class IncidentTable {
    var row: IncidentRow
    var history: seq<Move>

    ghost predicate Valid()
      reads this
    {
      IsPath(history) && row == RowAfter(history)
    }

    constructor ()
      ensures Valid() && history == []
    {
      row, history := NEW_ROW, [];
    }

    /** The new version, or why the move was refused; a refusal changes nothing. */
    method Transition(from: State, to: State, expected: nat) returns (r: Outcome)
      requires Valid()
      modifies this
      ensures Valid()
      ensures r == Guarded(old(row), from, to, expected)
      ensures r.Refused? ==> row == old(row) && history == old(history)
      ensures r.Moved? ==> row == r.row && history == old(history) + [Move(from, to, expected + 1)]
    {
      if Terminal(from) || (to != Escalated && to !in Moves(from)) {
        return Refused(IllegalTransition);
      }
      if row.state != from || row.version != expected {
        return Refused(StaleVersion);
      }
      TransitionExtendsPath(history, from, to, expected);
      row := IncidentRow(to, row.version + 1, if Terminal(to) then true else row.closed);
      history := history + [Move(from, to, row.version)];
      r := Moved(row);
    }
  }
}
