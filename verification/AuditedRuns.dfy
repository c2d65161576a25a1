/**
 * The remediation protocol and the one hash-chained log together: a transaction appends its rows
 * under the log's lock, among those of others, and what it does to an incident happens as it commits.
 */
module AuditedRuns {
  import opened Domain
  import opened Incidents
  import opened Remediation
  import opened RemediationSafety
  import opened RemediationRecord
  import RemediationTheorems
  import Q = JobQueue
  import Audit
  import AuditAppenders

  /** What a row says: a step of an incident's trail, or anything else that is audited. */
  datatype Content = About(incident: IncidentId, event: TrailEvent) | Elsewhere(text: string)

  type Log = seq<Audit.Row<Content>>

  /** The rows about incidents, in order. */
  function TrailRows(log: Log): seq<Content> {
    if log == [] then []
    else
      var last := log[|log| - 1].content;
      TrailRows(log[..|log| - 1]) + (if last.About? then [last] else [])
  }

  /** One incident's trail, picked out of the rows about all of them. */
  function TrailOf(rows: seq<Content>, incident: IncidentId): seq<TrailEvent> {
    if rows == [] then []
    else
      var last := rows[|rows| - 1];
      TrailOf(rows[..|rows| - 1], incident) + (if last.About? && last.incident == incident then [last.event] else [])
  }

  // ----- What an event writes -----

  function TrailIn(s: Sys, incident: IncidentId): seq<TrailEvent> {
    if incident in s.cases then s.cases[incident].trail else []
  }

  function Added(was: seq<TrailEvent>, now: seq<TrailEvent>): seq<TrailEvent> {
    if |was| <= |now| then now[|was|..] else []
  }

  function Rows(incident: IncidentId, added: seq<TrailEvent>): seq<Content> {
    seq(|added|, n requires 0 <= n < |added| => About(incident, added[n]))
  }

  /** The rows a transaction has to write for the event to happen. */
  ghost function RowsFor(s: Sys, e: Event): seq<Content> {
    var subject := Subject(s, e);
    if subject.None? then []
    else Rows(subject.value, Added(TrailIn(s, subject.value), TrailIn(Step(s, e), subject.value)))
  }

  /** The log, and the events that have happened. */
  datatype Joint = Joint(db: AuditAppenders.Db<Content>, history: seq<Event>)

  /** Someone works on the log without touching an incident; or transaction tx commits, and the event happens. */
  datatype Act = Write(e: AuditAppenders.Event<Content>) | Happen(tx: nat, event: Event)

  ghost function StepJoint(j: Joint, act: Act): Joint {
    match act
    case Write(e) =>
      if e.Commit? && e.tx in j.db.open && TrailRows(j.db.open[e.tx]) != [] then j
      else j.(db := AuditAppenders.Step(j.db, e))
    case Happen(tx, e) =>
      if tx !in j.db.open || TrailRows(j.db.open[tx]) != RowsFor(Run(j.history), e) then j
      else Joint(AuditAppenders.Step(j.db, AuditAppenders.Commit(tx)), j.history + [e])
  }

  ghost function RunJoint(acts: seq<Act>): Joint {
    if acts == [] then Joint(AuditAppenders.Db([], None, map[], 1), [])
    else StepJoint(RunJoint(acts[..|acts| - 1]), acts[|acts| - 1])
  }

  // ----- Lists of rows -----

  lemma {:induction false} TrailRowsOfConcat(a: Log, b: Log)
    ensures TrailRows(a + b) == TrailRows(a) + TrailRows(b)
    decreases |b|
  {
    if b == [] {
      assert a + b == a;
    } else {
      assert (a + b)[..|a + b| - 1] == a + b[..|b| - 1];
      TrailRowsOfConcat(a, b[..|b| - 1]);
    }
  }

  lemma {:induction false} TrailOfConcat(a: seq<Content>, b: seq<Content>, incident: IncidentId)
    ensures TrailOf(a + b, incident) == TrailOf(a, incident) + TrailOf(b, incident)
    decreases |b|
  {
    if b == [] {
      assert a + b == a;
    } else {
      assert (a + b)[..|a + b| - 1] == a + b[..|b| - 1];
      TrailOfConcat(a, b[..|b| - 1], incident);
    }
  }

  lemma {:induction false} TrailOfRows(subject: IncidentId, added: seq<TrailEvent>, incident: IncidentId)
    ensures TrailOf(Rows(subject, added), incident) == if incident == subject then added else []
  {
    if added != [] {
      var shorter := added[..|added| - 1];
      TrailOfRows(subject, shorter, incident);
      assert Rows(subject, added)[..|added| - 1] == Rows(subject, shorter);
      assert shorter + [added[|added| - 1]] == added;
    }
  }

  lemma {:induction false} SameTrailRows(a: Log, b: Log)
    requires |a| == |b| && forall i :: 0 <= i < |a| ==> Audit.SameRow(a[i], b[i])
    ensures TrailRows(a) == TrailRows(b)
  {
    if a != [] {
      assert Audit.SameRow(a[|a| - 1], b[|b| - 1]);
      SameTrailRows(a[..|a| - 1], b[..|b| - 1]);
    }
  }

  // ----- The log holds every trail -----

  lemma OnlyTheSubjectIsWritten(s: Sys, e: Event, incident: IncidentId)
    requires Subject(s, e) != Some(incident)
    ensures TrailIn(Step(s, e), incident) == TrailIn(s, incident)
  {
    hide Step, Subject;
    OnlyTheSubjectChanges(s, e, incident);
  }

  lemma TrailGrowsBy(events: seq<Event>, e: Event, incident: IncidentId)
    ensures var s := Run(events);
            TrailIn(Step(s, e), incident) == TrailIn(s, incident) + TrailOf(RowsFor(s, e), incident)
  {
    hide Inv, Step, Run, Subject;
    RunKeepsInv(events, 0);
    var s := Run(events);
    StepKeepsInv(s, e);
    var subject := Subject(s, e);
    if subject != Some(incident) { OnlyTheSubjectIsWritten(s, e, incident); }
    if subject.Some? { TrailOfRows(subject.value, Added(TrailIn(s, subject.value), TrailIn(Step(s, e), subject.value)), incident); }
    GrownTrail(s.cases, Step(s, e).cases, incident);
  }

  lemma GrownTrail(was: map<IncidentId, Case>, now: map<IncidentId, Case>, incident: IncidentId)
    requires AllGrow(was, now)
    ensures incident in was ==> incident in now && was[incident].trail <= now[incident].trail
  {
    if incident in was { assert Grows(was[incident], now[incident]); }
  }

  ghost predicate TrailsInLog(log: Log, s: Sys) {
    forall incident :: TrailOf(TrailRows(log), incident) == TrailIn(s, incident)
  }

  lemma HappeningKeepsTrails(j: Joint, tx: nat, e: Event)
    requires TrailsInLog(j.db.committed, Run(j.history))
    requires tx in j.db.open && TrailRows(j.db.open[tx]) == RowsFor(Run(j.history), e)
    ensures TrailsInLog(j.db.committed + j.db.open[tx], Run(j.history + [e]))
  {
    hide Step, RowsFor, TrailIn, TrailRows, TrailOf;
    assert (j.history + [e])[..|j.history|] == j.history;
    TrailRowsOfConcat(j.db.committed, j.db.open[tx]);
    forall incident
      ensures TrailOf(TrailRows(j.db.committed + j.db.open[tx]), incident) == TrailIn(Run(j.history + [e]), incident)
    {
      TrailOfConcat(TrailRows(j.db.committed), TrailRows(j.db.open[tx]), incident);
      TrailGrowsBy(j.history, e, incident);
    }
  }

  lemma OthersCommit(db: AuditAppenders.Db<Content>, e: AuditAppenders.Event<Content>, s: Sys)
    requires TrailsInLog(db.committed, s)
    requires !(e.Commit? && e.tx in db.open && TrailRows(db.open[e.tx]) != [])
    ensures TrailsInLog(AuditAppenders.Step(db, e).committed, s)
  {
    hide TrailOf, TrailIn;
    if e.Commit? && e.tx in db.open {
      TrailRowsOfConcat(db.committed, db.open[e.tx]);
      assert TrailRows(db.committed) + [] == TrailRows(db.committed);
    }
  }

  /** At any time the committed log is one chain, and its rows about an incident are the incident's trail. */
  lemma {:induction false} LogHoldsEveryTrail(acts: seq<Act>)
    ensures AuditAppenders.Inv(RunJoint(acts).db)
    ensures TrailsInLog(RunJoint(acts).db.committed, Run(RunJoint(acts).history))
  {
    hide AuditAppenders.Inv, TrailRows, TrailIn, TrailOf, RowsFor, AuditAppenders.Visible;
    if acts == [] {
      NothingLogged();
    } else {
      var j, act := RunJoint(acts[..|acts| - 1]), acts[|acts| - 1];
      LogHoldsEveryTrail(acts[..|acts| - 1]);
      match act
      case Write(e) =>
        AuditAppenders.StepKeepsInv(j.db, e);
        if !(e.Commit? && e.tx in j.db.open && TrailRows(j.db.open[e.tx]) != []) { OthersCommit(j.db, e, Run(j.history)); }
      case Happen(tx, e) =>
        AuditAppenders.StepKeepsInv(j.db, AuditAppenders.Commit(tx));
        if tx in j.db.open && TrailRows(j.db.open[tx]) == RowsFor(Run(j.history), e) { HappeningKeepsTrails(j, tx, e); }
    }
  }

  lemma NothingLogged()
    ensures AuditAppenders.Inv(RunJoint([]).db) && TrailsInLog([], Run([]))
  {
  }

  /**
   * A log that verification accepts and that ends in the committed log's last hash gives, for every
   * incident, the incident's whole trail, and from its moves the exact row: state, version and whether
   * it is closed. An incident that is not there has no rows.
   */
  lemma VerifiedLogTellsEveryRow(acts: seq<Act>, log: Log, incident: IncidentId)
    requires var committed := RunJoint(acts).db.committed;
             Audit.Chained(log, |log|) && Audit.HashBefore(log, |log|) == Audit.HashBefore(committed, |committed|)
    ensures var s, trail := Run(RunJoint(acts).history), TrailOf(TrailRows(log), incident);
            if incident in s.cases
            then trail == s.cases[incident].trail && IsPath(MovesOf(trail)) && s.cases[incident].row == RowAfter(MovesOf(trail))
            else trail == []
  {
    hide RunJoint, Run, TrailOf, TrailRows, IsPath, RowAfter, MovesOf;
    LogHoldsEveryTrail(acts);
    var j := RunJoint(acts);
    Audit.LastHashFixesLog(log, j.db.committed);
    SameTrailRows(log, j.db.committed);
    if incident in Run(j.history).cases { RemediationTheorems.TrailTellsTheRow(j.history, incident); }
  }

  // ----- Every run of the protocol can be logged -----

  /** The acts that log the events one transaction at a time, each under a number of its own. */
  ghost function OneByOne(events: seq<Event>): seq<Act> {
    if events == [] then []
    else
      var before, e := events[..|events| - 1], events[|events| - 1];
      OneByOne(before) + Appending(|before|, RowsFor(Run(before), e)) + [Happen(|before|, e)]
  }

  function Appending(tx: nat, rows: seq<Content>): seq<Act> {
    if rows == [] then [Write(AuditAppenders.Begin(tx))]
    else Appending(tx, rows[..|rows| - 1]) + [Write(AuditAppenders.Append(tx, rows[|rows| - 1]))]
  }

  lemma AfterOneMore(acts: seq<Act>, act: Act)
    ensures RunJoint(acts + [act]) == StepJoint(RunJoint(acts), act)
  {
    assert (acts + [act])[..|acts|] == acts;
  }

  ghost predicate Quiet(j: Joint) { j.db.open == map[] && j.db.lock.None? }

  /** Only tx is under way, and it has written these rows. */
  ghost predicate HasWritten(j: Joint, tx: nat, rows: seq<Content>) {
    && j.db.open.Keys == {tx} && (j.db.lock.None? || j.db.lock == Some(tx))
    && TrailRows(j.db.open[tx]) == rows
  }

  lemma AppendOne(j: Joint, tx: nat, rows: seq<Content>, row: Content)
    requires HasWritten(j, tx, rows) && row.About?
    ensures var j' := StepJoint(j, Write(AuditAppenders.Append(tx, row)));
            HasWritten(j', tx, rows + [row]) && j'.history == j.history
  {
    hide AuditAppenders.Visible;
    var j' := StepJoint(j, Write(AuditAppenders.Append(tx, row)));
    var written := j.db.open[tx];
    assert j'.db.open[tx][..|written|] == written;
  }

  lemma {:induction false} AppendingWrites(acts: seq<Act>, tx: nat, rows: seq<Content>)
    requires Quiet(RunJoint(acts)) && forall row :: row in rows ==> row.About?
    ensures var j := RunJoint(acts + Appending(tx, rows));
            HasWritten(j, tx, rows) && j.history == RunJoint(acts).history
    decreases |rows|
  {
    hide StepJoint, HasWritten, Quiet, RunJoint;
    if rows == [] {
      AfterOneMore(acts, Write(AuditAppenders.Begin(tx)));
      BeginOne(RunJoint(acts), tx);
    } else {
      var shorter, row := rows[..|rows| - 1], rows[|rows| - 1];
      AppendingWrites(acts, tx, shorter);
      AfterOneMore(acts + Appending(tx, shorter), Write(AuditAppenders.Append(tx, row)));
      assert acts + Appending(tx, rows) == acts + Appending(tx, shorter) + [Write(AuditAppenders.Append(tx, row))];
      AppendOne(RunJoint(acts + Appending(tx, shorter)), tx, shorter, row);
      assert shorter + [row] == rows;
    }
  }

  lemma BeginOne(j: Joint, tx: nat)
    requires Quiet(j)
    ensures var j' := StepJoint(j, Write(AuditAppenders.Begin(tx)));
            HasWritten(j', tx, []) && j'.history == j.history
  {
  }

  lemma HappenNow(j: Joint, tx: nat, e: Event)
    requires HasWritten(j, tx, RowsFor(Run(j.history), e))
    ensures var j' := StepJoint(j, Happen(tx, e));
            Quiet(j') && j'.history == j.history + [e]
  {
    hide RowsFor, TrailRows, Run;
    var j' := StepJoint(j, Happen(tx, e));
    assert j'.db.open.Keys == {};
  }

  /** So the theorem above speaks of every run: each one is the history of some log. */
  lemma {:induction false} EveryRunCanBeLogged(events: seq<Event>)
    ensures Quiet(RunJoint(OneByOne(events))) && RunJoint(OneByOne(events)).history == events
  {
    hide StepJoint, HasWritten, Quiet, Run, Appending, RowsFor, RunJoint;
    if events == [] {
      StartsQuiet();
    } else {
      var before, e := events[..|events| - 1], events[|events| - 1];
      EveryRunCanBeLogged(before);
      var rows := RowsFor(Run(before), e);
      RowsAreAbout(Run(before), e);
      AppendingWrites(OneByOne(before), |before|, rows);
      AfterOneMore(OneByOne(before) + Appending(|before|, rows), Happen(|before|, e));
      HappenNow(RunJoint(OneByOne(before) + Appending(|before|, rows)), |before|, e);
      assert before + [e] == events;
    }
  }

  lemma StartsQuiet()
    ensures Quiet(RunJoint([])) && RunJoint([]).history == []
  {
  }

  lemma RowsAreAbout(s: Sys, e: Event)
    ensures forall row :: row in RowsFor(s, e) ==> row.About?
  {
    hide Step;
  }
}
