/** Where the evidence behind a diagnosis came from. */
module Provenance {
  import opened Domain
  import opened Transcript
  import opened AgentLoop
  import opened Citations
  import Checkpoints
  import Investigations
  import Names

  type Entry = Checkpoints.Entry

  /** One agent's run: its world judges answers with the citation check, given the evidence known at that step. */
  datatype Author<!V> = Author(
    spec: Spec, budget: nat, world: World<V>, task: string, rounds: nat, parse: string -> Option<V>,
    known: nat -> map<string, string>)

  function Outcome<V>(a: Author<V>): (Run<V>, Status) { After(a.spec, a.budget, a.world, a.task, a.rounds) }

  /** The id came back to the agent from a successful call to one of its own tools. */
  ghost predicate ReturnedTo<V>(a: Author<V>, ev: string) {
    exists r: nat, tool :: Returned(a.spec, a.world, r, ev, tool)
  }

  lemma ShownWasReturned<V>(a: Author<V>)
    ensures forall ev :: ev in Outcome(a).0.shown ==> ReturnedTo(a, ev)
  {
    ShownIsOwnEvidence(a.spec, a.budget, a.world, a.task, a.rounds);
    hide After, Returned;
    var shown := Outcome(a).0.shown;
    forall ev | ev in shown ensures ReturnedTo(a, ev) {
      var r: nat :| r <= a.rounds && Returned(a.spec, a.world, r, ev, shown[ev]);
    }
  }

  // ----- Findings -----

  /** The check the loop is given for a report; a report that does not parse is malformed. */
  ghost predicate ChecksReports(a: Author<Report>) {
    forall n: nat, answer, shown: map<string, string> ::
      match a.parse(answer)
      case None => a.world.verdict(n, answer, shown).Malformed?
      case Some(report) =>
        var v := a.world.verdict(n, answer, shown);
        v.Judged? && v.value == Report(report.summary, FindingsKept(report.findings, a.known(n), shown.Keys))
  }

  /** A finding of the accepted report of its author's finished run. */
  datatype Posted = Posted(author: Author<Report>, finding: Finding)

  ghost predicate IsPosted(p: Posted) {
    && ChecksReports(p.author)
    && Outcome(p.author).1 == Finished
    && Outcome(p.author).0.final.Some?
    && p.finding in Outcome(p.author).0.final.value.findings
  }

  /** A posted finding passed its check: each id it cites was evidence of the incident and was returned to its author. */
  lemma PostedFindingIsSupported(p: Posted)
    requires IsPosted(p)
    ensures var n := Outcome(p.author).0.steps;
            && FindingHolds(p.finding, p.author.known(n), Outcome(p.author).0.shown.Keys)
            && forall ev :: ev in p.finding.evidence ==> ev in p.author.known(n) && ReturnedTo(p.author, ev)
  {
    var a := p.author;
    FinalIsJudged(a.spec, a.budget, a.world, a.task, a.rounds);
    ShownWasReturned(a);
    hide After, ReturnedTo, FindingsKept;
    var run := Outcome(a).0;
    var answer :| a.world.verdict(run.steps, answer, run.shown) == Judged(run.final.value, run.problems, run.dropped);
    assert a.parse(answer).Some?;
    FewerKept(a.parse(answer).value.findings, a.known(run.steps), run.shown.Keys);
    assert forall ev :: ev in p.finding.evidence ==> ev in run.shown;
  }

  // ----- Diagnoses -----

  /** The schema asks for at least one id on every root cause, fact and inference. */
  predicate FitsSchema(dx: Diagnosis) { forall item :: item in Claims(dx) ==> item.evidence != [] }

  function Allowed(cited: Option<set<string>>, shown: set<string>): set<string> {
    if cited.Some? then cited.value else shown
  }

  /** The check of a diagnosis: it may cite the given ids, or, for the single agent, what it was shown itself. */
  ghost predicate ChecksDiagnoses(a: Author<Diagnosis>, cited: Option<set<string>>) {
    forall n: nat, answer, shown: map<string, string> ::
      match a.parse(answer)
      case None => a.world.verdict(n, answer, shown).Malformed?
      case Some(dx) =>
        var v := a.world.verdict(n, answer, shown);
        FitsSchema(dx) && v.Judged? && v.value == DiagnosisKept(dx, a.known(n), Allowed(cited, shown.Keys))
  }

  lemma KeptClaimsHold(dx: Diagnosis, known: map<string, string>, shown: set<string>)
    requires FitsSchema(dx)
    ensures forall item :: item in Claims(DiagnosisKept(dx, known, shown)) ==>
              CitesLive(item.evidence, known) && AllShown(item.evidence, known, shown)
  {
    AcceptedDiagnosisPassesAgain(dx, known, shown);
    KeptItemsHold(dx.rootCauses, known, shown, true);
    KeptItemsHold(dx.facts, known, shown, true);
    KeptItemsHold(dx.inferences, known, shown, true);
    hide ItemsKept, CitesLive, AllShown;
    forall item | item in Claims(DiagnosisKept(dx, known, shown))
      ensures CitesLive(item.evidence, known) && AllShown(item.evidence, known, shown)
    {
      assert ItemHolds(item, known, shown, true) && item in Claims(dx);
    }
  }

  lemma DiagnosisIsJudged(a: Author<Diagnosis>, cited: Option<set<string>>)
    requires ChecksDiagnoses(a, cited) && Outcome(a).1 == Finished
    ensures var run := Outcome(a).0;
            && run.final.Some?
            && forall item :: item in Claims(run.final.value) ==>
                 && CitesLive(item.evidence, a.known(run.steps))
                 && AllShown(item.evidence, a.known(run.steps), Allowed(cited, run.shown.Keys))
  {
    FinalIsJudged(a.spec, a.budget, a.world, a.task, a.rounds);
    hide After, Claims, CitesLive, AllShown, DiagnosisKept, FitsSchema;
    var run := Outcome(a).0;
    var answer :| a.world.verdict(run.steps, answer, run.shown) == Judged(run.final.value, run.problems, run.dropped);
    assert a.parse(answer).Some?;
    KeptClaimsHold(a.parse(answer).value, a.known(run.steps), Allowed(cited, run.shown.Keys));
  }

  // ----- The investigation of one incident -----

  /** How findings and diagnoses are written into an entry's body and read back. */
  datatype Codec = Codec(
    finding: Finding -> string, findingOf: string -> Option<Finding>,
    diagnosis: Diagnosis -> string, diagnosisOf: string -> Option<Diagnosis>)

  ghost predicate RoundTrips(c: Codec) {
    (forall f :: c.findingOf(c.finding(f)) == Some(f)) && (forall dx :: c.diagnosisOf(c.diagnosis(dx)) == Some(dx))
  }

  /**
   * What attempt i does: an agent's finished run is brought to the store, or anything else that is no
   * finish. The synthesizer works from a board its attempt has read; the single agent from none.
   */
  datatype Act =
    | Other(event: Investigations.Event)
    | Planned(i: nat, steps: nat, result: string, plan: string)
    | Reported(i: nat, author: Author<Report>, result: string)
    | Diagnosed(i: nat, writer: Author<Diagnosis>, board: Option<seq<Entry>>, ids: seq<string>, result: string)

  function EntriesOf(c: Codec, name: string, findings: seq<Finding>): seq<Entry> {
    seq(|findings|, n requires 0 <= n < |findings| =>
      Checkpoints.Entry("finding", name, c.finding(findings[n]), findings[n].evidence))
  }

  function EventOf(c: Codec, act: Act): Investigations.Event {
    match act
    case Other(event) => event
    case Planned(i, steps, result, plan) =>
      Investigations.Finish(i, "coordinator", steps, result, [Checkpoints.Entry("plan", "coordinator", plan, [])])
    case Reported(i, a, result) =>
      var run := Outcome(a).0;
      Investigations.Finish(i, a.spec.name, run.steps, result,
                            if run.final.Some? then EntriesOf(c, a.spec.name, run.final.value.findings) else [])
    case Diagnosed(i, a, _, ids, result) =>
      var run := Outcome(a).0;
      Investigations.Finish(i, a.spec.name, run.steps, result,
                            if run.final.Some? then [Checkpoints.Entry("diagnosis", a.spec.name, c.diagnosis(run.final.value), ids)] else [])
  }

  function Events(c: Codec, acts: seq<Act>): seq<Investigations.Event> {
    seq(|acts|, k requires 0 <= k < |acts| => EventOf(c, acts[k]))
  }

  /** The blackboard of the incident after these acts. */
  function Board(c: Codec, acts: seq<Act>): seq<Entry> { Investigations.Run(Events(c, acts)).store.board }

  /** The ids the findings on a board cite: what the synthesizer may cite. */
  function CitedOn(c: Codec, board: seq<Entry>): set<string> {
    set e, ev | e in board && e.kind == "finding" && c.findingOf(e.body).Some? && ev in c.findingOf(e.body).value.evidence :: ev
  }

  ghost predicate HasRead(events: seq<Investigations.Event>, i: nat, board: seq<Entry>) {
    exists m :: 0 <= m <= |events| && ReadAt(Investigations.Run(events[..m]), i, board)
  }

  predicate ReadAt(w: Investigations.World, i: nat, board: seq<Entry>) {
    i in w.attempts && w.attempts[i].board == Some(board)
  }

  /** What is known at a step is in the incident's evidence table, which only grows. */
  ghost predicate Reads<V>(a: Author<V>, table: map<string, string>) {
    forall n, ev :: ev in a.known(n) ==> ev in table && table[ev] == a.known(n)[ev]
  }

  /** The act is one the coordination can make after those before it, on any model answers. */
  ghost predicate CanFollow(c: Codec, table: map<string, string>, before: seq<Act>, act: Act) {
    match act
    case Other(event) => !event.Finish?
    case Planned(_, _, _, _) => true
    case Reported(_, a, _) => ChecksReports(a) && Outcome(a).1 == Finished && Reads(a, table)
    case Diagnosed(i, a, board, ids, _) =>
      && Outcome(a).1 == Finished && Reads(a, table)
      && (board.Some? ==> HasRead(Events(c, before), i, board.value))
      && ChecksDiagnoses(a, if board.Some? then Some(CitedOn(c, board.value)) else None)
      && (Outcome(a).0.final.Some? ==> Names.IsSorted(ids, set item, ev | item in Claims(Outcome(a).0.final.value) && ev in item.evidence :: ev))
  }

  ghost predicate Possible(c: Codec, table: map<string, string>, acts: seq<Act>) {
    forall k :: 0 <= k < |acts| ==> CanFollow(c, table, acts[..k], acts[k])
  }

  /** A finding on the board is one of an investigator's accepted report. */
  ghost predicate ComesFrom(c: Codec, acts: seq<Act>, e: Entry, k: nat) {
    && k < |acts| && acts[k].Reported? && acts[k].author.spec.name == e.author
    && c.findingOf(e.body).Some? && c.findingOf(e.body).value.evidence == e.evidence
    && IsPosted(Posted(acts[k].author, c.findingOf(e.body).value))
  }

  lemma ReportBringsItsFindings(c: Codec, act: Act, e: Entry)
    requires RoundTrips(c) && act.Reported? && ChecksReports(act.author) && Outcome(act.author).1 == Finished
    requires e in EventOf(c, act).entries
    ensures e.author == act.author.spec.name && c.findingOf(e.body).Some? && c.findingOf(e.body).value.evidence == e.evidence
    ensures IsPosted(Posted(act.author, c.findingOf(e.body).value))
  {
    hide Outcome, ChecksReports;
    var findings := Outcome(act.author).0.final.value.findings;
    var n: nat :| n < |findings| && e == EntriesOf(c, act.author.spec.name, findings)[n];
    assert c.findingOf(c.finding(findings[n])) == Some(findings[n]);
  }

  lemma StoredFindingComesFromReport(c: Codec, table: map<string, string>, acts: seq<Act>, e: Entry)
    requires RoundTrips(c) && Possible(c, table, acts) && e in Board(c, acts) && e.kind == "finding"
    ensures exists k: nat :: ComesFrom(c, acts, e, k)
  {
    hide Outcome, ChecksReports, ChecksDiagnoses, IsPosted, Investigations.Run, RoundTrips;
    Investigations.BroughtByFinish(Events(c, acts), e);
    var k :| 0 <= k < |acts| && Investigations.IsItsFinish(Events(c, acts), k, e.author) && e in Events(c, acts)[k].entries;
    assert CanFollow(c, table, acts[..k], acts[k]);
    assert acts[k].Reported?;
    ReportBringsItsFindings(c, acts[k], e);
    assert ComesFrom(c, acts, e, k);
  }

  /** The id is cited by a finding on the board, and came back to that finding's author from one of its own tools. */
  ghost predicate RestsOnFinding(c: Codec, acts: seq<Act>, ev: string) {
    exists e, k: nat ::
      && e in Board(c, acts) && e.kind == "finding" && ev in e.evidence
      && ComesFrom(c, acts, e, k) && ReturnedTo(acts[k].author, ev)
  }

  lemma CitedRestsOnFinding(c: Codec, table: map<string, string>, acts: seq<Act>, i: nat, board: seq<Entry>, ev: string)
    requires RoundTrips(c) && Possible(c, table, acts) && HasRead(Events(c, acts), i, board) && ev in CitedOn(c, board)
    ensures RestsOnFinding(c, acts, ev)
  {
    hide RoundTrips, Possible, IsPosted, ReturnedTo, Investigations.Run;
    var events := Events(c, acts);
    var m :| 0 <= m <= |events| && ReadAt(Investigations.Run(events[..m]), i, board);
    Investigations.BoardOnlyGrows(events, m, i);
    var e :| e in board && e.kind == "finding" && c.findingOf(e.body).Some? && ev in c.findingOf(e.body).value.evidence;
    StoredFindingComesFromReport(c, table, acts, e);
    var k: nat :| ComesFrom(c, acts, e, k);
    PostedFindingIsSupported(Posted(acts[k].author, c.findingOf(e.body).value));
  }

  /** Every id an item cites is evidence of the incident that rests on a stored finding, or on the single agent's own calls. */
  ghost predicate IsBacked(c: Codec, table: map<string, string>, acts: seq<Act>, k: nat, item: Cited)
    requires k < |acts| && acts[k].Diagnosed?
  {
    && CitesLive(item.evidence, table)
    && forall ev :: ev in item.evidence ==>
         && ev in table
         && if acts[k].board.Some? then RestsOnFinding(c, acts[..k], ev) else ReturnedTo(acts[k].writer, ev)
  }

  lemma KnownIsInTable<V>(a: Author<V>, table: map<string, string>, n: nat, ids: seq<string>, shown: set<string>)
    requires Reads(a, table) && CitesLive(ids, a.known(n)) && AllShown(ids, a.known(n), shown)
    ensures CitesLive(ids, table) && forall ev :: ev in ids ==> ev in table && ev in shown
  {
    var ev :| ev in ids && ev in a.known(n) && a.known(n)[ev] !in KNOWLEDGE_TOOLS;
    assert ev in table && table[ev] == a.known(n)[ev];
  }

  lemma PrefixIsPossible(c: Codec, table: map<string, string>, acts: seq<Act>, k: nat)
    requires Possible(c, table, acts) && k <= |acts|
    ensures Possible(c, table, acts[..k])
  {
    hide CanFollow;
    forall j | 0 <= j < k ensures CanFollow(c, table, acts[..k][..j], acts[..k][j]) {
      assert acts[..k][..j] == acts[..j];
    }
  }

  /**
   * Whatever the models answer and however attempts interleave, each root cause, fact and inference of an
   * accepted diagnosis cites a live result of the incident, and each id it cites is evidence of the
   * incident, is cited by a finding then on the blackboard, and came back to that finding's author from
   * one of its own tools; for the single agent, to that agent itself.
   */
  lemma DiagnosisRestsOnOwnResults(c: Codec, table: map<string, string>, acts: seq<Act>, k: nat)
    requires RoundTrips(c) && Possible(c, table, acts) && k < |acts| && acts[k].Diagnosed?
    ensures var final := Outcome(acts[k].writer).0.final;
            final.Some? && forall item :: item in Claims(final.value) ==> IsBacked(c, table, acts, k, item)
  {
    var a, board := acts[k].writer, acts[k].board;
    assert CanFollow(c, table, acts[..k], acts[k]);
    var cited := if board.Some? then Some(CitedOn(c, board.value)) else None;
    DiagnosisIsJudged(a, cited);
    ShownWasReturned(a);
    PrefixIsPossible(c, table, acts, k);
    hide RoundTrips, Possible, ChecksDiagnoses, Outcome, RestsOnFinding, ReturnedTo, CitesLive, AllShown, CitedOn, Claims, Reads, HasRead;
    var run := Outcome(a).0;
    forall item | item in Claims(run.final.value) ensures IsBacked(c, table, acts, k, item) {
      KnownIsInTable(a, table, run.steps, item.evidence, Allowed(cited, run.shown.Keys));
      if board.Some? {
        forall ev | ev in item.evidence ensures RestsOnFinding(c, acts[..k], ev) {
          CitedRestsOnFinding(c, table, acts[..k], acts[k].i, board.value, ev);
        }
      }
    }
  }

  /** So a diagnosis on the blackboard, read back, is one of these. */
  lemma StoredDiagnosisRestsOnOwnResults(c: Codec, table: map<string, string>, acts: seq<Act>, e: Entry)
    requires RoundTrips(c) && Possible(c, table, acts) && e in Board(c, acts) && e.kind == "diagnosis"
    ensures exists k :: 0 <= k < |acts| && acts[k].Diagnosed? && acts[k].writer.spec.name == e.author
              && c.diagnosisOf(e.body).Some?
              && forall item :: item in Claims(c.diagnosisOf(e.body).value) ==> IsBacked(c, table, acts, k, item)
  {
    hide Outcome, ChecksReports, ChecksDiagnoses, Investigations.Run, IsBacked, Claims;
    Investigations.BroughtByFinish(Events(c, acts), e);
    var k :| 0 <= k < |acts| && Investigations.IsItsFinish(Events(c, acts), k, e.author) && e in Events(c, acts)[k].entries;
    assert CanFollow(c, table, acts[..k], acts[k]);
    assert acts[k].Diagnosed?;
    DiagnosisRestsOnOwnResults(c, table, acts, k);
    var dx := Outcome(acts[k].writer).0.final.value;
    assert c.diagnosisOf(c.diagnosis(dx)) == Some(dx);
  }
}
