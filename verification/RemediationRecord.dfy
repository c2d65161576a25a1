/** What the record of an incident says: where each row of its trail leads, and why it is in its state. */
module RemediationRecord {
  import opened Domain
  import opened Incidents
  import opened Policy
  import opened Remediation
  import opened RemediationSafety
  import Q = JobQueue

  // ----- The one incident an event is about -----

  function OfSession(s: Sys, id: nat): Option<IncidentId> {
    if id in s.sessions then Some(s.sessions[id].incident) else None
  }

  function OfJob(s: Sys, t: Token): Option<IncidentId> {
    if t.job < |s.jobs| then Some(s.jobs[t.job].work.incident) else None
  }

  /** The one incident an event can write about. */
  function Subject(s: Sys, e: Event): Option<IncidentId> {
    match e
    case OtherMove(incident, _) => Some(incident)
    case Submit(id, _, _, _, _, _) => OfSession(s, id)
    case Decide(id, _, _, _, _, _) => OfSession(s, id)
    case TimeOut(id, _) => OfSession(s, id)
    case Advance(t, _) => OfJob(s, t)
    case EndVerify(t, _) => OfJob(s, t)
    case _ => None
  }

  lemma OnlyTheSubjectChanges(s: Sys, e: Event, incident: IncidentId)
    requires Subject(s, e) != Some(incident)
    ensures incident in s.cases ==> incident in Step(s, e).cases && Step(s, e).cases[incident] == s.cases[incident]
    ensures incident !in s.cases && incident in Step(s, e).cases ==> Step(s, e).cases[incident] == NEW_CASE
  {
    hide MustRefuse, Submitted, Decided, NewPlan, AdvanceStep, MaySubmit, MayDecide;
    if e.Advance? { AdvanceChangesItsIncident(s, e.token, e.world, incident); }
  }

  lemma AdvanceChangesItsIncident(s: Sys, t: Token, w: World, incident: IncidentId)
    requires OfJob(s, t) != Some(incident)
    ensures var s' := AdvanceStep(s, t, w);
            (incident in s'.cases <==> incident in s.cases) && (incident in s.cases ==> s'.cases[incident] == s.cases[incident])
  {
    hide MustRefuse, Q.Apply, Q.Live;
  }

  // ----- Where each row of the trail leads -----

  predicate GoesTo(trail: seq<TrailEvent>, k: nat, to: State) {
    k < |trail| && trail[k].Transitioned? && trail[k].move.to == to
  }

  /** The state a verdict sends an incident to: work, a human's decision, or a human's hands. */
  predicate Follows(verdict: Verdict, to: State) {
    && (to == Executing <==> verdict == Allow)
    && (to == AwaitingApproval <==> verdict == RequireApproval)
    && (to == Escalated <==> verdict == Deny)
  }

  /** A recorded plan is reviewed at once and goes where its verdict sends it, a decision where it says, and so on. */
  ghost predicate LeadsOn(trail: seq<TrailEvent>, k: nat, plans: seq<PlanRow>, approvals: map<nat, Approval>)
    requires k < |trail|
  {
    match trail[k]
    case PlanRecorded(n) =>
      && 1 <= n <= |plans|
      && GoesTo(trail, k + 1, Planned) && GoesTo(trail, k + 2, SafetyReviewed)
      && k + 3 < |trail| && trail[k + 3].Transitioned? && Follows(plans[n - 1].verdict, trail[k + 3].move.to)
    case PlanDecided(n, choice) =>
      && n in approvals && approvals[n].choice == choice
      && GoesTo(trail, k + 1, if choice == Approve then Executing else Escalated)
    case VerificationEnded(run) => GoesTo(trail, k + 1, if run.passed then Resolved else Escalated)
    case _ => true
  }

  ghost predicate AllLeadOn(trail: seq<TrailEvent>, plans: seq<PlanRow>, approvals: map<nat, Approval>) {
    forall k :: 0 <= k < |trail| ==> LeadsOn(trail, k, plans, approvals)
  }

  lemma TrailGoesOn(trail: seq<TrailEvent>, more: seq<TrailEvent>, plans: seq<PlanRow>, approvals: map<nat, Approval>,
                    plans': seq<PlanRow>, approvals': map<nat, Approval>)
    requires AllLeadOn(trail, plans, approvals) && AllLeadOn(more, plans', approvals')
    requires plans <= plans' && ApprovalsGrow(approvals, approvals')
    ensures AllLeadOn(trail + more, plans', approvals')
  {
    var all := trail + more;
    forall k | 0 <= k < |all| ensures LeadsOn(all, k, plans', approvals') {
      if k < |trail| {
        assert LeadsOn(trail, k, plans, approvals);
      } else {
        var j := k - |trail|;
        assert LeadsOn(more, j, plans', approvals');
        assert forall i :: j <= i < |more| ==> all[|trail| + i] == more[i];
      }
    }
  }

  // ----- Why the incident is in its state -----

  /** Before the first plan there is nothing to wait for or to run; after it, the state has its reason in the plan. */
  ghost predicate StateHasReason(plans: seq<PlanRow>, approvals: map<nat, Approval>, timedOut: set<nat>, state: State) {
    if plans == [] then state in {Received, Triaged, Investigating, Diagnosed, Escalated}
    else
      var n, verdict := |plans|, plans[|plans| - 1].verdict;
      && state in {AwaitingApproval, Executing, Verifying, Resolved, Escalated}
      && (state == AwaitingApproval ==> verdict == RequireApproval && n !in approvals && n !in timedOut)
      && (state in {Executing, Verifying, Resolved} ==> MayRun(plans, approvals))
      && (verdict == RequireApproval && n !in approvals ==> state in {AwaitingApproval, Escalated})
      && (verdict == Deny ==> state == Escalated)
  }

  /** The current plan was let through, or approved. */
  predicate MayRun(plans: seq<PlanRow>, approvals: map<nat, Approval>)
    requires plans != []
  {
    plans[|plans| - 1].verdict == Allow || (|plans| in approvals && approvals[|plans|].choice == Approve)
  }

  /** A plan waits for a decision, with a deadline, exactly if its verdict asks for one. */
  ghost predicate Deadlines(plans: seq<PlanRow>) {
    forall n :: 0 <= n < |plans| ==> (plans[n].expiresAt.Some? <==> plans[n].verdict == RequireApproval)
  }

  ghost predicate Recorded(c: Case) {
    && AllLeadOn(c.trail, c.plans, c.approvals)
    && StateHasReason(c.plans, c.approvals, c.timedOut, c.row.state)
    && Deadlines(c.plans)
    && (forall n :: 1 <= n <= |c.plans| ==> PlanRecorded(n) in c.trail)
    && (forall n :: n in c.approvals ==> PlanDecided(n, c.approvals[n].choice) in c.trail)
  }

  lemma MoveKeepsReason(c: Case, to: State)
    requires StateHasReason(c.plans, c.approvals, c.timedOut, c.row.state) && Allowed(c.row.state, to)
    requires to !in {Planned, SafetyReviewed, AwaitingApproval, Executing}
    ensures StateHasReason(c.plans, c.approvals, c.timedOut, to)
  {
  }

  /** A row that leads nowhere and one move; the plans and decisions stay as they are. */
  lemma MoveKeepsRecord(c: Case, to: State)
    requires Recorded(c) && Allowed(c.row.state, to) && to !in {Planned, SafetyReviewed, AwaitingApproval, Executing}
    ensures Recorded(MoveTo(c, to))
  {
    MoveKeepsReason(c, to);
    hide StateHasReason;
    TrailGoesOn(c.trail, [Transitioned(Move(c.row.state, to, c.row.version + 1))], c.plans, c.approvals, c.plans, c.approvals);
  }

  lemma NoteKeepsRecord(c: Case, c': Case, note: TrailEvent)
    requires Recorded(c) && (note.ExecutionStarted? || note.ExecutionSucceeded?)
    requires c' == c.(trail := c.trail + [note])
    ensures Recorded(c')
  {
    hide StateHasReason;
    TrailGoesOn(c.trail, [note], c.plans, c.approvals, c.plans, c.approvals);
  }

  lemma TimedOutKeepsRecord(c: Case)
    requires Recorded(c) && c.row.state == AwaitingApproval
    ensures Recorded(TimedOut(c, |c.plans|))
  {
    MoveKeepsRecord(c, Escalated);
  }

  lemma VerifiedKeepsRecord(c: Case, run: VerifyRun)
    requires Recorded(c) && c.row.state == Verifying
    ensures Recorded(MoveTo(c.(trail := c.trail + [VerificationEnded(run)]), if run.passed then Resolved else Escalated))
  {
    var to := if run.passed then Resolved else Escalated;
    MoveKeepsReason(c, to);
    hide StateHasReason;
    var more := [VerificationEnded(run), Transitioned(Move(Verifying, to, c.row.version + 1))];
    TrailGoesOn(c.trail, more, c.plans, c.approvals, c.plans, c.approvals);
    assert c.trail + [more[0]] + [more[1]] == c.trail + more;
  }

  function SubmittedRows(c: Case, verdict: Verdict): seq<TrailEvent> {
    var v := c.row.version;
    [PlanRecorded(|c.plans| + 1), Transitioned(Move(c.row.state, Planned, v + 1)),
     Transitioned(Move(Planned, SafetyReviewed, v + 2)), Transitioned(Move(SafetyReviewed, StateFor(verdict), v + 3))]
  }

  lemma SubmittedShape(c: Case, row: PlanRow)
    ensures var c' := Submitted(c, row);
            && c'.trail == c.trail + SubmittedRows(c, row.verdict) && c'.plans == c.plans + [row]
            && c'.approvals == c.approvals && c'.timedOut == c.timedOut && c'.execs == c.execs
            && c'.row.version == c.row.version + 3 && c'.row.state == StateFor(row.verdict)
            && Follows(row.verdict, c'.row.state)
  {
  }

  lemma SubmittedRowsLeadOn(c: Case, row: PlanRow)
    ensures AllLeadOn(SubmittedRows(c, row.verdict), c.plans + [row], c.approvals)
  {
  }

  lemma SubmittedKeepsRecord(c: Case, row: PlanRow)
    requires Recorded(c) && c.approvals == map[] && c.timedOut == {}
    requires row.expiresAt.Some? <==> row.verdict == RequireApproval
    ensures Recorded(Submitted(c, row))
  {
    SubmittedShape(c, row);
    SubmittedRowsLeadOn(c, row);
    var c', more := Submitted(c, row), SubmittedRows(c, row.verdict);
    assert more[0] == PlanRecorded(|c'.plans|) && more[0] in c'.trail;
    hide Submitted, SubmittedRows, AllLeadOn;
    TrailGoesOn(c.trail, more, c.plans, c.approvals, c'.plans, c'.approvals);
    forall n | 1 <= n <= |c'.plans| ensures PlanRecorded(n) in c'.trail {
      if n <= |c.plans| { assert PlanRecorded(n) in c.trail; }
    }
  }

  lemma DecidedKeepsRecord(c: Case, approval: Approval)
    requires Recorded(c) && c.row.state == AwaitingApproval
    ensures Recorded(Decided(c, |c.plans|, approval))
  {
    var c', n := Decided(c, |c.plans|, approval), |c.plans|;
    var more := [PlanDecided(n, approval.choice), Transitioned(Move(c.row.state, c'.row.state, c.row.version + 1))];
    assert c'.trail == c.trail + more;
    TrailGoesOn(c.trail, more, c.plans, c.approvals, c'.plans, c'.approvals);
    forall k | k in c'.approvals ensures PlanDecided(k, c'.approvals[k].choice) in c'.trail {
      if k == n { assert more[0] in c'.trail; } else { assert PlanDecided(k, c.approvals[k].choice) in c.trail; }
    }
  }

  // ----- Every event, every run -----

  ghost predicate AllRecorded(s: Sys) {
    forall incident :: incident in s.cases ==> Recorded(s.cases[incident])
  }

  lemma SubmitKeepsRecord(s: Sys, e: Event)
    requires Inv(s) && AllRecorded(s) && e.Submit?
    ensures AllRecorded(SubmitStep(s, e))
  {
    hide Recorded, JobsInv, ProcInv, PatchesInv, SessionInv, Judge, Submitted;
    if SubmitCommits(s, e.session, e.submitter) {
      var incident := s.sessions[e.session].incident;
      var c := s.cases[incident];
      NothingYet(s.jobs, incident, c);
      hide CaseInv;
      SubmittedKeepsRecord(c, NewPlan(PlanId(incident, |c.plans| + 1), e.plan, ProposedBy(e.submitter), e.context, e.queueing.now, e.ttl));
    }
  }

  lemma DecideKeepsRecord(s: Sys, e: Event)
    requires Inv(s) && AllRecorded(s) && e.Decide?
    ensures AllRecorded(DecideStep(s, e))
  {
    hide Recorded, JobsInv, ProcInv, PatchesInv, CaseInv, Decided;
    if DecisionCommits(s, e) {
      var session := s.sessions[e.session];
      assert SessionInv(s.cases, session);
      var c := s.cases[session.incident];
      DecidedKeepsRecord(c, Approval(c.plans[|c.plans| - 1].hash, e.approver, e.choice));
    }
  }

  lemma TimeOutKeepsRecord(s: Sys, e: Event)
    requires Inv(s) && AllRecorded(s) && e.TimeOut?
    ensures AllRecorded(TimeOutStep(s, e))
  {
    hide Recorded, JobsInv, ProcInv, PatchesInv, CaseInv, TimedOut;
    if TimeOutCommits(s, e.session, e.token) {
      var session := s.sessions[e.session];
      assert SessionInv(s.cases, session);
      TimedOutKeepsRecord(s.cases[session.incident]);
    }
  }

  /** What an executor's step on an action, or its giving up, does to its incident's case. */
  ghost predicate ActionChange(c: Case, c': Case) {
    || c' == c
    || c' == c.(execs := c'.execs)
    || (exists note: TrailEvent :: (note.ExecutionStarted? || note.ExecutionSucceeded?) && c' == c.(trail := c.trail + [note]))
    || (!Terminal(c.row.state) && c' == MoveTo(c, Escalated))
  }

  ghost predicate ExecutorChanges(c: Case, c': Case) {
    ActionChange(c, c') || (c.row.state == Executing && c' == MoveTo(c, Verifying))
  }

  /** The executor's last transaction goes through. */
  predicate Concludes(s: Sys, t: Token) {
    && t in s.procs && s.procs[t].pc == Conclude && Q.Live(s.jobs, t)
    && s.jobs[t.job].work.incident in s.cases && s.cases[s.jobs[t.job].work.incident].row.state == Executing
  }

  lemma ActionChanges(s: Sys, t: Token, w: World, stage: Stage, i: nat)
    requires t in s.procs && t.job < |s.jobs| && s.jobs[t.job].work.incident in s.cases
    ensures var incident := s.jobs[t.job].work.incident;
            && incident in ActionStep(s, t, w, stage, i).cases && ActionStep(s, t, w, stage, i).jobs == s.jobs
            && ActionChange(s.cases[incident], ActionStep(s, t, w, stage, i).cases[incident])
  {
    hide Q.Live;
    var incident := s.jobs[t.job].work.incident;
    var c, c', key := s.cases[incident], ActionStep(s, t, w, stage, i).cases[incident], ExecKey(s.procs[t].plan, i);
    if stage == Announce || stage == AnnounceSuccess {
      var note := if stage == Announce then ExecutionStarted(key, t) else ExecutionSucceeded(key, t);
      assert c' == c || c' == c.(trail := c.trail + [note]);
    }
  }

  lemma AdvanceChanges(s: Sys, t: Token, w: World)
    requires t.job < |s.jobs| && s.jobs[t.job].work.incident in s.cases
    ensures var incident := s.jobs[t.job].work.incident;
            && incident in AdvanceStep(s, t, w).cases
            && ExecutorChanges(s.cases[incident], AdvanceStep(s, t, w).cases[incident])
            && (!Concludes(s, t) ==>
                  ActionChange(s.cases[incident], AdvanceStep(s, t, w).cases[incident]) && AdvanceStep(s, t, w).jobs == s.jobs)
  {
    hide MustRefuse, ActionStep, Q.Live, Q.Apply;
    if t in s.procs && s.procs[t].pc.At? {
      ActionChanges(s, t, w, s.procs[t].pc.stage, s.procs[t].pc.index);
    }
  }

  lemma ExecutorKeepsRecord(c: Case, c': Case)
    requires Recorded(c) && ExecutorChanges(c, c')
    ensures Recorded(c')
  {
    if note: TrailEvent :| (note.ExecutionStarted? || note.ExecutionSucceeded?) && c' == c.(trail := c.trail + [note]) {
      NoteKeepsRecord(c, c', note);
    } else if c.row.state == Executing && c' == MoveTo(c, Verifying) {
      MoveKeepsRecord(c, Verifying);
    } else if !Terminal(c.row.state) && c' == MoveTo(c, Escalated) {
      MoveKeepsRecord(c, Escalated);
    }
  }

  lemma StepKeepsRecord(s: Sys, e: Event, incident: IncidentId)
    requires Inv(s) && AllRecorded(s) && incident in Step(s, e).cases
    ensures Recorded(Step(s, e).cases[incident])
  {
    if Subject(s, e) != Some(incident) {
      OnlyTheSubjectChanges(s, e, incident);
    } else {
      hide Inv, Recorded, SubmitStep, DecideStep, TimeOutStep, AdvanceStep, LiveFor;
      match e
      case Submit(_, _, _, _, _, _) => SubmitKeepsRecord(s, e);
      case Decide(_, _, _, _, _, _) => DecideKeepsRecord(s, e);
      case TimeOut(_, _) => TimeOutKeepsRecord(s, e);
      case Advance(t, w) => AdvanceKeepsRecord(s, t, w, incident);
      case EndVerify(t, run) =>
        if incident in s.cases && s.cases[incident].row.state == Verifying { VerifiedKeepsRecord(s.cases[incident], run); }
      case OtherMove(_, to) => if MayMove(s.cases[incident], to) { MoveKeepsRecord(s.cases[incident], to); }
      case _ =>
    }
  }

  lemma AdvanceKeepsRecord(s: Sys, t: Token, w: World, incident: IncidentId)
    requires AllRecorded(s) && OfJob(s, t) == Some(incident) && incident in AdvanceStep(s, t, w).cases
    ensures Recorded(AdvanceStep(s, t, w).cases[incident])
  {
    hide Recorded;
    AdvanceAddsNoCase(s, t, w);
    AdvanceChanges(s, t, w);
    hide AdvanceStep;
    ExecutorKeepsRecord(s.cases[incident], AdvanceStep(s, t, w).cases[incident]);
  }

  lemma AdvanceAddsNoCase(s: Sys, t: Token, w: World)
    ensures AdvanceStep(s, t, w).cases.Keys == s.cases.Keys
  {
    hide MustRefuse, Q.Apply, Q.Live;
  }

  /**
   * In every run: a recorded plan is reviewed at once and goes to Executing, AwaitingApproval or Escalated
   * as its verdict allows it, asks for a decision or denies it; a decision goes to Executing exactly if it
   * approves; an incident waits only for a decision on a plan that needs one, and executes only a plan that
   * was let through or approved.
   */
  lemma {:induction false} RunIsRecorded(events: seq<Event>)
    ensures AllRecorded(Run(events))
    decreases |events|
  {
    if events == [] {
    } else {
      hide Inv, Step, Recorded;
      var shorter := events[..|events| - 1];
      RunIsRecorded(shorter);
      RunKeepsInv(shorter, 0);
      forall incident | incident in Run(events).cases ensures Recorded(Run(events).cases[incident]) {
        StepKeepsRecord(Run(shorter), events[|events| - 1], incident);
      }
    }
  }
}
