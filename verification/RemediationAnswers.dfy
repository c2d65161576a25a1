/** What a submission, a decision and a timeout do, exactly when they do it, and when the deadline's job is due. */
module RemediationAnswers {
  import opened Domain
  import opened Incidents
  import opened Policy
  import opened Remediation
  import opened RemediationSafety
  import opened RemediationRecord
  import opened RemediationJobs
  import Q = JobQueue
  import Bypass
  import JobFates

  // ----- What they do -----

  /** The plan's row: what was proposed, by whom, what the policy said, and until when it can be decided. */
  ghost predicate IsPlanOf(row: PlanRow, incident: IncidentId, number: nat, e: Event)
    requires e.Submit?
  {
    && row.plan == e.plan && row.context == e.context && row.verdict == Judge(e.plan, e.context)
    && row.hash == PlanHash(incident, number, e.plan)
    && row.proposedBy == (match e.submitter case Planner(_) => "agent:planner" case Responder(who) => who)
    && row.expiresAt == if Judge(e.plan, e.context) == RequireApproval then Some(e.queueing.now + e.ttl) else None
  }

  /**
   * A submission that commits, after any run: one plan more, and the incident is Executing exactly if the
   * policy allows the plan, AwaitingApproval exactly if it asks for an approval, Escalated exactly if it
   * denies it; the plan's `execute` job exists exactly in the first case, its timeout exactly in the second.
   */
  lemma SubmissionFollowsVerdict(events: seq<Event>, e: Event)
    requires e.Submit? && SubmitCommits(Run(events), e.session, e.submitter)
    ensures var s, s' := Run(events), Step(Run(events), e);
            var incident := s.sessions[e.session].incident;
            && incident in s'.cases
            && var c, c', n := s.cases[incident], s'.cases[incident], |s.cases[incident].plans| + 1;
               && c'.plans == c.plans + [c'.plans[|c.plans|]] && IsPlanOf(c'.plans[|c.plans|], incident, n, e)
               && (c'.row.state == Executing <==> Judge(e.plan, e.context) == Allow)
               && (c'.row.state == AwaitingApproval <==> Judge(e.plan, e.context) == RequireApproval)
               && (c'.row.state == Escalated <==> Judge(e.plan, e.context) == Deny)
               && c'.row.version == c.row.version + 3
               && (HasJob(s'.jobs, Execute, PlanId(incident, n)) <==> Judge(e.plan, e.context) == Allow)
               && (HasJob(s'.jobs, ApprovalTimeout, PlanId(incident, n)) <==> Judge(e.plan, e.context) == RequireApproval)
  {
    var s := Run(events);
    var incident := s.sessions[e.session].incident;
    var c := s.cases[incident];
    var n := |c.plans| + 1;
    var row := NewPlan(PlanId(incident, n), e.plan, ProposedBy(e.submitter), e.context, e.queueing.now, e.ttl);
    SubmitChanges(s, e);
    SubmittedShape(c, row);
    NewPlanIsPlanOf(incident, n, e);
    NothingBeyond(events, e);
    RunOneMore(events, e);
    hide Run, Step, Submitted, NewPlan, Judge, HasJob, SubmitCommits, IsPlanOf;
    JobsOfPlans(events + [e], incident, n);
  }

  lemma SubmitChanges(s: Sys, e: Event)
    requires e.Submit? && SubmitCommits(s, e.session, e.submitter)
    ensures var incident := s.sessions[e.session].incident;
            var id := PlanId(incident, |s.cases[incident].plans| + 1);
            Step(s, e).cases
            == s.cases[incident := Submitted(s.cases[incident],
                                             NewPlan(id, e.plan, ProposedBy(e.submitter), e.context, e.queueing.now, e.ttl))]
  {
    hide Submitted, Judge, Q.Apply;
  }

  lemma NewPlanIsPlanOf(incident: IncidentId, n: nat, e: Event)
    requires e.Submit?
    ensures IsPlanOf(NewPlan(PlanId(incident, n), e.plan, ProposedBy(e.submitter), e.context, e.queueing.now, e.ttl), incident, n, e)
  {
    hide Judge;
  }

  lemma RunOneMore(events: seq<Event>, e: Event)
    ensures Run(events + [e]) == Step(Run(events), e)
  {
    hide Step;
    assert (events + [e])[..|events|] == events;
  }

  /** The new plan is not decided on. */
  lemma NothingBeyond(events: seq<Event>, e: Event)
    requires e.Submit? && SubmitCommits(Run(events), e.session, e.submitter)
    ensures var s := Run(events); s.cases[s.sessions[e.session].incident].approvals == map[]
  {
    hide Run, JobsInv, SessionInv, ProcInv, PatchesInv, CaseInv;
    RunKeepsInv(events, 0);
    var s := Run(events);
    NothingYet(s.jobs, s.sessions[e.session].incident, s.cases[s.sessions[e.session].incident]);
  }

  /**
   * A decision that commits, after any run: it is kept with its author and hash, and the incident is
   * Executing exactly if it approves and Escalated exactly if it rejects; the plan's `execute` job exists
   * exactly if it approves.
   */
  lemma DecisionIsCarriedOut(events: seq<Event>, e: Event)
    requires e.Decide? && DecisionCommits(Run(events), e)
    ensures var s, s' := Run(events), Step(Run(events), e);
            var incident := s.sessions[e.session].incident;
            && incident in s'.cases
            && var c, c', n := s.cases[incident], s'.cases[incident], |s.cases[incident].plans|;
               && c'.plans == c.plans
               && n in c'.approvals && c'.approvals[n] == Approval(e.hashSeen, e.approver, e.choice)
               && (c'.row.state == Executing <==> e.choice == Approve)
               && (c'.row.state == Escalated <==> e.choice == Reject)
               && (HasJob(s'.jobs, Execute, PlanId(incident, n)) <==> e.choice == Approve)
  {
    hide Run, Step, HasJob, Decided, EnteredVerifying;
    var s := Run(events);
    var incident := s.sessions[e.session].incident;
    var c := s.cases[incident];
    DecideChangesNow(events, e);
    RunOneMore(events, e);
    DecidedShape(c, |c.plans|, Approval(e.hashSeen, e.approver, e.choice));
    JobsOfPlans(events + [e], incident, |c.plans|);
  }

  lemma DecideChangesNow(events: seq<Event>, e: Event)
    requires e.Decide? && DecisionCommits(Run(events), e)
    ensures var s := Run(events);
            var incident, c := s.sessions[e.session].incident, s.cases[s.sessions[e.session].incident];
            && c.plans != [] && c.plans[|c.plans| - 1].verdict == RequireApproval
            && Step(s, e).cases == s.cases[incident := Decided(c, |c.plans|, Approval(e.hashSeen, e.approver, e.choice))]
  {
    hide Run, Step, Decided;
    CurrentPlan(events, e);
    DecideChanges(Run(events), e);
  }

  lemma DecidedShape(c: Case, n: nat, approval: Approval)
    ensures var c' := Decided(c, n, approval);
            && c'.plans == c.plans && n in c'.approvals && c'.approvals[n] == approval
            && (c'.row.state == Executing <==> approval.choice == Approve)
            && (c'.row.state == Escalated <==> approval.choice == Reject)
  {
  }

  lemma DecideChanges(s: Sys, e: Event)
    requires e.Decide? && DecisionCommits(s, e)
    ensures var session := s.sessions[e.session];
            var c, n := s.cases[session.incident], session.plans.value;
            1 <= n <= |c.plans|
            && Step(s, e).cases == s.cases[session.incident := Decided(c, n, Approval(c.plans[n - 1].hash, e.approver, e.choice))]
  {
    hide Decided, Q.Apply;
  }

  lemma CurrentPlan(events: seq<Event>, e: Event)
    requires e.Decide? && DecisionCommits(Run(events), e)
    ensures var s := Run(events);
            var session, c := s.sessions[e.session], s.cases[s.sessions[e.session].incident];
            && session.plans == Some(|c.plans|) && |c.plans| >= 1
            && c.plans[|c.plans| - 1].verdict == RequireApproval && e.hashSeen == c.plans[|c.plans| - 1].hash
  {
    hide Run, JobsInv, ProcInv, PatchesInv, CaseInv, Judge;
    RunKeepsInv(events, 0);
    var s := Run(events);
    assert SessionInv(s.cases, s.sessions[e.session]);
  }

  // ----- When they commit -----

  /** A request that reads with nothing in between. */
  function Fresh(id: nat, incident: IncidentId): seq<Event> { [Begin(id, incident), ReadPlans(id), ReadApproval(id)] }

  lemma FreshSession(events: seq<Event>, id: nat, incident: IncidentId)
    requires incident in Run(events).cases
    ensures var s, s' := Run(events), Run(events + Fresh(id, incident));
            && s'.jobs == s.jobs && s'.cases == s.cases && s'.procs == s.procs && id in s'.sessions
            && var c := s.cases[incident];
               s'.sessions[id] == Session(incident, c.row, Some(|c.plans|), Some(|c.plans| in c.approvals))
  {
    hide Run, SubmitStep, DecideStep, TimeOutStep, AdvanceStep, QueueStep, EndVerifyStep;
    var e1, e2, e3 := Begin(id, incident), ReadPlans(id), ReadApproval(id);
    RunOneMore(events, e1);
    RunOneMore(events + [e1], e2);
    RunOneMore(events + [e1] + [e2], e3);
    assert events + Fresh(id, incident) == events + [e1] + [e2] + [e3];
  }

  /**
   * On what is there now, a decision commits exactly if the incident waits for one, the hash is that of the
   * waiting plan, its deadline has not passed, and nobody approves a plan of their own.
   */
  lemma FreshDecision(events: seq<Event>, id: nat, incident: IncidentId, e: Event)
    requires incident in Run(events).cases && e.Decide? && e.session == id
    ensures var c := Run(events).cases[incident];
            DecisionCommits(Run(events + Fresh(id, incident)), e) <==>
              && c.row.state == AwaitingApproval && c.plans != []
              && var plan := c.plans[|c.plans| - 1];
                 && e.hashSeen == PlanHash(incident, |c.plans|, plan.plan)
                 && plan.expiresAt.Some? && e.now < plan.expiresAt.value
                 && !(e.choice == Approve && e.approver == plan.proposedBy)
  {
    FreshSession(events, id, incident);
    RunIsRecorded(events);
    RunKeepsInv(events, 0);
    hide Run, Fresh, JobsInv, SessionInv, ProcInv, PatchesInv, Judge, AllLeadOn, PathInv, ExecsInv;
    var c := Run(events).cases[incident];
    assert Recorded(c) && CaseInv(Run(events).jobs, incident, c);
  }

  /** A submission commits exactly if a live planner finds its incident Diagnosed, or a responder finds a plan waiting. */
  lemma FreshSubmission(events: seq<Event>, id: nat, incident: IncidentId, submitter: Submitter)
    requires incident in Run(events).cases
    ensures var s := Run(events);
            SubmitCommits(Run(events + Fresh(id, incident)), id, submitter) <==>
              match submitter
              case Planner(t) =>
                && Q.Live(s.jobs, t) && s.jobs[t.job].work.kind == JobKind.Plan && s.jobs[t.job].work.incident == incident
                && s.cases[incident].row.state == Diagnosed
              case Responder(_) => s.cases[incident].row.state == AwaitingApproval
  {
    FreshSession(events, id, incident);
    hide Run, Fresh;
  }

  /** A timeout gives up exactly if its job is live and for the plan that is still waiting. */
  lemma FreshTimeOut(events: seq<Event>, id: nat, incident: IncidentId, t: Token)
    requires incident in Run(events).cases
    ensures var s, c := Run(events), Run(events).cases[incident];
            TimeOutCommits(Run(events + Fresh(id, incident)), id, t) <==>
              && Q.Live(s.jobs, t)
              && s.jobs[t.job].work == Q.Work(ApprovalTimeout, incident, Some(PlanId(incident, |c.plans|)))
              && c.row.state == AwaitingApproval
  {
    FreshSession(events, id, incident);
    RunIsRecorded(events);
    hide Run, Fresh, AllLeadOn;
    assert Recorded(Run(events).cases[incident]);
  }

  // ----- The deadline -----

  /** A timeout job that was never claimed is due at its plan's deadline. */
  ghost predicate DueAtDeadline(jobs: seq<Q.Job>, cases: map<IncidentId, Case>, k: nat)
    requires k < |jobs|
  {
    jobs[k].work.kind == ApprovalTimeout && jobs[k].fence == 0 ==>
      && jobs[k].status == Q.Queued
      && jobs[k].work.plan.Some? && jobs[k].work.plan.value.incident in cases
      && var id := jobs[k].work.plan.value;
         1 <= id.number <= |cases[id.incident].plans|
         && cases[id.incident].plans[id.number - 1].expiresAt == Some(jobs[k].runAfter)
  }

  ghost predicate AllDueAtDeadline(s: Sys) {
    forall k :: 0 <= k < |s.jobs| ==> DueAtDeadline(s.jobs, s.cases, k)
  }

  lemma StatementKeepsDue(jobs: seq<Q.Job>, op: Q.Op, k: nat)
    requires k < |jobs|
    ensures var after := Q.Apply(jobs, op);
            && k < |after| && after[k].work == jobs[k].work && jobs[k].fence <= after[k].fence
            && (jobs[k].status == Q.Queued && after[k].fence == jobs[k].fence ==> after[k] == jobs[k])
  {
    hide Q.Eligible, Q.Before;
    if jobs[k].status == Q.Queued { JobFates.RestingRow(jobs, op, k); }
    if Bypass.ClaimsRow(jobs, op, k) { assert Q.Apply(jobs, op)[k].fence == jobs[k].fence + 1; }
    QueueStepFacts(jobs, op);
    JobFates.FenceNeverFalls(jobs, op, k);
  }

  lemma CasesKeepDue(jobs: seq<Q.Job>, cases: map<IncidentId, Case>, cases': map<IncidentId, Case>)
    requires forall k :: 0 <= k < |jobs| ==> DueAtDeadline(jobs, cases, k)
    requires AllGrow(cases, cases')
    ensures forall k :: 0 <= k < |jobs| ==> DueAtDeadline(jobs, cases', k)
  {
    forall k | 0 <= k < |jobs| ensures DueAtDeadline(jobs, cases', k) {
      assert DueAtDeadline(jobs, cases, k);
      if jobs[k].work.kind == ApprovalTimeout && jobs[k].fence == 0 {
        var id := jobs[k].work.plan.value;
        assert Grows(cases[id.incident], cases'[id.incident]);
        assert cases'[id.incident].plans[id.number - 1] == cases[id.incident].plans[id.number - 1];
      }
    }
  }

  lemma StatementsKeepDue(jobs: seq<Q.Job>, op: Q.Op, cases: map<IncidentId, Case>)
    requires forall k :: 0 <= k < |jobs| ==> DueAtDeadline(jobs, cases, k)
    requires op.Enqueue? && op.what.work.kind == ApprovalTimeout ==>
               && op.what.work.plan.Some? && op.what.work.plan.value.incident in cases
               && var id := op.what.work.plan.value;
                  1 <= id.number <= |cases[id.incident].plans|
                  && cases[id.incident].plans[id.number - 1].expiresAt == Some(op.now + op.what.delay)
    ensures forall k :: 0 <= k < |Q.Apply(jobs, op)| ==> DueAtDeadline(Q.Apply(jobs, op), cases, k)
  {
    var after := Q.Apply(jobs, op);
    QueueStepFacts(jobs, op);
    assert |after| == |jobs| || (op.Enqueue? && after == jobs + [Q.NewJob(op.what, op.now)]);
    forall k | 0 <= k < |after| ensures DueAtDeadline(after, cases, k) {
      if k < |jobs| {
        assert DueAtDeadline(jobs, cases, k);
        StatementKeepsDue(jobs, op, k);
      }
    }
  }

  lemma SubmitKeepsDue(s: Sys, e: Event)
    requires Inv(s) && AllDueAtDeadline(s) && e.Submit?
    ensures AllDueAtDeadline(SubmitStep(s, e))
  {
    hide Inv, Submitted, Judge, DueAtDeadline, Grows, Q.Apply;
    if SubmitCommits(s, e.session, e.submitter) {
      SubmitKeepsInv(s, e);
      var incident := s.sessions[e.session].incident;
      var c := s.cases[incident];
      var row := NewPlan(PlanId(incident, |c.plans| + 1), e.plan, ProposedBy(e.submitter), e.context, e.queueing.now, e.ttl);
      SubmittedShape(c, row);
      CasesKeepDue(s.jobs, s.cases, SubmitStep(s, e).cases);
      SubmittedJobKeepsDue(s.jobs, SubmitStep(s, e).cases, incident, row, e);
    }
  }

  lemma SubmittedJobKeepsDue(jobs: seq<Q.Job>, cases: map<IncidentId, Case>, incident: IncidentId, row: PlanRow, e: Event)
    requires e.Submit? && incident in cases && cases[incident].plans != [] && cases[incident].plans[|cases[incident].plans| - 1] == row
    requires row.verdict == RequireApproval ==> row.expiresAt == Some(e.queueing.now + e.ttl)
    requires forall k :: 0 <= k < |jobs| ==> DueAtDeadline(jobs, cases, k)
    ensures var id := PlanId(incident, |cases[incident].plans|);
            var after := match row.verdict
                         case Deny => jobs
                         case RequireApproval => Q.Apply(jobs, PlanJob(ApprovalTimeout, id, e.queueing.(delay := e.ttl)))
                         case Allow => Q.Apply(jobs, PlanJob(Execute, id, e.queueing.(delay := 0)));
            forall k :: 0 <= k < |after| ==> DueAtDeadline(after, cases, k)
  {
    hide DueAtDeadline, Q.Apply;
    var id := PlanId(incident, |cases[incident].plans|);
    match row.verdict
    case Deny =>
    case RequireApproval => StatementsKeepDue(jobs, PlanJob(ApprovalTimeout, id, e.queueing.(delay := e.ttl)), cases);
    case Allow => StatementsKeepDue(jobs, PlanJob(Execute, id, e.queueing.(delay := 0)), cases);
  }

  /** Any other event adds no timeout job. */
  lemma OthersKeepDue(s: Sys, e: Event)
    requires Inv(s) && AllDueAtDeadline(s) && !e.Submit?
    ensures AllDueAtDeadline(Step(s, e))
  {
    StepKeepsInv(s, e);
    hide Inv, DueAtDeadline, Grows;
    CasesKeepDue(s.jobs, s.cases, Step(s, e).cases);
    JobsByStatement(s, e);
    if op :| Step(s, e).jobs == Q.Apply(s.jobs, op) && (op.Enqueue? ==> op.what.work.kind != ApprovalTimeout) {
      StatementsKeepDue(s.jobs, op, Step(s, e).cases);
    }
  }

  lemma JobsByStatement(s: Sys, e: Event)
    requires !e.Submit?
    ensures Step(s, e).jobs == s.jobs
            || exists op :: Step(s, e).jobs == Q.Apply(s.jobs, op) && (op.Enqueue? ==> op.what.work.kind != ApprovalTimeout)
  {
    hide MustRefuse, Decided, Q.Apply, DecisionCommits, TimeOutCommits, LiveFor, ActionStep;
    if e.Advance? && e.token in s.procs && s.procs[e.token].pc.At? && e.token.job < |s.jobs| && s.jobs[e.token.job].work.incident in s.cases {
      ActionChanges(s, e.token, e.world, s.procs[e.token].pc.stage, s.procs[e.token].pc.index);
    }
  }

  lemma {:induction false} RunIsDue(events: seq<Event>)
    ensures AllDueAtDeadline(Run(events))
    decreases |events|
  {
    if events != [] {
      var shorter, e := events[..|events| - 1], events[|events| - 1];
      hide Inv, Step, DueAtDeadline;
      RunIsDue(shorter);
      RunKeepsInv(shorter, 0);
      if e.Submit? {
        SubmitKeepsDue(Run(shorter), e);
        SubmitIsItsStep(Run(shorter), e);
      } else {
        OthersKeepDue(Run(shorter), e);
      }
    }
  }

  lemma SubmitIsItsStep(s: Sys, e: Event)
    requires e.Submit?
    ensures Step(s, e) == SubmitStep(s, e)
  {
    hide SubmitStep;
  }

  /** No worker gets a plan's timeout job before the plan's deadline: not before nobody can decide any more. */
  lemma TimeoutWaitsForDeadline(events: seq<Event>, op: Q.Op, k: nat)
    requires Bypass.ClaimsRow(Run(events).jobs, op, k) && Run(events).jobs[k].work.kind == ApprovalTimeout && Run(events).jobs[k].fence == 0
    ensures var s := Run(events);
            && s.jobs[k].work.plan.Some? && s.jobs[k].work.plan.value.incident in s.cases
            && var id := s.jobs[k].work.plan.value;
               && 1 <= id.number <= |s.cases[id.incident].plans|
               && s.cases[id.incident].plans[id.number - 1].expiresAt.Some?
               && s.cases[id.incident].plans[id.number - 1].expiresAt.value <= op.args.now
  {
    RunIsDue(events);
    hide Run;
    JobFates.ClaimedIsDue(Run(events).jobs, op, k);
    hide Bypass.ClaimsRow;
    assert DueAtDeadline(Run(events).jobs, Run(events).cases, k);
  }
}
