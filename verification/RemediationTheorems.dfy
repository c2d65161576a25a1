/** What holds of every run of the remediation protocol. */
module RemediationTheorems {
  import opened Domain
  import opened Incidents
  import opened Policy
  import opened Remediation
  import opened RemediationSafety
  import Q = JobQueue

  /** The invariant of one incident, in any run. */
  lemma CaseHolds(events: seq<Event>, incident: IncidentId)
    requires incident in Run(events).cases
    ensures CaseInv(Run(events).jobs, incident, Run(events).cases[incident])
  {
    hide Run, CaseInv, JobsInv, SessionInv, ProcInv, PatchesInv;
    RunKeepsInv(events, 0);
  }

  // ----- At most once -----

  /** In every run, at most one real patch is ever sent for an action of a plan. */
  lemma AtMostOnePatch(events: seq<Event>, j: nat, k: nat)
    requires j < |Run(events).patches| && k < |Run(events).patches|
    requires Run(events).patches[j].incident == Run(events).patches[k].incident
    requires Run(events).patches[j].key == Run(events).patches[k].key
    ensures j == k
  {
    hide Run, CaseInv, JobsInv, SessionInv, ProcInv;
    RunKeepsInv(events, 0);
  }

  /**
   * A patch is only sent after its intent was committed by the same claim: when it goes out, its
   * row is there, owned by the sender, and execution.started is in the audit trail. This holds
   * whether or not the claim still has its fence; and the row is still started if it has.
   */
  lemma IntentBeforeEffect(events: seq<Event>, e: Event)
    requires |Run(events).patches| < |Step(Run(events), e).patches|
    ensures var s, sent := Run(events), Step(Run(events), e).patches;
            && |sent| == |s.patches| + 1 && sent[..|s.patches|] == s.patches
            && var patch := sent[|s.patches|];
               && patch.incident in s.cases
               && var c := s.cases[patch.incident];
                  && patch.key in c.execs && c.execs[patch.key].owner == patch.owner
                  && ExecutionStarted(patch.key, patch.owner) in c.trail
                  && (Q.Live(s.jobs, patch.owner) ==> c.execs[patch.key].status == Started)
  {
    hide Run, CaseInv, JobsInv, SessionInv, PatchesInv, Authorised, SubmitStep, DecideStep, TimeOutStep, EndVerifyStep, QueueStep;
    RunKeepsInv(events, 0);
    OnlySendSends(Run(events), e);
    var s := Run(events);
    assert ProcInv(s.jobs, s.cases, s.patches, e.token, s.procs[e.token]);
  }

  lemma OnlySendSends(s: Sys, e: Event)
    requires Step(s, e).patches != s.patches
    ensures e.Advance? && e.token in s.procs && e.token.job < |s.jobs| && s.jobs[e.token.job].work.incident in s.cases
    ensures s.procs[e.token].pc.At? && s.procs[e.token].pc.stage == Send && s.procs[e.token].context.Some?
    ensures Step(s, e).patches
         == s.patches + [Patch(s.jobs[e.token.job].work.incident, ExecKey(s.procs[e.token].plan, s.procs[e.token].pc.index), e.token,
                               s.procs[e.token].context.value, |s.cases[s.jobs[e.token.job].work.incident].trail|)]
  {
    hide MustRefuse, Submitted, Decided, NewPlan;
  }

  // ----- Authority -----

  /** What has to hold for a patch to be legitimate. */
  ghost predicate Legitimate(c: Case, patch: Patch) {
    && 1 <= patch.key.plan == |c.plans| && patch.key.index < |c.plans[patch.key.plan - 1].plan.actions|
    && var plan := c.plans[patch.key.plan - 1];
       && var action := plan.plan.actions[patch.key.index];
       && RightTarget(action, plan.context) && Supported(action, plan.context) && InsideWindow(plan.context)
       && RightTarget(action, patch.context) && Supported(action, patch.context) && InsideWindow(patch.context)
       && (Judge(plan.plan, plan.context) == RequireApproval || Judge(plan.plan, patch.context) == RequireApproval ==>
             && patch.key.plan in c.approvals
             && c.approvals[patch.key.plan].choice == Approve
             && c.approvals[patch.key.plan].hash == PlanHash(patch.incident, patch.key.plan, plan.plan)
             && c.approvals[patch.key.plan].approver != plan.proposedBy)
  }

  /**
   * In every run, every patch sent so far is for an action of the incident's current plan, which
   * the policy let through at submission and again in that job run; if either review asked for an
   * approval, one for exactly this plan exists, from someone other than its author.
   */
  lemma EveryPatchIsLegitimate(events: seq<Event>, k: nat)
    requires k < |Run(events).patches|
    ensures var patch := Run(events).patches[k];
            patch.incident in Run(events).cases && Legitimate(Run(events).cases[patch.incident], patch)
  {
    hide Run, JobsInv, SessionInv, ProcInv, ExecsInv, OutcomesInv, PathInv, Judge, Permitted, RightTarget, Supported, InsideWindow;
    RunKeepsInv(events, 0);
    var s, patch := Run(events), Run(events).patches[k];
    assert PatchInv(s.cases, patch);
    var c := s.cases[patch.incident];
    var plan := c.plans[patch.key.plan - 1];
    assert plan.verdict == Judge(plan.plan, plan.context) && plan.hash == PlanHash(patch.incident, patch.key.plan, plan.plan);
    NotDeniedMeansPermitted(plan.plan, plan.context, patch.key.index);
    NotDeniedMeansPermitted(plan.plan, patch.context, patch.key.index);
  }

  /** Once an incident has entered Executing no plan can be added, and its approvals stay as they are. */
  lemma NoPlanAfterExecuting(events: seq<Event>, m: nat, incident: IncidentId)
    requires m <= |events| && incident in Run(events[..m]).cases
    requires PastPlanning(Run(events[..m]).cases[incident].row.state)
    ensures incident in Run(events).cases
    ensures var was, after := Run(events[..m]).cases[incident], Run(events).cases[incident];
            after.plans == was.plans && PastPlanning(after.row.state)
            && forall n :: n in was.approvals ==> n in after.approvals && after.approvals[n] == was.approvals[n]
  {
    hide Run, Inv;
    RunKeepsInv(events, m);
    assert Grows(Run(events[..m]).cases[incident], Run(events).cases[incident]);
  }

  // ----- Fencing -----

  /** Whatever the stage, an executor that lost its job leaves every row, job and incident as it was. */
  lemma LostClaimCannotWrite(s: Sys, e: Event)
    requires e.Advance? || e.TimeOut? || e.EndVerify? || (e.Submit? && e.submitter.Planner?)
    requires !Q.Live(s.jobs, if e.Submit? then e.submitter.token else e.token)
    ensures Step(s, e).cases == s.cases && Step(s, e).jobs == s.jobs
  {
    hide MustRefuse, Submitted, NewPlan;
  }

  /** An execution row that has left `started` never changes again, and never changes hands. */
  lemma SettledRowsNeverChange(events: seq<Event>, m: nat, incident: IncidentId, key: ExecKey)
    requires m <= |events| && incident in Run(events[..m]).cases && key in Run(events[..m]).cases[incident].execs
    ensures incident in Run(events).cases && key in Run(events).cases[incident].execs
    ensures var was, after := Run(events[..m]).cases[incident].execs[key], Run(events).cases[incident].execs[key];
            after.owner == was.owner && (was.status != Started ==> after == was)
  {
    hide Run, Inv;
    RunKeepsInv(events, m);
    assert Grows(Run(events[..m]).cases[incident], Run(events).cases[incident]);
  }

  // ----- Completion -----

  /** At any time the recorded actions are a prefix of the current plan's, and all but the last succeeded. */
  lemma RowsAreAPrefix(events: seq<Event>, incident: IncidentId, key: ExecKey, i: nat)
    requires incident in Run(events).cases && key in Run(events).cases[incident].execs && i < key.index
    ensures var c := Run(events).cases[incident];
            && key.plan == |c.plans|
            && ExecKey(key.plan, i) in c.execs && c.execs[ExecKey(key.plan, i)].status == Succeeded
  {
    hide Run, Judge;
    CaseHolds(events, incident);
  }

  /** Verifying and Resolved mean that every action of the current plan succeeded. */
  lemma VerifyingMeansEveryActionSucceeded(events: seq<Event>, incident: IncidentId, i: nat)
    requires incident in Run(events).cases
    requires Run(events).cases[incident].row.state in {Verifying, Resolved}
    ensures Run(events).cases[incident].plans != []
    ensures var c := Run(events).cases[incident];
            i < |c.plans[|c.plans| - 1].plan.actions| ==>
              ExecKey(|c.plans|, i) in c.execs && c.execs[ExecKey(|c.plans|, i)].status == Succeeded
  {
    hide Run, Judge;
    CaseHolds(events, incident);
  }

  lemma {:induction false} StreakIsHealthy(samples: seq<Option<real>>, threshold: real, i: nat)
    requires |samples| - Streak(samples, threshold) <= i < |samples|
    ensures Healthy(samples[i], threshold)
  {
    if i < |samples| - 1 { StreakIsHealthy(samples[..|samples| - 1], threshold, i); }
  }

  lemma {:induction false} StreakWithinSamples(samples: seq<Option<real>>, threshold: real)
    ensures Streak(samples, threshold) <= |samples|
  {
    if samples != [] { StreakWithinSamples(samples[..|samples| - 1], threshold); }
  }

  /** Resolved means that a verify run passed on a full streak: its last samples were all below the threshold. */
  lemma ResolvedMeansHealthyStreak(events: seq<Event>, incident: IncidentId) returns (run: VerifyRun)
    requires incident in Run(events).cases && Run(events).cases[incident].row.state == Resolved
    ensures VerificationEnded(run) in Run(events).cases[incident].trail && run.passed
    ensures run.checks <= |run.samples|
    ensures forall i :: 0 <= i < |run.samples| && |run.samples| - run.checks <= i ==> Healthy(run.samples[i], run.threshold)
  {
    hide Run, Judge, ExecsInv, PlansInv, OutcomesInv, PathInv;
    CaseHolds(events, incident);
    var c := Run(events).cases[incident];
    var k :| 0 <= k < |c.trail| && c.trail[k].VerificationEnded? && c.trail[k].run.passed && FromLoop(c.trail[k].run);
    run := c.trail[k].run;
    StreakWithinSamples(run.samples, run.threshold);
    forall i | 0 <= i < |run.samples| && |run.samples| - run.checks <= i ensures Healthy(run.samples[i], run.threshold) {
      StreakIsHealthy(run.samples, run.threshold, i);
    }
  }

  // ----- One outcome per plan -----

  datatype PlanOutcome = Approved | Rejected | Expired | Superseded

  predicate HasOutcome(c: Case, number: nat, outcome: PlanOutcome) {
    match outcome
    case Approved => number in c.approvals && c.approvals[number].choice == Approve
    case Rejected => number in c.approvals && c.approvals[number].choice == Reject
    case Expired => number in c.timedOut
    case Superseded => 1 <= number < |c.plans|
  }

  /** An outcome a plan has at some time is the only one it ever has. */
  lemma OneOutcomePerPlan(
    events: seq<Event>, m: nat, incident: IncidentId, number: nat, early: PlanOutcome, late: PlanOutcome)
    requires m <= |events| && incident in Run(events[..m]).cases && incident in Run(events).cases
    requires HasOutcome(Run(events[..m]).cases[incident], number, early)
    requires HasOutcome(Run(events).cases[incident], number, late)
    ensures early == late
  {
    hide Run, Judge, ExecsInv, PlansInv, PathInv;
    RunKeepsInv(events, m);
    var was, c := Run(events[..m]).cases[incident], Run(events).cases[incident];
    assert Grows(was, c);
    assert HasOutcome(c, number, early);
    CaseHolds(events, incident);
  }

  /** A decision that commits is for the plan that is current at that moment, whatever raced with it. */
  lemma DecisionIsForCurrentPlan(events: seq<Event>, e: Event)
    requires e.Decide? && DecisionCommits(Run(events), e)
    ensures var session := Run(events).sessions[e.session];
            var c := Run(events).cases[session.incident];
            && session.plans == Some(|c.plans|)
            && e.hashSeen == c.plans[|c.plans| - 1].hash
            && c.approvals == map[] && c.timedOut == {}
  {
    hide Run, JobsInv, ProcInv, PatchesInv, CaseInv, Judge;
    RunKeepsInv(events, 0);
    var s := Run(events);
    var session := s.sessions[e.session];
    assert SessionInv(s.cases, session);
    CaseHolds(events, session.incident);
    NothingYet(s.jobs, session.incident, s.cases[session.incident]);
  }

  // ----- The audit trail -----

  /** The transition rows of an incident are a path whose end is exactly its row. */
  lemma TrailTellsTheRow(events: seq<Event>, incident: IncidentId)
    requires incident in Run(events).cases
    ensures var c := Run(events).cases[incident];
            && IsPath(MovesOf(c.trail)) && c.row == RowAfter(MovesOf(c.trail))
            && c.row.version == 1 + |MovesOf(c.trail)|
            && (c.row.closed <==> Terminal(c.row.state))
  {
    hide Run, Judge, ExecsInv, PlansInv, OutcomesInv;
    CaseHolds(events, incident);
    PathFacts(MovesOf(Run(events).cases[incident].trail));
  }

  lemma {:induction false} MovesOfPrefix(a: seq<TrailEvent>, b: seq<TrailEvent>)
    requires a <= b
    ensures MovesOf(a) <= MovesOf(b)
    decreases |b|
  {
    if |a| < |b| { MovesOfPrefix(a, b[..|b| - 1]); } else { assert a == b; }
  }

  /** A trail that goes on from a closed row has no further move in it. */
  lemma NoMoveAfterClosing(was: IncidentRow, before: seq<TrailEvent>, row: IncidentRow, trail: seq<TrailEvent>)
    requires PathInv(was, before) && PathInv(row, trail) && before <= trail && was.closed
    ensures row == was
  {
    MovesOfPrefix(before, trail);
    var path, start := MovesOf(trail), MovesOf(before);
    assert path[..|start|] == start;
    PathFacts(start);
    TerminalIsLast(path, |start|);
  }

  /** A closed incident stays exactly as it was closed. */
  lemma ClosedIsForever(events: seq<Event>, m: nat, incident: IncidentId)
    requires m <= |events| && incident in Run(events[..m]).cases
    requires Run(events[..m]).cases[incident].row.closed
    ensures incident in Run(events).cases
    ensures Run(events).cases[incident].row == Run(events[..m]).cases[incident].row
  {
    hide Run, Inv, IsPath, MovesOf;
    RunKeepsInv(events, m);
    var was, c := Run(events[..m]).cases[incident], Run(events).cases[incident];
    assert Grows(was, c);
    TrailTellsTheRow(events[..m], incident);
    TrailTellsTheRow(events, incident);
    NoMoveAfterClosing(was.row, was.trail, c.row, c.trail);
  }
}
