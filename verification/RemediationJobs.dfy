/** The jobs of a plan, exactly: which exist, why, and when the deadline's job can be claimed. */
module RemediationJobs {
  import opened Domain
  import opened Incidents
  import opened Policy
  import opened Remediation
  import opened RemediationSafety
  import opened RemediationRecord
  import Q = JobQueue
  import Fencing
  import Bypass
  import JobFates

  predicate HasJob(jobs: seq<Q.Job>, kind: JobKind, id: PlanId) {
    exists i :: 0 <= i < |jobs| && jobs[i].work == Q.Work(kind, id.incident, Some(id))
  }

  /** A plan's keys are those of its jobs. */
  predicate KeysMatch(jobs: seq<Q.Job>) {
    forall i :: 0 <= i < |jobs| && jobs[i].key.Some? && jobs[i].key.value.ForPlan? ==>
      jobs[i].work == Q.Work(jobs[i].key.value.kind, jobs[i].key.value.plan.incident, Some(jobs[i].key.value.plan))
  }

  predicate EnteredVerifying(trail: seq<TrailEvent>) { exists k :: 0 <= k < |trail| && GoesTo(trail, k, Verifying) }

  predicate LetThrough(c: Case, n: nat)
    requires 1 <= n <= |c.plans|
  {
    c.plans[n - 1].verdict == Allow || (n in c.approvals && c.approvals[n].choice == Approve)
  }

  /** Why plan n has a job of this kind: it may run, it waits for a decision, or it is done and to be verified. */
  predicate HasReason(c: Case, kind: JobKind, n: nat) {
    && 1 <= n <= |c.plans|
    && match kind
       case Execute => LetThrough(c, n)
       case ApprovalTimeout => c.plans[n - 1].verdict == RequireApproval
       case Verify => n == |c.plans| && EnteredVerifying(c.trail)
       case _ => false
  }

  ghost predicate CaseJobs(jobs: seq<Q.Job>, incident: IncidentId, c: Case) {
    && (EnteredVerifying(c.trail) ==> PastPlanning(c.row.state))
    && (forall kind, n: nat :: PlanBound(kind) ==> (HasJob(jobs, kind, PlanId(incident, n)) <==> HasReason(c, kind, n)))
  }

  ghost predicate JobsMatch(s: Sys) {
    KeysMatch(s.jobs) && forall incident :: incident in s.cases ==> CaseJobs(s.jobs, incident, s.cases[incident])
  }

  // ----- What statements do to the jobs of plans -----

  /** The same plans have the same jobs. */
  ghost predicate SameJobs(jobs: seq<Q.Job>, jobs': seq<Q.Job>) {
    forall kind, id :: PlanBound(kind) ==> (HasJob(jobs', kind, id) <==> HasJob(jobs, kind, id))
  }

  lemma KeptRows(jobs: seq<Q.Job>, op: Q.Op)
    requires KeysMatch(jobs) && !op.Enqueue?
    ensures KeysMatch(Q.Apply(jobs, op)) && SameJobs(jobs, Q.Apply(jobs, op)) && |Q.Apply(jobs, op)| == |jobs|
  {
    QueueStepFacts(jobs, op);
    var after := Q.Apply(jobs, op);
    assert |after| == |jobs|;
    hide Q.Apply;
    forall kind, id ensures HasJob(after, kind, id) <==> HasJob(jobs, kind, id) {
      if HasJob(after, kind, id) {
        var i :| 0 <= i < |after| && after[i].work == Q.Work(kind, id.incident, Some(id));
        assert jobs[i].work == after[i].work;
      }
      if HasJob(jobs, kind, id) {
        var i :| 0 <= i < |jobs| && jobs[i].work == Q.Work(kind, id.incident, Some(id));
        assert after[i].work == jobs[i].work;
      }
    }
  }

  lemma OneMoreRow(jobs: seq<Q.Job>, row: Q.Job, kind: JobKind, id: PlanId)
    ensures HasJob(jobs + [row], kind, id) <==> HasJob(jobs, kind, id) || row.work == Q.Work(kind, id.incident, Some(id))
  {
    var after := jobs + [row];
    if HasJob(jobs, kind, id) {
      var i :| 0 <= i < |jobs| && jobs[i].work == Q.Work(kind, id.incident, Some(id));
      assert after[i] == jobs[i];
    }
    if row.work == Q.Work(kind, id.incident, Some(id)) { assert after[|jobs|] == row; }
  }

  lemma OtherStatements(jobs: seq<Q.Job>, op: Q.Op)
    requires KeysMatch(jobs) && MayQueue(op)
    ensures KeysMatch(Q.Apply(jobs, op)) && SameJobs(jobs, Q.Apply(jobs, op))
  {
    if op.Enqueue? {
      forall kind, id | PlanBound(kind) ensures HasJob(Q.Apply(jobs, op), kind, id) <==> HasJob(jobs, kind, id) {
        OneMoreRow(jobs, Q.NewJob(op.what, op.now), kind, id);
      }
    } else {
      KeptRows(jobs, op);
    }
  }

  lemma PlanJobAdded(jobs: seq<Q.Job>, kind: JobKind, id: PlanId, q: Queueing)
    requires KeysMatch(jobs) && PlanBound(kind)
    ensures var after := Q.Apply(jobs, PlanJob(kind, id, q));
            && KeysMatch(after)
            && forall k, i :: PlanBound(k) ==> (HasJob(after, k, i) <==> HasJob(jobs, k, i) || (k == kind && i == id))
  {
    var op := PlanJob(kind, id, q);
    var after := Q.Apply(jobs, op);
    if Q.KeyTaken(jobs, op.what.key) {
      var i :| 0 <= i < |jobs| && jobs[i].key == op.what.key;
      assert jobs[i].work == Q.Work(kind, id.incident, Some(id));
      assert HasJob(jobs, kind, id);
    } else {
      forall k, i ensures HasJob(after, k, i) <==> HasJob(jobs, k, i) || (k == kind && i == id) {
        OneMoreRow(jobs, Q.NewJob(op.what, op.now), k, i);
      }
    }
  }

  // ----- What events do to one incident's jobs -----

  lemma EnteredByAppend(trail: seq<TrailEvent>, more: seq<TrailEvent>)
    ensures EnteredVerifying(trail + more) <==> EnteredVerifying(trail) || EnteredVerifying(more)
  {
    var all := trail + more;
    if EnteredVerifying(trail) {
      var k :| 0 <= k < |trail| && GoesTo(trail, k, Verifying);
      assert GoesTo(all, k, Verifying);
    }
    if EnteredVerifying(more) {
      var k :| 0 <= k < |more| && GoesTo(more, k, Verifying);
      assert GoesTo(all, |trail| + k, Verifying);
    }
    if EnteredVerifying(all) {
      var k :| 0 <= k < |all| && GoesTo(all, k, Verifying);
      if k < |trail| { assert GoesTo(trail, k, Verifying); } else { assert GoesTo(more, k - |trail|, Verifying); }
    }
  }

  /** The case gives the same reasons as before. */
  ghost predicate SameReasons(c: Case, c': Case) {
    && (EnteredVerifying(c'.trail) ==> EnteredVerifying(c.trail))
    && (PastPlanning(c.row.state) ==> PastPlanning(c'.row.state))
    && forall kind, n: nat :: PlanBound(kind) ==> (HasReason(c', kind, n) <==> HasReason(c, kind, n))
  }

  lemma SameReasonsKeepJobs(jobs: seq<Q.Job>, jobs': seq<Q.Job>, incident: IncidentId, c: Case, c': Case)
    requires CaseJobs(jobs, incident, c) && SameJobs(jobs, jobs') && SameReasons(c, c')
    ensures CaseJobs(jobs', incident, c')
  {
    hide HasJob, HasReason, EnteredVerifying, PastPlanning;
  }

  lemma MoveIsNoReason(c: Case, to: State)
    requires Allowed(c.row.state, to) && to != Verifying
    ensures SameReasons(c, MoveTo(c, to))
  {
    EnteredByAppend(c.trail, [Transitioned(Move(c.row.state, to, c.row.version + 1))]);
  }

  lemma NoteIsNoReason(c: Case, c': Case, note: TrailEvent)
    requires !note.Transitioned? && c' == c.(trail := c.trail + [note])
    ensures SameReasons(c, c')
  {
    EnteredByAppend(c.trail, [note]);
  }

  lemma VerifiedIsNoReason(c: Case, run: VerifyRun, to: State)
    requires c.row.state == Verifying && (to == Resolved || to == Escalated)
    ensures SameReasons(c, MoveTo(c.(trail := c.trail + [VerificationEnded(run)]), to))
  {
    NoteIsNoReason(c, c.(trail := c.trail + [VerificationEnded(run)]), VerificationEnded(run));
    MoveIsNoReason(c.(trail := c.trail + [VerificationEnded(run)]), to);
  }

  lemma SubmittedNotEntered(c: Case, verdict: Verdict)
    ensures !EnteredVerifying(SubmittedRows(c, verdict))
  {
  }

  /** A submission gives its plan the one reason its verdict stands for. */
  lemma SubmittedReasons(c: Case, row: PlanRow)
    requires !PastPlanning(c.row.state) && (EnteredVerifying(c.trail) ==> PastPlanning(c.row.state)) && c.approvals == map[]
    ensures var c', new_ := Submitted(c, row), |c.plans| + 1;
            && !EnteredVerifying(c'.trail)
            && forall kind, n: nat :: PlanBound(kind) ==>
                 (HasReason(c', kind, n) <==>
                    || HasReason(c, kind, n)
                    || (n == new_ && ((kind == Execute && row.verdict == Allow) || (kind == ApprovalTimeout && row.verdict == RequireApproval))))
  {
    SubmittedShape(c, row);
    SubmittedNotEntered(c, row.verdict);
    EnteredByAppend(c.trail, SubmittedRows(c, row.verdict));
    hide Submitted, SubmittedRows, EnteredVerifying, PastPlanning;
  }

  lemma DecidedReasons(c: Case, approval: Approval)
    requires c.plans != [] && c.plans[|c.plans| - 1].verdict == RequireApproval && |c.plans| !in c.approvals
    requires c.row.state == AwaitingApproval && (EnteredVerifying(c.trail) ==> PastPlanning(c.row.state))
    ensures var c' := Decided(c, |c.plans|, approval);
            && !EnteredVerifying(c'.trail)
            && forall kind, n: nat :: PlanBound(kind) ==>
                 (HasReason(c', kind, n) <==> HasReason(c, kind, n) || (kind == Execute && n == |c.plans| && approval.choice == Approve))
  {
    var to := if approval.choice == Approve then Executing else Escalated;
    var more := [PlanDecided(|c.plans|, approval.choice), Transitioned(Move(c.row.state, to, c.row.version + 1))];
    var c' := Decided(c, |c.plans|, approval);
    assert c'.trail == c.trail + more;
    EnteredByAppend(c.trail, more);
    assert !EnteredVerifying(more);
    hide EnteredVerifying;
  }

  lemma VerifyingReasons(c: Case)
    requires c.row.state == Executing && c.plans != []
    ensures var c' := MoveTo(c, Verifying);
            && EnteredVerifying(c'.trail) && PastPlanning(c'.row.state)
            && forall kind, n: nat :: PlanBound(kind) ==> (HasReason(c', kind, n) <==> HasReason(c, kind, n) || (kind == Verify && n == |c.plans|))
  {
    var move := Transitioned(Move(c.row.state, Verifying, c.row.version + 1));
    EnteredByAppend(c.trail, [move]);
    assert GoesTo([move], 0, Verifying);
    hide EnteredVerifying;
  }

  /** A job added for its reason, on one incident; the other incidents' reasons and jobs stay. */
  lemma AddedForReason(s: Sys, incident: IncidentId, c': Case, kind: JobKind, n: nat, q: Queueing)
    requires JobsMatch(s) && incident in s.cases && PlanBound(kind)
    requires EnteredVerifying(c'.trail) ==> PastPlanning(c'.row.state)
    requires forall k, i: nat :: PlanBound(k) ==> (HasReason(c', k, i) <==> HasReason(s.cases[incident], k, i) || (k == kind && i == n))
    ensures JobsMatch(SetCase(s, incident, c').(jobs := Q.Apply(s.jobs, PlanJob(kind, PlanId(incident, n), q))))
  {
    PlanJobAdded(s.jobs, kind, PlanId(incident, n), q);
    hide HasJob, HasReason, Q.Apply, EnteredVerifying, KeysMatch;
    var s' := SetCase(s, incident, c').(jobs := Q.Apply(s.jobs, PlanJob(kind, PlanId(incident, n), q)));
    forall other | other in s'.cases ensures CaseJobs(s'.jobs, other, s'.cases[other]) {
      assert CaseJobs(s.jobs, other, s.cases[other]);
      forall k, i: nat | PlanBound(k) ensures HasJob(s'.jobs, k, PlanId(other, i)) <==> HasReason(s'.cases[other], k, i) {
        assert HasJob(s'.jobs, k, PlanId(other, i)) <==> HasJob(s.jobs, k, PlanId(other, i)) || (k == kind && PlanId(other, i) == PlanId(incident, n));
      }
    }
  }

  lemma ChangedForNoReason(s: Sys, s': Sys, incident: IncidentId, c': Case)
    requires JobsMatch(s) && incident in s.cases && SameReasons(s.cases[incident], c')
    requires s'.cases == s.cases[incident := c'] && KeysMatch(s'.jobs) && SameJobs(s.jobs, s'.jobs)
    ensures JobsMatch(s')
  {
    hide SameReasons, SameJobs, KeysMatch;
    forall other | other in s'.cases ensures CaseJobs(s'.jobs, other, s'.cases[other]) {
      NothingChanged(s.cases[other]);
      SameReasonsKeepJobs(s.jobs, s'.jobs, other, s.cases[other], s'.cases[other]);
    }
  }

  lemma NothingChanged(c: Case)
    ensures SameReasons(c, c)
  {
  }

  lemma NoJobsChanged(jobs: seq<Q.Job>)
    ensures SameJobs(jobs, jobs)
  {
  }

  // ----- Every event, every run -----

  lemma SubmitKeepsJobs(s: Sys, e: Event)
    requires Inv(s) && JobsMatch(s) && e.Submit?
    ensures JobsMatch(SubmitStep(s, e))
  {
    hide JobsMatch, JobsInv, ProcInv, PatchesInv, SessionInv, Judge, Submitted, HasReason, HasJob, EnteredVerifying, PastPlanning, Q.Apply;
    if SubmitCommits(s, e.session, e.submitter) {
      var incident := s.sessions[e.session].incident;
      var c := s.cases[incident];
      NothingYet(s.jobs, incident, c) by { NotPast(c); }
      hide CaseInv;
      var row := NewPlan(PlanId(incident, |c.plans| + 1), e.plan, ProposedBy(e.submitter), e.context, e.queueing.now, e.ttl);
      CaseJobsOf(s, incident);
      NotPast(c);
      SubmittedReasons(c, row);
      var c' := Submitted(c, row);
      match row.verdict
      case Deny => ChangedForNoReason(s, SetCase(s, incident, c'), incident, c') by { KeysOf(s); }
      case RequireApproval => AddedForReason(s, incident, c', ApprovalTimeout, |c.plans| + 1, e.queueing.(delay := e.ttl));
      case Allow => AddedForReason(s, incident, c', Execute, |c.plans| + 1, e.queueing.(delay := 0));
    }
  }

  lemma NotPast(c: Case)
    requires c.row.state == Diagnosed || c.row.state == AwaitingApproval
    ensures !PastPlanning(c.row.state)
  {
  }

  lemma CaseJobsOf(s: Sys, incident: IncidentId)
    requires JobsMatch(s) && incident in s.cases
    ensures CaseJobs(s.jobs, incident, s.cases[incident])
  {
  }

  lemma KeysOf(s: Sys)
    requires JobsMatch(s)
    ensures KeysMatch(s.jobs) && SameJobs(s.jobs, s.jobs)
  {
  }

  lemma DecideKeepsJobs(s: Sys, e: Event)
    requires Inv(s) && JobsMatch(s) && e.Decide?
    ensures JobsMatch(DecideStep(s, e))
  {
    hide JobsMatch, JobsInv, ProcInv, PatchesInv, CaseInv, Decided, HasReason, HasJob, EnteredVerifying, PastPlanning, Q.Apply;
    if DecisionCommits(s, e) {
      var session := s.sessions[e.session];
      assert SessionInv(s.cases, session);
      var c := s.cases[session.incident];
      CaseJobsOf(s, session.incident);
      var approval := Approval(c.plans[|c.plans| - 1].hash, e.approver, e.choice);
      DecidedReasons(c, approval);
      NotPast(c);
      var c' := Decided(c, |c.plans|, approval);
      if e.choice == Approve {
        AddedForReason(s, session.incident, c', Execute, |c.plans|, e.queueing.(delay := 0));
      } else {
        ChangedForNoReason(s, SetCase(s, session.incident, c'), session.incident, c') by { KeysOf(s); }
      }
    }
  }

  lemma TimeOutKeepsJobs(s: Sys, e: Event)
    requires JobsMatch(s) && e.TimeOut?
    ensures JobsMatch(TimeOutStep(s, e))
  {
    hide JobsMatch, HasReason, HasJob, EnteredVerifying, SameReasons;
    if TimeOutCommits(s, e.session, e.token) {
      var session := s.sessions[e.session];
      var c := s.cases[session.incident];
      var c' := TimedOut(c, session.plans.value);
      MoveIsNoReason(c, Escalated);
      TimedOutSameReasons(c, session.plans.value);
      KeysOf(s);
      ChangedForNoReason(s, TimeOutStep(s, e), session.incident, c');
    }
  }

  lemma TimedOutSameReasons(c: Case, n: nat)
    requires SameReasons(c, MoveTo(c, Escalated))
    ensures SameReasons(c, TimedOut(c, n))
  {
    hide EnteredVerifying;
  }

  lemma ActionKeepsReasons(c: Case, c': Case)
    requires ActionChange(c, c')
    ensures SameReasons(c, c')
  {
    if note: TrailEvent :| (note.ExecutionStarted? || note.ExecutionSucceeded?) && c' == c.(trail := c.trail + [note]) {
      NoteIsNoReason(c, c', note);
    } else if !Terminal(c.row.state) && c' == MoveTo(c, Escalated) {
      MoveIsNoReason(c, Escalated);
    }
    hide EnteredVerifying;
  }

  lemma AdvanceKeepsJobs(s: Sys, t: Token, w: World)
    requires Inv(s) && JobsMatch(s)
    ensures JobsMatch(AdvanceStep(s, t, w))
  {
    if t in s.procs {
      assert ProcInv(s.jobs, s.cases, s.patches, t, s.procs[t]) by { hide CaseInv, JobsInv, SessionInv, PatchesInv, ProcInv; }
      hide JobsMatch, CaseInv, JobsInv, SessionInv, PatchesInv, Authorised, RowInv, MustRefuse, ActionStep, HasReason, HasJob, EnteredVerifying, Q.Apply;
      var incident := s.jobs[t.job].work.incident;
      AdvanceChanges(s, t, w);
      if Concludes(s, t) {
        ConcludeKeepsJobs(s, t, w);
      } else {
        var c' := AdvanceStep(s, t, w).cases[incident];
        ActionKeepsReasons(s.cases[incident], c');
        KeysOf(s);
        AdvanceIsOneCase(s, t, w);
        hide AdvanceStep, ProcInv, SameReasons, ActionChange;
        ChangedForNoReason(s, AdvanceStep(s, t, w), incident, c');
      }
    } else {
      hide JobsMatch, Inv;
    }
  }

  lemma AdvanceIsOneCase(s: Sys, t: Token, w: World)
    requires t in s.procs && t.job < |s.jobs| && s.jobs[t.job].work.incident in s.cases
    ensures var incident, s' := s.jobs[t.job].work.incident, AdvanceStep(s, t, w);
            incident in s'.cases && s'.cases == s.cases[incident := s'.cases[incident]]
  {
    hide MustRefuse, Q.Apply, Q.Live, ActionStep;
    if s.procs[t].pc.At? { ActionIsOneCase(s, t, w, s.procs[t].pc.stage, s.procs[t].pc.index); }
  }

  lemma ActionIsOneCase(s: Sys, t: Token, w: World, stage: Stage, i: nat)
    requires t in s.procs && t.job < |s.jobs| && s.jobs[t.job].work.incident in s.cases
    ensures var incident, s' := s.jobs[t.job].work.incident, ActionStep(s, t, w, stage, i);
            incident in s'.cases && s'.cases == s.cases[incident := s'.cases[incident]]
  {
    hide Q.Live;
  }

  lemma ConcludeKeepsJobs(s: Sys, t: Token, w: World)
    requires JobsMatch(s) && Concludes(s, t) && ProcInv(s.jobs, s.cases, s.patches, t, s.procs[t])
    ensures JobsMatch(AdvanceStep(s, t, w))
  {
    hide JobsMatch, Authorised, HasReason, HasJob, EnteredVerifying, Q.Apply, MustRefuse, ActionStep;
    var incident := s.jobs[t.job].work.incident;
    var c := s.cases[incident];
    VerifyingReasons(c);
    var stopped := SetProc(s, t, s.procs[t].(pc := Stopped));
    ProcsDoNotMatter(s, stopped);
    AddedForReason(stopped, incident, MoveTo(c, Verifying), JobKind.Verify, s.procs[t].plan, w.queueing);
  }

  lemma ProcsDoNotMatter(s: Sys, s': Sys)
    requires JobsMatch(s) && s'.jobs == s.jobs && s'.cases == s.cases
    ensures JobsMatch(s')
  {
    hide CaseJobs, KeysMatch;
  }

  lemma EndVerifyKeepsJobs(s: Sys, e: Event)
    requires JobsMatch(s) && e.EndVerify?
    ensures JobsMatch(EndVerifyStep(s, e))
  {
    hide JobsMatch, HasReason, HasJob, EnteredVerifying, SameReasons;
    if LiveFor(s, e.token, JobKind.Verify) && FromLoop(e.run) {
      var incident := s.jobs[e.token.job].work.incident;
      var c := s.cases[incident];
      if c.row.state == Verifying {
        var to := if e.run.passed then Resolved else Escalated;
        VerifiedIsNoReason(c, e.run, to);
        KeysOf(s);
        ChangedForNoReason(s, EndVerifyStep(s, e), incident, MoveTo(c.(trail := c.trail + [VerificationEnded(e.run)]), to));
      }
    }
  }

  lemma OtherMoveKeepsJobs(s: Sys, incident: IncidentId, to: State)
    requires JobsMatch(s) && incident in s.cases && MayMove(s.cases[incident], to)
    ensures JobsMatch(SetCase(s, incident, MoveTo(s.cases[incident], to)))
  {
    MoveIsNoReason(s.cases[incident], to);
    hide JobsMatch, SameReasons;
    KeysOf(s);
    ChangedForNoReason(s, SetCase(s, incident, MoveTo(s.cases[incident], to)), incident, MoveTo(s.cases[incident], to));
  }

  lemma QueueKeepsJobs(s: Sys, op: Q.Op)
    requires JobsMatch(s) && MayQueue(op)
    ensures JobsMatch(QueueStep(s, op))
  {
    OtherStatements(s.jobs, op);
    hide Q.Apply, HasJob, HasReason, EnteredVerifying, KeysMatch;
    var s' := QueueStep(s, op);
    assert s'.cases == s.cases && s'.jobs == Q.Apply(s.jobs, op);
    forall incident | incident in s'.cases ensures CaseJobs(s'.jobs, incident, s'.cases[incident]) {
      assert CaseJobs(s.jobs, incident, s.cases[incident]);
    }
  }

  lemma OpenKeepsJobs(s: Sys, incident: IncidentId)
    requires Inv(s) && JobsMatch(s) && incident !in s.cases
    ensures JobsMatch(SetCase(s, incident, NEW_CASE))
  {
    hide CaseInv, SessionInv, ProcInv, PatchesInv;
    forall kind, n: nat | PlanBound(kind) ensures !HasJob(s.jobs, kind, PlanId(incident, n)) {}
    assert CaseJobs(s.jobs, incident, NEW_CASE);
    hide CaseJobs;
  }

  lemma StepKeepsJobs(s: Sys, e: Event)
    requires Inv(s) && JobsMatch(s)
    ensures JobsMatch(Step(s, e))
  {
    hide Inv, JobsMatch, AdvanceStep, SubmitStep, DecideStep, TimeOutStep, EndVerifyStep, QueueStep;
    match e
    case Open(incident) => if incident !in s.cases { OpenKeepsJobs(s, incident); }
    case OtherMove(incident, to) => if incident in s.cases && MayMove(s.cases[incident], to) { OtherMoveKeepsJobs(s, incident, to); }
    case Queue(op) => if MayQueue(op) { QueueKeepsJobs(s, op); }
    case Submit(_, _, _, _, _, _) => SubmitKeepsJobs(s, e);
    case Decide(_, _, _, _, _, _) => DecideKeepsJobs(s, e);
    case TimeOut(_, _) => TimeOutKeepsJobs(s, e);
    case Advance(t, w) => AdvanceKeepsJobs(s, t, w);
    case EndVerify(_, _) => EndVerifyKeepsJobs(s, e);
    case _ => ProcsDoNotMatter(s, Step(s, e));
  }

  lemma {:induction false} RunMatches(events: seq<Event>)
    ensures JobsMatch(Run(events))
    decreases |events|
  {
    if events != [] {
      hide Inv, Step, JobsMatch;
      RunMatches(events[..|events| - 1]);
      RunKeepsInv(events[..|events| - 1], 0);
      StepKeepsJobs(Run(events[..|events| - 1]), events[|events| - 1]);
    }
  }

  /**
   * In every run a plan has an `execute` job exactly if it was let through or approved, an
   * `approval_timeout` job exactly if it needs a decision, and a `verify` job exactly if it is the current
   * plan and the incident has moved to Verifying.
   */
  lemma JobsOfPlans(events: seq<Event>, incident: IncidentId, n: nat)
    requires incident in Run(events).cases && 1 <= n <= |Run(events).cases[incident].plans|
    ensures var jobs, c, id := Run(events).jobs, Run(events).cases[incident], PlanId(incident, n);
            && (HasJob(jobs, Execute, id) <==> c.plans[n - 1].verdict == Allow || (n in c.approvals && c.approvals[n].choice == Approve))
            && (HasJob(jobs, ApprovalTimeout, id) <==> c.plans[n - 1].verdict == RequireApproval)
            && (HasJob(jobs, JobKind.Verify, id) <==> n == |c.plans| && EnteredVerifying(c.trail))
  {
    hide Run, HasJob, EnteredVerifying;
    RunMatches(events);
    CaseJobsOf(Run(events), incident);
    assert PlanBound(Execute) && PlanBound(ApprovalTimeout) && PlanBound(JobKind.Verify);
  }
}
