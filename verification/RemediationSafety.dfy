/** What every event of the remediation protocol keeps, and what follows for whole runs. */
module RemediationSafety {
  import opened Domain
  import opened Incidents
  import opened Policy
  import opened Remediation
  import Q = JobQueue
  import Fencing

  // ----- The invariant -----

  /** The incident's transition rows, in order. */
  function MovesOf(trail: seq<TrailEvent>): seq<Move> {
    if trail == [] then []
    else
      var last := trail[|trail| - 1];
      MovesOf(trail[..|trail| - 1]) + (if last.Transitioned? then [last.move] else [])
  }

  predicate SucceededUpTo(execs: map<ExecKey, Exec>, number: nat, k: nat) {
    forall i: nat :: i < k ==> ExecKey(number, i) in execs && execs[ExecKey(number, i)].status == Succeeded
  }

  /** The token was handed out for the `execute` job of that plan. */
  predicate ExecutorOf(jobs: seq<Q.Job>, t: Token, id: PlanId) {
    && Q.Issued(jobs, t)
    && jobs[t.job].work == Q.Work(Execute, id.incident, Some(id))
  }

  ghost predicate JobsInv(jobs: seq<Q.Job>, cases: map<IncidentId, Case>) {
    && (forall i :: 0 <= i < |jobs| && PlanBound(jobs[i].work.kind) ==>
          && jobs[i].work.plan.Some?
          && jobs[i].work.plan.value.incident == jobs[i].work.incident
          && jobs[i].work.incident in cases
          && jobs[i].key == Some(ForPlan(jobs[i].work.plan.value, jobs[i].work.kind)))
    && (forall i, j :: 0 <= i < j < |jobs| && jobs[i].key.Some? ==> jobs[i].key != jobs[j].key)
  }

  ghost predicate PathInv(row: IncidentRow, trail: seq<TrailEvent>) {
    IsPath(MovesOf(trail)) && row == RowAfter(MovesOf(trail))
  }

  ghost predicate PlansInv(incident: IncidentId, plans: seq<PlanRow>) {
    forall n :: 0 <= n < |plans| ==>
      && plans[n].hash == PlanHash(incident, n + 1, plans[n].plan)
      && plans[n].verdict == Judge(plans[n].plan, plans[n].context)
  }

  /** Only the current plan can have been decided or timed out, and then nothing leads back to planning. */
  ghost predicate OutcomesInv(plans: seq<PlanRow>, approvals: map<nat, Approval>, timedOut: set<nat>, state: State) {
    && (forall n :: n in approvals ==>
          && n == |plans| && 1 <= n
          && plans[n - 1].verdict == RequireApproval
          && approvals[n].hash == plans[n - 1].hash
          && (approvals[n].choice == Approve ==> approvals[n].approver != plans[n - 1].proposedBy)
          && (approvals[n].choice == Reject ==> state == Escalated)
          && PastPlanning(state))
    && (forall n :: n in timedOut ==> n == |plans| && state == Escalated && n !in approvals)
  }

  /** Rows exist only for the current plan, as a prefix of its actions in which all but the last succeeded. */
  ghost predicate ExecsInv(
    jobs: seq<Q.Job>, incident: IncidentId, plans: seq<PlanRow>, execs: map<ExecKey, Exec>, state: State)
  {
    && (forall key :: key in execs ==>
          && key.plan == |plans|
          && key.index < |Actions(plans, key.plan)|
          && PastPlanning(state)
          && SucceededUpTo(execs, key.plan, key.index)
          && ExecutorOf(jobs, execs[key].owner, PlanId(incident, key.plan)))
    && (state == Verifying || state == Resolved ==>
          plans != [] && SucceededUpTo(execs, |plans|, |Actions(plans, |plans|)|))
  }

  predicate PassedIn(trail: seq<TrailEvent>) {
    exists k :: 0 <= k < |trail| && trail[k].VerificationEnded? && trail[k].run.passed && FromLoop(trail[k].run)
  }

  ghost predicate CaseInv(jobs: seq<Q.Job>, incident: IncidentId, c: Case) {
    && PathInv(c.row, c.trail)
    && PlansInv(incident, c.plans)
    && OutcomesInv(c.plans, c.approvals, c.timedOut, c.row.state)
    && ExecsInv(jobs, incident, c.plans, c.execs, c.row.state)
    && (c.row.state == Resolved ==> PassedIn(c.trail))
  }

  /** What the session read still holds if the incident's version has not moved since. */
  ghost predicate SessionInv(cases: map<IncidentId, Case>, session: Session) {
    && session.incident in cases
    && var c := cases[session.incident];
       && session.seen.version <= c.row.version
       && (session.plans.Some? ==> session.plans.value <= |c.plans|)
       && (session.seen.version == c.row.version ==>
             && session.seen == c.row
             && (session.plans.Some? ==> session.plans.value == |c.plans|)
             && (session.decided.Some? ==> session.plans.Some? && session.decided.value == (session.plans.value in c.approvals)))
  }

  function DoneSoFar(c: Case, p: Proc): nat {
    match p.pc
    case At(stage, i) => if stage == AnnounceSuccess then i + 1 else i
    case Conclude => |Actions(c.plans, p.plan)|
    case _ => 0
  }

  /** The executor passed its review of the current plan, and nothing has changed about that since. */
  ghost predicate Cleared(c: Case, work: Q.Work, p: Proc) {
    && 1 <= p.plan == |c.plans|
    && work.plan == Some(PlanId(work.incident, p.plan))
    && PastPlanning(c.row.state)
    && p.context.Some? && Authorised(c, p.context.value)
    && SucceededUpTo(c.execs, p.plan, DoneSoFar(c, p))
    && (p.pc.At? ==> if p.pc.stage == CheckRow then p.pc.index <= |Actions(c.plans, p.plan)| else p.pc.index < |Actions(c.plans, p.plan)|)
  }

  predicate StartedBy(c: Case, key: ExecKey, t: Token, live: bool) {
    key in c.execs && c.execs[key].owner == t && (live ==> c.execs[key].status == Started)
  }

  predicate Unsent(patches: seq<Patch>, incident: IncidentId, key: ExecKey) {
    forall k :: 0 <= k < |patches| ==> patches[k].incident != incident || patches[k].key != key
  }

  /** What an executor at `stage` relies on about the action's row; `live` is whether it still owns its job. */
  ghost predicate RowInv(c: Case, incident: IncidentId, t: Token, p: Proc, live: bool, patches: seq<Patch>)
    requires p.pc.At?
  {
    var key := ExecKey(p.plan, p.pc.index);
    match p.pc.stage
    case MarkUnknown => live ==> key in c.execs && c.execs[key].status == Started
    case Announce => StartedBy(c, key, t, live) && Unsent(patches, incident, key)
    case Send => StartedBy(c, key, t, live) && Unsent(patches, incident, key) && ExecutionStarted(key, t) in c.trail
    case Settle(_) => StartedBy(c, key, t, live)
    case _ => true
  }

  ghost predicate ProcInv(jobs: seq<Q.Job>, cases: map<IncidentId, Case>, patches: seq<Patch>, t: Token, p: Proc) {
    && Q.Issued(jobs, t)
    && jobs[t.job].work.kind == Execute
    && jobs[t.job].work.incident in cases
    && RunInv(cases[jobs[t.job].work.incident], jobs[t.job].work, t, p, Q.Live(jobs, t), patches)
  }

  ghost predicate RunInv(c: Case, work: Q.Work, t: Token, p: Proc, live: bool, patches: seq<Patch>) {
    && (p.pc == Review ==> PastPlanning(c.row.state))
    && (p.pc.At? || p.pc.Conclude? ==> Cleared(c, work, p))
    && (p.pc.At? ==> RowInv(c, work.incident, t, p, live, patches))
  }

  /** A patch was sent for the current plan, with authority, by the claim that had recorded the intent before. */
  ghost predicate PatchInv(cases: map<IncidentId, Case>, patch: Patch) {
    patch.incident in cases && SentFor(cases[patch.incident], patch)
  }

  ghost predicate SentFor(c: Case, patch: Patch) {
    && 1 <= patch.key.plan == |c.plans|
    && patch.key.index < |Actions(c.plans, patch.key.plan)|
    && PastPlanning(c.row.state)
    && Authorised(c, patch.context)
    && patch.key in c.execs && c.execs[patch.key].owner == patch.owner
    && exists k :: 0 <= k < patch.trail && k < |c.trail| && c.trail[k] == ExecutionStarted(patch.key, patch.owner)
  }

  ghost predicate PatchesInv(cases: map<IncidentId, Case>, patches: seq<Patch>) {
    && (forall k :: 0 <= k < |patches| ==> PatchInv(cases, patches[k]))
    && (forall j, k :: 0 <= j < k < |patches| ==>
          patches[j].incident != patches[k].incident || patches[j].key != patches[k].key)
  }

  ghost predicate Inv(s: Sys) {
    && JobsInv(s.jobs, s.cases)
    && (forall incident :: incident in s.cases ==> CaseInv(s.jobs, incident, s.cases[incident]))
    && (forall id :: id in s.sessions ==> SessionInv(s.cases, s.sessions[id]))
    && (forall t :: t in s.procs ==> ProcInv(s.jobs, s.cases, s.patches, t, s.procs[t]))
    && PatchesInv(s.cases, s.patches)
  }

  // ----- How one case may change -----

  /** Execution rows stay, and settle at most once. */
  ghost predicate RowsGrow(execs: map<ExecKey, Exec>, execs': map<ExecKey, Exec>) {
    forall key :: key in execs ==>
      && key in execs' && execs'[key].owner == execs[key].owner
      && (execs[key].status != Started ==> execs'[key] == execs[key])
  }

  ghost predicate ApprovalsGrow(approvals: map<nat, Approval>, approvals': map<nat, Approval>) {
    forall n :: n in approvals ==> n in approvals' && approvals'[n] == approvals[n]
  }

  /** What no event undoes. */
  ghost predicate Grows(c: Case, c': Case) {
    && c.trail <= c'.trail
    && c.plans <= c'.plans
    && (c.row.version < c'.row.version || (c'.row == c.row && c'.plans == c.plans && c'.approvals == c.approvals))
    && (PastPlanning(c.row.state) ==> PastPlanning(c'.row.state) && c'.plans == c.plans)
    && ApprovalsGrow(c.approvals, c'.approvals)
    && c.timedOut <= c'.timedOut
    && RowsGrow(c.execs, c'.execs)
  }

  ghost predicate AllGrow(cases: map<IncidentId, Case>, cases': map<IncidentId, Case>) {
    forall incident :: incident in cases ==> incident in cases' && Grows(cases[incident], cases'[incident])
  }

  /** What an event does: it keeps the invariant and undoes nothing. */
  ghost predicate Kept(s: Sys, s': Sys) {
    Inv(s') && AllGrow(s.cases, s'.cases)
  }

  lemma GrowsIsReflexive(cases: map<IncidentId, Case>)
    ensures AllGrow(cases, cases)
  {
  }

  lemma NothingHappens(s: Sys)
    requires Inv(s)
    ensures Kept(s, s)
  {
    hide Inv;
    GrowsIsReflexive(s.cases);
  }

  lemma OneGrows(cases: map<IncidentId, Case>, incident: IncidentId, c': Case)
    requires incident in cases ==> Grows(cases[incident], c')
    ensures AllGrow(cases, cases[incident := c'])
  {
    GrowsIsReflexive(cases);
  }

  lemma GrowsIsTransitive(a: Case, b: Case, c: Case)
    requires Grows(a, b) && Grows(b, c)
    ensures Grows(a, c)
  {
  }

  /** Only the live executor of a plan changes that plan's existing execution rows. */
  ghost predicate OnlyWriter(s: Sys, incident: IncidentId, c: Case, c': Case, w: Option<Token>) {
    forall key :: key in c.execs && key in c'.execs && c'.execs[key] != c.execs[key] ==>
      && w.Some? && w.value in s.procs && Q.Live(s.jobs, w.value) && ExecutorOf(s.jobs, w.value, PlanId(incident, key.plan))
  }

  lemma GrowsKeepsCleared(c: Case, c': Case, work: Q.Work, p: Proc)
    requires Grows(c, c') && Cleared(c, work, p)
    ensures Cleared(c', work, p)
  {
    assert Actions(c'.plans, p.plan) == Actions(c.plans, p.plan);
  }

  /** An executor other than the writer keeps what it relies on. */
  lemma OtherProcKeeps(s: Sys, incident: IncidentId, c': Case, w: Option<Token>, t: Token)
    requires JobsInv(s.jobs, s.cases)
    requires incident in s.cases && Grows(s.cases[incident], c') && OnlyWriter(s, incident, s.cases[incident], c', w)
    requires t in s.procs && ProcInv(s.jobs, s.cases, s.patches, t, s.procs[t]) && w != Some(t)
    ensures ProcInv(s.jobs, s.cases[incident := c'], s.patches, t, s.procs[t])
  {
    var p, work := s.procs[t], s.jobs[t.job].work;
    if work.incident == incident {
      var c := s.cases[incident];
      if p.pc.At? || p.pc.Conclude? { GrowsKeepsCleared(c, c', work, p); }
      if p.pc.At? {
        var key := ExecKey(p.plan, p.pc.index);
        if key in c.execs && c'.execs[key] != c.execs[key] && Q.Live(s.jobs, t) {
          SameExecutorJob(s.jobs, s.cases, t, w.value, PlanId(incident, p.plan));
        }
      }
    }
  }

  lemma SameExecutorJob(jobs: seq<Q.Job>, cases: map<IncidentId, Case>, a: Token, b: Token, id: PlanId)
    requires JobsInv(jobs, cases)
    requires ExecutorOf(jobs, a, id) && ExecutorOf(jobs, b, id)
    ensures a.job == b.job
  {
    assert jobs[a.job].key == jobs[b.job].key;
  }

  lemma CaseUpdateKeepsPatches(cases: map<IncidentId, Case>, patches: seq<Patch>, incident: IncidentId, c': Case)
    requires PatchesInv(cases, patches)
    requires incident in cases && Grows(cases[incident], c')
    ensures PatchesInv(cases[incident := c'], patches)
  {
    forall k | 0 <= k < |patches| ensures PatchInv(cases[incident := c'], patches[k]) {
      assert PatchInv(cases, patches[k]);
      if patches[k].incident == incident { GrowsKeepsSent(cases[incident], c', patches[k]); }
    }
  }

  lemma GrowsKeepsSent(c: Case, c': Case, patch: Patch)
    requires Grows(c, c') && SentFor(c, patch)
    ensures SentFor(c', patch)
  {
    assert Actions(c'.plans, patch.key.plan) == Actions(c.plans, patch.key.plan);
  }

  lemma CaseUpdateKeepsSession(cases: map<IncidentId, Case>, session: Session, incident: IncidentId, c': Case)
    requires SessionInv(cases, session) && incident in cases && Grows(cases[incident], c')
    ensures SessionInv(cases[incident := c'], session)
  {
  }

  /** Changing one case, and the executor `w` that changed it, keeps everything else. */
  lemma CaseUpdateKeepsInv(s: Sys, s': Sys, incident: IncidentId, c': Case, w: Option<Token>)
    requires Inv(s)
    requires incident in s.cases && Grows(s.cases[incident], c') && OnlyWriter(s, incident, s.cases[incident], c', w)
    requires CaseInv(s.jobs, incident, c')
    requires s'.jobs == s.jobs && s'.patches == s.patches && s'.sessions == s.sessions
    requires s'.cases == s.cases[incident := c']
    requires s'.procs.Keys == s.procs.Keys
    requires forall t :: t in s.procs && w != Some(t) ==> s'.procs[t] == s.procs[t]
    requires w.Some? && w.value in s'.procs ==> ProcInv(s'.jobs, s'.cases, s'.patches, w.value, s'.procs[w.value])
    ensures Kept(s, s')
  {
    hide CaseInv, SessionInv, ProcInv, PatchesInv, Grows, OnlyWriter;
    OneGrows(s.cases, incident, c');
    assert s'.cases.Keys == s.cases.Keys;
    CaseUpdateKeepsPatches(s.cases, s.patches, incident, c');
    forall id | id in s'.sessions ensures SessionInv(s'.cases, s'.sessions[id]) {
      CaseUpdateKeepsSession(s.cases, s.sessions[id], incident, c');
    }
    forall t | t in s'.procs ensures ProcInv(s'.jobs, s'.cases, s'.patches, t, s'.procs[t]) {
      if w != Some(t) { OtherProcKeeps(s, incident, c', w, t); }
    }
  }

  /** Moving one executor on, without touching the database. */
  lemma ProcUpdateKeepsInv(s: Sys, t: Token, p: Proc)
    requires Inv(s)
    requires ProcInv(s.jobs, s.cases, s.patches, t, p)
    ensures Kept(s, SetProc(s, t, p))
  {
    hide CaseInv, JobsInv, SessionInv, ProcInv, PatchesInv;
    GrowsIsReflexive(s.cases);
  }

  // ----- Moves -----

  lemma MovesOfAppend(trail: seq<TrailEvent>, e: TrailEvent)
    ensures MovesOf(trail + [e]) == MovesOf(trail) + (if e.Transitioned? then [e.move] else [])
  {
    assert (trail + [e])[..|trail|] == trail;
  }

  /** Writing another audit row leaves the path alone. */
  lemma NoteKeepsPath(c: Case, c': Case, e: TrailEvent)
    requires PathInv(c.row, c.trail) && !e.Transitioned? && c'.row == c.row && c'.trail == c.trail + [e]
    ensures PathInv(c'.row, c'.trail)
  {
    MovesOfAppend(c.trail, e);
    assert MovesOf(c'.trail) == MovesOf(c.trail);
  }

  /** An allowed move extends the incident's path and keeps what does not depend on the state. */
  lemma MoveKeepsPath(c: Case, to: State)
    requires PathInv(c.row, c.trail)
    requires Allowed(c.row.state, to)
    ensures PathInv(MoveTo(c, to).row, MoveTo(c, to).trail)
  {
    var c' := MoveTo(c, to);
    MovesOfAppend(c.trail, Transitioned(Move(c.row.state, to, c.row.version + 1)));
    PathFacts(MovesOf(c.trail));
    TransitionExtendsPath(MovesOf(c.trail), c.row.state, to, c.row.version);
    PathFacts(MovesOf(c'.trail));
  }

  lemma RowsKept(jobs: seq<Q.Job>, incident: IncidentId, c: Case, state: State)
    requires ExecsInv(jobs, incident, c.plans, c.execs, c.row.state)
    requires PastPlanning(c.row.state) ==> PastPlanning(state)
    requires state == Verifying || state == Resolved ==>
               c.plans != [] && SucceededUpTo(c.execs, |c.plans|, |Actions(c.plans, |c.plans|)|)
    ensures ExecsInv(jobs, incident, c.plans, c.execs, state)
  {
  }

  /** A move without anything else to it, and not into Verifying or Resolved. */
  lemma PlainMoveKeepsCase(jobs: seq<Q.Job>, incident: IncidentId, c: Case, to: State)
    requires CaseInv(jobs, incident, c)
    requires Allowed(c.row.state, to) && to != Verifying && to != Resolved
    requires PastPlanning(c.row.state) ==> PastPlanning(to)
    ensures CaseInv(jobs, incident, MoveTo(c, to)) && Grows(c, MoveTo(c, to))
  {
    MoveKeepsPath(c, to);
    RowsKept(jobs, incident, c, to);
    assert OutcomesInv(c.plans, c.approvals, c.timedOut, to);
  }

  // ----- Queue statements -----

  /** Jobs bound to a plan carry that plan's key and belong to a known incident. */
  predicate WellKeyed(op: Q.Op, cases: map<IncidentId, Case>) {
    op.Enqueue? && PlanBound(op.what.work.kind) ==>
      && op.what.work.plan.Some?
      && op.what.work.plan.value.incident == op.what.work.incident
      && op.what.work.incident in cases
      && op.what.key == Some(ForPlan(op.what.work.plan.value, op.what.work.kind))
  }

  /** What a queue statement can do to the rows that were there, in terms of tokens. */
  lemma QueueStepFacts(jobs: seq<Q.Job>, op: Q.Op)
    ensures |jobs| <= |Q.Apply(jobs, op)|
    ensures forall i :: 0 <= i < |jobs| ==> Q.Apply(jobs, op)[i].work == jobs[i].work && Q.Apply(jobs, op)[i].key == jobs[i].key
    ensures forall t :: Q.Issued(jobs, t) ==> Q.Issued(Q.Apply(jobs, op), t)
    ensures forall t :: Q.Issued(jobs, t) && Q.Live(Q.Apply(jobs, op), t) ==> Q.Live(jobs, t)
  {
    var after := Q.Apply(jobs, op);
    if jobs != [] { Fencing.StepKeepsRow(jobs, op, 0); }
    forall i | 0 <= i < |jobs|
      ensures after[i].work == jobs[i].work && after[i].key == jobs[i].key && jobs[i].fence <= after[i].fence
      ensures after[i].fence == jobs[i].fence && after[i].status == Q.Running ==> jobs[i].status == Q.Running
    {
      Fencing.StepKeepsRow(jobs, op, i);
    }
  }

  lemma QueueStepKeepsJobs(jobs: seq<Q.Job>, op: Q.Op, cases: map<IncidentId, Case>)
    requires JobsInv(jobs, cases) && WellKeyed(op, cases)
    ensures JobsInv(Q.Apply(jobs, op), cases)
  {
    QueueStepFacts(jobs, op);
    var after := Q.Apply(jobs, op);
    assert |after| == |jobs| || (op.Enqueue? && after == jobs + [Q.NewJob(op.what, op.now)]);
    forall i, j | 0 <= i < j < |after| && after[i].key.Some? ensures after[i].key != after[j].key {
      if j < |jobs| { assert jobs[i].key != jobs[j].key; }
    }
  }

  lemma MoreJobsKeepsCase(jobs: seq<Q.Job>, op: Q.Op, incident: IncidentId, c: Case)
    requires CaseInv(jobs, incident, c)
    ensures CaseInv(Q.Apply(jobs, op), incident, c)
  {
    QueueStepFacts(jobs, op);
  }

  lemma MoreJobsKeepsProc(s: Sys, op: Q.Op, t: Token, p: Proc)
    requires ProcInv(s.jobs, s.cases, s.patches, t, p)
    ensures ProcInv(Q.Apply(s.jobs, op), s.cases, s.patches, t, p)
  {
    QueueStepFacts(s.jobs, op);
  }

  lemma JobsUpdateKeepsInv(s: Sys, op: Q.Op)
    requires Inv(s) && WellKeyed(op, s.cases)
    ensures Kept(s, s.(jobs := Q.Apply(s.jobs, op)))
  {
    hide CaseInv, JobsInv, SessionInv, ProcInv, PatchesInv;
    GrowsIsReflexive(s.cases);
    var s' := s.(jobs := Q.Apply(s.jobs, op));
    QueueStepKeepsJobs(s.jobs, op, s.cases);
    forall incident | incident in s'.cases ensures CaseInv(s'.jobs, incident, s'.cases[incident]) {
      MoreJobsKeepsCase(s.jobs, op, incident, s.cases[incident]);
    }
    forall t | t in s'.procs ensures ProcInv(s'.jobs, s'.cases, s'.patches, t, s'.procs[t]) {
      MoreJobsKeepsProc(s, op, t, s.procs[t]);
    }
  }

  /** A claim of an `execute` job issues a token for that job, of a known incident. */
  lemma ClaimStartsProc(s: Sys, op: Q.Op, k: nat)
    requires Inv(s) && op.Claim? && Q.Next(s.jobs, op.args, |s.jobs|) == Some(k) && s.jobs[k].work.kind == Execute
    ensures ProcInv(Q.Apply(s.jobs, op), s.cases, s.patches, Token(k, s.jobs[k].fence + 1), Proc(Start, 0, None))
  {
  }

  lemma QueueKeepsInv(s: Sys, op: Q.Op)
    requires Inv(s) && MayQueue(op)
    ensures Kept(s, QueueStep(s, op))
  {
    hide CaseInv, JobsInv, SessionInv, ProcInv, PatchesInv;
    JobsUpdateKeepsInv(s, op);
    var moved := s.(jobs := Q.Apply(s.jobs, op));
    if op.Claim? {
      var k := Q.Next(s.jobs, op.args, |s.jobs|);
      if k.Some? && s.jobs[k.value].work.kind == Execute {
        ClaimStartsProc(s, op, k.value);
        ProcUpdateKeepsInv(moved, Token(k.value, s.jobs[k.value].fence + 1), Proc(Start, 0, None));
      }
    }
  }

  // ----- Incidents opening, moving on their own, and being read -----

  lemma NewCaseIsFine(jobs: seq<Q.Job>, incident: IncidentId)
    ensures CaseInv(jobs, incident, NEW_CASE)
  {
  }

  lemma OpenKeepsInv(s: Sys, incident: IncidentId)
    requires Inv(s) && incident !in s.cases
    ensures Kept(s, SetCase(s, incident, NEW_CASE))
  {
    hide CaseInv, Cleared, RowInv, SentFor;
    OneGrows(s.cases, incident, NEW_CASE);
    var s' := SetCase(s, incident, NEW_CASE);
    NewCaseIsFine(s.jobs, incident);
    forall id | id in s'.sessions ensures SessionInv(s'.cases, s'.sessions[id]) {
      assert SessionInv(s.cases, s.sessions[id]);
    }
    forall t | t in s'.procs ensures ProcInv(s'.jobs, s'.cases, s'.patches, t, s'.procs[t]) {
      assert ProcInv(s.jobs, s.cases, s.patches, t, s.procs[t]);
    }
    forall k | 0 <= k < |s'.patches| ensures PatchInv(s'.cases, s'.patches[k]) { assert PatchInv(s.cases, s.patches[k]); }
  }

  lemma OtherMoveKeepsInv(s: Sys, incident: IncidentId, to: State)
    requires Inv(s) && incident in s.cases && MayMove(s.cases[incident], to)
    ensures Kept(s, SetCase(s, incident, MoveTo(s.cases[incident], to)))
  {
    hide CaseInv, JobsInv, SessionInv, ProcInv, PatchesInv;
    var c := s.cases[incident];
    PlainMoveKeepsCase(s.jobs, incident, c, to);
    CaseUpdateKeepsInv(s, SetCase(s, incident, MoveTo(c, to)), incident, MoveTo(c, to), None);
  }

  lemma SessionUpdateKeepsInv(s: Sys, id: nat, session: Session)
    requires Inv(s) && SessionInv(s.cases, session)
    ensures Kept(s, s.(sessions := s.sessions[id := session]))
  {
    hide CaseInv, JobsInv, SessionInv, ProcInv, PatchesInv;
    GrowsIsReflexive(s.cases);
  }

  // ----- Submitting, deciding, timing out -----

  /** A case that is not past planning has no decision, no timeout and no execution row. */
  lemma NothingYet(jobs: seq<Q.Job>, incident: IncidentId, c: Case)
    requires CaseInv(jobs, incident, c) && !PastPlanning(c.row.state)
    ensures c.approvals == map[] && c.timedOut == {} && c.execs == map[]
  {
    assert forall n :: n !in c.approvals;
    assert forall n :: n !in c.timedOut;
    assert forall key :: key !in c.execs;
  }

  lemma SubmittedKeepsPath(c: Case, row: PlanRow)
    requires PathInv(c.row, c.trail) && (c.row.state == Diagnosed || c.row.state == AwaitingApproval)
    ensures PathInv(Submitted(c, row).row, Submitted(c, row).trail) && c.trail <= Submitted(c, row).trail
    ensures Submitted(c, row).row.version == c.row.version + 3 && Submitted(c, row).row.state == StateFor(row.verdict)
  {
    hide IsPath, MovesOf;
    var recorded := c.(plans := c.plans + [row], trail := c.trail + [PlanRecorded(|c.plans| + 1)]);
    NoteKeepsPath(c, recorded, PlanRecorded(|c.plans| + 1));
    MoveKeepsPath(recorded, Planned);
    MoveKeepsPath(MoveTo(recorded, Planned), SafetyReviewed);
    MoveKeepsPath(MoveTo(MoveTo(recorded, Planned), SafetyReviewed), StateFor(row.verdict));
  }

  lemma SubmittedKeepsCase(jobs: seq<Q.Job>, incident: IncidentId, c: Case, row: PlanRow)
    requires CaseInv(jobs, incident, c)
    requires c.row.state == Diagnosed || c.row.state == AwaitingApproval
    requires row.hash == PlanHash(incident, |c.plans| + 1, row.plan) && row.verdict == Judge(row.plan, row.context)
    ensures CaseInv(jobs, incident, Submitted(c, row)) && Grows(c, Submitted(c, row))
  {
    hide IsPath, MovesOf;
    var c' := Submitted(c, row);
    NothingYet(jobs, incident, c);
    SubmittedKeepsPath(c, row);
    assert c'.plans == c.plans + [row] && c'.approvals == map[] && c'.timedOut == {} && c'.execs == map[];
    assert PlansInv(incident, c'.plans);
    assert OutcomesInv(c'.plans, c'.approvals, c'.timedOut, c'.row.state);
    assert ExecsInv(jobs, incident, c'.plans, c'.execs, c'.row.state);
  }

  lemma SubmitKeepsInv(s: Sys, e: Event)
    requires Inv(s) && e.Submit?
    ensures Kept(s, SubmitStep(s, e))
  {
    hide JobsInv, ProcInv, PatchesInv, CaseInv, Judge;
    if SubmitCommits(s, e.session, e.submitter) {
      var incident := s.sessions[e.session].incident;
      var c := s.cases[incident];
      var id := PlanId(incident, |c.plans| + 1);
      var row := NewPlan(id, e.plan, ProposedBy(e.submitter), e.context, e.queueing.now, e.ttl);
      SubmittedKeepsCase(s.jobs, incident, c, row);
      var moved := SetCase(s, incident, Submitted(c, row));
      CaseUpdateKeepsInv(s, moved, incident, Submitted(c, row), None);
      if row.verdict != Deny {
        JobsUpdateKeepsInv(moved, if row.verdict == Allow then PlanJob(Execute, id, e.queueing.(delay := 0))
                                  else PlanJob(ApprovalTimeout, id, e.queueing.(delay := e.ttl)));
      }
    }
  }

  lemma DecidedKeepsPath(c: Case, number: nat, approval: Approval)
    requires PathInv(c.row, c.trail) && c.row.state == AwaitingApproval
    ensures PathInv(Decided(c, number, approval).row, Decided(c, number, approval).trail) && c.trail <= Decided(c, number, approval).trail
  {
    var recorded := c.(approvals := c.approvals[number := approval], trail := c.trail + [PlanDecided(number, approval.choice)]);
    NoteKeepsPath(c, recorded, PlanDecided(number, approval.choice));
    MoveKeepsPath(recorded, if approval.choice == Approve then Executing else Escalated);
  }

  lemma DecidedKeepsCase(jobs: seq<Q.Job>, incident: IncidentId, c: Case, approval: Approval)
    requires CaseInv(jobs, incident, c) && c.row.state == AwaitingApproval
    requires c.plans != []
    requires var plan := c.plans[|c.plans| - 1];
             plan.verdict == RequireApproval && approval.hash == plan.hash
             && (approval.choice == Approve ==> approval.approver != plan.proposedBy)
    ensures CaseInv(jobs, incident, Decided(c, |c.plans|, approval)) && Grows(c, Decided(c, |c.plans|, approval))
  {
    hide IsPath, MovesOf, Judge;
    var c' := Decided(c, |c.plans|, approval);
    NothingYet(jobs, incident, c);
    DecidedKeepsPath(c, |c.plans|, approval);
    assert OutcomesInv(c'.plans, c'.approvals, c'.timedOut, c'.row.state);
    assert ExecsInv(jobs, incident, c'.plans, c'.execs, c'.row.state);
  }

  lemma DecideKeepsInv(s: Sys, e: Event)
    requires Inv(s) && e.Decide?
    ensures Kept(s, DecideStep(s, e))
  {
    hide JobsInv, ProcInv, PatchesInv, CaseInv, Judge;
    if DecisionCommits(s, e) {
      var incident, number := s.sessions[e.session].incident, s.sessions[e.session].plans.value;
      var c := s.cases[incident];
      assert SessionInv(s.cases, s.sessions[e.session]);
      assert number == |c.plans|;
      var approval := Approval(c.plans[number - 1].hash, e.approver, e.choice);
      DecidedKeepsCase(s.jobs, incident, c, approval);
      var moved := SetCase(s, incident, Decided(c, number, approval));
      CaseUpdateKeepsInv(s, moved, incident, Decided(c, number, approval), None);
      if e.choice == Approve { JobsUpdateKeepsInv(moved, PlanJob(Execute, PlanId(incident, number), e.queueing.(delay := 0))); }
    }
  }

  lemma TimedOutKeepsCase(jobs: seq<Q.Job>, incident: IncidentId, c: Case)
    requires CaseInv(jobs, incident, c) && c.row.state == AwaitingApproval
    ensures CaseInv(jobs, incident, TimedOut(c, |c.plans|)) && Grows(c, TimedOut(c, |c.plans|))
  {
    NothingYet(jobs, incident, c);
    MoveKeepsPath(c, Escalated);
  }

  lemma TimeOutKeepsInv(s: Sys, e: Event)
    requires Inv(s) && e.TimeOut?
    ensures Kept(s, TimeOutStep(s, e))
  {
    hide JobsInv, ProcInv, PatchesInv, CaseInv, Judge;
    if TimeOutCommits(s, e.session, e.token) {
      var session := s.sessions[e.session];
      var c := s.cases[session.incident];
      assert SessionInv(s.cases, session);
      TimedOutKeepsCase(s.jobs, session.incident, c);
      CaseUpdateKeepsInv(s, TimeOutStep(s, e), session.incident, TimedOut(c, |c.plans|), None);
    }
  }

  // ----- The executor -----

  lemma StopKeepsInv(s: Sys, t: Token, pc: Pc)
    requires Inv(s) && t in s.procs && (pc == Stopped || pc == Escalate)
    ensures Kept(s, SetProc(s, t, s.procs[t].(pc := pc)))
  {
    hide CaseInv, JobsInv, SessionInv, PatchesInv, Authorised;
    assert ProcInv(s.jobs, s.cases, s.patches, t, s.procs[t]);
    ProcUpdateKeepsInv(s, t, s.procs[t].(pc := pc));
  }

  lemma ReviewKeepsInv(s: Sys, t: Token, w: World)
    requires Inv(s) && t in s.procs && s.procs[t].pc == Review
    ensures Kept(s, AdvanceStep(s, t, w))
  {
    hide CaseInv, JobsInv, SessionInv, PatchesInv, Authorised;
    assert ProcInv(s.jobs, s.cases, s.patches, t, s.procs[t]);
    var work := s.jobs[t.job].work;
    var c := s.cases[work.incident];
    if MustRefuse(c, work, w.context) { StopKeepsInv(s, t, Escalate); }
    else { ProcUpdateKeepsInv(s, t, Proc(At(CheckRow, 0), |c.plans|, Some(w.context))); }
  }

  lemma EscalateKeepsInv(s: Sys, t: Token, w: World)
    requires Inv(s) && t in s.procs && s.procs[t].pc == Escalate
    ensures Kept(s, AdvanceStep(s, t, w))
  {
    hide CaseInv, JobsInv, SessionInv, PatchesInv, Authorised;
    assert ProcInv(s.jobs, s.cases, s.patches, t, s.procs[t]);
    StopKeepsInv(s, t, Stopped);
    var stopped := SetProc(s, t, s.procs[t].(pc := Stopped));
    var incident := s.jobs[t.job].work.incident;
    var c := s.cases[incident];
    if Q.Live(s.jobs, t) && !Terminal(c.row.state) {
      PlainMoveKeepsCase(s.jobs, incident, c, Escalated);
      CaseUpdateKeepsInv(stopped, SetCase(stopped, incident, MoveTo(c, Escalated)), incident, MoveTo(c, Escalated), None);
    }
  }

  lemma VerifyingKeepsCase(jobs: seq<Q.Job>, incident: IncidentId, c: Case)
    requires CaseInv(jobs, incident, c) && c.row.state == Executing
    requires c.plans != [] && SucceededUpTo(c.execs, |c.plans|, |Actions(c.plans, |c.plans|)|)
    ensures CaseInv(jobs, incident, MoveTo(c, Verifying)) && Grows(c, MoveTo(c, Verifying))
  {
    hide IsPath, MovesOf, PlansInv, Judge;
    MoveKeepsPath(c, Verifying);
    RowsKept(jobs, incident, c, Verifying);
    assert OutcomesInv(c.plans, c.approvals, c.timedOut, Verifying);
  }

  lemma ConcludeKeepsInv(s: Sys, t: Token, w: World)
    requires Inv(s) && t in s.procs && s.procs[t].pc == Conclude
    ensures Kept(s, AdvanceStep(s, t, w))
  {
    hide CaseInv, JobsInv, SessionInv, PatchesInv, Authorised;
    assert ProcInv(s.jobs, s.cases, s.patches, t, s.procs[t]);
    StopKeepsInv(s, t, Stopped);
    var stopped := SetProc(s, t, s.procs[t].(pc := Stopped));
    var incident := s.jobs[t.job].work.incident;
    var c := s.cases[incident];
    if Q.Live(s.jobs, t) && c.row.state == Executing {
      VerifyingKeepsCase(s.jobs, incident, c);
      var moved := SetCase(stopped, incident, MoveTo(c, Verifying));
      CaseUpdateKeepsInv(stopped, moved, incident, MoveTo(c, Verifying), None);
      JobsUpdateKeepsInv(moved, PlanJob(Verify, PlanId(incident, s.procs[t].plan), w.queueing));
    }
  }

  /** An audit row about an execution or a verification. */
  lemma NoteKeepsCase(jobs: seq<Q.Job>, incident: IncidentId, c: Case, e: TrailEvent)
    requires CaseInv(jobs, incident, c) && !e.Transitioned?
    ensures var c' := c.(trail := c.trail + [e]);
            CaseInv(jobs, incident, c') && Grows(c, c')
  {
    hide PlansInv, ExecsInv, OutcomesInv, IsPath;
    var c' := c.(trail := c.trail + [e]);
    NoteKeepsPath(c, c', e);
    if PassedIn(c.trail) {
      var k :| 0 <= k < |c.trail| && c.trail[k].VerificationEnded? && c.trail[k].run.passed && FromLoop(c.trail[k].run);
      assert c'.trail[k] == c.trail[k];
    }
  }

  /** A first row for the next action of the current plan. */
  lemma InsertKeepsCase(jobs: seq<Q.Job>, incident: IncidentId, c: Case, key: ExecKey, row: Exec)
    requires CaseInv(jobs, incident, c) && key !in c.execs
    requires 1 <= key.plan == |c.plans| && key.index < |Actions(c.plans, key.plan)| && PastPlanning(c.row.state)
    requires SucceededUpTo(c.execs, key.plan, key.index) && ExecutorOf(jobs, row.owner, PlanId(incident, key.plan))
    ensures var c' := c.(execs := c.execs[key := row]);
            CaseInv(jobs, incident, c') && Grows(c, c')
  {
    hide PlansInv, PathInv, OutcomesInv;
    var c' := c.(execs := c.execs[key := row]);
    assert ExecsInv(jobs, incident, c'.plans, c'.execs, c'.row.state) by {
      forall k | k in c'.execs ensures SucceededUpTo(c'.execs, k.plan, k.index) {
        if k != key { assert SucceededUpTo(c.execs, k.plan, k.index); }
      }
    }
  }

  /** Settling a row that is still started. */
  lemma SettleKeepsCase(jobs: seq<Q.Job>, incident: IncidentId, c: Case, key: ExecKey, status: ExecStatus)
    requires CaseInv(jobs, incident, c) && key in c.execs && c.execs[key].status == Started
    ensures var c' := WithStatus(c, key, status);
            CaseInv(jobs, incident, c') && Grows(c, c')
  {
    hide PlansInv, PathInv, OutcomesInv;
    var c' := WithStatus(c, key, status);
    assert ExecsInv(jobs, incident, c'.plans, c'.execs, c'.row.state) by {
      forall number: nat, k: nat | SucceededUpTo(c.execs, number, k) ensures SucceededUpTo(c'.execs, number, k) {}
    }
  }

  lemma SendKeepsInv(s: Sys, t: Token, w: World, i: nat)
    requires Inv(s) && t in s.procs && s.procs[t].pc == At(Send, i) && t.job < |s.jobs| && s.jobs[t.job].work.incident in s.cases
    ensures Kept(s, ActionStep(s, t, w, Send, i))
  {
    hide CaseInv, JobsInv, SessionInv, PatchesInv, Authorised;
    assert ProcInv(s.jobs, s.cases, s.patches, t, s.procs[t]);
    var status := match w.sent case Applied => Succeeded case Refused => Failed case NoAnswer => Unknown;
    SettleNext(s, t, if w.noop then Succeeded else status, i);
    if !w.noop { SentKeepsInv(s, t, status, i); }
  }

  lemma SettleNext(s: Sys, t: Token, status: ExecStatus, i: nat)
    requires Inv(s) && t in s.procs && s.procs[t].pc == At(Send, i)
    ensures Kept(s, SetProc(s, t, s.procs[t].(pc := At(Settle(status), i))))
  {
    hide CaseInv, JobsInv, SessionInv, PatchesInv, Authorised;
    var p := s.procs[t];
    assert ProcInv(s.jobs, s.cases, s.patches, t, p);
    ProcUpdateKeepsInv(s, t, p.(pc := At(Settle(status), i)));
  }

  lemma SentKeepsInv(s: Sys, t: Token, status: ExecStatus, i: nat)
    requires Inv(s) && t in s.procs && s.procs[t].pc == At(Send, i) && t.job < |s.jobs|
    requires var work := s.jobs[t.job].work; work.incident in s.cases && s.procs[t].context.Some?
    ensures var p, work := s.procs[t], s.jobs[t.job].work;
            var patch := Patch(work.incident, ExecKey(p.plan, i), t, p.context.value, |s.cases[work.incident].trail|);
            Kept(s, SetProc(s, t, p.(pc := At(Settle(status), i))).(patches := s.patches + [patch]))
  {
    hide CaseInv, JobsInv, SessionInv, PatchesInv, Authorised;
    var p, work := s.procs[t], s.jobs[t.job].work;
    var c, key := s.cases[work.incident], ExecKey(p.plan, i);
    assert ProcInv(s.jobs, s.cases, s.patches, t, p);
    SettleNext(s, t, status, i);
    var patch := Patch(work.incident, key, t, p.context.value, |c.trail|);
    assert SentFor(c, patch) by {
      var k :| 0 <= k < |c.trail| && c.trail[k] == ExecutionStarted(key, t);
    }
    PatchKeepsInv(SetProc(s, t, p.(pc := At(Settle(status), i))), patch);
  }

  /** Adding a patch nobody has sent before: the row's owner alone could send it, and it is past that. */
  lemma PatchKeepsInv(s: Sys, patch: Patch)
    requires Inv(s) && PatchInv(s.cases, patch) && Unsent(s.patches, patch.incident, patch.key)
    requires patch.owner in s.procs && s.procs[patch.owner].pc.At? && s.procs[patch.owner].pc.stage.Settle?
    ensures Kept(s, s.(patches := s.patches + [patch]))
  {
    hide CaseInv, JobsInv, SessionInv, ProcInv, SentFor;
    GrowsIsReflexive(s.cases);
    var s' := s.(patches := s.patches + [patch]);
    forall t | t in s'.procs ensures ProcInv(s'.jobs, s'.cases, s'.patches, t, s'.procs[t]) {
      PatchKeepsProc(s, patch, t);
    }
    forall k | 0 <= k < |s'.patches| ensures PatchInv(s'.cases, s'.patches[k]) {
      if k < |s.patches| { assert PatchInv(s.cases, s.patches[k]); }
    }
  }

  lemma PatchKeepsProc(s: Sys, patch: Patch, t: Token)
    requires t in s.procs && ProcInv(s.jobs, s.cases, s.patches, t, s.procs[t])
    requires PatchInv(s.cases, patch)
    requires t == patch.owner ==> s.procs[t].pc.At? && s.procs[t].pc.stage.Settle?
    ensures ProcInv(s.jobs, s.cases, s.patches + [patch], t, s.procs[t])
  {
  }

  lemma CheckRowKeepsInv(s: Sys, t: Token, w: World, i: nat)
    requires Inv(s) && t in s.procs && s.procs[t].pc == At(CheckRow, i) && t.job < |s.jobs| && s.jobs[t.job].work.incident in s.cases
    ensures Kept(s, ActionStep(s, t, w, CheckRow, i))
  {
    hide CaseInv, JobsInv, SessionInv, PatchesInv, Authorised;
    var p := s.procs[t];
    var c := s.cases[s.jobs[t.job].work.incident];
    var key := ExecKey(p.plan, i);
    assert ProcInv(s.jobs, s.cases, s.patches, t, p);
    var next :=
      if i >= |Actions(c.plans, p.plan)| then Conclude
      else if key !in c.execs then At(Prepare, i)
      else match c.execs[key].status
        case Succeeded => At(CheckRow, i + 1)
        case Started => At(MarkUnknown, i)
        case _ => Escalate;
    ProcUpdateKeepsInv(s, t, p.(pc := next));
  }

  lemma PrepareKeepsInv(s: Sys, t: Token, w: World, i: nat)
    requires Inv(s) && t in s.procs && s.procs[t].pc == At(Prepare, i) && t.job < |s.jobs| && s.jobs[t.job].work.incident in s.cases
    ensures Kept(s, ActionStep(s, t, w, Prepare, i))
  {
    hide CaseInv, JobsInv, SessionInv, PatchesInv, Authorised;
    var p := s.procs[t];
    assert ProcInv(s.jobs, s.cases, s.patches, t, p);
    ProcUpdateKeepsInv(s, t, p.(pc := At(if w.dryRunOk then Record else RecordFailed, i)));
  }

  /** A live executor changes its incident and moves on, in one transaction. */
  lemma WriteKeepsInv(s: Sys, t: Token, p': Proc, c': Case)
    requires Inv(s) && t in s.procs && t.job < |s.jobs| && Q.Live(s.jobs, t)
    requires s.jobs[t.job].work.incident in s.cases && s.procs[t].pc.At?
    requires var incident := s.jobs[t.job].work.incident;
             && Grows(s.cases[incident], c') && CaseInv(s.jobs, incident, c')
             && (forall key :: key in s.cases[incident].execs && c'.execs[key] != s.cases[incident].execs[key] ==> key.plan == s.procs[t].plan)
             && ProcInv(s.jobs, s.cases[incident := c'], s.patches, t, p')
    ensures Kept(s, SetCase(SetProc(s, t, p'), s.jobs[t.job].work.incident, c'))
  {
    hide CaseInv, JobsInv, SessionInv, PatchesInv, Authorised, RowInv;
    var incident := s.jobs[t.job].work.incident;
    assert ProcInv(s.jobs, s.cases, s.patches, t, s.procs[t]);
    assert ExecutorOf(s.jobs, t, PlanId(incident, s.procs[t].plan));
    CaseUpdateKeepsInv(s, SetCase(SetProc(s, t, p'), incident, c'), incident, c', Some(t));
  }

  lemma SettlingKeepsInv(s: Sys, t: Token, i: nat, status: ExecStatus, next: Pc)
    requires Inv(s) && t in s.procs && t.job < |s.jobs| && Q.Live(s.jobs, t)
    requires s.jobs[t.job].work.incident in s.cases && s.procs[t].pc.At? && s.procs[t].pc.index == i
    requires s.procs[t].pc.stage == MarkUnknown || s.procs[t].pc.stage.Settle?
    requires next == Escalate || (status == Succeeded && next == At(AnnounceSuccess, i))
    ensures var p, incident := s.procs[t], s.jobs[t.job].work.incident;
            var key := ExecKey(p.plan, i);
            key in s.cases[incident].execs
            && Kept(s, SetCase(SetProc(s, t, p.(pc := next)), incident, WithStatus(s.cases[incident], key, status)))
  {
    hide JobsInv, SessionInv, PatchesInv, Authorised, CaseInv;
    var p, incident := s.procs[t], s.jobs[t.job].work.incident;
    var c, key := s.cases[incident], ExecKey(p.plan, i);
    assert ProcInv(s.jobs, s.cases, s.patches, t, p);
    assert c.execs[key].status == Started;
    SettleKeepsCase(s.jobs, incident, c, key, status);
    var c' := WithStatus(c, key, status);
    GrowsKeepsCleared(c, c', s.jobs[t.job].work, p);
    WriteKeepsInv(s, t, p.(pc := next), c');
  }

  lemma InsertKeepsInv(s: Sys, t: Token, i: nat, status: ExecStatus)
    requires Inv(s) && t in s.procs && t.job < |s.jobs| && Q.Live(s.jobs, t)
    requires s.jobs[t.job].work.incident in s.cases
    requires s.procs[t].pc == At(Record, i) || s.procs[t].pc == At(RecordFailed, i)
    requires ExecKey(s.procs[t].plan, i) !in s.cases[s.jobs[t.job].work.incident].execs
    ensures var p, incident := s.procs[t], s.jobs[t.job].work.incident;
            var c := s.cases[incident];
            var c' := c.(execs := c.execs[ExecKey(p.plan, i) := Exec(status, t)]);
            && Kept(s, SetCase(SetProc(s, t, p.(pc := Escalate)), incident, c'))
            && (status == Started ==> Kept(s, SetCase(SetProc(s, t, p.(pc := At(Announce, i))), incident, c')))
  {
    hide JobsInv, SessionInv, Authorised, CaseInv;
    var p, incident := s.procs[t], s.jobs[t.job].work.incident;
    var c, key := s.cases[incident], ExecKey(p.plan, i);
    assert ProcInv(s.jobs, s.cases, s.patches, t, p);
    InsertKeepsCase(s.jobs, incident, c, key, Exec(status, t));
    var c' := c.(execs := c.execs[key := Exec(status, t)]);
    GrowsKeepsCleared(c, c', s.jobs[t.job].work, p);
    WriteKeepsInv(s, t, p.(pc := Escalate), c');
    if status == Started {
      NoPatchWithoutRow(s, incident, key);
      WriteKeepsInv(s, t, p.(pc := At(Announce, i)), c');
    }
  }

  lemma NoPatchWithoutRow(s: Sys, incident: IncidentId, key: ExecKey)
    requires Inv(s) && incident in s.cases && key !in s.cases[incident].execs
    ensures Unsent(s.patches, incident, key)
  {
    hide CaseInv, JobsInv, SessionInv, ProcInv;
    forall k | 0 <= k < |s.patches| ensures s.patches[k].incident != incident || s.patches[k].key != key {
      assert PatchInv(s.cases, s.patches[k]);
    }
  }

  lemma NoteKeepsInv(s: Sys, t: Token, i: nat)
    requires Inv(s) && t in s.procs && t.job < |s.jobs| && Q.Live(s.jobs, t)
    requires s.jobs[t.job].work.incident in s.cases
    ensures var p, incident := s.procs[t], s.jobs[t.job].work.incident;
            var c, key := s.cases[incident], ExecKey(p.plan, i);
            && (p.pc == At(Announce, i) ==>
                  Kept(s, SetCase(SetProc(s, t, p.(pc := At(Send, i))), incident, c.(trail := c.trail + [ExecutionStarted(key, t)]))))
            && (p.pc == At(AnnounceSuccess, i) ==>
                  Kept(s, SetCase(SetProc(s, t, p.(pc := At(CheckRow, i + 1))), incident, c.(trail := c.trail + [ExecutionSucceeded(key, t)]))))
  {
    hide JobsInv, SessionInv, Authorised, CaseInv, PatchesInv;
    var p, work := s.procs[t], s.jobs[t.job].work;
    var c, key := s.cases[work.incident], ExecKey(p.plan, i);
    assert ProcInv(s.jobs, s.cases, s.patches, t, p);
    if p.pc == At(Announce, i) || p.pc == At(AnnounceSuccess, i) {
      var e := if p.pc.stage == Announce then ExecutionStarted(key, t) else ExecutionSucceeded(key, t);
      var c' := c.(trail := c.trail + [e]);
      NoteKeepsCase(s.jobs, work.incident, c, e);
      GrowsKeepsCleared(c, c', work, p);
      assert c'.trail[|c.trail|] == e;
      WriteKeepsInv(s, t, p.(pc := if p.pc.stage == Announce then At(Send, i) else At(CheckRow, i + 1)), c');
    }
  }

  lemma ActionKeepsInv(s: Sys, t: Token, w: World, stage: Stage, i: nat)
    requires Inv(s) && t in s.procs && s.procs[t].pc == At(stage, i) && t.job < |s.jobs| && s.jobs[t.job].work.incident in s.cases
    ensures Kept(s, ActionStep(s, t, w, stage, i))
  {
    hide Inv, AllGrow;
    var live := Q.Live(s.jobs, t);
    var key := ExecKey(s.procs[t].plan, i);
    var c := s.cases[s.jobs[t.job].work.incident];
    StopKeepsInv(s, t, Stopped);
    match stage
    case CheckRow => CheckRowKeepsInv(s, t, w, i);
    case MarkUnknown => if live && key in c.execs { SettlingKeepsInv(s, t, i, Unknown, Escalate); }
    case Prepare => PrepareKeepsInv(s, t, w, i);
    case RecordFailed => if live && key !in c.execs { InsertKeepsInv(s, t, i, Failed); }
    case Record => if live && key !in c.execs { InsertKeepsInv(s, t, i, Started); }
    case Announce => if live { NoteKeepsInv(s, t, i); }
    case Send => SendKeepsInv(s, t, w, i);
    case Settle(status) =>
      if live && key in c.execs {
        SettlingKeepsInv(s, t, i, status, if status == Succeeded then At(AnnounceSuccess, i) else Escalate);
      }
    case AnnounceSuccess => if live { NoteKeepsInv(s, t, i); }
  }

  lemma StartKeepsInv(s: Sys, t: Token, w: World)
    requires Inv(s) && t in s.procs && s.procs[t].pc == Start
    ensures Kept(s, AdvanceStep(s, t, w))
  {
    hide CaseInv, JobsInv, SessionInv, PatchesInv;
    var p := s.procs[t];
    assert ProcInv(s.jobs, s.cases, s.patches, t, p);
    if s.cases[s.jobs[t.job].work.incident].row.state == Executing { ProcUpdateKeepsInv(s, t, p.(pc := Review)); }
    StopKeepsInv(s, t, Stopped);
  }

  lemma AdvanceKeepsInv(s: Sys, t: Token, w: World)
    requires Inv(s)
    ensures Kept(s, AdvanceStep(s, t, w))
  {
    hide Inv, AllGrow, ActionStep;
    NothingHappens(s);
    if t in s.procs && t.job < |s.jobs| && s.jobs[t.job].work.incident in s.cases {
      match s.procs[t].pc
      case Start => StartKeepsInv(s, t, w);
      case Review => ReviewKeepsInv(s, t, w);
      case At(stage, i) => ActionKeepsInv(s, t, w, stage, i);
      case Conclude => ConcludeKeepsInv(s, t, w);
      case Escalate => EscalateKeepsInv(s, t, w);
      case Stopped =>
    }
  }

  // ----- Verification -----

  function VerifiedCase(c: Case, run: VerifyRun): Case {
    MoveTo(c.(trail := c.trail + [VerificationEnded(run)]), if run.passed then Resolved else Escalated)
  }

  lemma VerifiedKeepsCase(jobs: seq<Q.Job>, incident: IncidentId, c: Case, run: VerifyRun)
    requires CaseInv(jobs, incident, c) && c.row.state == Verifying && FromLoop(run)
    ensures CaseInv(jobs, incident, VerifiedCase(c, run)) && Grows(c, VerifiedCase(c, run))
  {
    hide IsPath, MovesOf, PlansInv;
    var noted := c.(trail := c.trail + [VerificationEnded(run)]);
    var to := if run.passed then Resolved else Escalated;
    NoteKeepsCase(jobs, incident, c, VerificationEnded(run));
    MoveKeepsPath(noted, to);
    RowsKept(jobs, incident, c, to);
    assert OutcomesInv(c.plans, c.approvals, c.timedOut, to);
    assert MoveTo(noted, to).trail[|c.trail|] == VerificationEnded(run);
  }

  lemma EndVerifyKeepsInv(s: Sys, e: Event)
    requires Inv(s) && e.EndVerify?
    ensures Kept(s, EndVerifyStep(s, e))
  {
    hide CaseInv, JobsInv, SessionInv, PatchesInv, ProcInv;
    if LiveFor(s, e.token, Verify) && FromLoop(e.run) {
      var incident := s.jobs[e.token.job].work.incident;
      var c := s.cases[incident];
      if c.row.state == Verifying {
        VerifiedKeepsCase(s.jobs, incident, c, e.run);
        CaseUpdateKeepsInv(s, EndVerifyStep(s, e), incident, VerifiedCase(c, e.run), None);
      }
    }
  }

  // ----- Every event, every run -----

  lemma ReadKeepsInv(s: Sys, e: Event)
    requires Inv(s) && (e.Begin? || e.ReadPlans? || e.ReadApproval?)
    ensures Kept(s, Step(s, e))
  {
    hide CaseInv, JobsInv, ProcInv, PatchesInv;
    if e.session in s.sessions { assert SessionInv(s.cases, s.sessions[e.session]); }
    var s' := Step(s, e);
    if e.session in s'.sessions {
      var session := s'.sessions[e.session];
      assert SessionInv(s.cases, session);
      SessionUpdateKeepsInv(s, e.session, session);
    }
  }

  lemma StepKeepsInv(s: Sys, e: Event)
    requires Inv(s)
    ensures Kept(s, Step(s, e))
  {
    NothingHappens(s);
    hide Inv, AllGrow, AdvanceStep, SubmitStep, DecideStep, TimeOutStep, EndVerifyStep, QueueStep;
    match e
    case Open(incident) => if incident !in s.cases { OpenKeepsInv(s, incident); }
    case OtherMove(incident, to) => if incident in s.cases && MayMove(s.cases[incident], to) { OtherMoveKeepsInv(s, incident, to); }
    case Queue(op) => if MayQueue(op) { QueueKeepsInv(s, op); }
    case Begin(_, _) => ReadKeepsInv(s, e);
    case ReadPlans(_) => ReadKeepsInv(s, e);
    case ReadApproval(_) => ReadKeepsInv(s, e);
    case Submit(_, _, _, _, _, _) => SubmitKeepsInv(s, e);
    case Decide(_, _, _, _, _, _) => DecideKeepsInv(s, e);
    case TimeOut(_, _) => TimeOutKeepsInv(s, e);
    case Advance(t, w) => AdvanceKeepsInv(s, t, w);
    case Crash(t) => if t in s.procs { StopKeepsInv(s, t, Stopped); }
    case EndVerify(_, _) => EndVerifyKeepsInv(s, e);
  }

  /** The invariant holds after every run, and nothing a run has recorded is ever undone. */
  lemma {:induction false} RunKeepsInv(events: seq<Event>, m: nat)
    requires m <= |events|
    ensures Inv(Run(events))
    ensures AllGrow(Run(events[..m]).cases, Run(events).cases)
    decreases |events|
  {
    hide Inv, Step, Grows;
    if m == |events| {
      assert events[..m] == events;
      GrowsIsReflexive(Run(events).cases);
    }
    if events == [] {
      EmptyIsFine();
    } else {
      var shorter := events[..|events| - 1];
      if m < |events| { assert shorter[..m] == events[..m]; }
      RunKeepsInv(shorter, if m < |events| then m else 0);
      StepKeepsInv(Run(shorter), events[|events| - 1]);
      if m < |events| {
        GrowthComposes(Run(events[..m]).cases, Run(shorter).cases, Run(events).cases);
      }
    }
  }

  lemma EmptyIsFine()
    ensures Inv(Sys([], map[], map[], map[], []))
  {
  }

  lemma GrowthComposes(a: map<IncidentId, Case>, b: map<IncidentId, Case>, c: map<IncidentId, Case>)
    requires AllGrow(a, b) && AllGrow(b, c)
    ensures AllGrow(a, c)
  {
    hide Grows;
    forall incident | incident in a ensures Grows(a[incident], c[incident]) {
      GrowsIsTransitive(a[incident], b[incident], c[incident]);
    }
  }
}
