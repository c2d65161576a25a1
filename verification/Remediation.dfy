/**
 * The remediation protocol over one shared database: plans, approvals, timeouts, executors and
 * verifiers. Every transaction is one atomic event; requests read first and commit later, and an
 * executor advances one transaction or one call at a time, so anything can happen in between.
 */
module Remediation {
  import opened Domain
  import opened Incidents
  import opened Policy
  import Q = JobQueue

  // ----- The database -----

  /** sha256 over the incident, the plan's number and its content; a free constructor, so collision-free. */
  datatype PlanHash = PlanHash(incident: IncidentId, number: nat, plan: RemediationPlan)

  /** `context` is what the policy looked at when it reached `verdict`. */
  datatype PlanRow = PlanRow(
    plan: RemediationPlan, proposedBy: Actor, hash: PlanHash, verdict: Verdict, expiresAt: Option<int>,
    context: PolicyContext)

  datatype Choice = Approve | Reject

  datatype Approval = Approval(hash: PlanHash, approver: Actor, choice: Choice)

  datatype ExecStatus = Started | Succeeded | Failed | Unknown

  /** A row of `executions`, unique per plan and action index; `owner` is the claim that inserted it. */
  datatype Exec = Exec(status: ExecStatus, owner: Token)

  datatype ExecKey = ExecKey(plan: nat, index: nat)

  /** How a verify run ended: its samples (None is no data), the threshold, and the streak it asked for. */
  datatype VerifyRun = VerifyRun(samples: seq<Option<real>>, threshold: real, checks: int, passed: bool)

  /** The audit rows about one incident. */
  datatype TrailEvent =
    | Transitioned(move: Move)
    | PlanRecorded(plan: nat)
    | PlanDecided(plan: nat, choice: Choice)
    | ExecutionStarted(key: ExecKey, owner: Token)
    | ExecutionSucceeded(key: ExecKey, owner: Token)
    | VerificationEnded(run: VerifyRun)

  /**
   * Everything stored about one incident. Plan number n is plans[n-1]; the current plan is the last.
   * `timedOut` are the plans whose approval deadline escalated the incident (the reason of that move).
   */
  datatype Case = Case(
    row: IncidentRow,
    trail: seq<TrailEvent>,
    plans: seq<PlanRow>,
    approvals: map<nat, Approval>,
    timedOut: set<nat>,
    execs: map<ExecKey, Exec>)

  // ----- What runs against it -----

  datatype Stage =
    | CheckRow                          // read the action's execution row
    | MarkUnknown                       // an interrupted attempt left it started
    | Prepare                           // work the change out and dry-run it
    | RecordFailed                      // the dry run was refused
    | Record                            // commit the intent
    | Announce                          // write execution.started
    | Send                              // send the change
    | Settle(status: ExecStatus)        // record what happened
    | AnnounceSuccess                   // write execution.succeeded

  datatype Pc = Start | Review | At(stage: Stage, index: nat) | Conclude | Escalate | Stopped

  /** An executor's run of one claim: where it is, the plan it loaded and the context of its re-review. */
  datatype Proc = Proc(pc: Pc, plan: nat, context: Option<PolicyContext>)

  /** A request or job transaction that has read and not yet written. */
  datatype Session = Session(incident: IncidentId, seen: IncidentRow, plans: Option<nat>, decided: Option<bool>)

  /** A real, not dry-run, patch; `trail` is how long the incident's audit trail was when it was sent. */
  datatype Patch = Patch(incident: IncidentId, key: ExecKey, owner: Token, context: PolicyContext, trail: nat)

  datatype Sys = Sys(
    jobs: seq<Q.Job>,
    cases: map<IncidentId, Case>,
    procs: map<Token, Proc>,
    sessions: map<nat, Session>,
    patches: seq<Patch>)

  datatype SendResult = Applied | Refused | NoAnswer

  /** What the outside world answers during one executor step. */
  datatype World = World(context: PolicyContext, dryRunOk: bool, noop: bool, sent: SendResult, queueing: Queueing)

  datatype Queueing = Queueing(priority: int, maxAttempts: int, agingStep: int, delay: int, now: int)

  datatype Submitter = Planner(token: Token) | Responder(who: Actor)

  datatype Event =
    | Open(incident: IncidentId)
    | OtherMove(incident: IncidentId, to: State)
    | Queue(op: Q.Op)
    | Begin(session: nat, incident: IncidentId)
    | ReadPlans(session: nat)
    | ReadApproval(session: nat)
    | Submit(session: nat, plan: RemediationPlan, submitter: Submitter, context: PolicyContext, ttl: int, queueing: Queueing)
    | Decide(session: nat, approver: Actor, choice: Choice, hashSeen: PlanHash, now: int, queueing: Queueing)
    | TimeOut(session: nat, token: Token)
    | Advance(token: Token, world: World)
    | Crash(token: Token)
    | EndVerify(token: Token, run: VerifyRun)

  const NEW_CASE := Case(NEW_ROW, [], [], map[], {}, map[])
  const PLANNER_ACTOR := "agent:planner"

  /** The kinds of job that only this protocol enqueues, each bound to one plan. */
  predicate PlanBound(kind: JobKind) { kind == Execute || kind == Verify || kind == ApprovalTimeout }

  function PlanJob(kind: JobKind, id: PlanId, q: Queueing): Q.Op {
    Q.Enqueue(
      Q.EnqueueArgs(Q.Work(kind, id.incident, Some(id)), Some(ForPlan(id, kind)), q.priority, q.maxAttempts, q.agingStep, q.delay),
      q.now)
  }

  /** Move the incident on and write the audit row. */
  function MoveTo(c: Case, to: State): Case {
    c.(row := IncidentRow(to, c.row.version + 1, c.row.closed || Terminal(to)),
       trail := c.trail + [Transitioned(Move(c.row.state, to, c.row.version + 1))])
  }

  function SetProc(s: Sys, t: Token, p: Proc): Sys { s.(procs := s.procs[t := p]) }

  function SetCase(s: Sys, incident: IncidentId, c: Case): Sys { s.(cases := s.cases[incident := c]) }

  predicate LiveFor(s: Sys, t: Token, kind: JobKind) {
    Q.Live(s.jobs, t) && s.jobs[t.job].work.kind == kind && s.jobs[t.job].work.incident in s.cases
  }

  // ----- Submitting, deciding, timing out -----

  function ProposedBy(submitter: Submitter): Actor {
    match submitter case Planner(_) => PLANNER_ACTOR case Responder(who) => who
  }

  /** The planner's job submits from Diagnosed under its fence; a responder revises a waiting plan. */
  predicate MaySubmit(s: Sys, session: Session, submitter: Submitter) {
    match submitter
    case Planner(t) =>
      LiveFor(s, t, JobKind.Plan) && s.jobs[t.job].work.incident == session.incident && session.seen.state == Diagnosed
    case Responder(_) => session.seen.state == AwaitingApproval
  }

  ghost function NewPlan(id: PlanId, plan: RemediationPlan, author: Actor, context: PolicyContext, now: int, ttl: int): PlanRow {
    var verdict := Judge(plan, context);
    PlanRow(plan, author, PlanHash(id.incident, id.number, plan), verdict,
            if verdict == RequireApproval then Some(now + ttl) else None, context)
  }

  function StateFor(v: Verdict): State {
    match v case Deny => Escalated case RequireApproval => AwaitingApproval case Allow => Executing
  }

  /** The case once a plan, its verdict and the three moves are committed. */
  function Submitted(c: Case, row: PlanRow): Case {
    var recorded := c.(plans := c.plans + [row], trail := c.trail + [PlanRecorded(|c.plans| + 1)]);
    MoveTo(MoveTo(MoveTo(recorded, Planned), SafetyReviewed), StateFor(row.verdict))
  }

  /** The transaction commits: it may submit, the number it read is still free, and the row has not moved on. */
  predicate SubmitCommits(s: Sys, id: nat, submitter: Submitter) {
    && id in s.sessions
    && s.sessions[id].incident in s.cases
    && var session, c := s.sessions[id], s.cases[s.sessions[id].incident];
       && MaySubmit(s, session, submitter)
       && session.plans == Some(|c.plans|)    // else the unique index on (incident, seq)
       && c.row.state == session.seen.state && c.row.version == session.seen.version    // else StaleVersion
  }

  ghost function SubmitStep(s: Sys, e: Event): Sys
    requires e.Submit?
  {
    if !SubmitCommits(s, e.session, e.submitter) then s
    else
      var incident := s.sessions[e.session].incident;
      var c := s.cases[incident];
      var id := PlanId(incident, |c.plans| + 1);
      var row := NewPlan(id, e.plan, ProposedBy(e.submitter), e.context, e.queueing.now, e.ttl);
      var moved := SetCase(s, incident, Submitted(c, row));
      match row.verdict
      case Deny => moved
      case RequireApproval => moved.(jobs := Q.Apply(s.jobs, PlanJob(ApprovalTimeout, id, e.queueing.(delay := e.ttl))))
      case Allow => moved.(jobs := Q.Apply(s.jobs, PlanJob(Execute, id, e.queueing.(delay := 0))))
  }

  /** What a decision is checked against before anything is written. */
  predicate MayDecide(c: Case, session: Session, approver: Actor, choice: Choice, hashSeen: PlanHash, now: int) {
    && session.seen.state == AwaitingApproval
    && session.plans.Some? && 1 <= session.plans.value <= |c.plans|
    && var plan := c.plans[session.plans.value - 1];
       && plan.verdict == RequireApproval
       && hashSeen == plan.hash
       && (plan.expiresAt.Some? ==> now < plan.expiresAt.value)
       && !(choice == Approve && approver == plan.proposedBy)
  }

  function Decided(c: Case, number: nat, approval: Approval): Case {
    MoveTo(c.(approvals := c.approvals[number := approval], trail := c.trail + [PlanDecided(number, approval.choice)]),
           if approval.choice == Approve then Executing else Escalated)
  }

  /** The decision commits: it may be taken, the plan has none yet, and the row has not moved on. */
  predicate DecisionCommits(s: Sys, e: Event)
    requires e.Decide?
  {
    && e.session in s.sessions
    && s.sessions[e.session].incident in s.cases
    && var session, c := s.sessions[e.session], s.cases[s.sessions[e.session].incident];
       && MayDecide(c, session, e.approver, e.choice, e.hashSeen, e.now)
       && session.plans.value !in c.approvals    // the unique plan_id
       && c.row.state == AwaitingApproval && c.row.version == session.seen.version    // else StaleVersion
  }

  function DecideStep(s: Sys, e: Event): Sys
    requires e.Decide?
  {
    if !DecisionCommits(s, e) then s
    else
      var incident, number := s.sessions[e.session].incident, s.sessions[e.session].plans.value;
      var c := s.cases[incident];
      var moved := SetCase(s, incident, Decided(c, number, Approval(c.plans[number - 1].hash, e.approver, e.choice)));
      if e.choice == Reject then moved
      else moved.(jobs := Q.Apply(s.jobs, PlanJob(Execute, PlanId(incident, number), e.queueing.(delay := 0))))
  }

  /** The timeout commits: the plan of the job is the one waiting, undecided, and the row has not moved on. */
  predicate TimeOutCommits(s: Sys, id: nat, t: Token) {
    && id in s.sessions && LiveFor(s, t, ApprovalTimeout)
    && s.sessions[id].incident == s.jobs[t.job].work.incident
    && var session, c := s.sessions[id], s.cases[s.sessions[id].incident];
       && session.seen.state == AwaitingApproval
       && session.plans.Some? && 1 <= session.plans.value
       && s.jobs[t.job].work.plan == Some(PlanId(session.incident, session.plans.value))
       && session.decided == Some(false)
       && c.row.state == AwaitingApproval && c.row.version == session.seen.version
  }

  function TimedOut(c: Case, number: nat): Case {
    MoveTo(c, Escalated).(timedOut := c.timedOut + {number})
  }

  function TimeOutStep(s: Sys, e: Event): Sys
    requires e.TimeOut?
  {
    if !TimeOutCommits(s, e.session, e.token) then s
    else
      var session := s.sessions[e.session];
      SetCase(s, session.incident, TimedOut(s.cases[session.incident], session.plans.value))
  }

  // ----- The executor -----

  /** Why the plan must not run now; the policy is asked again. */
  ghost predicate MustRefuse(c: Case, work: Q.Work, context: PolicyContext) {
    || c.plans == []
    || work.plan != Some(PlanId(work.incident, |c.plans|))
    || !Authorised(c, context)
  }

  /** The current plan was not denied, is not denied now, and has the approval it needs. */
  ghost predicate Authorised(c: Case, context: PolicyContext)
    requires c.plans != []
  {
    var number, plan := |c.plans|, c.plans[|c.plans| - 1];
    && plan.verdict != Deny
    && Judge(plan.plan, context) != Deny
    && (plan.verdict == RequireApproval || Judge(plan.plan, context) == RequireApproval ==>
          && number in c.approvals
          && c.approvals[number].choice == Approve
          && c.approvals[number].hash == plan.hash
          && c.approvals[number].approver != plan.proposedBy)
  }

  function Actions(plans: seq<PlanRow>, number: nat): seq<Action> {
    if 1 <= number <= |plans| then plans[number - 1].plan.actions else []
  }

  /** One step of the executor's handler for an `execute` job. */
  ghost function AdvanceStep(s: Sys, t: Token, w: World): Sys {
    if t !in s.procs || t.job >= |s.jobs| || s.jobs[t.job].work.incident !in s.cases then s
    else
      var p, work, live := s.procs[t], s.jobs[t.job].work, Q.Live(s.jobs, t);
      var c := s.cases[work.incident];
      match p.pc
      case Start => SetProc(s, t, p.(pc := if c.row.state == Executing then Review else Stopped))
      case Review =>
        if MustRefuse(c, work, w.context) then SetProc(s, t, p.(pc := Escalate))
        else SetProc(s, t, Proc(At(CheckRow, 0), |c.plans|, Some(w.context)))
      case At(stage, i) => ActionStep(s, t, w, stage, i)
      case Conclude =>
        var stopped := SetProc(s, t, p.(pc := Stopped));
        if !live || c.row.state != Executing then stopped
        else
          SetCase(stopped, work.incident, MoveTo(c, Verifying)).(
            jobs := Q.Apply(s.jobs, PlanJob(Verify, PlanId(work.incident, p.plan), w.queueing)))
      case Escalate =>
        var stopped := SetProc(s, t, p.(pc := Stopped));
        if !live || Terminal(c.row.state) then stopped else SetCase(stopped, work.incident, MoveTo(c, Escalated))
      case Stopped => s
  }

  /** One step on action `i` of the plan: the intent is committed before the change is sent. */
  function ActionStep(s: Sys, t: Token, w: World, stage: Stage, i: nat): Sys
    requires t in s.procs && t.job < |s.jobs| && s.jobs[t.job].work.incident in s.cases
  {
    var p, incident, live := s.procs[t], s.jobs[t.job].work.incident, Q.Live(s.jobs, t);
    var c := s.cases[incident];
    var key := ExecKey(p.plan, i);
    var stopped := SetProc(s, t, p.(pc := Stopped));
    match stage
    case CheckRow =>
      if i >= |Actions(c.plans, p.plan)| then SetProc(s, t, p.(pc := Conclude))
      else if key !in c.execs then SetProc(s, t, p.(pc := At(Prepare, i)))
      else
        (match c.execs[key].status
         case Succeeded => SetProc(s, t, p.(pc := At(CheckRow, i + 1)))
         case Started => SetProc(s, t, p.(pc := At(MarkUnknown, i)))
         case _ => SetProc(s, t, p.(pc := Escalate)))
    case MarkUnknown =>
      if !live || key !in c.execs then stopped
      else SetCase(SetProc(s, t, p.(pc := Escalate)), incident, WithStatus(c, key, Unknown))
    case Prepare => SetProc(s, t, p.(pc := At(if w.dryRunOk then Record else RecordFailed, i)))
    case RecordFailed =>
      if !live || key in c.execs then stopped
      else SetCase(SetProc(s, t, p.(pc := Escalate)), incident, c.(execs := c.execs[key := Exec(Failed, t)]))
    case Record =>
      if !live || key in c.execs then stopped    // LeaseLost, or the unique key
      else SetCase(SetProc(s, t, p.(pc := At(Announce, i))), incident, c.(execs := c.execs[key := Exec(Started, t)]))
    case Announce =>
      if !live then stopped
      else SetCase(SetProc(s, t, p.(pc := At(Send, i))), incident, c.(trail := c.trail + [ExecutionStarted(key, t)]))
    case Send =>
      if p.context.None? then stopped
      else if w.noop then SetProc(s, t, p.(pc := At(Settle(Succeeded), i)))
      else
        var status := match w.sent case Applied => Succeeded case Refused => Failed case NoAnswer => Unknown;
        SetProc(s, t, p.(pc := At(Settle(status), i))).(
          patches := s.patches + [Patch(incident, key, t, p.context.value, |c.trail|)])
    case Settle(status) =>
      if !live || key !in c.execs then stopped
      else
        SetCase(SetProc(s, t, p.(pc := if status == Succeeded then At(AnnounceSuccess, i) else Escalate)), incident,
                WithStatus(c, key, status))
    case AnnounceSuccess =>
      if !live then stopped
      else SetCase(SetProc(s, t, p.(pc := At(CheckRow, i + 1))), incident, c.(trail := c.trail + [ExecutionSucceeded(key, t)]))
  }

  /** `UPDATE executions SET status = ... WHERE idempotency_key = ...`, with no condition on the old status. */
  function WithStatus(c: Case, key: ExecKey, status: ExecStatus): Case
    requires key in c.execs
  {
    c.(execs := c.execs[key := c.execs[key].(status := status)])
  }

  // ----- Verification -----

  predicate Healthy(sample: Option<real>, threshold: real) {
    sample.Some? && sample.value < threshold
  }

  /** How many of the latest samples were healthy without a break. */
  function Streak(samples: seq<Option<real>>, threshold: real): nat {
    if samples == [] || !Healthy(samples[|samples| - 1], threshold) then 0
    else 1 + Streak(samples[..|samples| - 1], threshold)
  }

  /** A run only passes on a long enough streak. */
  predicate FromLoop(run: VerifyRun) {
    run.passed ==> run.checks <= Streak(run.samples, run.threshold)
  }

  function EndVerifyStep(s: Sys, e: Event): Sys
    requires e.EndVerify?
  {
    if !LiveFor(s, e.token, Verify) || !FromLoop(e.run) then s
    else
      var incident := s.jobs[e.token.job].work.incident;
      var c := s.cases[incident];
      if c.row.state != Verifying then s
      else
        SetCase(s, incident,
                MoveTo(c.(trail := c.trail + [VerificationEnded(e.run)]), if e.run.passed then Resolved else Escalated))
  }

  // ----- All events -----

  /** Triage, investigation and giving up: allowed moves that do not touch plans. */
  predicate MayMove(c: Case, to: State) {
    to in {Triaged, Investigating, Diagnosed, Escalated} && Allowed(c.row.state, to)
  }

  /** Jobs bound to a plan are only enqueued by this protocol itself, and only they use a plan's keys. */
  predicate MayQueue(op: Q.Op) {
    op.Enqueue? ==> !PlanBound(op.what.work.kind) && !(op.what.key.Some? && op.what.key.value.ForPlan?)
  }

  /** A claim of an `execute` job starts an executor run. */
  function QueueStep(s: Sys, op: Q.Op): Sys {
    var jobs := Q.Apply(s.jobs, op);
    if op.Claim? then
      var k := Q.Next(s.jobs, op.args, |s.jobs|);
      if k.Some? && s.jobs[k.value].work.kind == Execute
      then s.(jobs := jobs, procs := s.procs[Token(k.value, s.jobs[k.value].fence + 1) := Proc(Start, 0, None)])
      else s.(jobs := jobs)
    else s.(jobs := jobs)
  }

  /** The system after one event; an event that is not possible changes nothing. */
  ghost function Step(s: Sys, e: Event): Sys {
    match e
    case Open(incident) => if incident in s.cases then s else SetCase(s, incident, NEW_CASE)
    case OtherMove(incident, to) =>
      if incident !in s.cases || !MayMove(s.cases[incident], to) then s
      else SetCase(s, incident, MoveTo(s.cases[incident], to))
    case Queue(op) => if MayQueue(op) then QueueStep(s, op) else s
    case Begin(id, incident) =>
      if incident !in s.cases then s
      else s.(sessions := s.sessions[id := Session(incident, s.cases[incident].row, None, None)])
    case ReadPlans(id) =>
      if id !in s.sessions || s.sessions[id].incident !in s.cases then s
      else s.(sessions := s.sessions[id := s.sessions[id].(plans := Some(|s.cases[s.sessions[id].incident].plans|), decided := None)])
    case ReadApproval(id) =>
      if id !in s.sessions || s.sessions[id].incident !in s.cases || s.sessions[id].plans.None? then s
      else
        var session := s.sessions[id];
        s.(sessions := s.sessions[id := session.(decided := Some(session.plans.value in s.cases[session.incident].approvals))])
    case Submit(_, _, _, _, _, _) => SubmitStep(s, e)
    case Decide(_, _, _, _, _, _) => DecideStep(s, e)
    case TimeOut(_, _) => TimeOutStep(s, e)
    case Advance(t, w) => AdvanceStep(s, t, w)
    case Crash(t) => if t in s.procs then SetProc(s, t, s.procs[t].(pc := Stopped)) else s
    case EndVerify(_, _) => EndVerifyStep(s, e)
  }

  ghost function Run(events: seq<Event>): Sys {
    if events == [] then Sys([], map[], map[], map[], [])
    else Step(Run(events[..|events| - 1]), events[|events| - 1])
  }
}
