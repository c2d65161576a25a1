/**
 * The protocol as the code runs it: tables that statements update in place, transactions that roll
 * back, and the executor's handler as a loop other requests interleave with. Each transaction is
 * proved to be exactly one event, so what holds of every run holds of these tables at any time.
 */
module RemediationService {
  import opened Domain
  import opened Incidents
  import opened Policy
  import opened Remediation
  import opened RemediationSafety
  import opened RemediationRecord
  import Q = JobQueue
  import ExecutorHistory

  /** What happens around one step of a handler: others' events before it, the world's answers during it. */
  datatype Beat = Beat(others: seq<Event>, world: World)

  datatype JobEnd = Done | NothingToDo | HandedOver | LeaseLost

  /** How a verify job ends: it recorded its run and moved the incident on, or found that it must not. */
  datatype VerifyEnd = Recorded(run: VerifyRun) | NotVerifying | NotRecorded

  /** The executor's next transaction finds its claim gone, or the row not as it left it. */
  predicate Loses(s: Sys, t: Token) {
    && t in s.procs && t.job < |s.jobs| && s.jobs[t.job].work.incident in s.cases
    && var c := s.cases[s.jobs[t.job].work.incident];
       match s.procs[t].pc
       case Conclude => !Q.Live(s.jobs, t) || c.row.state != Executing
       case At(stage, i) =>
         var known := ExecKey(s.procs[t].plan, i) in c.execs;
         (match stage
          case Record => !Q.Live(s.jobs, t) || known
          case RecordFailed => !Q.Live(s.jobs, t) || known
          case MarkUnknown => !Q.Live(s.jobs, t) || !known
          case Settle(_) => !Q.Live(s.jobs, t) || !known
          case Announce => !Q.Live(s.jobs, t)
          case AnnounceSuccess => !Q.Live(s.jobs, t)
          case _ => false)
       case _ => false
  }

  /** What the handler's last step found. */
  predicate Finds(s: Sys, t: Token, end: JobEnd) {
    && t in s.procs && t.job < |s.jobs| && s.jobs[t.job].work.incident in s.cases
    && match end
       case Done => Concludes(s, t)
       case NothingToDo => s.procs[t].pc == Start && s.cases[s.jobs[t.job].work.incident].row.state != Executing
       case HandedOver => s.procs[t].pc == Escalate
       case LeaseLost => Loses(s, t)
  }

  /** The handler has come to its end, and its last step is why it ended so. */
  ghost predicate EndsAs(events: seq<Event>, t: Token, end: JobEnd) {
    && events != [] && events[|events| - 1].Advance? && events[|events| - 1].token == t
    && Finds(Run(events[..|events| - 1]), t, end)
    && t in Run(events).procs && Run(events).procs[t].pc == Stopped
  }

  /** One step more, and the handler has ended. */
  lemma EndsNow(before: seq<Event>, t: Token, w: World, end: JobEnd)
    requires Finds(Run(before), t, end)
    requires t in Run(before + [Advance(t, w)]).procs && Run(before + [Advance(t, w)]).procs[t].pc == Stopped
    ensures EndsAs(before + [Advance(t, w)], t, end)
  {
    hide Run, Finds;
    assert (before + [Advance(t, w)])[..|before|] == before;
  }

  class Database {
    var jobs: seq<Q.Job>
    var cases: map<IncidentId, Case>
    var procs: map<Token, Proc>
    var sessions: map<nat, Session>
    var patches: seq<Patch>
    ghost var events: seq<Event>

    function View(): Sys
      reads this
    {
      Sys(jobs, cases, procs, sessions, patches)
    }

    /** The tables are what some run of the protocol leaves. */
    ghost predicate Valid()
      reads this
    {
      View() == Run(events)
    }

    constructor ()
      ensures Valid() && events == []
    {
      jobs, cases, procs, sessions, patches, events := [], map[], map[], map[], [], [];
    }

    ghost method Log(e: Event, before: Sys)
      requires before == Run(events) && View() == Step(before, e)
      modifies `events
      ensures Valid() && events == old(events) + [e]
    {
      events := events + [e];
      assert events[..|events| - 1] == old(events);
    }

    // ----- Statements -----

    /** `UPDATE incidents ... WHERE state AND version`, with its audit row; false raises out of the transaction. */
    method Transition(incident: IncidentId, from: State, to: State, expected: nat) returns (ok: bool)
      requires incident in cases
      modifies `cases
      ensures ok <==> Guarded(old(cases)[incident].row, from, to, expected).Moved?
      ensures cases == if ok then old(cases)[incident := MoveTo(old(cases)[incident], to)] else old(cases)
    {
      var c := cases[incident];
      match Guarded(c.row, from, to, expected)
      case Refused(_) => ok := false;
      case Moved(row) =>
        cases := cases[incident := c.(row := row, trail := c.trail + [Transitioned(Move(from, to, row.version))])];
        ok := true;
    }

    method Enqueue(op: Q.Op)
      requires op.Enqueue?
      modifies `jobs
      ensures jobs == Q.Apply(old(jobs), op)
    {
      var taken := exists i :: 0 <= i < |jobs| && op.what.key.Some? && jobs[i].key == op.what.key;
      if !taken { jobs := jobs + [Q.NewJob(op.what, op.now)]; }
    }

    // ----- Requests -----

    /** Record a plan and its verdict and move the incident on; any refusal rolls everything back. */
    method Submit(e: Event) returns (ok: bool)
      requires e.Submit? && Valid()
      modifies this
      ensures Valid() && events == old(events) + [e]
      ensures ok <==> SubmitCommits(old(View()), e.session, e.submitter)
      ensures View() == Step(old(View()), e)
    {
      ghost var before := View();
      var savedJobs, savedCases := jobs, cases;
      ok := TrySubmit(e);
      if !ok { jobs, cases := savedJobs, savedCases; }
      Log(e, before);
    }

    /** The statements of a submission, in order; false as soon as one of them raises. */
    method TrySubmit(e: Event) returns (ok: bool)
      requires e.Submit?
      modifies `jobs, `cases
      ensures ok <==> SubmitCommits(old(View()), e.session, e.submitter)
      ensures ok ==> View() == SubmitStep(old(View()), e)
    {
      hide Submitted, Judge;
      if e.session !in sessions || sessions[e.session].incident !in cases { return false; }
      var session := sessions[e.session];
      if session.plans.None? || !MaySubmit(View(), session, e.submitter) { return false; }
      var decision := Evaluate(e.plan, e.context);
      var id := PlanId(session.incident, session.plans.value + 1);
      if id.number != |cases[id.incident].plans| + 1 { return false; }    // the unique index
      var row := PlanRow(
        e.plan, ProposedBy(e.submitter), PlanHash(id.incident, id.number, e.plan), decision.verdict,
        if decision.verdict == RequireApproval then Some(e.queueing.now + e.ttl) else None, e.context);
      ok := InsertAndMove(id.incident, row, session.seen);
      if !ok { return; }
      match decision.verdict
      case Deny =>
      case RequireApproval => Enqueue(PlanJob(ApprovalTimeout, id, e.queueing.(delay := e.ttl)));
      case Allow => Enqueue(PlanJob(Execute, id, e.queueing.(delay := 0)));
    }

    /** Insert the plan, then three guarded moves, each expecting the version the one before returned. */
    method InsertAndMove(incident: IncidentId, row: PlanRow, seen: IncidentRow) returns (ok: bool)
      requires incident in cases && (seen.state == Diagnosed || seen.state == AwaitingApproval)
      modifies `cases
      ensures ok <==> old(cases)[incident].row.state == seen.state && old(cases)[incident].row.version == seen.version
      ensures ok ==> cases == old(cases)[incident := Submitted(old(cases)[incident], row)]
      ensures ok ==> Follows(row.verdict, cases[incident].row.state)
    {
      var c := cases[incident];
      cases := cases[incident := c.(plans := c.plans + [row], trail := c.trail + [PlanRecorded(|c.plans| + 1)])];
      ok := Transition(incident, seen.state, Planned, seen.version);
      if !ok { return; }
      ok := Transition(incident, Planned, SafetyReviewed, seen.version + 1);
      if !ok { return; }
      ok := Transition(incident, SafetyReviewed, StateFor(row.verdict), seen.version + 2);
    }

    /** Record a decision on the waiting plan and move the incident on, or roll back. */
    method Decide(e: Event) returns (ok: bool)
      requires e.Decide? && Valid()
      modifies this
      ensures Valid() && events == old(events) + [e]
      ensures ok <==> DecisionCommits(old(View()), e)
      ensures View() == Step(old(View()), e)
    {
      ghost var before := View();
      var savedJobs, savedCases := jobs, cases;
      ok := TryDecide(e);
      if !ok { jobs, cases := savedJobs, savedCases; }
      Log(e, before);
    }

    method TryDecide(e: Event) returns (ok: bool)
      requires e.Decide?
      modifies `jobs, `cases
      ensures ok <==> DecisionCommits(old(View()), e)
      ensures ok ==> View() == DecideStep(old(View()), e)
    {
      hide Q.Apply, Decided;
      if e.session !in sessions || sessions[e.session].incident !in cases { return false; }
      var session := sessions[e.session];
      var incident := session.incident;
      var c := cases[incident];
      if session.seen.state != AwaitingApproval { return false; }
      if session.plans.None? || session.plans.value == 0 || session.plans.value > |c.plans| { return false; }
      var number := session.plans.value;
      var plan := c.plans[number - 1];
      if plan.verdict != RequireApproval { return false; }
      if e.hashSeen != plan.hash { return false; }
      if plan.expiresAt.Some? && e.now >= plan.expiresAt.value { return false; }
      if e.choice == Approve && e.approver == plan.proposedBy { return false; }
      if number in c.approvals { return false; }
      ok := InsertDecision(incident, number, Approval(plan.hash, e.approver, e.choice), session.seen.version);
      if ok && e.choice == Approve { Enqueue(PlanJob(Execute, PlanId(incident, number), e.queueing.(delay := 0))); }
    }

    /** Insert the decision, then move the incident if it is still at the version that was read. */
    method InsertDecision(incident: IncidentId, number: nat, approval: Approval, expected: nat) returns (ok: bool)
      requires incident in cases
      modifies `cases
      ensures ok <==> old(cases)[incident].row.state == AwaitingApproval && old(cases)[incident].row.version == expected
      ensures ok ==> cases == old(cases)[incident := Decided(old(cases)[incident], number, approval)]
      ensures ok ==> cases[incident].row.state == if approval.choice == Approve then Executing else Escalated
    {
      var c := cases[incident];
      cases := cases[incident := c.(approvals := c.approvals[number := approval], trail := c.trail + [PlanDecided(number, approval.choice)])];
      ok := Transition(incident, AwaitingApproval, if approval.choice == Approve then Executing else Escalated, expected);
    }

    /** The job that gives up on an unanswered approval. */
    method TimeOut(e: Event) returns (ok: bool)
      requires e.TimeOut? && Valid()
      modifies this
      ensures Valid() && events == old(events) + [e]
      ensures ok <==> TimeOutCommits(old(View()), e.session, e.token)
      ensures View() == Step(old(View()), e)
    {
      ghost var before := View();
      ok := TimeOutCommits(View(), e.session, e.token);
      if ok {
        var session := sessions[e.session];
        ok := Transition(session.incident, AwaitingApproval, Escalated, session.seen.version);
        var c := cases[session.incident];
        cases := cases[session.incident := c.(timedOut := c.timedOut + {session.plans.value})];
      }
      Log(e, before);
    }

    // ----- The executor's transactions and calls, one event each -----

    ghost predicate Ready(t: Token, pc: Pc)
      reads this
    {
      && Valid()
      && t in procs && procs[t].pc == pc
      && t.job < |jobs| && jobs[t.job].work.incident in cases
    }

    /** The actions of the plan an executor run has loaded. */
    function PlanNow(t: Token): seq<Action>
      requires t in procs && t.job < |jobs| && jobs[t.job].work.incident in cases
      reads this
    {
      Actions(cases[jobs[t.job].work.incident].plans, procs[t].plan)
    }

    /** The handler's first read: an incident that is not Executing ends the job. */
    method ReadState(t: Token, w: World) returns (executing: bool)
      requires Ready(t, Start)
      modifies this
      ensures Valid() && View() == AdvanceStep(old(View()), t, w) && events == old(events) + [Advance(t, w)]
      ensures Ready(t, if executing then Review else Stopped)
      ensures executing <==> old(cases)[old(jobs)[t.job].work.incident].row.state == Executing
    {
      ghost var before := View();
      executing := cases[jobs[t.job].work.incident].row.state == Executing;
      procs := procs[t := procs[t].(pc := if executing then Review else Stopped)];
      Log(Advance(t, w), before);
    }

    /** Load the current plan and check everything again; the plan's number, or None if it must not run. */
    method LoadAndReview(t: Token, w: World) returns (plan: Option<nat>)
      requires Ready(t, Review)
      modifies this
      ensures Valid() && View() == AdvanceStep(old(View()), t, w) && events == old(events) + [Advance(t, w)]
      ensures Ready(t, if plan.None? then Escalate else At(CheckRow, 0))
      ensures plan.Some? ==> procs[t].plan == plan.value
    {
      ghost var before := View();
      var work := jobs[t.job].work;
      var c := cases[work.incident];
      var refused := true;
      if c.plans != [] && work.plan == Some(PlanId(work.incident, |c.plans|)) {
        refused := Refused(c, w.context);
      }
      if refused {
        procs := procs[t := procs[t].(pc := Escalate)];
        plan := None;
      } else {
        procs := procs[t := Proc(At(CheckRow, 0), |c.plans|, Some(w.context))];
        plan := Some(|c.plans|);
      }
      Log(Advance(t, w), before);
    }

    /** The executor's second look at a plan: the policy again, then the approval. */
    method Refused(c: Case, context: PolicyContext) returns (refused: bool)
      requires c.plans != []
      ensures refused <==> !Authorised(c, context)
    {
      hide Judge;
      var number, plan := |c.plans|, c.plans[|c.plans| - 1];
      if plan.verdict == Deny { return true; }
      var again := Evaluate(plan.plan, context);
      if again.verdict == Deny { return true; }
      if plan.verdict == RequireApproval || again.verdict == RequireApproval {
        if number !in c.approvals || c.approvals[number].choice != Approve { return true; }
        if c.approvals[number].hash != plan.hash { return true; }
        if c.approvals[number].approver == plan.proposedBy { return true; }
      }
      return false;
    }

    static function AfterRow(status: Option<ExecStatus>, i: nat): Pc {
      match status
      case None => At(Prepare, i)
      case Some(Succeeded) => At(CheckRow, i + 1)
      case Some(Started) => At(MarkUnknown, i)
      case Some(_) => Escalate
    }

    /** The status of an action's row, if it has one. */
    method ReadRow(t: Token, i: nat, w: World) returns (status: Option<ExecStatus>)
      requires Ready(t, At(CheckRow, i)) && i < |PlanNow(t)|
      modifies this
      ensures Valid() && View() == AdvanceStep(old(View()), t, w) && events == old(events) + [Advance(t, w)]
      ensures Ready(t, AfterRow(status, i)) && PlanNow(t) == old(PlanNow(t))
    {
      ghost var before := View();
      var execs, key := cases[jobs[t.job].work.incident].execs, ExecKey(procs[t].plan, i);
      status := if key in execs then Some(execs[key].status) else None;
      procs := procs[t := procs[t].(pc := AfterRow(status, i))];
      Log(Advance(t, w), before);
    }

    /** The loop over the actions is through. */
    method EndOfActions(t: Token, i: nat, w: World)
      requires Ready(t, At(CheckRow, i)) && i >= |PlanNow(t)|
      modifies this
      ensures Valid() && View() == AdvanceStep(old(View()), t, w) && events == old(events) + [Advance(t, w)]
      ensures Ready(t, Conclude)
    {
      ghost var before := View();
      procs := procs[t := procs[t].(pc := Conclude)];
      Log(Advance(t, w), before);
    }

    method DryRun(t: Token, i: nat, w: World) returns (accepted: bool)
      requires Ready(t, At(Prepare, i))
      modifies this
      ensures Valid() && View() == AdvanceStep(old(View()), t, w) && events == old(events) + [Advance(t, w)]
      ensures Ready(t, At(if accepted then Record else RecordFailed, i)) && PlanNow(t) == old(PlanNow(t))
    {
      ghost var before := View();
      accepted := w.dryRunOk;
      procs := procs[t := procs[t].(pc := At(if accepted then Record else RecordFailed, i))];
      Log(Advance(t, w), before);
    }

    /** INSERT the action's row under the fence; false for LeaseLost or the unique key. */
    method Insert(t: Token, i: nat, stage: Stage, w: World) returns (ok: bool)
      requires (stage == Record || stage == RecordFailed) && Ready(t, At(stage, i))
      modifies this
      ensures Valid() && View() == AdvanceStep(old(View()), t, w) && events == old(events) + [Advance(t, w)]
      ensures Ready(t, if !ok then Stopped else if stage == Record then At(Announce, i) else Escalate)
      ensures PlanNow(t) == old(PlanNow(t))
      ensures ok <==> !Loses(old(View()), t)
    {
      ghost var before := View();
      var incident := jobs[t.job].work.incident;
      var c, key := cases[incident], ExecKey(procs[t].plan, i);
      ok := Q.Live(jobs, t) && key !in c.execs;
      if ok {
        var row := Exec(if stage == Record then Started else Failed, t);
        cases := cases[incident := c.(execs := c.execs[key := row])];
      }
      procs := procs[t := procs[t].(pc := if !ok then Stopped else if stage == Record then At(Announce, i) else Escalate)];
      Log(Advance(t, w), before);
    }

    /** Write an audit row under the fence; false for LeaseLost. */
    method Note(t: Token, i: nat, stage: Stage, w: World) returns (ok: bool)
      requires (stage == Announce || stage == AnnounceSuccess) && Ready(t, At(stage, i))
      modifies this
      ensures Valid() && View() == AdvanceStep(old(View()), t, w) && events == old(events) + [Advance(t, w)]
      ensures Ready(t, if !ok then Stopped else if stage == Announce then At(Send, i) else At(CheckRow, i + 1))
      ensures PlanNow(t) == old(PlanNow(t))
      ensures ok <==> !Loses(old(View()), t)
    {
      ghost var before := View();
      var incident := jobs[t.job].work.incident;
      var c, key := cases[incident], ExecKey(procs[t].plan, i);
      ok := Q.Live(jobs, t);
      if ok {
        var note := if stage == Announce then ExecutionStarted(key, t) else ExecutionSucceeded(key, t);
        cases := cases[incident := c.(trail := c.trail + [note])];
      }
      procs := procs[t := procs[t].(pc := if !ok then Stopped else if stage == Announce then At(Send, i) else At(CheckRow, i + 1))];
      Log(Advance(t, w), before);
    }

    /** Send the change, unless there is nothing to change. Nothing guards this call: it is not a transaction. */
    method SendChange(t: Token, i: nat, w: World) returns (status: ExecStatus)
      requires Ready(t, At(Send, i)) && procs[t].context.Some?
      modifies this
      ensures Valid() && View() == AdvanceStep(old(View()), t, w) && events == old(events) + [Advance(t, w)]
      ensures Ready(t, At(Settle(status), i)) && PlanNow(t) == old(PlanNow(t))
      ensures ExecutorHistory.Means(status, w) && (patches == old(patches) <==> w.noop)
    {
      hide MustRefuse;
      ghost var before := View();
      var incident, p := jobs[t.job].work.incident, procs[t];
      if w.noop {
        status := Succeeded;
      } else {
        patches := patches + [Patch(incident, ExecKey(p.plan, i), t, p.context.value, |cases[incident].trail|)];
        status := match w.sent case Applied => Succeeded case Refused => Failed case NoAnswer => Unknown;
      }
      procs := procs[t := p.(pc := At(Settle(status), i))];
      assert View() == ActionStep(before, t, w, Send, i);
      Log(Advance(t, w), before);
    }

    /** UPDATE the action's row under the fence; false for LeaseLost. */
    method Update(t: Token, i: nat, stage: Stage, status: ExecStatus, w: World) returns (ok: bool)
      requires stage == Settle(status) || (stage == MarkUnknown && status == Unknown)
      requires Ready(t, At(stage, i))
      modifies this
      ensures Valid() && View() == AdvanceStep(old(View()), t, w) && events == old(events) + [Advance(t, w)]
      ensures Ready(t, if !ok then Stopped else if status == Succeeded then At(AnnounceSuccess, i) else Escalate)
      ensures PlanNow(t) == old(PlanNow(t))
      ensures ok <==> !Loses(old(View()), t)
    {
      ghost var before := View();
      var incident := jobs[t.job].work.incident;
      var c, key := cases[incident], ExecKey(procs[t].plan, i);
      ok := Q.Live(jobs, t) && key in c.execs;
      if ok { cases := cases[incident := c.(execs := c.execs[key := c.execs[key].(status := status)])]; }
      procs := procs[t := procs[t].(pc := if !ok then Stopped else if status == Succeeded then At(AnnounceSuccess, i) else Escalate)];
      Log(Advance(t, w), before);
    }

    /** All actions are through: Verifying, and a verify job. */
    method ConcludeJob(t: Token, w: World) returns (ok: bool)
      requires Ready(t, Conclude)
      modifies this
      ensures Valid() && View() == AdvanceStep(old(View()), t, w) && events == old(events) + [Advance(t, w)]
      ensures ok ==> t.job < |jobs| && jobs[t.job].work == old(jobs)[t.job].work && jobs[t.job].work.incident in cases
      ensures ok ==> cases[jobs[t.job].work.incident].row.state == Verifying
      ensures (ok <==> Concludes(old(View()), t)) && (ok <==> !Loses(old(View()), t)) && t in procs && procs[t].pc == Stopped
    {
      hide MustRefuse, Q.Apply, ActionStep;
      ghost var before := View();
      var incident := jobs[t.job].work.incident;
      var c := cases[incident];
      ok := Q.Live(jobs, t) && c.row.state == Executing;
      var p := procs[t];
      QueueStepFacts(jobs, PlanJob(Verify, PlanId(incident, p.plan), w.queueing));
      procs := procs[t := procs[t].(pc := Stopped)];
      if ok {
        ok := Transition(incident, Executing, Verifying, c.row.version);
        Enqueue(PlanJob(Verify, PlanId(incident, p.plan), w.queueing));
      }
      Log(Advance(t, w), before);
    }

    /** Hand the incident to a human, unless it is closed already or the claim is gone. */
    method EscalateIncident(t: Token, w: World)
      requires Ready(t, Escalate)
      modifies this
      ensures Valid() && View() == AdvanceStep(old(View()), t, w) && events == old(events) + [Advance(t, w)]
      ensures t in procs && procs[t].pc == Stopped
    {
      ghost var before := View();
      var incident := jobs[t.job].work.incident;
      var c := cases[incident];
      procs := procs[t := procs[t].(pc := Stopped)];
      if Q.Live(jobs, t) && !Terminal(c.row.state) {
        var ok := Transition(incident, c.row.state, Escalated, c.row.version);
      }
      Log(Advance(t, w), before);
    }

    // ----- Anything that can happen, and the executor's handler in the middle of it -----

    /** One event, whoever causes it. */
    method Perform(e: Event)
      requires Valid()
      modifies this
      ensures Valid() && events == old(events) + [e] && View() == Step(old(View()), e)
    {
      hide Run;
      match e
      case Submit(_, _, _, _, _, _) => var _ := Submit(e);
      case Decide(_, _, _, _, _, _) => var _ := Decide(e);
      case TimeOut(_, _) => var _ := TimeOut(e);
      case Advance(t, w) => PerformAdvance(t, w);
      case _ => PerformOther(e);
    }

    /** The events that are not a request or a step of the executor: plain updates of the tables. */
    method PerformOther(e: Event)
      requires Valid() && !e.Submit? && !e.Decide? && !e.TimeOut? && !e.Advance?
      modifies this
      ensures Valid() && events == old(events) + [e] && View() == Step(old(View()), e)
    {
      hide SubmitStep, DecideStep, TimeOutStep, AdvanceStep;
      ghost var before := View();
      match e {
        case Open(incident) => if incident !in cases { cases := cases[incident := NEW_CASE]; }
        case OtherMove(incident, to) =>
          if incident in cases && MayMove(cases[incident], to) { cases := cases[incident := MoveTo(cases[incident], to)]; }
        case Queue(op) =>
          if MayQueue(op) {
            var next := QueueStep(View(), op);
            jobs, procs := next.jobs, next.procs;
          }
        case Begin(id, incident) =>
          if incident in cases { sessions := sessions[id := Session(incident, cases[incident].row, None, None)]; }
        case ReadPlans(id) =>
          if id in sessions && sessions[id].incident in cases {
            sessions := sessions[id := sessions[id].(plans := Some(|cases[sessions[id].incident].plans|), decided := None)];
          }
        case ReadApproval(id) =>
          if id in sessions && sessions[id].incident in cases && sessions[id].plans.Some? {
            var session := sessions[id];
            sessions := sessions[id := session.(decided := Some(session.plans.value in cases[session.incident].approvals))];
          }
        case Crash(t) => if t in procs { procs := procs[t := procs[t].(pc := Stopped)]; }
        case EndVerify(_, _) => cases := EndVerifyStep(View(), e).cases;
      }
      Log(e, before);
    }

    method PerformAdvance(t: Token, w: World)
      requires Valid()
      modifies this
      ensures Valid() && events == old(events) + [Advance(t, w)] && View() == AdvanceStep(old(View()), t, w)
    {
      hide Run;
      ghost var before := View();
      if t !in procs || t.job >= |jobs| || jobs[t.job].work.incident !in cases {
        Log(Advance(t, w), before);
        return;
      }
      match procs[t].pc
      case Start => var _ := ReadState(t, w);
      case Review => var _ := LoadAndReview(t, w);
      case At(stage, i) => PerformAction(t, w, stage, i);
      case Conclude => var _ := ConcludeJob(t, w);
      case Escalate => EscalateIncident(t, w);
      case Stopped => Log(Advance(t, w), before);
    }

    method PerformAction(t: Token, w: World, stage: Stage, i: nat)
      requires Ready(t, At(stage, i))
      modifies this
      ensures Valid() && events == old(events) + [Advance(t, w)] && View() == AdvanceStep(old(View()), t, w)
    {
      hide Run, AdvanceStep;
      if stage == Send { ContextIsThere(events, t, i); }
      match stage
      case CheckRow =>
        if i < |PlanNow(t)| { var _ := ReadRow(t, i, w); }
        else { EndOfActions(t, i, w); }
      case MarkUnknown => var _ := Update(t, i, stage, Unknown, w);
      case Prepare => var _ := DryRun(t, i, w);
      case RecordFailed => var _ := Insert(t, i, stage, w);
      case Record => var _ := Insert(t, i, stage, w);
      case Announce => var _ := Note(t, i, stage, w);
      case Send => var _ := SendChange(t, i, w);
      case Settle(status) => var _ := Update(t, i, stage, status, w);
      case AnnounceSuccess => var _ := Note(t, i, stage, w);
    }

    /** Everything others do before the handler's next step; its own steps and crashes are not theirs to cause. */
    method Others(t: Token, others: seq<Event>, ghost pc: Pc)
      requires Ready(t, pc)
      modifies this
      ensures Ready(t, pc) && old(events) <= events
      ensures procs[t] == old(procs)[t]
      ensures pc.At? ==> PlanNow(t) == old(PlanNow(t))
    {
      hide Run, Step, Inv, Cleared, RowInv;
      RunKeepsInv(events, 0);
      for k := 0 to |others|
        invariant Ready(t, pc) && old(events) <= events
        invariant procs[t] == old(procs)[t]
        invariant pc.At? ==> PlanNow(t) == old(PlanNow(t))
      {
        if !Concerns(others[k], t) {
          RunKeepsInv(events, 0);
          OthersLeaveProc(View(), others[k], t);
          Perform(others[k]);
        }
      }
    }

    /** The handler of an `execute` job, from its first read to its last transaction. */
    method ExecuteJob(t: Token, beats: nat -> Beat) returns (end: JobEnd)
      requires Ready(t, Start)
      modifies this
      ensures Valid() && old(events) <= events && EndsAs(events, t, end)
      ensures end == Done ==>
        && t.job < |jobs| && jobs[t.job].work.incident in cases
        && cases[jobs[t.job].work.incident].row.state == Verifying
    {
      hide View, Run, PlanNow, EndsAs;
      var executing := FirstRead(t, beats(0));
      if !executing { return NothingToDo; }
      var plan := FirstReview(t, beats(1));
      if plan.None? {
        GiveUp(t, beats(2));
        return HandedOver;
      }
      var n := |PlanNow(t)|;
      var i, beat := 0, 2;
      while i < n
        invariant 0 <= i <= n && Ready(t, At(CheckRow, i)) && old(events) <= events
        invariant n == |PlanNow(t)|
      {
        var stop := ExecuteAction(t, i, beats, beat);
        if stop.Some? { return stop.value; }
        i, beat := i + 1, beat + 8;
      }
      var ok := Finish(t, i, beats(beat), beats(beat + 1));
      end := if ok then Done else LeaseLost;
    }

    method FirstRead(t: Token, beat: Beat) returns (executing: bool)
      requires Ready(t, Start)
      modifies this
      ensures old(events) <= events && Ready(t, if executing then Review else Stopped)
      ensures !executing ==> EndsAs(events, t, NothingToDo)
    {
      hide Run, AdvanceStep;
      Others(t, beat.others, Start);
      ghost var before := events;
      executing := ReadState(t, beat.world);
      if !executing { EndsNow(before, t, beat.world, NothingToDo); }
    }

    method FirstReview(t: Token, beat: Beat) returns (plan: Option<nat>)
      requires Ready(t, Review)
      modifies this
      ensures old(events) <= events && Ready(t, if plan.None? then Escalate else At(CheckRow, 0))
    {
      hide Run, AdvanceStep;
      Others(t, beat.others, Review);
      plan := LoadAndReview(t, beat.world);
    }

    method Finish(t: Token, i: nat, last: Beat, after: Beat) returns (ok: bool)
      requires Ready(t, At(CheckRow, i)) && i >= |PlanNow(t)|
      modifies this
      ensures Valid() && old(events) <= events && EndsAs(events, t, if ok then Done else LeaseLost)
      ensures ok ==>
        && t.job < |jobs| && jobs[t.job].work.incident in cases
        && cases[jobs[t.job].work.incident].row.state == Verifying
    {
      hide Run, AdvanceStep, Loses, Concludes;
      Others(t, last.others, At(CheckRow, i));
      EndOfActions(t, i, last.world);
      Others(t, after.others, Conclude);
      ghost var before := events;
      ok := ConcludeJob(t, after.world);
      EndsNow(before, t, after.world, if ok then Done else LeaseLost);
    }

    method GiveUp(t: Token, beat: Beat)
      requires Ready(t, Escalate)
      modifies this
      ensures Valid() && old(events) <= events && EndsAs(events, t, HandedOver)
    {
      hide Run, AdvanceStep;
      Others(t, beat.others, Escalate);
      ghost var before := events;
      EscalateIncident(t, beat.world);
      EndsNow(before, t, beat.world, HandedOver);
    }

    // One step of the handler each, after whatever others do before it.

    method NextRow(t: Token, i: nat, beat: Beat) returns (status: Option<ExecStatus>)
      requires Ready(t, At(CheckRow, i)) && i < |PlanNow(t)|
      modifies this
      ensures old(events) <= events && Ready(t, AfterRow(status, i)) && PlanNow(t) == old(PlanNow(t))
    {
      hide Run, AdvanceStep;
      Others(t, beat.others, At(CheckRow, i));
      status := ReadRow(t, i, beat.world);
    }

    method NextDryRun(t: Token, i: nat, beat: Beat) returns (accepted: bool)
      requires Ready(t, At(Prepare, i))
      modifies this
      ensures old(events) <= events
      ensures Ready(t, At(if accepted then Record else RecordFailed, i)) && PlanNow(t) == old(PlanNow(t))
    {
      hide Run, AdvanceStep;
      Others(t, beat.others, At(Prepare, i));
      accepted := DryRun(t, i, beat.world);
    }

    method NextInsert(t: Token, i: nat, stage: Stage, beat: Beat) returns (ok: bool)
      requires (stage == Record || stage == RecordFailed) && Ready(t, At(stage, i))
      modifies this
      ensures old(events) <= events && (!ok ==> EndsAs(events, t, LeaseLost))
      ensures Ready(t, if !ok then Stopped else if stage == Record then At(Announce, i) else Escalate)
      ensures PlanNow(t) == old(PlanNow(t))
    {
      hide Run, AdvanceStep, Loses;
      Others(t, beat.others, At(stage, i));
      ghost var before := events;
      ok := Insert(t, i, stage, beat.world);
      if !ok { EndsNow(before, t, beat.world, LeaseLost); }
    }

    method NextNote(t: Token, i: nat, stage: Stage, beat: Beat) returns (ok: bool)
      requires (stage == Announce || stage == AnnounceSuccess) && Ready(t, At(stage, i))
      modifies this
      ensures old(events) <= events && (!ok ==> EndsAs(events, t, LeaseLost))
      ensures Ready(t, if !ok then Stopped else if stage == Announce then At(Send, i) else At(CheckRow, i + 1))
      ensures PlanNow(t) == old(PlanNow(t))
    {
      hide Run, AdvanceStep, Loses;
      Others(t, beat.others, At(stage, i));
      ghost var before := events;
      ok := Note(t, i, stage, beat.world);
      if !ok { EndsNow(before, t, beat.world, LeaseLost); }
    }

    method NextSend(t: Token, i: nat, beat: Beat) returns (status: ExecStatus)
      requires Ready(t, At(Send, i))
      modifies this
      ensures old(events) <= events && Ready(t, At(Settle(status), i)) && PlanNow(t) == old(PlanNow(t))
    {
      hide Run, AdvanceStep;
      Others(t, beat.others, At(Send, i));
      ContextIsThere(events, t, i);
      status := SendChange(t, i, beat.world);
    }

    method NextUpdate(t: Token, i: nat, stage: Stage, status: ExecStatus, beat: Beat) returns (ok: bool)
      requires stage == Settle(status) || (stage == MarkUnknown && status == Unknown)
      requires Ready(t, At(stage, i))
      modifies this
      ensures old(events) <= events && (!ok ==> EndsAs(events, t, LeaseLost))
      ensures Ready(t, if !ok then Stopped else if status == Succeeded then At(AnnounceSuccess, i) else Escalate)
      ensures PlanNow(t) == old(PlanNow(t))
    {
      hide Run, AdvanceStep, Loses;
      Others(t, beat.others, At(stage, i));
      ghost var before := events;
      ok := Update(t, i, stage, status, beat.world);
      if !ok { EndsNow(before, t, beat.world, LeaseLost); }
    }

    /** One action of the plan; None to go on with the next. */
    method ExecuteAction(t: Token, i: nat, beats: nat -> Beat, beat: nat) returns (stop: Option<JobEnd>)
      requires Ready(t, At(CheckRow, i)) && i < |PlanNow(t)|
      modifies this
      ensures Valid() && old(events) <= events
      ensures stop.None? ==> Ready(t, At(CheckRow, i + 1)) && PlanNow(t) == old(PlanNow(t))
      ensures stop.Some? ==> stop != Some(Done) && EndsAs(events, t, stop.value)
    {
      hide View, Run, PlanNow, EndsAs;
      var row := NextRow(t, i, beats(beat));
      if row == Some(Succeeded) { return None; }
      if row.Some? {
        if row.value == Started {
          var marked := NextUpdate(t, i, MarkUnknown, Unknown, beats(beat + 1));
          if !marked { return Some(LeaseLost); }
        }
        GiveUp(t, beats(beat + 2));
        return Some(HandedOver);
      }
      var accepted := NextDryRun(t, i, beats(beat + 1));
      var ok := NextInsert(t, i, if accepted then Record else RecordFailed, beats(beat + 2));
      if !ok { return Some(LeaseLost); }
      if !accepted {
        GiveUp(t, beats(beat + 3));
        return Some(HandedOver);
      }
      stop := SendRecorded(t, i, beats, beat + 3);
    }

    /** The intent is committed: announce it, send the change, and record what happened. */
    method SendRecorded(t: Token, i: nat, beats: nat -> Beat, beat: nat) returns (stop: Option<JobEnd>)
      requires Ready(t, At(Announce, i))
      modifies this
      ensures Valid() && old(events) <= events
      ensures stop.None? ==> Ready(t, At(CheckRow, i + 1)) && PlanNow(t) == old(PlanNow(t))
      ensures stop.Some? ==> stop != Some(Done) && EndsAs(events, t, stop.value)
    {
      hide View, Run, PlanNow, EndsAs;
      var ok := NextNote(t, i, Announce, beats(beat));
      if !ok { return Some(LeaseLost); }
      var status := NextSend(t, i, beats(beat + 1));
      stop := SettleSent(t, i, status, beats, beat + 2);
    }

    /** The answer is there: record it, and give up or announce the success. */
    method SettleSent(t: Token, i: nat, status: ExecStatus, beats: nat -> Beat, beat: nat) returns (stop: Option<JobEnd>)
      requires Ready(t, At(Settle(status), i))
      modifies this
      ensures Valid() && old(events) <= events
      ensures stop.None? ==> Ready(t, At(CheckRow, i + 1)) && PlanNow(t) == old(PlanNow(t))
      ensures stop.Some? ==> stop != Some(Done) && EndsAs(events, t, stop.value)
    {
      hide View, Run, PlanNow, EndsAs;
      var ok := NextUpdate(t, i, Settle(status), status, beats(beat));
      if !ok { return Some(LeaseLost); }
      if status != Succeeded {
        GiveUp(t, beats(beat + 1));
        return Some(HandedOver);
      }
      ok := NextNote(t, i, AnnounceSuccess, beats(beat + 1));
      stop := if ok then None else Some(LeaseLost);
    }

    // ----- The verify job -----

    /** Anything, from anyone, between two steps of a handler. */
    method Meanwhile(others: seq<Event>)
      requires Valid()
      modifies this
      ensures Valid() && old(events) <= events && SameWork(old(jobs), jobs)
    {
      hide Run, Step;
      for k := 0 to |others|
        invariant Valid() && old(events) <= events && SameWork(old(jobs), jobs)
      {
        ExecutorHistory.WorkStays(View(), others[k]);
        Perform(others[k]);
      }
    }

    /**
     * The verify job's loop: sample until the streak is long enough or the deadline has passed.
     * `readings(k)` is the k-th sample; sample `deadline` is the first one taken at or after the deadline.
     */
    method SampleUntilDecided(readings: nat -> Option<real>, deadline: nat, threshold: real, checks: int, others: nat -> seq<Event>)
      returns (run: VerifyRun)
      requires Valid()
      modifies this
      ensures Valid() && old(events) <= events && SameWork(old(jobs), jobs)
      ensures FromLoop(run) && Decides(run, readings, deadline, threshold, checks)
    {
      hide Streak, Undecided, Run, View;
      var samples: seq<Option<real>> := [];
      var streak := 0;
      NoSamples(threshold, checks);
      while true
        invariant Valid() && old(events) <= events && SameWork(old(jobs), jobs)
        invariant |samples| <= deadline && streak == Streak(samples, threshold)
        invariant forall i :: 0 <= i < |samples| ==> samples[i] == readings(i)
        invariant Undecided(samples, |samples|, threshold, checks)
        decreases deadline - |samples|
      {
        Meanwhile(others(|samples|));
        var value, at := readings(|samples|), |samples|;
        var healthy := value.Some? && value.value < threshold;
        SampleAdded(samples, value, threshold, checks);
        samples := samples + [value];
        streak := if healthy then streak + 1 else 0;
        if streak >= checks { return VerifyRun(samples, threshold, checks, true); }
        if at >= deadline { return VerifyRun(samples, threshold, checks, false); }
      }
    }

    /** Under the fence, if the incident is still Verifying: the audit row and the guarded move. */
    method RecordVerification(t: Token, run: VerifyRun) returns (ok: bool)
      requires Valid() && FromLoop(run)
      modifies this
      ensures Valid() && events == old(events) + [EndVerify(t, run)]
      ensures View() == EndVerifyStep(old(View()), EndVerify(t, run))
      ensures ok <==> MayRecord(old(View()), t)
      ensures jobs == old(jobs) && (ok ==> RecordedIn(cases, jobs[t.job].work.incident, run))
    {
      hide Run, FromLoop, Streak, RecordedIn;
      ghost var before := View();
      ok := LiveFor(View(), t, JobKind.Verify) && cases[jobs[t.job].work.incident].row.state == Verifying;
      if ok {
        WriteVerification(jobs[t.job].work.incident, run);
      }
      Log(EndVerify(t, run), before);
    }

    method WriteVerification(incident: IncidentId, run: VerifyRun)
      requires incident in cases && cases[incident].row.state == Verifying
      modifies `cases
      ensures var c := old(cases)[incident].(trail := old(cases)[incident].trail + [VerificationEnded(run)]);
              cases == old(cases)[incident := MoveTo(c, if run.passed then Resolved else Escalated)]
      ensures RecordedIn(cases, incident, run)
    {
      var c := cases[incident];
      cases := cases[incident := c.(trail := c.trail + [VerificationEnded(run)])];
      var ok := Transition(incident, Verifying, if run.passed then Resolved else Escalated, c.row.version);
    }

    /**
     * The handler of a `verify` job; `healthyBelow` is the check's threshold, None if there is no check
     * or no Prometheus to ask. Others act before each of its steps: before its first read, before each
     * sample and before its transaction.
     */
    method VerifyJob(
      t: Token, healthyBelow: Option<real>, checks: int, readings: nat -> Option<real>, deadline: nat,
      before: seq<Event>, during: nat -> seq<Event>, after: seq<Event>) returns (end: VerifyEnd)
      requires Valid() && t.job < |jobs|
      modifies this
      ensures Valid() && old(events) <= events && SameWork(old(jobs), jobs)
      ensures end.Recorded? ==> events != [] && events[|events| - 1] == EndVerify(t, end.run) && FromLoop(end.run)
      ensures end.Recorded? ==> RecordedIn(cases, jobs[t.job].work.incident, end.run)
      ensures end.Recorded? && healthyBelow.None? ==> !end.run.passed && end.run.samples == []
      ensures end.Recorded? && healthyBelow.Some? ==> Decides(end.run, readings, deadline, healthyBelow.value, checks)
      ensures end.NotVerifying? ==>
        jobs[t.job].work.incident !in cases || cases[jobs[t.job].work.incident].row.state != Verifying
      ensures end.NotRecorded? ==>
        && events != [] && events[|events| - 1].EndVerify? && events[|events| - 1].token == t
        && !MayRecord(Run(events[..|events| - 1]), t)
    {
      hide Run, Streak, Undecided, Decides, RecordedIn, EndVerifyStep, MayRecord;
      Meanwhile(before);
      var incident := jobs[t.job].work.incident;
      if incident !in cases || cases[incident].row.state != Verifying { return NotVerifying; }
      var run := VerifyRun([], 0.0, checks, false);
      if healthyBelow.Some? {
        run := SampleUntilDecided(readings, deadline, healthyBelow.value, checks, during);
      }
      Meanwhile(after);
      ghost var earlier := events;
      var ok := RecordVerification(t, run);
      assert events[..|events| - 1] == earlier;
      end := if ok then Recorded(run) else NotRecorded;
    }
  }

  /** None of the first n samples decided the run: the streak stayed short. */
  ghost predicate Undecided(samples: seq<Option<real>>, n: nat, threshold: real, checks: int)
    requires n <= |samples|
  {
    forall k :: 1 <= k <= n ==> Streak(samples[..k], threshold) < checks
  }

  /** What the loop promises of a run: the first readings, up to the one that decides it. */
  ghost predicate Decides(run: VerifyRun, readings: nat -> Option<real>, deadline: nat, threshold: real, checks: int) {
    && run.threshold == threshold && run.checks == checks
    && 1 <= |run.samples| <= deadline + 1
    && (forall i :: 0 <= i < |run.samples| ==> run.samples[i] == readings(i))
    && (run.passed <==> checks <= Streak(run.samples, threshold))
    && (!run.passed ==> |run.samples| == deadline + 1)
    && Undecided(run.samples, |run.samples| - 1, threshold, checks)
  }

  /** The run is in the incident's trail, and the incident went where the run sends it. */
  predicate RecordedIn(cases: map<IncidentId, Case>, incident: IncidentId, run: VerifyRun) {
    && incident in cases && VerificationEnded(run) in cases[incident].trail
    && cases[incident].row.state == if run.passed then Resolved else Escalated
  }

  /** The verify job is still the worker's, and its incident still at Verifying. */
  predicate MayRecord(s: Sys, t: Token) {
    LiveFor(s, t, JobKind.Verify) && s.cases[s.jobs[t.job].work.incident].row.state == Verifying
  }

  /** Jobs are only added, and a job's work stays. */
  predicate SameWork(was: seq<Q.Job>, now: seq<Q.Job>) {
    |was| <= |now| && forall i :: 0 <= i < |was| ==> now[i].work == was[i].work
  }

  lemma NoSamples(threshold: real, checks: int)
    ensures Streak([], threshold) == 0 && Undecided([], 0, threshold, checks)
  {
  }

  lemma SampleAdded(samples: seq<Option<real>>, value: Option<real>, threshold: real, checks: int)
    requires Undecided(samples, |samples|, threshold, checks)
    ensures var more := samples + [value];
            && Undecided(more, |samples|, threshold, checks)
            && Streak(more, threshold) == (if value.Some? && value.value < threshold then Streak(samples, threshold) + 1 else 0)
            && (Streak(more, threshold) < checks ==> Undecided(more, |more|, threshold, checks))
  {
    var more := samples + [value];
    assert more[..|samples|] == samples && more[..|more|] == more;
    forall k | 1 <= k <= |samples| ensures more[..k] == samples[..k] {}
  }

  predicate Concerns(e: Event, t: Token) {
    (e.Advance? && e.token == t) || (e.Crash? && e.token == t)
  }

  /** An executor about to send has the context of its review. */
  lemma ContextIsThere(events: seq<Event>, t: Token, i: nat)
    requires t in Run(events).procs && Run(events).procs[t].pc == At(Send, i)
    ensures Run(events).procs[t].context.Some?
  {
    hide Run, CaseInv, JobsInv, SessionInv, PatchesInv, RowInv, Authorised;
    RunKeepsInv(events, 0);
    var s := Run(events);
    assert ProcInv(s.jobs, s.cases, s.patches, t, s.procs[t]);
  }

  /** What others do leaves an executor run where it is, and its plan as it loaded it. */
  lemma OthersLeaveProc(s: Sys, e: Event, t: Token)
    requires Inv(s) && t in s.procs && !Concerns(e, t)
    ensures t in Step(s, e).procs && Step(s, e).procs[t] == s.procs[t]
    ensures t.job < |s.jobs| <= |Step(s, e).jobs| && Step(s, e).jobs[t.job].work == s.jobs[t.job].work
    ensures var incident := s.jobs[t.job].work.incident;
            && incident in s.cases && incident in Step(s, e).cases
            && (s.procs[t].pc.At? ==>
                  Actions(Step(s, e).cases[incident].plans, s.procs[t].plan) == Actions(s.cases[incident].plans, s.procs[t].plan))
  {
    assert ProcInv(s.jobs, s.cases, s.patches, t, s.procs[t]) by { hide CaseInv, JobsInv, SessionInv, PatchesInv, ProcInv; }
    OthersKeepPc(s, e, t);
    ExecutorHistory.WorkStays(s, e);
    PlanStays(s, e, s.jobs[t.job].work.incident, t);
  }

  lemma PlanStays(s: Sys, e: Event, incident: IncidentId, t: Token)
    requires Inv(s) && incident in s.cases && t in s.procs
    requires RunInv(s.cases[incident], s.jobs[t.job].work, t, s.procs[t], Q.Live(s.jobs, t), s.patches)
    ensures incident in Step(s, e).cases
    ensures s.procs[t].pc.At? ==> Step(s, e).cases[incident].plans == s.cases[incident].plans
  {
    hide Inv, Step, RowInv, Authorised;
    StepKeepsInv(s, e);
    assert Grows(s.cases[incident], Step(s, e).cases[incident]);
  }

  lemma OthersKeepPc(s: Sys, e: Event, t: Token)
    requires t in s.procs && !Concerns(e, t) && Q.Issued(s.jobs, t)
    ensures t in Step(s, e).procs && Step(s, e).procs[t] == s.procs[t]
  {
    hide MustRefuse, Submitted, Decided, NewPlan, QueueStep, AdvanceStep;
    match e
    case Queue(op) => QueueKeepsPc(s, op, t);
    case Advance(u, w) => AdvanceKeepsPc(s, u, w, t);
    case _ =>
  }

  lemma QueueKeepsPc(s: Sys, op: Q.Op, t: Token)
    requires t in s.procs && Q.Issued(s.jobs, t)
    ensures t in QueueStep(s, op).procs && QueueStep(s, op).procs[t] == s.procs[t]
  {
  }

  lemma AdvanceKeepsPc(s: Sys, u: Token, w: World, t: Token)
    requires t in s.procs && t != u
    ensures t in AdvanceStep(s, u, w).procs && AdvanceStep(s, u, w).procs[t] == s.procs[t]
  {
    hide MustRefuse;
  }
}
