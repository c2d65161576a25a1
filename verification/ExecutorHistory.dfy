/** What a recorded status means: the answers an executor got, and what it did because of them. */
module ExecutorHistory {
  import opened Domain
  import opened Incidents
  import opened Policy
  import opened Remediation
  import opened RemediationSafety
  import RemediationTheorems
  import Q = JobQueue

  /** Event k is the executor's step at this stage of this action. */
  ghost predicate DidAt(events: seq<Event>, k: nat, t: Token, incident: IncidentId, key: ExecKey, stage: Stage) {
    && k < |events| && events[k].Advance? && events[k].token == t
    && Stands(Run(events[..k]), t, incident, key, stage)
  }

  /** The executor is about to take this stage of this action. */
  predicate Stands(s: Sys, t: Token, incident: IncidentId, key: ExecKey, stage: Stage) {
    && t in s.procs && s.procs[t].pc == At(stage, key.index) && s.procs[t].plan == key.plan
    && OnIncident(s, t, incident)
  }

  predicate OnIncident(s: Sys, t: Token, incident: IncidentId) {
    t.job < |s.jobs| && s.jobs[t.job].work.incident == incident && incident in s.cases
  }

  /** The status an answer to the change stands for. */
  predicate Means(status: ExecStatus, w: World) {
    && (status == Succeeded <==> w.noop || w.sent == Applied)
    && (status == Failed <==> !w.noop && w.sent == SendResult.Refused)
    && (status == Unknown <==> !w.noop && w.sent == NoAnswer)
  }

  /** The change was sent, or nothing had to be, and this is what the answer stands for. */
  ghost predicate Answered(events: seq<Event>, t: Token, incident: IncidentId, key: ExecKey, status: ExecStatus) {
    exists k: nat :: DidAt(events, k, t, incident, key, Send) && Means(status, events[k].world)
  }

  ghost predicate DryRun(events: seq<Event>, t: Token, incident: IncidentId, key: ExecKey, ok: bool) {
    exists k: nat :: DidAt(events, k, t, incident, key, Prepare) && events[k].world.dryRunOk == ok
  }

  /** Another executor, which owned the job by then, found the row still started. */
  ghost predicate FoundInterrupted(events: seq<Event>, owner: Token, incident: IncidentId, key: ExecKey) {
    exists k: nat, u: Token ::
      && DidAt(events, k, u, incident, key, MarkUnknown) && u != owner
      && Q.Live(Run(events[..k]).jobs, u)
      && key in Run(events[..k]).cases[incident].execs && Run(events[..k]).cases[incident].execs[key] == Exec(Started, owner)
  }

  /** Why the row has its status. */
  ghost predicate HasCause(events: seq<Event>, incident: IncidentId, key: ExecKey, row: Exec) {
    match row.status
    case Started => DryRun(events, row.owner, incident, key, true)
    case Succeeded => Answered(events, row.owner, incident, key, Succeeded)
    case Failed => Answered(events, row.owner, incident, key, Failed) || DryRun(events, row.owner, incident, key, false)
    case Unknown => Answered(events, row.owner, incident, key, Unknown) || FoundInterrupted(events, row.owner, incident, key)
  }

  /** What an executor at this stage has behind it. */
  ghost predicate HasCome(events: seq<Event>, t: Token, incident: IncidentId, p: Proc) {
    p.pc.At? ==>
      var key := ExecKey(p.plan, p.pc.index);
      match p.pc.stage
      case RecordFailed => DryRun(events, t, incident, key, false)
      case Record => DryRun(events, t, incident, key, true)
      case Announce => DryRun(events, t, incident, key, true)
      case Send => DryRun(events, t, incident, key, true)
      case Settle(status) => Answered(events, t, incident, key, status)
      case AnnounceSuccess => Answered(events, t, incident, key, Succeeded)
      case _ => true
  }

  // ----- Longer runs -----

  lemma DidLater(events: seq<Event>, e: Event, k: nat, t: Token, incident: IncidentId, key: ExecKey, stage: Stage)
    requires DidAt(events, k, t, incident, key, stage)
    ensures DidAt(events + [e], k, t, incident, key, stage) && (events + [e])[k] == events[k] && (events + [e])[..k] == events[..k]
  {
    assert (events + [e])[..k] == events[..k];
  }

  lemma DidLast(events: seq<Event>, t: Token, w: World, incident: IncidentId, key: ExecKey, stage: Stage)
    requires Stands(Run(events), t, incident, key, stage)
    ensures DidAt(events + [Advance(t, w)], |events|, t, incident, key, stage)
  {
    assert (events + [Advance(t, w)])[..|events|] == events;
  }

  lemma CausesStay(events: seq<Event>, e: Event, t: Token, incident: IncidentId, key: ExecKey)
    ensures forall status :: Answered(events, t, incident, key, status) ==> Answered(events + [e], t, incident, key, status)
    ensures forall ok :: DryRun(events, t, incident, key, ok) ==> DryRun(events + [e], t, incident, key, ok)
    ensures FoundInterrupted(events, t, incident, key) ==> FoundInterrupted(events + [e], t, incident, key)
  {
    hide Run, Means;
    forall status | Answered(events, t, incident, key, status) ensures Answered(events + [e], t, incident, key, status) {
      var k: nat :| DidAt(events, k, t, incident, key, Send) && Means(status, events[k].world);
      DidLater(events, e, k, t, incident, key, Send);
    }
    forall ok | DryRun(events, t, incident, key, ok) ensures DryRun(events + [e], t, incident, key, ok) {
      var k: nat :| DidAt(events, k, t, incident, key, Prepare) && events[k].world.dryRunOk == ok;
      DidLater(events, e, k, t, incident, key, Prepare);
    }
    if FoundInterrupted(events, t, incident, key) {
      var k: nat, u: Token :|
        && DidAt(events, k, u, incident, key, MarkUnknown) && u != t
        && Q.Live(Run(events[..k]).jobs, u)
        && key in Run(events[..k]).cases[incident].execs && Run(events[..k]).cases[incident].execs[key] == Exec(Started, t);
      DidLater(events, e, k, u, incident, key, MarkUnknown);
    }
  }

  // ----- One event -----

  /** Where an executor's run can come from: it stood there, took a step itself, crashed, or is new. */
  lemma ProcBefore(s: Sys, e: Event, t: Token)
    requires t in Step(s, e).procs
    ensures || (t in s.procs && Step(s, e).procs[t] == s.procs[t])
            || (e.Advance? && e.token == t && t in s.procs)
            || (t in s.procs && Step(s, e).procs[t] == s.procs[t].(pc := Stopped))
            || (Step(s, e).procs[t] == Proc(Start, 0, None) && !Q.Issued(s.jobs, t))
  {
    hide MustRefuse, Submitted, Decided, NewPlan, AdvanceStep, QueueStep, SubmitCommits, DecisionCommits, TimeOutCommits, Q.Apply;
    match e
    case Advance(u, w) => AdvanceProc(s, u, w, t);
    case Queue(op) => if MayQueue(op) { QueueProc(s, op, t); }
    case _ =>
  }

  lemma AdvanceProc(s: Sys, u: Token, w: World, t: Token)
    requires t in AdvanceStep(s, u, w).procs
    ensures t in s.procs && (t != u ==> AdvanceStep(s, u, w).procs[t] == s.procs[t])
  {
    hide MustRefuse, Q.Apply, Q.Live;
  }

  lemma QueueProc(s: Sys, op: Q.Op, t: Token)
    requires t in QueueStep(s, op).procs
    ensures || (t in s.procs && QueueStep(s, op).procs[t] == s.procs[t])
            || (QueueStep(s, op).procs[t] == Proc(Start, 0, None) && !Q.Issued(s.jobs, t))
  {
    hide Q.Apply;
  }

  /** An executor's own step, stage by stage. */
  lemma OwnStep(s: Sys, t: Token, w: World)
    requires t in s.procs && s.procs[t].pc.At? && t.job < |s.jobs| && s.jobs[t.job].work.incident in s.cases
    requires s.procs[t].pc.stage == Send ==> s.procs[t].context.Some?
    ensures var p, p' := s.procs[t], AdvanceStep(s, t, w).procs[t];
            p'.plan == p.plan
            && (p'.pc.At? ==>
                  && (p'.pc.stage == RecordFailed ==> p.pc == At(Prepare, p'.pc.index) && !w.dryRunOk)
                  && (p'.pc.stage == Record ==> p.pc == At(Prepare, p'.pc.index) && w.dryRunOk)
                  && (p'.pc.stage == Announce ==> p.pc == At(Record, p'.pc.index))
                  && (p'.pc.stage == Send ==> p.pc == At(Announce, p'.pc.index))
                  && (p'.pc.stage.Settle? ==> p.pc == At(Send, p'.pc.index) && Means(p'.pc.stage.status, w))
                  && (p'.pc.stage == AnnounceSuccess ==> p.pc == At(Settle(Succeeded), p'.pc.index))
                  && (p'.pc.stage == MarkUnknown ==> p.pc == At(CheckRow, p'.pc.index)))
  {
    hide Q.Live;
  }

  /** Outside the actions there is one way in. */
  lemma OtherOwnStep(s: Sys, t: Token, w: World)
    requires t in s.procs && !s.procs[t].pc.At? && AdvanceStep(s, t, w).procs[t].pc.At?
    ensures s.procs[t].pc == Review && AdvanceStep(s, t, w).procs[t].pc == At(CheckRow, 0)
  {
    hide MustRefuse, Q.Live, Q.Apply;
  }

  // ----- Where every executor comes from -----

  lemma HasComeStays(events: seq<Event>, e: Event, t: Token, incident: IncidentId, p: Proc)
    requires HasCome(events, t, incident, p)
    ensures HasCome(events + [e], t, incident, p)
  {
    hide Answered, DryRun, FoundInterrupted;
    if p.pc.At? { CausesStay(events, e, t, incident, ExecKey(p.plan, p.pc.index)); }
  }

  lemma OwnStepComes(events: seq<Event>, t: Token, w: World, incident: IncidentId)
    requires t in Run(events).procs && OnIncident(Run(events), t, incident) && HasCome(events, t, incident, Run(events).procs[t])
    requires Run(events).procs[t].pc.At? ==> (Run(events).procs[t].pc.stage == Send ==> Run(events).procs[t].context.Some?)
    ensures t in AdvanceStep(Run(events), t, w).procs
    ensures HasCome(events + [Advance(t, w)], t, incident, AdvanceStep(Run(events), t, w).procs[t])
  {
    hide Run, Answered, DryRun, DidAt, AdvanceStep, Means;
    var s := Run(events);
    AdvanceKeepsProcs(s, t, w);
    var p, p' := s.procs[t], AdvanceStep(s, t, w).procs[t];
    if p.pc.At? {
      OwnStep(s, t, w);
      var key := ExecKey(p.plan, p.pc.index);
      CausesStay(events, Advance(t, w), t, incident, key);
      DidLast(events, t, w, incident, key, p.pc.stage);
      if p.pc.stage == Prepare { DryRunNow(events, t, w, incident, key); }
      if p.pc.stage == Send && p'.pc.At? && p'.pc.stage.Settle? { AnsweredNow(events, t, w, incident, key, p'.pc.stage.status); }
    } else if p'.pc.At? {
      OtherOwnStep(s, t, w);
    }
  }

  lemma AdvanceKeepsProcs(s: Sys, t: Token, w: World)
    requires t in s.procs
    ensures t in AdvanceStep(s, t, w).procs
  {
    hide MustRefuse, Q.Live, Q.Apply;
  }

  lemma DryRunNow(events: seq<Event>, t: Token, w: World, incident: IncidentId, key: ExecKey)
    requires DidAt(events + [Advance(t, w)], |events|, t, incident, key, Prepare)
    ensures DryRun(events + [Advance(t, w)], t, incident, key, w.dryRunOk)
  {
    hide DidAt;
    assert (events + [Advance(t, w)])[|events|].world == w;
  }

  lemma AnsweredNow(events: seq<Event>, t: Token, w: World, incident: IncidentId, key: ExecKey, status: ExecStatus)
    requires DidAt(events + [Advance(t, w)], |events|, t, incident, key, Send) && Means(status, w)
    ensures Answered(events + [Advance(t, w)], t, incident, key, status)
  {
    hide DidAt, Means;
    assert (events + [Advance(t, w)])[|events|].world == w;
  }

  ghost predicate AllHaveCome(events: seq<Event>) {
    forall t :: t in Run(events).procs && t.job < |Run(events).jobs| ==> HasCome(events, t, Run(events).jobs[t.job].work.incident, Run(events).procs[t])
  }

  /** Facts of the invariant about one executor. */
  lemma ProcFacts(events: seq<Event>, t: Token)
    requires t in Run(events).procs
    ensures var s, p := Run(events), Run(events).procs[t];
            && Q.Issued(s.jobs, t) && s.jobs[t.job].work.incident in s.cases
            && (p.pc.At? ==> p.context.Some? && RowInv(s.cases[s.jobs[t.job].work.incident], s.jobs[t.job].work.incident, t, p, Q.Live(s.jobs, t), s.patches))
            && (p.pc.At? ==> p.plan == |s.cases[s.jobs[t.job].work.incident].plans|)
  {
    hide Run, CaseInv, JobsInv, SessionInv, PatchesInv, RowInv, Authorised;
    RunKeepsInv(events, 0);
    var s := Run(events);
    assert ProcInv(s.jobs, s.cases, s.patches, t, s.procs[t]);
  }

  lemma WorkStays(s: Sys, e: Event)
    ensures |s.jobs| <= |Step(s, e).jobs|
    ensures forall i :: 0 <= i < |s.jobs| ==> Step(s, e).jobs[i].work == s.jobs[i].work
  {
    hide MustRefuse, Submitted, Decided, NewPlan, Q.Apply;
    forall op ensures |s.jobs| <= |Q.Apply(s.jobs, op)| && forall i :: 0 <= i < |s.jobs| ==> Q.Apply(s.jobs, op)[i].work == s.jobs[i].work {
      QueueStepFacts(s.jobs, op);
    }
  }

  lemma {:induction false} ExecutorsHaveCome(events: seq<Event>)
    ensures AllHaveCome(events)
    decreases |events|
  {
    hide Run, Step, HasCome, AdvanceStep, RowInv;
    if events == [] {
      NoExecutors();
    } else {
      var shorter, e := events[..|events| - 1], events[|events| - 1];
      assert shorter + [e] == events;
      ExecutorsHaveCome(shorter);
      RunAfter(shorter, e);
      var s, s' := Run(shorter), Run(events);
      forall t | t in s'.procs && t.job < |s'.jobs| ensures HasCome(events, t, s'.jobs[t.job].work.incident, s'.procs[t]) {
        ProcBefore(s, e, t);
        WorkStays(s, e);
        if t in s.procs {
          ProcFacts(shorter, t);
          var incident := s.jobs[t.job].work.incident;
          if e.Advance? && e.token == t {
            OwnStepComes(shorter, t, e.world, incident);
            AdvanceIsItsStep(s, e);
          } else if s'.procs[t] == s.procs[t] {
            HasComeStays(shorter, e, t, incident, s.procs[t]);
          } else {
            NotAtAStage(events, t, incident, s'.procs[t]);
          }
        } else {
          NotAtAStage(events, t, s'.jobs[t.job].work.incident, s'.procs[t]);
        }
      }
    }
  }

  lemma NoExecutors()
    ensures AllHaveCome([])
  {
  }

  lemma NotAtAStage(events: seq<Event>, t: Token, incident: IncidentId, p: Proc)
    requires !p.pc.At?
    ensures HasCome(events, t, incident, p)
  {
  }

  lemma RunAfter(events: seq<Event>, e: Event)
    ensures Run(events + [e]) == Step(Run(events), e)
  {
    hide Step;
    assert (events + [e])[..|events|] == events;
  }

  lemma AdvanceIsItsStep(s: Sys, e: Event)
    requires e.Advance?
    ensures Step(s, e) == AdvanceStep(s, e.token, e.world)
  {
    hide AdvanceStep;
  }

  // ----- The rows -----

  /** What a live executor writes about its action: it records the intent, a refusal, an answer or an interruption. */
  ghost predicate Writes(s: Sys, t: Token, incident: IncidentId, key: ExecKey, row: Exec) {
    && t in s.procs && s.procs[t].pc.At? && ExecKey(s.procs[t].plan, s.procs[t].pc.index) == key
    && OnIncident(s, t, incident) && Q.Live(s.jobs, t)
    && var execs := s.cases[incident].execs;
       match s.procs[t].pc.stage
       case Record => key !in execs && row == Exec(Started, t)
       case RecordFailed => key !in execs && row == Exec(Failed, t)
       case Settle(status) => key in execs && row == execs[key].(status := status)
       case MarkUnknown => key in execs && row == execs[key].(status := Unknown)
       case _ => false
  }

  predicate HasRow(s: Sys, incident: IncidentId, key: ExecKey) { incident in s.cases && key in s.cases[incident].execs }

  lemma RowBefore(s: Sys, e: Event, incident: IncidentId, key: ExecKey)
    requires HasRow(Step(s, e), incident, key)
    ensures var row := Step(s, e).cases[incident].execs[key];
            || (HasRow(s, incident, key) && row == s.cases[incident].execs[key])
            || (e.Advance? && Writes(s, e.token, incident, key, row))
  {
    hide MustRefuse, NewPlan, AdvanceStep, MaySubmit, MayDecide, Q.Apply, Judge;
    if e.Advance? { AdvanceRow(s, e.token, e.world, incident, key); }
  }

  lemma AdvanceRow(s: Sys, t: Token, w: World, incident: IncidentId, key: ExecKey)
    requires HasRow(AdvanceStep(s, t, w), incident, key)
    ensures var row := AdvanceStep(s, t, w).cases[incident].execs[key];
            || (HasRow(s, incident, key) && row == s.cases[incident].execs[key])
            || Writes(s, t, incident, key, row)
  {
    hide MustRefuse, Q.Apply, ActionStep, Q.Live;
    if t in s.procs && s.procs[t].pc.At? && t.job < |s.jobs| && s.jobs[t.job].work.incident in s.cases {
      ActionRow(s, t, w, s.procs[t].pc.stage, s.procs[t].pc.index, incident, key);
    }
  }

  lemma ActionRow(s: Sys, t: Token, w: World, stage: Stage, i: nat, incident: IncidentId, key: ExecKey)
    requires t in s.procs && s.procs[t].pc == At(stage, i) && t.job < |s.jobs| && s.jobs[t.job].work.incident in s.cases
    requires HasRow(ActionStep(s, t, w, stage, i), incident, key)
    ensures var row := ActionStep(s, t, w, stage, i).cases[incident].execs[key];
            || (HasRow(s, incident, key) && row == s.cases[incident].execs[key])
            || Writes(s, t, incident, key, row)
  {
    hide Q.Live;
  }

  // ----- A claim owns no row it has not come to -----

  /** The rows an executor may own by now: those before its action, and its own once it has recorded it. */
  predicate OwnsUpTo(pc: Pc, i: nat) {
    match pc
    case Start => false
    case Review => false
    case At(stage, j) =>
      i < j || (i == j && stage !in {CheckRow, MarkUnknown, Prepare, Record, RecordFailed})
    case _ => true
  }

  ghost predicate OwnsOnlyItsOwn(s: Sys) {
    forall t, incident, key ::
      t in s.procs && HasRow(s, incident, key) && s.cases[incident].execs[key].owner == t ==> OwnsUpTo(s.procs[t].pc, key.index)
  }

  lemma StepOwns(s: Sys, t: Token, w: World, i: nat)
    requires t in s.procs
    ensures t in AdvanceStep(s, t, w).procs
    ensures OwnsUpTo(s.procs[t].pc, i) ==> OwnsUpTo(AdvanceStep(s, t, w).procs[t].pc, i)
  {
    hide MustRefuse, Q.Live, Q.Apply, ActionStep;
    if s.procs[t].pc.At? && t.job < |s.jobs| && s.jobs[t.job].work.incident in s.cases {
      ActionOwns(s, t, w, s.procs[t].pc.stage, s.procs[t].pc.index, i);
    }
  }

  lemma ActionOwns(s: Sys, t: Token, w: World, stage: Stage, j: nat, i: nat)
    requires t in s.procs && s.procs[t].pc == At(stage, j) && t.job < |s.jobs| && s.jobs[t.job].work.incident in s.cases
    ensures t in ActionStep(s, t, w, stage, j).procs
    ensures OwnsUpTo(s.procs[t].pc, i) ==> OwnsUpTo(ActionStep(s, t, w, stage, j).procs[t].pc, i)
  {
    hide Q.Live;
  }

  /** Who inserts a row has come to it. */
  lemma WriterOwns(s: Sys, t: Token, w: World, incident: IncidentId, key: ExecKey, row: Exec)
    requires Writes(s, t, incident, key, row) && !HasRow(s, incident, key)
    ensures row.owner == t && t in AdvanceStep(s, t, w).procs && OwnsUpTo(AdvanceStep(s, t, w).procs[t].pc, key.index)
  {
  }

  lemma OwnersAreIssued(events: seq<Event>, incident: IncidentId, key: ExecKey)
    requires HasRow(Run(events), incident, key)
    ensures Q.Issued(Run(events).jobs, Run(events).cases[incident].execs[key].owner)
  {
    hide Run, PathInv, PlansInv, OutcomesInv, JobsInv, SessionInv, PatchesInv, ProcInv;
    RunKeepsInv(events, 0);
    assert CaseInv(Run(events).jobs, incident, Run(events).cases[incident]);
  }

  /** The row was there with this owner before the event, or the actor inserts it now. */
  lemma OwnerBefore(s: Sys, e: Event, incident: IncidentId, key: ExecKey)
    requires HasRow(Step(s, e), incident, key)
    ensures var owner := Step(s, e).cases[incident].execs[key].owner;
            || (HasRow(s, incident, key) && s.cases[incident].execs[key].owner == owner)
            || (e.Advance? && e.token == owner && !HasRow(s, incident, key)
                && Writes(s, owner, incident, key, Step(s, e).cases[incident].execs[key]))
  {
    RowBefore(s, e, incident, key);
    hide Step;
  }

  lemma {:induction false} ClaimsOwnTheirOwn(events: seq<Event>)
    ensures OwnsOnlyItsOwn(Run(events))
    decreases |events|
  {
    hide Run, Step, AdvanceStep, OwnsUpTo, Writes;
    if events == [] {
      NobodyOwns();
    } else {
      var shorter, e := events[..|events| - 1], events[|events| - 1];
      assert shorter + [e] == events;
      ClaimsOwnTheirOwn(shorter);
      RunAfter(shorter, e);
      var s, s' := Run(shorter), Run(events);
      forall t, incident, key | t in s'.procs && HasRow(s', incident, key) && s'.cases[incident].execs[key].owner == t
        ensures OwnsUpTo(s'.procs[t].pc, key.index)
      {
        OwnerBefore(s, e, incident, key);
        ProcBefore(s, e, t);
        if HasRow(s, incident, key) && s.cases[incident].execs[key].owner == t {
          OwnersAreIssued(shorter, incident, key);
          if e.Advance? && e.token == t { StepOwns(s, t, e.world, key.index); AdvanceIsItsStep(s, e); }
          StoppedOwnsAll(s.procs[t].(pc := Stopped), key.index);
        } else {
          WriterOwns(s, t, e.world, incident, key, s'.cases[incident].execs[key]);
          AdvanceIsItsStep(s, e);
        }
      }
    }
  }

  lemma StoppedOwnsAll(p: Proc, i: nat)
    requires p.pc == Stopped
    ensures OwnsUpTo(p.pc, i)
  {
  }

  lemma NobodyOwns()
    ensures OwnsOnlyItsOwn(Run([]))
  {
  }

  // ----- Every row has its cause -----

  ghost predicate RowsHaveCauses(events: seq<Event>) {
    forall incident, key :: HasRow(Run(events), incident, key) ==> HasCause(events, incident, key, Run(events).cases[incident].execs[key])
  }

  lemma CauseStays(events: seq<Event>, e: Event, incident: IncidentId, key: ExecKey, row: Exec)
    requires HasCause(events, incident, key, row)
    ensures HasCause(events + [e], incident, key, row)
  {
    hide Answered, DryRun, FoundInterrupted;
    CausesStay(events, e, row.owner, incident, key);
  }

  /** The row a live executor is about to settle is its own. */
  lemma SettlesItsOwn(events: seq<Event>, t: Token, incident: IncidentId, key: ExecKey)
    requires t in Run(events).procs && OnIncident(Run(events), t, incident) && Q.Live(Run(events).jobs, t)
    requires Run(events).procs[t].pc.At? && ExecKey(Run(events).procs[t].plan, Run(events).procs[t].pc.index) == key
    ensures Run(events).procs[t].pc.stage.Settle? ==> HasRow(Run(events), incident, key) && Run(events).cases[incident].execs[key].owner == t
    ensures Run(events).procs[t].pc.stage == MarkUnknown ==>
              HasRow(Run(events), incident, key) && Run(events).cases[incident].execs[key].status == Started
  {
    hide Run, Q.Live;
    ProcFacts(events, t);
  }

  lemma WrittenHasCause(events: seq<Event>, t: Token, w: World, incident: IncidentId, key: ExecKey, row: Exec)
    requires Writes(Run(events), t, incident, key, row)
    ensures HasCause(events + [Advance(t, w)], incident, key, row)
  {
    hide Run, DidAt, Answered, DryRun, FoundInterrupted, Q.Live, OwnsUpTo;
    var e, s := Advance(t, w), Run(events);
    var stage := s.procs[t].pc.stage;
    ExecutorsHaveCome(events);
    assert HasCome(events, t, incident, s.procs[t]);
    CausesStay(events, e, t, incident, key);
    SettlesItsOwn(events, t, incident, key);
    NoAnswerIsStarted(events + [e], t, incident, key);
    if stage == MarkUnknown {
      var owner := s.cases[incident].execs[key].owner;
      NotItsOwn(events, t, incident, key);
      DidLast(events, t, w, incident, key, MarkUnknown);
      InterruptedNow(events, t, w, incident, key, owner);
    }
  }

  lemma NoAnswerIsStarted(events: seq<Event>, t: Token, incident: IncidentId, key: ExecKey)
    ensures !Answered(events, t, incident, key, Started)
  {
    hide Run, DidAt;
    forall w ensures !Means(Started, w) {}
  }

  lemma NotItsOwn(events: seq<Event>, t: Token, incident: IncidentId, key: ExecKey)
    requires Stands(Run(events), t, incident, key, MarkUnknown) && HasRow(Run(events), incident, key)
    ensures Run(events).cases[incident].execs[key].owner != t
  {
    hide Run;
    ClaimsOwnTheirOwn(events);
  }

  lemma InterruptedNow(events: seq<Event>, t: Token, w: World, incident: IncidentId, key: ExecKey, owner: Token)
    requires Stands(Run(events), t, incident, key, MarkUnknown) && Q.Live(Run(events).jobs, t) && t != owner
    requires HasRow(Run(events), incident, key) && Run(events).cases[incident].execs[key] == Exec(Started, owner)
    ensures FoundInterrupted(events + [Advance(t, w)], owner, incident, key)
  {
    hide Run, Q.Live;
    var longer := events + [Advance(t, w)];
    assert longer[..|events|] == events;
    assert DidAt(longer, |events|, t, incident, key, MarkUnknown);
  }

  lemma {:induction false} CausesOfRows(events: seq<Event>)
    ensures RowsHaveCauses(events)
    decreases |events|
  {
    hide Run, Step, HasCause, Writes;
    if events == [] {
      NobodyOwnsAnything();
    } else {
      var shorter, e := events[..|events| - 1], events[|events| - 1];
      assert shorter + [e] == events;
      CausesOfRows(shorter);
      RunAfter(shorter, e);
      var s := Run(shorter);
      forall incident, key | HasRow(Run(events), incident, key)
        ensures HasCause(events, incident, key, Run(events).cases[incident].execs[key])
      {
        var row := Run(events).cases[incident].execs[key];
        RowBefore(s, e, incident, key);
        if HasRow(s, incident, key) && row == s.cases[incident].execs[key] {
          CauseStays(shorter, e, incident, key, row);
        } else {
          WrittenHasCause(shorter, e.token, e.world, incident, key, row);
        }
      }
    }
  }

  lemma NobodyOwnsAnything()
    ensures RowsHaveCauses([])
  {
  }

  /**
   * In every run, what a row says is what happened. Succeeded: its owner sent the change and it was
   * applied, or nothing had to be changed. Failed: its owner's change was refused, or its dry run was.
   * Unknown: the owner's change got no answer, or another executor, which owned the job by then, found
   * the attempt interrupted. Every row but a refused dry run's is of an owner whose dry run was accepted.
   */
  lemma RowSaysWhatHappened(events: seq<Event>, incident: IncidentId, key: ExecKey)
    requires HasRow(Run(events), incident, key)
    ensures var row := Run(events).cases[incident].execs[key];
            && (row.status == Succeeded ==>
                  exists k: nat :: DidAt(events, k, row.owner, incident, key, Send)
                    && (events[k].world.noop || events[k].world.sent == Applied))
            && (row.status == Failed ==>
                  || (exists k: nat :: DidAt(events, k, row.owner, incident, key, Send)
                        && !events[k].world.noop && events[k].world.sent == SendResult.Refused)
                  || (exists k: nat :: DidAt(events, k, row.owner, incident, key, Prepare) && !events[k].world.dryRunOk))
            && (row.status == Unknown ==>
                  || (exists k: nat :: DidAt(events, k, row.owner, incident, key, Send)
                        && !events[k].world.noop && events[k].world.sent == NoAnswer)
                  || FoundInterrupted(events, row.owner, incident, key))
            && (row.status == Started ==> DryRun(events, row.owner, incident, key, true))
  {
    hide Run, DidAt, FoundInterrupted;
    CausesOfRows(events);
    assert HasCause(events, incident, key, Run(events).cases[incident].execs[key]);
  }

  // ----- What an executor does with a bad answer -----

  /** The executor will send nothing more: it gives up, or records why it does, or has ended. */
  predicate IsOver(pc: Pc) {
    match pc
    case At(stage, _) => stage == RecordFailed || stage == MarkUnknown || (stage.Settle? && stage.status != Succeeded)
    case Escalate => true
    case Stopped => true
    case _ => false
  }

  lemma OverStaysOver(s: Sys, t: Token, w: World)
    requires t in s.procs && IsOver(s.procs[t].pc)
    ensures t in AdvanceStep(s, t, w).procs && IsOver(AdvanceStep(s, t, w).procs[t].pc) && AdvanceStep(s, t, w).patches == s.patches
  {
    hide MustRefuse, Q.Live, Q.Apply;
  }

  /** The only event that sends a change is a step of its executor, which is at Send. */
  lemma SentByItsOwner(s: Sys, e: Event)
    ensures Step(s, e).patches == s.patches
            || (e.Advance? && e.token in s.procs && s.procs[e.token].pc.At? && s.procs[e.token].pc.stage == Send && !e.world.noop
                && |Step(s, e).patches| == |s.patches| + 1 && Step(s, e).patches[..|s.patches|] == s.patches
                && Step(s, e).patches[|s.patches|].owner == e.token)
  {
    hide MustRefuse, NewPlan, Submitted, Decided, Q.Apply, Q.Live;
  }

  ghost predicate NothingSentSince(s: Sys, before: nat, t: Token) {
    && t in s.procs && IsOver(s.procs[t].pc)
    && before <= |s.patches| && forall j :: before <= j < |s.patches| ==> s.patches[j].owner != t
  }

  lemma StepSendsNothing(s: Sys, e: Event, before: nat, t: Token)
    requires NothingSentSince(s, before, t) && Q.Issued(s.jobs, t)
    ensures NothingSentSince(Step(s, e), before, t)
  {
    SentByItsOwner(s, e);
    ProcStays(s, e, t);
    ProcBefore(s, e, t);
    if e.Advance? && e.token == t {
      OverStaysOver(s, t, e.world);
      AdvanceIsItsStep(s, e);
    }
    hide Step, AdvanceStep;
  }

  lemma ProcStays(s: Sys, e: Event, t: Token)
    requires t in s.procs
    ensures t in Step(s, e).procs
  {
    hide MustRefuse, NewPlan, Submitted, Decided, Q.Apply, ActionStep;
    if e.Advance? { AdvanceKeepsAll(s, e.token, e.world, t); }
  }

  lemma AdvanceKeepsAll(s: Sys, u: Token, w: World, t: Token)
    requires t in s.procs
    ensures t in AdvanceStep(s, u, w).procs
  {
    hide MustRefuse, Q.Live, Q.Apply;
  }

  /** The event leaves its executor with nothing more to send: a refused dry run, or a change not applied. */
  ghost predicate EndsIt(events: seq<Event>, k: nat, t: Token, incident: IncidentId, key: ExecKey)
    requires k < |events| && events[k].Advance?
  {
    || (DidAt(events, k, t, incident, key, Prepare) && !events[k].world.dryRunOk)
    || (DidAt(events, k, t, incident, key, Send) && !Means(Succeeded, events[k].world))
  }

  lemma EndedNow(events: seq<Event>, k: nat, t: Token, incident: IncidentId, key: ExecKey)
    requires k < |events| && events[k].Advance? && EndsIt(events, k, t, incident, key)
    ensures var s := Run(events[..k + 1]); NothingSentSince(s, |s.patches|, t) && Q.Issued(s.jobs, t)
  {
    hide Run, AdvanceStep;
    assert events[..k + 1] == events[..k] + [events[k]];
    RunAfter(events[..k], events[k]);
    AdvanceIsItsStep(Run(events[..k]), events[k]);
    ProcFacts(events[..k], t);
    EndedStep(Run(events[..k]), t, events[k].world);
    ProcFacts(events[..k + 1], t);
  }

  lemma EndedStep(s: Sys, t: Token, w: World)
    requires t in s.procs && s.procs[t].pc.At? && t.job < |s.jobs| && s.jobs[t.job].work.incident in s.cases
    requires (s.procs[t].pc.stage == Prepare && !w.dryRunOk) || (s.procs[t].pc.stage == Send && !Means(Succeeded, w))
    ensures t in AdvanceStep(s, t, w).procs && IsOver(AdvanceStep(s, t, w).procs[t].pc)
  {
    hide Q.Live;
  }

  /** After a refused dry run, a refused change or one without an answer, the executor sends nothing more. */
  lemma {:induction false} NothingSentAfterFailure(events: seq<Event>, k: nat, t: Token, incident: IncidentId, key: ExecKey)
    requires k < |events| && events[k].Advance? && EndsIt(events, k, t, incident, key)
    ensures NothingSentSince(Run(events), |Run(events[..k + 1]).patches|, t)
    decreases |events|
  {
    hide Run, Step, EndsIt, NothingSentSince;
    if |events| == k + 1 {
      assert events[..k + 1] == events;
      EndedNow(events, k, t, incident, key);
    } else {
      var shorter, e := events[..|events| - 1], events[|events| - 1];
      assert shorter + [e] == events && shorter[..k + 1] == events[..k + 1] && shorter[..k] == events[..k];
      assert EndsIt(shorter, k, t, incident, key) by { EndsItEarlier(shorter, e, k, t, incident, key); }
      NothingSentAfterFailure(shorter, k, t, incident, key);
      RunAfter(shorter, e);
      StillIssued(shorter, k, t);
      StepSendsNothing(Run(shorter), e, |Run(events[..k + 1]).patches|, t);
    }
  }

  lemma EndsItEarlier(shorter: seq<Event>, e: Event, k: nat, t: Token, incident: IncidentId, key: ExecKey)
    requires k < |shorter| && shorter[k].Advance? && EndsIt(shorter + [e], k, t, incident, key)
    ensures EndsIt(shorter, k, t, incident, key)
  {
    hide Run;
    assert (shorter + [e])[..k] == shorter[..k];
  }

  lemma StillIssued(events: seq<Event>, k: nat, t: Token)
    requires k < |events| && NothingSentSince(Run(events), |Run(events[..k + 1]).patches|, t)
    ensures Q.Issued(Run(events).jobs, t)
  {
    hide Run, IsOver;
    ProcFacts(events, t);
  }

  // ----- Dry run first -----

  /** Every change was sent after its own executor's dry run of it was accepted. */
  lemma {:induction false} DryRunBeforeEffect(events: seq<Event>, j: nat)
    requires j < |Run(events).patches|
    ensures var patch := Run(events).patches[j]; DryRun(events, patch.owner, patch.incident, patch.key, true)
    decreases |events|
  {
    hide Step, HasCome, DryRun, DidAt;
    var shorter, e := events[..|events| - 1], events[|events| - 1];
    assert shorter + [e] == events;
    var s := Run(shorter);
    SentByItsOwner(s, e);
    if j < |s.patches| {
      DryRunBeforeEffect(shorter, j);
      assert Run(events).patches[j] == s.patches[j];
      CausesStay(shorter, e, s.patches[j].owner, s.patches[j].incident, s.patches[j].key);
    } else {
      PatchIsOfStage(s, e);
      ProcFacts(shorter, e.token);
      ExecutorsHaveCome(shorter);
      SendHasDryRun(shorter, e.token);
      var patch := Run(events).patches[j];
      CausesStay(shorter, e, patch.owner, patch.incident, patch.key);
    }
  }

  lemma SendHasDryRun(events: seq<Event>, t: Token)
    requires t in Run(events).procs && t.job < |Run(events).jobs| && AllHaveCome(events)
    requires Run(events).procs[t].pc.At? && Run(events).procs[t].pc.stage == Send
    ensures DryRun(events, t, Run(events).jobs[t.job].work.incident, ExecKey(Run(events).procs[t].plan, Run(events).procs[t].pc.index), true)
  {
    hide Run, DryRun;
    assert HasCome(events, t, Run(events).jobs[t.job].work.incident, Run(events).procs[t]);
  }

  lemma PatchIsOfStage(s: Sys, e: Event)
    requires |Step(s, e).patches| > |s.patches|
    ensures e.Advance? && e.token in s.procs && e.token.job < |s.jobs| && s.procs[e.token].pc.At?
    ensures var patch := Step(s, e).patches[|s.patches|];
            && patch.owner == e.token && patch.incident == s.jobs[e.token.job].work.incident
            && patch.key == ExecKey(s.procs[e.token].plan, s.procs[e.token].pc.index)
  {
    hide MustRefuse, NewPlan, Submitted, Decided, Q.Apply, Q.Live;
  }

  // ----- Why an executor gives up -----

  /** The plan may run: it is the job's, the incident's current one, permitted again, and approved if either review asks for it. */
  ghost predicate ReviewPasses(c: Case, work: Q.Work, context: PolicyContext) {
    && c.plans != [] && work.plan == Some(PlanId(work.incident, |c.plans|))
    && var n, plan := |c.plans|, c.plans[|c.plans| - 1];
       && plan.verdict != Deny && Acceptable(plan.plan, context)
       && (plan.verdict == RequireApproval || TooRisky(plan.plan, context) ==>
             && n in c.approvals && c.approvals[n].choice == Approve
             && c.approvals[n].hash == plan.hash && c.approvals[n].approver != plan.proposedBy)
  }

  /** Some action is above the risk that needs nobody's approval. */
  ghost predicate TooRisky(plan: RemediationPlan, context: PolicyContext) {
    exists i :: 0 <= i < |plan.actions| && !plan.actions[i].kind.Unlisted? && Rank(RiskOf(plan.actions[i])) > Rank(context.autoMaxRisk)
  }

  lemma JudgeMeans(plan: RemediationPlan, context: PolicyContext)
    ensures Judge(plan, context) != Deny <==> Acceptable(plan, context)
    ensures Judge(plan, context) == RequireApproval <==> Acceptable(plan, context) && TooRisky(plan, context)
  {
    hide RightTarget, Supported, InsideWindow, RiskOf;
    if Acceptable(plan, context) {
      assert forall i :: 0 <= i < |plan.actions| ==> Permitted(plan.actions[i], context) ==> !plan.actions[i].kind.Unlisted?;
    }
  }

  /** The review refuses exactly the plans that may not run. */
  lemma RefusesExactly(c: Case, work: Q.Work, context: PolicyContext)
    ensures MustRefuse(c, work, context) <==> !ReviewPasses(c, work, context)
  {
    hide Judge, Acceptable, TooRisky;
    if c.plans != [] { JudgeMeans(c.plans[|c.plans| - 1].plan, context); }
  }

  /** In this state and with these answers the executor has a reason to hand the incident to a human. */
  ghost predicate GivesReason(s: Sys, t: Token, incident: IncidentId, w: World) {
    && t in s.procs && OnIncident(s, t, incident)
    && match s.procs[t].pc
       case Review => !ReviewPasses(s.cases[incident], s.jobs[t.job].work, w.context)
       case At(stage, i) =>
         var key := ExecKey(s.procs[t].plan, i);
         (match stage
          case CheckRow => HasRow(s, incident, key) && s.cases[incident].execs[key].status in {Failed, Unknown}
          case MarkUnknown => Q.Live(s.jobs, t)
          case Prepare => !w.dryRunOk
          case Send => !Means(Succeeded, w)
          case _ => false)
       case _ => false
  }

  ghost predicate HadReason(events: seq<Event>, t: Token, incident: IncidentId) {
    exists k :: 0 <= k < |events| && ReasonAt(events, k, t, incident)
  }

  ghost predicate ReasonAt(events: seq<Event>, k: nat, t: Token, incident: IncidentId)
    requires k < |events|
  {
    events[k].Advance? && events[k].token == t && GivesReason(Run(events[..k]), t, incident, events[k].world)
  }

  /** The executor is giving up. */
  predicate GivingUp(pc: Pc) {
    match pc
    case At(stage, _) => stage == RecordFailed || (stage.Settle? && stage.status != Succeeded)
    case Escalate => true
    case _ => false
  }

  lemma BeginsToGiveUp(s: Sys, t: Token, w: World, incident: IncidentId)
    requires t in s.procs && OnIncident(s, t, incident) && t in AdvanceStep(s, t, w).procs
    requires GivingUp(AdvanceStep(s, t, w).procs[t].pc) && !GivingUp(s.procs[t].pc)
    requires s.procs[t].pc.At? ==> s.procs[t].context.Some?
    ensures GivesReason(s, t, incident, w)
  {
    hide MustRefuse, ReviewPasses, Q.Apply;
    RefusesExactly(s.cases[incident], s.jobs[t.job].work, w.context);
  }

  lemma ReasonLater(events: seq<Event>, e: Event, t: Token, incident: IncidentId)
    requires HadReason(events, t, incident)
    ensures HadReason(events + [e], t, incident)
  {
    hide Run, GivesReason;
    var k :| 0 <= k < |events| && ReasonAt(events, k, t, incident);
    assert (events + [e])[..k] == events[..k];
    assert ReasonAt(events + [e], k, t, incident);
  }

  lemma ReasonNow(events: seq<Event>, t: Token, w: World, incident: IncidentId)
    requires GivesReason(Run(events), t, incident, w)
    ensures HadReason(events + [Advance(t, w)], t, incident)
  {
    hide Run, GivesReason;
    assert (events + [Advance(t, w)])[..|events|] == events;
    assert ReasonAt(events + [Advance(t, w)], |events|, t, incident);
  }

  ghost predicate ReasonsKnown(events: seq<Event>) {
    forall t :: t in Run(events).procs && GivingUp(Run(events).procs[t].pc) && t.job < |Run(events).jobs| ==>
      HadReason(events, t, Run(events).jobs[t.job].work.incident)
  }

  lemma {:induction false} GivesUpForAReason(events: seq<Event>)
    ensures ReasonsKnown(events)
    decreases |events|
  {
    hide Run, Step, AdvanceStep, GivesReason, HadReason, RowInv;
    if events == [] {
      NobodyGivesUp();
    } else {
      var shorter, e := events[..|events| - 1], events[|events| - 1];
      assert shorter + [e] == events;
      GivesUpForAReason(shorter);
      RunAfter(shorter, e);
      var s, s' := Run(shorter), Run(events);
      forall t | t in s'.procs && GivingUp(s'.procs[t].pc) && t.job < |s'.jobs|
        ensures HadReason(events, t, s'.jobs[t.job].work.incident)
      {
        ProcBefore(s, e, t);
        WorkStays(s, e);
        ProcFacts(shorter, t);
        var incident := s.jobs[t.job].work.incident;
        if GivingUp(s.procs[t].pc) {
          ReasonLater(shorter, e, t, incident);
        } else {
          AdvanceIsItsStep(s, e);
          BeginsToGiveUp(s, t, e.world, incident);
          ReasonNow(shorter, t, e.world, incident);
        }
      }
    }
  }

  lemma NobodyGivesUp()
    ensures ReasonsKnown([])
  {
  }

  /**
   * An executor escalates an incident only if its plan may not run, a row of it had failed or was unknown,
   * an attempt was interrupted, its own dry run was refused or its own change was not applied.
   */
  lemma EscalatesForAReason(events: seq<Event>, t: Token, w: World, incident: IncidentId)
    requires OnIncident(Run(events), t, incident) && Run(events).cases[incident].row.state != Escalated
    requires incident in AdvanceStep(Run(events), t, w).cases && AdvanceStep(Run(events), t, w).cases[incident].row.state == Escalated
    ensures HadReason(events, t, incident)
  {
    hide Run, HadReason;
    GivesUpForAReason(events);
    EscalatesAtEscalate(Run(events), t, w, incident);
  }

  lemma EscalatesAtEscalate(s: Sys, t: Token, w: World, incident: IncidentId)
    requires OnIncident(s, t, incident) && s.cases[incident].row.state != Escalated
    requires incident in AdvanceStep(s, t, w).cases && AdvanceStep(s, t, w).cases[incident].row.state == Escalated
    ensures t in s.procs && s.procs[t].pc == Escalate
  {
    hide MustRefuse, Q.Apply, Q.Live;
  }

  // ----- What a live executor records -----

  /** The status a live executor leaves behind at this stage, if it leaves one. */
  function Records(stage: Stage): Option<ExecStatus> {
    match stage
    case RecordFailed => Some(Failed)
    case MarkUnknown => Some(Unknown)
    case Settle(status) => Some(status)
    case _ => None
  }

  lemma RecordedNow(s: Sys, t: Token, w: World, incident: IncidentId, key: ExecKey, stage: Stage)
    requires Stands(s, t, incident, key, stage) && Records(stage).Some? && Q.Live(s.jobs, t)
    requires stage == RecordFailed <==> !HasRow(s, incident, key)
    ensures HasRow(AdvanceStep(s, t, w), incident, key)
    ensures AdvanceStep(s, t, w).cases[incident].execs[key].status == Records(stage).value
  {
    hide Q.Live;
  }

  /**
   * A live executor's refused dry run is recorded as failed, what its change came to as the answer means,
   * and an interrupted attempt as unknown; and so it stays for the rest of the run.
   */
  lemma OutcomeIsRecorded(events: seq<Event>, m: nat, t: Token, incident: IncidentId, key: ExecKey, stage: Stage)
    requires DidAt(events, m, t, incident, key, stage) && Records(stage).Some?
    requires Q.Live(Run(events[..m]).jobs, t) && (stage == RecordFailed <==> !HasRow(Run(events[..m]), incident, key))
    ensures HasRow(Run(events), incident, key) && Run(events).cases[incident].execs[key].status == Records(stage).value
    ensures stage.Settle? ==> Answered(events[..m], t, incident, key, stage.status)
  {
    hide Run, AdvanceStep, Answered, Q.Live;
    var s := Run(events[..m]);
    assert events[..m + 1] == events[..m] + [events[m]];
    RunAfter(events[..m], events[m]);
    AdvanceIsItsStep(s, events[m]);
    RecordedNow(s, t, events[m].world, incident, key, stage);
    RemediationTheorems.SettledRowsNeverChange(events, m + 1, incident, key);
    ExecutorsHaveCome(events[..m]);
    assert HasCome(events[..m], t, incident, s.procs[t]);
    NoAnswerIsStarted(events[..m], t, incident, key);
  }

  // ----- What a live executor leaves of the incident -----

  predicate GivesUp(s: Sys, e: Event, incident: IncidentId) {
    && e.Advance? && e.token in s.procs && s.procs[e.token].pc == Escalate
    && OnIncident(s, e.token, incident) && Q.Live(s.jobs, e.token)
  }

  lemma HandedOverNow(s: Sys, e: Event, incident: IncidentId)
    requires GivesUp(s, e, incident)
    ensures incident in Step(s, e).cases
    ensures var was, now := s.cases[incident].row, Step(s, e).cases[incident].row;
            if Terminal(was.state) then now == was else now == IncidentRow(Escalated, was.version + 1, true)
  {
    hide Q.Live;
  }

  /** A live executor that gives up leaves its incident with a human for good, unless it was closed already. */
  lemma GivingUpHandsOver(events: seq<Event>, m: nat, incident: IncidentId)
    requires m < |events| && GivesUp(Run(events[..m]), events[m], incident)
    ensures incident in Run(events).cases
    ensures var was, now := Run(events[..m]).cases[incident].row, Run(events).cases[incident].row;
            now.closed && now.state == if Terminal(was.state) then was.state else Escalated
  {
    hide Run, Step, Q.Live;
    assert events[..m + 1] == events[..m] + [events[m]];
    RunAfter(events[..m], events[m]);
    RemediationTheorems.TrailTellsTheRow(events[..m], incident);
    HandedOverNow(Run(events[..m]), events[m], incident);
    RemediationTheorems.ClosedIsForever(events, m + 1, incident);
  }

  lemma AnnouncedNow(s: Sys, t: Token, w: World, incident: IncidentId, key: ExecKey)
    requires Stands(s, t, incident, key, AnnounceSuccess) && Q.Live(s.jobs, t)
    ensures var after := AdvanceStep(s, t, w);
            && incident in after.cases && ExecutionSucceeded(key, t) in after.cases[incident].trail
            && t in after.procs && after.procs[t].pc == At(CheckRow, key.index + 1)
  {
    hide Q.Live;
  }

  /** A live executor announces each success in the incident's trail, and it stays there. */
  lemma SuccessIsAnnounced(events: seq<Event>, m: nat, t: Token, incident: IncidentId, key: ExecKey)
    requires DidAt(events, m, t, incident, key, AnnounceSuccess) && Q.Live(Run(events[..m]).jobs, t)
    ensures incident in Run(events).cases && ExecutionSucceeded(key, t) in Run(events).cases[incident].trail
  {
    hide Run, AdvanceStep, Q.Live, Inv;
    assert events[..m + 1] == events[..m] + [events[m]];
    RunAfter(events[..m], events[m]);
    AdvanceIsItsStep(Run(events[..m]), events[m]);
    AnnouncedNow(Run(events[..m]), t, events[m].world, incident, key);
    RunKeepsInv(events, m + 1);
    assert Grows(Run(events[..m + 1]).cases[incident], Run(events).cases[incident]);
  }
}
