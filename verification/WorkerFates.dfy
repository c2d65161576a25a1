/** What a worker starts, and what becomes of a job when its task ends. */
module WorkerFates {
  import opened Domain
  import opened Workers
  import Q = JobQueue
  import Bypass
  import JobFates

  // ----- A worker's run is a run of the queue -----

  function OpsOf(c: Config, s: Sys, e: Event): seq<Q.Op> {
    match e
    case Other(op) => [op]
    case Poll(now, locked) => if Free(c, s.worker) > 0 then [Q.Claim(ClaimOf(c, s.worker, now, locked))] else []
    case End(t, ending, now, delay) =>
      if t in s.worker.tasks && Closing(t, ending, now, delay).Some? then [Closing(t, ending, now, delay).value] else []
  }

  function Statements(c: Config, events: seq<Event>): seq<Q.Op> {
    if events == [] then []
    else Statements(c, events[..|events| - 1]) + OpsOf(c, Run(c, events[..|events| - 1]), events[|events| - 1])
  }

  lemma StepApplies(c: Config, s: Sys, e: Event)
    ensures |OpsOf(c, s, e)| <= 1
    ensures Step(c, s, e).jobs == if OpsOf(c, s, e) == [] then s.jobs else Q.Apply(s.jobs, OpsOf(c, s, e)[0])
  {
    hide Q.Next, Closing;
    if e.Poll? { ClaimsNothing(s.jobs, ClaimOf(c, s.worker, e.now, e.locked)); }
  }

  lemma ClaimsNothing(jobs: seq<Q.Job>, args: Q.ClaimArgs)
    ensures Q.Next(jobs, args, |jobs|).None? ==> Q.Apply(jobs, Q.Claim(args)) == jobs
  {
    hide Q.Next;
  }

  /** The table a worker's run leaves is the one its statements and everybody else's leave. */
  lemma {:induction false} RunIsStatements(c: Config, events: seq<Event>)
    ensures Run(c, events).jobs == Q.Run(Statements(c, events))
    decreases |events|
  {
    hide Step, OpsOf, Q.Apply;
    if events == [] {
    } else {
      var shorter, e := events[..|events| - 1], events[|events| - 1];
      RunIsStatements(c, shorter);
      StepApplies(c, Run(c, shorter), e);
      var ops, more := Statements(c, shorter), OpsOf(c, Run(c, shorter), e);
      if more == [] {
        assert ops + more == ops;
      } else {
        assert more == [more[0]];
        AppendStatement(ops, more[0]);
      }
    }
  }

  lemma AppendStatement(ops: seq<Q.Op>, op: Q.Op)
    ensures Q.Run(ops + [op]) == Q.Apply(Q.Run(ops), op)
  {
    hide Q.Apply;
    assert (ops + [op])[..|ops|] == ops;
  }

  lemma {:induction false} StatementsGrow(c: Config, events: seq<Event>, m: nat)
    requires m <= |events|
    ensures Statements(c, events[..m]) <= Statements(c, events)
    decreases |events|
  {
    hide OpsOf, Run;
    if m < |events| {
      var shorter := events[..|events| - 1];
      assert shorter[..m] == events[..m];
      StatementsGrow(c, shorter, m);
    } else {
      assert events[..m] == events;
    }
  }

  // ----- What becomes of the job -----

  /** The task ends as the owner of its job, in a way that closes the job or hands it back. */
  predicate EndsAsOwner(s: Sys, e: Event) {
    e.End? && e.token in s.worker.tasks && Q.Live(s.jobs, e.token)
  }

  /** No claim after the m-th event takes the job. */
  ghost predicate NotClaimedSince(c: Config, events: seq<Event>, m: nat, k: nat)
    requires m < |events|
  {
    JobFates.Unclaimed(Statements(c, events), |Statements(c, events[..m])| + 1, |Statements(c, events)|, k)
  }

  lemma EndingStatement(c: Config, events: seq<Event>, m: nat)
    requires m < |events| && EndsAsOwner(Run(c, events[..m]), events[m]) && events[m].ending != LostLease
    ensures var ops, i := Statements(c, events), |Statements(c, events[..m])|;
            && i < |ops| && Some(ops[i]) == Closing(events[m].token, events[m].ending, events[m].now, events[m].delay)
            && Q.Run(ops[..i]) == Run(c, events[..m]).jobs && Q.Run(ops[..|ops|]) == Run(c, events).jobs
  {
    hide Run, Q.Run, Step, Q.Live;
    var ops := Statements(c, events);
    StatementsGrow(c, events, m + 1);
    assert events[..m + 1][..m] == events[..m];
    assert Statements(c, events[..m + 1]) == Statements(c, events[..m]) + OpsOf(c, Run(c, events[..m]), events[m]);
    var i := |Statements(c, events[..m])|;
    assert ops[..i] == Statements(c, events[..m]) && ops[..|ops|] == ops;
    RunIsStatements(c, events[..m]);
    RunIsStatements(c, events);
  }

  /**
   * Whatever happens afterwards: a handler that returned leaves its job done; one that failed for good leaves
   * it dead, and one that failed for now does so exactly if no attempt is left; none of them is claimed again.
   * Otherwise the job waits until it is claimed: after the delay if it failed, at once and with the attempt
   * given back if the worker shut down.
   */
  lemma TaskDecidesItsJob(c: Config, events: seq<Event>, m: nat)
    requires m < |events| && EndsAsOwner(Run(c, events[..m]), events[m])
    ensures var e, was, jobs := events[m], Run(c, events[..m]).jobs, Run(c, events).jobs;
            var k := e.token.job;
            k < |was| &&
            var spent := was[k].attempts >= was[k].maxAttempts;
            && (e.ending == Returned ==> k < |jobs| && jobs[k].status == Q.Done && NotClaimedSince(c, events, m, k))
            && (e.ending == FailedForGood || (e.ending == FailedForNow && spent) ==>
                  k < |jobs| && jobs[k].status == Q.Dead && NotClaimedSince(c, events, m, k))
            && (e.ending == FailedForNow && !spent && NotClaimedSince(c, events, m, k) ==>
                  JobFates.DueFrom(jobs, k, e.now + e.delay) && jobs[k].attempts == was[k].attempts)
            && (e.ending == Cancelled && NotClaimedSince(c, events, m, k) ==>
                  JobFates.DueFrom(jobs, k, e.now) && jobs[k].attempts == was[k].attempts - 1)
  {
    hide Run, Statements, Q.Run, JobFates.Unclaimed, JobFates.DueFrom;
    var e := events[m];
    if e.ending != LostLease {
      EndingStatement(c, events, m);
      var ops, i := Statements(c, events), |Statements(c, events[..m])|;
      if e.ending == Cancelled {
        if NotClaimedSince(c, events, m, e.token.job) { JobFates.ReleasedGoesBack(ops, i, |ops|); }
      } else {
        JobFates.ClosedExactly(ops, i, |ops|);
      }
    }
  }

  /** A task that lost its lease leaves the table as it was. */
  lemma LostLeaseTouchesNothing(c: Config, s: Sys, t: Token, now: int, delay: int)
    ensures Step(c, s, End(t, LostLease, now, delay)).jobs == s.jobs
  {
  }

  // ----- What a poll starts -----

  /** A job this worker could run now. */
  predicate Waiting(c: Config, s: Sys, k: nat, now: int, locked: set<nat>) {
    && k < |s.jobs| && s.jobs[k].status == Q.Queued && s.jobs[k].runAfter <= now && k !in locked
    && (c.kinds == {} || s.jobs[k].work.kind in c.kinds)
  }

  /**
   * A poll starts a job exactly if a slot is free and a job waits that the slot may take: any of priority up
   * to 3 if more slots are free than are reserved, else one of priority 0; and it holds its lease as long as configured.
   */
  lemma PollStartsExactly(c: Config, s: Sys, now: int, locked: set<nat>)
    ensures Starts(c, s, Poll(now, locked)) <==>
            && |s.worker.running| < c.concurrency
            && exists k: nat :: Waiting(c, s, k, now, locked)
                 && s.jobs[k].priority <= (if c.concurrency - |s.worker.running| > c.reserved then 3 else 0)
    ensures Starts(c, s, Poll(now, locked)) ==>
            var k := StartedJob(c, s, Poll(now, locked));
            var jobs := Step(c, s, Poll(now, locked)).jobs;
            && k < |jobs| && jobs[k].leaseOwner == Some(c.owner) && jobs[k].leaseUntil == Some(now + c.leaseTtl)
            && Q.Live(jobs, Token(k, jobs[k].fence)) && Token(k, jobs[k].fence) in Step(c, s, Poll(now, locked)).worker.tasks
  {
    hide Q.Before;
    var args := ClaimOf(c, s.worker, now, locked);
    forall k: nat | k < |s.jobs|
      ensures Q.Eligible(s.jobs, k, args) <==>
              Waiting(c, s, k, now, locked) && s.jobs[k].priority <= (if c.concurrency - |s.worker.running| > c.reserved then 3 else 0)
    {
    }
    var next := Q.Next(s.jobs, args, |s.jobs|);
    if next.Some? { assert Q.Eligible(s.jobs, next.value, args); }
  }
}
