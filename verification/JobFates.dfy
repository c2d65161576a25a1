/** What the statements mean for a job later on: which are final, how long it waits, what a lease protects. */
module JobFates {
  import opened Domain
  import opened JobQueue
  import opened Fencing
  import opened Bypass

  /** None of the statements from m to n (excluded) claims the job. */
  ghost predicate Unclaimed(ops: seq<Op>, m: nat, n: nat, k: nat)
    requires n <= |ops|
  {
    forall i :: m <= i < n ==> !ClaimsRow(Run(ops[..i]), ops[i], k)
  }

  lemma RunOneMore(ops: seq<Op>, m: nat)
    requires m < |ops|
    ensures Run(ops[..m + 1]) == Apply(Run(ops[..m]), ops[m])
  {
    assert ops[..m + 1][..m] == ops[..m];
  }

  /** Only a claim changes a row that waits, and nothing changes one that is closed. */
  lemma RestingRow(jobs: seq<Job>, op: Op, k: nat)
    requires k < |jobs| && jobs[k].status != Running
    ensures ClaimsRow(jobs, op, k) ==> jobs[k].status == Queued
    ensures !ClaimsRow(jobs, op, k) ==> k < |Apply(jobs, op)| && Apply(jobs, op)[k] == jobs[k]
  {
    hide Eligible, Before;
    if op.Claim? { NextIsEligible(jobs, op.args); }
  }

  lemma NextIsEligible(jobs: seq<Job>, c: ClaimArgs)
    ensures var k := Next(jobs, c, |jobs|); k.Some? ==> jobs[k.value].status == Queued
  {
  }

  lemma FenceNeverFalls(jobs: seq<Job>, op: Op, k: nat)
    requires k < |jobs|
    ensures k < |Apply(jobs, op)| && jobs[k].fence <= Apply(jobs, op)[k].fence
  {
    StepKeepsRow(jobs, op, k);
  }

  /** A job that waits stays as it is until it is claimed. */
  lemma {:induction false} WaitsUntilClaimed(ops: seq<Op>, m: nat, n: nat, k: nat)
    requires m <= n <= |ops| && k < |Run(ops[..m])| && Run(ops[..m])[k].status != Running
    requires Unclaimed(ops, m, n, k)
    ensures k < |Run(ops[..n])| && Run(ops[..n])[k] == Run(ops[..m])[k]
    decreases n
  {
    hide Run, Apply, ClaimsRow;
    if m < n {
      WaitsUntilClaimed(ops, m, n - 1, k);
      RunOneMore(ops, n - 1);
      RestingRow(Run(ops[..n - 1]), ops[n - 1], k);
    }
  }

  /** A job that is done or dead stays exactly as it is, and is never claimed again. */
  lemma {:induction false} ClosedIsFinal(ops: seq<Op>, m: nat, n: nat, k: nat)
    requires m <= n <= |ops| && k < |Run(ops[..m])| && Run(ops[..m])[k].status in {Done, Dead}
    ensures k < |Run(ops[..n])| && Run(ops[..n])[k] == Run(ops[..m])[k] && Unclaimed(ops, m, n, k)
    decreases n
  {
    hide Run, Apply, ClaimsRow;
    if m < n {
      ClosedIsFinal(ops, m, n - 1, k);
      RunOneMore(ops, n - 1);
      RestingRow(Run(ops[..n - 1]), ops[n - 1], k);
    }
  }

  /** What a claim takes was waiting, due, and of a priority and kind it asked for. */
  lemma ClaimedIsDue(jobs: seq<Job>, op: Op, k: nat)
    requires ClaimsRow(jobs, op, k)
    ensures k < |jobs| && jobs[k].status == Queued && jobs[k].runAfter <= op.args.now && jobs[k].priority <= op.args.maxPriority
    ensures op.args.kinds != {} ==> jobs[k].work.kind in op.args.kinds
    ensures k !in op.args.locked
  {
    assert Eligible(jobs, k, op.args);
  }

  /** The job waits, and a claim that asks for its priority and any kind can take it from this time on, not before. */
  ghost predicate DueFrom(jobs: seq<Job>, k: nat, time: int) {
    && k < |jobs| && jobs[k].status == Queued
    && forall c: ClaimArgs :: k !in c.locked && c.kinds == {} && jobs[k].priority <= c.maxPriority ==>
         (Eligible(jobs, k, c) <==> time <= c.now)
  }

  lemma QueuedIsDue(jobs: seq<Job>, k: nat)
    requires k < |jobs| && jobs[k].status == Queued
    ensures DueFrom(jobs, k, jobs[k].runAfter)
  {
  }

  // ----- How a run of a job ends -----

  /** The statement ends a run of the job for good, or leaves the job to be run again. */
  predicate Closes(jobs: seq<Job>, op: Op)
    requires (op.Complete? || op.Fail?) && Live(jobs, op.token)
  {
    op.Complete? || !op.retryable || jobs[op.token.job].attempts >= jobs[op.token.job].maxAttempts
  }

  lemma JustEnded(jobs: seq<Job>, op: Op)
    requires (op.Complete? || op.Fail?) && Live(jobs, op.token)
    ensures var k, after := op.token.job, Apply(jobs, op);
            && k < |after| && after[k].attempts == jobs[k].attempts
            && after[k].status == (if op.Complete? then Done else if Closes(jobs, op) then Dead else Queued)
            && (op.Fail? ==> after[k].runAfter == op.now + op.delay)
  {
  }

  /** Done for good, or dead for good. */
  ghost predicate ClosedFor(ops: seq<Op>, m: nat, n: nat, k: nat, status: Status)
    requires m <= n <= |ops|
  {
    k < |Run(ops[..n])| && Run(ops[..n])[k].status == status && Unclaimed(ops, m, n, k)
  }

  /**
   * A job that completes is done for good; one that fails for good, or without an attempt left, is dead
   * for good; no claim after that takes it. Exactly then: any other failure leaves it waiting, with its
   * attempts as they were, and it can be claimed once the delay has passed, not before.
   */
  lemma ClosedExactly(ops: seq<Op>, m: nat, n: nat)
    requires m < n <= |ops| && (ops[m].Complete? || ops[m].Fail?) && Live(Run(ops[..m]), ops[m].token)
    ensures var k, was := ops[m].token.job, Run(ops[..m]);
            && (Closes(was, ops[m]) ==> ClosedFor(ops, m + 1, n, k, if ops[m].Complete? then Done else Dead))
            && (!Closes(was, ops[m]) && Unclaimed(ops, m + 1, n, k) ==>
                  DueFrom(Run(ops[..n]), k, ops[m].now + ops[m].delay) && Run(ops[..n])[k].attempts == was[k].attempts)
  {
    var k, was := ops[m].token.job, Run(ops[..m]);
    RunOneMore(ops, m);
    JustEnded(was, ops[m]);
    hide Run, Apply, Closes, Unclaimed, DueFrom;
    if Closes(was, ops[m]) {
      ClosedIsFinal(ops, m + 1, n, k);
    } else if Unclaimed(ops, m + 1, n, k) {
      WaitsUntilClaimed(ops, m + 1, n, k);
      QueuedIsDue(Run(ops[..n]), k);
    }
  }

  lemma JustReleased(jobs: seq<Job>, op: Op)
    requires op.Release? && Live(jobs, op.token)
    ensures var k, after := op.token.job, Apply(jobs, op);
            k < |after| && after[k].status == Queued && after[k].attempts == jobs[k].attempts - 1 && after[k].runAfter == op.now
  {
  }

  /** A job that is handed back waits with one attempt less, and can be claimed at once. */
  lemma ReleasedGoesBack(ops: seq<Op>, m: nat, n: nat)
    requires m < n <= |ops| && ops[m].Release? && Live(Run(ops[..m]), ops[m].token) && Unclaimed(ops, m + 1, n, ops[m].token.job)
    ensures var k := ops[m].token.job;
            DueFrom(Run(ops[..n]), k, ops[m].now) && Run(ops[..n])[k].attempts == Run(ops[..m])[k].attempts - 1
  {
    RunOneMore(ops, m);
    JustReleased(Run(ops[..m]), ops[m]);
    hide Run, Apply, Unclaimed, DueFrom;
    WaitsUntilClaimed(ops, m + 1, n, ops[m].token.job);
    QueuedIsDue(Run(ops[..n]), ops[m].token.job);
  }

  lemma JustEnqueued(jobs: seq<Job>, op: Op)
    requires op.Enqueue? && !KeyTaken(jobs, op.what.key)
    ensures var after := Apply(jobs, op);
            && |after| == |jobs| + 1 && after[|jobs|].status == Queued && after[|jobs|].attempts == 0
            && after[|jobs|].work == op.what.work && after[|jobs|].key == op.what.key && after[|jobs|].runAfter == op.now + op.what.delay
  {
  }

  /** A new job waits, untried, until it is claimed, and can be claimed once its delay has passed, not before. */
  lemma EnqueuedWaits(ops: seq<Op>, m: nat, n: nat)
    requires m < n <= |ops| && ops[m].Enqueue? && !KeyTaken(Run(ops[..m]), ops[m].what.key)
    requires Unclaimed(ops, m + 1, n, |Run(ops[..m])|)
    ensures var k := |Run(ops[..m])|;
            && DueFrom(Run(ops[..n]), k, ops[m].now + ops[m].what.delay) && Run(ops[..n])[k].attempts == 0
            && Run(ops[..n])[k].work == ops[m].what.work && Run(ops[..n])[k].key == ops[m].what.key
  {
    var k := |Run(ops[..m])|;
    RunOneMore(ops, m);
    JustEnqueued(Run(ops[..m]), ops[m]);
    hide Run, Apply, Unclaimed, DueFrom;
    WaitsUntilClaimed(ops, m + 1, n, k);
    QueuedIsDue(Run(ops[..n]), k);
  }

  // ----- Leases -----

  /** Running and leased are the same thing. */
  lemma {:induction false} RunningMeansLeased(ops: seq<Op>, k: nat)
    requires k < |Run(ops)|
    ensures Run(ops)[k].status == Running <==> Run(ops)[k].leaseOwner.Some?
    ensures Run(ops)[k].status == Running <==> Run(ops)[k].leaseUntil.Some?
  {
    var shorter := ops[..|ops| - 1];
    if k < |Run(shorter)| { RunningMeansLeased(shorter, k); }
    hide Eligible, Before;
  }

  /** The statement gives the token a lease until this time. */
  predicate Leases(ops: seq<Op>, m: nat, t: Token, until: int)
    requires m < |ops|
  {
    match ops[m]
    case Claim(c) => ClaimsRow(Run(ops[..m]), ops[m], t.job) && t.fence == Run(ops[..m])[t.job].fence + 1 && until == c.now + c.leaseTtl
    case Heartbeat(u, now, ttl) => u == t && Live(Run(ops[..m]), t) && until == now + ttl
    case _ => false
  }

  /** The statement is one of the holder's own that ends or renews its lease. */
  predicate OwnStatement(op: Op, t: Token) {
    (op.Heartbeat? || op.Complete? || op.Fail? || op.Release?) && op.token == t
  }

  /** From m to n the holder says nothing, and no reaper that could take the row comes after the time. */
  ghost predicate Undisturbed(ops: seq<Op>, m: nat, n: nat, t: Token, until: int)
    requires n <= |ops|
  {
    forall i :: m <= i < n ==>
      && !OwnStatement(ops[i], t)
      && (ops[i].Reap? ==> ops[i].now <= until || t.job in ops[i].locked)
  }

  lemma LeasedRow(jobs: seq<Job>, op: Op, t: Token, until: int)
    requires Live(jobs, t) && jobs[t.job].leaseUntil == Some(until) && !OwnStatement(op, t)
    ensures op.Reap? && op.now > until && t.job !in op.locked <==> !Live(Apply(jobs, op), t)
    ensures Live(Apply(jobs, op), t) ==> Apply(jobs, op)[t.job] == jobs[t.job]
    ensures !Live(Apply(jobs, op), t) ==>
      Apply(jobs, op)[t.job].status == if jobs[t.job].attempts >= jobs[t.job].maxAttempts then Dead else Queued
  {
    hide Eligible, Before;
    if op.Claim? { NextIsEligible(jobs, op.args); }
  }

  lemma LeaseIsWritten(ops: seq<Op>, m: nat, t: Token, until: int)
    requires m < |ops| && Leases(ops, m, t, until)
    ensures Live(Run(ops[..m + 1]), t) && Run(ops[..m + 1])[t.job].leaseUntil == Some(until)
  {
    RunOneMore(ops, m);
    hide Run;
  }

  ghost predicate HeldUntil(jobs: seq<Job>, t: Token, until: int, row: Job) {
    Live(jobs, t) && jobs[t.job] == row && row.leaseUntil == Some(until)
  }

  /** A lease holds, and the row stays as it is, whatever others do, as long as no reaper comes after it has run out. */
  lemma {:induction false} LeaseProtects(ops: seq<Op>, m: nat, n: nat, t: Token, until: int)
    requires m < n <= |ops| && Leases(ops, m, t, until) && Undisturbed(ops, m + 1, n, t, until)
    ensures t.job < |Run(ops[..m + 1])| && HeldUntil(Run(ops[..n]), t, until, Run(ops[..m + 1])[t.job])
    decreases n
  {
    hide Run, Apply, OwnStatement;
    LeaseIsWritten(ops, m, t, until);
    if n > m + 1 {
      LeaseProtects(ops, m, n - 1, t, until);
      RunOneMore(ops, n - 1);
      hide Leases;
      LeasedRow(Run(ops[..n - 1]), ops[n - 1], t, until);
    }
  }

  lemma JustReaped(jobs: seq<Job>, op: Op, t: Token, until: int)
    requires op.Reap? && op.now > until && t.job !in op.locked && Live(jobs, t) && jobs[t.job].leaseUntil == Some(until)
    ensures var after := Apply(jobs, op);
            && t.job < |after| && after[t.job].attempts == jobs[t.job].attempts && after[t.job].runAfter == jobs[t.job].runAfter
            && after[t.job].status == if jobs[t.job].attempts >= jobs[t.job].maxAttempts then Dead else Queued
  {
  }

  /**
   * And the first reaper after that, if nobody holds the row, takes it: dead for good exactly if its
   * attempts are used up, and otherwise back in line, due when it was due before.
   */
  lemma ReapedExactly(ops: seq<Op>, m: nat, r: nat, n: nat, t: Token, until: int)
    requires m < r < n <= |ops| && Leases(ops, m, t, until) && Undisturbed(ops, m + 1, r, t, until)
    requires ops[r].Reap? && ops[r].now > until && t.job !in ops[r].locked
    ensures Live(Run(ops[..r]), t)
    ensures var was := Run(ops[..r])[t.job];
            && (was.attempts >= was.maxAttempts ==> ClosedFor(ops, r + 1, n, t.job, Dead))
            && (was.attempts < was.maxAttempts && Unclaimed(ops, r + 1, n, t.job) ==>
                  DueFrom(Run(ops[..n]), t.job, was.runAfter) && Run(ops[..n])[t.job].attempts == was.attempts)
  {
    LeaseProtects(ops, m, r, t, until);
    RunOneMore(ops, r);
    var was := Run(ops[..r]);
    hide Run, Apply, Unclaimed, DueFrom, Leases, Undisturbed;
    JustReaped(was, ops[r], t, until);
    if was[t.job].attempts >= was[t.job].maxAttempts {
      ClosedIsFinal(ops, r + 1, n, t.job);
    } else if Unclaimed(ops, r + 1, n, t.job) {
      WaitsUntilClaimed(ops, r + 1, n, t.job);
      QueuedIsDue(Run(ops[..n]), t.job);
    }
  }
}
