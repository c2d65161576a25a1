/** The leased job queue: rows, the statements that change them, and runs of those statements. */
module JobQueue {
  import opened Domain

  datatype Status = Queued | Running | Done | Dead

  /** One row of `jobs`. A row's id is its index in the table. */
  datatype Job = Job(
    work: Work,
    key: Option<JobKey>,
    priority: int,
    maxAttempts: int,
    createdAt: int,
    sortKey: int,
    status: Status,
    attempts: int,
    fence: nat,
    runAfter: int,
    leaseOwner: Option<string>,
    leaseUntil: Option<int>)

  /** What the job is about: its kind, its incident and the plan named in its payload. */
  datatype Work = Work(kind: JobKind, incident: IncidentId, plan: Option<PlanId>)

  datatype EnqueueArgs = EnqueueArgs(
    work: Work, key: Option<JobKey>, priority: int, maxAttempts: int, agingStep: int, delay: int)

  /** `kinds` empty means any kind; `locked` are the rows other transactions hold (SKIP LOCKED). */
  datatype ClaimArgs = ClaimArgs(
    owner: string, now: int, leaseTtl: int, maxPriority: int, kinds: set<JobKind>, locked: set<nat>)

  datatype Op =
    | Enqueue(what: EnqueueArgs, now: int)
    | Claim(args: ClaimArgs)
    | Heartbeat(token: Token, now: int, leaseTtl: int)
    | Complete(token: Token)
    | Fail(token: Token, retryable: bool, now: int, delay: int)
    | Release(token: Token, now: int)
    | Reap(now: int, locked: set<nat>)

  // ----- What each statement does to the table -----

  /** A token is live while its job is running at its fence. Lease expiry alone does not end that. */
  predicate Live(jobs: seq<Job>, t: Token) {
    t.job < |jobs| && jobs[t.job].fence == t.fence && jobs[t.job].status == Running
  }

  predicate Issued(jobs: seq<Job>, t: Token) {
    t.job < |jobs| && t.fence <= jobs[t.job].fence
  }

  predicate KeyTaken(jobs: seq<Job>, key: Option<JobKey>) {
    key.Some? && exists i :: 0 <= i < |jobs| && jobs[i].key == key
  }

  function NewJob(a: EnqueueArgs, now: int): Job {
    Job(a.work, a.key, a.priority, a.maxAttempts, now, now + a.priority * a.agingStep,
        Queued, 0, 0, now + a.delay, None, None)
  }

  predicate Eligible(jobs: seq<Job>, k: nat, c: ClaimArgs)
    requires k < |jobs|
  {
    && jobs[k].status == Queued
    && jobs[k].runAfter <= c.now
    && jobs[k].priority <= c.maxPriority
    && (c.kinds == {} || jobs[k].work.kind in c.kinds)
    && k !in c.locked
  }

  /** Claim order: `ORDER BY sort_key, id`. */
  predicate Before(jobs: seq<Job>, a: nat, b: nat)
    requires a < |jobs| && b < |jobs|
  {
    jobs[a].sortKey < jobs[b].sortKey || (jobs[a].sortKey == jobs[b].sortKey && a < b)
  }

  /** The eligible row among the first `n` that comes before every other eligible one. */
  function Next(jobs: seq<Job>, c: ClaimArgs, n: nat): (r: Option<nat>)
    requires n <= |jobs|
    ensures r.None? ==> forall k :: 0 <= k < n ==> !Eligible(jobs, k, c)
    ensures r.Some? ==> r.value < n && Eligible(jobs, r.value, c)
    ensures r.Some? ==> forall k :: 0 <= k < n && Eligible(jobs, k, c) ==> k == r.value || Before(jobs, r.value, k)
  {
    if n == 0 then None
    else
      var best := Next(jobs, c, n - 1);
      if Eligible(jobs, n - 1, c) && (best.None? || Before(jobs, n - 1, best.value)) then Some(n - 1) else best
  }

  function ClaimedRow(row: Job, c: ClaimArgs): Job {
    row.(status := Running, leaseOwner := Some(c.owner), leaseUntil := Some(c.now + c.leaseTtl),
         fence := row.fence + 1, attempts := row.attempts + 1)
  }

  function Unleased(row: Job, status: Status): Job {
    row.(status := status, leaseOwner := None, leaseUntil := None)
  }

  predicate Expired(row: Job, now: int) {
    row.status == Running && row.leaseUntil.Some? && row.leaseUntil.value < now
  }

  function ReapedRow(row: Job): Job {
    Unleased(row, if row.attempts >= row.maxAttempts then Dead else Queued)
  }

  function FailedRow(row: Job, retryable: bool, now: int, delay: int): Job {
    Unleased(row, if retryable && row.attempts < row.maxAttempts then Queued else Dead).(runAfter := now + delay)
  }

  function ReleasedRow(row: Job, now: int): Job {
    Unleased(row, Queued).(attempts := row.attempts - 1, runAfter := now)
  }

  function Reaped(jobs: seq<Job>, now: int, locked: set<nat>): (r: seq<Job>)
    ensures |r| == |jobs|
  {
    seq(|jobs|, i requires 0 <= i < |jobs| =>
      if Expired(jobs[i], now) && i !in locked then ReapedRow(jobs[i]) else jobs[i])
  }

  /** The table after one statement. A statement naming a token that is not live changes nothing. */
  function Apply(jobs: seq<Job>, op: Op): seq<Job> {
    match op
    case Enqueue(a, now) => if KeyTaken(jobs, a.key) then jobs else jobs + [NewJob(a, now)]
    case Claim(c) =>
      var k := Next(jobs, c, |jobs|);
      if k.None? then jobs else jobs[k.value := ClaimedRow(jobs[k.value], c)]
    case Heartbeat(t, now, ttl) =>
      if Live(jobs, t) then jobs[t.job := jobs[t.job].(leaseUntil := Some(now + ttl))] else jobs
    case Complete(t) =>
      if Live(jobs, t) then jobs[t.job := Unleased(jobs[t.job], Done)] else jobs
    case Fail(t, retryable, now, delay) =>
      if Live(jobs, t) then jobs[t.job := FailedRow(jobs[t.job], retryable, now, delay)] else jobs
    case Release(t, now) =>
      if Live(jobs, t) then jobs[t.job := ReleasedRow(jobs[t.job], now)] else jobs
    case Reap(now, locked) => Reaped(jobs, now, locked)
  }

  /** The table after a run of statements on an empty one. */
  function Run(ops: seq<Op>): seq<Job> {
    if ops == [] then [] else Apply(Run(ops[..|ops| - 1]), ops[|ops| - 1])
  }

  // ----- The table as the code updates it -----

  class JobTable {
    var jobs: seq<Job>

    constructor ()
      ensures jobs == Run([])
    {
      jobs := [];
    }

    /** The new row's id, or None if a job with the same key exists. */
    method Enqueue(a: EnqueueArgs, now: int) returns (id: Option<nat>)
      modifies this
      ensures jobs == Apply(old(jobs), Op.Enqueue(a, now))
      ensures id == if KeyTaken(old(jobs), a.key) then None else Some(|old(jobs)|)
    {
      var taken := false;
      for i := 0 to |jobs|
        invariant taken <==> a.key.Some? && exists k :: 0 <= k < i && jobs[k].key == a.key
      {
        if a.key.Some? && jobs[i].key == a.key { taken := true; }
      }
      if taken { return None; }
      id := Some(|jobs|);
      jobs := jobs + [NewJob(a, now)];
    }

    /** Lease the first eligible row in claim order, or None if there is none. */
    method Claim(c: ClaimArgs) returns (claimed: Option<Token>)
      modifies this
      ensures jobs == Apply(old(jobs), Op.Claim(c))
      ensures claimed.None? <==> forall k :: 0 <= k < |old(jobs)| ==> !Eligible(old(jobs), k, c)
      ensures claimed.Some? ==>
        && Live(jobs, claimed.value)
        && !Issued(old(jobs), claimed.value)
        && Eligible(old(jobs), claimed.value.job, c)
        && (forall k :: 0 <= k < |old(jobs)| && k != claimed.value.job && Eligible(old(jobs), k, c) ==>
              Before(old(jobs), claimed.value.job, k))
    {
      var best: Option<nat> := None;
      for i := 0 to |jobs|
        invariant best == Next(jobs, c, i)
      {
        if Eligible(jobs, i, c) && (best.None? || Before(jobs, i, best.value)) { best := Some(i); }
      }
      if best.None? { return None; }
      var row := jobs[best.value];
      jobs := jobs[best.value := ClaimedRow(row, c)];
      claimed := Some(Token(best.value, row.fence + 1));
    }

    method Heartbeat(t: Token, now: int, leaseTtl: int) returns (alive: bool)
      modifies this
      ensures alive <==> Live(old(jobs), t)
      ensures jobs == Apply(old(jobs), Op.Heartbeat(t, now, leaseTtl))
    {
      alive := Live(jobs, t);
      if alive { jobs := jobs[t.job := jobs[t.job].(leaseUntil := Some(now + leaseTtl))]; }
    }

    /** False stands for LeaseLost. */
    method Complete(t: Token) returns (ok: bool)
      modifies this
      ensures ok <==> Live(old(jobs), t)
      ensures jobs == Apply(old(jobs), Op.Complete(t))
    {
      ok := Live(jobs, t);
      if ok { jobs := jobs[t.job := Unleased(jobs[t.job], Done)]; }
    }

    /** The new status, or None for LeaseLost. */
    method Fail(t: Token, retryable: bool, now: int, delay: int) returns (status: Option<Status>)
      modifies this
      ensures status.Some? <==> Live(old(jobs), t)
      ensures status.Some? ==> t.job < |jobs| && status.value == jobs[t.job].status
      ensures status.Some? ==>
        status.value == if retryable && old(jobs)[t.job].attempts < old(jobs)[t.job].maxAttempts then Queued else Dead
      ensures jobs == Apply(old(jobs), Op.Fail(t, retryable, now, delay))
    {
      if !Live(jobs, t) { return None; }
      jobs := jobs[t.job := FailedRow(jobs[t.job], retryable, now, delay)];
      status := Some(jobs[t.job].status);
    }

    method Release(t: Token, now: int) returns (ok: bool)
      modifies this
      ensures ok <==> Live(old(jobs), t)
      ensures jobs == Apply(old(jobs), Op.Release(t, now))
    {
      ok := Live(jobs, t);
      if ok { jobs := jobs[t.job := ReleasedRow(jobs[t.job], now)]; }
    }

    /** Requeue or dead-letter every expired row nobody else holds; the ids of the reaped rows. */
    method Reap(now: int, locked: set<nat>) returns (reaped: seq<nat>)
      modifies this
      ensures jobs == Apply(old(jobs), Op.Reap(now, locked))
      ensures forall k: nat :: k in reaped <==> k < |old(jobs)| && Expired(old(jobs)[k], now) && k !in locked
    {
      reaped := [];
      var before := jobs;
      for i := 0 to |before|
        invariant before == old(jobs)
        invariant |jobs| == |before|
        invariant forall k :: 0 <= k < i ==> jobs[k] == Reaped(before, now, locked)[k]
        invariant forall k :: i <= k < |before| ==> jobs[k] == before[k]
        invariant forall k: nat :: k in reaped <==> k < i && Expired(before[k], now) && k !in locked
      {
        if Expired(jobs[i], now) && i !in locked {
          jobs := jobs[i := ReapedRow(jobs[i])];
          reaped := reaped + [i];
        }
      }
      assert jobs == Reaped(before, now, locked);
    }
  }
}

/** Fencing: who owns a job, over every run of statements. */
module Fencing {
  import opened Domain
  import opened JobQueue

  /** No statement removes a row or lowers its fence, and only a claim raises one: to a running row. */
  lemma StepKeepsRow(jobs: seq<Job>, op: Op, j: nat)
    requires j < |jobs|
    ensures |jobs| <= |Apply(jobs, op)|
    ensures var was, after := jobs[j], Apply(jobs, op)[j];
            && after.work == was.work && after.key == was.key && after.priority == was.priority
            && after.sortKey == was.sortKey && after.createdAt == was.createdAt && after.maxAttempts == was.maxAttempts
            && (after.fence == was.fence || (after.fence == was.fence + 1 && op.Claim? && was.status == Queued && after.status == Running))
            && (after.fence == was.fence && after.status == Running ==> was.status == Running)
  {
  }

  /** Every run: a row once enqueued stays, with the same identity and place in line, and its fence never falls. */
  lemma {:induction false} RunKeepsRow(ops: seq<Op>, m: nat, j: nat)
    requires m <= |ops| && j < |Run(ops[..m])|
    ensures |Run(ops[..m])| <= |Run(ops)|
    ensures var was, after := Run(ops[..m])[j], Run(ops)[j];
            && after.work == was.work && after.key == was.key && after.priority == was.priority
            && after.sortKey == was.sortKey && after.createdAt == was.createdAt && after.maxAttempts == was.maxAttempts
            && was.fence <= after.fence
            && (was.fence == after.fence && after.status == Running ==> was.status == Running)
    decreases |ops|
  {
    if m == |ops| {
      assert ops[..m] == ops;
    } else {
      var shorter := ops[..|ops| - 1];
      assert shorter[..m] == ops[..m];
      RunKeepsRow(shorter, m, j);
      StepKeepsRow(Run(shorter), ops[|ops| - 1], j);
    }
  }

  /** At any time at most one token of a job is live. */
  lemma OneLiveToken(ops: seq<Op>, a: Token, b: Token)
    requires Live(Run(ops), a) && Live(Run(ops), b) && a.job == b.job
    ensures a == b
  {
  }

  /** A token that was issued and is not live any more never becomes live again. */
  lemma NeverLiveAgain(ops: seq<Op>, m: nat, t: Token)
    requires m <= |ops|
    requires Issued(Run(ops[..m]), t) && !Live(Run(ops[..m]), t)
    ensures !Live(Run(ops), t)
  {
    RunKeepsRow(ops, m, t.job);
  }

  /** Two fenced writes of one job, each made while its token was live, come in fence order. */
  lemma WritesInFenceOrder(ops: seq<Op>, m: nat, earlier: Token, later: Token)
    requires m <= |ops| && earlier.job == later.job
    requires Live(Run(ops[..m]), earlier) && Live(Run(ops), later)
    ensures earlier.fence <= later.fence
  {
    RunKeepsRow(ops, m, earlier.job);
  }

  /** Two jobs never share an idempotency key. */
  lemma {:induction false} KeysAreUnique(ops: seq<Op>, i: nat, j: nat)
    requires i < |Run(ops)| && j < |Run(ops)|
    requires Run(ops)[i].key == Run(ops)[j].key && Run(ops)[i].key.Some?
    ensures i == j
  {
    if ops != [] && i != j {
      var prev, op := Run(ops[..|ops| - 1]), ops[|ops| - 1];
      if i < |prev| { StepKeepsRow(prev, op, i); }
      if j < |prev| { StepKeepsRow(prev, op, j); }
      if i < |prev| && j < |prev| { KeysAreUnique(ops[..|ops| - 1], i, j); }
    }
  }
}

/** Bounded bypass: how often a ready job can be passed over. */
module Bypass {
  import opened Domain
  import opened JobQueue
  import opened Fencing

  function AtLeastOne(n: int): int { if n < 1 then 1 else n }

  /** How many times the run handed job `k` back through a release. */
  function Releases(ops: seq<Op>, k: nat): nat {
    if ops == [] then 0
    else
      var prev, op := Run(ops[..|ops| - 1]), ops[|ops| - 1];
      Releases(ops[..|ops| - 1], k) + (if op.Release? && op.token.job == k && Live(prev, op.token) then 1 else 0)
  }

  /** A claim that could have taken `j` and took another row. */
  predicate PassesOver(jobs: seq<Job>, op: Op, j: nat) {
    op.Claim? && j < |jobs| && Eligible(jobs, j, op.args) && Next(jobs, op.args, |jobs|) != Some(j)
  }

  function TimesPassedOver(ops: seq<Op>, j: nat): nat {
    if ops == [] then 0
    else
      TimesPassedOver(ops[..|ops| - 1], j)
      + (if PassesOver(Run(ops[..|ops| - 1]), ops[|ops| - 1], j) then 1 else 0)
  }

  /** The claims made so far of the first `n` rows that stand before `j` in line. */
  function FencesBefore(jobs: seq<Job>, j: nat, n: nat): nat
    requires j < |jobs| && n <= |jobs|
  {
    if n == 0 then 0
    else FencesBefore(jobs, j, n - 1) + (if Before(jobs, n - 1, j) then jobs[n - 1].fence else 0)
  }

  /** The most claims the first `n` rows before `j` can ever see: their attempts plus their releases. */
  function ClaimBudget(ops: seq<Op>, j: nat, n: nat): int
    requires j < |Run(ops)| && n <= |Run(ops)|
  {
    if n == 0 then 0
    else
      ClaimBudget(ops, j, n - 1)
      + (if Before(Run(ops), n - 1, j) then AtLeastOne(Run(ops)[n - 1].maxAttempts) + Releases(ops, n - 1) else 0)
  }

  lemma {:induction false} FencesGrow(was: seq<Job>, after: seq<Job>, j: nat, n: nat)
    requires j < |was| <= |after| && n <= |was|
    requires forall k :: 0 <= k < |was| ==> after[k].sortKey == was[k].sortKey && was[k].fence <= after[k].fence
    ensures FencesBefore(was, j, n) <= FencesBefore(after, j, n)
  {
    if n > 0 { FencesGrow(was, after, j, n - 1); }
  }

  lemma {:induction false} FencesGrowAt(was: seq<Job>, after: seq<Job>, j: nat, n: nat, k: nat)
    requires j < |was| <= |after| && k < n <= |was|
    requires forall i :: 0 <= i < |was| ==> after[i].sortKey == was[i].sortKey && was[i].fence <= after[i].fence
    requires Before(was, k, j) && was[k].fence < after[k].fence
    ensures FencesBefore(was, j, n) < FencesBefore(after, j, n)
  {
    if k == n - 1 { FencesGrow(was, after, j, n - 1); } else { FencesGrowAt(was, after, j, n - 1, k); }
  }

  lemma {:induction false} FencesPrefix(jobs: seq<Job>, j: nat, m: nat, n: nat)
    requires j < |jobs| && m <= n <= |jobs|
    ensures FencesBefore(jobs, j, m) <= FencesBefore(jobs, j, n)
  {
    if m < n { FencesPrefix(jobs, j, m, n - 1); }
  }

  /** Only rows that exist can be passed over, and each time one before `j` is claimed instead. */
  lemma {:induction false} PassedOverByClaims(ops: seq<Op>, j: nat)
    ensures TimesPassedOver(ops, j) <= if j < |Run(ops)| then FencesBefore(Run(ops), j, |Run(ops)|) else 0
  {
    if ops != [] {
      var shorter, op := ops[..|ops| - 1], ops[|ops| - 1];
      var was, after := Run(shorter), Run(ops);
      PassedOverByClaims(shorter, j);
      forall k | 0 <= k < |was|
        ensures after[k].sortKey == was[k].sortKey && was[k].fence <= after[k].fence
      {
        StepKeepsRow(was, op, k);
      }
      if j < |was| {
        StepKeepsRow(was, op, j);
        FencesPrefix(after, j, |was|, |after|);
        if PassesOver(was, op, j) {
          var k := Next(was, op.args, |was|).value;
          FencesGrowAt(was, after, j, |was|, k);
        } else {
          FencesGrow(was, after, j, |was|);
        }
      }
    }
  }

  predicate WithinLimit(row: Job) {
    && 0 <= row.attempts <= AtLeastOne(row.maxAttempts)
    && (row.status == Running ==> 0 < row.attempts)
    && (row.status == Queued ==> row.attempts < AtLeastOne(row.maxAttempts))
  }

  /** A claim raises fence and attempts together; a release lowers the attempts alone. */
  lemma StepCountsClaims(jobs: seq<Job>, op: Op, k: nat)
    requires k < |jobs| && WithinLimit(jobs[k])
    ensures k < |Apply(jobs, op)|
    ensures var was, after := jobs[k], Apply(jobs, op)[k];
            && WithinLimit(after)
            && after.fence - after.attempts
               == was.fence - was.attempts + (if op.Release? && op.token.job == k && Live(jobs, op.token) then 1 else 0)
  {
  }

  /** Every run: a row's fence counts its attempts and releases, and its attempts stay within the limit. */
  lemma {:induction false} FenceCountsClaims(ops: seq<Op>, k: nat)
    requires k < |Run(ops)|
    ensures Run(ops)[k].fence == Run(ops)[k].attempts + Releases(ops, k)
    ensures WithinLimit(Run(ops)[k])
  {
    var shorter, op := ops[..|ops| - 1], ops[|ops| - 1];
    if k < |Run(shorter)| {
      FenceCountsClaims(shorter, k);
      StepCountsClaims(Run(shorter), op, k);
    } else {
      NoReleasesYet(shorter, k);
    }
  }

  // ----- The attempt limit itself -----

  predicate ClaimsRow(jobs: seq<Job>, op: Op, k: nat) {
    op.Claim? && Next(jobs, op.args, |jobs|) == Some(k)
  }

  /** Some claim of the run took job `k`. */
  ghost predicate EverClaimed(ops: seq<Op>, k: nat) {
    exists m :: 0 <= m < |ops| && ClaimsRow(Run(ops[..m]), ops[m], k)
  }

  /** At every point of the run the job's attempts are within its own limit. */
  ghost predicate AlwaysWithinOwnLimit(ops: seq<Op>, k: nat) {
    forall m :: 0 <= m <= |ops| && k < |Run(ops[..m])| ==> Run(ops[..m])[k].attempts <= Run(ops[..m])[k].maxAttempts
  }

  lemma ClaimedBefore(ops: seq<Op>, n: nat, k: nat)
    requires n <= |ops|
    ensures EverClaimed(ops[..n], k) ==> EverClaimed(ops, k)
  {
    if EverClaimed(ops[..n], k) {
      var m :| 0 <= m < n && ClaimsRow(Run(ops[..n][..m]), ops[..n][m], k);
      assert ops[..n][..m] == ops[..m];
      assert ClaimsRow(Run(ops[..m]), ops[m], k);
    }
  }

  lemma UnclaimedRowWaits(jobs: seq<Job>, op: Op, k: nat)
    requires k < |Apply(jobs, op)| && !ClaimsRow(jobs, op, k)
    requires k < |jobs| ==> jobs[k].attempts == 0 && jobs[k].status == Queued
    ensures Apply(jobs, op)[k].attempts == 0 && Apply(jobs, op)[k].status == Queued
  {
    hide Eligible, Before;
  }

  lemma {:induction false} UnclaimedHasNoAttempts(ops: seq<Op>, k: nat)
    requires k < |Run(ops)| && !EverClaimed(ops, k)
    ensures Run(ops)[k].attempts == 0 && Run(ops)[k].status == Queued
  {
    hide Apply, ClaimsRow;
    var shorter, op := ops[..|ops| - 1], ops[|ops| - 1];
    if k < |Run(shorter)| {
      ClaimedBefore(ops, |shorter|, k);
      UnclaimedHasNoAttempts(shorter, k);
    }
    assert !ClaimsRow(Run(ops[..|shorter|]), op, k);
    UnclaimedRowWaits(Run(shorter), op, k);
  }

  /** A claim of a job with no limit above zero takes it past that limit. */
  lemma ClaimPassesLowLimit(ops: seq<Op>, m: nat, k: nat)
    requires m < |ops| && ClaimsRow(Run(ops[..m]), ops[m], k)
    requires Run(ops[..m])[k].maxAttempts <= 0
    ensures !AlwaysWithinOwnLimit(ops, k)
  {
    FenceCountsClaims(ops[..m], k);
    assert ops[..m + 1][..m] == ops[..m];
    var after := Run(ops[..m + 1])[k];
    assert after.attempts == Run(ops[..m])[k].attempts + 1 && after.maxAttempts <= 0;
  }

  /** The row is there, with the same limit, from the moment it was enqueued. */
  lemma LimitStays(ops: seq<Op>, m: nat, k: nat)
    requires m <= |ops| && k < |Run(ops[..m])|
    ensures k < |Run(ops)| && Run(ops)[k].maxAttempts == Run(ops[..m])[k].maxAttempts
  {
    RunKeepsRow(ops, m, k);
  }

  /**
   * A job's attempts stay within its limit throughout a run exactly if the limit is at least one, or
   * is zero and the job is never claimed.
   */
  lemma WithinLimitExactly(ops: seq<Op>, k: nat)
    requires k < |Run(ops)|
    ensures AlwaysWithinOwnLimit(ops, k) <==>
            Run(ops)[k].maxAttempts >= 1 || (Run(ops)[k].maxAttempts == 0 && !EverClaimed(ops, k))
  {
    var limit := Run(ops)[k].maxAttempts;
    assert ops[..|ops|] == ops;
    if limit >= 1 {
      forall m | 0 <= m <= |ops| && k < |Run(ops[..m])| ensures Run(ops[..m])[k].attempts <= Run(ops[..m])[k].maxAttempts {
        FenceCountsClaims(ops[..m], k);
        LimitStays(ops, m, k);
      }
    } else if EverClaimed(ops, k) {
      var m :| 0 <= m < |ops| && ClaimsRow(Run(ops[..m]), ops[m], k);
      LimitStays(ops, m, k);
      ClaimPassesLowLimit(ops, m, k);
    } else {
      UnclaimedIsWithinZero(ops, k);
      FenceCountsClaims(ops, k);
    }
  }

  lemma UnclaimedIsWithinZero(ops: seq<Op>, k: nat)
    requires k < |Run(ops)| && !EverClaimed(ops, k)
    ensures Run(ops)[k].maxAttempts == 0 ==> AlwaysWithinOwnLimit(ops, k)
  {
    forall m | 0 <= m <= |ops| && k < |Run(ops[..m])|
      ensures Run(ops[..m])[k].attempts == 0 && Run(ops[..m])[k].maxAttempts == Run(ops)[k].maxAttempts
    {
      ClaimedBefore(ops, m, k);
      UnclaimedHasNoAttempts(ops[..m], k);
      LimitStays(ops, m, k);
    }
  }

  /** Enqueued with a limit of zero and claimed once, a job has made one attempt. */
  lemma ZeroLimitIsPassed() returns (ops: seq<Op>)
    ensures |Run(ops)| == 1 && Run(ops)[0].maxAttempts == 0 && Run(ops)[0].attempts == 1
    ensures !AlwaysWithinOwnLimit(ops, 0)
  {
    var enqueue := Enqueue(EnqueueArgs(Work(Triage, 1, None), None, 1, 0, 0, 0), 0);
    var claim := Claim(ClaimArgs("w", 0, 5, 3, {}, {}));
    ops := [enqueue, claim];
    assert ops[..1] == [enqueue] && [enqueue][..0] == [];
    assert Run(ops[..1]) == [NewJob(enqueue.what, 0)];
    assert Next(Run(ops[..1]), claim.args, 0).None?;
    assert ops[..2] == ops;
  }

  lemma {:induction false} NoReleasesYet(ops: seq<Op>, k: nat)
    requires |Run(ops)| <= k
    ensures Releases(ops, k) == 0
  {
    if ops != [] {
      var shorter, op := ops[..|ops| - 1], ops[|ops| - 1];
      if |Run(shorter)| > 0 { StepKeepsRow(Run(shorter), op, |Run(shorter)| - 1); }
      NoReleasesYet(shorter, k);
    }
  }

  lemma {:induction false} FencesWithinBudget(ops: seq<Op>, j: nat, n: nat)
    requires j < |Run(ops)| && n <= |Run(ops)|
    ensures FencesBefore(Run(ops), j, n) <= ClaimBudget(ops, j, n)
  {
    if n > 0 {
      FencesWithinBudget(ops, j, n - 1);
      FenceCountsClaims(ops, n - 1);
    }
  }

  /** Over any run, a job is passed over at most as often as the jobs before it can be claimed. */
  lemma BoundedBypass(ops: seq<Op>, j: nat)
    requires j < |Run(ops)|
    ensures TimesPassedOver(ops, j) <= ClaimBudget(ops, j, |Run(ops)|)
  {
    PassedOverByClaims(ops, j);
    FencesWithinBudget(ops, j, |Run(ops)|);
  }

  predicate UniformAging(ops: seq<Op>, step: int) {
    forall i :: 0 <= i < |ops| && ops[i].Enqueue? ==> ops[i].what.agingStep == step
  }

  lemma {:induction false} SortKeyIsAgedArrival(ops: seq<Op>, step: int, k: nat)
    requires UniformAging(ops, step) && k < |Run(ops)|
    ensures Run(ops)[k].sortKey == Run(ops)[k].createdAt + Run(ops)[k].priority * step
  {
    var shorter, op := ops[..|ops| - 1], ops[|ops| - 1];
    if k < |Run(shorter)| {
      SortKeyIsAgedArrival(shorter, step, k);
      StepKeepsRow(Run(shorter), op, k);
    }
  }

  /**
   * The jobs counted in the budget are those that arrived no later than the priority gap allows:
   * a P3 that has waited three steps is before every new P0, so nothing starves. Between jobs that
   * come out even the one enqueued first goes first.
   */
  lemma PassedOverOnlyByAged(ops: seq<Op>, step: int, op: Op, j: nat)
    requires UniformAging(ops, step) && PassesOver(Run(ops), op, j)
    ensures var k := Next(Run(ops), op.args, |Run(ops)|);
            && k.Some?
            && Before(Run(ops), k.value, j)
            && var latest := Run(ops)[j].createdAt + (Run(ops)[j].priority - Run(ops)[k.value].priority) * step;
               Run(ops)[k.value].createdAt < latest || (Run(ops)[k.value].createdAt == latest && k.value < j)
  {
    var k := Next(Run(ops), op.args, |Run(ops)|).value;
    SortKeyIsAgedArrival(ops, step, k);
    SortKeyIsAgedArrival(ops, step, j);
    Distribute(Run(ops)[j].priority, Run(ops)[k].priority, step);
  }

  lemma Distribute(a: int, b: int, step: int)
    ensures (a - b) * step == a * step - b * step
  {
  }
}
