/** One worker process: the slots it fills, the tasks that really run, and how a task ends. */
module Workers {
  import opened Domain
  import Q = JobQueue
  import F = Fencing

  datatype Config = Config(owner: string, concurrency: nat, reserved: nat, kinds: set<JobKind>, leaseTtl: int)

  /** `running` is the worker's own map from job id to task; `tasks` are the handlers that really run. */
  datatype Worker = Worker(running: map<nat, Token>, tasks: set<Token>)

  /** How a handler ended. */
  datatype Ending = Returned | LostLease | Cancelled | FailedForGood | FailedForNow

  datatype Sys = Sys(jobs: seq<Q.Job>, worker: Worker)

  /** Another process changes the queue; this worker polls; one of its tasks ends. */
  datatype Event =
    | Other(op: Q.Op)
    | Poll(now: int, locked: set<nat>)
    | End(token: Token, ending: Ending, now: int, delay: int)

  function Free(c: Config, w: Worker): int { c.concurrency - |w.running| }

  /** The claim a poll makes: while only reserved slots are free, of P0 jobs alone. */
  function ClaimOf(c: Config, w: Worker, now: int, locked: set<nat>): Q.ClaimArgs {
    Q.ClaimArgs(c.owner, now, c.leaseTtl, if Free(c, w) > c.reserved then 3 else 0, c.kinds, locked)
  }

  /** The statement a task closes its job with; a task that lost its lease leaves the job alone. */
  function Closing(t: Token, ending: Ending, now: int, delay: int): Option<Q.Op> {
    match ending
    case Returned => Some(Q.Complete(t))
    case LostLease => None
    case Cancelled => Some(Q.Release(t, now))
    case FailedForGood => Some(Q.Fail(t, false, now, delay))
    case FailedForNow => Some(Q.Fail(t, true, now, delay))
  }

  function PollStep(c: Config, s: Sys, now: int, locked: set<nat>): Sys {
    var args := ClaimOf(c, s.worker, now, locked);
    var k := Q.Next(s.jobs, args, |s.jobs|);
    if Free(c, s.worker) <= 0 || k.None? then s
    else
      var t := Token(k.value, s.jobs[k.value].fence + 1);
      Sys(Q.Apply(s.jobs, Q.Claim(args)), Worker(s.worker.running[k.value := t], s.worker.tasks + {t}))
  }

  /** The entry is taken out of the map by job id, whichever task it names. */
  function EndStep(s: Sys, t: Token, ending: Ending, now: int, delay: int): Sys {
    var op := Closing(t, ending, now, delay);
    Sys(if op.Some? then Q.Apply(s.jobs, op.value) else s.jobs, Worker(s.worker.running - {t.job}, s.worker.tasks - {t}))
  }

  function Step(c: Config, s: Sys, e: Event): Sys {
    match e
    case Other(op) => s.(jobs := Q.Apply(s.jobs, op))
    case Poll(now, locked) => PollStep(c, s, now, locked)
    case End(t, ending, now, delay) => if t in s.worker.tasks then EndStep(s, t, ending, now, delay) else s
  }

  function Run(c: Config, events: seq<Event>): Sys {
    if events == [] then Sys([], Worker(map[], {}))
    else Step(c, Run(c, events[..|events| - 1]), events[|events| - 1])
  }

  /** The worker as it updates itself; the queue is the database. */
  class WorkerProcess {
    var running: map<nat, Token>
    ghost var tasks: set<Token>

    constructor ()
      ensures running == map[] && tasks == {}
    {
      running, tasks := map[], {};
    }

    /** One turn of the main loop; None if there is no free slot or nothing to claim. */
    method ClaimAndStart(c: Config, table: Q.JobTable, now: int, locked: set<nat>) returns (t: Option<Token>)
      modifies this, table
      ensures Sys(table.jobs, Worker(running, tasks)) == PollStep(c, Sys(old(table.jobs), Worker(old(running), old(tasks))), now, locked)
      ensures t.Some? <==> tasks != old(tasks) || table.jobs != old(table.jobs)
    {
      hide Q.Eligible, Q.Before;
      t := None;
      var free := c.concurrency - |running|;
      if free <= 0 { return; }
      var maxPriority := if free > c.reserved then 3 else 0;
      t := table.Claim(Q.ClaimArgs(c.owner, now, c.leaseTtl, maxPriority, c.kinds, locked));
      if t.Some? {
        running := running[t.value.job := t.value];
        tasks := tasks + {t.value};
      }
    }
  }

  // ----- What the map says about the tasks -----

  /** The map names exactly the tasks that run. */
  ghost predicate Accurate(w: Worker) {
    && (forall t :: t in w.tasks ==> t.job in w.running && w.running[t.job] == t)
    && (forall j :: j in w.running ==> w.running[j].job == j && w.running[j] in w.tasks)
  }

  predicate Starts(c: Config, s: Sys, e: Event) {
    e.Poll? && Free(c, s.worker) > 0 && Q.Next(s.jobs, ClaimOf(c, s.worker, e.now, e.locked), |s.jobs|).Some?
  }

  function StartedJob(c: Config, s: Sys, e: Event): nat
    requires Starts(c, s, e)
  {
    Q.Next(s.jobs, ClaimOf(c, s.worker, e.now, e.locked), |s.jobs|).value
  }

  /** Starting a task keeps the map accurate exactly if no task of that job is running already. */
  lemma AccurateExactlyIfNotRestarted(c: Config, s: Sys, e: Event)
    requires Accurate(s.worker) && Starts(c, s, e) && TokensAreIssued(s)
    ensures Accurate(Step(c, s, e).worker) <==> StartedJob(c, s, e) !in s.worker.running
  {
    hide Q.Eligible, Q.Before, Q.Apply;
    var k := StartedJob(c, s, e);
    var t := Token(k, s.jobs[k].fence + 1);
    var w, w' := s.worker, Step(c, s, e).worker;
    assert w' == Worker(w.running[k := t], w.tasks + {t});
    if k in w.running {
      var old_ := w.running[k];
      assert old_ in w.tasks && Q.Issued(s.jobs, old_);
      assert old_ in w'.tasks && w'.running[old_.job] != old_;
    }
  }

  /** The worker's tokens were handed out by the queue. */
  ghost predicate TokensAreIssued(s: Sys) {
    forall t :: t in s.worker.tasks ==> Q.Issued(s.jobs, t)
  }

  lemma IssuedStays(c: Config, s: Sys, e: Event)
    requires TokensAreIssued(s)
    ensures TokensAreIssued(Step(c, s, e))
  {
    forall t | t in s.worker.tasks ensures forall op :: Q.Issued(Q.Apply(s.jobs, op), t) {
      forall op ensures Q.Issued(Q.Apply(s.jobs, op), t) { F.StepKeepsRow(s.jobs, op, t.job); }
    }
    hide Q.Eligible, Q.Before;
  }

  lemma EndKeepsAccurate(s: Sys, t: Token, ending: Ending, now: int, delay: int)
    requires Accurate(s.worker) && t in s.worker.tasks
    ensures Accurate(EndStep(s, t, ending, now, delay).worker)
  {
    hide Q.Apply;
  }

  /** A poll only claims a queued job, so a worker whose tasks all still own their jobs restarts none. */
  lemma OwnersAreNotRestarted(c: Config, s: Sys, e: Event)
    requires Accurate(s.worker) && Starts(c, s, e)
    requires forall t :: t in s.worker.tasks ==> Q.Live(s.jobs, t)
    ensures StartedJob(c, s, e) !in s.worker.running
  {
    hide Q.Before;
    var k := StartedJob(c, s, e);
    forall t | t in s.worker.tasks ensures t.job != k { assert Q.Live(s.jobs, t); }
  }

  lemma {:induction false} AsManyAsEntries(w: Worker)
    requires Accurate(w)
    ensures |w.tasks| == |w.running|
    decreases |w.tasks|
  {
    if w.tasks == {} {
      assert w.running.Keys == {};
    } else {
      var t :| t in w.tasks;
      var smaller := Worker(w.running - {t.job}, w.tasks - {t});
      AsManyAsEntries(smaller);
      assert smaller.running.Keys == w.running.Keys - {t.job};
    }
  }

  // ----- Slots over whole runs -----

  /** No poll of the run starts a job that has a task running. */
  ghost predicate NeverRestarts(c: Config, events: seq<Event>) {
    forall k :: 0 <= k < |events| && Starts(c, Run(c, events[..k]), events[k]) ==>
      StartedJob(c, Run(c, events[..k]), events[k]) !in Run(c, events[..k]).worker.running
  }

  /** At every poll of the run all tasks still own their jobs. */
  ghost predicate KeepsItsLeases(c: Config, events: seq<Event>) {
    forall k :: 0 <= k < |events| && events[k].Poll? ==>
      forall t :: t in Run(c, events[..k]).worker.tasks ==> Q.Live(Run(c, events[..k]).jobs, t)
  }

  /** The tasks of jobs that are not P0. */
  function Ordinary(s: Sys): set<Token>
    requires forall t :: t in s.worker.tasks ==> t.job < |s.jobs|
  {
    set t | t in s.worker.tasks && s.jobs[t.job].priority > 0
  }

  function Unreserved(c: Config): nat { if c.concurrency > c.reserved then c.concurrency - c.reserved else 0 }

  ghost predicate WithinSlots(c: Config, s: Sys) {
    && Accurate(s.worker) && TokensAreIssued(s)
    && |s.worker.running| <= c.concurrency
    && |Ordinary(s)| <= Unreserved(c)
  }

  lemma SubsetIsSmaller(a: set<Token>, b: set<Token>)
    requires a <= b
    ensures |a| <= |b|
  {
    if a != {} {
      var x :| x in a;
      SubsetIsSmaller(a - {x}, b - {x});
    }
  }

  lemma QueueKeepsOrdinary(s: Sys, op: Q.Op)
    requires TokensAreIssued(s)
    ensures TokensAreIssued(s.(jobs := Q.Apply(s.jobs, op))) && Ordinary(s.(jobs := Q.Apply(s.jobs, op))) == Ordinary(s)
  {
    forall t | t in s.worker.tasks
      ensures Q.Issued(Q.Apply(s.jobs, op), t) && Q.Apply(s.jobs, op)[t.job].priority == s.jobs[t.job].priority
    {
      F.StepKeepsRow(s.jobs, op, t.job);
    }
    hide Q.Apply;
  }

  /** What a poll that starts a task does. */
  lemma PollStarts(c: Config, s: Sys, e: Event)
    requires Starts(c, s, e)
    ensures var k := StartedJob(c, s, e);
            var t := Token(k, s.jobs[k].fence + 1);
            && Free(c, s.worker) > 0
            && k < |s.jobs| && (Free(c, s.worker) <= c.reserved ==> s.jobs[k].priority <= 0)
            && Step(c, s, e) == Sys(Q.Apply(s.jobs, Q.Claim(ClaimOf(c, s.worker, e.now, e.locked))),
                                    Worker(s.worker.running[k := t], s.worker.tasks + {t}))
            && Q.Issued(Step(c, s, e).jobs, t) && Step(c, s, e).jobs[k].priority == s.jobs[k].priority
  {
    var args := ClaimOf(c, s.worker, e.now, e.locked);
    assert Q.Eligible(s.jobs, StartedJob(c, s, e), args);
    F.StepKeepsRow(s.jobs, Q.Claim(args), StartedJob(c, s, e));
  }

  lemma PollKeepsSlots(c: Config, s: Sys, e: Event)
    requires WithinSlots(c, s) && e.Poll?
    requires Starts(c, s, e) ==> StartedJob(c, s, e) !in s.worker.running
    ensures WithinSlots(c, Step(c, s, e))
  {
    hide Q.Apply, Accurate, StartedJob, Starts, TokensAreIssued;
    if Starts(c, s, e) {
      AccurateExactlyIfNotRestarted(c, s, e);
      IssuedStays(c, s, e);
      PollStarts(c, s, e);
      StartFits(c, s, e);
    } else {
      NothingStarts(c, s, e);
    }
  }

  lemma NothingStarts(c: Config, s: Sys, e: Event)
    requires e.Poll? && !Starts(c, s, e)
    ensures Step(c, s, e) == s
  {
  }

  lemma OneMoreTask(s: Sys, jobs: seq<Q.Job>, w: Worker, t: Token)
    requires TokensAreIssued(s) && |s.jobs| <= |jobs| && t.job < |jobs| && w.tasks == s.worker.tasks + {t}
    requires forall i :: 0 <= i < |s.jobs| ==> jobs[i].priority == s.jobs[i].priority
    ensures forall u :: u in w.tasks ==> u.job < |jobs|
    ensures |Ordinary(Sys(jobs, w))| <= |Ordinary(s)| + (if jobs[t.job].priority > 0 then 1 else 0)
  {
    var before, after := Ordinary(s), Ordinary(Sys(jobs, w));
    if jobs[t.job].priority > 0 {
      assert after <= before + {t};
      SubsetIsSmaller(after, before + {t});
    } else {
      assert after <= before;
      SubsetIsSmaller(after, before);
    }
  }

  lemma StartFits(c: Config, s: Sys, e: Event)
    requires WithinSlots(c, s) && e.Poll? && Starts(c, s, e) && StartedJob(c, s, e) !in s.worker.running && TokensAreIssued(Step(c, s, e))
    ensures |Step(c, s, e).worker.running| <= c.concurrency && |Ordinary(Step(c, s, e))| <= Unreserved(c)
  {
    hide Q.Apply, Accurate, StartedJob, Starts, Step, Ordinary, TokensAreIssued;
    PollStarts(c, s, e);
    AsManyAsEntries(s.worker);
    var k := StartedJob(c, s, e);
    var s', t := Step(c, s, e), Token(k, s.jobs[k].fence + 1);
    PrioritiesStay(s.jobs, Q.Claim(ClaimOf(c, s.worker, e.now, e.locked)));
    OneMoreTask(s, s'.jobs, s'.worker, t);
    assert s'.worker.running.Keys == s.worker.running.Keys + {k};
    OrdinaryAreTasks(s);
  }

  lemma PrioritiesStay(jobs: seq<Q.Job>, op: Q.Op)
    ensures |jobs| <= |Q.Apply(jobs, op)|
    ensures forall i :: 0 <= i < |jobs| ==> Q.Apply(jobs, op)[i].priority == jobs[i].priority
  {
    if jobs != [] { F.StepKeepsRow(jobs, op, 0); }
    forall i | 0 <= i < |jobs| ensures i < |Q.Apply(jobs, op)| && Q.Apply(jobs, op)[i].priority == jobs[i].priority {
      F.StepKeepsRow(jobs, op, i);
    }
    hide Q.Apply;
  }

  lemma OrdinaryAreTasks(s: Sys)
    requires TokensAreIssued(s)
    ensures (forall t :: t in s.worker.tasks ==> t.job < |s.jobs|) && |Ordinary(s)| <= |s.worker.tasks|
  {
    SubsetIsSmaller(Ordinary(s), s.worker.tasks);
  }

  lemma EndKeepsSlots(c: Config, s: Sys, e: Event)
    requires WithinSlots(c, s) && e.End?
    ensures WithinSlots(c, Step(c, s, e))
  {
    if e.token in s.worker.tasks {
      EndKeepsAccurate(s, e.token, e.ending, e.now, e.delay);
      var op := Closing(e.token, e.ending, e.now, e.delay);
      var s' := Step(c, s, e);
      if op.Some? { QueueKeepsOrdinary(s, op.value); }
      hide Q.Apply, Accurate;
      assert Ordinary(s') == Ordinary(s) - {e.token};
      assert s'.worker.running.Keys == s.worker.running.Keys - {e.token.job};
      SubsetIsSmaller(Ordinary(s'), Ordinary(s));
    }
  }

  lemma {:induction false} SlotsHold(c: Config, events: seq<Event>)
    requires NeverRestarts(c, events)
    ensures WithinSlots(c, Run(c, events))
    decreases |events|
  {
    hide Step, WithinSlots, Starts, StartedJob;
    if events == [] {
      NothingRuns(c);
    } else {
      var shorter, e := events[..|events| - 1], events[|events| - 1];
      assert NeverRestarts(c, shorter) by {
        forall k | 0 <= k < |shorter| ensures shorter[..k] == events[..k] && shorter[k] == events[k] {}
      }
      SlotsHold(c, shorter);
      var s := Run(c, shorter);
      match e {
        case Other(op) => OtherKeepsSlots(c, s, op);
        case Poll(_, _) => PollKeepsSlots(c, s, e);
        case End(_, _, _, _) => EndKeepsSlots(c, s, e);
      }
    }
  }

  lemma NothingRuns(c: Config)
    ensures WithinSlots(c, Run(c, []))
  {
    assert Ordinary(Run(c, [])) == {};
  }

  lemma OtherKeepsSlots(c: Config, s: Sys, op: Q.Op)
    requires WithinSlots(c, s)
    ensures WithinSlots(c, Step(c, s, Other(op)))
  {
    QueueKeepsOrdinary(s, op);
    hide Q.Apply;
  }

  /**
   * A worker that never starts a job it is still running a task of runs at most as many tasks as it
   * has slots, and at most as many that are not P0 as it has slots not reserved.
   */
  lemma TasksFitSlots(c: Config, events: seq<Event>)
    requires NeverRestarts(c, events)
    ensures var s := Run(c, events);
            && |s.worker.tasks| <= c.concurrency
            && (forall t :: t in s.worker.tasks ==> t.job < |s.jobs|)
            && |Ordinary(s)| <= Unreserved(c)
  {
    hide Run, Accurate;
    SlotsHold(c, events);
    AsManyAsEntries(Run(c, events).worker);
  }

  /** Keeping its leases is enough for that. */
  lemma {:induction false} LeasesKeepSlots(c: Config, events: seq<Event>)
    requires KeepsItsLeases(c, events)
    ensures NeverRestarts(c, events)
    decreases |events|
  {
    hide Step, Starts, StartedJob, Q.Live;
    if events != [] {
      var shorter, last := events[..|events| - 1], |events| - 1;
      assert forall k :: 0 <= k < |shorter| ==> shorter[..k] == events[..k] && shorter[k] == events[k];
      assert KeepsItsLeases(c, shorter);
      LeasesKeepSlots(c, shorter);
      SlotsHold(c, shorter);
      assert events[..last] == shorter;
      if Starts(c, Run(c, shorter), events[last]) {
        StartsIsPoll(c, Run(c, shorter), events[last]);
        OwnersAreNotRestarted(c, Run(c, shorter), events[last]);
      }
    }
  }

  lemma StartsIsPoll(c: Config, s: Sys, e: Event)
    ensures Starts(c, s, e) ==> e.Poll?
  {
  }

  // ----- When the slots bound the tasks -----

  /** The tasks that run and are not named by the map: a later task of the job took their place. */
  function Superseded(w: Worker): set<Token> {
    set t | t in w.tasks && !(t.job in w.running && w.running[t.job] == t)
  }

  /** Each entry of the map names a task of its job that runs. */
  ghost predicate Named(w: Worker) {
    forall j :: j in w.running ==> w.running[j].job == j && w.running[j] in w.tasks
  }

  /** The tasks are those the map names and those it does not. */
  lemma TasksAreCounted(w: Worker)
    requires Named(w)
    ensures |w.tasks| == |w.running| + |Superseded(w)|
  {
    var named := Worker(w.running, w.tasks - Superseded(w));
    AsManyAsEntries(named);
    assert w.tasks == named.tasks + Superseded(w);
  }

  /** Starting a task adds one, whether or not the job has another; nothing else adds any. */
  lemma StepCounts(c: Config, s: Sys, e: Event)
    requires Named(s.worker) && TokensAreIssued(s)
    ensures Named(Step(c, s, e).worker) && TokensAreIssued(Step(c, s, e))
    ensures if Starts(c, s, e) then |Step(c, s, e).worker.tasks| == |s.worker.tasks| + 1
            else |Step(c, s, e).worker.tasks| <= |s.worker.tasks|
  {
    IssuedStays(c, s, e);
    if Starts(c, s, e) {
      PollStarts(c, s, e);
      hide Q.Apply, Q.Eligible, Q.Before, StartedJob, Step;
      assert Token(StartedJob(c, s, e), s.jobs[StartedJob(c, s, e)].fence + 1) !in s.worker.tasks;
    } else {
      hide Q.Apply;
      SubsetIsSmaller(Step(c, s, e).worker.tasks, s.worker.tasks);
    }
  }

  lemma {:induction false} RunIsNamed(c: Config, events: seq<Event>)
    ensures Named(Run(c, events).worker) && TokensAreIssued(Run(c, events))
    decreases |events|
  {
    hide Step, Named, TokensAreIssued;
    if events == [] {
      NothingNamed(c);
    } else {
      RunIsNamed(c, events[..|events| - 1]);
      StepCounts(c, Run(c, events[..|events| - 1]), events[|events| - 1]);
    }
  }

  lemma NothingNamed(c: Config)
    ensures Named(Run(c, []).worker) && TokensAreIssued(Run(c, []))
  {
  }

  /** At every point of the run at most as many tasks run as there are slots. */
  ghost predicate AlwaysWithinSlots(c: Config, events: seq<Event>) {
    forall m :: 0 <= m <= |events| ==> |Run(c, events[..m]).worker.tasks| <= c.concurrency
  }

  /** Whenever a poll starts a job there are more free slots than superseded tasks. */
  ghost predicate SupersededLeaveRoom(c: Config, events: seq<Event>) {
    forall k :: 0 <= k < |events| && Starts(c, Run(c, events[..k]), events[k]) ==>
      |Superseded(Run(c, events[..k]).worker)| < Free(c, Run(c, events[..k]).worker)
  }

  lemma {:induction false} RoomKeepsSlots(c: Config, events: seq<Event>)
    requires SupersededLeaveRoom(c, events)
    ensures |Run(c, events).worker.tasks| <= c.concurrency
    decreases |events|
  {
    hide Step, Starts, Named, TokensAreIssued, Superseded;
    if events != [] {
      var shorter, last := events[..|events| - 1], |events| - 1;
      forall k | 0 <= k < |shorter| ensures shorter[..k] == events[..k] && shorter[k] == events[k] {}
      RoomKeepsSlots(c, shorter);
      RunIsNamed(c, shorter);
      StepCounts(c, Run(c, shorter), events[last]);
      TasksAreCounted(Run(c, shorter).worker);
      assert events[..last] == shorter;
    }
  }

  /**
   * Over every run the slots bound the tasks at every point exactly if, whenever a poll starts a job,
   * the worker has more free slots than superseded tasks.
   */
  lemma SlotsBoundTasksExactly(c: Config, events: seq<Event>)
    ensures AlwaysWithinSlots(c, events) <==> SupersededLeaveRoom(c, events)
  {
    hide Step, Starts, Named, TokensAreIssued, Superseded, Run;
    if SupersededLeaveRoom(c, events) {
      forall m | 0 <= m <= |events| ensures |Run(c, events[..m]).worker.tasks| <= c.concurrency {
        forall k | 0 <= k < m ensures events[..m][..k] == events[..k] && events[..m][k] == events[k] {}
        RoomKeepsSlots(c, events[..m]);
      }
    }
    if AlwaysWithinSlots(c, events) {
      forall k | 0 <= k < |events| && Starts(c, Run(c, events[..k]), events[k])
        ensures |Superseded(Run(c, events[..k]).worker)| < Free(c, Run(c, events[..k]).worker)
      {
        RunIsNamed(c, events[..k]);
        StepCounts(c, Run(c, events[..k]), events[k]);
        TasksAreCounted(Run(c, events[..k]).worker);
        OneMore(c, events[..k], events[k]);
        assert events[..k] + [events[k]] == events[..k + 1];
      }
    }
  }

  /** A task that closed its job owns it no more, and never will again. */
  lemma ClosedJobIsNotOwned(s: Sys, t: Token, ending: Ending, now: int, delay: int)
    requires ending != LostLease
    ensures !Q.Live(EndStep(s, t, ending, now, delay).jobs, t)
  {
  }

  lemma OneMore(c: Config, events: seq<Event>, e: Event)
    ensures Run(c, events + [e]) == Step(c, Run(c, events), e)
  {
    assert (events + [e])[..|events|] == events;
  }

  /** A poll of a queue whose only eligible row is k starts it. */
  lemma PollTakes(c: Config, s: Sys, now: int, k: nat)
    requires var args := ClaimOf(c, s.worker, now, {});
             && Free(c, s.worker) > 0 && k < |s.jobs| && Q.Eligible(s.jobs, k, args)
             && forall i :: 0 <= i < |s.jobs| && i != k ==> !Q.Eligible(s.jobs, i, args)
    ensures var t := Token(k, s.jobs[k].fence + 1);
            Step(c, s, Poll(now, {})) == Sys(s.jobs[k := Q.ClaimedRow(s.jobs[k], ClaimOf(c, s.worker, now, {}))],
                                             Worker(s.worker.running[k := t], s.worker.tasks + {t}))
  {
    hide Q.Before, Q.Eligible;
  }

  lemma EnqueueAdds(c: Config, s: Sys, a: Q.EnqueueArgs, now: int)
    requires a.key.None?
    ensures Step(c, s, Other(Q.Enqueue(a, now))) == Sys(s.jobs + [Q.NewJob(a, now)], s.worker)
  {
  }

  lemma ReapsOne(c: Config, row: Q.Job, w: Worker, now: int)
    requires Q.Expired(row, now)
    ensures Step(c, Sys([row], w), Other(Q.Reap(now, {}))) == Sys([Q.ReapedRow(row)], w)
  {
  }

  /** The table and the worker after each step of such a run. */
  lemma RestartSteps(c: Config, job: Q.EnqueueArgs)
    requires c == Config("w", 2, 0, {}, 5) && job == Q.EnqueueArgs(Q.Work(Triage, 1, None), None, 1, 5, 0, 0)
    ensures var added := Other(Q.Enqueue(job, 0));
            var s1 := Step(c, Sys([], Worker(map[], {})), added);
            var s2 := Step(c, s1, Poll(0, {}));
            var s3 := Step(c, s2, Other(Q.Reap(10, {})));
            var s4 := Step(c, s3, Poll(10, {}));
            var s5 := Step(c, s4, added);
            Step(c, s5, Poll(10, {})).worker.tasks == {Token(0, 1), Token(0, 2), Token(1, 1)}
  {
    hide Step, Q.Apply;
    var a, b := Token(0, 1), Token(0, 2);
    var w0, w1, w2 := Worker(map[], {}), Worker(map[0 := a], {a}), Worker(map[0 := b], {a, b});
    var row := Q.NewJob(job, 0);
    EnqueueAdds(c, Sys([], w0), job, 0);
    assert [] + [row] == [row];
    PollTakes(c, Sys([row], w0), 0, 0);
    var leased := Q.ClaimedRow(row, ClaimOf(c, w0, 0, {}));
    assert [row][0 := leased] == [leased];
    ReapsOne(c, leased, w1, 10);
    var back := Q.ReapedRow(leased);
    PollTakes(c, Sys([back], w1), 10, 0);
    var again := Q.ClaimedRow(back, ClaimOf(c, w1, 10, {}));
    assert [back][0 := again] == [again];
    assert w1.running[0 := b] == w2.running && w1.tasks + {b} == w2.tasks;
    EnqueueAdds(c, Sys([again], w2), job, 0);
    PollTakes(c, Sys([again, row], w2), 10, 1);
    assert [again] + [row] == [again, row];
  }

  /**
   * Losing a lease without noticing can take a worker past its slots: the job is reaped, the same
   * worker claims it again while the first task still runs, and the map counts the two as one.
   */
  lemma RestartOvercommits() returns (c: Config, events: seq<Event>)
    ensures c.concurrency == 2 && |Run(c, events).worker.tasks| == 3
  {
    hide Step;
    c := Config("w", 2, 0, {}, 5);
    var job := Q.EnqueueArgs(Q.Work(Triage, 1, None), None, 1, 5, 0, 0);
    var added := Other(Q.Enqueue(job, 0));
    RestartSteps(c, job);
    events := [];
    OneMore(c, events, added);
    events := events + [added];
    OneMore(c, events, Poll(0, {}));
    events := events + [Poll(0, {})];
    OneMore(c, events, Other(Q.Reap(10, {})));
    events := events + [Other(Q.Reap(10, {}))];
    OneMore(c, events, Poll(10, {}));
    events := events + [Poll(10, {})];
    OneMore(c, events, added);
    events := events + [added];
    OneMore(c, events, Poll(10, {}));
    events := events + [Poll(10, {})];
    assert |{Token(0, 1), Token(0, 2), Token(1, 1)}| == 3;
  }
}
