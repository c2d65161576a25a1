# Incident responder: verified model

This project models the parts of the incident responder where correctness depends on several components acting
together, and proves what they promise.

- **Job queue** (`JobQueue.dfy`, `JobFates.dfy`). Rows, the statements that change them, and runs of those statements:
  fencing, how often a ready job can be passed over, and what each statement means for a job later on.
- **Worker and live source** (`Worker.dfy`, `WorkerFates.dfy`, `Sources.dfy`). The slots of one worker process against
  the tasks that really run, what becomes of a job when its task ends, and the circuit breaker and retries in front of
  a backend.
- **Audit log** (`Audit.dfy`). The hash chain and its verifier, and concurrent appenders under the advisory lock. A
  digest is a free constructor over the previous digest and the content, so it is collision-free and never the genesis
  value.
- **Incidents and policy** (`Incidents.dfy`, `Policy.dfy`). The state graph with its guarded update, and the policy
  engine as a loop over checks, against a verdict stated outright.
- **Remediation** (`Remediation.dfy`, `RemediationSafety.dfy`, `RemediationTheorems.dfy`, `RemediationRecord.dfy`,
  `RemediationJobs.dfy`, `RemediationAnswers.dfy`, `ExecutorHistory.dfy`, `RemediationService.dfy`). One shared
  database as a step system: each transaction is one atomic event, a request reads first and commits later, and an
  executor advances one transaction or one call at a time, so crashes, lease expiry, reaping, claiming again and stale
  workers fall anywhere in between. The invariant holds after every event, the theorems after every run: safety, why
  an incident is in its state and a plan has its jobs, when a request commits, and what a recorded status says about
  the answers an executor got. `RemediationService.dfy` is the same protocol as updates of tables in place, with
  transactions that roll back and the executor's handler as a loop that any other events interleave with; every method
  is proved to be exactly the matching event.
- **The protocol in the log** (`AuditedRuns.dfy`). Remediation and the audit log together: transactions append what
  they do to an incident to the one log, among everyone else's rows, and the log alone gives back every incident's
  row.
- **Change stream** (`Stream.dfy`, `StreamCoverage.dfy`, `Sse.dfy`, `EventStream.dfy`, `Numerals.dfy`, `Names.dfy`).
  Cursors, one poll, a client that reconnects, and the console's incremental parser (section 9.2.6 of the WHATWG HTML
  standard).
- **Agents** (`AgentLoop.dfy`, `LoopFates.dfy`, `Render.dfy`, `Checkpoints.dfy`, `Citations.dfy`, `Provenance.dfy`).
  The loop against any model, the incident's token budget, the conversation sent to the Messages API, checkpoints and
  the blackboard, and the citation check with the provenance it gives a diagnosis.
- **Record and replay** (`Replay.dfy`, `ReplayAnswers.dfy`, `ReplayTheorem.dfy`). Cassettes and both replay sources, a
  recording and a replay as step systems, and the theorem that the second reproduces the first.
- **Summaries** (`Compress.dfy`). Bounding a JSON tree by halving its largest lists.

Times, delays, the model's answers, tool results, policy contexts, cluster answers and the order in which transactions
meet are parameters: what is proved holds for all of them. Code that updates objects, tables or accumulators in place
is a class or a loop here, proved against a function whose properties the lemmas state.

Where the code does less than its documentation says, the model follows the code and the condition is exact:

- The stream's documentation says a client that reconnects misses nothing. That holds for audit rows
  (`StreamResume.EachRowOnceInOrder`), not for activity frames: all activity frames of a poll carry the poll's last
  cursor, so a cut between two of them loses the later ones, and only such a cut does
  (`StreamResume.ActivitySurvivesCut`).
- Nor does it hold for a cut inside a frame, because the id to resume from moves when the id line is read and not when
  the event is dispatched (`Sse.CutInsideFrame`). What the frame tells is found again after reconnecting exactly if
  the cut comes before the end of its id line and the frame is not activity right after activity of the same poll
  (`StreamResume.CutLosesExactly`).
- A chunk that ends between a CR and its LF ends the event early exactly if one is pending (`Sse.CutInsideCrLf`).
- Rows at the end of the audit log can be removed without a trace: a selection of rows passes the verifier exactly if
  it is a prefix of the log in content and hash (`Audit.RearrangedRowsDetected`).
- A replay depends on the order of the agents through the incident's token budget. No order exhausts it exactly if the
  recorded tokens, without the last step of whichever agent comes last, stay below it
  (`ReplayTheorem.NeverOutExactlyIfSufficient`). A recorded error comes back as it was exactly if it was not marked as
  worth retrying (`Cassettes.TapeRoundTrip`).
- A worker counts its tasks by job, so a task of a job it has started again is not counted: it is superseded. The
  slots bound the tasks at every point of a run exactly if, whenever a poll starts a job, the worker has more free
  slots than superseded tasks (`Workers.SlotsBoundTasksExactly`). Keeping its leases leaves none
  (`Workers.LeasesKeepSlots`); a lease lost without noticing can take it past its slots
  (`Workers.RestartOvercommits`).
- The circuit breaker is said to let one call through after its cooldown. It is closed from that call on, so before
  the next outcome is recorded as many calls go ahead as check: one exactly if one checks
  (`LiveSources.HalfOpenLetsAllThrough`). Within the cooldown a call goes ahead exactly if a call that was already
  under way has succeeded since the opening (`LiveSources.PassesExactlyAfterSuccess`), and a failure, the trial's too,
  leaves the breaker open exactly if it makes enough failures in a row (`LiveSources.FailureOpensExactly`).
- `max_attempts` can be set to zero or less. A job's attempts stay within it throughout a run exactly if it is at
  least one, or is zero and the job is never claimed (`Bypass.WithinLimitExactly`, `Bypass.ZeroLimitIsPassed`).

## Model

| member | source | states |
|---|---|---|
| JobQueue.JobTable.Enqueue | app/queue/jobs.py:54-101 | a job is added unless one with its idempotency key exists, and then nothing changes |
| JobQueue.JobTable.Claim | app/queue/jobs.py:104-145 | the claimed row is the eligible one that stands before every other eligible one; its token is live and was never issued before; nothing is claimed exactly if nothing is eligible |
| JobQueue.JobTable.Heartbeat | app/queue/jobs.py:148-160 | the lease is extended exactly for the live token; expiry alone does not matter |
| JobQueue.JobTable.Complete | app/queue/jobs.py:177-178 | succeeds exactly for the live token, otherwise nothing changes |
| JobQueue.JobTable.Fail | app/queue/jobs.py:181-209 | exactly for the live token the job is requeued if the failure is worth retrying and attempts are left, and dead otherwise; for any other nothing changes |
| JobQueue.JobTable.Release | app/queue/jobs.py:212-214 | hands the job back without counting the attempt, exactly for the live token |
| JobQueue.JobTable.Reap | app/queue/jobs.py:217-242 | exactly the expired rows nobody else holds are requeued or dead-lettered, all others are left alone |
| Fencing.RunKeepsRow | app/queue/jobs.py:217-242 | over any run a job keeps its identity, priority and place in line, and its fence never falls |
| Fencing.OneLiveToken | app/queue/jobs.py:163-174 | at any time at most one token of a job is live |
| Fencing.NeverLiveAgain | app/queue/jobs.py:163-174 | a token that was issued and stopped being live never becomes live again, whatever is claimed, reaped or released |
| Fencing.WritesInFenceOrder | app/worker/runner.py:43-48 | fenced writes of one job commit in non-decreasing fence order |
| Fencing.KeysAreUnique | app/queue/jobs.py:75-101 | no two jobs share an idempotency key |
| JobFates.ClosedExactly | app/queue/jobs.py:177-209 | over any run a job that completes is done for good, one that fails for good or without an attempt left is dead for good, and neither is claimed again; after any other failure it waits with its attempts, and can be claimed once the delay has passed and not before |
| JobFates.ReleasedGoesBack | app/queue/jobs.py:212-214 | a job handed back waits with one attempt less and can be claimed at once |
| JobFates.EnqueuedWaits | app/queue/jobs.py:76-81 | a new job waits untried until it is claimed, which it can be once its delay has passed and not before |
| JobFates.LeaseProtects | app/queue/jobs.py:148-160 | a lease given by a claim or a heartbeat keeps the row as it is, whatever others do, as long as no reaper comes after it has run out |
| JobFates.ReapedExactly | app/queue/jobs.py:226-239 | the first reaper after that takes the row: dead for good exactly if its attempts are used up, otherwise back in line, due when it was due before |
| JobFates.ClaimedIsDue | app/queue/jobs.py:121-125 | a claim takes only what waits, is due, and has a priority and kind it asked for |
| JobFates.RunningMeansLeased | app/queue/jobs.py:129-133 | a job has a lease and a lease owner exactly while it is running |
| Bypass.FenceCountsClaims | app/queue/jobs.py:195-214 | over any run the fence is the attempts plus the releases, and attempts stay within the larger of one and the limit |
| Bypass.WithinLimitExactly | app/queue/jobs.py:130-136 | a job's attempts stay within its limit throughout a run exactly if the limit is at least one, or zero and the job is never claimed |
| Bypass.ZeroLimitIsPassed | app/core/config.py:97 | a concrete run: a job enqueued with a limit of zero and claimed has made one attempt |
| Bypass.PassedOverByClaims | app/queue/jobs.py:122-139 | each time a ready job is passed over, a job before it in line is claimed |
| Bypass.BoundedBypass | app/queue/jobs.py:114-139 | a ready job is passed over at most the sum, over the jobs before it in line, of their attempt limits and releases |
| Bypass.SortKeyIsAgedArrival | app/queue/jobs.py:78-85 | the place in line stays enqueue time plus priority times the aging step |
| Bypass.PassedOverOnlyByAged | app/queue/jobs.py:114-118 | a claim that passes a job over takes one enqueued before what the priority gap in aging steps allows, or just then and earlier in the table |
| Workers.WorkerProcess.ClaimAndStart | app/worker/runner.py:79-108 | one turn of the main loop claims nothing without a free slot, only P0 jobs into reserved slots, and notes what it started |
| Workers.AccurateExactlyIfNotRestarted | app/worker/runner.py:82 | starting a task keeps the map equal to the tasks that run exactly if no task of that job is running |
| Workers.SlotsBoundTasksExactly | app/worker/runner.py:79-108 | over every run the tasks fit the slots at every point exactly if each poll that starts a job finds more free slots than superseded tasks |
| Workers.TasksFitSlots | app/worker/runner.py:91-105 | a run that restarts no running job has at most as many tasks as slots, and at most as many that are not P0 as slots not reserved |
| Workers.LeasesKeepSlots | app/worker/runner.py:157-171 | a worker whose tasks own their jobs at every poll restarts none |
| Workers.RestartOvercommits | app/worker/runner.py:149 | a concrete run with two slots and three tasks, after a lease was lost |
| Workers.ClosedJobIsNotOwned | app/worker/runner.py:126-145 | a task that closed its job does not own it any more |
| WorkerFates.TaskDecidesItsJob | app/worker/runner.py:126-150 | over any run a handler that returned leaves its job done, a permanent failure leaves it dead, any other failure dead exactly if no attempt is left, and none is claimed again; else it waits, for the delay after a failure, at once and with its attempt back after a shutdown |
| WorkerFates.PollStartsExactly | app/worker/runner.py:91-108 | a poll starts a job exactly if a slot is free and a job waits that the slot may take, and it is leased for the configured time |
| LiveSources.CircuitBreaker.Fetch | app/tools/sources.py:90-113 | at most retries + 1 attempts, all but the last with an error worth retrying; the result is the last answer, or circuit_open if the breaker is open when it would be asked for; the breaker has then seen one check per attempt, a success for data, a failure for an error worth retrying, and nothing for any other error |
| LiveSources.OpensAfterThreshold | app/tools/sources.py:68-75 | the breaker counts the failures since the last success, and is open only after as many as the threshold |
| LiveSources.PassesExactlyAfterSuccess | app/tools/sources.py:57-75 | whatever calls overlap, within the cooldown of the last opening a call goes ahead exactly if a success was recorded since |
| LiveSources.OpenHasOpening | app/tools/sources.py:68-75 | an open breaker was opened by a failure after which nothing opened it again, at the time it carries |
| LiveSources.FailureOpensExactly | app/tools/sources.py:68-75 | after any events a failure leaves the breaker open, as of now, exactly if it makes as many failures in a row as the threshold |
| LiveSources.HalfOpenLetsAllThrough | app/tools/sources.py:49-66 | after the cooldown as many calls go ahead before the next outcome as check |
| Audit.Verify | app/db/audit.py:70-85 | `checked` is the length of the longest valid prefix of the chain; the first bad row and the reason are those of the row after it |
| Audit.LastHashFixesLog | app/db/audit.py:88-103 | two accepted logs with the same last hash agree row for row, apart from their numbers |
| Audit.RearrangedRowsDetected | app/db/audit.py:3-6 | any selection of a valid log's rows is accepted exactly if it is a prefix of that log |
| Audit.DeletionStopsThere | app/db/audit.py:77-84 | after a row that is not last is deleted, the valid prefix ends exactly there |
| Audit.EditStopsThere | app/db/audit.py:77-84 | after row i was replaced by another, the valid prefix ends exactly at i, or right after it if the new row was hashed again to fit; so an edit goes unnoticed only in the last row |
| AuditAppenders.CommittedLogIsOneChain | app/db/audit.py:25-59 | under any interleaving of transactions that lock, append, commit or roll back, the committed log is one chain from the genesis value, numbered in commit order, and only ever extended at its end |
| AuditAppenders.TransactionIsAllOrNothing | app/db/audit.py:25-59 | a transaction that commits adds exactly what it appended while it had the lock, in order; one that rolls back, and anything else, adds nothing |
| AuditAppenders.AuditLog.Append | app/db/audit.py:25-59 | the new row is the last, chained to the row before it |
| Incidents.IncidentTable.Transition | app/db/incidents.py:111-162 | the row moves and the move is recorded exactly if the graph allows it and state and version are as expected; the history stays a path that ends at the row |
| Incidents.TransitionExtendsPath | app/db/incidents.py:126-159 | a transition that goes through extends the path of recorded moves by one with the next version |
| Incidents.PathFacts | app/db/incidents.py:131-135 | along a path the version counts the moves, and closed_at is set exactly at a terminal state |
| Incidents.TerminalIsLast | app/db/incidents.py:46-50 | no path goes on from a terminal state |
| Incidents.NeverBackToPlanning | app/db/incidents.py:23-35 | once EXECUTING was entered, no path leads back to a state in which a plan can be added |
| Incidents.OneRoad | app/db/incidents.py:23-35 | the graph is exactly the road from RECEIVED to RESOLVED, two ways back, one past the approval, and the way out from every open state |
| Incidents.RepairedWasReviewed | app/db/incidents.py:23-35 | a path reaches EXECUTING and what follows it only from SAFETY_REVIEWED or AWAITING_APPROVAL |
| Incidents.WaysThrough | app/db/incidents.py:23-43 | the graph has the ways from alert to repair, investigated again, revised, approved or allowed at once, and a way out to a human at every step |
| Policy.ProblemHostCheck | app/remediation/policy.py:116-131 | passes exactly if the target is the top root cause with enough confidence |
| Policy.EvidenceCheck | app/remediation/policy.py:134-149 | passes exactly if all cited evidence is known and, where the action asks for it, one result about this deployment is cited |
| Policy.AlternativeCheck | app/remediation/policy.py:152-160 | never blocks; passes exactly if a catalogued option of lower risk was considered |
| Policy.ActionChecks | app/remediation/policy.py:85-97 | none of an action's checks blocks exactly if the action is permitted |
| Policy.Evaluate | app/remediation/policy.py:73-107 | denied exactly if some action is not permitted, there is none, or it is outside the change window; otherwise allowed exactly if every action is within the automatic risk; the risk reported is the highest |
| Policy.NotDeniedMeansPermitted | app/remediation/policy.py:110-149 | a plan that is not denied targets only the allow-listed top root cause, cites known evidence and is inside the window |
| Policy.HumanDecidesExactly | app/remediation/policy.py:100-107 | with an automatic risk up to R1, the default, a human decides on every plan that is not denied, at R2 on exactly those that undo a rollout, and above on none |
| Policy.TimesInOrder | app/remediation/policy.py:173-177 | times compare by hour and minute, 24:00 after all others, and a malformed time leaves nothing inside the window |
| Policy.WindowOrTheRest | app/remediation/policy.py:163-170 | a change window and the rest of the day share no time and leave none out; it starts with its first minute and ends before its last |
| RemediationSafety.RunKeepsInv | app/executor/job.py:56-171 | the joint invariant of jobs, incidents, plans, approvals, executions, executors and patches holds after every event, and what is append-only only grows |
| RemediationSafety.SubmitKeepsInv | app/remediation/flow.py:128-254 | a submission that commits keeps the invariant, whatever happened since it read |
| RemediationSafety.DecideKeepsInv | app/remediation/flow.py:263-343 | so does a decision |
| RemediationSafety.TimeOutKeepsInv | app/worker/remediate.py:101-123 | so does an approval timeout |
| RemediationSafety.AdvanceKeepsInv | app/executor/job.py:43-171 | so does any step of any executor, stale ones included |
| RemediationSafety.EndVerifyKeepsInv | app/worker/remediate.py:177-211 | so does the end of a verify run |
| RemediationTheorems.AtMostOnePatch | app/executor/job.py:61-134 | in every run at most one real patch is ever sent for an action of a plan |
| RemediationTheorems.IntentBeforeEffect | app/executor/job.py:109-127 | when a patch goes out, its execution row and its execution.started audit row were committed by the same claim, even if that claim has lost its fence since |
| RemediationTheorems.EveryPatchIsLegitimate | app/executor/job.py:183-202 | every patch sent is for an action of the one current plan, permitted at submission and at the re-review in that job run; if either review asked for an approval, one for exactly this plan's hash exists from someone other than its author |
| RemediationTheorems.NoPlanAfterExecuting | app/db/incidents.py:23-35 | after EXECUTING no plan is added and no approval changes |
| RemediationTheorems.LostClaimCannotWrite | app/worker/runner.py:43-48 | a claim that is not live any more changes no job, row or incident, whatever it was about to do |
| RemediationTheorems.SettledRowsNeverChange | app/executor/job.py:66-81 | an execution row that left `started` never changes again |
| RemediationTheorems.RowsAreAPrefix | app/executor/job.py:56-135 | recorded action indices form a prefix in which all but the last succeeded |
| RemediationTheorems.VerifyingMeansEveryActionSucceeded | app/executor/job.py:147-159 | VERIFYING or RESOLVED implies a succeeded row for every action of the current plan |
| RemediationTheorems.ResolvedMeansHealthyStreak | app/worker/remediate.py:146-164 | RESOLVED implies a recorded verify run whose last samples, as many as asked for, were all below the threshold |
| RemediationTheorems.OneOutcomePerPlan | app/remediation/flow.py:290-310 | a plan ever has at most one outcome among approved, rejected, timed out and superseded |
| RemediationTheorems.DecisionIsForCurrentPlan | app/remediation/flow.py:279-343 | a decision that commits is for the plan that is current then, and for a plan nothing was decided on |
| RemediationTheorems.TrailTellsTheRow | app/db/incidents.py:128-159 | the incident.transition audit rows of an incident are a path whose end is exactly the incident's state, version and closing |
| AuditedRuns.LogHoldsEveryTrail | app/db/audit.py:25-59 | under any interleaving of the log's writers the committed log is one chain, and its rows about an incident are exactly the incident's trail |
| AuditedRuns.VerifiedLogTellsEveryRow | app/db/audit.py:62-103 | a log that verification accepts and that ends in the committed log's last hash gives every incident's trail, and by it the exact state, version and closing of its row |
| AuditedRuns.EveryRunCanBeLogged | app/db/incidents.py:128-159 | every run of the protocol is the history of such a log |
| RemediationTheorems.ClosedIsForever | app/db/incidents.py:46-50 | a closed incident stays as it was closed |
| RemediationRecord.RunIsRecorded | app/remediation/flow.py:196-343 | in every run each recorded plan goes through its review to EXECUTING, AWAITING_APPROVAL or ESCALATED exactly as its verdict allows, asks for a decision or denies; each decision at once to EXECUTING if it approves and to ESCALATED if not; an incident waits only for an undecided plan that needs a decision, and executes only one that was allowed or approved |
| RemediationJobs.JobsOfPlans | app/remediation/flow.py:350-370 | in every run a plan has an execute job exactly if it was allowed or approved, a timeout job exactly if it needs a decision, and a verify job exactly if it is current and the incident has moved to VERIFYING |
| RemediationAnswers.SubmissionFollowsVerdict | app/remediation/flow.py:128-254 | a submission that commits adds the plan with its proposer, verdict and deadline, moves the incident to EXECUTING, AWAITING_APPROVAL or ESCALATED exactly as the policy allows the plan, asks for an approval or denies it, and enqueues exactly the job that follows |
| RemediationAnswers.DecisionIsCarriedOut | app/remediation/flow.py:300-343 | a decision that commits is kept with its author, and the incident is EXECUTING, with an execute job, exactly if it approves, and ESCALATED exactly if it rejects |
| RemediationAnswers.FreshDecision | app/remediation/flow.py:279-310 | on what is there now, a decision commits exactly if the incident waits, the hash is the waiting plan's, the deadline has not passed and nobody approves their own plan |
| RemediationAnswers.FreshSubmission | app/remediation/flow.py:128-143 | a submission commits exactly if a live planner finds its incident DIAGNOSED, or a responder finds a plan waiting |
| RemediationAnswers.FreshTimeOut | app/worker/remediate.py:101-123 | a timeout gives up exactly if its job is live and its plan is the one that waits |
| RemediationAnswers.TimeoutWaitsForDeadline | app/remediation/flow.py:229-232 | no worker gets a plan's timeout job for the first time before the plan's deadline |
| ExecutorHistory.RowSaysWhatHappened | app/executor/job.py:84-144 | in every run succeeded means that the row's owner sent the change and it was applied, or nothing had to be changed; failed, that its change or its dry run was refused; unknown, that there was no answer, or that another executor, owner of the job by then, found the attempt interrupted |
| ExecutorHistory.OutcomeIsRecorded | app/executor/job.py:66-144 | what a live executor finds out is what is recorded, for the rest of the run |
| ExecutorHistory.NothingSentAfterFailure | app/executor/job.py:100-144 | after a refused dry run, a refused change or one without an answer, the executor sends nothing more |
| ExecutorHistory.DryRunBeforeEffect | app/executor/job.py:84-107 | every change was sent after its own executor's dry run of it was accepted |
| ExecutorHistory.EscalatesForAReason | app/executor/job.py:49-144 | an executor escalates only if the plan may not run, a row had failed or was unknown, an attempt was interrupted, its dry run was refused or its change not applied |
| ExecutorHistory.GivingUpHandsOver | app/executor/job.py:258-279 | a live executor that gives up leaves its incident ESCALATED for good, unless it was closed already |
| ExecutorHistory.SuccessIsAnnounced | app/executor/job.py:134-144 | a live executor announces each success in the incident's trail, and there it stays |
| ExecutorHistory.RefusesExactly | app/executor/job.py:183-202 | the review refuses exactly the plans that are not the job's current one, are denied, or lack the approval that either review asks for |
| RemediationService.Database.Submit | app/remediation/flow.py:128-254 | the statements of a submission in order, with versions threaded through the transitions, are exactly one event; a refusal anywhere rolls all of it back |
| RemediationService.Database.Decide | app/remediation/flow.py:263-343 | the same for a decision: the approval row is rolled back with a failed transition |
| RemediationService.Database.TimeOut | app/worker/remediate.py:101-123 | the same for a timeout; it acts only on the plan it was scheduled for, undecided |
| RemediationService.Database.LoadAndReview | app/executor/job.py:49-53 | the executor goes on to the actions exactly if the current plan must not be refused |
| RemediationService.Database.SendChange | app/executor/job.py:205-216 | one patch is sent, unless there is nothing to change; the status is what the answer says about it |
| RemediationService.Database.ExecuteAction | app/executor/job.py:61-144 | one action of the loop, with any events of others between its transactions, ends in the next action or in one of the job's ends |
| RemediationService.Database.ExecuteJob | app/executor/job.py:38-171 | the whole handler, with any interference between its steps, only ever leaves tables that some run leaves, and runs to its end; it reports done only with the incident at VERIFYING, and each other end only if its last step found the reason for it |
| RemediationService.Database.SampleUntilDecided | app/worker/remediate.py:145-172 | whatever others do meanwhile, the loop ends by the deadline, passes exactly at the first sample that completes the streak, and keeps every reading in order |
| RemediationService.Database.RecordVerification | app/worker/remediate.py:177-211 | the end of a verify run is exactly one event; it is recorded exactly if the claim is live and the incident at VERIFYING |
| RemediationService.Database.VerifyJob | app/worker/remediate.py:127-174 | the whole handler, with any interference between its steps: what it records is a run its loop decided, or a failed one where nothing can be checked, and the incident goes where that run sends it; it records nothing only if the incident was not at VERIFYING or its claim was gone |
| Cursors.CursorRoundTrip | app/api/stream.py:36-51 | a cursor that went to the client as text is read back as it was |
| Numerals.ParseIntOfDigits | app/api/stream.py:48-51 | the integer parser, with the white space, signs and underscores it accepts, reads back what is written |
| Numerals.ParseIntReadsAllForms | app/api/stream.py:48-51 | white space around a numeral, a sign and single underscores between digits do not change what it says |
| ChangeStream.Changes | app/api/stream.py:74-114 | one poll returns the tenant's next audit rows, each with the cursor to resume from after it, then one frame per incident touched, in order, with exactly the agents that touched it, each once and sorted by name |
| Names.SortedIsUnique | app/api/stream.py:113 | names have exactly one sorted list, so an activity frame's agents are determined |
| StreamCoverage.EachCallOnceInOrder | app/api/stream.py:94-112 | however the calls fall into polls, a connection tells of exactly the tenant's calls between its first and last cursor, each once, in order |
| StreamCoverage.PollReadsItsWindow | app/api/stream.py:94-112 | a poll reads exactly the calls up to the cursor it returns, at most 500, and all there are if fewer |
| StreamCoverage.PollReadsItsRows | app/api/stream.py:79-93 | and as many audit rows as there are, at most 500 |
| StreamCoverage.ConnectsWhereItShould | app/api/stream.py:130 | a client with a readable id goes on exactly from it, and one without gets nothing committed before it connected |
| StreamResume.EachRowOnceInOrder | app/api/stream.py:77-81 | for any appends, batches and cuts between frames, the audit rows a resuming client received are exactly its tenant's committed rows between its first and last cursor, each once, in order |
| StreamResume.CaughtUpMeansComplete | app/api/stream.py:8-10 | with nothing left to fetch, it has received every row since its first cursor |
| StreamResume.ActivitySurvivesCut | app/api/stream.py:89-114 | after a cut no activity is lost exactly if the cut is not between two activity frames |
| StreamResume.CutLosesExactly | web/src/lib/sse.ts:21-48 | a connection cut after any polls, j whole frames of the last and k characters of the next, in any chunking: the client has exactly the whole frames, and what the cut frame told is found again from the id it holds exactly if the cut is before the end of the id line and the frame is not activity right after activity of the same poll |
| StreamResume.ParserReturnsFrames | app/api/stream.py:117-136 | the console's parser returns one event per frame written, under its cursor, however the text is chunked |
| Sse.SseParser.Feed | web/src/lib/sse.ts:21-48 | the loop over whole lines updates the parser as draining its buffer does, and returns the events completed |
| Sse.FeedIsHomomorphism | web/src/lib/sse.ts:21-48 | feeding two chunks gives the events and state of feeding them together unless the cut is between a CR and its LF |
| Sse.CutInsideCrLf | web/src/lib/sse.ts:25-36 | at such a cut the LF counts as a blank line: the result differs exactly if an event is pending |
| Sse.ChunkingIsIrrelevant | web/src/lib/sse.ts:21-48 | any chunking that keeps CR LF pairs together gives the same events and state |
| Sse.FramesSurviveChunking | web/src/lib/sse.ts:21-48 | any chunking of any sequence of server frames, delays and pings returns exactly those frames |
| EventStream.ParserSaysWhatLinesSay | web/src/lib/sse.ts:21-48 | for any lines with any line ends, cut anywhere but inside a CR LF, the parser returns exactly the events the lines say, and is left with what they say since the last blank line |
| EventStream.FieldIsRead | web/src/lib/sse.ts:39-42 | a field is what stands before the first colon, its value what stands after it without one leading space |
| Sse.CutInsideFrame | web/src/lib/sse.ts:30-44 | a cut inside a frame dispatches nothing, and moves the id to resume from exactly if it comes after the id line |
| Transcript.Normalize | app/llm/types.py:120-145 | a step has calls or a final answer, never both and never neither; calls win |
| AgentLoop.AgentRun.Loop | app/agents/loop.py:151-213 | the loop ends, within its step limit plus rewrites if it has tools, and is what its rounds one after another make of any answers |
| AgentLoop.AgentRun.Round | app/agents/loop.py:155-213 | one round: budget, step, calls and results, or the judged final answer |
| AgentLoop.AgentRun.Conclude | app/agents/loop.py:198-225 | a final answer is accepted, sent back while rewrites are left, or fails the agent |
| AgentLoop.EndsWithinStepBound | app/agents/loop.py:155-177 | whatever the model answers, an agent with a tool has ended after max(1, max_steps) + max_rewrites steps |
| AgentLoop.EndsWithinBudget | app/agents/loop.py:157-159 | an agent without tools has ended, at the latest, after one step more than the budget has tokens, if steps cost tokens |
| AgentLoop.CountedMeans | app/agents/loop.py:178-184 | every call is counted, as an error exactly if it brought no evidence, and exactly the evidence brought is added to `shown` |
| AgentLoop.ShownIsOwnEvidence | app/agents/loop.py:178-184 | every id in `shown` came back from a successful call of this run to one of the agent's own tools |
| AgentLoop.FinalIsJudged | app/agents/loop.py:206-213 | an accepted answer is what the check made of the model's last answer, given what was shown |
| LoopFates.EveryRound | app/agents/loop.py:155-213 | a round ends out of budget exactly if the recorded tokens have reached it, fails on calls exactly if no step was left to query, and on an answer goes on exactly if there is something against it and a rewrite is left; and the transcript gets the step and what came of it, with every problem of an answer sent back |
| LoopFates.NothingIsAcceptedEarly | app/agents/loop.py:196-213 | an agent that finished with problems had used all its rewrites, and so had one that failed on an answer that does not fit the schema |
| LoopFates.FeedbackNamesEveryProblem | app/agents/loop.py:216-225 | the text an answer is sent back with contains each problem |
| LoopFates.TranscriptOnlyGrows | app/agents/loop.py:155-213 | nothing an agent was told is taken back |
| TokenBudget.UsageStaysNearBudget | app/agents/loop.py:155-159 | with at most k agents at once and m tokens a step, the recorded usage never exceeds budget - 1 + k * m, and is 0 without a budget |
| TokenBudget.OwnUsageIsCounted | app/agents/loop.py:157-159 | what an agent used is in the incident's count, and it is out of budget only if that count has reached the budget |
| Render.RenderMessages | app/llm/api.py:106-147 | the loop over turns and blocks, appending in place, gives the rendered conversation |
| Render.TranscriptIsWellFormed | app/llm/api.py:106-147 | a transcript renders as a conversation that starts and ends with the user and alternates; ids are unique, each tool_use has exactly one tool_result in the next message, and results precede text |
| Render.RenderingKeepsWhatIsSaid | app/llm/api.py:111-139 | rendering loses no text, call, answer or result, keeps their order, and leaves each with the one who said it |
| Render.BlocksAreMarked | app/llm/api.py:111-139 | exactly what is sent back about a final answer is marked as an error |
| Render.IdTextIsInjective | app/agents/loop.py:172 | different ids are written differently |
| Requests.EveryRequestIsWellFormed | app/agents/loop.py:160-197 | every request of any loop run renders as such a conversation |
| Cassettes.ReplaySource.constructor | app/tools/sources.py:180-185 | loading fills the per-agent and the shared queues in recorded order |
| Cassettes.ReplaySource.FetchAnswer | app/tools/sources.py:187-203 | the agent's own next answer, else its last, else the call's; a recorded error is raised as one not worth retrying |
| Cassettes.LoadedQueue | app/tools/sources.py:167-185 | each agent's queue holds its recorded answers to that call, in order |
| ReplayAnswers.EveryCallGetsItsAnswer | app/tools/sources.py:167-203 | over any sequence of calls, a call of an agent with recorded answers to it gets the next of them, and the last again once they are used up; any other call draws in the same way on all answers recorded for it; only a call nobody recorded is a miss |
| Cassettes.ReplayBackend.constructor | app/llm/replay.py:69-74 | the later answer to a request replaces the earlier |
| Cassettes.BookIsPerAgent | app/llm/replay.py:25-26 | what an agent is answered depends only on its own entries |
| Cassettes.TapeRoundTrip | app/tools/sources.py:153-164 | an answer comes back from the cassette unchanged exactly if it is not an error worth retrying |
| RecordingRuns.FinishedRecordingIsOnTape | app/tools/sources.py:146-164 | however the agents and their parallel calls interleave while recording, the cassettes hold each agent's entries in its own order |
| ReplayTheorem.RequestIsFound | app/llm/replay.py:76-94 | each recorded request finds its own recorded step |
| ReplayTheorem.CallStaysInStep | app/tools/sources.py:194-203 | answering a call in the replay gives the recorded outcome and takes exactly its entry, in any order of the step's calls |
| ReplayTheorem.ReplayReproducesRecording | app/llm/replay.py:3-8 | under any interleaving every agent of the replay is at a point of its recorded run: same transcript, counts, evidence and answer |
| ReplayTheorem.NeverOutExactlyIfSufficient | app/agents/loop.py:157-159 | no order of the replay runs out of budget exactly if the recorded tokens without the last step of the agent that comes last are below it |
| Checkpoints.AgentStore.StartRun | app/agents/store.py:221-241 | the run row is created or reset, unless the agent is done |
| Checkpoints.AgentStore.FinishRun | app/agents/store.py:243-275 | only an unfinished run is finished, and only then are all its entries inserted |
| Checkpoints.AgentStore.FailRun | app/agents/store.py:277-285 | only an unfinished run is failed |
| Checkpoints.AgentStore.EntriesBy | app/agents/store.py:287-295 | an author's entries in insertion order |
| Investigations.DoneIsFinal | app/agents/store.py:221-285 | once an agent is done, no start, finish or failure of any attempt changes its row or its entries |
| Investigations.EntriesOfOneFinish | app/agents/store.py:243-275 | an agent has no entries before it is done, and then exactly those of the one finish that made it done, with its result |
| Investigations.BroughtByFinish | app/agents/store.py:243-275 | every entry on the board was brought by the finish that made its author done |
| Investigations.BoardOnlyGrows | app/agents/store.py:287-295 | what an attempt has read of the board is the beginning of what is on it later |
| Investigations.FinishedAgentIsNotAskedAgain | app/agents/investigation.py:114-122 | an attempt that begins after an agent is done never calls the model for it and reads back those entries |
| Investigations.RowTellsLastWrite | app/agents/store.py:221-285 | an agent has a row exactly if some attempt began it, and the row is what its last begin, failure or finish left |
| Citations.IdProblems | app/agents/citations.py:48-55 | the problems are exactly those of the ids that are unknown or were not shown |
| Citations.FindingProblems | app/agents/citations.py:58-71 | no problem exactly if all ids are known and shown, a claim cites live evidence, and live evidence fits the signal; each kind of problem exactly when it applies |
| Citations.CheckReport | app/agents/citations.py:74-86 | exactly the findings that hold are kept, in order; the problems name exactly the others |
| Citations.Keep | app/agents/citations.py:93-112 | exactly the items that hold are kept; the caller's problems grow by those of the others |
| Citations.CheckDiagnosis | app/agents/citations.py:115-127 | the same for root causes, facts and inferences, with the count of what was dropped |
| Citations.CheckPlan | app/agents/citations.py:130-134 | every action kept cites only known, shown evidence; nothing is dropped exactly if there is no problem |
| Citations.AcceptedReportPassesAgain | app/agents/citations.py:74-86 | checking an accepted report again drops nothing |
| Citations.AcceptedDiagnosisPassesAgain | app/agents/citations.py:115-127 | checking an accepted diagnosis again drops nothing |
| Provenance.PostedFindingIsSupported | app/agents/investigation.py:173-181 | a finding on the blackboard passed its check, and each id it cites was returned to its author by one of its own tools |
| Provenance.StoredFindingComesFromReport | app/agents/investigation.py:177-183 | every finding in the store is, read back, one of the accepted report of a run of its author |
| Provenance.DiagnosisRestsOnOwnResults | app/agents/investigation.py:193-215 | over any attempts, stale ones included, and any answers, an accepted diagnosis cites in every root cause, fact and inference a result not from the knowledge base, and each id it cites is evidence of the incident, cited by a finding then in the store, and was returned to that finding's author; for the single agent, to itself |
| Provenance.StoredDiagnosisRestsOnOwnResults | app/agents/investigation.py:223-230 | every diagnosis in the store, read back, is one of these |
| Compress.Bound | app/tools/compress.py:94-108 | it ends; each turn halves the first of the largest lists of a tree that is too large; the result is a truncation of the clipped summary and has at most max_chars + 17 characters or no list longer than one; the flag is set exactly if something was cut |
| Compress.ListsAreAllLists | app/tools/compress.py:82-91 | the lists found are exactly the lists of the tree |
| Compress.CutIsTruncation | app/tools/compress.py:103-104 | cutting a list keeps every key, and no list that had items is left empty |
| Compress.CutTouchesOneList | app/tools/compress.py:103-104 | the cut list has its first items, and everything beside it stays as it was |
| Compress.ListsInOrder | app/tools/compress.py:82-91 | the lists are found outer before inner and left before right, so the first of the largest is the outermost and leftmost |
| Compress.SizeIsTextLength | app/tools/base.py:131-133 | the size that is bounded is the length of the JSON text |
| Compress.FlagIsSet | app/tools/compress.py:106-107 | the flag is set in its place, and every other field is as it was |
| Compress.CutIsSmaller | app/tools/compress.py:99-105 | cutting a list shortens the JSON text |
| Compress.FlagAddsSeventeen | app/tools/compress.py:106-107 | the flag costs at most 17 characters and adds no list |
| Compress.ClipFits | app/tools/compress.py:72-79 | after clipping every string fits, and a tree whose strings fit is left as it is |

## Left out

- HTTP routes, token checks, subprocesses, HTTP clients and the response shapes of Prometheus, Loki, Jaeger and
  Kubernetes. A patch is applied, refused or without an answer; a tool or model call has an arbitrary answer.
- How a patch is put together, and its test operation: only the outcome matters here.
- Pages, the replay player, metrics, traces, texts of reasons and error messages, evaluation and lab scripts.
- The knowledge base search and the scoring of evaluations.
- SQL itself, floats, random jitter and clocks: transactions are atomic steps, numbers are integers or reals, and
  delays and times are arbitrary parameters.
- Job ids are positions in the table and plan ids pairs of incident and number, so gaps in a database sequence are
  not modelled; digests and plan hashes are free constructors, so collisions are not.
- The worker's timing: the statements of its heartbeat, poll and reap loops are events that can come at any time and in
  any order, which includes every order those loops produce. A task closes its job and leaves the map in one step.
- Every read of an executor is an event of its own, except that the plan and the approval it reviews are read together:
  at EXECUTING both are frozen (`RemediationTheorems.NoPlanAfterExecuting`), so reading them apart would find the same.
- Opening, merging and correlating alerts, triage and investigation jobs: an incident can be opened at any time, and
  any allowed move that submissions, decisions and executors do not make is an event. Locks taken by ingest are left out.
- That incidents make progress: a dead executor job leaves its incident at EXECUTING, so only safety is claimed. Nor is
  it claimed that a second verify job keeps the first deadline, since merging an alert moves the time it counts from.
- The in-memory agent store, which lacks the guards of the Postgres one.
- The waits between retries and the timeout of an attempt: a timeout is an error worth retrying.
- ReplayTheorem.ReplayReproducesRecording: agents are given their tasks; that the task of a later stage is the same again
  follows from applying it to the stage before. The tool registry's summaries, hashes and evidence ids are one
  deterministic function of the answer, and so is the judgement of an answer. An interrupted recording, in which a
  request is answered twice, is not covered.
- Compress.Bound: lists nested in the tree are cut by replacing them in a value, where the code deletes from them in
  place; the clipped tree shares no list, so there is no aliasing to model. A number is its text.
- AgentLoop.AgentRun.Loop: an agent without tools is only shown to end if each step costs tokens and the incident's count
  includes its own; nothing else limits it.
- StreamResume.ActivitySurvivesCut: it compares two reads of the same tables. Call rows are not numbered in commit order,
  so a row that commits late can be behind a cursor; the tables are arbitrary at each poll and nothing is claimed of that.
- Cursors.CursorRoundTrip: the interpreter's limit on the number of digits it converts, which cursors do not reach.
- Sse.SseParser.Feed: the reconnect delay is an integer, where the console's number loses precision above 2^53.
- Provenance.DiagnosisRestsOnOwnResults: that root causes and claims cite at least one id is their schema's demand, and
  a hypothesis of a diagnosis cites nothing. Findings and diagnoses are read back as they were written, and rows of the
  evidence table do not change.
- AuditedRuns.VerifiedLogTellsEveryRow: a row is its subject and what it says of it; the other columns are content the
  digest covers. Rows about other subjects are kept apart only as such.
- RemediationService.Database.VerifyJob: the audit row keeps every sample, where the code keeps the last twenty, and its
  deadline is the number of the first sample taken after it.
- Summaries' other helpers (rounding, percentiles, message templates): small arithmetic and regular expressions.
