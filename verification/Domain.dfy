/** Names shared by the components: optional values, incident and plan ids, job kinds and keys. */
module Domain {

  datatype Option<+T> = None | Some(value: T)

  type IncidentId = int

  type Actor = string

  /** A plan is identified by its incident and its number within it (the `seq` column), which carry a unique index together. */
  datatype PlanId = PlanId(incident: IncidentId, number: nat)

  datatype JobKind = Triage | Investigate | Plan | ApprovalTimeout | Execute | Verify

  /** The idempotency keys jobs are enqueued under: one per plan and kind, or one per incident and kind. */
  datatype JobKey = ForPlan(plan: PlanId, kind: JobKind) | ForIncident(incident: IncidentId, kind: JobKind)

  /** What a claim hands to a worker: the job and the fence it was claimed at. */
  datatype Token = Token(job: nat, fence: nat)
}
