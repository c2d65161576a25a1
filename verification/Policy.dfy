/** The policy engine: may a plan run, and does a human have to approve it? */
module Policy {
  import opened Domain

  datatype Risk = R0 | R1 | R2 | R3 | R4

  function Rank(r: Risk): nat {
    match r case R0 => 0 case R1 => 1 case R2 => 2 case R3 => 3 case R4 => 4
  }

  /** `Unlisted` stands for a name the catalogue does not have. */
  datatype ActionKind = RolloutUndo | RestartDeployment | ScaleDeployment | Unlisted(name: string)

  datatype Action = Action(kind: ActionKind, deployment: string, evidenceIds: seq<string>)

  datatype RemediationPlan = RemediationPlan(actions: seq<Action>, alternatives: seq<ActionKind>)

  /** `undoable`: the catalogue says how to undo the action (its inverse text is not empty). */
  datatype ActionInfo = ActionInfo(risk: Risk, undoable: bool, evidenceTools: set<string>)

  datatype EvidenceRef = EvidenceRef(tool: string, deployment: Option<string>)

  /** A time of day as written in the configuration. */
  datatype ClockText = ClockText(hours: int, minutes: int)

  /** `clock` is the UTC time of day in microseconds. */
  datatype PolicyContext = PolicyContext(
    rootCauses: seq<(string, real)>,
    evidence: map<string, EvidenceRef>,
    allowedTargets: set<string>,
    minConfidence: real,
    autoMaxRisk: Risk,
    windowStart: ClockText,
    windowEnd: ClockText,
    clock: int)

  datatype Verdict = Allow | RequireApproval | Deny

  datatype CheckName = HasActions | Catalogue | Scope | ProblemHost | Evidence | RollbackPlan | Alternative | ChangeWindow | PolicyError

  datatype Check = Check(name: CheckName, ok: bool, blocking: bool)

  datatype Decision = Decision(verdict: Verdict, risk: Option<Risk>, checks: seq<Check>)

  function CatalogueEntry(kind: ActionKind): Option<ActionInfo> {
    match kind
    case RolloutUndo =>
      Some(ActionInfo(R3, true, {"rollout_history", "deploy_diff"}))
    case RestartDeployment => Some(ActionInfo(R2, true, {}))
    case ScaleDeployment => Some(ActionInfo(R2, true, {}))
    case Unlisted(_) => None
  }

  const MINUTE := 60_000_000
  const LAST_MICROSECOND := 24 * 60 * MINUTE - 1

  /** None stands for the ValueError a malformed time raises. */
  function Clock(t: ClockText): Option<int> {
    if t.hours == 24 && t.minutes == 0 then Some(LAST_MICROSECOND)
    else if 0 <= t.hours < 24 && 0 <= t.minutes < 60 then Some((t.hours * 60 + t.minutes) * MINUTE)
    else None
  }

  // ----- What the verdict means -----

  ghost predicate InsideWindow(ctx: PolicyContext) {
    var start, end := Clock(ctx.windowStart), Clock(ctx.windowEnd);
    && start.Some? && end.Some?
    && (start.value <= end.value ==> start.value <= ctx.clock < end.value)
    && (end.value < start.value ==> start.value <= ctx.clock || ctx.clock < end.value)
  }

  /** The action's Deployment is allow-listed and is the most likely root cause, with enough confidence. */
  ghost predicate RightTarget(a: Action, ctx: PolicyContext) {
    && a.deployment in ctx.allowedTargets
    && ctx.rootCauses != []
    && ctx.rootCauses[0].0 == a.deployment
    && ctx.minConfidence <= ctx.rootCauses[0].1
  }

  /** Every cited id is evidence of the incident; an undo cites the release it undoes, on the same Deployment. */
  ghost predicate Supported(a: Action, ctx: PolicyContext) {
    && (forall i :: 0 <= i < |a.evidenceIds| ==> a.evidenceIds[i] in ctx.evidence)
    && (a.kind.RolloutUndo? ==>
          exists i :: 0 <= i < |a.evidenceIds| && a.evidenceIds[i] in ctx.evidence
            && ctx.evidence[a.evidenceIds[i]].tool in {"rollout_history", "deploy_diff"}
            && ctx.evidence[a.evidenceIds[i]].deployment == Some(a.deployment))
  }

  ghost predicate Permitted(a: Action, ctx: PolicyContext) {
    !a.kind.Unlisted? && RightTarget(a, ctx) && Supported(a, ctx)
  }

  ghost predicate Acceptable(plan: RemediationPlan, ctx: PolicyContext) {
    && plan.actions != []
    && (forall i :: 0 <= i < |plan.actions| ==> Permitted(plan.actions[i], ctx))
    && InsideWindow(ctx)
  }

  function RiskOf(a: Action): Risk
    requires !a.kind.Unlisted?
  {
    CatalogueEntry(a.kind).value.risk
  }

  /** Denied unless acceptable; then a human decides unless every action is within the automatic risk. */
  ghost function Judge(plan: RemediationPlan, ctx: PolicyContext): Verdict {
    if !Acceptable(plan, ctx) then Deny
    else if forall i :: 0 <= i < |plan.actions| ==> Rank(RiskOf(plan.actions[i])) <= Rank(ctx.autoMaxRisk) then Allow
    else RequireApproval
  }

  // ----- The engine as written: accumulate checks and the highest risk -----

  method ScopeCheck(deployment: string, ctx: PolicyContext) returns (c: Check)
    ensures c.blocking && (c.ok <==> deployment in ctx.allowedTargets)
  {
    c := Check(Scope, deployment in ctx.allowedTargets, true);
  }

  method ProblemHostCheck(deployment: string, ctx: PolicyContext) returns (c: Check)
    ensures c.blocking
    ensures c.ok <==> ctx.rootCauses != [] && ctx.rootCauses[0].0 == deployment && ctx.minConfidence <= ctx.rootCauses[0].1
  {
    if ctx.rootCauses == [] { return Check(ProblemHost, false, true); }
    var (top, confidence) := ctx.rootCauses[0];
    if deployment != top { return Check(ProblemHost, false, true); }
    if confidence < ctx.minConfidence { return Check(ProblemHost, false, true); }
    c := Check(ProblemHost, true, true);
  }

  method EvidenceCheck(a: Action, tools: set<string>, ctx: PolicyContext) returns (c: Check)
    requires CatalogueEntry(a.kind).Some? && tools == CatalogueEntry(a.kind).value.evidenceTools
    ensures c.blocking && (c.ok <==> Supported(a, ctx))
  {
    var unknown := false;
    for i := 0 to |a.evidenceIds|
      invariant unknown <==> exists k :: 0 <= k < i && a.evidenceIds[k] !in ctx.evidence
    {
      if a.evidenceIds[i] !in ctx.evidence { unknown := true; }
    }
    if unknown { return Check(Evidence, false, true); }
    if tools != {} {
      var about := false;
      for i := 0 to |a.evidenceIds|
        invariant about <==> exists k :: 0 <= k < i && ctx.evidence[a.evidenceIds[k]].tool in tools
                                      && ctx.evidence[a.evidenceIds[k]].deployment == Some(a.deployment)
      {
        var cited := ctx.evidence[a.evidenceIds[i]];
        if cited.tool in tools && cited.deployment == Some(a.deployment) { about := true; }
      }
      if !about { return Check(Evidence, false, true); }
    }
    c := Check(Evidence, true, true);
  }

  method AlternativeCheck(plan: RemediationPlan, risk: Risk) returns (c: Check)
    ensures !c.blocking
    ensures c.ok <==> exists i :: 0 <= i < |plan.alternatives| && !plan.alternatives[i].Unlisted?
                                  && Rank(CatalogueEntry(plan.alternatives[i]).value.risk) < Rank(risk)
  {
    var lower := false;
    for i := 0 to |plan.alternatives|
      invariant lower <==> exists k :: 0 <= k < i && !plan.alternatives[k].Unlisted?
                                       && Rank(CatalogueEntry(plan.alternatives[k]).value.risk) < Rank(risk)
    {
      var info := CatalogueEntry(plan.alternatives[i]);
      if info.Some? && Rank(info.value.risk) < Rank(risk) { lower := true; }
    }
    c := Check(Alternative, lower, false);
  }

  ghost predicate NoBlocker(checks: seq<Check>) {
    forall i :: 0 <= i < |checks| ==> checks[i].ok || !checks[i].blocking
  }

  ghost predicate AllPermitted(plan: RemediationPlan, n: nat, ctx: PolicyContext)
    requires n <= |plan.actions|
  {
    forall i :: 0 <= i < n ==> Permitted(plan.actions[i], ctx)
  }

  /** The checks of one action; it is permitted exactly when none of them blocks. */
  method ActionChecks(plan: RemediationPlan, a: Action, info: ActionInfo, ctx: PolicyContext) returns (checks: seq<Check>)
    requires CatalogueEntry(a.kind) == Some(info)
    ensures NoBlocker(checks) <==> Permitted(a, ctx)
  {
    var scope := ScopeCheck(a.deployment, ctx);
    var host := ProblemHostCheck(a.deployment, ctx);
    var evidence := EvidenceCheck(a, info.evidenceTools, ctx);
    checks := [Check(Catalogue, info.risk != R4, true), scope, host, evidence, Check(RollbackPlan, info.undoable, true)];
    assert checks[1] == scope && checks[2] == host && checks[3] == evidence;
    assert NoBlocker(checks) <==> scope.ok && host.ok && evidence.ok;
    if info.risk == R3 {
      var alternative := AlternativeCheck(plan, info.risk);
      NoBlockerOfSum(checks, [alternative]);
      checks := checks + [alternative];
    }
  }

  lemma NoBlockerOfSum(a: seq<Check>, b: seq<Check>)
    ensures NoBlocker(a + b) <==> NoBlocker(a) && NoBlocker(b)
  {
    if NoBlocker(a + b) {
      assert forall i :: 0 <= i < |a| ==> (a + b)[i] == a[i];
      assert forall i :: 0 <= i < |b| ==> (a + b)[|a| + i] == b[i];
    }
  }

  /** Comparing the highest risk with the automatic limit compares every action's. */
  lemma JudgeByHighestRisk(plan: RemediationPlan, ctx: PolicyContext, top: nat)
    requires Acceptable(plan, ctx) && top < |plan.actions| && !plan.actions[top].kind.Unlisted?
    requires forall k :: 0 <= k < |plan.actions| && !plan.actions[k].kind.Unlisted? ==>
               Rank(RiskOf(plan.actions[k])) <= Rank(RiskOf(plan.actions[top]))
    ensures forall k :: 0 <= k < |plan.actions| ==> !plan.actions[k].kind.Unlisted?
    ensures Judge(plan, ctx)
         == if Rank(RiskOf(plan.actions[top])) <= Rank(ctx.autoMaxRisk) then Allow else RequireApproval
  {
    assert forall k :: 0 <= k < |plan.actions| ==> Permitted(plan.actions[k], ctx) ==> !plan.actions[k].kind.Unlisted?;
  }

  /** The whole evaluation, failing closed on a malformed change window. */
  method Evaluate(plan: RemediationPlan, ctx: PolicyContext) returns (d: Decision)
    ensures d.verdict == Judge(plan, ctx)
    ensures d.verdict != Deny ==>
      && d.risk.Some?
      && (forall i :: 0 <= i < |plan.actions| ==> !plan.actions[i].kind.Unlisted? && Rank(RiskOf(plan.actions[i])) <= Rank(d.risk.value))
      && (exists i :: 0 <= i < |plan.actions| && !plan.actions[i].kind.Unlisted? && RiskOf(plan.actions[i]) == d.risk.value)
  {
    if plan.actions == [] { return Decision(Deny, None, [Check(HasActions, false, true)]); }
    var checks: seq<Check> := [];
    var risk: Option<Risk> := None;
    for i := 0 to |plan.actions|
      invariant NoBlocker(checks) <==> AllPermitted(plan, i, ctx)
      invariant forall k :: 0 <= k < i && !plan.actions[k].kind.Unlisted? ==>
                  risk.Some? && Rank(RiskOf(plan.actions[k])) <= Rank(risk.value)
      invariant risk.Some? ==>
                  exists k :: 0 <= k < i && !plan.actions[k].kind.Unlisted? && RiskOf(plan.actions[k]) == risk.value
    {
      var a := plan.actions[i];
      var info := CatalogueEntry(a.kind);
      var more: seq<Check> := [Check(Catalogue, false, true)];
      assert !more[0].ok && more[0].blocking;
      if info.Some? {
        more := ActionChecks(plan, a, info.value, ctx);
        if risk.None? || Rank(info.value.risk) > Rank(risk.value) { risk := Some(info.value.risk); }
        assert risk.value == RiskOf(a) || Rank(RiskOf(a)) <= Rank(risk.value);
      }
      NoBlockerOfSum(checks, more);
      checks := checks + more;
      assert AllPermitted(plan, i + 1, ctx) <==> AllPermitted(plan, i, ctx) && Permitted(a, ctx);
    }
    var start, end := Clock(ctx.windowStart), Clock(ctx.windowEnd);
    if start.None? || end.None? { return Decision(Deny, None, [Check(PolicyError, false, true)]); }
    var inside := if start.value <= end.value then start.value <= ctx.clock < end.value
                  else ctx.clock >= start.value || ctx.clock < end.value;
    var window := [Check(ChangeWindow, inside, true)];
    assert NoBlocker(window) <==> inside by { assert window[0].ok == inside; }
    NoBlockerOfSum(checks, window);
    checks := checks + window;
    var blocked := false;
    for i := 0 to |checks|
      invariant blocked <==> exists k :: 0 <= k < i && !checks[k].ok && checks[k].blocking
    {
      if !checks[i].ok && checks[i].blocking { blocked := true; }
    }
    assert blocked <==> !NoBlocker(checks);
    assert AllPermitted(plan, |plan.actions|, ctx) && inside <==> Acceptable(plan, ctx);
    if !blocked { assert Permitted(plan.actions[0], ctx); }
    if blocked || risk.None? {
      return Decision(Deny, risk, checks);
    }
    ghost var top :| 0 <= top < |plan.actions| && !plan.actions[top].kind.Unlisted? && RiskOf(plan.actions[top]) == risk.value;
    JudgeByHighestRisk(plan, ctx, top);
    var verdict := if Rank(risk.value) <= Rank(ctx.autoMaxRisk) then Allow else RequireApproval;
    d := Decision(verdict, risk, checks);
  }

  /** A plan that is not denied acts only where and why it may. */
  lemma NotDeniedMeansPermitted(plan: RemediationPlan, ctx: PolicyContext, i: nat)
    requires Judge(plan, ctx) != Deny && i < |plan.actions|
    ensures RightTarget(plan.actions[i], ctx) && Supported(plan.actions[i], ctx) && InsideWindow(ctx)
  {
    assert Permitted(plan.actions[i], ctx);
  }

  /**
   * By the catalogue every action changes something: with an automatic risk below R2 a human decides on every
   * plan that is not denied, at R2 on exactly those that undo a rollout, and above on none.
   */
  lemma HumanDecidesExactly(plan: RemediationPlan, ctx: PolicyContext)
    requires Judge(plan, ctx) != Deny
    ensures var undoes := exists i :: 0 <= i < |plan.actions| && plan.actions[i].kind.RolloutUndo?;
            Judge(plan, ctx) == RequireApproval <==>
            ctx.autoMaxRisk == R0 || ctx.autoMaxRisk == R1 || (ctx.autoMaxRisk == R2 && undoes)
  {
    assert Permitted(plan.actions[0], ctx);
    forall i | 0 <= i < |plan.actions|
      ensures Rank(RiskOf(plan.actions[i])) == if plan.actions[i].kind.RolloutUndo? then 3 else 2
    {
      assert Permitted(plan.actions[i], ctx);
    }
  }

  /** Times compare by hour and then minute, 24:00 after all others; a malformed one leaves no time inside the window. */
  lemma TimesInOrder(a: ClockText, b: ClockText, ctx: PolicyContext)
    ensures Clock(a).Some? <==> (0 <= a.hours < 24 && 0 <= a.minutes < 60) || (a.hours, a.minutes) == (24, 0)
    ensures Clock(a).Some? && Clock(b).Some? ==>
              (Clock(a).value < Clock(b).value <==> a.hours < b.hours || (a.hours == b.hours && a.minutes < b.minutes))
    ensures InsideWindow(ctx.(windowStart := a, windowEnd := b)) ==> Clock(a).Some? && Clock(b).Some?
    ensures a == ClockText(0, 0) && b == ClockText(24, 0) && 0 <= ctx.clock < LAST_MICROSECOND ==>
              InsideWindow(ctx.(windowStart := a, windowEnd := b))
  {
  }

  /** A change window and the rest of the day: a time is in exactly one of them; a window that ends where it starts is closed. */
  lemma WindowOrTheRest(ctx: PolicyContext)
    requires Clock(ctx.windowStart).Some? && Clock(ctx.windowEnd).Some?
    ensures var rest := ctx.(windowStart := ctx.windowEnd, windowEnd := ctx.windowStart);
            if Clock(ctx.windowStart) == Clock(ctx.windowEnd) then !InsideWindow(ctx)
            else InsideWindow(ctx) <==> !InsideWindow(rest)
    ensures InsideWindow(ctx.(clock := Clock(ctx.windowStart).value)) <==> Clock(ctx.windowStart) != Clock(ctx.windowEnd)
    ensures !InsideWindow(ctx.(clock := Clock(ctx.windowEnd).value))
  {
  }
}
