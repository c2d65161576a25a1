/** What a model backend answers, and the transcript turns the loop builds from it. */
module Transcript {
  import opened Domain

  datatype Call = Call(tool: string, args: string)

  datatype Answer = Answer(reasoning: string, calls: seq<Call>, final: Option<string>)

  /** The shape backends guarantee: calls or a final answer, never both, never neither. */
  predicate ShapeOk(a: Answer) { a.final.None? <==> a.calls != [] }

  type Step = a: Answer | ShapeOk(a) witness Answer("", [], Some(""))

  /** A raw answer: its calls are absent when they are not a list of tool and arguments. */
  datatype Raw = Raw(reasoning: Option<string>, calls: Option<seq<Call>>, final: Option<string>)

  /** The shape check; None is an invalid_output error. Calls win over a final answer given beside them. */
  function Normalize(raw: Raw): (r: Option<Step>)
    ensures r.Some? <==> raw.calls.Some? && (raw.calls.value != [] || raw.final.Some?)
    ensures r.Some? ==> r.value.calls == raw.calls.value
    ensures r.Some? && raw.calls.value == [] ==> r.value.final == raw.final
    ensures r.Some? && raw.reasoning.Some? ==> r.value.reasoning == raw.reasoning.value
  {
    if raw.calls.None? || (raw.final.None? && raw.calls.value == []) then None
    else
      Some(Answer(if raw.reasoning.Some? then raw.reasoning.value else "", raw.calls.value,
                  if raw.calls.value != [] then None else raw.final))
  }

  /** The id of a call: the step it was made in and its position there (written c1_1, c1_2, ...). */
  datatype ActionId = ActionId(step: nat, position: nat)

  datatype Action = Action(id: ActionId, tool: string, args: string)

  datatype Result = Result(id: ActionId, tool: string, content: string)

  datatype Turn =
    | User(text: string)
    | StepTurn(reasoning: string, actions: seq<Action>, final: Option<string>)
    | Results(results: seq<Result>)

  const MAX_ACTIONS := 3

  function FirstFew(calls: seq<Call>): (few: seq<Call>)
    ensures few <= calls && |few| <= MAX_ACTIONS && (calls != [] ==> few != [])
  {
    if |calls| <= MAX_ACTIONS then calls else calls[..MAX_ACTIONS]
  }

  /** The calls that are run, numbered from 1 within the step. */
  function Numbered(step: nat, calls: seq<Call>): (actions: seq<Action>)
    ensures |actions| == |FirstFew(calls)|
    ensures forall k :: 0 <= k < |actions| ==>
              actions[k] == Action(ActionId(step, k + 1), FirstFew(calls)[k].tool, FirstFew(calls)[k].args)
  {
    var few := FirstFew(calls);
    seq(|few|, k requires 0 <= k < |few| => Action(ActionId(step, k + 1), few[k].tool, few[k].args))
  }
}

/** The agent loop against any model, any tool results and any checker. */
module AgentLoop {
  import opened Domain
  import opened Transcript

  const LAST_STEP_NOTE := "You have no more query steps. Give your final answer now, from the results you have."

  datatype Spec = Spec(name: string, tools: seq<string>, maxSteps: nat, maxRewrites: nat)

  datatype Outcome = Outcome(ok: bool, evidence: Option<string>, content: string)

  /** What becomes of a final answer: it does not fit the schema, or the check judges it. */
  datatype Verdict<V> = Malformed(problems: seq<string>) | Judged(value: V, problems: seq<string>, dropped: nat)

  datatype Reply = Stepped(step: Step, tokens: nat) | Broken(code: string)

  datatype Status = Going | Asking | Finished | OutOfBudget | AgentFailed | LlmFailed(code: string)

  datatype Run<V> = Run(
    steps: nat, toolCalls: nat, toolErrors: nat, rewrites: nat, dropped: nat, problems: seq<string>,
    turns: seq<Turn>, shown: map<string, string>, usage: nat, final: Option<V>)

  function NewRun<V>(task: string): Run<V> { Run(0, 0, 0, 0, 0, [], [User(task)], map[], 0, None) }

  /** Everything the loop does not decide, by step number. */
  datatype World<!V> = World(
    used: nat -> nat, reply: nat -> Reply, outcome: (nat, nat) -> Outcome,
    verdict: (nat, string, map<string, string>) -> Verdict<V>)

  predicate ForceFinal(spec: Spec, steps: nat) { spec.tools != [] && steps >= spec.maxSteps }

  function UnknownTool(spec: Spec, tool: string): Outcome {
    Outcome(false, None, tool + " is not one of your data sources")
  }

  /** A tool outside the agent's role is answered with an error, not run. */
  function CallTool(spec: Spec, action: Action, outcome: Outcome): Outcome {
    if action.tool !in spec.tools then UnknownTool(spec, action.tool) else outcome
  }

  /** The run after counting the first k results. */
  function Counted<V>(spec: Spec, world: World<V>, run: Run<V>, actions: seq<Action>, k: nat): (r: Run<V>)
    requires k <= |actions|
    ensures r == run.(toolCalls := r.toolCalls, toolErrors := r.toolErrors, shown := r.shown)
    decreases k
  {
    if k == 0 then run
    else
      var r := Counted(spec, world, run, actions, k - 1);
      var o := CallTool(spec, actions[k - 1], world.outcome(run.steps, k - 1));
      if o.ok && o.evidence.Some?
      then r.(toolCalls := r.toolCalls + 1, shown := r.shown[o.evidence.value := actions[k - 1].tool])
      else r.(toolCalls := r.toolCalls + 1, toolErrors := r.toolErrors + 1)
  }

  function ResultsOf<V>(spec: Spec, world: World<V>, n: nat, actions: seq<Action>): (rs: seq<Result>)
    ensures |rs| == |actions|
    ensures forall k :: 0 <= k < |actions| ==>
              rs[k] == Result(actions[k].id, actions[k].tool, CallTool(spec, actions[k], world.outcome(n, k)).content)
  {
    seq(|actions|, k requires 0 <= k < |actions| =>
      Result(actions[k].id, actions[k].tool, CallTool(spec, actions[k], world.outcome(n, k)).content))
  }

  function Listed(problems: seq<string>): string {
    if problems == [] then ""
    else if |problems| == 1 then "- " + problems[0]
    else Listed(problems[..|problems| - 1]) + "\n- " + problems[|problems| - 1]
  }

  function FeedbackText(problems: seq<string>): string {
    "Your final answer was not accepted:\n" + Listed(problems)
      + "\nFix these and give the final answer again. Items that still fail will be dropped."
  }

  function Feedback<V>(run: Run<V>, problems: seq<string>): Run<V> {
    run.(rewrites := run.rewrites + 1, turns := run.turns + [User(FeedbackText(problems))])
  }

  /** Before a step: count it, and look at the incident's budget. */
  function Ask<V>(budget: nat, run: Run<V>, used: nat): (Run<V>, Status) {
    (run.(steps := run.steps + 1), if used >= budget then OutOfBudget else Asking)
  }

  /** A final answer is accepted, sent back, or the end of the run. */
  function Settle<V>(spec: Spec, world: World<V>, run: Run<V>, final: string): (Run<V>, Status) {
    match world.verdict(run.steps, final, run.shown)
    case Malformed(problems) =>
      if run.rewrites < spec.maxRewrites then (Feedback(run, problems), Going) else (run, AgentFailed)
    case Judged(value, problems, dropped) =>
      if problems != [] && run.rewrites < spec.maxRewrites
      then (Feedback(run.(problems := problems), problems), Going)
      else (run.(problems := problems, final := Some(value), dropped := dropped), Finished)
  }

  /** After the model has answered. */
  function Tell<V>(spec: Spec, world: World<V>, run: Run<V>): (Run<V>, Status) {
    match world.reply(run.steps)
    case Broken(code) => (run, LlmFailed(code))
    case Stepped(step, tokens) =>
      var actions := Numbered(run.steps, step.calls);
      var told := run.(usage := run.usage + tokens, turns := run.turns + [StepTurn(step.reasoning, actions, step.final)]);
      if step.final.None? then
        if ForceFinal(spec, run.steps) then (told, AgentFailed)
        else
          var counted := Counted(spec, world, told, actions, |actions|);
          var turns := counted.turns + [Results(ResultsOf(spec, world, run.steps, actions))];
          (counted.(turns := if run.steps + 1 >= spec.maxSteps then turns + [User(LAST_STEP_NOTE)] else turns), Going)
      else Settle(spec, world, told, step.final.value)
  }

  function Advance<V>(spec: Spec, budget: nat, world: World<V>, run: Run<V>): (Run<V>, Status) {
    var (asked, status) := Ask(budget, run, world.used(run.steps + 1));
    if status == OutOfBudget then (asked, OutOfBudget) else Tell(spec, world, asked)
  }

  /** The run after at most n rounds: it stops for good when a round ends it. */
  function After<V>(spec: Spec, budget: nat, world: World<V>, task: string, n: nat): (Run<V>, Status) {
    if n == 0 then (NewRun(task), Going)
    else
      var (run, status) := After(spec, budget, world, task, n - 1);
      if status != Going then (run, status) else Advance(spec, budget, world, run)
  }

  /** The most steps an agent with tools can take. */
  function StepBound(spec: Spec): nat { (if spec.maxSteps == 0 then 1 else spec.maxSteps) + spec.maxRewrites }

  /** Each step costs tokens, and what the agent itself has used is in the incident's count. */
  ghost predicate Metered<V(!new)>(spec: Spec, budget: nat, world: World<V>, task: string) {
    && (forall n: nat :: world.reply(n).Stepped? ==> world.reply(n).tokens > 0)
    && (forall n: nat :: After(spec, budget, world, task, n).0.usage <= world.used(n + 1))
  }

  /** From the step limit on, each round that goes on is a rewrite. */
  ghost predicate Paced<V>(spec: Spec, run: Run<V>) {
    run.rewrites <= spec.maxRewrites
    && (spec.tools != [] && run.steps > 0 && run.steps >= spec.maxSteps ==>
          run.rewrites >= run.steps - (if spec.maxSteps == 0 then 1 else spec.maxSteps) + 1)
  }

  lemma AdvanceKeepsPace<V>(spec: Spec, budget: nat, world: World<V>, run: Run<V>)
    requires Paced(spec, run)
    ensures var (next, status) := Advance(spec, budget, world, run);
            && next.steps == run.steps + 1
            && (status == Going ==> Paced(spec, next))
            && status != Asking
            && (spec.tools != [] ==> next.steps <= StepBound(spec))
            && (status == Going && spec.tools != [] ==> next.steps < StepBound(spec))
  {
    hide Numbered, FeedbackText, Counted, ResultsOf;
  }

  lemma {:induction false} RunsKeepPace<V>(spec: Spec, budget: nat, world: World<V>, task: string, n: nat)
    ensures var (run, status) := After(spec, budget, world, task, n);
            && status != Asking
            && run.steps <= n
            && (status == Going ==> run.steps == n && Paced(spec, run))
            && (spec.tools != [] ==> run.steps <= StepBound(spec))
  {
    if n > 0 {
      RunsKeepPace(spec, budget, world, task, n - 1);
      var (run, status) := After(spec, budget, world, task, n - 1);
      if status == Going { AdvanceKeepsPace(spec, budget, world, run); }
      hide Advance;
    }
  }

  /** Whatever the model answers, an agent with tools has ended by its step limit plus its rewrites. */
  lemma EndsWithinStepBound<V>(spec: Spec, budget: nat, world: World<V>, task: string, n: nat)
    requires spec.tools != [] && n >= StepBound(spec)
    ensures var (run, status) := After(spec, budget, world, task, n);
            status != Going && run.steps <= StepBound(spec)
  {
    RunsKeepPace(spec, budget, world, task, n);
    RunsKeepPace(spec, budget, world, task, n - 1);
    var (run, status) := After(spec, budget, world, task, n - 1);
    if status == Going { AdvanceKeepsPace(spec, budget, world, run); }
    hide Advance;
  }

  lemma TellSpendsTokens<V>(spec: Spec, world: World<V>, run: Run<V>)
    requires Tell(spec, world, run).1 == Going && (world.reply(run.steps).Stepped? ==> world.reply(run.steps).tokens > 0)
    ensures run.usage < Tell(spec, world, run).0.usage
  {
    hide Numbered, FeedbackText, Counted, ResultsOf;
  }

  lemma MeteredAt<V(!new)>(spec: Spec, budget: nat, world: World<V>, task: string, n: nat)
    requires Metered(spec, budget, world, task) && n > 0
    ensures world.reply(n).Stepped? ==> world.reply(n).tokens > 0
    ensures After(spec, budget, world, task, n - 1).0.usage <= world.used(n)
  {
    assert After(spec, budget, world, task, n - 1).0.usage <= world.used(n - 1 + 1);
  }

  /** Without tools only the budget ends a run: at the latest after one step more than it has tokens. */
  lemma {:induction false} EndsWithinBudget<V(!new)>(spec: Spec, budget: nat, world: World<V>, task: string, n: nat)
    requires Metered(spec, budget, world, task)
    ensures After(spec, budget, world, task, n).1 == Going ==>
              n <= After(spec, budget, world, task, n).0.usage && n <= budget
  {
    hide After, Advance, Tell, Metered;
    if n > 0 && After(spec, budget, world, task, n).1 == Going {
      EndsWithinBudget(spec, budget, world, task, n - 1);
      GoingRound(spec, budget, world, task, n);
      MeteredAt(spec, budget, world, task, n);
      TellSpendsTokens(spec, world, After(spec, budget, world, task, n - 1).0.(steps := n));
    }
  }

  /** A run that still goes on after round n went on before it, passed the budget check and was told what the model said. */
  lemma GoingRound<V>(spec: Spec, budget: nat, world: World<V>, task: string, n: nat)
    requires n > 0 && After(spec, budget, world, task, n).1 == Going
    ensures var (run, status) := After(spec, budget, world, task, n - 1);
            && status == Going && run.steps == n - 1 && world.used(n) < budget
            && After(spec, budget, world, task, n) == Tell(spec, world, run.(steps := n))
  {
    hide Tell;
    RunsKeepPace(spec, budget, world, task, n - 1);
  }

  /** A run as the loop updates it. */
  class AgentRun<V(!new)> {
    var steps: nat
    var toolCalls: nat
    var toolErrors: nat
    var rewrites: nat
    var dropped: nat
    var problems: seq<string>
    var turns: seq<Turn>
    var shown: map<string, string>
    var usage: nat
    var final: Option<V>

    function View(): Run<V>
      reads this
    {
      Run(steps, toolCalls, toolErrors, rewrites, dropped, problems, turns, shown, usage, final)
    }

    constructor (task: string)
      ensures View() == NewRun(task)
    {
      steps, toolCalls, toolErrors, rewrites, dropped, usage := 0, 0, 0, 0, 0, 0;
      problems, turns, shown, final := [], [User(task)], map[], None;
    }

    method AddFeedback(texts: seq<string>)
      modifies this
      ensures View() == Feedback(old(View()), texts)
    {
      hide FeedbackText;
      rewrites := rewrites + 1;
      turns := turns + [User(FeedbackText(texts))];
    }

    /** Run the actions and put their results in the transcript. */
    method Gather(spec: Spec, world: World<V>, actions: seq<Action>)
      modifies this
      ensures var counted := Counted(spec, world, old(View()), actions, |actions|);
              View() == counted.(turns := counted.turns + [Results(ResultsOf(spec, world, old(steps), actions))])
    {
      hide ResultsOf, UnknownTool;
      ghost var start := View();
      for k := 0 to |actions|
        invariant View() == Counted(spec, world, start, actions, k)
      {
        var o := CallTool(spec, actions[k], world.outcome(steps, k));
        toolCalls := toolCalls + 1;
        if o.ok && o.evidence.Some? {
          shown := shown[o.evidence.value := actions[k].tool];
        } else {
          toolErrors := toolErrors + 1;
        }
      }
      turns := turns + [Results(ResultsOf(spec, world, steps, actions))];
    }

    /** The loop. It stops, and how it stops is what the rounds one after another make of it. */
    method Loop(spec: Spec, budget: nat, world: World<V>, ghost task: string) returns (status: Status)
      requires View() == NewRun(task)
      requires spec.tools != [] || Metered(spec, budget, world, task)
      modifies this
      ensures (View(), status) == After(spec, budget, world, task, steps)
      ensures status != Going && status != Asking
      ensures spec.tools != [] ==> steps <= StepBound(spec)
      ensures spec.tools == [] ==> steps <= budget + 1
    {
      hide Feedback, Counted, Numbered, ResultsOf, Metered;
      status := Going;
      while status == Going
        invariant (View(), status) == After(spec, budget, world, task, steps)
        invariant status != Asking
        invariant spec.tools != [] ==> steps <= StepBound(spec)
        invariant spec.tools == [] ==> steps <= budget + 1
        invariant status == Going ==> (if spec.tools != [] then steps < StepBound(spec) else steps <= budget)
        decreases status == Going, (if spec.tools != [] then StepBound(spec) else budget + 1) - steps
      {
        ghost var before := View();
        status := Round(spec, budget, world);
        RoundIsAfter(spec, budget, world, task, before, View(), status);
      }
    }

    /** One round of the loop. */
    method Round(spec: Spec, budget: nat, world: World<V>) returns (status: Status)
      modifies this
      ensures (View(), status) == Advance(spec, budget, world, old(View()))
    {
      hide Settle, Counted, Numbered, ResultsOf;
      steps := steps + 1;
      if world.used(steps) >= budget { return OutOfBudget; }
      match world.reply(steps) {
        case Broken(code) => return LlmFailed(code);
        case Stepped(step, tokens) =>
          usage := usage + tokens;
          var actions := Numbered(steps, step.calls);
          turns := turns + [StepTurn(step.reasoning, actions, step.final)];
          if step.final.None? {
            if ForceFinal(spec, steps) { return AgentFailed; }
            Gather(spec, world, actions);
            if steps + 1 >= spec.maxSteps { turns := turns + [User(LAST_STEP_NOTE)]; }
            return Going;
          }
          status := Conclude(spec, world, step.final.value);
      }
    }

    method Conclude(spec: Spec, world: World<V>, answer: string) returns (status: Status)
      modifies this
      ensures (View(), status) == Settle(spec, world, old(View()), answer)
      ensures status == Finished && problems != [] ==> spec.maxRewrites <= rewrites == old(rewrites)
      ensures status == Going ==> rewrites == old(rewrites) + 1 && |turns| == |old(turns)| + 1
    {
      hide FeedbackText;
      match world.verdict(steps, answer, shown) {
        case Malformed(texts) =>
          if rewrites < spec.maxRewrites {
            AddFeedback(texts);
            return Going;
          }
          return AgentFailed;
        case Judged(value, texts, n) =>
          problems := texts;
          if texts != [] && rewrites < spec.maxRewrites {
            AddFeedback(texts);
            return Going;
          }
          final, dropped := Some(value), n;
          return Finished;
      }
    }
  }

  lemma RoundIsAfter<V(!new)>(spec: Spec, budget: nat, world: World<V>, task: string, before: Run<V>, next: Run<V>, status: Status)
    requires spec.tools != [] || Metered(spec, budget, world, task)
    requires (before, Going) == After(spec, budget, world, task, before.steps)
    requires (next, status) == Advance(spec, budget, world, before)
    ensures next.steps == before.steps + 1 && status != Asking
    ensures (next, status) == After(spec, budget, world, task, next.steps)
    ensures spec.tools != [] ==> next.steps <= StepBound(spec) && (status == Going ==> next.steps < StepBound(spec))
    ensures spec.tools == [] ==> before.steps <= budget && (status == Going ==> next.steps <= budget)
  {
    RunsKeepPace(spec, budget, world, task, before.steps);
    AdvanceKeepsPace(spec, budget, world, before);
    hide Advance;
    assert (next, status) == After(spec, budget, world, task, before.steps + 1);
    if spec.tools == [] {
      EndsWithinBudget(spec, budget, world, task, before.steps);
      EndsWithinBudget(spec, budget, world, task, next.steps);
    }
  }

  // ----- What the counts mean -----

  /** Call j came back with evidence. */
  predicate Succeeds<V>(spec: Spec, world: World<V>, n: nat, actions: seq<Action>, j: nat) {
    && j < |actions|
    && var o := CallTool(spec, actions[j], world.outcome(n, j));
       o.ok && o.evidence.Some?
  }

  function Failures<V>(spec: Spec, world: World<V>, n: nat, actions: seq<Action>, k: nat): set<nat> {
    set j: nat | 0 <= j < k && !Succeeds(spec, world, n, actions, j)
  }

  /** One of the first k calls came back with this evidence. */
  ghost predicate Brought<V>(spec: Spec, world: World<V>, n: nat, actions: seq<Action>, k: nat, id: string) {
    exists j: nat :: j < k && Succeeds(spec, world, n, actions, j) && world.outcome(n, j).evidence == Some(id)
  }

  /** Every call is counted, as an error exactly if it brought no evidence; and exactly the evidence brought is shown. */
  lemma {:induction false} CountedMeans<V>(spec: Spec, world: World<V>, run: Run<V>, actions: seq<Action>, k: nat)
    requires k <= |actions|
    ensures var r := Counted(spec, world, run, actions, k);
            && r.toolCalls == run.toolCalls + k
            && r.toolErrors == run.toolErrors + |Failures(spec, world, run.steps, actions, k)|
            && forall id :: id in r.shown <==> (id in run.shown || Brought(spec, world, run.steps, actions, k, id))
    decreases k
  {
    if k == 0 {
      assert Failures(spec, world, run.steps, actions, 0) == {};
    } else {
      CountedMeans(spec, world, run, actions, k - 1);
      var before := Failures(spec, world, run.steps, actions, k - 1);
      if Succeeds(spec, world, run.steps, actions, k - 1) {
        assert Failures(spec, world, run.steps, actions, k) == before;
      } else {
        assert Failures(spec, world, run.steps, actions, k) == before + {k - 1};
      }
    }
  }

  // ----- What a round depends on -----

  /** The two worlds give the same in the round the run is in. */
  ghost predicate SameRound<V>(spec: Spec, w1: World<V>, w2: World<V>, n: nat) {
    && w1.reply(n) == w2.reply(n)
    && (w1.reply(n).Stepped? && w1.reply(n).step.final.None? && !ForceFinal(spec, n) ==>
          forall k :: 0 <= k < |FirstFew(w1.reply(n).step.calls)| ==> w1.outcome(n, k) == w2.outcome(n, k))
    && (w1.reply(n).Stepped? && w1.reply(n).step.final.Some? ==>
          forall shown :: w1.verdict(n, w1.reply(n).step.final.value, shown) == w2.verdict(n, w1.reply(n).step.final.value, shown))
  }

  lemma {:induction false} CountedIsLocal<V>(spec: Spec, w1: World<V>, w2: World<V>, run: Run<V>, actions: seq<Action>, k: nat)
    requires k <= |actions| && forall j :: 0 <= j < |actions| ==> w1.outcome(run.steps, j) == w2.outcome(run.steps, j)
    ensures Counted(spec, w1, run, actions, k) == Counted(spec, w2, run, actions, k)
    decreases k
  {
    if k > 0 { CountedIsLocal(spec, w1, w2, run, actions, k - 1); }
  }

  lemma ResultsAreLocal<V>(spec: Spec, w1: World<V>, w2: World<V>, n: nat, actions: seq<Action>)
    requires forall j :: 0 <= j < |actions| ==> w1.outcome(n, j) == w2.outcome(n, j)
    ensures ResultsOf(spec, w1, n, actions) == ResultsOf(spec, w2, n, actions)
  {
  }

  /** A round is decided by the model's reply, the results of the calls it runs, and the verdict on its answer. */
  lemma TellIsLocal<V>(spec: Spec, w1: World<V>, w2: World<V>, run: Run<V>)
    requires SameRound(spec, w1, w2, run.steps)
    ensures Tell(spec, w1, run) == Tell(spec, w2, run)
  {
    hide Feedback, Counted, ResultsOf, Numbered, FirstFew;
    if w1.reply(run.steps).Stepped? {
      var step, tokens := w1.reply(run.steps).step, w1.reply(run.steps).tokens;
      var actions := Numbered(run.steps, step.calls);
      var told := run.(usage := run.usage + tokens, turns := run.turns + [StepTurn(step.reasoning, actions, step.final)]);
      if step.final.None? && !ForceFinal(spec, run.steps) {
        CountedIsLocal(spec, w1, w2, told, actions, |actions|);
        ResultsAreLocal(spec, w1, w2, run.steps, actions);
      }
    }
  }

  // ----- What an accepted answer went through -----

  lemma TellFinishes<V>(spec: Spec, world: World<V>, run: Run<V>)
    requires Tell(spec, world, run).1 == Finished
    ensures var r := Tell(spec, world, run).0;
            && r.final.Some? && r.steps == run.steps
            && exists answer :: world.verdict(r.steps, answer, r.shown) == Judged(r.final.value, r.problems, r.dropped)
  {
    hide FeedbackText, Counted, Numbered, ResultsOf;
    var step, tokens := world.reply(run.steps).step, world.reply(run.steps).tokens;
    var told := run.(usage := run.usage + tokens, turns := run.turns + [StepTurn(step.reasoning, Numbered(run.steps, step.calls), step.final)]);
    assert Tell(spec, world, run) == Settle(spec, world, told, step.final.value);
  }

  /** The final answer of a finished run is what its check made of the model's last answer, given what was shown. */
  lemma {:induction false} FinalIsJudged<V>(spec: Spec, budget: nat, world: World<V>, task: string, n: nat)
    requires After(spec, budget, world, task, n).1 == Finished
    ensures var r := After(spec, budget, world, task, n).0;
            r.final.Some? && exists answer :: world.verdict(r.steps, answer, r.shown) == Judged(r.final.value, r.problems, r.dropped)
    decreases n
  {
    hide Tell;
    var (run, status) := After(spec, budget, world, task, n - 1);
    if status == Going {
      TellFinishes(spec, world, run.(steps := run.steps + 1));
    } else {
      FinalIsJudged(spec, budget, world, task, n - 1);
    }
  }

  // ----- What the agent was shown -----

  /** In round r the agent called a tool of its own and got this evidence back. */
  ghost predicate Returned<V>(spec: Spec, world: World<V>, r: nat, evidence: string, tool: string) {
    exists k: nat ::
      && world.reply(r).Stepped? && k < |FirstFew(world.reply(r).step.calls)|
      && FirstFew(world.reply(r).step.calls)[k].tool == tool && tool in spec.tools
      && world.outcome(r, k).ok && world.outcome(r, k).evidence == Some(evidence)
  }

  ghost predicate OwnEvidence<V>(spec: Spec, world: World<V>, n: nat, shown: map<string, string>) {
    forall id :: id in shown ==> exists r: nat :: r <= n && Returned(spec, world, r, id, shown[id])
  }

  lemma CountingKeepsOwnEvidence<V>(spec: Spec, world: World<V>, run: Run<V>, k: nat)
    requires world.reply(run.steps).Stepped? && k <= |Numbered(run.steps, world.reply(run.steps).step.calls)|
    requires OwnEvidence(spec, world, run.steps, run.shown)
    ensures OwnEvidence(spec, world, run.steps,
                        Counted(spec, world, run, Numbered(run.steps, world.reply(run.steps).step.calls), k).shown)
    decreases k
  {
    hide FirstFew, Numbered;
    if k > 0 {
      CountingKeepsOwnEvidence(spec, world, run, k - 1);
      var actions := Numbered(run.steps, world.reply(run.steps).step.calls);
      var before, after := Counted(spec, world, run, actions, k - 1).shown, Counted(spec, world, run, actions, k).shown;
      forall id | id in after ensures exists r: nat :: r <= run.steps && Returned(spec, world, r, id, after[id]) {
        if id in before && after[id] == before[id] {
          var r: nat :| r <= run.steps && Returned(spec, world, r, id, before[id]);
        } else {
          assert world.outcome(run.steps, k - 1).evidence == Some(id);
          assert Returned(spec, world, run.steps, id, after[id]);
        }
      }
    }
  }

  lemma TellKeepsOwnEvidence<V>(spec: Spec, world: World<V>, run: Run<V>)
    requires OwnEvidence(spec, world, run.steps, run.shown)
    ensures OwnEvidence(spec, world, run.steps, Tell(spec, world, run).0.shown)
  {
    hide OwnEvidence, Counted, Numbered, ResultsOf, Settle;
    if world.reply(run.steps).Stepped? {
      var step, tokens := world.reply(run.steps).step, world.reply(run.steps).tokens;
      var actions := Numbered(run.steps, step.calls);
      var told := run.(usage := run.usage + tokens, turns := run.turns + [StepTurn(step.reasoning, actions, step.final)]);
      if step.final.Some? {
        SettleShowsNothing(spec, world, told, step.final.value);
      } else {
        CountingKeepsOwnEvidence(spec, world, told, |actions|);
      }
    }
  }

  lemma SettleShowsNothing<V>(spec: Spec, world: World<V>, run: Run<V>, final: string)
    ensures Settle(spec, world, run, final).0.shown == run.shown
  {
    hide FeedbackText;
  }

  /** Every id an agent may cite as shown came back from a successful call to one of its own tools. */
  lemma {:induction false} ShownIsOwnEvidence<V>(spec: Spec, budget: nat, world: World<V>, task: string, n: nat)
    ensures OwnEvidence(spec, world, n, After(spec, budget, world, task, n).0.shown)
    decreases n
  {
    hide Tell, OwnEvidence;
    if n == 0 {
      NothingShown(spec, world);
    } else {
      ShownIsOwnEvidence(spec, budget, world, task, n - 1);
      RunsKeepPace(spec, budget, world, task, n - 1);
      var (run, status) := After(spec, budget, world, task, n - 1);
      LaterStillOwn(spec, world, n - 1, run.shown);
      if status == Going { TellKeepsOwnEvidence(spec, world, run.(steps := n)); }
    }
  }

  lemma NothingShown<V>(spec: Spec, world: World<V>)
    ensures OwnEvidence(spec, world, 0, map[])
  {
  }

  lemma LaterStillOwn<V>(spec: Spec, world: World<V>, n: nat, shown: map<string, string>)
    requires OwnEvidence(spec, world, n, shown)
    ensures OwnEvidence(spec, world, n + 1, shown)
  {
    hide Returned;
    forall id | id in shown ensures exists r: nat :: r <= n + 1 && Returned(spec, world, r, id, shown[id]) {
      var r: nat :| r <= n && Returned(spec, world, r, id, shown[id]);
    }
  }
}

/** Several agents of one incident share its token budget; each looks at it before every step. */
module TokenBudget {
  import opened Domain
  import opened AgentLoop

  /** The tokens recorded for the incident, and where each running agent stands. */
  datatype Incident<!V> = Incident(used: nat, runs: map<nat, (Run<V>, Status)>)

  /** A run starts, reads the budget, gets its answer recorded, or is gone (finished, cancelled or crashed). */
  datatype Event<!V> =
    | Start(i: nat, task: string)
    | AskBudget(i: nat)
    | Answered(i: nat, spec: Spec, world: World<V>)
    | Gone(i: nat)

  function Tokens<V>(world: World<V>, n: nat): nat {
    if world.reply(n).Stepped? then world.reply(n).tokens else 0
  }

  /** At most k agents run at once. */
  function Step<V>(s: Incident<V>, budget: nat, k: nat, e: Event<V>): Incident<V> {
    match e
    case Start(i, task) => if i in s.runs || |s.runs| >= k then s else s.(runs := s.runs[i := (NewRun(task), Going)])
    case AskBudget(i) =>
      if i in s.runs && s.runs[i].1 == Going then s.(runs := s.runs[i := Ask(budget, s.runs[i].0, s.used)]) else s
    case Answered(i, spec, world) =>
      if i in s.runs && s.runs[i].1 == Asking
      then Incident(s.used + Tokens(world, s.runs[i].0.steps), s.runs[i := Tell(spec, world, s.runs[i].0)])
      else s
    case Gone(i) => s.(runs := s.runs - {i})
  }

  function Run<V>(budget: nat, k: nat, events: seq<Event<V>>): Incident<V> {
    if events == [] then Incident(0, map[])
    else Step(Run(budget, k, events[..|events| - 1]), budget, k, events[|events| - 1])
  }

  /** No answer costs more than m tokens. */
  ghost predicate AnswersCostAtMost<V>(events: seq<Event<V>>, m: nat) {
    forall j, n: nat :: 0 <= j < |events| && events[j].Answered? ==> Tokens(events[j].world, n) <= m
  }

  /** The agents past the budget check whose answer is not recorded yet. */
  function InFlight<V>(s: Incident<V>): set<nat> {
    set i | i in s.runs && s.runs[i].1 == Asking
  }

  ghost predicate WithinBudget<V>(s: Incident<V>, budget: nat, k: nat, m: nat) {
    && |s.runs| <= k
    && (if budget == 0 then s.used == 0 && InFlight(s) == {} else s.used + |InFlight(s)| * m <= budget - 1 + k * m)
  }

  lemma SubsetIsSmaller(a: set<nat>, b: set<nat>)
    requires a <= b
    ensures |a| <= |b|
  {
    if a != {} {
      var x :| x in a;
      SubsetIsSmaller(a - {x}, b - {x});
    }
  }

  lemma AskKeepsBudget<V>(s: Incident<V>, budget: nat, k: nat, m: nat, i: nat)
    requires WithinBudget(s, budget, k, m)
    ensures WithinBudget(Step(s, budget, k, AskBudget(i)), budget, k, m)
  {
    if i in s.runs && s.runs[i].1 == Going {
      var next := Step(s, budget, k, AskBudget(i));
      assert next.runs.Keys == s.runs.Keys;
      if s.used >= budget {
        assert InFlight(next) == InFlight(s);
      } else {
        assert InFlight(next) == InFlight(s) + {i};
        assert i !in InFlight(s);
        SubsetIsSmaller(InFlight(next), next.runs.Keys);
        TimesGrows(|InFlight(next)|, k, m);
      }
    }
  }

  lemma TimesGrows(a: nat, b: nat, m: nat)
    requires a <= b
    ensures a * m <= b * m
  {
  }

  lemma AnswerKeepsBudget<V>(s: Incident<V>, budget: nat, k: nat, m: nat, i: nat, spec: Spec, world: World<V>)
    requires WithinBudget(s, budget, k, m) && forall n: nat :: Tokens(world, n) <= m
    ensures WithinBudget(Step(s, budget, k, Answered(i, spec, world)), budget, k, m)
  {
    if i in s.runs && s.runs[i].1 == Asking {
      var next := Step(s, budget, k, Answered(i, spec, world));
      assert next.runs.Keys == s.runs.Keys;
      assert i in InFlight(s);
      TellIsNotAsking(spec, world, s.runs[i].0);
      assert InFlight(next) == InFlight(s) - {i};
      OneLess(|InFlight(s)|, m);
    }
  }

  lemma OneLess(a: nat, m: nat)
    requires a > 0
    ensures (a - 1) * m + m == a * m
  {
  }

  lemma TellIsNotAsking<V>(spec: Spec, world: World<V>, run: AgentLoop.Run<V>)
    ensures Tell(spec, world, run).1 != Asking
  {
  }

  lemma GoneKeepsBudget<V>(s: Incident<V>, budget: nat, k: nat, m: nat, i: nat)
    requires WithinBudget(s, budget, k, m)
    ensures WithinBudget(Step(s, budget, k, Gone(i)), budget, k, m)
  {
    var next := Step(s, budget, k, Gone(i));
    SubsetIsSmaller(next.runs.Keys, s.runs.Keys);
    SubsetIsSmaller(InFlight(next), InFlight(s));
    TimesGrows(|InFlight(next)|, |InFlight(s)|, m);
    assert InFlight(s) == {} ==> InFlight(next) == {};
  }

  lemma StartKeepsBudget<V>(s: Incident<V>, budget: nat, k: nat, m: nat, i: nat, task: string)
    requires WithinBudget(s, budget, k, m)
    ensures WithinBudget(Step(s, budget, k, Start(i, task)), budget, k, m)
  {
    var next := Step(s, budget, k, Start(i, task));
    assert InFlight(next) == InFlight(s);
    if next != s { assert next.runs.Keys == s.runs.Keys + {i}; }
  }

  /**
   * However the agents of an incident interleave, start over and die, the tokens recorded never
   * pass the budget by more than one answer for each agent that may run at once.
   */
  lemma {:induction false} UsageStaysNearBudget<V>(budget: nat, k: nat, m: nat, events: seq<Event<V>>)
    requires AnswersCostAtMost(events, m)
    ensures WithinBudget(Run(budget, k, events), budget, k, m)
    ensures Run(budget, k, events).used <= if budget == 0 then 0 else budget - 1 + k * m
    decreases |events|
  {
    TimesGrows(0, k, m);
    if events == [] {
      var none: Incident<V> := Incident(0, map[]);
      assert InFlight(none) == {};
    } else {
      var shorter, e := events[..|events| - 1], events[|events| - 1];
      UsageStaysNearBudget(budget, k, m, shorter);
      var s := Run(budget, k, shorter);
      match e {
        case Start(i, task) => StartKeepsBudget(s, budget, k, m, i, task);
        case AskBudget(i) => AskKeepsBudget(s, budget, k, m, i);
        case Answered(i, spec, world) => AnswerKeepsBudget(s, budget, k, m, i, spec, world);
        case Gone(i) => GoneKeepsBudget(s, budget, k, m, i);
      }
      hide Step, InFlight;
      TimesGrows(0, |InFlight(Run(budget, k, events))|, m);
    }
  }

  lemma TellCounts<V>(spec: Spec, world: World<V>, run: AgentLoop.Run<V>)
    ensures Tell(spec, world, run).0.usage == run.usage + Tokens(world, run.steps)
    ensures Tell(spec, world, run).1 != OutOfBudget
  {
    hide FeedbackText, ResultsOf;
  }

  /** The agent's own count is in the incident's, and it is only stopped by a budget that is spent. */
  ghost predicate RightlyCounted<V>(s: Incident<V>, budget: nat, i: nat) {
    i in s.runs ==> s.runs[i].0.usage <= s.used && (s.runs[i].1 == OutOfBudget ==> budget <= s.used)
  }

  lemma StepCountsRightly<V>(s: Incident<V>, budget: nat, k: nat, e: Event<V>, i: nat)
    requires RightlyCounted(s, budget, i)
    requires e.Answered? && e.i in s.runs ==> RightlyCounted(s, budget, e.i)
    ensures RightlyCounted(Step(s, budget, k, e), budget, i)
  {
    hide Tell;
    if e.Answered? && e.i in s.runs { TellCounts(e.spec, e.world, s.runs[e.i].0); }
  }

  /**
   * Whatever the agents do, what an agent has used itself is in the incident's count, and an agent is out
   * of budget only if the tokens recorded have reached the budget.
   */
  lemma {:induction false} OwnUsageIsCounted<V>(budget: nat, k: nat, events: seq<Event<V>>, i: nat)
    ensures RightlyCounted(Run(budget, k, events), budget, i)
    decreases |events|
  {
    hide Step, RightlyCounted;
    if events == [] {
      NobodyRuns<V>(budget, i);
    } else {
      var shorter, e := events[..|events| - 1], events[|events| - 1];
      OwnUsageIsCounted(budget, k, shorter, i);
      if e.Answered? { OwnUsageIsCounted(budget, k, shorter, e.i); }
      StepCountsRightly(Run(budget, k, shorter), budget, k, e, i);
    }
  }

  lemma NobodyRuns<V>(budget: nat, i: nat)
    ensures RightlyCounted<V>(Incident(0, map[]), budget, i)
  {
  }
}
