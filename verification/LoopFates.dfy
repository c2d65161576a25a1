/** How an agent's rounds end and why, and what it is told about an answer that is sent back. */
module LoopFates {
  import opened Domain
  import opened Transcript
  import opened AgentLoop

  /** The schema or the check has something against the answer. */
  predicate Objectionable<V>(v: Verdict<V>) { v.Malformed? || v.problems != [] }

  /** The model had no step left in which to query, and was asked to answer. */
  predicate NoStepLeft(spec: Spec, n: nat) { spec.tools != [] && n >= spec.maxSteps }

  /**
   * A round ends as the budget, the model and the check make it end: out of budget exactly if the tokens
   * recorded have reached it; failed by the model's own error; on calls, failed exactly if no step was left
   * to query; and on an answer, going on exactly if there is something against it and a rewrite is left.
   */
  ghost predicate EndsRightly<V>(spec: Spec, budget: nat, world: World<V>, n: nat, before: Run<V>, run: Run<V>, status: Status) {
    && (status == OutOfBudget <==> world.used(n) >= budget)
    && (status != OutOfBudget ==>
          match world.reply(n)
          case Broken(code) => status == LlmFailed(code)
          case Stepped(step, _) =>
            if step.final.None? then status == if NoStepLeft(spec, n) then AgentFailed else Going
            else
              var v := world.verdict(n, step.final.value, before.shown);
              && (status == Going <==> Objectionable(v) && before.rewrites < spec.maxRewrites)
              && (status == AgentFailed <==> v.Malformed? && before.rewrites == spec.maxRewrites)
              && (status == Finished <==> v.Judged? && (v.problems == [] || before.rewrites == spec.maxRewrites))
              && (status == Finished ==> run.final == Some(v.value) && run.problems == v.problems && run.dropped == v.dropped))
  }

  /** What is in the transcript after a round that goes on: the step, and what came of it. */
  ghost predicate SaysRightly<V>(spec: Spec, world: World<V>, n: nat, before: Run<V>, run: Run<V>)
    requires world.reply(n).Stepped?
  {
    var step := world.reply(n).step;
    var said := before.turns + [StepTurn(step.reasoning, Numbered(n, step.calls), step.final)];
    if step.final.Some? then
      && run.turns == said + [User(FeedbackText(world.verdict(n, step.final.value, before.shown).problems))]
      && run.rewrites == before.rewrites + 1 && run.shown == before.shown
    else
      && |said| < |run.turns| && run.turns[..|said|] == said && run.turns[|said|].Results?
      && |run.turns[|said|].results| == |Numbered(n, step.calls)|
      && run.turns[|said| + 1..] == (if n + 1 >= spec.maxSteps then [User(LAST_STEP_NOTE)] else [])
      && run.rewrites == before.rewrites
  }

  lemma RoundEnds<V>(spec: Spec, budget: nat, world: World<V>, before: Run<V>)
    requires before.rewrites <= spec.maxRewrites
    ensures var (run, status) := Advance(spec, budget, world, before);
            && EndsRightly(spec, budget, world, before.steps + 1, before, run, status)
            && run.rewrites <= spec.maxRewrites
            && (status == Going ==> world.reply(before.steps + 1).Stepped? && SaysRightly(spec, world, before.steps + 1, before, run))
  {
    hide FeedbackText, Numbered, FirstFew, ResultsOf;
    var n := before.steps + 1;
    if world.used(n) < budget && world.reply(n).Stepped? && world.reply(n).step.final.None? && !NoStepLeft(spec, n) {
      CallsAreToldOf(spec, world, before.(steps := n));
    }
  }

  lemma CallsAreToldOf<V>(spec: Spec, world: World<V>, asked: Run<V>)
    requires world.reply(asked.steps).Stepped? && world.reply(asked.steps).step.final.None? && !NoStepLeft(spec, asked.steps)
    ensures var (run, status) := Tell(spec, world, asked);
            status == Going && run.rewrites == asked.rewrites && SaysRightly(spec, world, asked.steps, asked, run)
  {
    hide FeedbackText, FirstFew;
    var n, step := asked.steps, world.reply(asked.steps).step;
    var said := asked.turns + [StepTurn(step.reasoning, Numbered(n, step.calls), step.final)];
    var results := Results(ResultsOf(spec, world, n, Numbered(n, step.calls)));
    var turns := said + [results];
    assert turns[..|said|] == said && (turns + [User(LAST_STEP_NOTE)])[..|said|] == said;
    assert turns[|said| + 1..] == [] && (turns + [User(LAST_STEP_NOTE)])[|said| + 1..] == [User(LAST_STEP_NOTE)];
  }

  lemma {:induction false} RewritesStayWithin<V>(spec: Spec, budget: nat, world: World<V>, task: string, n: nat)
    ensures After(spec, budget, world, task, n).0.rewrites <= spec.maxRewrites
    decreases n
  {
    hide Advance;
    if n > 0 {
      RewritesStayWithin(spec, budget, world, task, n - 1);
      RoundEnds(spec, budget, world, After(spec, budget, world, task, n - 1).0);
    }
  }

  /** The round a run has come to, from the run before it. */
  lemma {:induction false} EveryRound<V>(spec: Spec, budget: nat, world: World<V>, task: string, n: nat)
    requires n > 0 && After(spec, budget, world, task, n - 1).1 == Going
    ensures var before, (run, status) := After(spec, budget, world, task, n - 1).0, After(spec, budget, world, task, n);
            && run.steps == n && EndsRightly(spec, budget, world, n, before, run, status)
            && (status == Going ==> world.reply(n).Stepped? && SaysRightly(spec, world, n, before, run))
  {
    hide Advance, EndsRightly, SaysRightly;
    RunsKeepPace(spec, budget, world, task, n - 1);
    AdvanceKeepsPace(spec, budget, world, After(spec, budget, world, task, n - 1).0);
    RewritesStayWithin(spec, budget, world, task, n - 1);
    RoundEnds(spec, budget, world, After(spec, budget, world, task, n - 1).0);
  }

  /**
   * An agent that finished with problems had used all its rewrites, and so had one that failed on an answer
   * that does not fit the schema; any other failure came on calls when no step was left to query.
   */
  lemma {:induction false} NothingIsAcceptedEarly<V>(spec: Spec, budget: nat, world: World<V>, task: string, n: nat)
    ensures var (run, status) := After(spec, budget, world, task, n);
            && (status == Finished && run.problems != [] ==> run.rewrites == spec.maxRewrites)
            && (status == AgentFailed ==>
                  && world.reply(run.steps).Stepped?
                  && var final := world.reply(run.steps).step.final;
                     if final.Some? then run.rewrites == spec.maxRewrites && world.verdict(run.steps, final.value, run.shown).Malformed?
                     else NoStepLeft(spec, run.steps))
            && (status == OutOfBudget ==> world.used(run.steps) >= budget)
            && (status != OutOfBudget && run.steps > 0 ==> world.used(run.steps) < budget)
    decreases n
  {
    hide Advance, EndsRightly, SaysRightly;
    if n > 0 {
      NothingIsAcceptedEarly(spec, budget, world, task, n - 1);
      var (before, going) := After(spec, budget, world, task, n - 1);
      if going == Going {
        EveryRound(spec, budget, world, task, n);
        LastRoundKeeps(spec, budget, world, before);
        RunsKeepPace(spec, budget, world, task, n);
        EndsMeans(spec, budget, world, n, before, After(spec, budget, world, task, n).0, After(spec, budget, world, task, n).1);
      }
    }
  }

  /** A round that ends the run on an answer leaves the rewrites and what was shown as they were. */
  lemma LastRoundKeeps<V>(spec: Spec, budget: nat, world: World<V>, before: Run<V>)
    ensures var (run, status) := Advance(spec, budget, world, before);
            status == Finished || status == AgentFailed ==> run.rewrites == before.rewrites && run.shown == before.shown
  {
    hide FeedbackText, Numbered, Counted, ResultsOf;
  }

  lemma EndsMeans<V>(spec: Spec, budget: nat, world: World<V>, n: nat, before: Run<V>, run: Run<V>, status: Status)
    requires EndsRightly(spec, budget, world, n, before, run, status) && run.steps == n && n > 0
    requires status == Finished || status == AgentFailed ==> run.rewrites == before.rewrites && run.shown == before.shown
    requires status != Asking
    ensures status == Finished && run.problems != [] ==> run.rewrites == spec.maxRewrites
    ensures status == AgentFailed ==>
      && world.reply(n).Stepped?
      && var final := world.reply(n).step.final;
         if final.Some? then run.rewrites == spec.maxRewrites && world.verdict(n, final.value, run.shown).Malformed?
         else NoStepLeft(spec, n)
    ensures status == OutOfBudget <==> world.used(n) >= budget
  {
  }

  lemma AdvanceAddsTurns<V>(spec: Spec, budget: nat, world: World<V>, before: Run<V>)
    ensures before.turns <= Advance(spec, budget, world, before).0.turns
  {
    hide FeedbackText, Numbered, Counted, ResultsOf;
  }

  /** Nothing an agent was told is taken back: the transcript only grows. */
  lemma {:induction false} TranscriptOnlyGrows<V>(spec: Spec, budget: nat, world: World<V>, task: string, m: nat, n: nat)
    requires m <= n
    ensures After(spec, budget, world, task, m).0.turns <= After(spec, budget, world, task, n).0.turns
    decreases n
  {
    hide Advance;
    if m < n {
      TranscriptOnlyGrows(spec, budget, world, task, m, n - 1);
      AdvanceAddsTurns(spec, budget, world, After(spec, budget, world, task, n - 1).0);
    }
  }

  // ----- What the agent is told -----

  predicate PartAt(text: string, part: string, i: nat) { i + |part| <= |text| && text[i..i + |part|] == part }

  ghost predicate Contains(text: string, part: string) { exists i: nat :: PartAt(text, part, i) }

  lemma {:induction false} ListedNamesAll(problems: seq<string>, p: string)
    requires p in problems
    ensures Contains(Listed(problems), p)
  {
    var shorter, last := problems[..|problems| - 1], problems[|problems| - 1];
    assert shorter + [last] == problems;
    if |problems| == 1 {
      assert PartAt(Listed(problems), p, 2);
    } else if p == last {
      assert PartAt(Listed(problems), p, |Listed(shorter)| + 3);
    } else {
      ListedNamesAll(shorter, p);
      ContainsLater("", Listed(shorter), "\n- " + last, p);
      assert "" + Listed(shorter) + ("\n- " + last) == Listed(problems);
    }
  }

  lemma ContainsLater(a: string, text: string, b: string, part: string)
    requires Contains(text, part)
    ensures Contains(a + text + b, part)
  {
    var i: nat :| PartAt(text, part, i);
    assert PartAt(a + text + b, part, |a| + i);
  }

  /** The agent is told every problem of the answer it has to write again. */
  lemma FeedbackNamesEveryProblem(problems: seq<string>, p: string)
    requires p in problems
    ensures Contains(FeedbackText(problems), p)
  {
    ListedNamesAll(problems, p);
    hide Listed, Contains;
    var a := "Your final answer was not accepted:\n";
    var b := "\nFix these and give the final answer again. Items that still fail will be dropped.";
    ContainsLater(a, Listed(problems), b, p);
    assert a + Listed(problems) + b == FeedbackText(problems);
  }
}
