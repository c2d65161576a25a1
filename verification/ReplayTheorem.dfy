/** A replay gives every agent its recorded run again, whatever order the agents are run in. */
module ReplayTheorem {
  import opened Domain
  import opened Transcript
  import opened AgentLoop
  import opened Cassettes
  import opened ReplayRuns
  import Requests

  // ----- The recorded runs -----

  lemma RecordedSteps(role: Role, tools: Tools, script: seq<Round>, n: nat)
    requires Complete(role, tools, script) && n <= |script|
    ensures Recorded(role, tools, script, n).0.steps == n
    ensures n == |script| || Recorded(role, tools, script, n + 1)
                             == Tell(role.spec, RecordedWorld(role, tools, script), Recorded(role, tools, script, n).0.(steps := n + 1))
  {
    hide Tell, RecordedWorld;
    var world := RecordedWorld(role, tools, script);
    NothingUsed(role, tools, script);
    if n < |script| {
      RunsKeepPace(role.spec, 1, world, role.task, n);
    } else if n > 0 {
      RunsKeepPace(role.spec, 1, world, role.task, n - 1);
      TellKeepsSteps(role.spec, world, Recorded(role, tools, script, n - 1).0.(steps := n));
    }
  }

  lemma NothingUsed(role: Role, tools: Tools, script: seq<Round>)
    ensures forall n: nat :: RecordedWorld(role, tools, script).used(n) == 0
  {
  }

  lemma TellKeepsSteps<V>(spec: Spec, world: World<V>, run: AgentLoop.Run<V>)
    ensures Tell(spec, world, run).0.steps == run.steps
  {
    hide Numbered, ResultsOf, FeedbackText;
  }

  /** Each round's request shows a longer transcript than the one before. */
  lemma {:induction false} TranscriptsGrow(role: Role, tools: Tools, script: seq<Round>, j: nat, k: nat)
    requires Complete(role, tools, script) && j < k < |script|
    ensures |Recorded(role, tools, script, j).0.turns| < |Recorded(role, tools, script, k).0.turns|
    decreases k
  {
    hide Tell, After, RecordedWorld;
    if j < k - 1 { TranscriptsGrow(role, tools, script, j, k - 1); }
    RecordedSteps(role, tools, script, k - 1);
    Requests.RoundAddsExchange(role.spec, RecordedWorld(role, tools, script), Recorded(role, tools, script, k - 1).0.(steps := k));
  }

  /** The replay backend finds the recorded step for each recorded request. */
  lemma RequestIsFound(inc: Incident, llm: seq<LlmEntry>, tool: seq<ToolEntry>, a: nat, n: nat)
    requires Recording(inc) && OnTape(inc, llm, tool) && a < |inc.roles| && n < |inc.scripts[a]|
    ensures var e := LlmEntryOf(inc.roles[a], inc.tools, inc.scripts[a], n);
            KeyOf(e) in Book(llm) && Book(llm)[KeyOf(e)] == e
  {
    hide Complete, AllReplayable, Recorded;
    var role, script := inc.roles[a], inc.scripts[a];
    var own := LlmEntries(role, inc.tools, script);
    forall j, k | 0 <= j < k < |own| ensures KeyOf(own[j]) != KeyOf(own[k]) {
      TranscriptsGrow(role, inc.tools, script, j, k);
    }
    DistinctEntriesAreFound(own, n);
    BookIsPerAgent(llm, KeyOf(own[n]));
  }

  // ----- What is left in a round -----

  ghost predicate IsQuery(role: Role, tools: Tools, call: Call, t: string, args: string) {
    Reaches(role.spec, tools, call) && call.tool == t && ArgsOf(tools, call) == args
  }

  lemma EntryOfKey(role: Role, tools: Tools, n: nat, round: Round, without: set<nat>, k: nat, t: string, args: string)
    requires k < |RunCalls(role.spec, n, round.step)| == |round.answers|
    ensures var call := RunCalls(role.spec, n, round.step)[k];
            OfKey(EntryAt(role, tools, n, round, without, k), role.spec.name, t, args)
            == if IsQuery(role, tools, call, t, args) && k !in without then [EntryOf(role, tools, call, round.answers[k])] else []
  {
    var call := RunCalls(role.spec, n, round.step)[k];
    if Reaches(role.spec, tools, call) && k !in without {
      var e := EntryOf(role, tools, call, round.answers[k]);
      assert OfKey([e][..0], role.spec.name, t, args) == [];
    }
  }

  lemma OfNothing(agent: string, tool: string, args: string)
    ensures OfKey([], agent, tool, args) == []
  {
  }

  /** Only call k of the round has its key, so its entry is the next one waiting until it is taken. */
  lemma {:induction false} OneEntryPerKey(role: Role, tools: Tools, n: nat, round: Round, without: set<nat>, j: nat, k: nat, t: string, args: string)
    requires var calls := RunCalls(role.spec, n, round.step);
             j <= |calls| == |round.answers| && k < |calls| && k !in without && Replayable(role, tools, n, round)
    ensures var call := RunCalls(role.spec, n, round.step)[k];
            var before := OfKey(RoundEntries(role, tools, n, round, without, j), role.spec.name, t, args);
            var after := OfKey(RoundEntries(role, tools, n, round, without + {k}, j), role.spec.name, t, args);
            if !IsQuery(role, tools, call, t, args) then before == after
            else after == [] && before == if k < j then [EntryOf(role, tools, call, round.answers[k])] else []
    decreases j
  {
    hide RunCalls, OfKey, EntryAt;
    OfNothing(role.spec.name, t, args);
    if j > 0 {
      var i, calls := j - 1, RunCalls(role.spec, n, round.step);
      OneEntryPerKey(role, tools, n, round, without, i, k, t, args);
      EntryOfKey(role, tools, n, round, without, i, t, args);
      EntryOfKey(role, tools, n, round, without + {k}, i, t, args);
      OfKeyOfConcat(RoundEntries(role, tools, n, round, without, i), EntryAt(role, tools, n, round, without, i), role.spec.name, t, args);
      OfKeyOfConcat(RoundEntries(role, tools, n, round, without + {k}, i), EntryAt(role, tools, n, round, without + {k}, i), role.spec.name, t, args);
      if i < k { assert !SameQuery(role.spec, tools, calls[i], calls[k]); }
      if k < i { assert !SameQuery(role.spec, tools, calls[k], calls[i]); }
    }
  }

  lemma {:induction false} NothingLeft(role: Role, tools: Tools, n: nat, round: Round, without: set<nat>, j: nat)
    requires j <= |RunCalls(role.spec, n, round.step)| == |round.answers|
    requires forall k :: 0 <= k < j ==> k in without
    ensures RoundEntries(role, tools, n, round, without, j) == []
    decreases j
  {
    if j > 0 { NothingLeft(role, tools, n, round, without, j - 1); }
  }

  // ----- One agent in the replay -----

  predicate IsRecordedOutcome(role: Role, tools: Tools, n: nat, round: Round, k: nat, o: Outcome) {
    && k < |RunCalls(role.spec, n, round.step)| && k < |round.answers|
    && o == CallOutcome(role.spec, tools, RunCalls(role.spec, n, round.step)[k], round.answers[k])
  }

  /** The player is where the recorded agent was: between rounds, or in one, with recorded outcomes. */
  ghost predicate InStep(role: Role, tools: Tools, script: seq<Round>, p: Player)
    requires Complete(role, tools, script)
  {
    match p.doing
    case None => p.run.steps <= |script| && (p.run, p.status) == Recorded(role, tools, script, p.run.steps)
    case Some(d) =>
      && p.status == Asking
      && 1 <= p.run.steps <= |script|
      && p.run == Recorded(role, tools, script, p.run.steps - 1).0.(steps := p.run.steps)
      && d.step == script[p.run.steps - 1].step && d.tokens == script[p.run.steps - 1].tokens
      && (forall k :: k in d.got ==> IsRecordedOutcome(role, tools, p.run.steps, script[p.run.steps - 1], k, d.got[k]))
  }

  /** The entries of round n left after the calls in `without`, and those of all later rounds. */
  ghost function RemainingWithout(role: Role, tools: Tools, script: seq<Round>, n: nat, without: set<nat>): seq<ToolEntry>
    requires Complete(role, tools, script) && 1 <= n <= |script|
  {
    LeftIn(role, tools, n, script[n - 1], without) + EntriesFrom(role, tools, script, n)
  }

  /** What the agent has still to take from the tool cassette. */
  ghost function Remaining(role: Role, tools: Tools, script: seq<Round>, p: Player): seq<ToolEntry>
    requires Complete(role, tools, script) && InStep(role, tools, script, p)
  {
    match p.doing
    case None => EntriesFrom(role, tools, script, p.run.steps)
    case Some(d) =>
      RemainingWithout(role, tools, script, p.run.steps, d.got.Keys)
  }

  ghost predicate QueuesHold(role: Role, tools: Tools, script: seq<Round>, p: Player, q: Queues)
    requires Complete(role, tools, script) && InStep(role, tools, script, p)
  {
    forall t, args :: WaitingFor(q, ByAgent(role.spec.name, t, args)) == OfKey(Remaining(role, tools, script, p), role.spec.name, t, args)
  }

  lemma AskStaysInStep(role: Role, tools: Tools, script: seq<Round>, budget: nat, book: map<LlmKey, LlmEntry>, used: nat, p: Player, q: Queues)
    requires Complete(role, tools, script) && InStep(role, tools, script, p) && QueuesHold(role, tools, script, p, q)
    requires p.status == Going && p.doing.None? && used < budget && p.run.steps < |script|
    requires var e := LlmEntryOf(role, tools, script, p.run.steps); KeyOf(e) in book && book[KeyOf(e)] == e
    ensures var p' := PlayAsk(role, budget, book, used, p);
            && InStep(role, tools, script, p') && QueuesHold(role, tools, script, p', q)
            && p'.doing.Some? && !p'.doing.value.counted && p'.run.steps == p.run.steps + 1
  {
    hide Recorded, RecordedWorld, Complete, LeftIn, RunCalls, WaitingFor, OfKey;
    var n := p.run.steps;
    var p' := PlayAsk(role, budget, book, used, p);
    assert Remaining(role, tools, script, p') == Remaining(role, tools, script, p) by {
      var d := p'.doing.value;
      assert d.got.Keys == {};
    }
  }

  lemma CollectStaysInStep(role: Role, tools: Tools, script: seq<Round>, p: Player, q: Queues)
    requires Complete(role, tools, script) && InStep(role, tools, script, p) && QueuesHold(role, tools, script, p, q)
    requires p.doing.Some? && AllAnswered(role, p)
    ensures var (run, status) := Tell(role.spec, PlayedWorld(role, tools, p.doing.value), p.run);
            && (run, status) == Recorded(role, tools, script, p.run.steps) && run.steps == p.run.steps
            && InStep(role, tools, script, Player(run, status, None))
            && QueuesHold(role, tools, script, Player(run, status, None), q)
  {
    hide Recorded, PlayedWorld, Tell, Complete, RunCalls, WaitingFor, OfKey, EntriesFrom, QueuesHold, InStep, AllAnswered;
    CollectIsRecorded(role, tools, script, p);
    QueuesAfterRound(role, tools, script, p, q);
    var (run, status) := Tell(role.spec, PlayedWorld(role, tools, p.doing.value), p.run);
    BetweenRounds(role, tools, script, Player(run, status, None), q);
  }

  lemma QueuesAfterRound(role: Role, tools: Tools, script: seq<Round>, p: Player, q: Queues)
    requires Complete(role, tools, script) && InStep(role, tools, script, p) && QueuesHold(role, tools, script, p, q)
    requires p.doing.Some? && AllAnswered(role, p)
    ensures p.run.steps <= |script|
    ensures forall t, args :: WaitingFor(q, ByAgent(role.spec.name, t, args)) == OfKey(EntriesFrom(role, tools, script, p.run.steps), role.spec.name, t, args)
  {
    hide Recorded, Complete, RunCalls, WaitingFor, OfKey, EntriesFrom, RemainingWithout, IsRecordedOutcome;
    RemainingWhenAllAnswered(role, tools, script, p.run.steps, p.doing.value.got.Keys);
  }

  lemma BetweenRounds(role: Role, tools: Tools, script: seq<Round>, p: Player, q: Queues)
    requires Complete(role, tools, script) && p.doing.None? && p.run.steps <= |script|
    requires (p.run, p.status) == Recorded(role, tools, script, p.run.steps)
    requires forall t, args :: WaitingFor(q, ByAgent(role.spec.name, t, args)) == OfKey(EntriesFrom(role, tools, script, p.run.steps), role.spec.name, t, args)
    ensures InStep(role, tools, script, p) && QueuesHold(role, tools, script, p, q)
  {
    hide Recorded, Complete, WaitingFor, OfKey, EntriesFrom;
  }

  lemma RemainingWhenAllAnswered(role: Role, tools: Tools, script: seq<Round>, n: nat, got: set<nat>)
    requires Complete(role, tools, script) && 1 <= n <= |script|
    requires forall k :: 0 <= k < |RunCalls(role.spec, n, script[n - 1].step)| ==> k in got
    ensures RemainingWithout(role, tools, script, n, got) == EntriesFrom(role, tools, script, n)
  {
    hide Recorded, RunCalls, EntriesFrom;
    assert |script[n - 1].answers| == |RunCalls(role.spec, n - 1 + 1, script[n - 1].step)|;
    NothingLeft(role, tools, n, script[n - 1], got, |RunCalls(role.spec, n, script[n - 1].step)|);
    assert [] + EntriesFrom(role, tools, script, n) == EntriesFrom(role, tools, script, n);
  }

  lemma CollectIsRecorded(role: Role, tools: Tools, script: seq<Round>, p: Player)
    requires Complete(role, tools, script) && InStep(role, tools, script, p)
    requires p.doing.Some? && AllAnswered(role, p)
    ensures Tell(role.spec, PlayedWorld(role, tools, p.doing.value), p.run) == Recorded(role, tools, script, p.run.steps)
    ensures Recorded(role, tools, script, p.run.steps).0.steps == p.run.steps
  {
    hide Recorded, Tell;
    var n := p.run.steps;
    RecordedSteps(role, tools, script, n - 1);
    RecordedSteps(role, tools, script, n);
    assert SameRound(role.spec, PlayedWorld(role, tools, p.doing.value), RecordedWorld(role, tools, script), n);
    TellIsLocal(role.spec, PlayedWorld(role, tools, p.doing.value), RecordedWorld(role, tools, script), p.run);
  }

  lemma FetchTakesHead(q: Queues, agent: string, tool: string, args: string)
    requires WaitingFor(q, ByAgent(agent, tool, args)) != []
    ensures var key := ByAgent(agent, tool, args);
            var (q', e) := Fetch(q, Some(agent), tool, args);
            && e == Some(WaitingFor(q, key)[0]) && WaitingFor(q', key) == WaitingFor(q, key)[1..]
            && forall other: Key :: other != key ==> WaitingFor(q', other) == WaitingFor(q, other)
  {
  }

  lemma RemainingAfterCall(role: Role, tools: Tools, script: seq<Round>, n: nat, got: set<nat>, k: nat, t: string, args: string)
    requires Complete(role, tools, script) && AllReplayable(role, tools, script) && 1 <= n <= |script|
    requires k < |RunCalls(role.spec, n, script[n - 1].step)| && k !in got
    ensures var call := RunCalls(role.spec, n, script[n - 1].step)[k];
            var before := OfKey(RemainingWithout(role, tools, script, n, got), role.spec.name, t, args);
            var after := OfKey(RemainingWithout(role, tools, script, n, got + {k}), role.spec.name, t, args);
            before == (if IsQuery(role, tools, call, t, args) then [EntryOf(role, tools, call, script[n - 1].answers[k])] else []) + after
  {
    hide Recorded, RunCalls, EntriesFrom, OfKey, RoundEntries;
    var name, round := role.spec.name, script[n - 1];
    var calls, rest := RunCalls(role.spec, n, round.step), EntriesFrom(role, tools, script, n);
    assert Replayable(role, tools, n - 1 + 1, round);
    OneEntryPerKey(role, tools, n, round, got, |calls|, k, t, args);
    OfKeyOfConcat(LeftIn(role, tools, n, round, got), rest, name, t, args);
    OfKeyOfConcat(LeftIn(role, tools, n, round, got + {k}), rest, name, t, args);
  }

  /** Answering call k gives its recorded outcome. */
  lemma CallGivesRecorded(role: Role, tools: Tools, script: seq<Round>, q: Queues, n: nat, got: set<nat>, k: nat)
    requires Complete(role, tools, script) && AllReplayable(role, tools, script) && 1 <= n <= |script|
    requires k < |RunCalls(role.spec, n, script[n - 1].step)| && k !in got
    requires forall t, args :: WaitingFor(q, ByAgent(role.spec.name, t, args)) == OfKey(RemainingWithout(role, tools, script, n, got), role.spec.name, t, args)
    ensures var (q', o) := PlayCall(role, tools, q, RunCalls(role.spec, n, script[n - 1].step)[k]);
            && IsRecordedOutcome(role, tools, n, script[n - 1], k, o)
            && (forall t, args :: WaitingFor(q', ByAgent(role.spec.name, t, args)) == OfKey(RemainingWithout(role, tools, script, n, got + {k}), role.spec.name, t, args))
            && forall other: Key :: other.ByCall? || other.agent != role.spec.name ==> WaitingFor(q', other) == WaitingFor(q, other)
  {
    hide Recorded, RunCalls, EntriesFrom, OfKey, RoundEntries, RemainingWithout;
    var name, round := role.spec.name, script[n - 1];
    var call := RunCalls(role.spec, n, round.step)[k];
    var (q', o) := PlayCall(role, tools, q, call);
    assert |round.answers| == |RunCalls(role.spec, n - 1 + 1, round.step)|;
    if Reaches(role.spec, tools, call) {
      var args := ArgsOf(tools, call);
      RemainingAfterCall(role, tools, script, n, got, k, call.tool, args);
      FetchTakesHead(q, name, call.tool, args);
      assert Replayable(role, tools, n - 1 + 1, round);
      assert Untape(Tape(round.answers[k])) == round.answers[k];
    }
    forall t, args
      ensures WaitingFor(q', ByAgent(name, t, args)) == OfKey(RemainingWithout(role, tools, script, n, got + {k}), name, t, args)
    {
      RemainingAfterCall(role, tools, script, n, got, k, t, args);
      assert WaitingFor(q, ByAgent(name, t, args)) == OfKey(RemainingWithout(role, tools, script, n, got), name, t, args);
    }
  }

  /** Answering a call takes exactly its entry, from the agent's own queue. */
  lemma CallStaysInStep(role: Role, tools: Tools, script: seq<Round>, p: Player, q: Queues, k: nat)
    requires Complete(role, tools, script) && AllReplayable(role, tools, script)
    requires InStep(role, tools, script, p) && QueuesHold(role, tools, script, p, q)
    requires p.doing.Some? && k < |RunCalls(role.spec, p.run.steps, p.doing.value.step)| && k !in p.doing.value.got
    ensures var d := p.doing.value;
            var (q', o) := PlayCall(role, tools, q, RunCalls(role.spec, p.run.steps, d.step)[k]);
            var p' := p.(doing := Some(d.(got := d.got[k := o])));
            && InStep(role, tools, script, p') && QueuesHold(role, tools, script, p', q')
            && forall other: Key :: other.ByCall? || other.agent != role.spec.name ==> WaitingFor(q', other) == WaitingFor(q, other)
  {
    hide Recorded, Complete, RunCalls, EntriesFrom, OfKey, RemainingWithout, PlayCall, IsRecordedOutcome, WaitingFor;
    var n, d := p.run.steps, p.doing.value;
    CallGivesRecorded(role, tools, script, q, n, d.got.Keys, k);
    var (q', o) := PlayCall(role, tools, q, RunCalls(role.spec, n, d.step)[k]);
    assert d.got[k := o].Keys == d.got.Keys + {k};
  }

  // ----- The incident -----

  function Tokens(script: seq<Round>, n: nat): nat
    requires n <= |script|
  {
    if n == 0 then 0 else Tokens(script, n - 1) + script[n - 1].tokens
  }

  /** The tokens of the rounds each agent has begun, over the first m agents. */
  function Spent(scripts: seq<seq<Round>>, steps: seq<nat>, m: nat): nat
    requires m <= |scripts| == |steps| && forall a :: 0 <= a < m ==> steps[a] <= |scripts[a]|
  {
    if m == 0 then 0 else Spent(scripts, steps, m - 1) + Tokens(scripts[m - 1], steps[m - 1])
  }

  function Lengths(scripts: seq<seq<Round>>): (r: seq<nat>)
    ensures |r| == |scripts| && forall a :: 0 <= a < |r| ==> r[a] == |scripts[a]|
  {
    seq(|scripts|, a requires 0 <= a < |scripts| => |scripts[a]|)
  }

  function Total(scripts: seq<seq<Round>>): nat { Spent(scripts, Lengths(scripts), |scripts|) }

  function LastTokens(script: seq<Round>): nat
    requires script != []
  {
    script[|script| - 1].tokens
  }

  /** Whoever comes last still finds the budget open before its last step. */
  ghost predicate BudgetSuffices(inc: Incident, budget: nat) {
    forall a :: 0 <= a < |inc.scripts| && inc.scripts[a] != [] ==> Total(inc.scripts) - LastTokens(inc.scripts[a]) < budget
  }

  lemma {:induction false} TokensGrow(script: seq<Round>, n: nat, m: nat)
    requires n <= m <= |script|
    ensures Tokens(script, n) <= Tokens(script, m)
    ensures n < m ==> Tokens(script, n) + script[m - 1].tokens <= Tokens(script, m)
    decreases m
  {
    if n < m { TokensGrow(script, n, m - 1); }
  }

  /** What is spent before an agent's next step leaves room for its last one. */
  lemma {:induction false} RoomForLast(scripts: seq<seq<Round>>, steps: seq<nat>, m: nat, a: nat)
    requires m <= |scripts| == |steps| && forall b :: 0 <= b < |scripts| ==> steps[b] <= |scripts[b]|
    requires a < |scripts| && steps[a] < |scripts[a]|
    ensures Spent(scripts, steps, m) + (if a < m then LastTokens(scripts[a]) else 0) <= Spent(scripts, Lengths(scripts), m)
    decreases m
  {
    if m > 0 {
      RoomForLast(scripts, steps, m - 1, a);
      TokensGrow(scripts[m - 1], steps[m - 1], |scripts[m - 1]|);
    }
  }

  lemma {:induction false} SpentAfterStep(scripts: seq<seq<Round>>, steps: seq<nat>, m: nat, a: nat, n: nat)
    requires m <= |scripts| == |steps| && a < |scripts| && n <= |scripts[a]|
    requires forall b :: 0 <= b < |scripts| ==> steps[b] <= |scripts[b]|
    ensures Spent(scripts, steps[a := n], m)
            == Spent(scripts, steps, m) + if a < m then Tokens(scripts[a], n) - Tokens(scripts[a], steps[a]) else 0
    decreases m
  {
    if m > 0 { SpentAfterStep(scripts, steps, m - 1, a, n); }
  }

  /** The rounds of the agent whose tokens are recorded: all it has begun, or all but the last. */
  function CountedRounds(p: Player): nat {
    if p.doing.Some? && !p.doing.value.counted && p.run.steps > 0 then p.run.steps - 1 else p.run.steps
  }

  function CountedOf(s: Session): (steps: seq<nat>)
    ensures |steps| == |s.players| && forall a :: 0 <= a < |steps| ==> steps[a] == CountedRounds(s.players[a])
  {
    seq(|s.players|, a requires 0 <= a < |s.players| => CountedRounds(s.players[a]))
  }

  /** Every agent is where its recording was, its answers wait for it, and the tokens used are those of the rounds counted. */
  ghost predicate InTune(inc: Incident, s: Session)
    requires Recording(inc)
  {
    && |s.players| == |inc.roles|
    && (forall a :: 0 <= a < |inc.roles| ==> AgentInTune(inc, s, a) && s.players[a].run.steps <= |inc.scripts[a]|)
    && s.used == Spent(inc.scripts, CountedOf(s), |inc.scripts|)
  }

  ghost predicate AgentInTune(inc: Incident, s: Session, a: nat)
    requires Recording(inc) && a < |inc.roles| == |s.players|
  {
    && InStep(inc.roles[a], inc.tools, inc.scripts[a], s.players[a])
    && QueuesHold(inc.roles[a], inc.tools, inc.scripts[a], s.players[a], s.queues)
  }

  // ----- Every run of the replay -----

  lemma OpeningIsInTune(inc: Incident, llm: seq<LlmEntry>, tool: seq<ToolEntry>)
    requires Recording(inc) && OnTape(inc, llm, tool)
    ensures InTune(inc, Opening(inc.roles, tool))
  {
    hide Complete, AllReplayable, WaitingFor, OfKey, EntriesFrom, Load, QueuesHold, InStep;
    var s := Opening(inc.roles, tool);
    forall a | 0 <= a < |inc.roles| ensures AgentInTune(inc, s, a) {
      var role, script := inc.roles[a], inc.scripts[a];
      forall t, args
        ensures WaitingFor(s.queues, ByAgent(role.spec.name, t, args)) == OfKey(EntriesFrom(role, inc.tools, script, 0), role.spec.name, t, args)
      {
        LoadedQueue(tool, role.spec.name, t, args);
      }
      RecordedOpening(role, inc.tools, script);
      BetweenRounds(role, inc.tools, script, s.players[a], s.queues);
    }
    NothingSpent(inc.scripts, CountedOf(s), |inc.scripts|);
  }

  lemma RecordedOpening(role: Role, tools: Tools, script: seq<Round>)
    ensures Recorded(role, tools, script, 0) == (NewRun(role.task), Going)
  {
  }

  lemma {:induction false} NothingSpent(scripts: seq<seq<Round>>, steps: seq<nat>, m: nat)
    requires m <= |scripts| == |steps| && forall a :: 0 <= a < |scripts| ==> steps[a] == 0
    ensures Spent(scripts, steps, m) == 0
    decreases m
  {
    if m > 0 { NothingSpent(scripts, steps, m - 1); }
  }

  /** Agent a moves by one event of its own; the others are where they were. */
  ghost predicate OnlyMoves(s: Session, s': Session, a: nat)
    requires a < |s.players| == |s'.players|
  {
    forall b :: 0 <= b < |s.players| && b != a ==> s'.players[b] == s.players[b]
  }

  lemma OthersStayInTune(inc: Incident, s: Session, s': Session, a: nat)
    requires Recording(inc) && InTune(inc, s) && a < |s.players| == |s'.players| && OnlyMoves(s, s', a)
    requires forall key: Key :: key.ByCall? || key.agent != inc.roles[a].spec.name ==> WaitingFor(s'.queues, key) == WaitingFor(s.queues, key)
    requires AgentInTune(inc, s', a) && s'.players[a].run.steps <= |inc.scripts[a]|
    requires s.used <= s'.used && s'.used - s.used == Tokens(inc.scripts[a], CountedRounds(s'.players[a])) - Tokens(inc.scripts[a], CountedRounds(s.players[a]))
    ensures InTune(inc, s')
  {
    hide WaitingFor, InStep, Complete, AllReplayable, Remaining;
    forall b | 0 <= b < |inc.roles| && b != a ensures AgentInTune(inc, s', b) && s'.players[b].run.steps <= |inc.scripts[b]| {
      assert AgentInTune(inc, s, b);
      assert inc.roles[b].spec.name != inc.roles[a].spec.name;
    }
    hide AgentInTune;
    SpentAfterStep(inc.scripts, CountedOf(s), |inc.scripts|, a, CountedRounds(s'.players[a]));
    assert CountedOf(s') == CountedOf(s)[a := CountedRounds(s'.players[a])];
  }

  /** The agent would ask for its next step now. */
  predicate Asks(s: Session, e: Event) {
    e.AskNext? && e.a < |s.players| && s.players[e.a].status == Going && s.players[e.a].doing.None?
  }

  lemma AskStaysInTune(inc: Incident, llm: seq<LlmEntry>, tool: seq<ToolEntry>, budget: nat, s: Session, a: nat)
    requires Recording(inc) && OnTape(inc, llm, tool) && InTune(inc, s)
    requires Asks(s, AskNext(a)) && s.used < budget
    ensures var s' := Play(inc.roles, inc.tools, budget, Book(llm), s, AskNext(a));
            InTune(inc, s') && s'.players[a].run.steps == s.players[a].run.steps + 1 && s'.players[a].doing.Some? && !s'.players[a].doing.value.counted && OnlyMoves(s, s', a)
  {
    hide Recorded, WaitingFor, AllReplayable, QueuesHold, PlayAsk, OnTape, Spent;
    var role, script, p := inc.roles[a], inc.scripts[a], s.players[a];
    assert AgentInTune(inc, s, a);
    assert p.run.steps < |script|;
    RequestIsFound(inc, llm, tool, a, p.run.steps);
    AskStaysInStep(role, inc.tools, script, budget, Book(llm), s.used, p, s.queues);
    var s' := Play(inc.roles, inc.tools, budget, Book(llm), s, AskNext(a));
    hide InStep, Complete;
    assert AgentInTune(inc, s', a);
    OthersStayInTune(inc, s, s', a);
  }

  lemma CountStaysInTune(inc: Incident, llm: seq<LlmEntry>, budget: nat, s: Session, a: nat)
    requires Recording(inc) && InTune(inc, s)
    ensures InTune(inc, Play(inc.roles, inc.tools, budget, Book(llm), s, Count(a)))
  {
    hide Recorded, WaitingFor, Spent, Complete, AllReplayable;
    if a < |s.players| {
      var role, script, p := inc.roles[a], inc.scripts[a], s.players[a];
      assert AgentInTune(inc, s, a);
      if p.doing.Some? && !p.doing.value.counted {
        var s' := Play(inc.roles, inc.tools, budget, Book(llm), s, Count(a));
        CountStaysInStep(role, inc.tools, script, p, s.queues);
        hide InStep, QueuesHold;
        assert AgentInTune(inc, s', a);
        OthersStayInTune(inc, s, s', a);
      }
    }
  }

  lemma CountStaysInStep(role: Role, tools: Tools, script: seq<Round>, p: Player, q: Queues)
    requires Complete(role, tools, script) && InStep(role, tools, script, p) && QueuesHold(role, tools, script, p, q)
    requires p.doing.Some? && !p.doing.value.counted
    ensures var p' := p.(doing := Some(p.doing.value.(counted := true)));
            && InStep(role, tools, script, p') && QueuesHold(role, tools, script, p', q)
            && p.run.steps <= |script|
            && Tokens(script, CountedRounds(p')) == Tokens(script, CountedRounds(p)) + p.doing.value.tokens
  {
    hide Recorded, WaitingFor, Complete, OfKey, RemainingWithout;
    var p' := p.(doing := Some(p.doing.value.(counted := true)));
    assert Remaining(role, tools, script, p') == Remaining(role, tools, script, p);
  }

  lemma CallStaysInTune(inc: Incident, llm: seq<LlmEntry>, budget: nat, s: Session, a: nat, k: nat)
    requires Recording(inc) && InTune(inc, s)
    ensures var s' := Play(inc.roles, inc.tools, budget, Book(llm), s, AnswerCall(a, k));
            InTune(inc, s') && s'.used == s.used
  {
    hide Recorded, WaitingFor, QueuesHold, PlayCall, Spent, InStep, Complete, AllReplayable;
    if a < |s.players| {
      var role, script, p := inc.roles[a], inc.scripts[a], s.players[a];
      assert AgentInTune(inc, s, a);
      if p.doing.Some? && p.doing.value.counted && k < |RunCalls(role.spec, p.run.steps, p.doing.value.step)| && k !in p.doing.value.got {
        CallStaysInStep(role, inc.tools, script, p, s.queues, k);
        var s' := Play(inc.roles, inc.tools, budget, Book(llm), s, AnswerCall(a, k));
        assert AgentInTune(inc, s', a);
        OthersStayInTune(inc, s, s', a);
      }
    }
  }

  lemma CollectStaysInTune(inc: Incident, llm: seq<LlmEntry>, budget: nat, s: Session, a: nat)
    requires Recording(inc) && InTune(inc, s)
    ensures var s' := Play(inc.roles, inc.tools, budget, Book(llm), s, Collect(a));
            InTune(inc, s') && s'.used == s.used
  {
    hide Recorded, WaitingFor, QueuesHold, Tell, PlayedWorld, Spent, InStep, Complete, AllReplayable;
    if a < |s.players| {
      var role, script, p := inc.roles[a], inc.scripts[a], s.players[a];
      assert AgentInTune(inc, s, a);
      if p.doing.Some? && p.doing.value.counted && AllAnswered(role, p) {
        CollectStaysInStep(role, inc.tools, script, p, s.queues);
        var s' := Play(inc.roles, inc.tools, budget, Book(llm), s, Collect(a));
        assert AgentInTune(inc, s', a);
        OthersStayInTune(inc, s, s', a);
      }
    }
  }

  lemma EventStaysInTune(inc: Incident, llm: seq<LlmEntry>, tool: seq<ToolEntry>, budget: nat, s: Session, e: Event)
    requires Recording(inc) && OnTape(inc, llm, tool) && InTune(inc, s)
    requires Asks(s, e) ==> s.used < budget
    ensures InTune(inc, Play(inc.roles, inc.tools, budget, Book(llm), s, e))
  {
    hide Recording, OnTape;
    match e
    case AskNext(a) => if Asks(s, e) { AskStaysInTune(inc, llm, tool, budget, s, a); }
    case Count(a) => CountStaysInTune(inc, llm, budget, s, a);
    case AnswerCall(a, k) => CallStaysInTune(inc, llm, budget, s, a, k);
    case Collect(a) => CollectStaysInTune(inc, llm, budget, s, a);
  }

  lemma BudgetStaysOpen(inc: Incident, budget: nat, s: Session, a: nat)
    requires Recording(inc) && InTune(inc, s) && BudgetSuffices(inc, budget) && Asks(s, AskNext(a))
    ensures s.used < budget
  {
    hide Recorded, WaitingFor, QueuesHold, AllReplayable, Spent;
    assert AgentInTune(inc, s, a);
    assert s.players[a].run.steps < |inc.scripts[a]|;
    RoomForLast(inc.scripts, CountedOf(s), |inc.scripts|, a);
  }

  lemma {:induction false} ReplayStaysInTune(inc: Incident, llm: seq<LlmEntry>, tool: seq<ToolEntry>, budget: nat, events: seq<Event>)
    requires Recording(inc) && OnTape(inc, llm, tool) && BudgetSuffices(inc, budget)
    ensures InTune(inc, Replayed(inc.roles, inc.tools, budget, llm, tool, events))
    decreases |events|
  {
    hide Recording, OnTape, InTune, BudgetSuffices, Play, Asks;
    if events == [] {
      OpeningIsInTune(inc, llm, tool);
    } else {
      var shorter, e := events[..|events| - 1], events[|events| - 1];
      ReplayStaysInTune(inc, llm, tool, budget, shorter);
      var s := Replayed(inc.roles, inc.tools, budget, llm, tool, shorter);
      if Asks(s, e) { AsksIsAskNext(s, e); BudgetStaysOpen(inc, budget, s, e.a); }
      EventStaysInTune(inc, llm, tool, budget, s, e);
    }
  }

  lemma AsksIsAskNext(s: Session, e: Event)
    ensures Asks(s, e) ==> e == AskNext(e.a)
  {
  }

  /** The transcript, the counts and the final answer are those the agent had in the recording after as many rounds. */
  ghost predicate AsRecorded(role: Role, tools: Tools, script: seq<Round>, p: Player) {
    var n := p.run.steps;
    if p.doing.Some? then 1 <= n && p.run == Recorded(role, tools, script, n - 1).0.(steps := n)
    else (p.run, p.status) == Recorded(role, tools, script, n)
  }

  /**
   * Under any interleaving of the agents, of their calls and of their rounds, every agent of the
   * replay is at some point of its recorded run: same transcript, same evidence, same answer.
   */
  lemma ReplayReproducesRecording(inc: Incident, llm: seq<LlmEntry>, tool: seq<ToolEntry>, budget: nat, events: seq<Event>, a: nat)
    requires Recording(inc) && OnTape(inc, llm, tool) && BudgetSuffices(inc, budget) && a < |inc.roles|
    ensures AsRecorded(inc.roles[a], inc.tools, inc.scripts[a], Replayed(inc.roles, inc.tools, budget, llm, tool, events).players[a])
  {
    hide Recorded, Complete, AllReplayable, QueuesHold, Replayed, OnTape, BudgetSuffices;
    ReplayStaysInTune(inc, llm, tool, budget, events);
    assert AgentInTune(inc, Replayed(inc.roles, inc.tools, budget, llm, tool, events), a);
  }

  // ----- The budget, exactly -----

  /** No order of the replay runs any agent into the budget. */
  ghost predicate NeverOut(inc: Incident, llm: seq<LlmEntry>, tool: seq<ToolEntry>, budget: nat) {
    forall events, a :: 0 <= a < |inc.roles| ==> Replayed(inc.roles, inc.tools, budget, llm, tool, events).players[a].status != OutOfBudget
  }

  lemma RecordedIsNeverOut(role: Role, tools: Tools, script: seq<Round>, n: nat)
    requires Complete(role, tools, script) && n <= |script|
    ensures Recorded(role, tools, script, n).1 != OutOfBudget
  {
    hide Recorded, RecordedWorld, Tell, Complete;
    if n == 0 {
      RecordedOpening(role, tools, script);
    } else {
      RecordedSteps(role, tools, script, n - 1);
      TellIsNotOut(role.spec, RecordedWorld(role, tools, script), Recorded(role, tools, script, n - 1).0.(steps := n));
    }
  }

  lemma TellIsNotOut<V>(spec: Spec, world: World<V>, run: AgentLoop.Run<V>)
    ensures Tell(spec, world, run).1 != OutOfBudget
  {
  }

  lemma SufficientIsNeverOut(inc: Incident, llm: seq<LlmEntry>, tool: seq<ToolEntry>, budget: nat)
    requires Recording(inc) && OnTape(inc, llm, tool) && BudgetSuffices(inc, budget)
    ensures NeverOut(inc, llm, tool, budget)
  {
    forall events, a | 0 <= a < |inc.roles|
      ensures Replayed(inc.roles, inc.tools, budget, llm, tool, events).players[a].status != OutOfBudget
    {
      hide Recorded, Complete, AllReplayable, QueuesHold, Replayed, OnTape, BudgetSuffices;
      ReplayStaysInTune(inc, llm, tool, budget, events);
      var p := Replayed(inc.roles, inc.tools, budget, llm, tool, events).players[a];
      assert AgentInTune(inc, Replayed(inc.roles, inc.tools, budget, llm, tool, events), a);
      if p.doing.None? { RecordedIsNeverOut(inc.roles[a], inc.tools, inc.scripts[a], p.run.steps); }
    }
  }

  lemma OneMore(roles: seq<Role>, tools: Tools, budget: nat, llm: seq<LlmEntry>, tool: seq<ToolEntry>, events: seq<Event>, e: Event)
    ensures Replayed(roles, tools, budget, llm, tool, events + [e])
            == Play(roles, tools, budget, Book(llm), Replayed(roles, tools, budget, llm, tool, events), e)
  {
    assert (events + [e])[..|events|] == events;
  }

  lemma AskingFindsRoom(inc: Incident, llm: seq<LlmEntry>, tool: seq<ToolEntry>, budget: nat, events: seq<Event>, a: nat)
    requires NeverOut(inc, llm, tool, budget)
    requires Asks(Replayed(inc.roles, inc.tools, budget, llm, tool, events), AskNext(a))
    ensures Replayed(inc.roles, inc.tools, budget, llm, tool, events).used < budget
  {
    hide Replayed;
    OneMore(inc.roles, inc.tools, budget, llm, tool, events, AskNext(a));
    assert Replayed(inc.roles, inc.tools, budget, llm, tool, events + [AskNext(a)]).players[a].status != OutOfBudget;
  }

  lemma {:induction false} NeverOutStaysInTune(inc: Incident, llm: seq<LlmEntry>, tool: seq<ToolEntry>, budget: nat, events: seq<Event>)
    requires Recording(inc) && OnTape(inc, llm, tool) && NeverOut(inc, llm, tool, budget)
    ensures InTune(inc, Replayed(inc.roles, inc.tools, budget, llm, tool, events))
    decreases |events|
  {
    hide Recording, OnTape, InTune, NeverOut, Play, Asks;
    if events == [] {
      OpeningIsInTune(inc, llm, tool);
    } else {
      var shorter, e := events[..|events| - 1], events[|events| - 1];
      NeverOutStaysInTune(inc, llm, tool, budget, shorter);
      var s := Replayed(inc.roles, inc.tools, budget, llm, tool, shorter);
      if Asks(s, e) { AsksIsAskNext(s, e); AskingFindsRoom(inc, llm, tool, budget, shorter, e.a); }
      EventStaysInTune(inc, llm, tool, budget, s, e);
    }
  }

  /** The first j calls of agent a's round are answered, and no other agent has moved. */
  lemma {:induction false} DriveCalls(inc: Incident, llm: seq<LlmEntry>, tool: seq<ToolEntry>, budget: nat, events: seq<Event>, a: nat, j: nat)
    returns (more: seq<Event>)
    requires a < |inc.roles|
    requires var p := Replayed(inc.roles, inc.tools, budget, llm, tool, events).players[a];
             p.doing.Some? && p.doing.value.counted && j <= |RunCalls(inc.roles[a].spec, p.run.steps, p.doing.value.step)|
    ensures var s, s' := Replayed(inc.roles, inc.tools, budget, llm, tool, events), Replayed(inc.roles, inc.tools, budget, llm, tool, more);
            && OnlyMoves(s, s', a)
            && s'.players[a].doing.Some? && s'.players[a].doing.value.counted && s'.players[a].run == s.players[a].run
            && s'.players[a].doing.value.step == s.players[a].doing.value.step
            && forall k :: 0 <= k < j ==> k in s'.players[a].doing.value.got
    decreases j
  {
    hide Replayed, RunCalls, PlayCall;
    more := events;
    if j > 0 {
      more := DriveCalls(inc, llm, tool, budget, events, a, j - 1);
      OneMore(inc.roles, inc.tools, budget, llm, tool, more, AnswerCall(a, j - 1));
      more := more + [AnswerCall(a, j - 1)];
    }
  }

  /** Agent a can be taken through its next round alone. */
  lemma DriveRound(inc: Incident, llm: seq<LlmEntry>, tool: seq<ToolEntry>, budget: nat, events: seq<Event>, a: nat)
    returns (more: seq<Event>)
    requires Recording(inc) && OnTape(inc, llm, tool) && NeverOut(inc, llm, tool, budget)
    requires Asks(Replayed(inc.roles, inc.tools, budget, llm, tool, events), AskNext(a))
    ensures var s, s' := Replayed(inc.roles, inc.tools, budget, llm, tool, events), Replayed(inc.roles, inc.tools, budget, llm, tool, more);
            OnlyMoves(s, s', a) && s'.players[a].doing.None? && s'.players[a].run.steps == s.players[a].run.steps + 1
  {
    hide Replayed, Recording, OnTape, NeverOut, Play, InTune, RunCalls;
    var s := Replayed(inc.roles, inc.tools, budget, llm, tool, events);
    NeverOutStaysInTune(inc, llm, tool, budget, events);
    AskingFindsRoom(inc, llm, tool, budget, events, a);
    AskStaysInTune(inc, llm, tool, budget, s, a);
    OneMore(inc.roles, inc.tools, budget, llm, tool, events, AskNext(a));
    more := events + [AskNext(a), Count(a)];
    assert more == events + [AskNext(a)] + [Count(a)];
    OneMore(inc.roles, inc.tools, budget, llm, tool, events + [AskNext(a)], Count(a));
    CountMoves(inc, budget, llm, Replayed(inc.roles, inc.tools, budget, llm, tool, events + [AskNext(a)]), a);
    var s1 := Replayed(inc.roles, inc.tools, budget, llm, tool, more);
    var role, p1 := inc.roles[a], s1.players[a];
    more := DriveCalls(inc, llm, tool, budget, more, a, |RunCalls(role.spec, p1.run.steps, p1.doing.value.step)|);
    var s2 := Replayed(inc.roles, inc.tools, budget, llm, tool, more);
    OneMore(inc.roles, inc.tools, budget, llm, tool, more, Collect(a));
    CollectMoves(inc, budget, llm, s2, a);
    more := more + [Collect(a)];
  }

  lemma CountMoves(inc: Incident, budget: nat, llm: seq<LlmEntry>, s: Session, a: nat)
    requires |s.players| == |inc.roles| && a < |s.players| && s.players[a].doing.Some? && !s.players[a].doing.value.counted
    ensures var s' := Play(inc.roles, inc.tools, budget, Book(llm), s, Count(a));
            && OnlyMoves(s, s', a) && s'.players[a].run == s.players[a].run
            && s'.players[a].doing.Some? && s'.players[a].doing.value.counted
  {
  }

  lemma CollectMoves(inc: Incident, budget: nat, llm: seq<LlmEntry>, s: Session, a: nat)
    requires |s.players| == |inc.roles| && a < |s.players| && s.players[a].doing.Some? && s.players[a].doing.value.counted
    requires AllAnswered(inc.roles[a], s.players[a])
    ensures var s' := Play(inc.roles, inc.tools, budget, Book(llm), s, Collect(a));
            OnlyMoves(s, s', a) && s'.players[a].doing.None? && s'.players[a].run.steps == s.players[a].run.steps
  {
    hide Tell, AllAnswered, PlayedWorld;
    TellKeepsSteps(inc.roles[a].spec, PlayedWorld(inc.roles[a], inc.tools, s.players[a].doing.value), s.players[a].run);
  }

  /** Between rounds with rounds left, the agent asks for its next step. */
  lemma WithRoundsLeftAsks(inc: Incident, s: Session, a: nat)
    requires Recording(inc) && InTune(inc, s) && a < |inc.roles| && s.players[a].doing.None? && s.players[a].run.steps < |inc.scripts[a]|
    ensures Asks(s, AskNext(a))
  {
    hide Recorded, AllReplayable, QueuesHold, Spent;
    assert AgentInTune(inc, s, a);
  }

  /** Agent a can be taken to the end of its first n rounds alone. */
  lemma {:induction false} DriveTo(inc: Incident, llm: seq<LlmEntry>, tool: seq<ToolEntry>, budget: nat, events: seq<Event>, a: nat, n: nat)
    returns (more: seq<Event>)
    requires Recording(inc) && OnTape(inc, llm, tool) && NeverOut(inc, llm, tool, budget)
    requires a < |inc.roles| && n <= |inc.scripts[a]|
    requires var p := Replayed(inc.roles, inc.tools, budget, llm, tool, events).players[a]; p.doing.None? && p.run.steps == 0
    ensures var s, s' := Replayed(inc.roles, inc.tools, budget, llm, tool, events), Replayed(inc.roles, inc.tools, budget, llm, tool, more);
            OnlyMoves(s, s', a) && s'.players[a].doing.None? && s'.players[a].run.steps == n
    decreases n
  {
    hide Replayed, Complete, AllReplayable, OnTape, NeverOut, InTune, Asks;
    more := events;
    if n > 0 {
      more := DriveTo(inc, llm, tool, budget, events, a, n - 1);
      NeverOutStaysInTune(inc, llm, tool, budget, more);
      WithRoundsLeftAsks(inc, Replayed(inc.roles, inc.tools, budget, llm, tool, more), a);
      more := DriveRound(inc, llm, tool, budget, more, a);
    }
  }

  /** All of the first m agents but a can be run to their end before a begins. */
  lemma {:induction false} DriveOthers(inc: Incident, llm: seq<LlmEntry>, tool: seq<ToolEntry>, budget: nat, a: nat, m: nat)
    returns (more: seq<Event>)
    requires Recording(inc) && OnTape(inc, llm, tool) && NeverOut(inc, llm, tool, budget) && a < |inc.roles| && m <= |inc.roles|
    ensures var s := Replayed(inc.roles, inc.tools, budget, llm, tool, more);
            forall b :: 0 <= b < |inc.roles| ==>
              s.players[b].doing.None? && s.players[b].run.steps == if b < m && b != a then |inc.scripts[b]| else 0
    decreases m
  {
    hide Complete, AllReplayable, OnTape, NeverOut;
    if m == 0 {
      more := [];
    } else {
      more := DriveOthers(inc, llm, tool, budget, a, m - 1);
      if m - 1 != a { more := DriveTo(inc, llm, tool, budget, more, m - 1, |inc.scripts[m - 1]|); }
    }
  }

  lemma {:induction false} SpentPointwise(scripts: seq<seq<Round>>, steps: seq<nat>, m: nat, a: nat)
    requires m <= |scripts| == |steps| && a < |scripts| && scripts[a] != []
    requires forall b :: 0 <= b < |scripts| ==> steps[b] == if b == a then |scripts[a]| - 1 else |scripts[b]|
    ensures Spent(scripts, steps, m) + (if a < m then LastTokens(scripts[a]) else 0) == Spent(scripts, Lengths(scripts), m)
    decreases m
  {
    if m > 0 { SpentPointwise(scripts, steps, m - 1, a); }
  }

  lemma NeverOutIsSufficient(inc: Incident, llm: seq<LlmEntry>, tool: seq<ToolEntry>, budget: nat)
    requires Recording(inc) && OnTape(inc, llm, tool) && NeverOut(inc, llm, tool, budget)
    ensures BudgetSuffices(inc, budget)
  {
    hide Complete, AllReplayable, OnTape, NeverOut, Replayed, Asks, Spent, AgentInTune;
    forall a | 0 <= a < |inc.scripts| && inc.scripts[a] != [] ensures Total(inc.scripts) - LastTokens(inc.scripts[a]) < budget {
      var events := DriveOthers(inc, llm, tool, budget, a, |inc.roles|);
      events := DriveTo(inc, llm, tool, budget, events, a, |inc.scripts[a]| - 1);
      var s := Replayed(inc.roles, inc.tools, budget, llm, tool, events);
      NeverOutStaysInTune(inc, llm, tool, budget, events);
      WithRoundsLeftAsks(inc, s, a);
      AskingFindsRoom(inc, llm, tool, budget, events, a);
      SpentPointwise(inc.scripts, CountedOf(s), |inc.scripts|, a);
    }
  }

  /** No order of the agents exhausts the budget exactly if it suffices for the agent that comes last. */
  lemma NeverOutExactlyIfSufficient(inc: Incident, llm: seq<LlmEntry>, tool: seq<ToolEntry>, budget: nat)
    requires Recording(inc) && OnTape(inc, llm, tool)
    ensures NeverOut(inc, llm, tool, budget) <==> BudgetSuffices(inc, budget)
  {
    hide Recording, OnTape, NeverOut, BudgetSuffices;
    if BudgetSuffices(inc, budget) { SufficientIsNeverOut(inc, llm, tool, budget); }
    if NeverOut(inc, llm, tool, budget) { NeverOutIsSufficient(inc, llm, tool, budget); }
  }
}

/** The recording itself: whatever the interleaving, the cassettes end up as the replay needs them. */
module RecordingRuns {
  import opened Domain
  import opened Transcript
  import opened AgentLoop
  import opened Cassettes
  import opened ReplayRuns
  import opened ReplayTheorem

  /** How far an agent is: rounds done, and in a round, the calls answered so far. */
  datatype Progress = Progress(done: nat, answered: Option<set<nat>>)

  datatype Taping = Taping(agents: seq<Progress>, llm: seq<LlmEntry>, tool: seq<ToolEntry>)

  /** A step or an answer is appended to its cassette the moment it arrives. */
  ghost function Step(inc: Incident, s: Taping, e: Event): Taping
    requires Recording(inc)
  {
    if e.a >= |s.agents| || e.a >= |inc.roles| then s
    else
      var role, script, p := inc.roles[e.a], inc.scripts[e.a], s.agents[e.a];
      match e
      case AskNext(a) =>
        if p.answered.Some? || p.done >= |script| then s
        else s.(agents := s.agents[a := Progress(p.done, Some({}))], llm := s.llm + [LlmEntryOf(role, inc.tools, script, p.done)])
      case Count(_) => s    // the tokens are counted elsewhere
      case AnswerCall(a, k) =>
        if p.answered.None? || p.done >= |script| || k in p.answered.value
          || k >= |RunCalls(role.spec, p.done + 1, script[p.done].step)| then s
        else
          var call := RunCalls(role.spec, p.done + 1, script[p.done].step)[k];
          s.(agents := s.agents[a := Progress(p.done, Some(p.answered.value + {k}))],
             tool := s.tool + (if Reaches(role.spec, inc.tools, call) then [EntryOf(role, inc.tools, call, script[p.done].answers[k])] else []))
      case Collect(a) =>
        if p.answered.None? || p.done >= |script|
          || exists k :: 0 <= k < |RunCalls(role.spec, p.done + 1, script[p.done].step)| && k !in p.answered.value then s
        else s.(agents := s.agents[a := Progress(p.done + 1, None)])
  }

  ghost function Run(inc: Incident, events: seq<Event>): (s: Taping)
    requires Recording(inc)
    ensures |s.agents| == |inc.roles|
  {
    if events == [] then Taping(seq(|inc.roles|, _ => Progress(0, None)), [], [])
    else Step(inc, Run(inc, events[..|events| - 1]), events[|events| - 1])
  }

  /** What the agent has yet to leave on the tool cassette. */
  ghost function ToCome(inc: Incident, a: nat, p: Progress): seq<ToolEntry>
    requires Recording(inc) && a < |inc.roles| && p.done <= |inc.scripts[a]| && (p.answered.Some? ==> p.done < |inc.scripts[a]|)
  {
    if p.answered.None? then EntriesFrom(inc.roles[a], inc.tools, inc.scripts[a], p.done)
    else RemainingWithout(inc.roles[a], inc.tools, inc.scripts[a], p.done + 1, p.answered.value)
  }

  ghost predicate AgentTaped(inc: Incident, s: Taping, a: nat)
    requires Recording(inc) && a < |inc.roles| == |s.agents|
  {
    var role, script, p := inc.roles[a], inc.scripts[a], s.agents[a];
    && p.done <= |script| && (p.answered.Some? ==> p.done < |script|)
    && OfAgent(s.llm, role.spec.name) == LlmEntries(role, inc.tools, script)[..if p.answered.Some? then p.done + 1 else p.done]
    && forall t, args ::
         OfKey(s.tool, role.spec.name, t, args) + OfKey(ToCome(inc, a, p), role.spec.name, t, args)
         == OfKey(EntriesFrom(role, inc.tools, script, 0), role.spec.name, t, args)
  }

  ghost predicate Taped(inc: Incident, s: Taping)
    requires Recording(inc)
  {
    |s.agents| == |inc.roles| && forall a :: 0 <= a < |inc.roles| ==> AgentTaped(inc, s, a)
  }

  lemma OpeningIsTaped(inc: Incident)
    requires Recording(inc)
    ensures Taped(inc, Run(inc, []))
  {
    hide Complete, AllReplayable, EntriesFrom;
    var s := Run(inc, []);
    forall a | 0 <= a < |inc.roles| ensures AgentTaped(inc, s, a) {
      var role, script := inc.roles[a], inc.scripts[a];
      assert OfAgent([], role.spec.name) == LlmEntries(role, inc.tools, script)[..0];
      forall t, args ensures OfKey([], role.spec.name, t, args) + OfKey(ToCome(inc, a, s.agents[a]), role.spec.name, t, args)
                             == OfKey(EntriesFrom(role, inc.tools, script, 0), role.spec.name, t, args)
      {
        OfNothing(role.spec.name, t, args);
      }
    }
  }

  lemma OfAgentOfOne(entries: seq<LlmEntry>, e: LlmEntry, agent: string)
    ensures OfAgent(entries + [e], agent) == OfAgent(entries, agent) + (if e.agent == agent then [e] else [])
  {
    assert (entries + [e])[..|entries|] == entries;
  }

  lemma AskIsTaped(inc: Incident, s: Taping, a: nat, b: nat)
    requires Recording(inc) && |s.agents| == |inc.roles| && a < |inc.roles| && b < |inc.roles| && AgentTaped(inc, s, a) && AgentTaped(inc, s, b)
    ensures AgentTaped(inc, Step(inc, s, AskNext(a)), b)
  {
    hide Complete, AllReplayable, OfAgent, OfKey, EntriesFrom, LeftIn, LlmEntryOf;
    var role, script, p := inc.roles[a], inc.scripts[a], s.agents[a];
    if p.answered.None? && p.done < |script| {
      var e := LlmEntryOf(role, inc.tools, script, p.done);
      assert e.agent == role.spec.name by { EntryNamesAgent(role, inc.tools, script, p.done); }
      OfAgentOfOne(s.llm, e, inc.roles[b].spec.name);
      var all := LlmEntries(role, inc.tools, script);
      assert all[..p.done] + [all[p.done]] == all[..p.done + 1];
      assert EntriesFrom(role, inc.tools, script, p.done) == RemainingWithout(role, inc.tools, script, p.done + 1, {}) by {
        NextRoundRemains(role, inc.tools, script, p.done);
      }
    }
  }

  lemma EntryNamesAgent(role: Role, tools: Tools, script: seq<Round>, n: nat)
    requires n < |script|
    ensures LlmEntryOf(role, tools, script, n).agent == role.spec.name
  {
  }

  lemma NextRoundRemains(role: Role, tools: Tools, script: seq<Round>, n: nat)
    requires Complete(role, tools, script) && n < |script|
    ensures EntriesFrom(role, tools, script, n) == RemainingWithout(role, tools, script, n + 1, {})
  {
    hide Complete, LeftIn;
  }

  lemma CallIsTaped(inc: Incident, s: Taping, a: nat, k: nat, b: nat)
    requires Recording(inc) && |s.agents| == |inc.roles| && a < |inc.roles| && b < |inc.roles| && AgentTaped(inc, s, a) && AgentTaped(inc, s, b)
    ensures AgentTaped(inc, Step(inc, s, AnswerCall(a, k)), b)
  {
    hide Complete, OfAgent, OfKey, EntriesFrom, LeftIn, LlmEntries, RunCalls, RemainingWithout;
    var role, script, p := inc.roles[a], inc.scripts[a], s.agents[a];
    var s' := Step(inc, s, AnswerCall(a, k));
    if s' != s {
      var n := p.done + 1;
      var call := RunCalls(role.spec, n, script[p.done].step)[k];
      var other, script2, p2 := inc.roles[b], inc.scripts[b], s.agents[b];
      forall t, args
        ensures OfKey(s'.tool, other.spec.name, t, args) + OfKey(ToCome(inc, b, s'.agents[b]), other.spec.name, t, args)
                == OfKey(EntriesFrom(other, inc.tools, script2, 0), other.spec.name, t, args)
      {
        assert OfKey(s.tool, other.spec.name, t, args) + OfKey(ToCome(inc, b, p2), other.spec.name, t, args)
               == OfKey(EntriesFrom(other, inc.tools, script2, 0), other.spec.name, t, args);
        TapeAfterCall(role, inc.tools, s.tool, call, script[p.done].answers[k], other.spec.name, t, args);
        if b == a { RemainingAfterCall(role, inc.tools, script, n, p.answered.value, k, t, args); }
      }
    }
  }

  lemma TapeAfterCall(role: Role, tools: Tools, tape: seq<ToolEntry>, call: Call, answer: ToolAnswer, agent: string, t: string, args: string)
    ensures OfKey(tape + (if Reaches(role.spec, tools, call) then [EntryOf(role, tools, call, answer)] else []), agent, t, args)
            == OfKey(tape, agent, t, args)
               + if agent == role.spec.name && IsQuery(role, tools, call, t, args) then [EntryOf(role, tools, call, answer)] else []
  {
    if Reaches(role.spec, tools, call) {
      var e := EntryOf(role, tools, call, answer);
      assert (tape + [e])[..|tape|] == tape;
    } else {
      assert tape + [] == tape;
    }
  }

  lemma CollectIsTaped(inc: Incident, s: Taping, a: nat, b: nat)
    requires Recording(inc) && |s.agents| == |inc.roles| && a < |inc.roles| && b < |inc.roles| && AgentTaped(inc, s, a) && AgentTaped(inc, s, b)
    ensures AgentTaped(inc, Step(inc, s, Collect(a)), b)
  {
    hide Complete, AllReplayable, OfAgent, OfKey, EntriesFrom, LlmEntries, RunCalls, RemainingWithout;
    var role, script, p := inc.roles[a], inc.scripts[a], s.agents[a];
    if Step(inc, s, Collect(a)) != s {
      RemainingWhenAllAnswered(role, inc.tools, script, p.done + 1, p.answered.value);
    }
  }

  lemma {:induction false} RunIsTaped(inc: Incident, events: seq<Event>)
    requires Recording(inc)
    ensures Taped(inc, Run(inc, events))
    decreases |events|
  {
    hide Recording, AgentTaped, Step;
    if events == [] {
      OpeningIsTaped(inc);
    } else {
      var s, e := Run(inc, events[..|events| - 1]), events[|events| - 1];
      RunIsTaped(inc, events[..|events| - 1]);
      StepIsTaped(inc, s, e);
    }
  }

  lemma CountIsNotTaped(inc: Incident, s: Taping, a: nat)
    requires Recording(inc)
    ensures Step(inc, s, Count(a)) == s
  {
  }

  lemma StepIsTaped(inc: Incident, s: Taping, e: Event)
    requires Recording(inc) && Taped(inc, s)
    ensures Taped(inc, Step(inc, s, e))
  {
    hide Recording, AgentTaped;
    if e.a < |inc.roles| {
      forall b | 0 <= b < |inc.roles| ensures AgentTaped(inc, Step(inc, s, e), b) {
        hide Step;
        match e {
          case AskNext(a) => AskIsTaped(inc, s, a, b);
          case Count(a) => CountIsNotTaped(inc, s, a);
          case AnswerCall(a, k) => CallIsTaped(inc, s, a, k, b);
          case Collect(a) => CollectIsTaped(inc, s, a, b);
        }
      }
    }
  }

  /** Once every agent has ended, the cassettes hold what the replay needs, whatever the interleaving was. */
  lemma FinishedRecordingIsOnTape(inc: Incident, events: seq<Event>)
    requires Recording(inc)
    requires forall a :: 0 <= a < |inc.roles| ==> Run(inc, events).agents[a] == Progress(|inc.scripts[a]|, None)
    ensures OnTape(inc, Run(inc, events).llm, Run(inc, events).tool)
  {
    hide Complete, AllReplayable, OfAgent, OfKey, LlmEntries, Run;
    RunIsTaped(inc, events);
    var s := Run(inc, events);
    forall a | 0 <= a < |inc.roles|
      ensures OfAgent(s.llm, inc.roles[a].spec.name) == LlmEntries(inc.roles[a], inc.tools, inc.scripts[a])
      ensures forall t, args :: OfKey(s.tool, inc.roles[a].spec.name, t, args)
                                == OfKey(EntriesFrom(inc.roles[a], inc.tools, inc.scripts[a], 0), inc.roles[a].spec.name, t, args)
    {
      assert AgentTaped(inc, s, a);
      forall t, args ensures OfKey(ToCome(inc, a, s.agents[a]), inc.roles[a].spec.name, t, args) == [] {
        OfNothing(inc.roles[a].spec.name, t, args);
      }
      var all := LlmEntries(inc.roles[a], inc.tools, inc.scripts[a]);
      assert |all| == |inc.scripts[a]|;
      assert all[..|inc.scripts[a]|] == all;
    }
  }
}
