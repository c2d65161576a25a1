/** Recorded tool answers and model steps, and how they are given back. */
module Cassettes {
  import opened Domain
  import opened Transcript

  /** What a source answers: data, or an error that may be worth retrying. */
  datatype ToolAnswer = Data(raw: string) | Error(code: string, message: string, retryable: bool)

  /** What a cassette keeps of it: an error loses its retryable mark. */
  datatype Taped = TapedData(raw: string) | TapedError(code: string, message: string)

  function Tape(answer: ToolAnswer): Taped {
    match answer
    case Data(raw) => TapedData(raw)
    case Error(code, message, _) => TapedError(code, message)
  }

  function Untape(taped: Taped): ToolAnswer {
    match taped
    case TapedData(raw) => Data(raw)
    case TapedError(code, message) => Error(code, message, false)
  }

  /** An answer comes back from the cassette as it was, except that an error is no longer worth retrying. */
  lemma TapeRoundTrip(answer: ToolAnswer)
    ensures Untape(Tape(answer)) == answer <==> !(answer.Error? && answer.retryable)
  {
    match answer
    case Data(raw) =>
    case Error(code, message, retryable) =>
  }

  datatype ToolEntry = ToolEntry(agent: Option<string>, tool: string, args: string, answer: Taped)

  /** The queues' keys: the canonical JSON of the agent, tool and arguments, or of tool and arguments alone. */
  datatype Key = ByAgent(agent: string, tool: string, args: string) | ByCall(tool: string, args: string)

  /** The answers still to give, and the one given last, for each key. */
  datatype Queues = Queues(waiting: map<Key, seq<ToolEntry>>, last: map<Key, ToolEntry>)

  function WaitingFor(q: Queues, key: Key): seq<ToolEntry> {
    if key in q.waiting then q.waiting[key] else []
  }

  function Push(q: Queues, key: Key, e: ToolEntry): Queues {
    q.(waiting := q.waiting[key := WaitingFor(q, key) + [e]])
  }

  /** Every entry waits under its call, and under its agent and call if the agent is known. */
  function Load(entries: seq<ToolEntry>): Queues {
    if entries == [] then Queues(map[], map[])
    else
      var e := entries[|entries| - 1];
      var q := Push(Load(entries[..|entries| - 1]), ByCall(e.tool, e.args), e);
      if e.agent.Some? then Push(q, ByAgent(e.agent.value, e.tool, e.args), e) else q
  }

  /** The next answer waiting, or the last one again. */
  function Take(q: Queues, key: Key): (Queues, Option<ToolEntry>) {
    if WaitingFor(q, key) != [] then
      var e := WaitingFor(q, key)[0];
      (Queues(q.waiting[key := WaitingFor(q, key)[1..]], q.last[key := e]), Some(e))
    else (q, if key in q.last then Some(q.last[key]) else None)
  }

  function Fetch(q: Queues, agent: Option<string>, tool: string, args: string): (Queues, Option<ToolEntry>) {
    var (q1, e) := if agent.Some? then Take(q, ByAgent(agent.value, tool, args)) else (q, None);
    if e.Some? then (q1, e) else Take(q1, ByCall(tool, args))
  }

  /** Answers from a cassette, per agent first. */
  class ReplaySource {
    var waiting: map<Key, seq<ToolEntry>>
    var last: map<Key, ToolEntry>

    function View(): Queues
      reads this
    {
      Queues(waiting, last)
    }

    constructor (entries: seq<ToolEntry>)
      ensures View() == Load(entries)
    {
      waiting, last := map[], map[];
      new;
      for i := 0 to |entries|
        invariant View() == Load(entries[..i])
      {
        var e := entries[i];
        Enqueue(ByCall(e.tool, e.args), e);
        if e.agent.Some? { Enqueue(ByAgent(e.agent.value, e.tool, e.args), e); }
        assert entries[..i + 1][..i] == entries[..i];
      }
      assert entries[..|entries|] == entries;
    }

    method Enqueue(key: Key, e: ToolEntry)
      modifies this
      ensures View() == Push(old(View()), key, e)
    {
      waiting := waiting[key := (if key in waiting then waiting[key] else []) + [e]];
    }

    method TakeNext(key: Key) returns (e: Option<ToolEntry>)
      modifies this
      ensures (View(), e) == Take(old(View()), key)
    {
      if key in waiting && waiting[key] != [] {
        last := last[key := waiting[key][0]];
        waiting := waiting[key := waiting[key][1..]];
        return Some(last[key]);
      }
      return if key in last then Some(last[key]) else None;
    }

    /** None is the replay_miss error. */
    method FetchAnswer(agent: Option<string>, tool: string, args: string) returns (answer: Option<ToolAnswer>)
      modifies this
      ensures var (q, e) := Fetch(old(View()), agent, tool, args);
              View() == q && answer == if e.Some? then Some(Untape(e.value.answer)) else None
    {
      var e: Option<ToolEntry> := None;
      if agent.Some? { e := TakeNext(ByAgent(agent.value, tool, args)); }
      if e.None? { e := TakeNext(ByCall(tool, args)); }
      return if e.Some? then Some(Untape(e.value.answer)) else None;
    }
  }

  /** The cassette's entries under one agent and call, in order. */
  function OfKey(entries: seq<ToolEntry>, agent: string, tool: string, args: string): seq<ToolEntry> {
    if entries == [] then []
    else
      var e := entries[|entries| - 1];
      OfKey(entries[..|entries| - 1], agent, tool, args)
      + (if e.agent == Some(agent) && e.tool == tool && e.args == args then [e] else [])
  }

  lemma {:induction false} OfKeyOfConcat(x: seq<ToolEntry>, y: seq<ToolEntry>, agent: string, tool: string, args: string)
    ensures OfKey(x + y, agent, tool, args) == OfKey(x, agent, tool, args) + OfKey(y, agent, tool, args)
    decreases |y|
  {
    if y == [] {
      assert x + y == x;
    } else {
      assert (x + y)[..|x + y| - 1] == x + y[..|y| - 1];
      OfKeyOfConcat(x, y[..|y| - 1], agent, tool, args);
    }
  }

  /** Loading puts each agent's recorded answers in its own queues, in the order recorded. */
  lemma {:induction false} LoadedQueue(entries: seq<ToolEntry>, agent: string, tool: string, args: string)
    ensures WaitingFor(Load(entries), ByAgent(agent, tool, args)) == OfKey(entries, agent, tool, args)
  {
    if entries != [] { LoadedQueue(entries[..|entries| - 1], agent, tool, args); }
  }

  // ----- The model's steps -----

  /** Everything the model sees; its hash stands for it. */
  datatype Request = Request(
    model: string, system: string, turns: seq<Turn>, tools: seq<string>, schema: string, maxActions: nat, forceFinal: bool)

  datatype LlmEntry = LlmEntry(agent: string, version: string, request: Request, step: Step, tokens: nat)

  datatype LlmKey = LlmKey(agent: string, version: string, request: Request)

  function KeyOf(e: LlmEntry): LlmKey { LlmKey(e.agent, e.version, e.request) }

  /** A later answer to the same request replaces the earlier one. */
  function Book(entries: seq<LlmEntry>): map<LlmKey, LlmEntry> {
    if entries == [] then map[]
    else Book(entries[..|entries| - 1])[KeyOf(entries[|entries| - 1]) := entries[|entries| - 1]]
  }

  class ReplayBackend {
    var entries: map<LlmKey, LlmEntry>

    constructor (cassette: seq<LlmEntry>)
      ensures entries == Book(cassette)
    {
      entries := map[];
      new;
      for i := 0 to |cassette|
        invariant entries == Book(cassette[..i])
      {
        entries := entries[KeyOf(cassette[i]) := cassette[i]];
        assert cassette[..i + 1][..i] == cassette[..i];
      }
      assert cassette[..|cassette|] == cassette;
    }

    /** None is the replay_miss error. */
    method Answer(agent: string, version: string, request: Request) returns (r: Option<LlmEntry>)
      ensures var key := LlmKey(agent, version, request);
              r == if key in entries then Some(entries[key]) else None
    {
      var key := LlmKey(agent, version, request);
      return if key in entries then Some(entries[key]) else None;
    }
  }

  function OfAgent(entries: seq<LlmEntry>, agent: string): seq<LlmEntry> {
    if entries == [] then []
    else OfAgent(entries[..|entries| - 1], agent)
         + (if entries[|entries| - 1].agent == agent then [entries[|entries| - 1]] else [])
  }

  /** What an agent is answered depends only on its own entries. */
  lemma {:induction false} BookIsPerAgent(entries: seq<LlmEntry>, key: LlmKey)
    ensures var own := OfAgent(entries, key.agent);
            && (key in Book(entries) <==> key in Book(own))
            && (key in Book(own) ==> Book(entries)[key] == Book(own)[key])
  {
    if entries != [] {
      BookIsPerAgent(entries[..|entries| - 1], key);
      var e := entries[|entries| - 1];
      var own := OfAgent(entries, key.agent);
      if e.agent == key.agent {
        assert own[..|own| - 1] == OfAgent(entries[..|entries| - 1], key.agent);
      } else {
        assert own == OfAgent(entries[..|entries| - 1], key.agent);
      }
    }
  }

  /** Entries for distinct requests are all found again. */
  lemma {:induction false} DistinctEntriesAreFound(entries: seq<LlmEntry>, i: nat)
    requires i < |entries|
    requires forall j, k :: 0 <= j < k < |entries| ==> KeyOf(entries[j]) != KeyOf(entries[k])
    ensures KeyOf(entries[i]) in Book(entries) && Book(entries)[KeyOf(entries[i])] == entries[i]
    decreases |entries|
  {
    var shorter := entries[..|entries| - 1];
    if i < |shorter| {
      assert shorter[i] == entries[i];
      DistinctEntriesAreFound(shorter, i);
    }
  }
}

/** One incident's recorded agents, and their replay in any order. */
module ReplayRuns {
  import opened Domain
  import opened Transcript
  import opened AgentLoop
  import opened Cassettes

  /** An agent of the incident: its spec, and what its requests hold besides the transcript. */
  datatype Role = Role(spec: Spec, model: string, version: string, system: string, schema: string, task: string)

  /** The deterministic half of a tool call and of judging a final answer. */
  datatype Tools = Tools(
    validate: (string, string) -> Option<string>, refused: (string, string) -> Outcome,
    outcome: (string, string, ToolAnswer) -> Outcome, judge: (string, string, map<string, string>) -> Verdict<string>)

  /** A recorded round: the model's step and what the source answered to each call, in call order. */
  datatype Round = Round(step: Step, tokens: nat, answers: seq<ToolAnswer>)

  /** The calls a step gets to run. */
  function RunCalls(spec: Spec, n: nat, step: Step): (calls: seq<Call>)
    ensures calls == [] || calls == FirstFew(step.calls)
  {
    if step.final.Some? || ForceFinal(spec, n) then [] else FirstFew(step.calls)
  }

  /** A call reaches the source if the tool is the agent's and the arguments are valid. */
  predicate Reaches(spec: Spec, tools: Tools, call: Call) {
    call.tool in spec.tools && tools.validate(call.tool, call.args).Some?
  }

  function ArgsOf(tools: Tools, call: Call): string
    requires tools.validate(call.tool, call.args).Some?
  {
    tools.validate(call.tool, call.args).value
  }

  /** What comes of a call, given what the source answers if it is asked. */
  function CallOutcome(spec: Spec, tools: Tools, call: Call, answer: ToolAnswer): Outcome {
    if Reaches(spec, tools, call) then tools.outcome(call.tool, ArgsOf(tools, call), answer)
    else tools.refused(call.tool, call.args)
  }

  /** The world an agent met while it was recorded; the budget was not in its way. */
  function RecordedWorld(role: Role, tools: Tools, script: seq<Round>): World<string> {
    World((n: nat) => 0,
          (n: nat) => if 1 <= n <= |script| then Stepped(script[n - 1].step, script[n - 1].tokens) else Broken(""),
          (n: nat, k: nat) =>
            if 1 <= n <= |script| && k < |RunCalls(role.spec, n, script[n - 1].step)| && k < |script[n - 1].answers|
            then CallOutcome(role.spec, tools, RunCalls(role.spec, n, script[n - 1].step)[k], script[n - 1].answers[k])
            else Outcome(false, None, ""),
          (n: nat, final: string, shown: map<string, string>) => tools.judge(role.spec.name, final, shown))
  }

  function Recorded(role: Role, tools: Tools, script: seq<Round>, n: nat): (AgentLoop.Run<string>, Status) {
    After(role.spec, 1, RecordedWorld(role, tools, script), role.task, n)
  }

  function RequestOf(role: Role, asked: AgentLoop.Run<string>): Request {
    Request(role.model, role.system, asked.turns, role.spec.tools, role.schema, MAX_ACTIONS, ForceFinal(role.spec, asked.steps))
  }

  /** The agent went on until its last round, which ended it; each call run has its answer. */
  ghost predicate Complete(role: Role, tools: Tools, script: seq<Round>)
    ensures Complete(role, tools, script) ==> AnswersFit(role, script)
  {
    && (forall n :: 0 <= n < |script| ==> Recorded(role, tools, script, n).1 == Going)
    && Recorded(role, tools, script, |script|).1 != Going
    && AnswersFit(role, script)
  }

  ghost predicate AnswersFit(role: Role, script: seq<Round>) {
    forall n :: 0 <= n < |script| ==> |script[n].answers| == |RunCalls(role.spec, n + 1, script[n].step)|
  }

  /** Both calls reach the source, with the same tool and arguments. */
  predicate SameQuery(spec: Spec, tools: Tools, c: Call, d: Call) {
    Reaches(spec, tools, c) && Reaches(spec, tools, d) && c.tool == d.tool && ArgsOf(tools, c) == ArgsOf(tools, d)
  }

  /** No step sends the same query twice, and no recorded error was worth retrying. */
  ghost predicate Replayable(role: Role, tools: Tools, n: nat, round: Round) {
    var calls := RunCalls(role.spec, n, round.step);
    && (forall j, k :: 0 <= j < k < |calls| ==> !SameQuery(role.spec, tools, calls[j], calls[k]))
    && (forall k :: 0 <= k < |round.answers| && round.answers[k].Error? ==> !round.answers[k].retryable)
  }

  ghost predicate AllReplayable(role: Role, tools: Tools, script: seq<Round>) {
    forall n :: 0 <= n < |script| ==> Replayable(role, tools, n + 1, script[n])
  }

  // ----- What recording leaves on the cassettes -----

  function EntryOf(role: Role, tools: Tools, call: Call, answer: ToolAnswer): ToolEntry
    requires Reaches(role.spec, tools, call)
  {
    ToolEntry(Some(role.spec.name), call.tool, ArgsOf(tools, call), Tape(answer))
  }

  /** The entry call k of round n leaves, if it reaches the source and is not in `without`. */
  function EntryAt(role: Role, tools: Tools, n: nat, round: Round, without: set<nat>, k: nat): seq<ToolEntry>
    requires k < |RunCalls(role.spec, n, round.step)| == |round.answers|
  {
    var call := RunCalls(role.spec, n, round.step)[k];
    if Reaches(role.spec, tools, call) && k !in without then [EntryOf(role, tools, call, round.answers[k])] else []
  }

  /** The entries of the first j calls of round n, those in `without` left out. */
  function RoundEntries(role: Role, tools: Tools, n: nat, round: Round, without: set<nat>, j: nat): seq<ToolEntry>
    requires j <= |RunCalls(role.spec, n, round.step)| && |round.answers| == |RunCalls(role.spec, n, round.step)|
    decreases j
  {
    if j == 0 then []
    else RoundEntries(role, tools, n, round, without, j - 1) + EntryAt(role, tools, n, round, without, j - 1)
  }

  function LeftIn(role: Role, tools: Tools, n: nat, round: Round, without: set<nat>): seq<ToolEntry>
    requires |round.answers| == |RunCalls(role.spec, n, round.step)|
  {
    RoundEntries(role, tools, n, round, without, |RunCalls(role.spec, n, round.step)|)
  }

  /** The entries of the rounds after the first n. */
  ghost function EntriesFrom(role: Role, tools: Tools, script: seq<Round>, n: nat): seq<ToolEntry>
    requires n <= |script| && AnswersFit(role, script)
    decreases |script| - n
  {
    if n == |script| then []
    else LeftIn(role, tools, n + 1, script[n], {}) + EntriesFrom(role, tools, script, n + 1)
  }

  function LlmEntryOf(role: Role, tools: Tools, script: seq<Round>, n: nat): LlmEntry
    requires n < |script|
  {
    LlmEntry(role.spec.name, role.version, RequestOf(role, Recorded(role, tools, script, n).0.(steps := n + 1)),
             script[n].step, script[n].tokens)
  }

  function LlmEntries(role: Role, tools: Tools, script: seq<Round>): (entries: seq<LlmEntry>)
    ensures |entries| == |script| && forall n :: 0 <= n < |script| ==> entries[n] == LlmEntryOf(role, tools, script, n)
  {
    seq(|script|, n requires 0 <= n < |script| => LlmEntryOf(role, tools, script, n))
  }

  datatype Incident = Incident(roles: seq<Role>, tools: Tools, scripts: seq<seq<Round>>)

  ghost predicate Recording(inc: Incident) {
    && |inc.roles| == |inc.scripts|
    && (forall a, b :: 0 <= a < b < |inc.roles| ==> inc.roles[a].spec.name != inc.roles[b].spec.name)
    && (forall a :: 0 <= a < |inc.roles| ==>
          Complete(inc.roles[a], inc.tools, inc.scripts[a]) && AllReplayable(inc.roles[a], inc.tools, inc.scripts[a]))
  }

  /** The cassettes hold each agent's entries in its own order, however the agents were interleaved. */
  ghost predicate OnTape(inc: Incident, llm: seq<LlmEntry>, tool: seq<ToolEntry>)
    requires Recording(inc)
  {
    forall a :: 0 <= a < |inc.roles| ==>
      var role, script := inc.roles[a], inc.scripts[a];
      && OfAgent(llm, role.spec.name) == LlmEntries(role, inc.tools, script)
      && (forall t, args :: OfKey(tool, role.spec.name, t, args) == OfKey(EntriesFrom(role, inc.tools, script, 0), role.spec.name, t, args))
  }

  // ----- The replay -----

  /** A step taken from the cassette, whether its tokens are recorded yet, and the outcomes of its calls so far. */
  datatype Doing = Doing(step: Step, tokens: nat, counted: bool, got: map<nat, Outcome>)

  datatype Player = Player(run: AgentLoop.Run<string>, status: Status, doing: Option<Doing>)

  datatype Session = Session(players: seq<Player>, queues: Queues, used: nat)

  /** An agent asks for its next step, its tokens are recorded, one of its calls is answered, or its round is put together. */
  datatype Event = AskNext(a: nat) | Count(a: nat) | AnswerCall(a: nat, k: nat) | Collect(a: nat)

  function Opening(roles: seq<Role>, tool: seq<ToolEntry>): Session {
    Session(seq(|roles|, a requires 0 <= a < |roles| => Player(NewRun(roles[a].task), Going, None)), Load(tool), 0)
  }

  /** The world of one round in the replay. */
  function PlayedWorld(role: Role, tools: Tools, d: Doing): World<string> {
    World((n: nat) => 0, (n: nat) => Stepped(d.step, d.tokens),
          (n: nat, k: nat) => if k in d.got then d.got[k] else Outcome(false, None, ""),
          (n: nat, final: string, shown: map<string, string>) => tools.judge(role.spec.name, final, shown))
  }

  function PlayAsk(role: Role, budget: nat, book: map<LlmKey, LlmEntry>, used: nat, p: Player): Player
    requires p.doing.None?
  {
    var (asked, status) := Ask(budget, p.run, used);
    var key := LlmKey(role.spec.name, role.version, RequestOf(role, asked));
    if status == OutOfBudget then Player(asked, OutOfBudget, None)
    else if key !in book then Player(asked, LlmFailed("replay_miss"), None)
    else Player(asked, Asking, Some(Doing(book[key].step, book[key].tokens, false, map[])))
  }

  function PlayCall(role: Role, tools: Tools, q: Queues, call: Call): (Queues, Outcome) {
    if !Reaches(role.spec, tools, call) then (q, tools.refused(call.tool, call.args))
    else
      var args := ArgsOf(tools, call);
      var (q', e) := Fetch(q, Some(role.spec.name), call.tool, args);
      (q', tools.outcome(call.tool, args, if e.Some? then Untape(e.value.answer) else Error("replay_miss", "no recorded answer", false)))
  }

  predicate AllAnswered(role: Role, p: Player)
    requires p.doing.Some?
  {
    forall k :: 0 <= k < |RunCalls(role.spec, p.run.steps, p.doing.value.step)| ==> k in p.doing.value.got
  }

  function Play(roles: seq<Role>, tools: Tools, budget: nat, book: map<LlmKey, LlmEntry>, s: Session, e: Event): Session
    requires |s.players| == |roles|
    ensures |Play(roles, tools, budget, book, s, e).players| == |roles|
  {
    if e.a >= |roles| then s
    else
      var role, p := roles[e.a], s.players[e.a];
      match e
      case AskNext(a) =>
        if p.status != Going || p.doing.Some? then s
        else s.(players := s.players[a := PlayAsk(role, budget, book, s.used, p)])
      case Count(a) =>
        if p.doing.None? || p.doing.value.counted then s
        else
          s.(players := s.players[a := p.(doing := Some(p.doing.value.(counted := true)))], used := s.used + p.doing.value.tokens)
      case AnswerCall(a, k) =>
        if p.doing.None? || !p.doing.value.counted || k >= |RunCalls(role.spec, p.run.steps, p.doing.value.step)| || k in p.doing.value.got then s
        else
          var (q, o) := PlayCall(role, tools, s.queues, RunCalls(role.spec, p.run.steps, p.doing.value.step)[k]);
          s.(players := s.players[a := p.(doing := Some(p.doing.value.(got := p.doing.value.got[k := o])))], queues := q)
      case Collect(a) =>
        if p.doing.None? || !p.doing.value.counted || !AllAnswered(role, p) then s
        else
          var (run, status) := Tell(role.spec, PlayedWorld(role, tools, p.doing.value), p.run);
          s.(players := s.players[a := Player(run, status, None)])
  }

  function Replayed(roles: seq<Role>, tools: Tools, budget: nat, llm: seq<LlmEntry>, tool: seq<ToolEntry>, events: seq<Event>): (s: Session)
    ensures |s.players| == |roles|
  {
    if events == [] then Opening(roles, tool)
    else Play(roles, tools, budget, Book(llm), Replayed(roles, tools, budget, llm, tool, events[..|events| - 1]), events[|events| - 1])
  }
}
