/** Transcript turns as the Messages API wants them: alternating messages with tool_use and tool_result blocks. */
module Render {
  import opened Domain
  import opened Numerals
  import opened Transcript

  /** An id as it stands in a block: a call's own, or final_i for a final answer in turn i. */
  datatype BlockId = OfAction(action: ActionId) | OfFinal(turn: nat)

  datatype Block =
    | Text(text: string)
    | ToolUse(id: BlockId, name: string, input: string)
    | ToolResult(id: BlockId, content: string, isError: bool)

  datatype Role = FromUser | FromAssistant

  datatype Message = Message(role: Role, content: seq<Block>)

  const FINAL_TOOL := "submit_final"

  /** The messages so far, and the turn of a final answer that still needs a result. */
  datatype Conversation = Conversation(messages: seq<Message>, pending: Option<nat>)

  /** A block goes into the last message if that has the same role, else it starts a new one. */
  function Append(messages: seq<Message>, role: Role, block: Block): seq<Message> {
    var n := |messages|;
    if n > 0 && messages[n - 1].role == role
    then messages[n - 1 := Message(role, messages[n - 1].content + [block])]
    else messages + [Message(role, [block])]
  }

  function AppendAll(messages: seq<Message>, role: Role, blocks: seq<Block>): seq<Message> {
    if blocks == [] then messages
    else Append(AppendAll(messages, role, blocks[..|blocks| - 1]), role, blocks[|blocks| - 1])
  }

  function Uses(actions: seq<Action>): (blocks: seq<Block>)
    ensures |blocks| == |actions|
    ensures forall k :: 0 <= k < |actions| ==> blocks[k] == ToolUse(OfAction(actions[k].id), actions[k].tool, actions[k].args)
  {
    seq(|actions|, k requires 0 <= k < |actions| => ToolUse(OfAction(actions[k].id), actions[k].tool, actions[k].args))
  }

  function Answers(results: seq<Result>): (blocks: seq<Block>)
    ensures |blocks| == |results|
    ensures forall k :: 0 <= k < |results| ==> blocks[k] == ToolResult(OfAction(results[k].id), results[k].content, false)
  {
    seq(|results|, k requires 0 <= k < |results| => ToolResult(OfAction(results[k].id), results[k].content, false))
  }

  /** The assistant's blocks for a step in turn i. */
  function StepBlocks(i: nat, t: Turn): seq<Block>
    requires t.StepTurn?
  {
    (if t.reasoning != "" then [Text(t.reasoning)] else []) + Uses(t.actions)
      + (if t.final.Some? then [ToolUse(OfFinal(i), FINAL_TOOL, t.final.value)] else [])
  }

  function Put(c: Conversation, i: nat, t: Turn): Conversation {
    match t
    case User(text) =>
      var block := if c.pending.Some? then ToolResult(OfFinal(c.pending.value), text, true) else Text(text);
      Conversation(Append(c.messages, FromUser, block), None)
    case StepTurn(_, _, final) =>
      Conversation(AppendAll(c.messages, FromAssistant, StepBlocks(i, t)), if final.Some? then Some(i) else c.pending)
    case Results(results) => c.(messages := AppendAll(c.messages, FromUser, Answers(results)))
  }

  function Rendered(turns: seq<Turn>): Conversation {
    if turns == [] then Conversation([], None)
    else Put(Rendered(turns[..|turns| - 1]), |turns| - 1, turns[|turns| - 1])
  }

  method RenderMessages(turns: seq<Turn>) returns (messages: seq<Message>)
    ensures messages == Rendered(turns).messages
  {
    hide AppendAll;
    messages := [];
    var pending: Option<nat> := None;
    for i := 0 to |turns|
      invariant Conversation(messages, pending) == Rendered(turns[..i])
    {
      ghost var before := Conversation(messages, pending);
      match turns[i] {
        case User(text) =>
          var block;
          if pending.Some? {
            block := ToolResult(OfFinal(pending.value), text, true);
            pending := None;
          } else {
            block := Text(text);
          }
          messages := Append(messages, FromUser, block);
        case StepTurn(reasoning, actions, final) =>
          var blocks: seq<Block> := if reasoning != "" then [Text(reasoning)] else [];
          blocks := blocks + Uses(actions);
          if final.Some? {
            pending := Some(i);
            blocks := blocks + [ToolUse(OfFinal(i), FINAL_TOOL, final.value)];
          }
          assert blocks == StepBlocks(i, turns[i]);
          messages := PutAll(messages, FromAssistant, blocks);
        case Results(results) =>
          messages := PutAll(messages, FromUser, Answers(results));
      }
      assert Conversation(messages, pending) == Put(before, i, turns[i]);
      assert turns[..i + 1][..i] == turns[..i];
    }
    assert turns[..|turns|] == turns;
  }

  method PutAll(start: seq<Message>, role: Role, blocks: seq<Block>) returns (messages: seq<Message>)
    ensures messages == AppendAll(start, role, blocks)
  {
    messages := start;
    for k := 0 to |blocks|
      invariant messages == AppendAll(start, role, blocks[..k])
    {
      messages := Append(messages, role, blocks[k]);
      assert blocks[..k + 1][..k] == blocks[..k];
    }
    assert blocks[..|blocks|] == blocks;
  }

  // ----- Who said what -----

  datatype Saying = Saying(role: Role, text: string)

  function TextOf(b: Block): string {
    match b
    case Text(text) => text
    case ToolUse(_, _, input) => input
    case ToolResult(_, content, _) => content
  }

  function Sayings(role: Role, blocks: seq<Block>): (r: seq<Saying>)
    ensures |r| == |blocks| && forall k :: 0 <= k < |blocks| ==> r[k] == Saying(role, TextOf(blocks[k]))
  {
    seq(|blocks|, k requires 0 <= k < |blocks| => Saying(role, TextOf(blocks[k])))
  }

  /** All that is said in the messages, in order. */
  function Said(messages: seq<Message>): seq<Saying> {
    if messages == [] then []
    else Said(messages[..|messages| - 1]) + Sayings(messages[|messages| - 1].role, messages[|messages| - 1].content)
  }

  /** What a turn says: the user's texts and results, the assistant's reasoning, calls and final answer. */
  function TurnSays(t: Turn): seq<Saying> {
    match t
    case User(text) => [Saying(FromUser, text)]
    case StepTurn(reasoning, actions, final) =>
      (if reasoning != "" then [Saying(FromAssistant, reasoning)] else [])
      + seq(|actions|, k requires 0 <= k < |actions| => Saying(FromAssistant, actions[k].args))
      + (if final.Some? then [Saying(FromAssistant, final.value)] else [])
    case Results(results) => seq(|results|, k requires 0 <= k < |results| => Saying(FromUser, results[k].content))
  }

  function TurnsSay(turns: seq<Turn>): seq<Saying> {
    if turns == [] then [] else TurnsSay(turns[..|turns| - 1]) + TurnSays(turns[|turns| - 1])
  }

  lemma AppendSays(messages: seq<Message>, role: Role, block: Block)
    ensures Said(Append(messages, role, block)) == Said(messages) + [Saying(role, TextOf(block))]
  {
    var n, longer := |messages|, Append(messages, role, block);
    if n > 0 && messages[n - 1].role == role {
      assert longer[..n - 1] == messages[..n - 1];
      assert Sayings(role, messages[n - 1].content + [block]) == Sayings(role, messages[n - 1].content) + [Saying(role, TextOf(block))];
    } else {
      assert longer[..n] == messages;
      assert Sayings(role, [block]) == [Saying(role, TextOf(block))];
    }
  }

  lemma {:induction false} AppendAllSays(messages: seq<Message>, role: Role, blocks: seq<Block>)
    ensures Said(AppendAll(messages, role, blocks)) == Said(messages) + Sayings(role, blocks)
    decreases |blocks|
  {
    hide Said, Append;
    if blocks == [] {
      assert Sayings(role, blocks) == [];
    } else {
      var shorter, last := blocks[..|blocks| - 1], blocks[|blocks| - 1];
      AppendAllSays(messages, role, shorter);
      AppendSays(AppendAll(messages, role, shorter), role, last);
      assert Sayings(role, blocks) == Sayings(role, shorter) + [Saying(role, TextOf(last))];
    }
  }

  lemma PutSays(c: Conversation, i: nat, t: Turn)
    ensures Said(Put(c, i, t).messages) == Said(c.messages) + TurnSays(t)
  {
    hide Said, Append, AppendAll;
    match t {
      case User(text) =>
        AppendSays(c.messages, FromUser, if c.pending.Some? then ToolResult(OfFinal(c.pending.value), text, true) else Text(text));
      case StepTurn(_, _, _) =>
        AppendAllSays(c.messages, FromAssistant, StepBlocks(i, t));
        assert Sayings(FromAssistant, StepBlocks(i, t)) == TurnSays(t);
      case Results(results) =>
        AppendAllSays(c.messages, FromUser, Answers(results));
        assert Sayings(FromUser, Answers(results)) == TurnSays(t);
    }
  }

  /** Rendering loses nothing, keeps the order, and puts nothing in the other's mouth. */
  lemma {:induction false} RenderingKeepsWhatIsSaid(turns: seq<Turn>)
    ensures Said(Rendered(turns).messages) == TurnsSay(turns)
    decreases |turns|
  {
    hide Said, Put, TurnSays;
    if turns == [] {
      NothingSaid();
    } else {
      RenderingKeepsWhatIsSaid(turns[..|turns| - 1]);
      PutSays(Rendered(turns[..|turns| - 1]), |turns| - 1, turns[|turns| - 1]);
    }
  }

  lemma NothingSaid()
    ensures Said([]) == []
  {
  }

  // ----- What is an error, and what is the answer -----

  /** Only what is sent back about a final answer is an error, and only a final answer goes to its own tool. */
  predicate Marked(b: Block) {
    match b
    case Text(_) => true
    case ToolUse(id, name, _) => id.OfFinal? ==> name == "submit_final"
    case ToolResult(id, _, isError) => isError <==> id.OfFinal?
  }

  ghost predicate AllMarked(messages: seq<Message>) {
    forall i, j :: 0 <= i < |messages| && 0 <= j < |messages[i].content| ==> Marked(messages[i].content[j])
  }

  lemma AppendKeepsMarks(messages: seq<Message>, role: Role, block: Block)
    requires AllMarked(messages) && Marked(block)
    ensures AllMarked(Append(messages, role, block))
  {
  }

  lemma {:induction false} AppendAllKeepsMarks(messages: seq<Message>, role: Role, blocks: seq<Block>)
    requires AllMarked(messages) && forall k :: 0 <= k < |blocks| ==> Marked(blocks[k])
    ensures AllMarked(AppendAll(messages, role, blocks))
    decreases |blocks|
  {
    hide AllMarked, Append, Marked;
    if blocks != [] {
      AppendAllKeepsMarks(messages, role, blocks[..|blocks| - 1]);
      AppendKeepsMarks(AppendAll(messages, role, blocks[..|blocks| - 1]), role, blocks[|blocks| - 1]);
    }
  }

  lemma {:induction false} BlocksAreMarked(turns: seq<Turn>)
    ensures AllMarked(Rendered(turns).messages)
    decreases |turns|
  {
    hide AllMarked, Append, AppendAll;
    if turns == [] {
      NothingToMark();
    } else {
      var i, t := |turns| - 1, turns[|turns| - 1];
      var c := Rendered(turns[..i]);
      BlocksAreMarked(turns[..i]);
      match t {
        case User(text) =>
          AppendKeepsMarks(c.messages, FromUser, if c.pending.Some? then ToolResult(OfFinal(c.pending.value), text, true) else Text(text));
        case StepTurn(_, _, _) => AppendAllKeepsMarks(c.messages, FromAssistant, StepBlocks(i, t));
        case Results(results) => AppendAllKeepsMarks(c.messages, FromUser, Answers(results));
      }
    }
  }

  lemma NothingToMark()
    ensures AllMarked([])
  {
  }

  // ----- Ids as text -----

  function IdText(id: BlockId): string {
    match id
    case OfAction(a) => "c" + (Digits(a.step) + "_" + Digits(a.position))
    case OfFinal(turn) => "final_" + Digits(turn)
  }

  function FirstUnderscore(s: string): nat {
    if s == "" || s[0] == '_' then 0 else 1 + FirstUnderscore(s[1..])
  }

  lemma {:induction false} FirstUnderscoreAt(a: string, b: string)
    requires '_' !in a
    ensures FirstUnderscore(a + "_" + b) == |a|
  {
    if a != "" {
      assert (a + "_" + b)[1..] == a[1..] + "_" + b;
      FirstUnderscoreAt(a[1..], b);
    }
  }

  lemma SplitAtUnderscore(a: string, b: string, c: string, d: string)
    requires '_' !in a && '_' !in c && a + "_" + b == c + "_" + d
    ensures a == c && b == d
  {
    var x, y := a + "_" + b, c + "_" + d;
    FirstUnderscoreAt(a, b);
    FirstUnderscoreAt(c, d);
    assert x[..|a|] == a && y[..|c|] == c;
    assert x[|a| + 1..] == b && y[|c| + 1..] == d;
  }

  lemma DigitsHaveNoUnderscore(n: nat)
    ensures '_' !in Digits(n)
  {
    hide Digits;
    assert forall i :: 0 <= i < |Digits(n)| ==> IsDigit(Digits(n)[i]);
  }

  /** Different ids are written differently. */
  lemma IdTextIsInjective(a: BlockId, b: BlockId)
    requires IdText(a) == IdText(b)
    ensures a == b
  {
    hide Digits;
    assert IdText(a)[0] == IdText(b)[0];
    if a.OfAction? {
      var s, t := Digits(a.action.step) + "_" + Digits(a.action.position), Digits(b.action.step) + "_" + Digits(b.action.position);
      assert IdText(a)[1..] == s && IdText(b)[1..] == t;
      DigitsHaveNoUnderscore(a.action.step);
      DigitsHaveNoUnderscore(b.action.step);
      SplitAtUnderscore(Digits(a.action.step), Digits(a.action.position), Digits(b.action.step), Digits(b.action.position));
      DecimalOfDigits(a.action.step);
      DecimalOfDigits(b.action.step);
      DecimalOfDigits(a.action.position);
      DecimalOfDigits(b.action.position);
    } else {
      assert IdText(a)[6..] == Digits(a.turn) && IdText(b)[6..] == Digits(b.turn);
      DecimalOfDigits(a.turn);
      DecimalOfDigits(b.turn);
    }
  }

  // ----- What the API asks for -----

  predicate IsUse(messages: seq<Message>, i: int, j: int) {
    0 <= i < |messages| && 0 <= j < |messages[i].content| && messages[i].content[j].ToolUse?
  }

  predicate IsResult(m: Message, j: int) { 0 <= j < |m.content| && m.content[j].ToolResult? }

  /** Each tool_use in a has exactly one tool_result in u, and u has no other results. */
  ghost predicate AnsweredBy(a: Message, u: Message) {
    && (forall j :: 0 <= j < |a.content| && a.content[j].ToolUse? ==>
          exists k :: IsResult(u, k) && u.content[k].id == a.content[j].id)
    && (forall k, l :: IsResult(u, k) && IsResult(u, l) && u.content[k].id == u.content[l].id ==> k == l)
    && (forall k :: IsResult(u, k) ==> exists j :: 0 <= j < |a.content| && a.content[j].ToolUse? && a.content[j].id == u.content[k].id)
  }

  /** A user message: no tool_use, and its results come before its text. */
  ghost predicate UserMessage(u: Message) {
    && u.role == FromUser && u.content != []
    && (forall j :: 0 <= j < |u.content| ==> !u.content[j].ToolUse?)
    && (forall j, k :: 0 <= j < k && IsResult(u, k) ==> IsResult(u, j))
  }

  ghost predicate AssistantMessage(a: Message) {
    a.role == FromAssistant && a.content != [] && forall j :: 0 <= j < |a.content| ==> !a.content[j].ToolResult?
  }

  /** It starts and ends with the user, roles alternate, and each tool_use is answered in the next message. */
  ghost predicate Alternates(messages: seq<Message>) {
    && |messages| % 2 == 1
    && (forall i :: 0 <= i < |messages| && i % 2 == 0 ==> UserMessage(messages[i]))
    && (forall i :: 0 <= i < |messages| && i % 2 == 1 ==> AssistantMessage(messages[i]) && AnsweredBy(messages[i], messages[i + 1]))
    && (forall k :: !IsResult(messages[0], k))
  }

  ghost predicate UniqueIds(messages: seq<Message>) {
    forall i, j, k, l :: IsUse(messages, i, j) && IsUse(messages, k, l) && messages[i].content[j].id == messages[k].content[l].id
      ==> i == k && j == l
  }

  ghost predicate WellFormed(messages: seq<Message>) { Alternates(messages) && UniqueIds(messages) }

  // ----- The turns of a run when it asks for its next step -----

  /** An answer that was not accepted, and why. */
  predicate IsRejection(ts: seq<Turn>) {
    |ts| == 2 && ts[0].StepTurn? && ts[0].final.Some? && ts[0].actions == [] && ts[1].User?
  }

  /** The calls of round n, their results in the same order, and perhaps a note. */
  ghost predicate IsQuery(ts: seq<Turn>, n: nat) {
    && 2 <= |ts| <= 3
    && ts[0].StepTurn? && ts[0].final.None? && ts[0].actions != []
    && ts[1].Results? && |ts[1].results| == |ts[0].actions|
    && (forall k :: 0 <= k < |ts[0].actions| ==> ts[0].actions[k].id == ActionId(n, k + 1))
    && (forall k :: 0 <= k < |ts[0].actions| ==> ts[1].results[k].id == ActionId(n, k + 1))
    && (|ts| == 3 ==> ts[2].User?)
  }

  /** What round n leaves in the transcript. */
  ghost predicate IsExchange(ts: seq<Turn>, n: nat) { IsRejection(ts) || IsQuery(ts, n) }

  ghost predicate IsTranscript(turns: seq<Turn>, n: nat) {
    if n == 0 then |turns| == 1 && turns[0].User?
    else exists m :: 0 <= m < |turns| && IsTranscript(turns[..m], n - 1) && IsExchange(turns[m..], n)
  }

  lemma {:induction false} AppendAllToNew(messages: seq<Message>, role: Role, blocks: seq<Block>)
    requires blocks != [] && (messages == [] || messages[|messages| - 1].role != role)
    ensures AppendAll(messages, role, blocks) == messages + [Message(role, blocks)]
    decreases |blocks|
  {
    hide Append;
    var shorter, last := blocks[..|blocks| - 1], blocks[|blocks| - 1];
    assert shorter + [last] == blocks;
    if shorter == [] {
      AppendToOther(messages, role, last);
    } else {
      AppendAllToNew(messages, role, shorter);
      AppendToSame(messages, role, shorter, last);
    }
  }

  lemma AppendToOther(messages: seq<Message>, role: Role, block: Block)
    requires messages == [] || messages[|messages| - 1].role != role
    ensures Append(messages, role, block) == messages + [Message(role, [block])]
  {
  }

  lemma AppendToSame(messages: seq<Message>, role: Role, content: seq<Block>, block: Block)
    ensures Append(messages + [Message(role, content)], role, block) == messages + [Message(role, content + [block])]
  {
    var longer := messages + [Message(role, content)];
    assert longer[|messages| := Message(role, content + [block])] == messages + [Message(role, content + [block])];
  }

  /** The last message is the user's and no final answer waits for a result. */
  predicate AwaitsStep(c: Conversation) {
    c.pending.None? && c.messages != [] && c.messages[|c.messages| - 1].role == FromUser
  }

  /** The two messages an exchange becomes. */
  ghost function AssistantPart(ts: seq<Turn>, start: nat, n: nat): Message
    requires IsExchange(ts, n)
  {
    Message(FromAssistant, StepBlocks(start, ts[0]))
  }

  ghost function UserPart(ts: seq<Turn>, start: nat, n: nat): Message
    requires IsExchange(ts, n)
  {
    Message(FromUser, if ts[0].final.Some? then [ToolResult(OfFinal(start), ts[1].text, true)]
                      else Answers(ts[1].results) + (if |ts| == 3 then [Text(ts[2].text)] else []))
  }

  /** Rendering one more exchange adds its two messages. */
  lemma ExchangeAddsTwo(turns: seq<Turn>, ts: seq<Turn>, n: nat)
    requires IsExchange(ts, n) && AwaitsStep(Rendered(turns))
    ensures Rendered(turns + ts) ==
            Conversation(Rendered(turns).messages + [AssistantPart(ts, |turns|, n), UserPart(ts, |turns|, n)], None)
  {
    hide Rendered, AppendAll, Append, StepBlocks, AwaitsStep;
    if IsRejection(ts) { RejectionAddsTwo(turns, ts); } else { QueryAddsTwo(turns, ts, n); }
  }

  lemma Rejoined<T>(s: seq<T>, more: seq<T>)
    requires more != []
    ensures s + [more[0]] + more[1..] == s + more
  {
  }

  lemma TwoMore<T>(s: seq<T>, x: T, y: T)
    ensures s + [x] + [y] == s + [x, y]
  {
  }

  lemma RejectionAddsTwo(turns: seq<Turn>, ts: seq<Turn>)
    requires IsRejection(ts) && AwaitsStep(Rendered(turns))
    ensures Rendered(turns + ts) ==
            Conversation(Rendered(turns).messages + [Message(FromAssistant, StepBlocks(|turns|, ts[0])),
                                                     Message(FromUser, [ToolResult(OfFinal(|turns|), ts[1].text, true)])], None)
  {
    hide Rendered, AppendAll, Append, StepBlocks, AwaitsStep;
    var messages, m := Rendered(turns).messages, |turns|;
    var a, u := Message(FromAssistant, StepBlocks(m, ts[0])), Message(FromUser, [ToolResult(OfFinal(m), ts[1].text, true)]);
    StepAddsOne(turns, ts[0]);
    FeedbackAddsOne(turns + [ts[0]], ts[1], messages + [a], m);
    assert ts[1..] == [ts[1]];
    Rejoined(turns, ts);
    TwoMore(messages, a, u);
  }

  lemma QueryAddsTwo(turns: seq<Turn>, ts: seq<Turn>, n: nat)
    requires IsQuery(ts, n) && AwaitsStep(Rendered(turns))
    ensures Rendered(turns + ts) ==
            Conversation(Rendered(turns).messages + [Message(FromAssistant, StepBlocks(|turns|, ts[0])),
                                                     Message(FromUser, Answers(ts[1].results) + (if |ts| == 3 then [Text(ts[2].text)] else []))], None)
  {
    hide Rendered, AppendAll, Append, StepBlocks, AwaitsStep;
    var messages, m := Rendered(turns).messages, |turns|;
    var a := Message(FromAssistant, StepBlocks(m, ts[0]));
    var u := Message(FromUser, Answers(ts[1].results) + (if |ts| == 3 then [Text(ts[2].text)] else []));
    StepAddsOne(turns, ts[0]);
    ResultsAddOne(turns + [ts[0]], ts, messages + [a], n, u);
    hide IsQuery, Answers;
    Rejoined(turns, ts);
    TwoMore(messages, a, u);
  }

  lemma FeedbackAddsOne(turns: seq<Turn>, t: Turn, messages: seq<Message>, m: nat)
    requires t.User? && messages != [] && messages[|messages| - 1].role == FromAssistant
    requires Rendered(turns) == Conversation(messages, Some(m))
    ensures Rendered(turns + [t]) == Conversation(messages + [Message(FromUser, [ToolResult(OfFinal(m), t.text, true)])], None)
  {
    hide Rendered, AppendAll, Append;
    RenderedNext(turns, t);
    AppendToOther(messages, FromUser, ToolResult(OfFinal(m), t.text, true));
  }

  lemma StepAddsOne(turns: seq<Turn>, t: Turn)
    requires t.StepTurn? && (t.final.Some? || t.actions != []) && AwaitsStep(Rendered(turns))
    ensures Rendered(turns + [t]) ==
            Conversation(Rendered(turns).messages + [Message(FromAssistant, StepBlocks(|turns|, t))],
                         if t.final.Some? then Some(|turns|) else None)
  {
    hide Rendered, AppendAll, Append;
    RenderedNext(turns, t);
    assert |StepBlocks(|turns|, t)| > 0;
    hide StepBlocks;
    AppendAllToNew(Rendered(turns).messages, FromAssistant, StepBlocks(|turns|, t));
  }

  lemma ResultsAddOne(turns: seq<Turn>, ts: seq<Turn>, messages: seq<Message>, n: nat, u: Message)
    requires IsQuery(ts, n) && messages != [] && messages[|messages| - 1].role == FromAssistant
    requires Rendered(turns) == Conversation(messages, None)
    requires u == Message(FromUser, Answers(ts[1].results) + (if |ts| == 3 then [Text(ts[2].text)] else []))
    ensures Rendered(turns + ts[1..]) == Conversation(messages + [u], None)
  {
    hide Rendered, AppendAll, Append;
    var answers := Answers(ts[1].results);
    RenderedNext(turns, ts[1]);
    AppendAllToNew(messages, FromUser, answers);
    if |ts| == 3 {
      RenderedNext(turns + [ts[1]], ts[2]);
      assert turns + ts[1..] == turns + [ts[1]] + [ts[2]];
      AppendToSame(messages, FromUser, answers, Text(ts[2].text));
    } else {
      assert turns + ts[1..] == turns + [ts[1]];
      assert answers + [] == answers;
    }
  }

  lemma RenderedNext(turns: seq<Turn>, t: Turn)
    ensures Rendered(turns + [t]) == Put(Rendered(turns), |turns|, t)
  {
    assert (turns + [t])[..|turns|] == turns;
  }

  /** The ids used up to round n, in a transcript of t turns. */
  ghost predicate IdsBelow(messages: seq<Message>, n: nat, t: nat) {
    forall i, j :: IsUse(messages, i, j) ==>
      match messages[i].content[j].id
      case OfAction(a) => a.step <= n
      case OfFinal(k) => k < t
  }

  /** A pair of messages whose ids are new after round n - 1 and m turns. */
  ghost predicate IsPair(a: Message, u: Message, m: nat, n: nat) {
    && AssistantMessage(a) && UserMessage(u) && AnsweredBy(a, u)
    && (forall j :: 0 <= j < |a.content| && a.content[j].ToolUse? ==>
          a.content[j].id == OfFinal(m) || (a.content[j].id.OfAction? && a.content[j].id.action.step == n))
    && (forall j, k :: 0 <= j < k < |a.content| && a.content[j].ToolUse? && a.content[k].ToolUse? ==>
          a.content[j].id != a.content[k].id)
  }

  lemma RejectionIsPair(a: Message, u: Message, m: nat, n: nat, before: seq<Block>, final: string, text: string)
    requires |before| <= 1 && forall j :: 0 <= j < |before| ==> before[j].Text?
    requires a == Message(FromAssistant, before + [ToolUse(OfFinal(m), FINAL_TOOL, final)])
    requires u == Message(FromUser, [ToolResult(OfFinal(m), text, true)])
    ensures IsPair(a, u, m, n)
  {
    var d := |before|;
    assert a.content[d] == ToolUse(OfFinal(m), FINAL_TOOL, final);
    assert IsResult(u, 0);
  }

  /** Block j of a is text up to d, then the calls of round n in order. */
  ghost predicate Calls(a: Message, d: nat, n: nat) {
    forall j :: 0 <= j < |a.content| ==>
      if j < d then a.content[j].Text? else a.content[j].ToolUse? && a.content[j].id == OfAction(ActionId(n, j - d + 1))
  }

  /** Block k of u is the result of call k of round n, for the first c, then text. */
  ghost predicate Replies(u: Message, c: nat, n: nat) {
    forall k :: 0 <= k < |u.content| ==>
      if k < c then u.content[k].ToolResult? && u.content[k].id == OfAction(ActionId(n, k + 1)) else u.content[k].Text?
  }

  lemma RepliesAnswerCalls(a: Message, u: Message, d: nat, c: nat, n: nat)
    requires Calls(a, d, n) && Replies(u, c, n) && |a.content| == d + c && c <= |u.content|
    ensures AnsweredBy(a, u)
  {
    forall j | 0 <= j < |a.content| && a.content[j].ToolUse? ensures exists k :: IsResult(u, k) && u.content[k].id == a.content[j].id {
      assert IsResult(u, j - d);
    }
    forall k | IsResult(u, k) ensures exists j :: 0 <= j < |a.content| && a.content[j].ToolUse? && a.content[j].id == u.content[k].id {
      assert k < c && a.content[k + d].ToolUse?;
    }
    forall k, l | IsResult(u, k) && IsResult(u, l) && u.content[k].id == u.content[l].id ensures k == l {
      assert k < c && l < c;
    }
  }

  lemma QueryIsPair(a: Message, u: Message, m: nat, n: nat, before: seq<Block>, actions: seq<Action>, results: seq<Result>, after: seq<Block>)
    requires forall j :: 0 <= j < |before| ==> before[j].Text?
    requires forall j :: 0 <= j < |after| ==> after[j].Text?
    requires |actions| == |results| > 0
    requires forall k :: 0 <= k < |actions| ==> actions[k].id == ActionId(n, k + 1)
    requires forall k :: 0 <= k < |actions| ==> results[k].id == ActionId(n, k + 1)
    requires a == Message(FromAssistant, before + Uses(actions)) && u == Message(FromUser, Answers(results) + after)
    ensures IsPair(a, u, m, n)
  {
    assert Calls(a, |before|, n) by {
      forall j | |before| <= j < |a.content| ensures a.content[j].ToolUse? && a.content[j].id == OfAction(ActionId(n, j - |before| + 1)) {
        assert a.content[j] == Uses(actions)[j - |before|];
      }
    }
    assert Replies(u, |results|, n);
    RepliesAnswerCalls(a, u, |before|, |results|, n);
    hide AnsweredBy, Uses, Answers;
  }

  lemma ExchangeIsPair(ts: seq<Turn>, m: nat, n: nat)
    requires IsExchange(ts, n)
    ensures IsPair(AssistantPart(ts, m, n), UserPart(ts, m, n), m, n)
  {
    hide IsPair;
    var a, u := AssistantPart(ts, m, n), UserPart(ts, m, n);
    var before := if ts[0].reasoning != "" then [Text(ts[0].reasoning)] else [];
    if ts[0].final.Some? {
      assert Uses(ts[0].actions) == [];
      assert a.content == before + [ToolUse(OfFinal(m), FINAL_TOOL, ts[0].final.value)];
      RejectionIsPair(a, u, m, n, before, ts[0].final.value, ts[1].text);
    } else {
      var after := if |ts| == 3 then [Text(ts[2].text)] else [];
      assert a.content == before + Uses(ts[0].actions);
      QueryIsPair(a, u, m, n, before, ts[0].actions, ts[1].results, after);
    }
  }

  lemma WellFormedGrows(messages: seq<Message>, a: Message, u: Message, n: nat, m: nat)
    requires WellFormed(messages) && IdsBelow(messages, n, m) && IsPair(a, u, m, n + 1)
    ensures WellFormed(messages + [a, u]) && IdsBelow(messages + [a, u], n + 1, m + 1)
  {
    AlternatesGrows(messages, a, u);
    UniqueIdsGrow(messages, a, u, n, m);
  }

  lemma AlternatesGrows(messages: seq<Message>, a: Message, u: Message)
    requires Alternates(messages) && AssistantMessage(a) && UserMessage(u) && AnsweredBy(a, u)
    ensures Alternates(messages + [a, u])
  {
    hide AnsweredBy, UserMessage, AssistantMessage, IsResult;
    var longer := messages + [a, u];
    assert forall i :: 0 <= i < |messages| ==> longer[i] == messages[i];
    assert longer[|messages|] == a && longer[|messages| + 1] == u;
  }

  lemma UniqueIdsGrow(messages: seq<Message>, a: Message, u: Message, n: nat, m: nat)
    requires UniqueIds(messages) && IdsBelow(messages, n, m) && IsPair(a, u, m, n + 1)
    ensures UniqueIds(messages + [a, u]) && IdsBelow(messages + [a, u], n + 1, m + 1)
  {
    var longer := messages + [a, u];
    forall i, j | IsUse(longer, i, j)
      ensures i < |messages| ==> IsUse(messages, i, j) && longer[i] == messages[i]
      ensures i >= |messages| ==> i == |messages| && longer[i] == a
    {
    }
    hide AnsweredBy, UserMessage, AssistantMessage;
  }

  lemma TaskIsWellFormed(turns: seq<Turn>)
    requires |turns| == 1 && turns[0].User?
    ensures WellFormed(Rendered(turns).messages) && Rendered(turns).pending.None? && IdsBelow(Rendered(turns).messages, 0, 1)
  {
    hide WellFormed, IdsBelow, AppendAll, Append;
    assert turns == [turns[0]] && turns[..0] == [];
    var block := Text(turns[0].text);
    AppendToOther([], FromUser, block);
    assert [] + [Message(FromUser, [block])] == [Message(FromUser, [block])];
    LoneTextIsWellFormed(turns[0].text);
  }

  lemma LoneTextIsWellFormed(text: string)
    ensures WellFormed([Message(FromUser, [Text(text)])]) && IdsBelow([Message(FromUser, [Text(text)])], 0, 1)
  {
    var m := Message(FromUser, [Text(text)]);
    assert UserMessage(m);
    hide UserMessage, AnsweredBy, AssistantMessage;
  }

  /** The transcript of any run at the moment of a request renders as a well-formed conversation. */
  lemma {:induction false} TranscriptIsWellFormed(turns: seq<Turn>, n: nat)
    requires IsTranscript(turns, n)
    ensures WellFormed(Rendered(turns).messages) && Rendered(turns).pending.None?
    ensures IdsBelow(Rendered(turns).messages, n, |turns|)
    decreases n
  {
    hide WellFormed, IdsBelow, Rendered, IsExchange, IsPair, AssistantPart, UserPart;
    if n == 0 {
      TaskIsWellFormed(turns);
    } else {
      var m :| 0 <= m < |turns| && IsTranscript(turns[..m], n - 1) && IsExchange(turns[m..], n);
      TranscriptIsWellFormed(turns[..m], n - 1);
      var messages := Rendered(turns[..m]).messages;
      LastIsUser(messages);
      assert turns == turns[..m] + turns[m..];
      ExchangeAddsTwo(turns[..m], turns[m..], n);
      ExchangeIsPair(turns[m..], m, n);
      WellFormedGrows(messages, AssistantPart(turns[m..], m, n), UserPart(turns[m..], m, n), n - 1, m);
      LaterIdsBelow(Rendered(turns).messages, n, m + 1, |turns|);
    }
  }

  lemma LastIsUser(messages: seq<Message>)
    requires WellFormed(messages)
    ensures messages != [] && messages[|messages| - 1].role == FromUser && messages[0].role == FromUser
  {
    assert UserMessage(messages[|messages| - 1]);
    assert UserMessage(messages[0]);
  }

  lemma LaterIdsBelow(messages: seq<Message>, n: nat, t: nat, u: nat)
    requires IdsBelow(messages, n, t) && t <= u
    ensures IdsBelow(messages, n, u)
  {
  }
}

/** The conversations the agent loop sends. */
module Requests {
  import opened Domain
  import opened Transcript
  import opened AgentLoop
  import opened Render

  /** A round that goes on leaves exactly one exchange behind. */
  lemma RoundAddsExchange<V>(spec: Spec, world: World<V>, run: AgentLoop.Run<V>)
    requires Tell(spec, world, run).1 == Going
    ensures var after := Tell(spec, world, run).0.turns;
            && |run.turns| < |after| && after[..|run.turns|] == run.turns
            && IsExchange(after[|run.turns|..], run.steps)
  {
    hide FeedbackText, FirstFew;
    var step := world.reply(run.steps).step;
    var actions := Numbered(run.steps, step.calls);
    var after := Tell(spec, world, run).0.turns;
    var first := StepTurn(step.reasoning, actions, step.final);
    if step.final.Some? {
      assert exists text :: after == run.turns + [first, User(text)] by {
        SettleAddsFeedback(spec, world, run.(usage := run.usage + world.reply(run.steps).tokens, turns := run.turns + [first]), step.final.value);
      }
      var text :| after == run.turns + [first, User(text)];
      assert after[|run.turns|..] == [first, User(text)];
      NoCallsNoActions(run.steps, step.calls);
    } else {
      var results := Results(ResultsOf(spec, world, run.steps, actions));
      SomeCallsSomeActions(run.steps, step.calls);
      if run.steps + 1 >= spec.maxSteps {
        assert after == run.turns + [first, results, User(LAST_STEP_NOTE)];
        assert after[|run.turns|..] == [first, results, User(LAST_STEP_NOTE)];
      } else {
        assert after == run.turns + [first, results];
        assert after[|run.turns|..] == [first, results];
      }
    }
  }

  lemma NoCallsNoActions(n: nat, calls: seq<Call>)
    ensures calls == [] ==> Numbered(n, calls) == []
  {
  }

  lemma SomeCallsSomeActions(n: nat, calls: seq<Call>)
    ensures calls != [] ==> Numbered(n, calls) != []
  {
  }

  lemma SettleAddsFeedback<V>(spec: Spec, world: World<V>, run: AgentLoop.Run<V>, final: string)
    requires Settle(spec, world, run, final).1 == Going
    ensures exists text :: Settle(spec, world, run, final).0.turns == run.turns + [User(text)]
  {
    hide FeedbackText;
  }

  lemma {:induction false} RunsAreTranscripts<V>(spec: Spec, budget: nat, world: World<V>, task: string, n: nat)
    requires After(spec, budget, world, task, n).1 == Going
    ensures IsTranscript(After(spec, budget, world, task, n).0.turns, n)
    decreases n
  {
    hide Tell, IsExchange, IsTranscript, After;
    if n == 0 {
      NewRunIsTranscript(spec, budget, world, task);
    } else {
      GoingRound(spec, budget, world, task, n);
      RunsAreTranscripts(spec, budget, world, task, n - 1);
      var run := After(spec, budget, world, task, n - 1).0;
      RoundAddsExchange(spec, world, run.(steps := n));
      LongerTranscript(Tell(spec, world, run.(steps := n)).0.turns, |run.turns|, n);
    }
  }

  lemma NewRunIsTranscript<V>(spec: Spec, budget: nat, world: World<V>, task: string)
    ensures IsTranscript(After(spec, budget, world, task, 0).0.turns, 0)
  {
  }

  lemma LongerTranscript(turns: seq<Turn>, m: nat, n: nat)
    requires n > 0 && m < |turns| && IsTranscript(turns[..m], n - 1) && IsExchange(turns[m..], n)
    ensures IsTranscript(turns, n)
  {
    hide IsExchange;
  }

  /** Every request the loop makes renders as a conversation the API accepts. */
  lemma EveryRequestIsWellFormed<V>(spec: Spec, budget: nat, world: World<V>, task: string, n: nat)
    requires After(spec, budget, world, task, n).1 == Going
    ensures WellFormed(Rendered(After(spec, budget, world, task, n).0.turns).messages)
  {
    RunsAreTranscripts(spec, budget, world, task, n);
    TranscriptIsWellFormed(After(spec, budget, world, task, n).0.turns, n);
  }
}
