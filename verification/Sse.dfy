/** The console's incremental event-stream parser (section 9.2.6 of the WHATWG HTML standard). */
module Sse {
  import opened Domain
  import opened Numerals

  datatype SseEvent = SseEvent(id: Option<string>, event: string, data: string)

  /** The parser's fields. */
  datatype Parser = Parser(
    buffer: string, data: seq<string>, event: string, id: Option<string>, lastId: Option<string>, retryMs: Option<nat>)

  const NEW_PARSER := Parser("", [], "", None, None, None)

  predicate IsNewline(c: char) { c == '\r' || c == '\n' }

  predicate NoNewline(s: string) { forall i :: 0 <= i < |s| ==> !IsNewline(s[i]) }

  /** Where the first line end is, or the length if there is none. */
  function LineEnd(s: string): (n: nat)
    ensures n <= |s| && NoNewline(s[..n]) && (n < |s| ==> IsNewline(s[n]))
  {
    if s == "" || IsNewline(s[0]) then 0 else 1 + LineEnd(s[1..])
  }

  function LineEndWidth(s: string, n: nat): nat
    requires n < |s|
  {
    if s[n] == '\r' && n + 1 < |s| && s[n + 1] == '\n' then 2 else 1
  }

  /** Where the first colon is, or the length if there is none. */
  function Colon(s: string): (n: nat)
    ensures n <= |s| && ':' !in s[..n] && (n < |s| ==> s[n] == ':')
  {
    if s == "" || s[0] == ':' then 0 else 1 + Colon(s[1..])
  }

  function Join(lines: seq<string>): string {
    if lines == [] then "" else if |lines| == 1 then lines[0] else lines[0] + "\n" + Join(lines[1..])
  }

  function FieldName(line: string): string { line[..Colon(line)] }

  function FieldValue(line: string): string {
    var n := Colon(line);
    var value := if n == |line| then "" else line[n + 1..];
    if value != "" && value[0] == ' ' then value[1..] else value
  }

  /** A blank line dispatches what has been gathered, if anything. */
  function Dispatch(p: Parser): (Parser, seq<SseEvent>) {
    (p.(data := [], event := ""),
     if p.data != [] || p.event != "" then [SseEvent(p.id, if p.event == "" then "message" else p.event, Join(p.data))]
     else [])
  }

  function ApplyField(p: Parser, field: string, value: string): Parser {
    if field == "data" then p.(data := p.data + [value])
    else if field == "event" then p.(event := value)
    else if field == "id" && '\0' !in value then p.(id := Some(value), lastId := Some(value))
    else if field == "retry" && AllDigits(value) then p.(retryMs := Some(Decimal(value)))
    else p
  }

  /** What one whole line does: dispatch, nothing (a comment), or set a field. */
  function ApplyLine(p: Parser, line: string): (r: (Parser, seq<SseEvent>))
    ensures r.0.buffer == p.buffer
  {
    if line == "" then Dispatch(p)
    else if line[0] == ':' then (p, [])
    else (ApplyField(p, FieldName(line), FieldValue(line)), [])
  }

  /** The parser with its first line taken off the buffer. */
  function Rest(p: Parser): (q: Parser)
    requires LineEnd(p.buffer) < |p.buffer|
    ensures |q.buffer| < |p.buffer| && q == p.(buffer := q.buffer)
  {
    var n := LineEnd(p.buffer);
    p.(buffer := p.buffer[n + LineEndWidth(p.buffer, n)..])
  }

  /** Take whole lines off the buffer until none is left. */
  function Drain(p: Parser): (Parser, seq<SseEvent>)
    decreases |p.buffer|
  {
    var n := LineEnd(p.buffer);
    if n == |p.buffer| then (p, [])
    else
      var (q, out) := ApplyLine(Rest(p), p.buffer[..n]);
      var (r, more) := Drain(q);
      (r, out + more)
  }

  function Fed(p: Parser, chunk: string): (Parser, seq<SseEvent>) {
    Drain(p.(buffer := p.buffer + chunk))
  }

  function FedAll(p: Parser, chunks: seq<string>): (Parser, seq<SseEvent>)
    decreases |chunks|
  {
    if chunks == [] then (p, [])
    else
      var (q, out) := Fed(p, chunks[0]);
      var (r, more) := FedAll(q, chunks[1..]);
      (r, out + more)
  }

  function Concat(chunks: seq<string>): string {
    if chunks == [] then "" else chunks[0] + Concat(chunks[1..])
  }

  /** The parser as the console updates it. */
  class SseParser {
    var buffer: string
    var data: seq<string>
    var event: string
    var id: Option<string>
    var lastId: Option<string>
    var retryMs: Option<nat>

    function View(): Parser
      reads this
    {
      Parser(buffer, data, event, id, lastId, retryMs)
    }

    constructor ()
      ensures View() == NEW_PARSER
    {
      buffer, data, event, id, lastId, retryMs := "", [], "", None, None, None;
    }

    /** The events completed by this chunk, in order. */
    method Feed(chunk: string) returns (out: seq<SseEvent>)
      modifies this
      ensures (View(), out) == Fed(old(View()), chunk)
    {
      hide Drain, LineEnd, FieldName, FieldValue, Decimal, Join;
      buffer := buffer + chunk;
      out := [];
      ghost var start := View();
      var n := LineEnd(buffer);
      assert out + Drain(start).1 == Drain(start).1;
      while n < |buffer|
        invariant n == LineEnd(buffer)
        invariant Drain(start).0 == Drain(View()).0 && Drain(start).1 == out + Drain(View()).1
        decreases |buffer|
      {
        ghost var before, gathered := View(), out;
        var line := buffer[..n];
        var width := LineEndWidth(buffer, n);
        buffer := buffer[n + width..];
        ghost var rest := View();
        if line == "" {
          if data != [] || event != "" {
            out := out + [SseEvent(id, if event == "" then "message" else event, Join(data))];
          }
          data, event := [], "";
        } else if line[0] != ':' {
          var field, value := FieldName(line), FieldValue(line);
          if field == "data" { data := data + [value]; }
          else if field == "event" { event := value; }
          else if field == "id" && '\0' !in value { id, lastId := Some(value), Some(value); }
          else if field == "retry" && AllDigits(value) { retryMs := Some(Decimal(value)); }
        }
        LineDone(before, rest, View(), line, gathered, out);
        n := LineEnd(buffer);
      }
      NoWholeLine(View());
      assert out + [] == out;
    }
  }

  lemma NoWholeLine(p: Parser)
    requires LineEnd(p.buffer) == |p.buffer|
    ensures Drain(p) == (p, [])
  {
  }

  /** One turn of the loop takes one line off what is still to be drained. */
  lemma LineDone(p: Parser, rest: Parser, q: Parser, line: string, before: seq<SseEvent>, after: seq<SseEvent>)
    requires LineEnd(p.buffer) < |p.buffer| && rest == Rest(p) && line == p.buffer[..LineEnd(p.buffer)]
    requires q == ApplyLine(rest, line).0 && after == before + ApplyLine(rest, line).1
    ensures Drain(p).0 == Drain(q).0 && before + Drain(p).1 == after + Drain(q).1
  {
    hide ApplyLine, Rest;
  }

  // ----- Chunking -----

  /** The cut falls between a CR and its LF. */
  predicate CutsCrLf(a: string, b: string) {
    a != "" && a[|a| - 1] == '\r' && b != "" && b[0] == '\n'
  }

  lemma LineEndOfPrefix(a: string, b: string)
    requires LineEnd(a) < |a|
    ensures LineEnd(a + b) == LineEnd(a)
  {
    if !IsNewline(a[0]) {
      assert (a + b)[1..] == a[1..] + b;
      LineEndOfPrefix(a[1..], b);
    }
  }

  lemma RestOfLonger(p: Parser, a: string, b: string)
    requires !CutsCrLf(a, b) && LineEnd(a) < |a|
    ensures LineEnd(a + b) == LineEnd(a) && (a + b)[..LineEnd(a)] == a[..LineEnd(a)]
    ensures Rest(p.(buffer := a + b)) == p.(buffer := Rest(p.(buffer := a)).buffer + b)
    ensures !CutsCrLf(Rest(p.(buffer := a)).buffer, b)
  {
    LineEndOfPrefix(a, b);
    var end := LineEnd(a) + LineEndWidth(a, LineEnd(a));
    assert (a + b)[end..] == a[end..] + b;
  }

  lemma {:induction false} DrainSplits(p: Parser, a: string, b: string)
    requires !CutsCrLf(a, b)
    ensures var (q, out) := Drain(p.(buffer := a));
            var (r, more) := Drain(q.(buffer := q.buffer + b));
            Drain(p.(buffer := a + b)) == (r, out + more)
    decreases |a|
  {
    hide ApplyLine, Rest, CutsCrLf;
    if LineEnd(a) == |a| {
      var more := Drain(p.(buffer := a + b)).1;
      assert [] + more == more;
    } else {
      var line, rest := a[..LineEnd(a)], Rest(p.(buffer := a)).buffer;
      RestOfLonger(p, a, b);
      LinesIgnoreBuffer(p, rest, rest + b, line);
      var (q, out) := ApplyLine(p.(buffer := rest), line);
      assert Drain(p.(buffer := a)) == (Drain(q).0, out + Drain(q).1);
      var longer := q.(buffer := rest + b);
      assert Drain(p.(buffer := a + b)) == (Drain(longer).0, out + Drain(longer).1);
      hide Drain;
      DrainSplits(q, rest, b);
      assert q.(buffer := rest) == q;
      var more := Drain(Drain(q).0.(buffer := Drain(q).0.buffer + b)).1;
      assert out + (Drain(q).1 + more) == (out + Drain(q).1) + more;
    }
  }

  lemma LinesIgnoreBuffer(p: Parser, x: string, y: string, line: string)
    ensures ApplyLine(p.(buffer := y), line) == (ApplyLine(p.(buffer := x), line).0.(buffer := y), ApplyLine(p.(buffer := x), line).1)
  {
    hide FieldName, FieldValue;
  }

  /** Feeding a chunk in two pieces gives the same events and the same state. */
  lemma FeedIsHomomorphism(p: Parser, a: string, b: string)
    requires NoNewline(p.buffer) && !CutsCrLf(a, b)
    ensures var (q, out) := Fed(p, a);
            var (r, more) := Fed(q, b);
            Fed(p, a + b) == (r, out + more)
  {
    assert p.buffer + (a + b) == (p.buffer + a) + b;
    DrainSplits(p, p.buffer + a, b);
  }

  /** What is left in the buffer is always the start of a line. */
  lemma {:induction false} DrainLeavesNoNewline(p: Parser)
    ensures NoNewline(Drain(p).0.buffer)
    decreases |p.buffer|
  {
    hide ApplyLine, Rest;
    var n := LineEnd(p.buffer);
    if n == |p.buffer| {
      assert p.buffer[..n] == p.buffer;
    } else {
      DrainLeavesNoNewline(ApplyLine(Rest(p), p.buffer[..n]).0);
    }
  }

  lemma NewlineIsFound(x: string)
    requires x != "" && IsNewline(x[|x| - 1])
    ensures LineEnd(x) < |x|
  {
    if !IsNewline(x[0]) { NewlineIsFound(x[1..]); }
  }

  lemma WidthBeforeLf(x: string, n: nat)
    requires x != "" && x[|x| - 1] == '\r' && n < |x| && IsNewline(x[n])
    ensures n + LineEndWidth(x, n) <= |x|
    ensures LineEndWidth(x + "\n", n) == if n + LineEndWidth(x, n) == |x| then 2 else LineEndWidth(x, n)
    ensures n + LineEndWidth(x, n) == |x| ==> n + 1 == |x|
  {
  }

  /** A LF after a CR belongs to the CR's line end if that is the first one, and otherwise to what is left. */
  lemma RestBeforeLf(p: Parser, x: string)
    requires x != "" && x[|x| - 1] == '\r'
    ensures LineEnd(x) < |x| && LineEnd(x + "\n") == LineEnd(x) && (x + "\n")[..LineEnd(x)] == x[..LineEnd(x)]
    ensures var rest := Rest(p.(buffer := x)).buffer;
            Rest(p.(buffer := x + "\n")) == p.(buffer := if rest == "" then "" else rest + "\n")
            && (rest != "" ==> rest[|rest| - 1] == '\r')
  {
    hide LineEnd, LineEndWidth;
    NewlineIsFound(x);
    LineEndOfPrefix(x, "\n");
    var n := LineEnd(x);
    WidthBeforeLf(x, n);
    var y, end := x + "\n", n + LineEndWidth(x, n);
    assert y[..n] == x[..n];
    if end == |x| {
      assert |y[n + 2..]| == 0;
    } else {
      assert y[end..] == x[end..] + "\n";
    }
  }

  /** A buffer that ends in CR is drained whole, and a LF after it changes nothing. */
  lemma {:induction false} CrEndsTheLine(p: Parser, x: string)
    requires x != "" && x[|x| - 1] == '\r'
    ensures Drain(p.(buffer := x)).0.buffer == ""
    ensures Drain(p.(buffer := x + "\n")) == Drain(p.(buffer := x))
    decreases |x|
  {
    hide ApplyLine, Rest;
    RestBeforeLf(p, x);
    var line, rest := x[..LineEnd(x)], Rest(p.(buffer := x)).buffer;
    if rest != "" {
      LinesIgnoreBuffer(p, rest, rest + "\n", line);
      var q := ApplyLine(p.(buffer := rest), line).0;
      assert q.(buffer := rest) == q;
      CrEndsTheLine(q, rest);
    }
  }

  /** The one cut that can be told apart: after it the LF counts as a blank line, so it matters exactly if an event is pending. */
  lemma CutInsideCrLf(p: Parser, a: string)
    requires NoNewline(p.buffer) && a != "" && a[|a| - 1] == '\r'
    ensures var (q, out) := Fed(p, a);
            var (r, more) := Fed(q, "\n");
            && Fed(p, a + "\n") == (q, out)
            && (r, more) == Dispatch(q)
            && ((r, out + more) == Fed(p, a + "\n") <==> q.data == [] && q.event == "")
  {
    var x := p.buffer + a;
    assert p.buffer + (a + "\n") == x + "\n";
    CrEndsTheLine(p, x);
    var (q, out) := Fed(p, a);
    assert Fed(p, a + "\n") == (q, out);
    LoneLineFeed(q);
    assert out + [] == out;
  }

  lemma LoneLineFeed(q: Parser)
    requires q.buffer == ""
    ensures Fed(q, "\n") == Dispatch(q)
  {
    var p := q.(buffer := "\n");
    assert q.buffer + "\n" == "\n";
    assert Rest(p).buffer == "";
    assert Rest(p) == q;
    var (r, out) := Dispatch(q);
    assert Drain(r) == (r, []);
    assert Drain(p) == (Drain(r).0, out + Drain(r).1);
    assert out + [] == out;
  }

  // ----- What the server sends -----

  /** One piece of the server's output: the reconnect delay, an event frame, or a keep-alive. */
  datatype Item = Retry(delay: string) | Frame(id: string, event: string, data: string) | Ping

  function Line(field: string, value: string): string { field + ": " + value + "\n" }

  function Text(item: Item): string {
    match item
    case Retry(delay) => Line("retry", delay)
    case Frame(id, event, data) => Line("id", id) + Line("event", event) + Line("data", data) + "\n"
    case Ping => Line("", "ping") + "\n"
  }

  /** Cursors, event names and compact JSON have no line ends; a cursor has no NUL; names are not empty. */
  predicate Sendable(item: Item) {
    match item
    case Retry(delay) => AllDigits(delay)
    case Frame(id, event, data) => NoNewline(id) && '\0' !in id && NoNewline(event) && event != "" && NoNewline(data)
    case Ping => true
  }

  function Texts(items: seq<Item>): string {
    if items == [] then "" else Text(items[0]) + Texts(items[1..])
  }

  function FrameOf(item: Item): seq<SseEvent> {
    match item
    case Frame(id, event, data) => [SseEvent(Some(id), event, data)]
    case _ => []
  }

  /** The frames themselves, as events. */
  function FramesOf(items: seq<Item>): seq<SseEvent> {
    if items == [] then [] else FrameOf(items[0]) + FramesOf(items[1..])
  }

  /** The id of the last frame among the items, or what it was before them. */
  function LastIdOf(items: seq<Item>, before: Option<string>): Option<string> {
    if items == [] then before
    else LastIdOf(items[1..], if items[0].Frame? then Some(items[0].id) else before)
  }

  /** Between events: nothing buffered, nothing gathered. */
  predicate AtRest(p: Parser) { p.buffer == "" && p.data == [] && p.event == "" }

  lemma LineEndAt(line: string, rest: string)
    requires NoNewline(line)
    ensures LineEnd(line + "\n" + rest) == |line|
  {
    var s := line + "\n" + rest;
    if line != "" {
      assert s[1..] == line[1..] + "\n" + rest;
      LineEndAt(line[1..], rest);
    }
  }

  lemma ColonAfterName(name: string, value: string)
    requires ':' !in name
    ensures Colon(name + ": " + value) == |name|
  {
    var s := name + ": " + value;
    if name != "" {
      assert s[1..] == name[1..] + ": " + value;
      ColonAfterName(name[1..], value);
    }
  }

  lemma FieldOf(name: string, value: string)
    requires name != "" && ':' !in name
    ensures FieldName(name + ": " + value) == name && FieldValue(name + ": " + value) == value
  {
    var line := name + ": " + value;
    ColonAfterName(name, value);
    assert line[|name| + 1..] == " " + value;
  }

  /** Draining a buffer that starts with a whole line applies that line first. */
  lemma DrainLine(p: Parser, line: string, rest: string)
    requires NoNewline(line) && p.buffer == line + "\n" + rest
    ensures var (q, out) := ApplyLine(p.(buffer := rest), line);
            Drain(p) == (Drain(q).0, out + Drain(q).1)
  {
    hide ApplyLine;
    LineEndAt(line, rest);
    assert p.buffer[..|line|] == line;
    assert p.buffer[|line| + 1..] == rest;
    assert Rest(p) == p.(buffer := rest);
  }

  lemma DrainField(p: Parser, field: string, value: string, rest: string)
    requires field != "" && ':' !in field && NoNewline(field) && NoNewline(value) && p.buffer == Line(field, value) + rest
    ensures Drain(p) == Drain(ApplyField(p.(buffer := rest), field, value))
  {
    hide Drain, ApplyField, FieldName, FieldValue;
    var line := field + ": " + value;
    FieldOf(field, value);
    assert line[0] == field[0];
    assert p.buffer == line + "\n" + rest;
    DrainLine(p, line, rest);
    var q := ApplyField(p.(buffer := rest), field, value);
    assert [] + Drain(q).1 == Drain(q).1;
  }

  lemma DrainBlank(p: Parser, rest: string)
    requires p.buffer == "\n" + rest
    ensures var (q, out) := Dispatch(p.(buffer := rest));
            Drain(p) == (Drain(q).0, out + Drain(q).1)
  {
    hide Drain;
    assert p.buffer == "" + "\n" + rest;
    DrainLine(p, "", rest);
  }

  lemma DrainPing(p: Parser, rest: string)
    requires p.buffer == Line("", "ping") + rest
    ensures Drain(p) == Drain(p.(buffer := rest))
  {
    hide Drain, ApplyField, FieldName, FieldValue;
    var line := "" + ": " + "ping";
    assert line[0] == ':';
    assert p.buffer == line + "\n" + rest;
    DrainLine(p, line, rest);
    assert [] + Drain(p.(buffer := rest)).1 == Drain(p.(buffer := rest)).1;
  }

  /** Where taking in one item leaves a parser that is between events. */
  function Taken(p: Parser, item: Item, rest: string): Parser {
    match item
    case Retry(delay) => if AllDigits(delay) then p.(buffer := rest, retryMs := Some(Decimal(delay))) else p.(buffer := rest)
    case Frame(id, event, data) => p.(buffer := rest, id := Some(id), lastId := Some(id))
    case Ping => p.(buffer := rest)
  }

  /** Taking in one item gives its frame, if it is one, and comes to rest again. */
  lemma DrainItem(p: Parser, item: Item, rest: string)
    requires p.data == [] && p.event == "" && Sendable(item) && p.buffer == Text(item) + rest
    ensures var q := Taken(p, item, rest);
            Drain(p) == (Drain(q).0, FrameOf(item) + Drain(q).1)
  {
    hide Drain, Line;
    match item {
      case Retry(delay) =>
        DrainField(p, "retry", delay, rest);
        assert [] + Drain(Taken(p, item, rest)).1 == Drain(Taken(p, item, rest)).1;
      case Ping =>
        assert p.buffer == Line("", "ping") + ("\n" + rest);
        DrainPing(p, "\n" + rest);
        DrainBlank(p.(buffer := "\n" + rest), rest);
        assert p.(buffer := rest, data := [], event := "") == p.(buffer := rest);
      case Frame(id, event, data) =>
        var rest3 := "\n" + rest;
        var rest2 := Line("data", data) + rest3;
        var rest1 := Line("event", event) + rest2;
        assert p.buffer == Line("id", id) + rest1;
        DrainField(p, "id", id, rest1);
        var p1 := p.(buffer := rest1, id := Some(id), lastId := Some(id));
        DrainField(p1, "event", event, rest2);
        var p2 := p1.(buffer := rest2, event := event);
        DrainField(p2, "data", data, rest3);
        var p3 := p2.(buffer := rest3, data := [data]);
        assert p2.data + [data] == [data];
        DrainBlank(p3, rest);
        assert Join([data]) == data;
    }
  }

  lemma {:induction false} DrainItems(p: Parser, items: seq<Item>)
    requires p.data == [] && p.event == "" && p.buffer == Texts(items)
    requires forall i :: 0 <= i < |items| ==> Sendable(items[i])
    ensures Drain(p).1 == FramesOf(items) && AtRest(Drain(p).0)
    ensures Drain(p).0.lastId == LastIdOf(items, p.lastId)
    decreases |items|
  {
    hide Text, ApplyLine, Rest;
    if items != [] {
      DrainItem(p, items[0], Texts(items[1..]));
      DrainItems(Taken(p, items[0], Texts(items[1..])), items[1..]);
    }
  }

  /** No chunk boundary falls between a CR and its LF. */
  predicate CutsCleanly(chunks: seq<string>) {
    chunks != [] ==> !CutsCrLf(chunks[0], Concat(chunks[1..])) && CutsCleanly(chunks[1..])
  }

  lemma {:induction false} ChunkingIsIrrelevant(p: Parser, chunks: seq<string>)
    requires NoNewline(p.buffer) && CutsCleanly(chunks)
    ensures FedAll(p, chunks) == if chunks == [] then (p, []) else Fed(p, Concat(chunks))
    decreases |chunks|
  {
    hide Drain, CutsCrLf;
    if chunks != [] {
      var a, b := chunks[0], Concat(chunks[1..]);
      FeedIsHomomorphism(p, a, b);
      var (q, _) := Fed(p, a);
      DrainLeavesNoNewline(p.(buffer := p.buffer + a));
      ChunkingIsIrrelevant(q, chunks[1..]);
      if |chunks| == 1 {
        assert a + b == a;
      }
    }
  }

  lemma {:induction false} WithoutCrCutsCleanly(chunks: seq<string>)
    requires '\r' !in Concat(chunks)
    ensures CutsCleanly(chunks)
  {
    if chunks != [] {
      var a, b := chunks[0], Concat(chunks[1..]);
      assert forall i :: 0 <= i < |b| ==> b[i] == (a + b)[|a| + i];
      assert a != "" ==> a[|a| - 1] == (a + b)[|a| - 1];
      WithoutCrCutsCleanly(chunks[1..]);
    }
  }

  lemma ItemHasNoCr(item: Item)
    requires Sendable(item)
    ensures Text(item) != "" && '\r' !in Text(item)
  {
    match item {
      case Retry(delay) => LineHasNoCr("retry", delay);
      case Ping => LineHasNoCr("", "ping");
      case Frame(id, event, data) =>
        LineHasNoCr("id", id);
        LineHasNoCr("event", event);
        LineHasNoCr("data", data);
        hide Line;
    }
  }

  lemma LineHasNoCr(field: string, value: string)
    requires '\r' !in field && '\r' !in value
    ensures Line(field, value) != "" && '\r' !in Line(field, value)
  {
  }

  lemma {:induction false} ItemsHaveNoCr(items: seq<Item>)
    requires forall i :: 0 <= i < |items| ==> Sendable(items[i])
    ensures '\r' !in Texts(items) && (Texts(items) == "" ==> items == [])
  {
    hide Text, Sendable;
    if items != [] {
      ItemHasNoCr(items[0]);
      ItemsHaveNoCr(items[1..]);
    }
  }

  /** However the server's output is cut into chunks, the parser returns exactly the frames sent. */
  lemma FramesSurviveChunking(items: seq<Item>, chunks: seq<string>)
    requires forall i :: 0 <= i < |items| ==> Sendable(items[i])
    requires Concat(chunks) == Texts(items)
    ensures FedAll(NEW_PARSER, chunks).1 == FramesOf(items) && AtRest(FedAll(NEW_PARSER, chunks).0)
  {
    ItemsHaveNoCr(items);
    WithoutCrCutsCleanly(chunks);
    ChunkingIsIrrelevant(NEW_PARSER, chunks);
    if chunks != [] {
      assert "" + Concat(chunks) == Concat(chunks);
      DrainItems(NEW_PARSER.(buffer := Texts(items)), items);
    }
  }

  // ----- Cuts inside a frame -----

  lemma NoLineYet(p: Parser)
    requires NoNewline(p.buffer)
    ensures Drain(p) == (p, [])
  {
    assert LineEnd(p.buffer) == |p.buffer|;
  }

  lemma PartOfLine(field: string, value: string, k: nat)
    requires NoNewline(field) && NoNewline(value) && k < |Line(field, value)|
    ensures NoNewline(Line(field, value)[..k])
  {
  }

  /** A cut inside a field's line leaves it buffered; a later cut lets the field be set. */
  lemma CutLine(p: Parser, field: string, value: string, tail: string, k: nat)
    requires field != "" && ':' !in field && NoNewline(field) && NoNewline(value) && k <= |Line(field, value) + tail|
    ensures var cut := p.(buffer := (Line(field, value) + tail)[..k]);
            Drain(cut) == if k < |Line(field, value)| then (cut, [])
                          else Drain(ApplyField(p.(buffer := tail[..k - |Line(field, value)|]), field, value))
  {
    hide Drain, Line, ApplyField, NoNewline;
    var line := Line(field, value);
    var cut := p.(buffer := (line + tail)[..k]);
    if k < |line| {
      PartOfLine(field, value, k);
      assert (line + tail)[..k] == line[..k];
      NoLineYet(cut);
    } else {
      assert (line + tail)[..k] == line + tail[..k - |line|];
      DrainField(cut, field, value, tail[..k - |line|]);
    }
  }

  /**
   * A connection cut inside a frame dispatches nothing, yet the id to resume from has already
   * moved to the frame's exactly if the cut comes after the id line.
   */
  lemma CutInsideFrame(p: Parser, id: string, event: string, data: string, k: nat)
    requires AtRest(p) && Sendable(Frame(id, event, data)) && k < |Text(Frame(id, event, data))|
    ensures var (q, out) := Fed(p, Text(Frame(id, event, data))[..k]);
            out == [] && q.lastId == if k < |Line("id", id)| then p.lastId else Some(id)
  {
    hide Drain, Line, NoNewline;
    var t := Text(Frame(id, event, data));
    var a, b, c := Line("id", id), Line("event", event), Line("data", data);
    assert p.buffer + t[..k] == t[..k];
    assert t == a + (b + (c + "\n"));
    PlainNames();
    CutLine(p, "id", id, b + (c + "\n"), k);
    if k >= |a| {
      var p1 := p.(id := Some(id), lastId := Some(id));
      CutLine(p1, "event", event, c + "\n", k - |a|);
      if k >= |a| + |b| {
        var p2 := p1.(event := event);
        CutLine(p2, "data", data, "\n", k - |a| - |b|);
        assert "\n"[..0] == "";
        NothingToDrain(p2.(buffer := "", data := p2.data + [data]));
      }
    }
  }

  /** The same after any items sent before, and however all of it is cut into chunks. */
  lemma CutStream(items: seq<Item>, id: string, event: string, data: string, k: nat, chunks: seq<string>)
    requires forall i :: 0 <= i < |items| ==> Sendable(items[i])
    requires Sendable(Frame(id, event, data)) && k < |Text(Frame(id, event, data))|
    requires Concat(chunks) == Texts(items) + Text(Frame(id, event, data))[..k]
    ensures var (q, out) := FedAll(NEW_PARSER, chunks);
            out == FramesOf(items) && q.lastId == if k < |Line("id", id)| then LastIdOf(items, None) else Some(id)
  {
    hide Drain, Text, Sendable, ApplyLine, Line, Texts, LastIdOf, CutsCrLf, CutsCleanly, Concat;
    var t, cut := Texts(items), Text(Frame(id, event, data))[..k];
    CutHasNoCr(items, Frame(id, event, data), k);
    WithoutCrCutsCleanly(chunks);
    ChunkingIsIrrelevant(NEW_PARSER, chunks);
    if chunks == [] {
      NoChunksNoItems(items, cut);
      IdLineIsNotEmpty(id);
    } else {
      FeedIsHomomorphism(NEW_PARSER, t, cut);
      assert "" + t == t;
      DrainItems(NEW_PARSER.(buffer := t), items);
      var (q, out) := Fed(NEW_PARSER, t);
      CutInsideFrame(q, id, event, data, k);
      assert out + [] == out;
    }
  }

  lemma CutHasNoCr(items: seq<Item>, item: Item, k: nat)
    requires forall i :: 0 <= i < |items| ==> Sendable(items[i])
    requires Sendable(item) && k <= |Text(item)|
    ensures '\r' !in Texts(items) + Text(item)[..k] && !CutsCrLf(Texts(items), Text(item)[..k])
  {
    hide Text, Texts, Sendable;
    ItemsHaveNoCr(items);
    ItemHasNoCr(item);
  }

  lemma NoChunksNoItems(items: seq<Item>, cut: string)
    requires Texts(items) + cut == Concat([]) && forall i :: 0 <= i < |items| ==> Sendable(items[i])
    ensures items == [] && cut == "" && FramesOf(items) == [] && LastIdOf(items, None) == None
  {
    hide Text, Sendable;
    assert |Texts(items) + cut| == 0;
    ItemsHaveNoCr(items);
  }

  lemma IdLineIsNotEmpty(id: string)
    ensures |Line("id", id)| > 0
  {
  }

  lemma PlainNames()
    ensures forall name :: name in ["id", "event", "data"] ==> name != "" && ':' !in name && NoNewline(name)
  {
  }

  lemma NothingToDrain(p: Parser)
    requires p.buffer == ""
    ensures Drain(p) == (p, [])
  {
  }
}
