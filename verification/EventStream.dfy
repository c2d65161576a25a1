/**
 * What an event stream says, line by line (section 9.2.6 of the WHATWG HTML standard), and that the
 * incremental parser says the same, whatever the line ends are and wherever the text is cut.
 */
module EventStream {
  import opened Domain
  import opened Numerals
  import opened Sse

  // ----- What the lines say -----

  predicate Sets(line: string, field: string) { line != "" && line[0] != ':' && FieldName(line) == field }

  /** The data gathered since the last blank line. */
  function DataOf(lines: seq<string>): seq<string> {
    if lines == [] || lines[|lines| - 1] == "" then []
    else
      var last := lines[|lines| - 1];
      DataOf(lines[..|lines| - 1]) + (if Sets(last, "data") then [FieldValue(last)] else [])
  }

  /** The event's name: the last one given since the last blank line, or none. */
  function NameOf(lines: seq<string>): string {
    if lines == [] || lines[|lines| - 1] == "" then ""
    else if Sets(lines[|lines| - 1], "event") then FieldValue(lines[|lines| - 1])
    else NameOf(lines[..|lines| - 1])
  }

  /** The last id given so far, unless it has a NUL; it outlives the events. */
  function IdOf(lines: seq<string>): Option<string> {
    if lines == [] then None
    else
      var last := lines[|lines| - 1];
      if Sets(last, "id") && '\0' !in FieldValue(last) then Some(FieldValue(last)) else IdOf(lines[..|lines| - 1])
  }

  /** The last reconnect delay given so far, if it is a number. */
  function DelayOf(lines: seq<string>): Option<nat> {
    if lines == [] then None
    else
      var last := lines[|lines| - 1];
      if Sets(last, "retry") && AllDigits(FieldValue(last)) then Some(Decimal(FieldValue(last))) else DelayOf(lines[..|lines| - 1])
  }

  /** A blank line is an event exactly if data or a name was gathered before it. */
  function EventsOf(lines: seq<string>): seq<SseEvent> {
    if lines == [] then []
    else
      var before := lines[..|lines| - 1];
      EventsOf(before)
      + (if lines[|lines| - 1] == "" && (DataOf(before) != [] || NameOf(before) != "")
         then [SseEvent(IdOf(before), if NameOf(before) == "" then "message" else NameOf(before), Join(DataOf(before)))]
         else [])
  }

  function StateOf(lines: seq<string>, buffer: string): Parser {
    Parser(buffer, DataOf(lines), NameOf(lines), IdOf(lines), IdOf(lines), DelayOf(lines))
  }

  /** One line more. */
  lemma LineSays(lines: seq<string>, line: string, buffer: string)
    ensures var (q, out) := ApplyLine(StateOf(lines, buffer), line);
            q == StateOf(lines + [line], buffer) && EventsOf(lines + [line]) == EventsOf(lines) + out
  {
    hide FieldName, FieldValue, Join, AllDigits, Decimal;
    assert (lines + [line])[..|lines|] == lines;
    assert DataOf(lines) + [] == DataOf(lines);
  }

  // ----- Text -----

  datatype Ending = Lf | CrLf | Cr

  function End(e: Ending): string {
    match e case Lf => "\n" case CrLf => "\r\n" case Cr => "\r"
  }

  datatype Ended = Ended(line: string, end: Ending)

  function Written(lines: seq<Ended>): string {
    if lines == [] then "" else lines[0].line + End(lines[0].end) + Written(lines[1..])
  }

  function Lines(lines: seq<Ended>): (r: seq<string>)
    ensures |r| == |lines|
  {
    if lines == [] then [] else [lines[0].line] + Lines(lines[1..])
  }

  /** No line has a line end inside, and no CR is followed by a line feed that is meant as a line end of its own. */
  predicate Unambiguous(lines: seq<Ended>) {
    && (forall i :: 0 <= i < |lines| ==> NoNewline(lines[i].line))
    && (forall i :: 0 <= i < |lines| - 1 ==> !(lines[i].end == Cr && lines[i + 1] == Ended("", Lf)))
  }

  lemma LineEndBefore(line: string, rest: string)
    requires NoNewline(line) && rest != "" && IsNewline(rest[0])
    ensures LineEnd(line + rest) == |line|
  {
    if line != "" {
      assert (line + rest)[1..] == line[1..] + rest;
      LineEndBefore(line[1..], rest);
    }
  }

  lemma TakesLine(p: Parser, first: Ended, rest: string)
    requires NoNewline(first.line) && p.buffer == first.line + End(first.end) + rest
    requires first.end == Cr ==> rest == "" || rest[0] != '\n'
    ensures LineEnd(p.buffer) == |first.line| < |p.buffer| && p.buffer[..|first.line|] == first.line
    ensures Rest(p) == p.(buffer := rest)
  {
    var after := End(first.end) + rest;
    assert p.buffer == first.line + after;
    LineEndBefore(first.line, after);
    assert p.buffer[|first.line| + |End(first.end)|..] == rest;
  }

  lemma WhatFollows(lines: seq<Ended>, tail: string)
    requires Unambiguous(lines) && NoNewline(tail) && lines != []
    ensures Unambiguous(lines[1..])
    ensures var rest := Written(lines[1..]) + tail;
            lines[0].end == Cr ==> rest == "" || rest[0] != '\n'
  {
    assert forall i :: 0 <= i < |lines| - 1 ==> lines[1..][i] == lines[i + 1];
    if |lines| > 1 && lines[1].line != "" { assert !IsNewline(lines[1].line[0]); }
  }

  /** The parser takes the lines one by one, and keeps what is no whole line yet. */
  lemma {:induction false} DrainSays(done: seq<string>, lines: seq<Ended>, tail: string)
    requires Unambiguous(lines) && NoNewline(tail)
    ensures var (q, out) := Drain(StateOf(done, Written(lines) + tail));
            q == StateOf(done + Lines(lines), tail) && EventsOf(done + Lines(lines)) == EventsOf(done) + out
    decreases |lines|
  {
    hide Drain, ApplyLine, StateOf, EventsOf, Unambiguous, End, NoNewline;
    var p := StateOf(done, Written(lines) + tail);
    if lines == [] {
      StateHasBuffer(done, Written(lines) + tail, tail);
      assert done + Lines(lines) == done && Written(lines) + tail == tail;
      NoLineYet(p);
      assert EventsOf(done) + [] == EventsOf(done);
    } else {
      var first, rest := lines[0], Written(lines[1..]) + tail;
      StateHasBuffer(done, Written(lines) + tail, rest);
      FirstIsOneLine(lines);
      WhatFollows(lines, tail);
      assert p.buffer == first.line + End(first.end) + rest;
      DrainFirst(p, first, rest);
      LineSays(done, first.line, rest);
      DrainSays(done + [first.line], lines[1..], tail);
      assert done + [first.line] + Lines(lines[1..]) == done + Lines(lines);
    }
  }

  lemma DrainFirst(p: Parser, first: Ended, rest: string)
    requires NoNewline(first.line) && p.buffer == first.line + End(first.end) + rest
    requires first.end == Cr ==> rest == "" || rest[0] != '\n'
    ensures var (q, out) := ApplyLine(p.(buffer := rest), first.line);
            Drain(p) == (Drain(q).0, out + Drain(q).1)
  {
    hide ApplyLine, Rest, End;
    TakesLine(p, first, rest);
  }

  lemma StateHasBuffer(lines: seq<string>, a: string, b: string)
    ensures StateOf(lines, a).buffer == a && StateOf(lines, a).(buffer := b) == StateOf(lines, b)
  {
  }

  lemma FirstIsOneLine(lines: seq<Ended>)
    requires Unambiguous(lines) && lines != []
    ensures NoNewline(lines[0].line)
  {
  }

  lemma WrittenIsSomething(lines: seq<Ended>)
    ensures Written(lines) == "" ==> lines == []
  {
  }

  /**
   * However the lines are ended and wherever the text is cut, except between a CR and its LF, the parser
   * returns exactly the events the whole lines say, and is left with what is gathered since.
   */
  lemma ParserSaysWhatLinesSay(lines: seq<Ended>, tail: string, chunks: seq<string>)
    requires Unambiguous(lines) && NoNewline(tail)
    requires Concat(chunks) == Written(lines) + tail && CutsCleanly(chunks)
    ensures FedAll(NEW_PARSER, chunks) == (StateOf(Lines(lines), tail), EventsOf(Lines(lines)))
  {
    hide Drain, EventsOf;
    ChunkingIsIrrelevant(NEW_PARSER, chunks);
    NothingSaidYet();
    var text := Written(lines) + tail;
    if chunks == [] {
      assert |text| == 0;
      WrittenIsSomething(lines);
      assert tail == "";
    } else {
      assert "" + text == text;
      DrainSays([], lines, tail);
      assert [] + Lines(lines) == Lines(lines);
      assert [] + Drain(StateOf([], text)).1 == Drain(StateOf([], text)).1;
    }
  }

  lemma NothingSaidYet()
    ensures EventsOf([]) == [] && forall buffer :: StateOf([], buffer) == NEW_PARSER.(buffer := buffer)
  {
  }

  // ----- One line -----

  lemma ColonAt(name: string, rest: string)
    requires ':' !in name
    ensures Colon(name + ":" + rest) == |name| && Colon(name) == |name|
  {
    if name != "" {
      assert (name + ":" + rest)[1..] == name[1..] + ":" + rest;
      ColonAt(name[1..], rest);
    }
  }

  /** A field is what stands before the first colon, its value what stands after it, without one leading space. */
  lemma FieldIsRead(name: string, value: string)
    requires ':' !in name
    ensures FieldName(name + ":" + value) == name && FieldName(name) == name && FieldValue(name) == ""
    ensures FieldValue(name + ":" + value) == if value != "" && value[0] == ' ' then value[1..] else value
  {
    var line := name + ":" + value;
    ColonAt(name, value);
    assert line[..|name|] == name && line[|name| + 1..] == value && name[..|name|] == name;
  }
}
