/** Decimal numerals as the stream writes and reads them. */
module Numerals {
  import opened Domain

  predicate IsDigit(c: char) { '0' <= c <= '9' }

  predicate AllDigits(s: string) { s != "" && forall i :: 0 <= i < |s| ==> IsDigit(s[i]) }

  function Decimal(s: string): nat
    requires forall i :: 0 <= i < |s| ==> IsDigit(s[i])
  {
    if s == "" then 0
    else
      assert IsDigit(s[|s| - 1]);
      10 * Decimal(s[..|s| - 1]) + (s[|s| - 1] as int - '0' as int)
  }

  /** The shortest numeral for n. */
  function Digits(n: nat): (s: string)
    ensures AllDigits(s) && (n > 0 ==> s[0] != '0')
  {
    if n < 10 then [('0' as int + n) as char] else Digits(n / 10) + [('0' as int + n % 10) as char]
  }

  lemma {:induction false} DecimalOfDigits(n: nat)
    ensures Decimal(Digits(n)) == n
  {
    var s := Digits(n);
    if n >= 10 {
      assert s[..|s| - 1] == Digits(n / 10);
      DecimalOfDigits(n / 10);
    } else {
      assert s[..|s| - 1] == "";
    }
  }

  // ----- Python's int() on Latin-1 text -----

  predicate IsSpace(c: char) {
    var n := c as int;
    0x09 <= n <= 0x0d || 0x1c <= n <= 0x20 || n == 0x85 || n == 0xa0
  }

  function Strip(s: string): (t: string)
    ensures t != "" ==> !IsSpace(t[0]) && !IsSpace(t[|t| - 1])
    decreases |s|
  {
    if s == "" then ""
    else if IsSpace(s[0]) then Strip(s[1..])
    else if IsSpace(s[|s| - 1]) then Strip(s[..|s| - 1])
    else s
  }

  /** Digits, with single underscores allowed between them. */
  predicate Grouped(s: string) {
    && s != ""
    && IsDigit(s[|s| - 1])
    && (|s| == 1 || Grouped(s[..|s| - 1]) || (s[|s| - 2] == '_' && Grouped(s[..|s| - 2])))
  }

  function GroupedValue(s: string): nat {
    if s == "" then 0
    else if IsDigit(s[|s| - 1]) then 10 * GroupedValue(s[..|s| - 1]) + (s[|s| - 1] as int - '0' as int)
    else GroupedValue(s[..|s| - 1])
  }

  function ParseInt(s: string): Option<int> {
    var t := Strip(s);
    var signed := t != "" && (t[0] == '-' || t[0] == '+');
    var body := if signed then t[1..] else t;
    var value: int := GroupedValue(body);
    if !Grouped(body) then None else Some(if signed && t[0] == '-' then -value else value)
  }

  lemma {:induction false} GroupedDigits(s: string)
    requires AllDigits(s)
    ensures Grouped(s) && GroupedValue(s) == Decimal(s)
  {
    if |s| > 1 {
      GroupedDigits(s[..|s| - 1]);
    } else {
      assert s[..|s| - 1] == "";
    }
  }

  /** What str() writes, int() reads back. */
  lemma ParseIntOfDigits(n: nat)
    ensures ParseInt(Digits(n)) == Some(n)
  {
    var s := Digits(n);
    assert IsDigit(s[0]) && IsDigit(s[|s| - 1]);
    GroupedDigits(s);
    DecimalOfDigits(n);
  }

  // ----- Everything int() reads -----

  predicate AllSpace(s: string) { forall i :: 0 <= i < |s| ==> IsSpace(s[i]) }

  lemma {:induction false} StripTakesSpace(before: string, t: string, after: string)
    requires AllSpace(before) && AllSpace(after) && t != "" && !IsSpace(t[0]) && !IsSpace(t[|t| - 1])
    ensures Strip(before + t + after) == t
    decreases |before| + |after|
  {
    var s := before + t + after;
    if before != "" {
      assert s[1..] == before[1..] + t + after;
      StripTakesSpace(before[1..], t, after);
    } else if after != "" {
      assert s[..|s| - 1] == before + t + after[..|after| - 1];
      StripTakesSpace(before, t, after[..|after| - 1]);
    } else {
      assert s == t;
    }
  }

  function Concatenated(groups: seq<string>): string {
    if groups == [] then "" else Concatenated(groups[..|groups| - 1]) + groups[|groups| - 1]
  }

  function Underscored(groups: seq<string>): string {
    if groups == [] then ""
    else if |groups| == 1 then groups[0]
    else Underscored(groups[..|groups| - 1]) + "_" + groups[|groups| - 1]
  }

  /** More digits behind a grouped numeral, or behind it and an underscore. */
  lemma {:induction false} DigitsBehind(start: string, digits: string)
    requires AllDigits(digits) && Grouped(start)
    ensures Grouped(start + digits) && Grouped(start + "_" + digits)
    ensures GroupedValue(start + "_" + digits) == GroupedValue(start + digits)
    decreases |digits|
  {
    var last := digits[|digits| - 1];
    assert IsDigit(last);
    var shorter := digits[..|digits| - 1];
    var a, b := start + digits, start + "_" + digits;
    assert a[..|a| - 1] == start + shorter && b[..|b| - 1] == start + "_" + shorter;
    if shorter == "" {
      assert start + shorter == start && b[..|b| - 2] == start;
      assert b[|b| - 2] == '_';
      assert (start + "_" + shorter)[..|start|] == start;
      assert GroupedValue(start + "_" + shorter) == GroupedValue(start) by {
        var c := start + "_" + shorter;
        assert c == start + "_" && c[..|c| - 1] == start && !IsDigit(c[|c| - 1]);
      }
    } else {
      DigitsBehind(start, shorter);
    }
  }

  lemma {:induction false} GroupsAreRead(groups: seq<string>)
    requires groups != [] && forall i :: 0 <= i < |groups| ==> AllDigits(groups[i])
    ensures Grouped(Underscored(groups)) && AllDigits(Concatenated(groups))
    ensures GroupedValue(Underscored(groups)) == GroupedValue(Concatenated(groups))
    decreases |groups|
  {
    var before, last := groups[..|groups| - 1], groups[|groups| - 1];
    if |groups| == 1 {
      assert Concatenated(before) + last == last;
      GroupedDigits(last);
    } else {
      GroupsAreRead(before);
      GroupedDigits(Concatenated(before));
      DigitsBehind(Underscored(before), last);
      SameValueBehind(Underscored(before), Concatenated(before), last);
    }
  }

  lemma {:induction false} SameValueBehind(a: string, b: string, digits: string)
    requires GroupedValue(a) == GroupedValue(b) && forall i :: 0 <= i < |digits| ==> IsDigit(digits[i])
    ensures GroupedValue(a + digits) == GroupedValue(b + digits)
    decreases |digits|
  {
    if digits == "" {
      assert a + digits == a && b + digits == b;
    } else {
      var shorter := digits[..|digits| - 1];
      assert (a + digits)[..|a + digits| - 1] == a + shorter && (b + digits)[..|b + digits| - 1] == b + shorter;
      SameValueBehind(a, b, shorter);
    }
  }

  lemma {:induction false} GroupedEnds(s: string)
    requires Grouped(s)
    ensures s != "" && IsDigit(s[0]) && IsDigit(s[|s| - 1])
  {
    if |s| > 1 {
      if Grouped(s[..|s| - 1]) { GroupedEnds(s[..|s| - 1]); } else { GroupedEnds(s[..|s| - 2]); }
    }
  }

  function Signed(sign: string, n: int): int { if sign == "-" then -n else n }

  lemma ParseStripped(s: string, sign: string, body: string)
    requires sign in ["", "+", "-"] && Grouped(body) && body != "" && IsDigit(body[0])
    requires Strip(s) == sign + body
    ensures ParseInt(s) == Some(Signed(sign, GroupedValue(body)))
  {
    hide Strip, Grouped, GroupedValue;
    var t := sign + body;
    assert t[0] == if sign == "" then body[0] else sign[0];
    if sign == "" { assert t == body; } else { assert t[1..] == body; }
  }

  /** White space around it, a sign before it and single underscores between its digits do not change what a numeral says. */
  lemma ParseIntReadsAllForms(before: string, sign: string, groups: seq<string>, after: string)
    requires AllSpace(before) && AllSpace(after) && sign in ["", "+", "-"]
    requires groups != [] && forall i :: 0 <= i < |groups| ==> AllDigits(groups[i])
    ensures AllDigits(Concatenated(groups))
    ensures ParseInt(before + (sign + Underscored(groups)) + after) == Some(Signed(sign, Decimal(Concatenated(groups))))
  {
    hide Strip, Grouped, GroupedValue, Decimal, Underscored, Concatenated, ParseInt, Signed;
    var body := Underscored(groups);
    GroupsAreRead(groups);
    GroupedDigits(Concatenated(groups));
    GroupedEnds(body);
    var t := sign + body;
    assert t[|t| - 1] == body[|body| - 1] && t[0] == if sign == "" then body[0] else sign[0];
    StripTakesSpace(before, t, after);
    ParseStripped(before + t + after, sign, body);
  }
}
