/** Fitting a summary into a bounded number of characters by halving its largest lists. */
module Compress {
  import opened Domain

  /** JSON data; a number is its text. */
  datatype Json =
    | Null
    | Bool(b: bool)
    | Num(text: string)
    | Str(s: string)
    | Arr(items: seq<Json>)
    | Obj(fields: seq<Field>)

  datatype Field = Field(key: string, value: Json)

  const MAX_STRING := 300

  // ----- The length of the canonical JSON text -----

  /** Quotes, backslashes and control characters are escaped. */
  function Width(c: char): nat {
    if c == '"' || c == '\\' then 2
    else if c as int >= 0x20 then 1
    else if c as int in [0x08, 0x09, 0x0a, 0x0c, 0x0d] then 2
    else 6
  }

  function Quoted(s: string): nat {
    if s == "" then 2 else Width(s[0]) + Quoted(s[1..])
  }

  function Size(j: Json): (n: nat)
    ensures j.Arr? || j.Obj? ==> n >= 2
    decreases j
  {
    match j
    case Null => 4
    case Bool(b) => if b then 4 else 5
    case Num(text) => |text|
    case Str(s) => Quoted(s)
    case Arr(items) => if items == [] then 2 else 1 + ItemsSize(items)
    case Obj(fields) => if fields == [] then 2 else 1 + FieldsSize(fields)
  }

  /** Each item with the comma or bracket after it. */
  function ItemsSize(items: seq<Json>): (n: nat)
    ensures n >= |items|
    decreases items
  {
    if items == [] then 0 else Size(items[0]) + 1 + ItemsSize(items[1..])
  }

  function FieldsSize(fields: seq<Field>): (n: nat)
    ensures n >= |fields|
    decreases fields
  {
    if fields == [] then 0 else FieldSize(fields[0]) + 1 + FieldsSize(fields[1..])
  }

  function FieldSize(f: Field): nat
    decreases f, 0
  {
    Quoted(f.key) + 1 + Size(f.value)
  }

  // ----- The text itself -----

  const HEX := "0123456789abcdef"

  /** A character inside a JSON string. */
  function Escaped(c: char): (r: string)
    ensures |r| == Width(c)
  {
    if c == '"' then "\\\""
    else if c == '\\' then "\\\\"
    else if c as int >= 0x20 then [c]
    else if c as int == 0x08 then "\\b"
    else if c as int == 0x09 then "\\t"
    else if c as int == 0x0a then "\\n"
    else if c as int == 0x0c then "\\f"
    else if c as int == 0x0d then "\\r"
    else "\\u00" + [HEX[c as int / 16], HEX[c as int % 16]]
  }

  function EscapedText(s: string): string {
    if s == "" then "" else Escaped(s[0]) + EscapedText(s[1..])
  }

  function StringText(s: string): string { "\"" + EscapedText(s) + "\"" }

  /** The compact JSON text; the order of the keys, which are sorted in it, does not matter for its length. */
  function Text(j: Json): string
    decreases j
  {
    match j
    case Null => "null"
    case Bool(b) => if b then "true" else "false"
    case Num(text) => text
    case Str(s) => StringText(s)
    case Arr(items) => "[" + ItemsText(items) + "]"
    case Obj(fields) => "{" + FieldsText(fields) + "}"
  }

  function ItemsText(items: seq<Json>): string
    decreases items
  {
    if items == [] then "" else Text(items[0]) + (if |items| == 1 then "" else "," + ItemsText(items[1..]))
  }

  function FieldText(f: Field): string
    decreases f, 0
  {
    StringText(f.key) + ":" + Text(f.value)
  }

  function FieldsText(fields: seq<Field>): string
    decreases fields
  {
    if fields == [] then "" else FieldText(fields[0]) + (if |fields| == 1 then "" else "," + FieldsText(fields[1..]))
  }

  lemma {:induction false} QuotedIsLength(s: string)
    ensures |StringText(s)| == Quoted(s)
  {
    if s != "" {
      QuotedIsLength(s[1..]);
    }
  }

  /** The size is the length of the text. */
  lemma {:induction false} SizeIsTextLength(j: Json)
    ensures |Text(j)| == Size(j)
    decreases j
  {
    hide StringText, Quoted;
    match j {
      case Str(s) => QuotedIsLength(s);
      case Arr(items) => ItemsSizeIsTextLength(items);
      case Obj(fields) => FieldsSizeIsTextLength(fields);
      case _ =>
    }
  }

  lemma {:induction false} ItemsSizeIsTextLength(items: seq<Json>)
    ensures |ItemsText(items)| + (if items == [] then 0 else 1) == ItemsSize(items)
    decreases items
  {
    hide Text, Size;
    if items != [] {
      SizeIsTextLength(items[0]);
      ItemsSizeIsTextLength(items[1..]);
    }
  }

  lemma {:induction false} FieldsSizeIsTextLength(fields: seq<Field>)
    ensures |FieldsText(fields)| + (if fields == [] then 0 else 1) == FieldsSize(fields)
    decreases fields
  {
    hide Text, Size, StringText, Quoted;
    if fields != [] {
      QuotedIsLength(fields[0].key);
      SizeIsTextLength(fields[0].value);
      FieldsSizeIsTextLength(fields[1..]);
    }
  }

  // ----- Clipping strings -----

  function ClipText(s: string): (r: string)
    ensures |r| <= MAX_STRING
    ensures |s| <= MAX_STRING ==> r == s
    ensures |s| > MAX_STRING ==> r == s[..MAX_STRING - 1] + [0x2026 as char]
  {
    if |s| <= MAX_STRING then s else s[..MAX_STRING - 1] + [0x2026 as char]
  }

  function Clip(j: Json): Json
    decreases j
  {
    match j
    case Str(s) => Str(ClipText(s))
    case Arr(items) => Arr(ClipItems(items))
    case Obj(fields) => Obj(ClipFields(fields))
    case _ => j
  }

  function ClipItems(items: seq<Json>): (r: seq<Json>)
    ensures |r| == |items| && forall i :: 0 <= i < |items| ==> r[i] == Clip(items[i])
    decreases items
  {
    if items == [] then [] else [Clip(items[0])] + ClipItems(items[1..])
  }

  function ClipFields(fields: seq<Field>): (r: seq<Field>)
    ensures |r| == |fields| && forall i :: 0 <= i < |fields| ==> r[i] == Field(fields[i].key, Clip(fields[i].value))
    decreases fields
  {
    if fields == [] then [] else [Field(fields[0].key, Clip(fields[0].value))] + ClipFields(fields[1..])
  }

  // ----- Finding and cutting lists -----

  /** A list in a tree: the child positions that lead to it, and its items. */
  datatype Spot = Spot(path: seq<nat>, items: seq<Json>)

  function Below(k: nat, spots: seq<Spot>): (r: seq<Spot>)
    ensures |r| == |spots| && forall i :: 0 <= i < |spots| ==> r[i] == Spot([k] + spots[i].path, spots[i].items)
  {
    if spots == [] then [] else [Spot([k] + spots[0].path, spots[0].items)] + Below(k, spots[1..])
  }

  /** All lists, outer before inner, left to right. */
  function Lists(j: Json): seq<Spot>
    decreases j
  {
    match j
    case Arr(items) => [Spot([], items)] + ItemLists(items, 0)
    case Obj(fields) => FieldLists(fields, 0)
    case _ => []
  }

  function ItemLists(items: seq<Json>, from: nat): seq<Spot>
    decreases items
  {
    if items == [] then [] else Below(from, Lists(items[0])) + ItemLists(items[1..], from + 1)
  }

  function FieldLists(fields: seq<Field>, from: nat): seq<Spot>
    decreases fields
  {
    if fields == [] then [] else Below(from, Lists(fields[0].value)) + FieldLists(fields[1..], from + 1)
  }

  predicate IsListAt(j: Json, path: seq<nat>, items: seq<Json>)
    decreases |path|
  {
    if path == [] then j == Arr(items)
    else match j
         case Arr(all) => path[0] < |all| && IsListAt(all[path[0]], path[1..], items)
         case Obj(fields) => path[0] < |fields| && IsListAt(fields[path[0]].value, path[1..], items)
         case _ => false
  }

  /** The tree with the list at this path cut to its first n items. */
  function Cut(j: Json, path: seq<nat>, items: seq<Json>, n: nat): Json
    requires IsListAt(j, path, items) && n <= |items|
    decreases |path|
  {
    if path == [] then Arr(items[..n])
    else match j
         case Arr(all) => Arr(all[path[0] := Cut(all[path[0]], path[1..], items, n)])
         case Obj(fields) =>
           Obj(fields[path[0] := Field(fields[path[0]].key, Cut(fields[path[0]].value, path[1..], items, n))])
  }

  lemma {:induction false} ItemListsAreBelow(items: seq<Json>, from: nat, s: Spot)
    ensures s in ItemLists(items, from) <==>
            exists k: nat :: k < |items| && s.path != [] && s.path[0] == from + k && Spot(s.path[1..], s.items) in Lists(items[k])
    decreases |items|
  {
    if items != [] {
      InBelow(from, Lists(items[0]), s);
      ItemListsAreBelow(items[1..], from + 1, s);
      if s in ItemLists(items[1..], from + 1) {
        var k: nat :| k < |items[1..]| && s.path != [] && s.path[0] == from + 1 + k && Spot(s.path[1..], s.items) in Lists(items[1..][k]);
        assert items[1..][k] == items[k + 1];
      }
      if k: nat :| 0 < k < |items| && s.path != [] && s.path[0] == from + k && Spot(s.path[1..], s.items) in Lists(items[k]) {
        assert items[1..][k - 1] == items[k];
      }
    }
  }

  lemma {:induction false} FieldListsAreBelow(fields: seq<Field>, from: nat, s: Spot)
    ensures s in FieldLists(fields, from) <==>
            exists k: nat :: k < |fields| && s.path != [] && s.path[0] == from + k && Spot(s.path[1..], s.items) in Lists(fields[k].value)
    decreases |fields|
  {
    if fields != [] {
      InBelow(from, Lists(fields[0].value), s);
      FieldListsAreBelow(fields[1..], from + 1, s);
      if s in FieldLists(fields[1..], from + 1) {
        var k: nat :| k < |fields[1..]| && s.path != [] && s.path[0] == from + 1 + k && Spot(s.path[1..], s.items) in Lists(fields[1..][k].value);
        assert fields[1..][k] == fields[k + 1];
      }
      if k: nat :| 0 < k < |fields| && s.path != [] && s.path[0] == from + k && Spot(s.path[1..], s.items) in Lists(fields[k].value) {
        assert fields[1..][k - 1] == fields[k];
      }
    }
  }

  lemma InBelow(k: nat, spots: seq<Spot>, s: Spot)
    ensures s in Below(k, spots) <==> s.path != [] && s.path[0] == k && Spot(s.path[1..], s.items) in spots
  {
    var below := Below(k, spots);
    if s in below {
      var i :| 0 <= i < |below| && below[i] == s;
      assert s.path[1..] == spots[i].path;
      assert spots[i] == Spot(s.path[1..], s.items);
    }
    if s.path != [] && s.path[0] == k && Spot(s.path[1..], s.items) in spots {
      var i :| 0 <= i < |spots| && spots[i] == Spot(s.path[1..], s.items);
      assert [k] + spots[i].path == s.path;
      assert below[i] == s;
    }
  }

  /** The spots found are exactly the lists of the tree. */
  lemma {:induction false} ListsAreAllLists(j: Json, s: Spot)
    ensures s in Lists(j) <==> IsListAt(j, s.path, s.items)
    decreases |s.path|
  {
    var inner := if s.path == [] then s else Spot(s.path[1..], s.items);
    match j {
      case Arr(items) =>
        ItemListsAreBelow(items, 0, s);
        if s.path != [] && s.path[0] < |items| { ListsAreAllLists(items[s.path[0]], inner); }
      case Obj(fields) =>
        FieldListsAreBelow(fields, 0, s);
        if s.path != [] && s.path[0] < |fields| { ListsAreAllLists(fields[s.path[0]].value, inner); }
      case _ =>
    }
  }

  /** Outer before inner, and left before right. */
  predicate Earlier(a: seq<nat>, b: seq<nat>) {
    b != [] && (a == [] || a[0] < b[0] || (a[0] == b[0] && Earlier(a[1..], b[1..])))
  }

  predicate InOrder(spots: seq<Spot>) {
    forall i, k :: 0 <= i < k < |spots| ==> Earlier(spots[i].path, spots[k].path)
  }

  lemma OrderOfSum(a: seq<Spot>, b: seq<Spot>)
    requires InOrder(a) && InOrder(b)
    requires forall s, t :: s in a && t in b ==> Earlier(s.path, t.path)
    ensures InOrder(a + b)
  {
    hide Earlier;
    var all := a + b;
    forall i, k | 0 <= i < k < |all| ensures Earlier(all[i].path, all[k].path) {
      if k < |a| {
        assert Earlier(a[i].path, a[k].path);
      } else if i >= |a| {
        assert Earlier(b[i - |a|].path, b[k - |a|].path);
      } else {
        assert a[i] in a && b[k - |a|] in b;
      }
    }
  }

  lemma BelowInOrder(k: nat, spots: seq<Spot>)
    requires InOrder(spots)
    ensures InOrder(Below(k, spots)) && forall s :: s in Below(k, spots) ==> s.path != [] && s.path[0] == k
  {
    var below := Below(k, spots);
    forall i, j | 0 <= i < j < |below| ensures Earlier(below[i].path, below[j].path) {
      assert below[i].path[1..] == spots[i].path && below[j].path[1..] == spots[j].path;
    }
  }

  /** The lists are found in the order of their places. */
  lemma {:induction false} ListsInOrder(j: Json)
    ensures InOrder(Lists(j))
    decreases j
  {
    match j {
      case Arr(items) =>
        ItemListsInOrder(items, 0);
        OrderOfSum([Spot([], items)], ItemLists(items, 0));
      case Obj(fields) => FieldListsInOrder(fields, 0);
      case _ =>
    }
  }

  lemma {:induction false} ItemListsInOrder(items: seq<Json>, from: nat)
    ensures InOrder(ItemLists(items, from)) && forall s :: s in ItemLists(items, from) ==> s.path != [] && s.path[0] >= from
    decreases items
  {
    hide InOrder;
    if items == [] {
      NoneInOrder();
    } else {
      ListsInOrder(items[0]);
      BelowInOrder(from, Lists(items[0]));
      ItemListsInOrder(items[1..], from + 1);
      OrderOfSum(Below(from, Lists(items[0])), ItemLists(items[1..], from + 1));
    }
  }

  lemma {:induction false} FieldListsInOrder(fields: seq<Field>, from: nat)
    ensures InOrder(FieldLists(fields, from)) && forall s :: s in FieldLists(fields, from) ==> s.path != [] && s.path[0] >= from
    decreases fields
  {
    hide InOrder;
    if fields == [] {
      NoneInOrder();
    } else {
      ListsInOrder(fields[0].value);
      BelowInOrder(from, Lists(fields[0].value));
      FieldListsInOrder(fields[1..], from + 1);
      OrderOfSum(Below(from, Lists(fields[0].value)), FieldLists(fields[1..], from + 1));
    }
  }

  lemma NoneInOrder()
    ensures InOrder([])
  {
  }

  // ----- Truncation -----

  /** a is b with the tails of some lists gone: every key stays, and no list that had items is left empty. */
  predicate TruncationOf(a: Json, b: Json)
    decreases b
  {
    match b
    case Arr(items) =>
      && a.Arr? && |a.items| <= |items| && (items != [] ==> a.items != [])
      && forall i :: 0 <= i < |a.items| ==> TruncationOf(a.items[i], items[i])
    case Obj(fields) =>
      && a.Obj? && |a.fields| == |fields|
      && forall i :: 0 <= i < |fields| ==> a.fields[i].key == fields[i].key && TruncationOf(a.fields[i].value, fields[i].value)
    case _ => a == b
  }

  lemma {:induction false} TruncationOfItself(j: Json)
    ensures TruncationOf(j, j)
    decreases j
  {
    match j {
      case Arr(items) => forall i | 0 <= i < |items| ensures TruncationOf(items[i], items[i]) { TruncationOfItself(items[i]); }
      case Obj(fields) =>
        forall i | 0 <= i < |fields| ensures TruncationOf(fields[i].value, fields[i].value) { TruncationOfItself(fields[i].value); }
      case _ =>
    }
  }

  lemma {:induction false} TruncationsCompose(a: Json, b: Json, c: Json)
    requires TruncationOf(a, b) && TruncationOf(b, c)
    ensures TruncationOf(a, c)
    decreases c
  {
    match c {
      case Arr(items) =>
        forall i | 0 <= i < |a.items| ensures TruncationOf(a.items[i], items[i]) { TruncationsCompose(a.items[i], b.items[i], items[i]); }
      case Obj(fields) =>
        forall i | 0 <= i < |fields| ensures TruncationOf(a.fields[i].value, fields[i].value) {
          TruncationsCompose(a.fields[i].value, b.fields[i].value, fields[i].value);
        }
      case _ =>
    }
  }

  /** What stands at a path. */
  function NodeAt(j: Json, path: seq<nat>): Option<Json>
    decreases |path|
  {
    if path == [] then Some(j)
    else match j
         case Arr(items) => if path[0] < |items| then NodeAt(items[path[0]], path[1..]) else None
         case Obj(fields) => if path[0] < |fields| then NodeAt(fields[path[0]].value, path[1..]) else None
         case _ => None
  }

  /** The cut list has its first n items, what was below the others is gone, and everything beside it stays as it was. */
  lemma {:induction false} CutTouchesOneList(j: Json, path: seq<nat>, items: seq<Json>, n: nat, other: seq<nat>)
    requires IsListAt(j, path, items) && n <= |items|
    ensures NodeAt(Cut(j, path, items, n), path) == Some(Arr(items[..n]))
    ensures path < other ==>
      NodeAt(Cut(j, path, items, n), other) == if other[|path|] < n then NodeAt(j, other) else None
    ensures !(path <= other) && !(other <= path) ==> NodeAt(Cut(j, path, items, n), other) == NodeAt(j, other)
    decreases |path|
  {
    if path != [] {
      var below := if other == [] then [] else other[1..];
      if other != [] && other[0] == path[0] {
        assert other == [path[0]] + below && path == [path[0]] + path[1..];
      }
      match j {
        case Arr(all) => CutTouchesOneList(all[path[0]], path[1..], items, n, below);
        case Obj(fields) => CutTouchesOneList(fields[path[0]].value, path[1..], items, n, below);
      }
    }
  }

  lemma {:induction false} CutIsTruncation(j: Json, path: seq<nat>, items: seq<Json>, n: nat)
    requires IsListAt(j, path, items) && 0 < n <= |items|
    ensures TruncationOf(Cut(j, path, items, n), j)
    decreases |path|
  {
    TruncationOfItself(j);
    if path != [] {
      match j {
        case Arr(all) => CutIsTruncation(all[path[0]], path[1..], items, n);
        case Obj(fields) => CutIsTruncation(fields[path[0]].value, path[1..], items, n);
      }
    }
  }

  lemma {:induction false} ItemsSizeUpdate(items: seq<Json>, k: nat, x: Json)
    requires k < |items|
    ensures ItemsSize(items[k := x]) == ItemsSize(items) - Size(items[k]) + Size(x)
    decreases |items|
  {
    if k > 0 {
      assert items[k := x][1..] == items[1..][k - 1 := x];
      ItemsSizeUpdate(items[1..], k - 1, x);
    }
  }

  lemma {:induction false} FieldsSizeUpdate(fields: seq<Field>, k: nat, f: Field)
    requires k < |fields|
    ensures FieldsSize(fields[k := f]) == FieldsSize(fields) - FieldSize(fields[k]) + FieldSize(f)
    decreases |fields|
  {
    if k > 0 {
      assert fields[k := f][1..] == fields[1..][k - 1 := f];
      FieldsSizeUpdate(fields[1..], k - 1, f);
    }
  }

  lemma {:induction false} ItemsSizePrefix(items: seq<Json>, n: nat)
    requires n < |items|
    ensures ItemsSize(items[..n]) < ItemsSize(items)
    decreases n
  {
    if n > 0 {
      assert items[..n][1..] == items[1..][..n - 1];
      ItemsSizePrefix(items[1..], n - 1);
    }
  }

  lemma {:induction false} CutIsSmaller(j: Json, path: seq<nat>, items: seq<Json>, n: nat)
    requires IsListAt(j, path, items) && 0 < n < |items|
    ensures Size(Cut(j, path, items, n)) < Size(j)
    decreases |path|
  {
    if path == [] {
      ItemsSizePrefix(items, n);
    } else {
      match j {
        case Arr(all) =>
          CutIsSmaller(all[path[0]], path[1..], items, n);
          ItemsSizeUpdate(all, path[0], Cut(all[path[0]], path[1..], items, n));
        case Obj(fields) =>
          CutIsSmaller(fields[path[0]].value, path[1..], items, n);
          FieldsSizeUpdate(fields, path[0], Field(fields[path[0]].key, Cut(fields[path[0]].value, path[1..], items, n)));
      }
    }
  }

  // ----- The loop -----

  /** The lists that can still be cut. */
  function Candidates(spots: seq<Spot>): (r: seq<Spot>)
    ensures forall s :: s in r <==> s in spots && |s.items| > 1
  {
    if spots == [] then []
    else Candidates(spots[..|spots| - 1]) + (if |spots[|spots| - 1].items| > 1 then [spots[|spots| - 1]] else [])
  }

  /** So the first of the largest is the outermost and leftmost of them. */
  lemma {:induction false} CandidatesInOrder(spots: seq<Spot>)
    requires InOrder(spots)
    ensures InOrder(Candidates(spots))
  {
    if spots != [] {
      var before, last := spots[..|spots| - 1], spots[|spots| - 1];
      CandidatesInOrder(before);
      forall s | s in Candidates(before) ensures Earlier(s.path, last.path) {
        var i :| 0 <= i < |before| && before[i] == s;
        assert Earlier(spots[i].path, spots[|spots| - 1].path);
      }
      hide Earlier;
      if |last.items| > 1 { OrderOfSum(Candidates(before), [last]); }
    }
  }

  function SpotSize(s: Spot): nat { Size(Arr(s.items)) }

  /** The first of the largest. */
  predicate IsFirstLargest(spots: seq<Spot>, i: nat)
    ensures IsFirstLargest(spots, i) ==> i < |spots|
  {
    && i < |spots|
    && (forall k :: 0 <= k < |spots| ==> SpotSize(spots[k]) <= SpotSize(spots[i]))
    && (forall k :: 0 <= k < i ==> SpotSize(spots[k]) < SpotSize(spots[i]))
  }

  function Half(n: nat): nat { if n / 2 > 1 then n / 2 else 1 }

  predicate IsHalf(k: nat, n: nat) { 2 * k == n || 2 * k + 1 == n }

  /** One turn: the first largest list keeps the first half of its items, rounded down. */
  ghost predicate Halves(j: Json, next: Json) {
    var spots := Candidates(Lists(j));
    exists i: nat, k: nat ::
      && IsFirstLargest(spots, i)
      && IsListAt(j, spots[i].path, spots[i].items)
      && IsHalf(k, |spots[i].items|)
      && next == Cut(j, spots[i].path, spots[i].items, k)
  }

  /** No list has more than one item. */
  predicate AllShort(j: Json)
    decreases j
  {
    match j
    case Arr(items) => |items| <= 1 && forall i :: 0 <= i < |items| ==> AllShort(items[i])
    case Obj(fields) => forall i :: 0 <= i < |fields| ==> AllShort(fields[i].value)
    case _ => true
  }

  lemma {:induction false} NoCandidatesAllShort(j: Json)
    requires forall s: Spot :: IsListAt(j, s.path, s.items) ==> |s.items| <= 1
    ensures AllShort(j)
    decreases j
  {
    match j {
      case Arr(items) =>
        assert IsListAt(j, Spot([], items).path, Spot([], items).items);
        forall i: nat | i < |items| ensures AllShort(items[i]) {
          forall s: Spot | IsListAt(items[i], s.path, s.items) ensures |s.items| <= 1 {
            var outer := Spot([i] + s.path, s.items);
            assert outer.path[1..] == s.path;
            assert IsListAt(j, outer.path, outer.items);
          }
          NoCandidatesAllShort(items[i]);
        }
      case Obj(fields) =>
        forall i: nat | i < |fields| ensures AllShort(fields[i].value) {
          forall s: Spot | IsListAt(fields[i].value, s.path, s.items) ensures |s.items| <= 1 {
            var outer := Spot([i] + s.path, s.items);
            assert outer.path[1..] == s.path;
            assert IsListAt(j, outer.path, outer.items);
          }
          NoCandidatesAllShort(fields[i].value);
        }
      case _ =>
    }
  }

  /** A chain of turns, each on a tree that was still too large. */
  ghost predicate Steps(trees: seq<Json>, maxChars: nat) {
    && trees != []
    && forall k :: 0 <= k < |trees| - 1 ==> Size(trees[k]) > maxChars && Halves(trees[k], trees[k + 1])
  }

  method FirstLargest(spots: seq<Spot>) returns (i: nat)
    requires spots != []
    ensures IsFirstLargest(spots, i)
  {
    hide SpotSize;
    i := 0;
    for k := 1 to |spots|
      invariant i < k
      invariant forall m :: 0 <= m < k ==> SpotSize(spots[m]) <= SpotSize(spots[i])
      invariant forall m :: 0 <= m < i ==> SpotSize(spots[m]) < SpotSize(spots[i])
    {
      if SpotSize(spots[k]) > SpotSize(spots[i]) { i := k; }
    }
  }

  /** The field set to true, in its place if the key is there, else at the end. */
  function WithFlag(fields: seq<Field>, key: string): seq<Field>
    decreases fields
  {
    if fields == [] then [Field(key, Bool(true))]
    else if fields[0].key == key then [Field(key, Bool(true))] + fields[1..]
    else [fields[0]] + WithFlag(fields[1..], key)
  }

  /** Where the flag goes: to the first field of its name, or behind all fields if there is none. */
  predicate FlagPlace(fields: seq<Field>, key: string, i: nat) {
    i <= |fields| && (i < |fields| ==> fields[i].key == key) && forall k :: 0 <= k < i ==> fields[k].key != key
  }

  /** The flag is there, in its place, and every other field is as it was. */
  lemma {:induction false} FlagIsSet(fields: seq<Field>, key: string) returns (i: nat)
    ensures FlagPlace(fields, key, i)
    ensures WithFlag(fields, key) == fields[..i] + [Field(key, Bool(true))] + (if i < |fields| then fields[i + 1..] else [])
  {
    if fields == [] || fields[0].key == key {
      i := 0;
    } else {
      var k := FlagIsSet(fields[1..], key);
      i := k + 1;
      assert fields[..i] == [fields[0]] + fields[1..][..k];
      if i < |fields| { assert fields[i + 1..] == fields[1..][k + 1..]; }
    }
  }

  const FLAG := "truncated"

  /**
   * Fit a summary into maxChars characters. It ends; what it returns is the clipped summary with
   * the tails of some lists gone, and a flag if any went.
   */
  method Bound(summary: Json, maxChars: nat) returns (out: Json, truncated: bool, ghost trees: seq<Json>)
    requires summary.Obj?
    ensures Steps(trees, maxChars) && trees[0] == Clip(summary) && (truncated <==> |trees| > 1)
    ensures var last := trees[|trees| - 1];
            && last.Obj? && TruncationOf(last, Clip(summary))
            && (Size(last) <= maxChars || AllShort(last))
            && out == if truncated then Obj(WithFlag(last.fields, FLAG)) else last
    ensures truncated <==> Size(Clip(summary)) > maxChars && !AllShort(Clip(summary))
    ensures Size(out) <= (if truncated then maxChars + 17 else maxChars) || AllShort(out)
  {
    hide Clip, TruncationOf, AllShort, Size, Lists, IsListAt, WithFlag, Halves, IsFirstLargest;
    out, truncated := Clip(summary), false;
    ClipKeepsShape(summary);
    TruncationOfItself(out);
    trees := [out];
    while Size(out) > maxChars
      invariant trees != [] && trees[|trees| - 1] == out && trees[0] == Clip(summary) && Steps(trees, maxChars)
      invariant truncated <==> |trees| > 1
      invariant out.Obj? && TruncationOf(out, Clip(summary))
      invariant truncated ==> Size(Clip(summary)) > maxChars && !AllShort(Clip(summary))
      decreases Size(out)
    {
      var candidates := Candidates(Lists(out));
      if candidates == [] {
        NothingToCut(out);
        break;
      }
      var i := FirstLargest(candidates);
      var largest := candidates[i];
      ListsAreAllLists(out, largest);
      HalvingWorks(out, i);
      if |trees| == 1 { LongListIsNotShort(out, largest); }
      var next := Cut(out, largest.path, largest.items, Half(|largest.items|));
      TruncationsCompose(next, out, Clip(summary));
      StepsGrow(trees, maxChars, next);
      trees := trees + [next];
      out := next;
      truncated := true;
    }
    if truncated {
      FlagAddsSeventeen(out.fields);
      out := Obj(WithFlag(out.fields, FLAG));
    }
  }

  lemma StepsGrow(trees: seq<Json>, maxChars: nat, next: Json)
    requires Steps(trees, maxChars) && Size(trees[|trees| - 1]) > maxChars && Halves(trees[|trees| - 1], next)
    ensures Steps(trees + [next], maxChars)
  {
    hide Size, Halves;
  }

  lemma ClipKeepsShape(j: Json)
    ensures j.Obj? ==> Clip(j).Obj?
  {
  }

  lemma NothingToCut(j: Json)
    requires Candidates(Lists(j)) == []
    ensures AllShort(j)
  {
    forall s: Spot | IsListAt(j, s.path, s.items) ensures |s.items| <= 1 {
      ListsAreAllLists(j, s);
      assert s !in Candidates(Lists(j));
    }
    NoCandidatesAllShort(j);
  }

  lemma HalvingWorks(j: Json, i: nat)
    requires IsFirstLargest(Candidates(Lists(j)), i)
    requires var s := Candidates(Lists(j))[i]; IsListAt(j, s.path, s.items)
    ensures var s := Candidates(Lists(j))[i];
            var next := Cut(j, s.path, s.items, Half(|s.items|));
            Halves(j, next) && Size(next) < Size(j) && TruncationOf(next, j) && (j.Obj? ==> next.Obj?)
  {
    var s := Candidates(Lists(j))[i];
    assert s in Candidates(Lists(j));
    hide Candidates, Lists, Size, TruncationOf, IsFirstLargest;
    assert IsHalf(Half(|s.items|), |s.items|);
    CutIsSmaller(j, s.path, s.items, Half(|s.items|));
    CutIsTruncation(j, s.path, s.items, Half(|s.items|));
  }

  lemma {:induction false} LongListIsNotShort(j: Json, s: Spot)
    requires IsListAt(j, s.path, s.items) && |s.items| > 1
    ensures !AllShort(j)
    decreases |s.path|
  {
    if s.path != [] {
      match j {
        case Arr(all) => LongListIsNotShort(all[s.path[0]], Spot(s.path[1..], s.items));
        case Obj(fields) => LongListIsNotShort(fields[s.path[0]].value, Spot(s.path[1..], s.items));
      }
    }
  }

  // ----- The flag -----

  lemma {:induction false} QuotedPlain(s: string)
    requires forall i :: 0 <= i < |s| ==> s[i] != '"' && s[i] != '\\' && s[i] as int >= 0x20
    ensures Quoted(s) == |s| + 2
  {
    if s != "" { QuotedPlain(s[1..]); }
  }

  lemma {:induction false} FlagAddsItsField(fields: seq<Field>, key: string)
    ensures FieldsSize(WithFlag(fields, key)) <= FieldsSize(fields) + Quoted(key) + 6
    decreases |fields|
  {
    hide Quoted;
    var flag, r := Field(key, Bool(true)), WithFlag(fields, key);
    assert FieldSize(flag) == Quoted(key) + 5;
    if fields == [] {
      assert r == [flag] && r[1..] == [];
    } else if fields[0].key == key {
      assert r[0] == flag && r[1..] == fields[1..];
      assert FieldsSize(r) == FieldSize(flag) + 1 + FieldsSize(fields[1..]);
      assert FieldSize(fields[0]) >= Quoted(key) + 1;
    } else {
      FlagAddsItsField(fields[1..], key);
      assert r[0] == fields[0] && r[1..] == WithFlag(fields[1..], key);
    }
  }

  lemma FlagIsShort(fields: seq<Field>, key: string)
    requires AllShort(Obj(fields))
    ensures AllShort(Obj(WithFlag(fields, key)))
  {
    hide WithFlag;
    var flagged := WithFlag(fields, key);
    var place := FlagIsSet(fields, key);
    forall i | 0 <= i < |flagged| ensures AllShort(flagged[i].value) {
      if i < |fields| { assert AllShort(fields[i].value); }
    }
  }

  /** The flag costs at most its own 17 characters, and adds no list. */
  lemma FlagAddsSeventeen(fields: seq<Field>)
    ensures Size(Obj(WithFlag(fields, FLAG))) <= Size(Obj(fields)) + 17
    ensures AllShort(Obj(fields)) ==> AllShort(Obj(WithFlag(fields, FLAG)))
  {
    hide WithFlag, AllShort, FieldsSize, Quoted;
    FlagIsEleven();
    FlagAddsItsField(fields, FLAG);
    if AllShort(Obj(fields)) { FlagIsShort(fields, FLAG); }
    if fields == [] { NoFields(); }
  }

  lemma FlagIsEleven()
    ensures Quoted(FLAG) == 11
  {
    QuotedPlain(FLAG);
  }

  lemma NoFields()
    ensures FieldsSize([]) == 0
  {
  }

  // ----- Clipping -----

  /** Every string has been cut to the limit. */
  predicate StringsFit(j: Json)
    decreases j
  {
    match j
    case Str(s) => |s| <= MAX_STRING
    case Arr(items) => forall i :: 0 <= i < |items| ==> StringsFit(items[i])
    case Obj(fields) => forall i :: 0 <= i < |fields| ==> StringsFit(fields[i].value)
    case _ => true
  }

  /** Clipping makes every string fit, and changes nothing else: a tree that fits is left as it is. */
  lemma {:induction false} ClipFits(j: Json)
    ensures StringsFit(Clip(j)) && (StringsFit(j) ==> Clip(j) == j)
    decreases j
  {
    match j {
      case Arr(items) => forall i | 0 <= i < |items| ensures StringsFit(Clip(items[i])) && (StringsFit(items[i]) ==> Clip(items[i]) == items[i]) {
        ClipFits(items[i]);
      }
      case Obj(fields) =>
        forall i | 0 <= i < |fields| ensures StringsFit(Clip(fields[i].value)) && (StringsFit(fields[i].value) ==> Clip(fields[i].value) == fields[i].value) {
          ClipFits(fields[i].value);
        }
      case _ =>
    }
  }
}
