/** Names in the order a sorted list puts them: by their characters, a prefix first. */
module Names {

  predicate Precedes(a: string, b: string) {
    b != "" && (a == "" || a[0] < b[0] || (a[0] == b[0] && Precedes(a[1..], b[1..])))
  }

  lemma {:induction false} OneOrTheOther(a: string, b: string)
    ensures a == b || Precedes(a, b) || Precedes(b, a)
    ensures !(Precedes(a, b) && Precedes(b, a)) && !Precedes(a, a)
    decreases |a|
  {
    if a != "" {
      OneOrTheOther(a[1..], a[1..]);
      if b != "" && a[0] == b[0] {
        OneOrTheOther(a[1..], b[1..]);
        if a[1..] == b[1..] {
          assert a == [a[0]] + a[1..] && b == [b[0]] + b[1..];
        }
      }
    }
  }

  lemma {:induction false} PrecedesOnward(a: string, b: string, c: string)
    requires Precedes(a, b) && Precedes(b, c)
    ensures Precedes(a, c)
    decreases |a|
  {
    if a != "" && a[0] == b[0] && b[0] == c[0] { PrecedesOnward(a[1..], b[1..], c[1..]); }
  }

  ghost predicate IsFirst(a: string, names: set<string>) {
    a in names && forall b :: b in names && b != a ==> Precedes(a, b)
  }

  lemma {:induction false} HasFirst(names: set<string>) returns (first: string)
    requires |names| > 0
    ensures IsFirst(first, names)
    decreases |names|
  {
    first :| first in names;
    var rest := names - {first};
    if |rest| > 0 {
      var other := HasFirst(rest);
      OneOrTheOther(first, other);
      if Precedes(other, first) {
        first := other;
      } else {
        forall b | b in rest && b != other ensures Precedes(first, b) { PrecedesOnward(first, other, b); }
      }
    }
  }

  /** The list has exactly the names, each once, in order. */
  ghost predicate IsSorted(list: seq<string>, names: set<string>) {
    && (forall a :: a in list <==> a in names)
    && (forall i, j :: 0 <= i < j < |list| ==> Precedes(list[i], list[j]))
  }

  method Sorted(names: set<string>) returns (list: seq<string>)
    ensures IsSorted(list, names)
  {
    list := [];
    var left := names;
    while left != {}
      invariant left <= names && IsSorted(list, names - left)
      invariant forall a, b :: a in list && b in left ==> Precedes(a, b)
      decreases |left|
    {
      ghost var first := HasFirst(left);
      var a: string :| a in left && forall b :: b in left && b != a ==> Precedes(a, b);
      SortedNext(list, names - left, a);
      assert names - left + {a} == names - (left - {a});
      list := list + [a];
      left := left - {a};
    }
    assert names - {} == names;
  }

  lemma SortedNext(list: seq<string>, names: set<string>, a: string)
    requires IsSorted(list, names) && forall b :: b in list ==> Precedes(b, a)
    ensures IsSorted(list + [a], names + {a})
  {
    hide Precedes;
  }

  /** A set of names has only one sorted list. */
  lemma {:induction false} SortedIsUnique(x: seq<string>, y: seq<string>, names: set<string>)
    requires IsSorted(x, names) && IsSorted(y, names)
    ensures x == y
    decreases |x|
  {
    EmptyList(x, names);
    EmptyList(y, names);
    if x != [] {
      FirstOfSorted(x, names);
      FirstOfSorted(y, names);
      OneOrTheOther(x[0], y[0]);
      TailIsSorted(x, names);
      TailIsSorted(y, names);
      SortedIsUnique(x[1..], y[1..], names - {x[0]});
      assert x == [x[0]] + x[1..] && y == [y[0]] + y[1..];
    }
  }

  lemma EmptyList(x: seq<string>, names: set<string>)
    requires IsSorted(x, names)
    ensures x == [] <==> names == {}
  {
    hide Precedes;
    if x != [] { assert x[0] in names; }
    if names != {} {
      var a :| a in names;
      assert a in x;
    }
  }

  lemma FirstOfSorted(x: seq<string>, names: set<string>)
    requires IsSorted(x, names) && x != []
    ensures IsFirst(x[0], names)
  {
    hide Precedes;
  }

  lemma TailIsSorted(x: seq<string>, names: set<string>)
    requires IsSorted(x, names) && x != []
    ensures IsSorted(x[1..], names - {x[0]})
  {
    forall a | a in x[1..] ensures a != x[0] {
      var i :| 0 <= i < |x[1..]| && x[1..][i] == a;
      OneOrTheOther(x[0], x[i + 1]);
    }
    hide Precedes;
    assert x == [x[0]] + x[1..];
  }
}
