/** What a tool cassette answers to any sequence of calls. */
module ReplayAnswers {
  import opened Domain
  import opened Cassettes

  /** A call, by an agent if it is known. */
  datatype Query = Query(agent: Option<string>, tool: string, args: string)

  function Asked(q: Queues, queries: seq<Query>): (r: (Queues, seq<Option<ToolEntry>>))
    ensures |r.1| == |queries|
  {
    if queries == [] then (q, [])
    else
      var last := queries[|queries| - 1];
      var (before, answers) := Asked(q, queries[..|queries| - 1]);
      var (after, answer) := Fetch(before, last.agent, last.tool, last.args);
      (after, answers + [answer])
  }

  /** The cassette's entries for one call, whoever made it, in order. */
  function OfCall(entries: seq<ToolEntry>, tool: string, args: string): seq<ToolEntry> {
    if entries == [] then []
    else
      var e := entries[|entries| - 1];
      OfCall(entries[..|entries| - 1], tool, args) + (if e.tool == tool && e.args == args then [e] else [])
  }

  /** The recorded answers a key stands for. */
  function OfQueue(entries: seq<ToolEntry>, key: Key): seq<ToolEntry> {
    match key
    case ByAgent(agent, tool, args) => OfKey(entries, agent, tool, args)
    case ByCall(tool, args) => OfCall(entries, tool, args)
  }

  /** The agent's own answers to the call if it has any, else everybody's. */
  function KeyFor(entries: seq<ToolEntry>, q: Query): Key {
    if q.agent.Some? && OfKey(entries, q.agent.value, q.tool, q.args) != []
    then ByAgent(q.agent.value, q.tool, q.args) else ByCall(q.tool, q.args)
  }

  /** How often the first queries drew on this key. */
  function Draws(entries: seq<ToolEntry>, queries: seq<Query>, key: Key): nat {
    if queries == [] then 0
    else Draws(entries, queries[..|queries| - 1], key) + (if KeyFor(entries, queries[|queries| - 1]) == key then 1 else 0)
  }

  /** The n-th answer of a list that repeats its last one when it is used up; None if it is empty. */
  function Nth(all: seq<ToolEntry>, n: nat): Option<ToolEntry> {
    if all == [] then None else Some(if n < |all| then all[n] else all[|all| - 1])
  }

  lemma {:induction false} LoadedQueues(entries: seq<ToolEntry>, key: Key)
    ensures WaitingFor(Load(entries), key) == OfQueue(entries, key) && key !in Load(entries).last
  {
    if entries != [] { LoadedQueues(entries[..|entries| - 1], key); }
  }

  /** The key has given its first n answers. */
  ghost predicate HasGiven(q: Queues, key: Key, all: seq<ToolEntry>, n: nat) {
    && WaitingFor(q, key) == (if n < |all| then all[n..] else [])
    && (key in q.last <==> n > 0 && all != [])
    && (n > 0 ==> (if key in q.last then Some(q.last[key]) else None) == Nth(all, n - 1))
  }

  lemma TakeGivesNext(q: Queues, key: Key, all: seq<ToolEntry>, n: nat)
    requires HasGiven(q, key, all, n)
    ensures var (after, e) := Take(q, key);
            e == Nth(all, n) && HasGiven(after, key, all, n + 1)
    ensures all == [] ==> Take(q, key).0 == q
  {
  }

  lemma TakeLeavesOthers(q: Queues, key: Key, other: Key, all: seq<ToolEntry>, n: nat)
    requires HasGiven(q, other, all, n) && key != other
    ensures HasGiven(Take(q, key).0, other, all, n)
  {
  }

  lemma NothingWasGiven(q: Queues, key: Key, n: nat, m: nat)
    requires HasGiven(q, key, [], n)
    ensures HasGiven(q, key, [], m)
  {
  }

  ghost predicate AllGiven(q: Queues, entries: seq<ToolEntry>, queries: seq<Query>) {
    forall key :: HasGiven(q, key, OfQueue(entries, key), Draws(entries, queries, key))
  }

  lemma FetchGivesNext(q: Queues, entries: seq<ToolEntry>, queries: seq<Query>, query: Query)
    requires AllGiven(q, entries, queries)
    ensures var (after, e) := Fetch(q, query.agent, query.tool, query.args);
            && e == Nth(OfQueue(entries, KeyFor(entries, query)), Draws(entries, queries, KeyFor(entries, query)))
            && AllGiven(after, entries, queries + [query])
  {
    hide Take, HasGiven, Nth;
    assert (queries + [query])[..|queries|] == queries;
    var key := KeyFor(entries, query);
    var (after, e) := Fetch(q, query.agent, query.tool, query.args);
    assert HasGiven(q, key, OfQueue(entries, key), Draws(entries, queries, key));
    TakeGivesNext(q, key, OfQueue(entries, key), Draws(entries, queries, key));
    if query.agent.Some? && key.ByCall? {
      var own := ByAgent(query.agent.value, query.tool, query.args);
      assert HasGiven(q, own, OfQueue(entries, own), Draws(entries, queries, own));
      TakeGivesNext(q, own, [], Draws(entries, queries, own));
      NothingIsNone(Draws(entries, queries, own));
    } else {
      SomethingIsSome(OfQueue(entries, key), Draws(entries, queries, key));
    }
    forall other ensures HasGiven(after, other, OfQueue(entries, other), Draws(entries, queries + [query], other)) {
      assert HasGiven(q, other, OfQueue(entries, other), Draws(entries, queries, other));
      if other != key { TakeLeavesOthers(q, key, other, OfQueue(entries, other), Draws(entries, queries, other)); }
    }
  }

  lemma NothingIsNone(n: nat)
    ensures Nth([], n).None?
  {
  }

  lemma SomethingIsSome(all: seq<ToolEntry>, n: nat)
    ensures all != [] ==> Nth(all, n).Some?
  {
  }

  lemma {:induction false} LoadedHasGivenNothing(entries: seq<ToolEntry>)
    ensures AllGiven(Load(entries), entries, [])
  {
    forall key ensures HasGiven(Load(entries), key, OfQueue(entries, key), 0) { LoadedQueues(entries, key); }
  }

  lemma {:induction false} AskedGives(entries: seq<ToolEntry>, queries: seq<Query>)
    ensures AllGiven(Asked(Load(entries), queries).0, entries, queries)
    ensures forall i :: 0 <= i < |queries| ==>
              Asked(Load(entries), queries).1[i]
              == Nth(OfQueue(entries, KeyFor(entries, queries[i])), Draws(entries, queries[..i], KeyFor(entries, queries[i])))
    decreases |queries|
  {
    hide Fetch, Nth, HasGiven, AllGiven, Load;
    if queries == [] {
      LoadedHasGivenNothing(entries);
    } else {
      var shorter, last := queries[..|queries| - 1], queries[|queries| - 1];
      AskedGives(entries, shorter);
      assert shorter + [last] == queries;
      FetchGivesNext(Asked(Load(entries), shorter).0, entries, shorter, last);
      assert forall i :: 0 <= i <= |shorter| ==> shorter[..i] == queries[..i];
    }
  }

  /**
   * Whatever calls come, in whatever order, a call of an agent that has recorded answers to it gets the
   * next of them, and the last one again once they are used up; any other call draws in the same way on
   * all answers recorded for it; and only a call nobody recorded is a miss.
   */
  lemma EveryCallGetsItsAnswer(entries: seq<ToolEntry>, queries: seq<Query>, i: nat)
    requires i < |queries|
    ensures var q := queries[i];
            var own := if q.agent.Some? then OfKey(entries, q.agent.value, q.tool, q.args) else [];
            var all := if own != [] then own else OfCall(entries, q.tool, q.args);
            var n := Draws(entries, queries[..i], KeyFor(entries, q));
            Asked(Load(entries), queries).1[i]
            == if all == [] then None else Some(all[if n < |all| then n else |all| - 1])
  {
    hide Asked, Draws;
    AskedGives(entries, queries);
  }
}
