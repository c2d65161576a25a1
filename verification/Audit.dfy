/**
 * The hash-chained audit log. The digest is a free constructor: it is collision-free and never
 * yields the genesis value, which is all the chain relies on.
 */
module Audit {
  import opened Domain

  datatype Digest<C> = Genesis | Sha(prev: Digest<C>, content: C)

  /** One row; `content` stands for ts, tenant, actor, event, subject and payload together. */
  datatype Row<C> = Row(number: nat, content: C, prev: Digest<C>, hash: Digest<C>)

  datatype Reason = Intact | PrevHashMismatch | ContentMismatch

  datatype Verification = Verification(ok: bool, checked: nat, firstBad: Option<nat>, reason: Reason)

  /** The hash the row at position `n` has to name as its predecessor. */
  function HashBefore<C>(log: seq<Row<C>>, n: nat): Digest<C>
    requires n <= |log|
  {
    if n == 0 then Genesis else log[n - 1].hash
  }

  predicate Links<C(==)>(log: seq<Row<C>>, i: nat)
    requires i < |log|
  {
    log[i].prev == HashBefore(log, i) && log[i].hash == Sha(log[i].prev, log[i].content)
  }

  /** The first `n` rows form one chain from the genesis value. */
  ghost predicate Chained<C>(log: seq<Row<C>>, n: nat) {
    n <= |log| && forall i :: 0 <= i < n ==> Links(log, i)
  }

  /** Equal apart from the row number. */
  ghost predicate SameRow<C>(a: Row<C>, b: Row<C>) {
    a.content == b.content && a.prev == b.prev && a.hash == b.hash
  }

  /** Recompute the chain in order; stop at the first row that does not fit. */
  method Verify<C(==)>(log: seq<Row<C>>) returns (v: Verification)
    ensures Chained(log, v.checked) && forall n: nat :: Chained(log, n) ==> n <= v.checked
    ensures v.ok <==> v.checked == |log|
    ensures v.firstBad == if v.ok then None else Some(log[v.checked].number)
    ensures v.reason.Intact? <==> v.ok
    ensures v.reason.PrevHashMismatch? <==> !v.ok && log[v.checked].prev != HashBefore(log, v.checked)
  {
    var prev := Genesis;
    var checked := 0;
    while checked < |log|
      invariant checked <= |log| && prev == HashBefore(log, checked)
      invariant Chained(log, checked)
    {
      var row := log[checked];
      if row.prev != prev {
        assert !Links(log, checked);
        return Verification(false, checked, Some(row.number), PrevHashMismatch);
      }
      if row.hash != Sha(prev, row.content) {
        assert !Links(log, checked);
        return Verification(false, checked, Some(row.number), ContentMismatch);
      }
      prev := row.hash;
      checked := checked + 1;
    }
    return Verification(true, checked, None, Intact);
  }

  // ----- What verification detects -----

  function Depth<C>(d: Digest<C>): nat {
    match d case Genesis => 0 case Sha(prev, _) => 1 + Depth(prev)
  }

  /** In a chain, a row's predecessor hash tells its position. */
  lemma {:induction false} PositionInHash<C>(log: seq<Row<C>>, n: nat, i: nat)
    requires Chained(log, n) && i < n
    ensures Depth(log[i].prev) == i
  {
    assert Links(log, i);
    if i > 0 {
      PositionInHash(log, n, i - 1);
      assert Links(log, i - 1);
    }
  }

  /** Two chains that end in the same hash have the same length and the same rows, apart from row numbers. */
  lemma {:induction false} LastHashFixesLog<C>(a: seq<Row<C>>, b: seq<Row<C>>)
    requires Chained(a, |a|) && Chained(b, |b|)
    requires HashBefore(a, |a|) == HashBefore(b, |b|)
    ensures |a| == |b| && forall i :: 0 <= i < |a| ==> SameRow(a[i], b[i])
    decreases |a|
  {
    if a != [] { assert Links(a, |a| - 1); }
    if b != [] { assert Links(b, |b| - 1); }
    if a != [] && b != [] {
      var a', b' := a[..|a| - 1], b[..|b| - 1];
      assert forall i :: 0 <= i < |a'| ==> Links(a, i) ==> Links(a', i);
      assert forall i :: 0 <= i < |b'| ==> Links(b, i) ==> Links(b', i);
      LastHashFixesLog(a', b');
      forall i | 0 <= i < |a|
        ensures SameRow(a[i], b[i])
      {
        if i < |a| - 1 { assert SameRow(a'[i], b'[i]); }
      }
    }
  }

  /**
   * Rows taken from an intact log and put together in any way (some deleted, reordered, repeated)
   * are accepted exactly when they are a prefix of it: only dropping trailing rows goes unnoticed.
   */
  lemma RearrangedRowsDetected<C>(log: seq<Row<C>>, taken: seq<Row<C>>)
    requires Chained(log, |log|)
    requires forall k :: 0 <= k < |taken| ==> exists i :: 0 <= i < |log| && SameRow(log[i], taken[k])
    ensures Chained(taken, |taken|) <==>
            |taken| <= |log| && forall k :: 0 <= k < |taken| ==> SameRow(log[k], taken[k])
  {
    if Chained(taken, |taken|) {
      forall k | 0 <= k < |taken|
        ensures k < |log| && SameRow(log[k], taken[k])
      {
        var i :| 0 <= i < |log| && SameRow(log[i], taken[k]);
        PositionInHash(taken, |taken|, k);
        PositionInHash(log, |log|, i);
      }
      if taken != [] { assert SameRow(taken[|taken| - 1], taken[|taken| - 1]); }
    }
    if |taken| <= |log| && forall k :: 0 <= k < |taken| ==> SameRow(log[k], taken[k]) {
      forall k | 0 <= k < |taken| ensures Links(taken, k) {
        assert Links(log, k);
      }
    }
  }

  /** Deleting a row that is not the last one stops verification exactly there. */
  lemma DeletionStopsThere<C>(log: seq<Row<C>>, i: nat)
    requires Chained(log, |log|) && i + 1 < |log|
    ensures var cut := log[..i] + log[i + 1..];
            Chained(cut, i) && !Chained(cut, i + 1)
  {
    var cut := log[..i] + log[i + 1..];
    forall k | 0 <= k < i ensures Links(cut, k) { assert Links(log, k); }
    PositionInHash(log, |log|, i + 1);
    if Chained(cut, i + 1) { PositionInHash(cut, i + 1, i); }
  }

  /**
   * Putting any other row in place `i` stops verification there, unless the new row was itself
   * rehashed to fit, in which case it stops at the next row: so it is caught unless `i` is last.
   */
  lemma EditStopsThere<C>(log: seq<Row<C>>, i: nat, row: Row<C>)
    requires Chained(log, |log|) && i < |log| && !SameRow(row, log[i])
    ensures var edited := log[i := row];
            && Chained(edited, i)
            && (Chained(edited, i + 1) <==> row.prev == log[i].prev && row.hash == Sha(row.prev, row.content))
            && (i + 1 < |log| ==> !Chained(edited, i + 2))
    ensures row.hash == log[i].hash ==> !Chained(log[i := row], i + 1)
  {
    var edited := log[i := row];
    assert Links(log, i);
    forall k | 0 <= k < i ensures Links(edited, k) { assert Links(log, k); }
    assert Chained(edited, i + 1) <==> Links(edited, i);
    if i + 1 < |log| {
      assert Links(log, i + 1);
      assert !(Links(edited, i) && Links(edited, i + 1));
    }
  }
}

/** Concurrent appenders: transactions that take the advisory lock, append, and commit or roll back. */
module AuditAppenders {
  import opened Domain
  import opened Audit

  type TxId = nat

  datatype Db<C> = Db(committed: seq<Row<C>>, lock: Option<TxId>, open: map<TxId, seq<Row<C>>>, nextNumber: nat)

  datatype Event<C> = Begin(tx: TxId) | Append(tx: TxId, content: C) | Commit(tx: TxId) | Rollback(tx: TxId)

  /** The row `ORDER BY seq DESC LIMIT 1` finds among the rows a transaction sees. */
  function Latest<C>(rows: seq<Row<C>>): (r: Option<Row<C>>)
    ensures r.None? <==> rows == []
    ensures r.Some? ==> r.value in rows && forall i :: 0 <= i < |rows| ==> rows[i].number <= r.value.number
  {
    if rows == [] then None
    else
      var rest := Latest(rows[..|rows| - 1]);
      if rest.None? || rest.value.number <= rows[|rows| - 1].number then Some(rows[|rows| - 1]) else rest
  }

  /** A transaction sees the committed rows and its own. */
  function Visible<C>(db: Db<C>, tx: TxId): seq<Row<C>>
    requires tx in db.open
  {
    db.committed + db.open[tx]
  }

  /** The row an append writes: chained to the latest row it sees. */
  function RowAfter<C>(visible: seq<Row<C>>, number: nat, content: C): Row<C> {
    var last := Latest(visible);
    var prev := if last.None? then Genesis else last.value.hash;
    Row(number, content, prev, Sha(prev, content))
  }

  function Unlock(lock: Option<TxId>, tx: TxId): Option<TxId> {
    if lock == Some(tx) then None else lock
  }

  /** An append by a transaction that does not get the lock blocks: nothing happens. */
  function Step<C>(db: Db<C>, e: Event<C>): Db<C> {
    match e
    case Begin(t) => if t in db.open then db else db.(open := db.open[t := []])
    case Append(t, content) =>
      if t !in db.open || (db.lock.Some? && db.lock != Some(t)) then db
      else
        var row := RowAfter(Visible(db, t), db.nextNumber, content);
        db.(lock := Some(t), open := db.open[t := db.open[t] + [row]], nextNumber := db.nextNumber + 1)
    case Commit(t) =>
      if t !in db.open then db
      else db.(committed := db.committed + db.open[t], open := db.open - {t}, lock := Unlock(db.lock, t))
    case Rollback(t) =>
      if t !in db.open then db else db.(open := db.open - {t}, lock := Unlock(db.lock, t))
  }

  function Run<C>(events: seq<Event<C>>): Db<C> {
    if events == [] then Db([], None, map[], 1)
    else Step(Run(events[..|events| - 1]), events[|events| - 1])
  }

  ghost predicate Ascending<C>(rows: seq<Row<C>>, bound: nat) {
    && (forall i :: 0 <= i < |rows| ==> rows[i].number < bound)
    && (forall i, j :: 0 <= i < j < |rows| ==> rows[i].number < rows[j].number)
  }

  /** Only the lock holder has uncommitted rows, and they extend the committed chain. */
  ghost predicate Inv<C>(db: Db<C>) {
    && (forall t :: t in db.open && db.open[t] != [] ==> db.lock == Some(t))
    && (forall t :: t in db.open ==> OneChain(Visible(db, t), db.nextNumber))
    && OneChain(db.committed, db.nextNumber)
  }

  ghost predicate OneChain<C>(rows: seq<Row<C>>, bound: nat) {
    Chained(rows, |rows|) && Ascending(rows, bound)
  }

  lemma ExtendChain<C>(rows: seq<Row<C>>, number: nat, content: C)
    requires OneChain(rows, number)
    ensures OneChain(rows + [RowAfter(rows, number, content)], number + 1)
    ensures OneChain(rows, number + 1)
  {
    var longer := rows + [RowAfter(rows, number, content)];
    if rows != [] {
      var last := Latest(rows).value;
      var i :| 0 <= i < |rows| && rows[i] == last;
      assert rows[|rows| - 1].number <= last.number;
      assert i == |rows| - 1;
    }
    forall k | 0 <= k < |longer| ensures Links(longer, k) {
      if k < |rows| { assert Links(rows, k); }
    }
  }

  lemma AppendKeepsVisible<C>(db: Db<C>, t: TxId, content: C, u: TxId)
    requires t in db.open && u in db.open && (db.lock.None? || db.lock == Some(t))
    requires OneChain(Visible(db, u), db.nextNumber)
    ensures OneChain(Visible(Step(db, Append(t, content)), u), db.nextNumber + 1)
  {
    var db' := Step(db, Append(t, content));
    ExtendChain(Visible(db, u), db.nextNumber, content);
    if u == t {
      assert Visible(db', t) == Visible(db, t) + [RowAfter(Visible(db, t), db.nextNumber, content)];
    }
  }

  lemma AppendKeepsInv<C>(db: Db<C>, t: TxId, content: C)
    requires Inv(db) && t in db.open && (db.lock.None? || db.lock == Some(t))
    ensures Inv(Step(db, Append(t, content)))
  {
    var db' := Step(db, Append(t, content));
    assert OneChain(db'.committed, db'.nextNumber) by { ExtendChain(db.committed, db.nextNumber, content); }
    forall u | u in db'.open
      ensures OneChain(Visible(db', u), db'.nextNumber)
    {
      AppendKeepsVisible(db, t, content, u);
    }
  }

  lemma CommitKeepsInv<C>(db: Db<C>, t: TxId)
    requires Inv(db) && t in db.open
    ensures Inv(Step(db, Commit(t)))
  {
    var db' := Step(db, Commit(t));
    assert db'.committed == Visible(db, t);
    forall u | u in db'.open
      ensures OneChain(Visible(db', u), db'.nextNumber)
      ensures db'.open[u] != [] ==> db'.lock == Some(u)
    {
      if db.open[t] == [] {
        assert Visible(db', u) == Visible(db, u);
      } else {
        assert db.open[u] == [];
        assert Visible(db', u) == Visible(db, t);
      }
    }
  }

  lemma RollbackKeepsInv<C>(db: Db<C>, t: TxId)
    requires Inv(db) && t in db.open
    ensures Inv(Step(db, Rollback(t)))
  {
    var db' := Step(db, Rollback(t));
    forall u | u in db'.open ensures Visible(db', u) == Visible(db, u) {}
  }

  lemma BeginKeepsInv<C>(db: Db<C>, t: TxId)
    requires Inv(db) && t !in db.open
    ensures Inv(Step(db, Begin(t)))
  {
    var db' := Step(db, Begin(t));
    forall u | u in db'.open
      ensures Visible(db', u) == if u == t then db.committed else Visible(db, u)
    {
    }
  }

  lemma StepKeepsInv<C>(db: Db<C>, e: Event<C>)
    requires Inv(db)
    ensures Inv(Step(db, e)) && db.committed <= Step(db, e).committed
  {
    match e
    case Begin(t) => if t !in db.open { BeginKeepsInv(db, t); }
    case Append(t, content) =>
      if t in db.open && (db.lock.None? || db.lock == Some(t)) { AppendKeepsInv(db, t, content); }
    case Commit(t) => if t in db.open { CommitKeepsInv(db, t); }
    case Rollback(t) => if t in db.open { RollbackKeepsInv(db, t); }
  }

  /**
   * Under every interleaving the committed log is one chain from the genesis value, its row
   * numbers ascend in commit order, and what is committed later is appended at the end.
   */
  lemma {:induction false} CommittedLogIsOneChain<C>(events: seq<Event<C>>, m: nat)
    requires m <= |events|
    ensures var log := Run(events).committed;
            && Inv(Run(events))
            && Chained(log, |log|)
            && (forall i, j :: 0 <= i < j < |log| ==> log[i].number < log[j].number)
            && Run(events[..m]).committed <= log
    decreases |events|
  {
    if events != [] {
      var shorter := events[..|events| - 1];
      if m < |events| {
        assert shorter[..m] == events[..m];
        CommittedLogIsOneChain(shorter, m);
      } else {
        assert events[..m] == events;
        CommittedLogIsOneChain(shorter, 0);
      }
      StepKeepsInv(Run(shorter), events[|events| - 1]);
    }
  }

  // ----- What a transaction leaves in the log -----

  function Contents<C>(rows: seq<Row<C>>): (r: seq<C>)
    ensures |r| == |rows| && forall i :: 0 <= i < |rows| ==> r[i] == rows[i].content
  {
    seq(|rows|, i requires 0 <= i < |rows| => rows[i].content)
  }

  predicate Ends<C>(e: Event<C>, t: TxId) { e == Commit(t) || e == Rollback(t) }

  /** The transaction begins with event m and has not ended before event n. */
  ghost predicate IsOpen<C>(events: seq<Event<C>>, m: nat, n: nat, t: TxId) {
    && m < n <= |events| && events[m] == Begin(t) && t !in Run(events[..m]).open
    && forall i :: m < i < n ==> !Ends(events[i], t)
  }

  /** What the transaction appended since event m; an append goes through unless someone else has the lock. */
  ghost function Appended<C>(events: seq<Event<C>>, m: nat, n: nat, t: TxId): seq<C>
    requires m < n <= |events|
  {
    if n == m + 1 then []
    else Appended(events, m, n - 1, t) + AppendedBy(events[n - 1], Run(events[..n - 1]).lock, t)
  }

  function AppendedBy<C>(e: Event<C>, lock: Option<TxId>, t: TxId): seq<C> {
    if e.Append? && e.tx == t && (lock.None? || lock == Some(t)) then [e.content] else []
  }

  lemma StepAppends<C>(db: Db<C>, e: Event<C>, t: TxId)
    requires t in db.open && !Ends(e, t)
    ensures t in Step(db, e).open && Contents(Step(db, e).open[t]) == Contents(db.open[t]) + AppendedBy(e, db.lock, t)
  {
  }

  lemma {:induction false} OpenRowsAreAppended<C>(events: seq<Event<C>>, m: nat, n: nat, t: TxId)
    requires IsOpen(events, m, n, t)
    ensures t in Run(events[..n]).open && Contents(Run(events[..n]).open[t]) == Appended(events, m, n, t)
    decreases n
  {
    assert events[..n][..n - 1] == events[..n - 1];
    if n > m + 1 {
      hide Step;
      OpenRowsAreAppended(events, m, n - 1, t);
      StepAppends(Run(events[..n - 1]), events[n - 1], t);
    }
  }

  /**
   * All or nothing: a transaction that commits adds exactly what it appended since it began, in that order
   * and at the end; one that rolls back adds nothing; and nothing else that happens adds to the log.
   */
  lemma TransactionIsAllOrNothing<C>(events: seq<Event<C>>, m: nat, n: nat, t: TxId)
    requires n < |events| && IsOpen(events, m, n, t)
    ensures var was, now := Run(events[..n]).committed, Run(events[..n + 1]).committed;
            && (events[n] == Commit(t) ==> Contents(now) == Contents(was) + Appended(events, m, n, t))
            && (!events[n].Commit? ==> now == was)
    ensures Ends(events[n], t) ==> t !in Run(events[..n + 1]).open && Run(events[..n + 1]).lock != Some(t)
  {
    hide Step, Ends, Appended;
    OpenRowsAreAppended(events, m, n, t);
    assert events[..n + 1][..n] == events[..n];
    CommitAdds(Run(events[..n]), events[n], t);
  }

  lemma CommitAdds<C>(db: Db<C>, e: Event<C>, t: TxId)
    requires t in db.open
    ensures e == Commit(t) ==> Contents(Step(db, e).committed) == Contents(db.committed) + Contents(db.open[t])
    ensures !e.Commit? ==> Step(db, e).committed == db.committed
    ensures Ends(e, t) ==> t !in Step(db, e).open && Step(db, e).lock != Some(t)
  {
  }

  /** The table as one transaction at a time extends it, under the lock. */
  class AuditLog<C> {
    var rows: seq<Row<C>>
    var nextNumber: nat

    ghost predicate Valid()
      reads this
    {
      OneChain(rows, nextNumber)
    }

    constructor ()
      ensures Valid() && rows == []
    {
      rows, nextNumber := [], 1;
    }

    /** The new row's hash; the row goes at the end, chained to the one before. */
    method Append(content: C) returns (hash: Digest<C>)
      requires Valid()
      modifies this
      ensures Valid() && |rows| == |old(rows)| + 1 && rows[..|rows| - 1] == old(rows)
      ensures var last := rows[|rows| - 1];
              last.content == content && last.hash == hash && last.prev == HashBefore(rows, |rows| - 1)
    {
      ExtendChain(rows, nextNumber, content);
      var row := RowAfter(rows, nextNumber, content);
      LatestIsLast(rows, nextNumber);
      rows, nextNumber := rows + [row], nextNumber + 1;
      hash := row.hash;
    }
  }

  lemma LatestIsLast<C>(rows: seq<Row<C>>, bound: nat)
    requires Ascending(rows, bound)
    ensures rows != [] ==> Latest(rows) == Some(rows[|rows| - 1])
  {
  }
}
