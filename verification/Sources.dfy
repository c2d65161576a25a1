/** The live tool source: a circuit breaker per backend and a bounded number of retries. */
module LiveSources {
  import opened Domain

  datatype Config = Config(threshold: nat, cooldown: int, retries: nat)

  datatype Breaker = Breaker(failures: nat, openedAt: Option<int>)

  const CLOSED := Breaker(0, None)

  /** A call asks whether it may go ahead; once the cooldown has passed it may, and the breaker is closed again. */
  function Checked(c: Config, b: Breaker, now: int): (Breaker, bool) {
    if b.openedAt.None? then (b, true)
    else if now - b.openedAt.value < c.cooldown then (b, false)
    else (b.(openedAt := None), true)
  }

  function Recorded(c: Config, b: Breaker, ok: bool, now: int): Breaker {
    if ok then CLOSED
    else Breaker(b.failures + 1, if b.failures + 1 >= c.threshold then Some(now) else b.openedAt)
  }

  /** What the calls to one backend do to its breaker, in whatever order they overlap. */
  datatype Event = Check(now: int) | Record(ok: bool, now: int)

  function Step(c: Config, b: Breaker, e: Event): Breaker {
    match e
    case Check(now) => Checked(c, b, now).0
    case Record(ok, now) => Recorded(c, b, ok, now)
  }

  function After(c: Config, b: Breaker, events: seq<Event>): Breaker {
    if events == [] then b else Step(c, After(c, b, events[..|events| - 1]), events[|events| - 1])
  }

  /** The failures recorded since the last success. */
  function FailuresInARow(events: seq<Event>): nat {
    if events == [] then 0
    else
      var before, e := FailuresInARow(events[..|events| - 1]), events[|events| - 1];
      match e
      case Check(_) => before
      case Record(ok, _) => if ok then 0 else before + 1
  }

  /** The breaker counts failures in a row, and it is open only once there are enough of them. */
  lemma {:induction false} OpensAfterThreshold(c: Config, events: seq<Event>)
    ensures var b := After(c, CLOSED, events);
            && b.failures == FailuresInARow(events)
            && (b.openedAt.Some? ==> FailuresInARow(events) >= c.threshold)
    decreases |events|
  {
    if events != [] { OpensAfterThreshold(c, events[..|events| - 1]); }
  }

  /** Event m is a failure that makes enough of them in a row: it opens the breaker, or opens it anew. */
  predicate Opens(c: Config, events: seq<Event>, m: nat)
    requires m < |events|
  {
    events[m].Record? && !events[m].ok && FailuresInARow(events[..m]) + 1 >= c.threshold
  }

  predicate LastOpening(c: Config, events: seq<Event>, m: nat) {
    m < |events| && Opens(c, events, m) && forall n :: m < n < |events| ==> !Opens(c, events, n)
  }

  ghost predicate SucceededSince(events: seq<Event>, m: nat) {
    exists n :: m < n < |events| && events[n].Record? && events[n].ok
  }

  /** All times after event m are within the cooldown that it started. */
  predicate WithinCooldown(c: Config, events: seq<Event>, m: nat)
    requires m < |events|
  {
    forall n :: m < n < |events| ==> events[n].now - events[m].now < c.cooldown
  }

  lemma {:induction false} OpenUntilSuccess(c: Config, events: seq<Event>, m: nat)
    requires LastOpening(c, events, m) && WithinCooldown(c, events, m)
    ensures After(c, CLOSED, events).openedAt == if SucceededSince(events, m) then None else Some(events[m].now)
    decreases |events|
  {
    var last := |events| - 1;
    var shorter := events[..last];
    OpensAfterThreshold(c, shorter);
    if m < last {
      assert forall n :: 0 <= n <= last ==> shorter[..n] == events[..n];
      assert forall n :: 0 <= n < last ==> (Opens(c, shorter, n) <==> Opens(c, events, n));
      OpenUntilSuccess(c, shorter, m);
      assert SucceededSince(events, m) <==> SucceededSince(shorter, m) || (events[last].Record? && events[last].ok) by {
        if SucceededSince(shorter, m) {
          var n :| m < n < |shorter| && shorter[n].Record? && shorter[n].ok;
          assert events[n].ok;
        }
      }
      assert !Opens(c, events, last);
    } else {
      assert !SucceededSince(events, m);
    }
  }

  /**
   * Whatever calls overlap: within the cooldown of the last opening a call goes ahead exactly if the
   * success of another one was recorded since then.
   */
  lemma PassesExactlyAfterSuccess(c: Config, events: seq<Event>, m: nat, now: int)
    requires LastOpening(c, events, m) && WithinCooldown(c, events, m) && now - events[m].now < c.cooldown
    ensures Checked(c, After(c, CLOSED, events), now).1 <==> SucceededSince(events, m)
  {
    OpenUntilSuccess(c, events, m);
  }

  /** A breaker that is open has a last opening, and that is when it opened. */
  lemma {:induction false} OpenHasOpening(c: Config, events: seq<Event>) returns (m: nat)
    requires After(c, CLOSED, events).openedAt.Some?
    ensures LastOpening(c, events, m) && After(c, CLOSED, events).openedAt == Some(events[m].now)
    decreases |events|
  {
    var last := |events| - 1;
    var shorter := events[..last];
    OpensAfterThreshold(c, shorter);
    if Opens(c, events, last) {
      m := last;
    } else {
      m := OpenHasOpening(c, shorter);
      assert forall n :: 0 <= n <= last ==> shorter[..n] == events[..n];
      assert forall n :: 0 <= n < last ==> (Opens(c, shorter, n) <==> Opens(c, events, n));
    }
  }

  /**
   * After any events, a failure (the trial's, or any other) leaves the breaker open, as of now, exactly
   * if it makes enough failures in a row; a success that overlaps the trial starts the count again.
   */
  lemma FailureOpensExactly(c: Config, events: seq<Event>, now: int)
    ensures var b := Recorded(c, After(c, CLOSED, events), false, now);
            (b.openedAt.Some? <==> FailuresInARow(events) + 1 >= c.threshold) && (b.openedAt.Some? ==> b.openedAt == Some(now))
  {
    OpensAfterThreshold(c, events);
  }

  function Checks(times: seq<int>): (events: seq<Event>)
    ensures |events| == |times| && forall k :: 0 <= k < |times| ==> events[k] == Check(times[k])
  {
    seq(|times|, k requires 0 <= k < |times| => Check(times[k]))
  }

  /** How many of the checks go ahead. */
  function LetThrough(c: Config, b: Breaker, times: seq<int>): nat {
    if times == [] then 0
    else
      var last := |times| - 1;
      LetThrough(c, b, times[..last]) + (if Checked(c, After(c, b, Checks(times[..last])), times[last]).1 then 1 else 0)
  }

  /**
   * After the cooldown every call that checks before the next outcome is recorded goes ahead, not
   * the trial alone: so one call goes ahead exactly if one call checks.
   */
  lemma {:induction false} HalfOpenLetsAllThrough(c: Config, b: Breaker, times: seq<int>)
    requires b.openedAt.Some? && (times != [] ==> times[0] - b.openedAt.value >= c.cooldown)
    ensures LetThrough(c, b, times) == |times|
    ensures After(c, b, Checks(times)) == if times == [] then b else b.(openedAt := None)
    decreases |times|
  {
    if times != [] {
      var shorter := times[..|times| - 1];
      HalfOpenLetsAllThrough(c, b, shorter);
      assert Checks(times)[..|times| - 1] == Checks(shorter);
    }
  }

  // ----- One call -----

  datatype Answer = Data(raw: string) | Error(code: string, retryable: bool)

  const CIRCUIT_OPEN := Error("circuit_open", true)

  /** What the breaker is told of an attempt that got an answer: a failure is an error worth retrying, and no other error counts. */
  function Outcome(answer: Answer, now: int): seq<Event> {
    match answer
    case Data(_) => [Record(true, now)]
    case Error(_, retryable) => if retryable then [Record(false, now)] else []
  }

  /** All that happens to the breaker during the first n attempts of a call, each of which gets an answer. */
  function Attempts(answers: nat -> Answer, others: nat -> seq<Event>, clock: nat -> int, n: nat): seq<Event> {
    if n == 0 then []
    else Attempts(answers, others, clock, n - 1) + others(n) + [Check(clock(n))] + Outcome(answers(n), clock(n))
  }

  lemma {:induction false} AfterJoins(c: Config, b: Breaker, x: seq<Event>, y: seq<Event>)
    ensures After(c, b, x + y) == After(c, After(c, b, x), y)
    decreases |y|
  {
    if y == [] {
      assert x + y == x;
    } else {
      assert (x + y)[..|x + y| - 1] == x + y[..|y| - 1];
      AfterJoins(c, b, x, y[..|y| - 1]);
    }
  }

  lemma AfterOne(c: Config, b: Breaker, x: seq<Event>, e: Event)
    ensures After(c, b, x + [e]) == Step(c, After(c, b, x), e)
  {
    assert (x + [e])[..|x|] == x;
  }

  class CircuitBreaker {
    const config: Config
    var failures: nat
    var openedAt: Option<int>

    function View(): Breaker
      reads this
    {
      Breaker(failures, openedAt)
    }

    constructor (c: Config)
      ensures config == c && View() == CLOSED
    {
      config, failures, openedAt := c, 0, None;
    }

    method Pass(now: int) returns (ok: bool)
      modifies this
      ensures (View(), ok) == Checked(config, old(View()), now)
    {
      if openedAt.None? { return true; }
      if now - openedAt.value < config.cooldown { return false; }
      openedAt := None;
      ok := true;
    }

    method Note(ok: bool, now: int)
      modifies this
      ensures View() == Recorded(config, old(View()), ok, now)
    {
      if ok {
        failures, openedAt := 0, None;
        return;
      }
      failures := failures + 1;
      if failures >= config.threshold { openedAt := Some(now); }
    }

    /** What other calls to the backend do in the meantime. */
    method Others(events: seq<Event>)
      modifies this
      ensures View() == After(config, old(View()), events)
    {
      for k := 0 to |events|
        invariant View() == After(config, old(View()), events[..k])
      {
        match events[k] {
          case Check(now) => var _ := Pass(now);
          case Record(ok, now) => Note(ok, now);
        }
        assert events[..k + 1][..k] == events[..k];
      }
      assert events[..|events|] == events;
    }

    /**
     * Try until an answer comes, an error is not worth retrying, the attempts are used up or the
     * breaker stops the call. Attempt n is answered by answers(n); others(n) is what other calls do to the breaker before it.
     */
    method Fetch(answers: nat -> Answer, others: nat -> seq<Event>, clock: nat -> int) 
      returns (r: Answer, attempts: nat, stopped: bool)
      modifies this
      ensures 1 <= attempts <= config.retries + 1
      ensures forall n :: 1 <= n < attempts ==> answers(n).Error? && answers(n).retryable
      ensures stopped ==> r == CIRCUIT_OPEN && openedAt.Some? && clock(attempts) - openedAt.value < config.cooldown
      ensures !stopped ==> Checked(config, After(config, old(View()), Attempts(answers, others, clock, attempts - 1) + others(attempts)), clock(attempts)).1
      ensures !stopped ==> r == answers(attempts) && (r.Error? && r.retryable ==> attempts == config.retries + 1)
      ensures !stopped && r.Data? ==> View() == CLOSED
      ensures !stopped && r.Error? ==>
        var before := After(config, old(View()), Attempts(answers, others, clock, attempts - 1) + others(attempts));
        if r.retryable then failures == before.failures + 1 else View() == before || View() == before.(openedAt := None)
      ensures View() == After(config, old(View()),
                              if stopped then Attempts(answers, others, clock, attempts - 1) + others(attempts) + [Check(clock(attempts))]
                              else Attempts(answers, others, clock, attempts))
    {
      hide After, Step, Checked, Recorded;
      attempts, stopped := 0, false;
      ghost var start := View();
      NothingHappened(config, start);
      while true
        invariant attempts <= config.retries
        invariant forall n :: 1 <= n <= attempts ==> answers(n).Error? && answers(n).retryable
        invariant View() == After(config, start, Attempts(answers, others, clock, attempts))
        decreases config.retries - attempts
      {
        ghost var before := Attempts(answers, others, clock, attempts);
        attempts := attempts + 1;
        var ok := Try(others(attempts), clock(attempts), start, before);
        if !ok { return CIRCUIT_OPEN, attempts, true; }
        r := answers(attempts);
        Settle(r, clock(attempts), start, before + others(attempts) + [Check(clock(attempts))]);
        if r.Data? || !r.retryable || attempts > config.retries { return; }
      }
    }

    /** What others do, and then whether this attempt may go ahead. */
    method Try(others: seq<Event>, now: int, ghost start: Breaker, ghost before: seq<Event>) returns (ok: bool)
      requires View() == After(config, start, before)
      modifies this
      ensures View() == After(config, start, before + others + [Check(now)])
      ensures !ok ==> openedAt.Some? && now - openedAt.value < config.cooldown
      ensures !ok <==> !Checked(config, After(config, start, before + others), now).1
      ensures var b := After(config, start, before + others); View() == b || View() == b.(openedAt := None)
    {
      Others(others);
      AfterJoins(config, start, before, others);
      ok := Pass(now);
      AfterOne(config, start, before + others, Check(now));
    }

    /** Tell the breaker what came of the attempt. */
    method Settle(r: Answer, now: int, ghost start: Breaker, ghost before: seq<Event>)
      requires View() == After(config, start, before)
      modifies this
      ensures View() == After(config, start, before + Outcome(r, now))
      ensures r.Data? ==> View() == CLOSED
      ensures r.Error? ==> if r.retryable then failures == old(failures) + 1 else View() == old(View())
    {
      if r.Data? {
        Note(true, now);
        AfterOne(config, start, before, Record(true, now));
      } else if r.retryable {
        Note(false, now);
        AfterOne(config, start, before, Record(false, now));
      } else {
        assert before + [] == before;
      }
    }
  }

  lemma NothingHappened(c: Config, b: Breaker)
    ensures After(c, b, []) == b
  {
  }
}
