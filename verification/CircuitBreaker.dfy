/**
  The circuit breaker that guards one LLM provider: the mutable object, the
  value-level step function it follows, and what the breaker promises over whole
  histories. Every clock reading is a parameter.
 */
module CircuitBreakers {

  datatype Circuit = Closed | Open | HalfOpen

  /** The thresholds of a breaker; durations are in nanoseconds. */
  datatype Config = Config(failureThreshold: nat, successThreshold: nat, openDuration: nat) {
    predicate Sensible() {
      failureThreshold > 0 && successThreshold > 0 && openDuration > 0
    }
  }

  const DEFAULT_CONFIG := Config(5, 2, 30_000_000_000)

  datatype Breaker = Breaker(state: Circuit, failures: nat, successes: nat, lastFailure: int)

  const FRESH := Breaker(Closed, 0, 0, 0)

  predicate Cooled(c: Config, b: Breaker, now: int) {
    now - b.lastFailure >= c.openDuration
  }

  /** The answer of Allow. */
  predicate Admits(c: Config, b: Breaker, now: int) {
    b.state != Open || Cooled(c, b, now)
  }

  /** The calls a breaker can receive, each with the time at which it is made. */
  datatype Op = Ask(at: int) | Succeed(at: int) | Fail(at: int) | Poll(at: int)

  function Step(c: Config, b: Breaker, op: Op): Breaker {
    match op
    case Ask(now) =>
      if b.state == Open && Cooled(c, b, now) then b.(state := HalfOpen, successes := 0) else b
    case Succeed(_) =>
      if b.state == HalfOpen then
        b.(failures := 0, successes := b.successes + 1,
           state := if b.successes + 1 >= c.successThreshold then Closed else HalfOpen)
      else b.(failures := 0)
    case Fail(now) =>
      Breaker(if b.failures + 1 >= c.failureThreshold then Open else b.state, b.failures + 1, 0, now)
    case Poll(now) =>
      if b.state == Open && Cooled(c, b, now) then b.(state := HalfOpen) else b
  }

  /** The breaker after a history that starts from a new breaker. */
  function Run(c: Config, ops: seq<Op>): Breaker {
    if ops == [] then FRESH else Step(c, Run(c, ops[..|ops| - 1]), ops[|ops| - 1])
  }

  class CircuitBreaker {
    var state: Circuit
    var failures: nat
    var successes: nat
    var failureThreshold: nat
    var successThreshold: nat
    var openDuration: nat
    var lastFailure: int
    ghost const provider: string  // the provider this breaker guards

    ghost function Settings(): Config
      reads this
    {
      Config(failureThreshold, successThreshold, openDuration)
    }

    ghost function View(): Breaker
      reads this
    {
      Breaker(state, failures, successes, lastFailure)
    }

    constructor (ghost provider: string)
      ensures View() == FRESH && Settings() == DEFAULT_CONFIG && this.provider == provider
      ensures failureThreshold == 5 && successThreshold == 2 && openDuration == 30_000_000_000
    {
      this.provider := provider;
      state, failures, successes, lastFailure := Closed, 0, 0, 0;
      failureThreshold, successThreshold, openDuration := 5, 2, 30_000_000_000;
    }

    method Allow(now: int) returns (ok: bool)
      modifies this
      ensures Settings() == old(Settings())
      ensures ok == Admits(Settings(), old(View()), now)
      ensures View() == Step(Settings(), old(View()), Ask(now))
    {
      match state {
        case Closed => ok := true;
        case Open =>
          if now - lastFailure >= openDuration {
            state := HalfOpen;
            successes := 0;
            ok := true;
          } else {
            ok := false;
          }
        case HalfOpen => ok := true;
      }
    }

    method RecordSuccess(ghost now: int)
      modifies this
      ensures Settings() == old(Settings())
      ensures View() == Step(Settings(), old(View()), Succeed(now))
    {
      failures := 0;
      if state == HalfOpen {
        successes := successes + 1;
        if successes >= successThreshold {
          state := Closed;
        }
      }
    }

    method RecordFailure(now: int)
      modifies this
      ensures Settings() == old(Settings())
      ensures View() == Step(Settings(), old(View()), Fail(now))
    {
      failures := failures + 1;
      lastFailure := now;
      successes := 0;
      if failures >= failureThreshold {
        state := Open;
      }
    }

    method State(now: int) returns (s: Circuit)
      modifies this
      ensures Settings() == old(Settings())
      ensures View() == Step(Settings(), old(View()), Poll(now)) && s == View().state
    {
      if state == Open && now - lastFailure >= openDuration {
        state := HalfOpen;
      }
      s := state;
    }
  }

  // ---------- The history specification ----------

  /** The length of the trailing run of failures among the recorded results. */
  ghost function TrailingFailures(ops: seq<Op>): nat {
    if ops == [] then 0
    else match ops[|ops| - 1]
      case Fail(_) => 1 + TrailingFailures(ops[..|ops| - 1])
      case Succeed(_) => 0
      case _ => TrailingFailures(ops[..|ops| - 1])
  }

  /** The length of the trailing run of successes among the recorded results. */
  ghost function TrailingSuccesses(ops: seq<Op>): nat {
    if ops == [] then 0
    else match ops[|ops| - 1]
      case Succeed(_) => 1 + TrailingSuccesses(ops[..|ops| - 1])
      case Fail(_) => 0
      case _ => TrailingSuccesses(ops[..|ops| - 1])
  }

  /** The time of the last recorded failure, and 0 before the first one. */
  ghost function LastFailure(ops: seq<Op>): int {
    if ops == [] then 0
    else if ops[|ops| - 1].Fail? then ops[|ops| - 1].at
    else LastFailure(ops[..|ops| - 1])
  }

  /** Where the current half-open phase starts: after this many operations, and at
      every later point, the breaker was half-open. */
  ghost function HalfOpenSince(c: Config, ops: seq<Op>): (k: nat)
    ensures k <= |ops|
    ensures forall j :: k <= j < |ops| ==> Run(c, ops[..j]).state == HalfOpen
  {
    if ops != [] && Run(c, ops).state == HalfOpen && Run(c, ops[..|ops| - 1]).state == HalfOpen then
      var k := HalfOpenSince(c, ops[..|ops| - 1]);
      assert forall j :: k <= j < |ops| - 1 ==> ops[..|ops| - 1][..j] == ops[..j];
      k
    else |ops|
  }

  /** The successes in a row recorded in the current half-open phase. */
  ghost function Streak(c: Config, ops: seq<Op>): nat {
    TrailingSuccesses(ops[HalfOpenSince(c, ops)..])
  }

  lemma TrailingSuccessesSnoc(ops: seq<Op>, op: Op)
    ensures TrailingSuccesses(ops + [op]) ==
            if op.Succeed? then 1 + TrailingSuccesses(ops)
            else if op.Fail? then 0 else TrailingSuccesses(ops)
  {
    assert (ops + [op])[..|ops|] == ops;
  }

  /** What the fields of a reachable breaker keep, whatever the history. */
  ghost predicate Sound(c: Config, b: Breaker) {
    && (b.state == Closed ==> b.failures < c.failureThreshold)
    && (b.state == Open ==> b.successes == 0)
    && (b.state == HalfOpen ==> b.successes < c.successThreshold)
  }

  lemma {:induction false} CountsFollowHistory(c: Config, ops: seq<Op>)
    requires c.Sensible()
    ensures Run(c, ops).failures == TrailingFailures(ops) && Run(c, ops).lastFailure == LastFailure(ops)
    ensures Sound(c, Run(c, ops))
  {
    if ops != [] {
      CountsFollowHistory(c, ops[..|ops| - 1]);
    }
  }

  /** One more operation in the same half-open phase. */
  lemma StreakGrows(c: Config, ops: seq<Op>)
    requires ops != [] && Run(c, ops).state == HalfOpen && Run(c, ops[..|ops| - 1]).state == HalfOpen
    ensures var last, was := ops[|ops| - 1], Streak(c, ops[..|ops| - 1]);
            Streak(c, ops) == if last.Succeed? then 1 + was else if last.Fail? then 0 else was
  {
    var prefix, op := ops[..|ops| - 1], ops[|ops| - 1];
    var k := HalfOpenSince(c, prefix);
    assert ops[k..] == prefix[k..] + [op];
    TrailingSuccessesSnoc(prefix[k..], op);
  }

  lemma {:induction false} SuccessesAreStreak(c: Config, ops: seq<Op>)
    requires c.Sensible() && Run(c, ops).state == HalfOpen
    ensures Run(c, ops).successes == Streak(c, ops)
  {
    var prefix := ops[..|ops| - 1];
    CountsFollowHistory(c, prefix);
    if Run(c, prefix).state == HalfOpen {
      SuccessesAreStreak(c, prefix);
      StreakGrows(c, ops);
    } else {
      assert ops[|ops|..] == [];
    }
  }

  /** Every field of the breaker is a function of the history, in every state of every
      operation sequence: overlapping requests and late results included. */
  lemma BreakerRefinesHistory(c: Config, ops: seq<Op>)
    requires c.Sensible()
    ensures Run(c, ops).failures == TrailingFailures(ops)
    ensures Run(c, ops).lastFailure == LastFailure(ops)
    ensures Run(c, ops).state == Closed ==> TrailingFailures(ops) < c.failureThreshold
    ensures Run(c, ops).state == Open ==> Run(c, ops).successes == 0
    ensures Run(c, ops).state == HalfOpen ==> Run(c, ops).successes == Streak(c, ops) < c.successThreshold
  {
    CountsFollowHistory(c, ops);
    if Run(c, ops).state == HalfOpen {
      SuccessesAreStreak(c, ops);
    }
  }

  lemma RunSnoc(c: Config, ops: seq<Op>, op: Op)
    ensures Run(c, ops + [op]) == Step(c, Run(c, ops), op)
  {
    assert (ops + [op])[..|ops|] == ops;
  }

  lemma StepCloses(c: Config, b: Breaker, op: Op, streak: nat)
    requires c.Sensible() && b.state != Closed
    requires b.state == HalfOpen ==> b.successes == streak < c.successThreshold
    ensures Step(c, b, op).state == Closed <==>
            op.Succeed? && b.state == HalfOpen && 1 + streak == c.successThreshold
  {
  }

  /** A breaker that is not closed closes exactly at a success that makes the streak of the
      current half-open phase as long as the success threshold. */
  lemma ClosesExactlyAtThreshold(c: Config, ops: seq<Op>, op: Op)
    requires c.Sensible() && Run(c, ops).state != Closed
    ensures Run(c, ops + [op]).state == Closed <==>
            op.Succeed? && Run(c, ops).state == HalfOpen &&
            TrailingSuccesses(ops[HalfOpenSince(c, ops)..] + [op]) == c.successThreshold
  {
    var phase := ops[HalfOpenSince(c, ops)..];
    BreakerRefinesHistory(c, ops);
    RunSnoc(c, ops, op);
    StepCloses(c, Run(c, ops), op, TrailingSuccesses(phase));
    TrailingSuccessesSnoc(phase, op);
  }

  // ---------- When a breaker opens ----------

  /** A breaker opens exactly at a failure that completes a run of threshold failures, a run that goes on in
      the open state keeps it open, and an open breaker leaves its state exactly when it is asked or polled
      after the cool-down, which makes it half-open. */
  lemma TransitionsAreExact(c: Config, ops: seq<Op>, op: Op)
    requires c.Sensible()
    ensures var was, now, run := Run(c, ops).state, Run(c, ops + [op]).state, TrailingFailures(ops + [op]);
            && (was == Closed ==> now == if op.Fail? && run == c.failureThreshold then Open else Closed)
            && (was == HalfOpen && !op.Succeed? ==>
                  now == if op.Fail? && run >= c.failureThreshold then Open else HalfOpen)
            && (was == HalfOpen && op.Succeed? ==> now != Open)
            && (was == Open ==>
                  now == if (op.Ask? || op.Poll?) && op.at >= LastFailure(ops) + c.openDuration then HalfOpen else Open)
  {
    assert (ops + [op])[..|ops|] == ops;
    BreakerRefinesHistory(c, ops);
    RunSnoc(c, ops, op);
  }

  /** A breaker whose results never contained threshold failures in a row reports that it is closed. */
  lemma {:induction false} ClosedWithoutFailureRun(c: Config, ops: seq<Op>)
    requires c.Sensible() && forall k :: 0 <= k <= |ops| ==> TrailingFailures(ops[..k]) < c.failureThreshold
    ensures Run(c, ops).state == Closed
  {
    if ops != [] {
      var init, last := ops[..|ops| - 1], ops[|ops| - 1];
      forall k | 0 <= k <= |init| ensures TrailingFailures(init[..k]) < c.failureThreshold {
        assert init[..k] == ops[..k];
      }
      ClosedWithoutFailureRun(c, init);
      TransitionsAreExact(c, init, last);
      assert init + [last] == ops && ops[..|ops|] == ops;
    }
  }

  // ---------- Cool-down ----------

  /** The clock readings of the history are in order. */
  ghost predicate Clocked(ops: seq<Op>) {
    forall i, j :: 0 <= i < j < |ops| ==> ops[i].at <= ops[j].at
  }

  lemma {:induction false} OpenUntilCooled(c: Config, ops: seq<Op>, now: int)
    requires c.Sensible() && Clocked(ops)
    requires forall i :: 0 <= i < |ops| ==> ops[i].at <= now
    requires TrailingFailures(ops) >= c.failureThreshold
    requires now < LastFailure(ops) + c.openDuration
    ensures Run(c, ops).state == Open
  {
    var prefix, op := ops[..|ops| - 1], ops[|ops| - 1];
    BreakerRefinesHistory(c, prefix);
    if !op.Fail? {
      OpenUntilCooled(c, prefix, op.at);
    }
  }

  /** A history that ends in enough failures refuses every request during the cool-down. */
  lemma RefusedDuringCoolDown(c: Config, ops: seq<Op>, now: int)
    requires c.Sensible() && Clocked(ops + [Ask(now)])
    requires TrailingFailures(ops) >= c.failureThreshold
    requires now < LastFailure(ops) + c.openDuration
    ensures !Admits(c, Run(c, ops), now)
  {
    assert ops == (ops + [Ask(now)])[..|ops|];
    forall i | 0 <= i < |ops| ensures ops[i].at <= now {
      assert (ops + [Ask(now)])[i] == ops[i] && (ops + [Ask(now)])[|ops|] == Ask(now);
    }
    OpenUntilCooled(c, ops, now);
    BreakerRefinesHistory(c, ops);
  }

  /** Every refusal has a recorded failure less than the cool-down ago. */
  lemma {:induction false} RefusalHasRecentFailure(c: Config, ops: seq<Op>, now: int)
    requires c.Sensible() && !Admits(c, Run(c, ops), now)
    ensures exists k :: 0 <= k < |ops| && ops[k].Fail? && now - ops[k].at < c.openDuration
  {
    var prefix, op := ops[..|ops| - 1], ops[|ops| - 1];
    if !op.Fail? {
      RefusalHasRecentFailure(c, prefix, now);
      var k :| 0 <= k < |prefix| && prefix[k].Fail? && now - prefix[k].at < c.openDuration;
      assert ops[k] == prefix[k];
    }
  }

  ghost predicate Reachable(c: Config, b: Breaker) {
    exists ops :: b == Run(c, ops)
  }

  lemma ReachableIsSound(c: Config, b: Breaker)
    requires c.Sensible() && Reachable(c, b)
    ensures Sound(c, b)
  {
    var ops :| b == Run(c, ops);
    BreakerRefinesHistory(c, ops);
  }

  /** The operations of a series of requests that are admitted and succeed. */
  function Probes(times: seq<int>): seq<Op> {
    if times == [] then [] else [Ask(times[0]), Succeed(times[0])] + Probes(times[1..])
  }

  function RunFrom(c: Config, b: Breaker, ops: seq<Op>): Breaker
    decreases |ops|
  {
    if ops == [] then b else RunFrom(c, Step(c, b, ops[0]), ops[1..])
  }

  ghost predicate AllAdmitted(c: Config, b: Breaker, ops: seq<Op>)
    decreases |ops|
  {
    ops == [] ||
    ((ops[0].Ask? ==> Admits(c, b, ops[0].at)) && AllAdmitted(c, Step(c, b, ops[0]), ops[1..]))
  }

  lemma {:induction false} ProbesClose(c: Config, b: Breaker, times: seq<int>)
    requires c.Sensible() && Sound(c, b)
    requires forall i :: 0 <= i < |times| ==> Cooled(c, b, times[i])
    requires match b.state
             case Closed => true
             case HalfOpen => |times| >= c.successThreshold - b.successes
             case Open => |times| >= c.successThreshold
    ensures RunFrom(c, b, Probes(times)).state == Closed
    ensures AllAdmitted(c, b, Probes(times))
    decreases |times|
  {
    if times != [] {
      var ops, asked := Probes(times), Step(c, b, Ask(times[0]));
      var b' := Step(c, asked, Succeed(times[0]));
      assert ops[1..][0] == Succeed(times[0]) && ops[1..][1..] == Probes(times[1..]);
      ProbesClose(c, b', times[1..]);
      assert RunFrom(c, b, ops) == RunFrom(c, asked, ops[1..]) == RunFrom(c, b', Probes(times[1..]));
      assert AllAdmitted(c, asked, ops[1..]);
    }
  }

  /** From any reachable breaker that is past its cool-down, as many successful requests as the
      success threshold are all admitted and leave the circuit closed. */
  lemma RecoversAfterCoolDown(c: Config, b: Breaker, times: seq<int>)
    requires c.Sensible() && Reachable(c, b)
    requires |times| == c.successThreshold
    requires forall i :: 0 <= i < |times| ==> Cooled(c, b, times[i])
    ensures RunFrom(c, b, Probes(times)).state == Closed
    ensures AllAdmitted(c, b, Probes(times))
  {
    ReachableIsSound(c, b);
    ProbesClose(c, b, times);
  }

  lemma {:induction false} RunFromAppend(c: Config, b: Breaker, xs: seq<Op>, ys: seq<Op>)
    ensures RunFrom(c, b, xs + ys) == RunFrom(c, RunFrom(c, b, xs), ys)
    decreases |xs|
  {
    if xs == [] {
      assert xs + ys == ys;
    } else {
      assert (xs + ys)[1..] == xs[1..] + ys;
      RunFromAppend(c, Step(c, b, xs[0]), xs[1..], ys);
    }
  }

  // ---------- Health polls ----------

  /** The operations are in the order of their times, from the given time on. */
  ghost predicate InTime(ops: seq<Op>, now: int)
    decreases |ops|
  {
    ops != [] ==> now <= ops[0].at && InTime(ops[1..], ops[0].at)
  }

  /** The answers of Allow, in order. */
  function Answers(c: Config, b: Breaker, ops: seq<Op>): seq<bool>
    decreases |ops|
  {
    if ops == [] then []
    else
      var later := Answers(c, Step(c, b, ops[0]), ops[1..]);
      if ops[0].Ask? then [Admits(c, b, ops[0].at)] + later else later
  }

  function WithoutPolls(ops: seq<Op>): seq<Op> {
    if ops == [] then []
    else
      var later := WithoutPolls(ops[1..]);
      if ops[0].Poll? then later else [ops[0]] + later
  }

  /** What a poll can change: of two breakers with the same failures, the unpolled one may still be open,
      once cooled, when the polled one is not. Whether a breaker that is not open is closed or half-open
      makes no difference to the answers. */
  ghost predicate Follows(c: Config, polled: Breaker, plain: Breaker, now: int) {
    && polled.failures == plain.failures && polled.lastFailure == plain.lastFailure
    && (polled.state == Open ==> plain.state == Open)
    && (plain.state == Open && polled.state != Open ==> Cooled(c, plain, now))
  }

  /** A failure that finds the breaker open and cooled, with too few failures on record to open it. */
  predicate EarlyFailure(c: Config, b: Breaker, op: Op) {
    b.state == Open && op.Fail? && b.failures + 1 < c.failureThreshold && Cooled(c, b, op.at)
  }

  ghost predicate NoneEarly(c: Config, b: Breaker, ops: seq<Op>)
    decreases |ops|
  {
    ops != [] ==> !EarlyFailure(c, b, ops[0]) && NoneEarly(c, Step(c, b, ops[0]), ops[1..])
  }

  lemma PollFollows(c: Config, polled: Breaker, plain: Breaker, at: int, now: int)
    requires Follows(c, polled, plain, now) && now <= at
    ensures Follows(c, Step(c, polled, Poll(at)), plain, at)
  {
  }

  lemma StepFollows(c: Config, polled: Breaker, plain: Breaker, op: Op, now: int)
    requires Follows(c, polled, plain, now) && now <= op.at && !op.Poll? && !EarlyFailure(c, plain, op)
    ensures Follows(c, Step(c, polled, op), Step(c, plain, op), op.at)
    ensures Admits(c, polled, op.at) == Admits(c, plain, op.at)
  {
  }

  /** Polls change no answer of any sequence of operations, overlapping requests included, in which,
      without them, no failure is early. */
  lemma {:induction false} PollsChangeNothing(c: Config, polled: Breaker, plain: Breaker, h: seq<Op>, now: int)
    requires Follows(c, polled, plain, now) && InTime(h, now) && NoneEarly(c, plain, WithoutPolls(h))
    ensures Answers(c, polled, h) == Answers(c, plain, WithoutPolls(h))
    decreases |h|
  {
    if h != [] {
      var op, later := h[0], WithoutPolls(h[1..]);
      if op.Poll? {
        PollFollows(c, polled, plain, op.at, now);
        PollsChangeNothing(c, Step(c, polled, op), plain, h[1..], op.at);
      } else {
        assert ([op] + later)[1..] == later;
        StepFollows(c, polled, plain, op, now);
        PollsChangeNothing(c, Step(c, polled, op), Step(c, plain, op), h[1..], op.at);
      }
    }
  }

  // ---------- Serial requests ----------

  /** Requests are serial: an admitted request records its one result before the next request, and
      a refused one records nothing. Polls come at any time, also while a request is in flight. */
  ghost predicate Serial(c: Config, b: Breaker, h: seq<Op>, busy: bool)
    decreases |h|
  {
    h != [] ==>
      match h[0]
      case Ask(at) => !busy && Serial(c, Step(c, b, h[0]), h[1..], Admits(c, b, at))
      case Poll(_) => Serial(c, Step(c, b, h[0]), h[1..], busy)
      case _ => busy && Serial(c, Step(c, b, h[0]), h[1..], false)
  }

  lemma {:induction false} SerialIsNeverEarly(c: Config, polled: Breaker, plain: Breaker, h: seq<Op>, busy: bool,
      now: int)
    requires Follows(c, polled, plain, now) && InTime(h, now)
    requires Serial(c, polled, h, busy) && (busy ==> plain.state != Open)
    ensures NoneEarly(c, plain, WithoutPolls(h))
    decreases |h|
  {
    if h != [] {
      var op, later := h[0], WithoutPolls(h[1..]);
      if op.Poll? {
        PollFollows(c, polled, plain, op.at, now);
        SerialIsNeverEarly(c, Step(c, polled, op), plain, h[1..], busy, op.at);
      } else {
        assert ([op] + later)[1..] == later;
        StepFollows(c, polled, plain, op, now);
        var busy' := op.Ask? && Admits(c, polled, op.at);
        SerialIsNeverEarly(c, Step(c, polled, op), Step(c, plain, op), h[1..], busy', op.at);
      }
    }
  }

  /** Health polling is harmless: from any breaker, deleting every poll from a serial run, those made
      while a request is in flight included, changes no answer. */
  lemma HealthPollingIsHarmless(c: Config, b: Breaker, h: seq<Op>, now: int)
    requires InTime(h, now) && Serial(c, b, h, false)
    ensures Answers(c, b, h) == Answers(c, b, WithoutPolls(h))
  {
    SerialIsNeverEarly(c, b, b, h, false, now);
    PollsChangeNothing(c, b, b, h, now);
  }

  // ---------- Overlapping requests ----------

  /** How many admitted requests are in flight after an operation. */
  function Flying(c: Config, b: Breaker, n: nat, op: Op): nat {
    match op
    case Ask(at) => if Admits(c, b, at) then n + 1 else n
    case Poll(_) => n
    case _ => if n > 0 then n - 1 else 0
  }

  function InFlight(c: Config, b: Breaker, ops: seq<Op>, n: nat): nat
    decreases |ops|
  {
    if ops == [] then n else InFlight(c, Step(c, b, ops[0]), ops[1..], Flying(c, b, n, ops[0]))
  }

  /** The operations come from requests, any number of them at once: every result is that of a request
      which was admitted and has no result yet. */
  ghost predicate Requests(c: Config, b: Breaker, ops: seq<Op>, n: nat)
    decreases |ops|
  {
    ops != [] ==>
      && (ops[0].Succeed? || ops[0].Fail? ==> n > 0)
      && Requests(c, Step(c, b, ops[0]), ops[1..], Flying(c, b, n, ops[0]))
  }

  /** A success that finds the breaker open and leaves another request in flight. */
  predicate LateSuccess(b: Breaker, n: nat, op: Op) { b.state == Open && op.Succeed? && n > 1 }

  ghost predicate NoLateSuccess(c: Config, b: Breaker, ops: seq<Op>, n: nat)
    decreases |ops|
  {
    ops != [] ==>
      !LateSuccess(b, n, ops[0]) && NoLateSuccess(c, Step(c, b, ops[0]), ops[1..], Flying(c, b, n, ops[0]))
  }

  /** An open breaker has enough failures on record to open again, or nothing is in flight. */
  ghost predicate Settled(c: Config, b: Breaker, n: nat) {
    b.state == Open ==> b.failures >= c.failureThreshold || n == 0
  }

  lemma StepSettles(c: Config, b: Breaker, n: nat, op: Op)
    requires Settled(c, b, n) && (op.Succeed? || op.Fail? ==> n > 0) && !LateSuccess(b, n, op)
    ensures Settled(c, Step(c, b, op), Flying(c, b, n, op)) && !EarlyFailure(c, b, op)
  {
  }

  lemma {:induction false} NoLateSuccessNoneEarly(c: Config, polled: Breaker, plain: Breaker, h: seq<Op>, n: nat,
      now: int)
    requires Follows(c, polled, plain, now) && Settled(c, plain, n) && InTime(h, now)
    requires Requests(c, polled, h, n) && NoLateSuccess(c, plain, WithoutPolls(h), n)
    ensures NoneEarly(c, plain, WithoutPolls(h))
    decreases |h|
  {
    if h != [] {
      var op, later := h[0], WithoutPolls(h[1..]);
      if op.Poll? {
        PollFollows(c, polled, plain, op.at, now);
        NoLateSuccessNoneEarly(c, Step(c, polled, op), plain, h[1..], n, op.at);
      } else {
        assert ([op] + later)[1..] == later;
        StepSettles(c, plain, n, op);
        StepFollows(c, polled, plain, op, now);
        assert Flying(c, polled, n, op) == Flying(c, plain, n, op);
        NoLateSuccessNoneEarly(c, Step(c, polled, op), Step(c, plain, op), h[1..], Flying(c, plain, n, op), op.at);
      }
    }
  }

  /** From any breaker with nothing in flight, polls change no answer of overlapping requests unless a
      success finds the breaker open and leaves another request in flight. */
  lemma PollsHideInOverlaps(c: Config, b: Breaker, h: seq<Op>, now: int)
    requires InTime(h, now) && Requests(c, b, h, 0) && NoLateSuccess(c, b, WithoutPolls(h), 0)
    ensures Answers(c, b, h) == Answers(c, b, WithoutPolls(h))
  {
    NoLateSuccessNoneEarly(c, b, b, h, 0, now);
    PollsChangeNothing(c, b, b, h, now);
  }

  // ---------- Sequences one after another ----------

  lemma {:induction false} AnswersAppend(c: Config, b: Breaker, xs: seq<Op>, ys: seq<Op>)
    ensures Answers(c, b, xs + ys) == Answers(c, b, xs) + Answers(c, RunFrom(c, b, xs), ys)
    decreases |xs|
  {
    if xs == [] {
      assert xs + ys == ys;
    } else {
      assert (xs + ys)[1..] == xs[1..] + ys;
      AnswersAppend(c, Step(c, b, xs[0]), xs[1..], ys);
    }
  }

  lemma {:induction false} RequestsAppend(c: Config, b: Breaker, xs: seq<Op>, ys: seq<Op>, n: nat)
    ensures Requests(c, b, xs + ys, n) <==>
            Requests(c, b, xs, n) && Requests(c, RunFrom(c, b, xs), ys, InFlight(c, b, xs, n))
    ensures InFlight(c, b, xs + ys, n) == InFlight(c, RunFrom(c, b, xs), ys, InFlight(c, b, xs, n))
    decreases |xs|
  {
    if xs == [] {
      assert xs + ys == ys;
    } else {
      assert (xs + ys)[1..] == xs[1..] + ys;
      RequestsAppend(c, Step(c, b, xs[0]), xs[1..], ys, Flying(c, b, n, xs[0]));
    }
  }

  lemma {:induction false} NoLateSuccessAppend(c: Config, b: Breaker, xs: seq<Op>, ys: seq<Op>, n: nat)
    ensures NoLateSuccess(c, b, xs + ys, n) <==>
            NoLateSuccess(c, b, xs, n) && NoLateSuccess(c, RunFrom(c, b, xs), ys, InFlight(c, b, xs, n))
    decreases |xs|
  {
    if xs == [] {
      assert xs + ys == ys;
    } else {
      assert (xs + ys)[1..] == xs[1..] + ys;
      NoLateSuccessAppend(c, Step(c, b, xs[0]), xs[1..], ys, Flying(c, b, n, xs[0]));
    }
  }

  lemma {:induction false} NoneEarlyAppend(c: Config, b: Breaker, xs: seq<Op>, ys: seq<Op>)
    ensures NoneEarly(c, b, xs + ys) <==> NoneEarly(c, b, xs) && NoneEarly(c, RunFrom(c, b, xs), ys)
    decreases |xs|
  {
    if xs == [] {
      assert xs + ys == ys;
    } else {
      assert (xs + ys)[1..] == xs[1..] + ys;
      NoneEarlyAppend(c, Step(c, b, xs[0]), xs[1..], ys);
    }
  }

  lemma {:induction false} WithoutPollsAppend(xs: seq<Op>, ys: seq<Op>)
    ensures WithoutPolls(xs + ys) == WithoutPolls(xs) + WithoutPolls(ys)
  {
    if xs == [] {
      assert xs + ys == ys;
    } else {
      assert (xs + ys)[1..] == xs[1..] + ys;
      WithoutPollsAppend(xs[1..], ys);
    }
  }

  ghost function End(ops: seq<Op>, now: int): int { if ops == [] then now else ops[|ops| - 1].at }

  lemma {:induction false} InTimeAppend(xs: seq<Op>, ys: seq<Op>, now: int)
    ensures InTime(xs + ys, now) <==> InTime(xs, now) && InTime(ys, End(xs, now))
    decreases |xs|
  {
    if xs == [] {
      assert xs + ys == ys;
    } else {
      assert (xs + ys)[1..] == xs[1..] + ys;
      InTimeAppend(xs[1..], ys, xs[0].at);
    }
  }

  // ---------- Exactly when polls show ----------

  /** A failure and the request after it, without and with a poll first. */
  function Plain(t: int): seq<Op> { [Fail(t)] + [Ask(t)] }

  function PolledFirst(t: int): seq<Op> { [Poll(t)] + Plain(t) }

  lemma PlainIsRefused(c: Config, b: Breaker, t: int)
    requires c.Sensible() && b.state == Open
    ensures Answers(c, b, Plain(t)) == [false] && WithoutPolls(Plain(t)) == Plain(t)
    ensures forall n: nat :: NoLateSuccess(c, b, Plain(t), n)
  {
    var ops := Plain(t);
    assert ops[0] == Fail(t) && ops[1..] == [Ask(t)] && [Ask(t)][1..] == [];
    var b' := Step(c, b, Fail(t));
    assert Answers(c, b', [Ask(t)]) == [Admits(c, b', t)] + [];
    assert WithoutPolls([Ask(t)]) == [Ask(t)] + [];
    forall n: nat ensures NoLateSuccess(c, b, Plain(t), n) {
      assert NoLateSuccess(c, b', [Ask(t)], Flying(c, b, n, Fail(t)));
    }
  }

  lemma PolledIsAdmitted(c: Config, b: Breaker, t: int)
    requires c.Sensible() && EarlyFailure(c, b, Fail(t))
    ensures Answers(c, b, PolledFirst(t)) == [true] && WithoutPolls(PolledFirst(t)) == Plain(t)
  {
    PlainIsRefused(c, b, t);
    var ops := PolledFirst(t);
    assert ops[0] == Poll(t) && ops[1..] == Plain(t);
    assert Plain(t)[0] == Fail(t) && Plain(t)[1..] == [Ask(t)] && [Ask(t)][1..] == [];
    var b' := Step(c, Step(c, b, Poll(t)), Fail(t));
    assert Answers(c, b', [Ask(t)]) == [Admits(c, b', t)] + [];
  }

  lemma PolledFirstInTime(t: int, now: int)
    requires now <= t
    ensures InTime(PolledFirst(t), now)
  {
    assert PolledFirst(t)[0] == Poll(t) && PolledFirst(t)[1..] == Plain(t);
    assert Plain(t)[0] == Fail(t) && Plain(t)[1..] == [Ask(t)];
    assert [Ask(t)][0] == Ask(t) && [Ask(t)][1..] == [];
    assert InTime([], t);
    assert InTime([Ask(t)], t);
    assert InTime(Plain(t), t);
  }

  lemma PolledFirstIsRequests(c: Config, b: Breaker, t: int, n: nat)
    requires n > 0
    ensures Requests(c, b, PolledFirst(t), n)
  {
    assert PolledFirst(t)[0] == Poll(t) && PolledFirst(t)[1..] == Plain(t);
    assert Plain(t)[0] == Fail(t) && Plain(t)[1..] == [Ask(t)] && [Ask(t)][1..] == [];
    var b' := Step(c, b, Poll(t));
    assert Requests(c, Step(c, b', Fail(t)), [Ask(t)], n - 1);
    assert Requests(c, b', Plain(t), n);
  }

  /** A poll before an early failure decides the answer after it. */
  lemma PollShows(c: Config, b: Breaker, past: seq<Op>, t: int)
    requires c.Sensible() && WithoutPolls(past) == past && EarlyFailure(c, RunFrom(c, b, past), Fail(t))
    ensures Answers(c, b, past + PolledFirst(t)) == Answers(c, b, past) + [true]
    ensures WithoutPolls(past + PolledFirst(t)) == past + Plain(t)
    ensures Answers(c, b, past + Plain(t)) == Answers(c, b, past) + [false]
  {
    var b' := RunFrom(c, b, past);
    PlainIsRefused(c, b', t);
    PolledIsAdmitted(c, b', t);
    AnswersAppend(c, b, past, PolledFirst(t));
    AnswersAppend(c, b, past, Plain(t));
    WithoutPollsAppend(past, PolledFirst(t));
  }

  lemma LastDiffers(answers: seq<bool>)
    ensures answers + [true] != answers + [false]
  {
    assert (answers + [true])[|answers|] != (answers + [false])[|answers|];
  }

  /** Some placement of polls changes an answer of the run. */
  ghost predicate PollsCanShow(c: Config, b: Breaker, ops: seq<Op>, now: int) {
    exists h :: InTime(h, now) && WithoutPolls(h) == ops && Answers(c, b, h) != Answers(c, b, ops)
  }

  lemma NotEarlyHides(c: Config, b: Breaker, ops: seq<Op>, op: Op, now: int)
    requires NoneEarly(c, b, ops) && !EarlyFailure(c, RunFrom(c, b, ops), op)
    ensures !PollsCanShow(c, b, ops + ([op] + [Ask(op.at)]), now)
  {
    var more, b' := [op] + [Ask(op.at)], RunFrom(c, b, ops);
    assert more[0] == op && more[1..] == [Ask(op.at)] && [Ask(op.at)][1..] == [];
    assert NoneEarly(c, Step(c, b', op), [Ask(op.at)]);
    assert NoneEarly(c, b', more);
    NoneEarlyAppend(c, b, ops, more);
    forall h | InTime(h, now) && WithoutPolls(h) == ops + more ensures Answers(c, b, h) == Answers(c, b, ops + more) {
      PollsChangeNothing(c, b, b, h, now);
    }
  }

  /** From any breaker, after any sequence of operations without an early failure, overlapping requests
      included: some placement of polls changes an answer up to the request after the next operation if
      and only if that operation is an early failure. */
  lemma PollsShowExactlyAtEarlyFailure(c: Config, b: Breaker, ops: seq<Op>, op: Op, now: int)
    requires c.Sensible() && InTime(ops + [op], now) && WithoutPolls(ops) == ops && !op.Poll?
    requires NoneEarly(c, b, ops)
    ensures PollsCanShow(c, b, ops + ([op] + [Ask(op.at)]), now) <==> EarlyFailure(c, RunFrom(c, b, ops), op)
  {
    var t := op.at;
    if EarlyFailure(c, RunFrom(c, b, ops), op) {
      var h := ops + PolledFirst(t);
      PollShows(c, b, ops, t);
      LastDiffers(Answers(c, b, ops));
      InTimeAppend(ops, [op], now);
      PolledFirstInTime(t, End(ops, now));
      InTimeAppend(ops, PolledFirst(t), now);
      assert InTime(h, now) && WithoutPolls(h) == ops + Plain(t);
    } else {
      NotEarlyHides(c, b, ops, op, now);
    }
  }

  /** The run goes on from the given past without another late success. */
  ghost predicate Continues(c: Config, past: seq<Op>, ops: seq<Op>) {
    && |past| <= |ops| && ops[..|past|] == past
    && NoLateSuccess(c, RunFrom(c, FRESH, past), ops[|past|..], InFlight(c, FRESH, past, 0))
  }

  /** Wherever polls fall in the past and in the requests that follow, no answer changes. */
  ghost predicate PollsNeverShow(c: Config, past: seq<Op>) {
    forall h, now :: InTime(h, now) && Requests(c, FRESH, h, 0) && Continues(c, past, WithoutPolls(h)) ==>
      Answers(c, FRESH, h) == Answers(c, FRESH, WithoutPolls(h))
  }

  lemma {:induction false} OneFailureIsNeverEarly(c: Config, b: Breaker, ops: seq<Op>)
    requires c.failureThreshold == 1
    ensures NoneEarly(c, b, ops)
    decreases |ops|
  {
    if ops != [] {
      OneFailureIsNeverEarly(c, Step(c, b, ops[0]), ops[1..]);
    }
  }

  lemma TimelyPollsNeverShow(c: Config, past: seq<Op>)
    requires c.failureThreshold == 1 || NoLateSuccess(c, FRESH, past, 0)
    ensures PollsNeverShow(c, past)
  {
    forall h, now | InTime(h, now) && Requests(c, FRESH, h, 0) && Continues(c, past, WithoutPolls(h))
      ensures Answers(c, FRESH, h) == Answers(c, FRESH, WithoutPolls(h))
    {
      var ops := WithoutPolls(h);
      if c.failureThreshold == 1 {
        OneFailureIsNeverEarly(c, FRESH, ops);
        PollsChangeNothing(c, FRESH, FRESH, h, now);
      } else {
        assert ops == past + ops[|past|..];
        NoLateSuccessAppend(c, FRESH, past, ops[|past|..], 0);
        PollsHideInOverlaps(c, FRESH, h, now);
      }
    }
  }

  lemma LateSuccessShows(c: Config, past: seq<Op>, now: int)
    requires c.Sensible() && c.failureThreshold >= 2 && WithoutPolls(past) == past && InTime(past, now)
    requires Requests(c, FRESH, past, 0) && InFlight(c, FRESH, past, 0) > 0
    requires var b := RunFrom(c, FRESH, past); b.state == Open && b.failures == 0
    ensures !PollsNeverShow(c, past)
  {
    var b := RunFrom(c, FRESH, past);
    var cooled := b.lastFailure + c.openDuration;
    var t := if End(past, now) < cooled then cooled else End(past, now);
    var h := past + PolledFirst(t);
    PollShows(c, FRESH, past, t);
    PlainIsRefused(c, b, t);
    assert (past + Plain(t))[|past|..] == Plain(t) && (past + Plain(t))[..|past|] == past;
    assert Continues(c, past, WithoutPolls(h));
    PolledFirstInTime(t, End(past, now));
    InTimeAppend(past, PolledFirst(t), now);
    PolledFirstIsRequests(c, b, t, InFlight(c, FRESH, past, 0));
    RequestsAppend(c, FRESH, past, PolledFirst(t), 0);
    LastDiffers(Answers(c, FRESH, past));
    assert InTime(h, now) && Requests(c, FRESH, h, 0) && Answers(c, FRESH, h) != Answers(c, FRESH, WithoutPolls(h));
  }

  lemma OneMore(c: Config, ops: seq<Op>, op: Op)
    ensures RunFrom(c, FRESH, ops + [op]) == Step(c, RunFrom(c, FRESH, ops), op)
    ensures InFlight(c, FRESH, ops + [op], 0) == Flying(c, RunFrom(c, FRESH, ops), InFlight(c, FRESH, ops, 0), op)
    ensures NoLateSuccess(c, FRESH, ops + [op], 0) <==>
            NoLateSuccess(c, FRESH, ops, 0) && !LateSuccess(RunFrom(c, FRESH, ops), InFlight(c, FRESH, ops, 0), op)
  {
    var b, n := RunFrom(c, FRESH, ops), InFlight(c, FRESH, ops, 0);
    RunFromAppend(c, FRESH, ops, [op]);
    RequestsAppend(c, FRESH, ops, [op], 0);
    NoLateSuccessAppend(c, FRESH, ops, [op], 0);
    assert [op][1..] == [];
    assert RunFrom(c, b, [op]) == RunFrom(c, Step(c, b, op), []);
    assert InFlight(c, b, [op], n) == InFlight(c, Step(c, b, op), [], Flying(c, b, n, op));
    assert NoLateSuccess(c, Step(c, b, op), [], Flying(c, b, n, op));
  }

  /** After any run of requests without a late success, overlapping requests included, the next operation
      lets polls show in what follows if and only if it is a success that finds the breaker open and
      leaves another request in flight, and more than one failure is needed to open the breaker. */
  lemma PollsShowExactlyAfterLateSuccess(c: Config, ops: seq<Op>, op: Op, now: int)
    requires c.Sensible() && InTime(ops + [op], now) && WithoutPolls(ops + [op]) == ops + [op]
    requires Requests(c, FRESH, ops + [op], 0) && NoLateSuccess(c, FRESH, ops, 0)
    ensures PollsNeverShow(c, ops + [op]) <==>
            c.failureThreshold == 1 || !LateSuccess(RunFrom(c, FRESH, ops), InFlight(c, FRESH, ops, 0), op)
  {
    OneMore(c, ops, op);
    if c.failureThreshold == 1 || !LateSuccess(RunFrom(c, FRESH, ops), InFlight(c, FRESH, ops, 0), op) {
      TimelyPollsNeverShow(c, ops + [op]);
    } else {
      LateSuccessShows(c, ops + [op], now);
    }
  }

  // ---------- A run of the program in which a poll shows ----------

  function Times(op: Op, n: nat): seq<Op> { if n == 0 then [] else [op] + Times(op, n - 1) }

  lemma {:induction false} TimesAsked(c: Config, n: nat, m: nat)
    ensures RunFrom(c, FRESH, Times(Ask(0), n)) == FRESH && WithoutPolls(Times(Ask(0), n)) == Times(Ask(0), n)
    ensures Requests(c, FRESH, Times(Ask(0), n), m) && InFlight(c, FRESH, Times(Ask(0), n), m) == m + n
    decreases n
  {
    if n > 0 {
      assert Times(Ask(0), n)[1..] == Times(Ask(0), n - 1);
      TimesAsked(c, n - 1, m + 1);
    }
  }

  lemma {:induction false} TimesFailed(c: Config, b: Breaker, n: nat, m: nat)
    requires b.state == Closed && b.successes == 0 && b.lastFailure == 0
    requires 0 < n <= m && b.failures + n == c.failureThreshold
    ensures RunFrom(c, b, Times(Fail(0), n)) == Breaker(Open, c.failureThreshold, 0, 0)
    ensures WithoutPolls(Times(Fail(0), n)) == Times(Fail(0), n)
    ensures Requests(c, b, Times(Fail(0), n), m) && InFlight(c, b, Times(Fail(0), n), m) == m - n
    decreases n
  {
    assert Times(Fail(0), n)[1..] == Times(Fail(0), n - 1);
    if n > 1 {
      TimesFailed(c, Step(c, b, Fail(0)), n - 1, m - 1);
    } else {
      assert Times(Fail(0), 0) == [];
    }
  }

  /** Two requests more than the threshold are in flight at once; the first results are failures
      that open the circuit, and then a success comes in. */
  function Overlap(c: Config): seq<Op> {
    Times(Ask(0), c.failureThreshold + 2) + Times(Fail(0), c.failureThreshold) + [Succeed(0)]
  }

  lemma SucceedAtOpen(c: Config, f: nat)
    ensures RunFrom(c, Breaker(Open, f, 0, 0), [Succeed(0)]) == Breaker(Open, 0, 0, 0)
    ensures Requests(c, Breaker(Open, f, 0, 0), [Succeed(0)], 2)
    ensures InFlight(c, Breaker(Open, f, 0, 0), [Succeed(0)], 2) == 1
    ensures WithoutPolls([Succeed(0)]) == [Succeed(0)]
  {
    assert [Succeed(0)][1..] == [];
    assert WithoutPolls([Succeed(0)]) == [Succeed(0)] + [];
  }

  lemma OverlapLeavesOpen(c: Config)
    requires c.Sensible()
    ensures RunFrom(c, FRESH, Overlap(c)) == Breaker(Open, 0, 0, 0) && WithoutPolls(Overlap(c)) == Overlap(c)
    ensures Requests(c, FRESH, Overlap(c), 0) && InFlight(c, FRESH, Overlap(c), 0) == 1
  {
    var n := c.failureThreshold;
    var asks, fails := Times(Ask(0), n + 2), Times(Fail(0), n);
    TimesAsked(c, n + 2, 0);
    TimesFailed(c, FRESH, n, n + 2);
    SucceedAtOpen(c, n);
    RunFromAppend(c, FRESH, asks, fails);
    RunFromAppend(c, FRESH, asks + fails, [Succeed(0)]);
    RequestsAppend(c, FRESH, asks, fails, 0);
    RequestsAppend(c, FRESH, asks + fails, [Succeed(0)], 0);
    WithoutPollsAppend(asks, fails);
    WithoutPollsAppend(asks + fails, [Succeed(0)]);
  }

  lemma VisiblePoll(c: Config)
    requires c.Sensible() && c.failureThreshold >= 2
    ensures var t := c.openDuration;
            && Requests(c, FRESH, Overlap(c) + PolledFirst(t), 0)
            && Answers(c, FRESH, Overlap(c) + PolledFirst(t)) == Answers(c, FRESH, Overlap(c)) + [true]
            && Answers(c, FRESH, Overlap(c) + Plain(t)) == Answers(c, FRESH, Overlap(c)) + [false]
            && WithoutPolls(Overlap(c) + PolledFirst(t)) == Overlap(c) + Plain(t)
  {
    OverlapLeavesOpen(c);
    PollShows(c, FRESH, Overlap(c), c.openDuration);
    PolledFirstIsRequests(c, RunFrom(c, FRESH, Overlap(c)), c.openDuration, 1);
    RequestsAppend(c, FRESH, Overlap(c), PolledFirst(c.openDuration), 0);
  }

  /** The last of those requests fails after the cool-down. With the settings of the program, a poll
      just before decides whether the next request is admitted. */
  lemma OverlapMakesPollingVisible()
    ensures var c, t := DEFAULT_CONFIG, DEFAULT_CONFIG.openDuration;
            && Requests(c, FRESH, Overlap(c) + PolledFirst(t), 0)
            && Answers(c, FRESH, Overlap(c) + PolledFirst(t)) == Answers(c, FRESH, Overlap(c)) + [true]
            && Answers(c, FRESH, Overlap(c) + Plain(t)) == Answers(c, FRESH, Overlap(c)) + [false]
            && WithoutPolls(Overlap(c) + PolledFirst(t)) == Overlap(c) + Plain(t)
  {
    VisiblePoll(DEFAULT_CONFIG);
  }

  // ---------- How often a failing provider is called ----------

  ghost predicate AllFail(h: seq<Op>) { forall i :: 0 <= i < |h| ==> !h[i].Succeed? }

  /** How many requests that start between the two times, both included, are admitted. */
  function AdmittedIn(c: Config, b: Breaker, h: seq<Op>, lo: int, hi: int): nat
    decreases |h|
  {
    if h == [] then 0
    else
      var later := AdmittedIn(c, Step(c, b, h[0]), h[1..], lo, hi);
      if h[0].Ask? && lo <= h[0].at <= hi && Admits(c, b, h[0].at) then later + 1 else later
  }

  /** The breaker has enough failures to open at the next one, and is open, or cooled, or has let
      the request through that is in flight. */
  ghost predicate Tripped(c: Config, b: Breaker, busy: bool, now: int) {
    && b.failures >= c.failureThreshold
    && (if busy then b.state != Open else b.state == Open || (b.state == HalfOpen && Cooled(c, b, now)))
  }

  lemma TimesMonotone(m: int, n: int, d: nat)
    requires m <= n
    ensures m * d <= n * d
  {
  }

  /** Once tripped, admitted requests are a cool-down apart. */
  lemma {:induction false} TrippedBound(c: Config, b: Breaker, h: seq<Op>, busy: bool, now: int, lo: int, hi: int)
    requires c.Sensible() && InTime(h, now) && Serial(c, b, h, busy) && AllFail(h) && Tripped(c, b, busy, now)
    ensures var n := AdmittedIn(c, b, h, lo, hi);
            n == 0 || n * c.openDuration <= hi - if busy then now else b.lastFailure
    decreases |h|
  {
    if h != [] {
      var op, b' := h[0], Step(c, b, h[0]);
      var busy' := if op.Ask? then Admits(c, b, op.at) else op.Poll? && busy;
      TrippedBound(c, b', h[1..], busy', op.at, lo, hi);
      var m := AdmittedIn(c, b', h[1..], lo, hi);
      assert (m + 1) * c.openDuration == m * c.openDuration + c.openDuration;
      if m > 0 { assert m * c.openDuration > 0; }
    }
  }

  /** How many requests can still be admitted before the breaker is tripped. */
  ghost function Burst(c: Config, b: Breaker, busy: bool): nat {
    (if b.failures < c.failureThreshold then c.failureThreshold - b.failures else 1) - if busy then 1 else 0
  }

  lemma {:induction false} BurstBound(c: Config, b: Breaker, h: seq<Op>, busy: bool, now: int, lo: int, hi: int)
    requires c.Sensible() && InTime(h, now) && Serial(c, b, h, busy) && AllFail(h) && lo <= now
    ensures var n := AdmittedIn(c, b, h, lo, hi);
            n <= Burst(c, b, busy) || (n - Burst(c, b, busy)) * c.openDuration <= hi - lo
    decreases |h|
  {
    if h != [] {
      var op, b' := h[0], Step(c, b, h[0]);
      if op.Fail? && b.failures + 1 >= c.failureThreshold {
        TrippedBound(c, b', h[1..], false, op.at, lo, hi);
      } else {
        BurstBound(c, b', h[1..], if op.Ask? then Admits(c, b, op.at) else op.Poll? && busy, op.at, lo, hi);
      }
    }
  }

  lemma {:induction false} AdmittedInWindow(c: Config, b: Breaker, h: seq<Op>, busy: bool, now: int, lo: int, hi: int)
    requires c.Sensible() && InTime(h, now) && Serial(c, b, h, busy) && AllFail(h)
    ensures var n := AdmittedIn(c, b, h, lo, hi);
            n <= c.failureThreshold || (n - c.failureThreshold) * c.openDuration <= hi - lo
    decreases |h|
  {
    if h != [] && h[0].at < lo {
      var op := h[0];
      var busy' := if op.Ask? then Admits(c, b, op.at) else op.Poll? && busy;
      AdmittedInWindow(c, Step(c, b, op), h[1..], busy', op.at, lo, hi);
    } else if h != [] {
      BurstBound(c, b, h, busy, h[0].at, lo, hi);
      var n := AdmittedIn(c, b, h, lo, hi);
      if n > c.failureThreshold {
        TimesMonotone(n - c.failureThreshold, n - Burst(c, b, busy), c.openDuration);
      }
    }
  }

  lemma QuotientBound(k: int, d: nat, w: nat)
    requires d > 0 && k * d <= w
    ensures k <= w / d
  {
    var q := w / d;
    assert w < q * d + d;
    if k > q {
      TimesMonotone(q + 1, k, d);
      assert false;
    }
  }

  /** A provider that fails every call is called at most `failureThreshold` times plus once per
      cool-down in any window of a serial run, whatever breaker the run starts from. */
  lemma FailingProviderIsRarelyCalled(c: Config, b: Breaker, h: seq<Op>, now: int, start: int, width: nat)
    requires c.Sensible() && InTime(h, now) && Serial(c, b, h, false) && AllFail(h)
    ensures AdmittedIn(c, b, h, start, start + width) <= c.failureThreshold + width / c.openDuration
  {
    AdmittedInWindow(c, b, h, false, now, start, start + width);
    var n := AdmittedIn(c, b, h, start, start + width);
    if n > c.failureThreshold {
      QuotientBound(n - c.failureThreshold, c.openDuration, width);
    } else {
      QuotientBound(0, c.openDuration, width);
    }
  }
}
