/**
  Quotas over the usage log and the alerts at 80, 90 and 100 percent. Every SQL statement of a check
  is one step of a state machine, so that usage records, quota changes and the checks of other
  tenants fall between the steps of a check. Costs and percentages are exact reals.
 */
module Quota {
  import opened Usage
  import opened Wrappers

  datatype Limits = Limits(
    maxTokens: Option<int>, maxCost: Option<real>, from: int, to: int, action: string, webhook: string)

  /** The levels 80, 90 and 100, by their position. */
  type Position = i: int | 0 <= i < 3

  function Level(i: Position): int { if i == 0 then 80 else if i == 1 then 90 else 100 }

  /** The three latches of a quota row. */
  datatype Flags = Flags(at80: bool, at90: bool, at100: bool) {
    predicate Up(i: Position) { if i == 0 then at80 else if i == 1 then at90 else at100 }

    function Raise(i: Position): (f: Flags)
      ensures f.Up(i)
    {
      if i == 0 then this.(at80 := true) else if i == 1 then this.(at90 := true) else this.(at100 := true)
    }
  }

  datatype Row = Row(limits: Limits, flags: Flags)

  datatype Status = Status(
    usedTokens: int, usedCost: real, pctTokens: real, pctCost: real, action: string, exceeded: bool)

  // ---------- Percentages ----------

  /** A missing or non-positive limit is no limit. */
  function Percent(used: real, max: Option<real>): real {
    if max.Some? && max.value > 0.0 then used / max.value * 100.0 else 0.0
  }

  function AsReal(n: Option<int>): Option<real> { if n.Some? then Some(n.value as real) else None }

  function StatusOf(l: Limits, t: Totals): Status {
    var pctTokens, pctCost := Percent(t.tokens as real, AsReal(l.maxTokens)), Percent(t.cost, l.maxCost);
    var overTokens := l.maxTokens.Some? && l.maxTokens.value > 0 && pctTokens >= 100.0;
    var overCost := l.maxCost.Some? && l.maxCost.value > 0.0 && pctCost >= 100.0;
    Status(t.tokens, t.cost, pctTokens, pctCost, l.action, overTokens || overCost)
  }

  /** The percentage that alerts are decided by. */
  function Highest(s: Status): real { if s.pctCost > s.pctTokens then s.pctCost else s.pctTokens }

  predicate Crossed(s: Status, i: Position) { Highest(s) >= Level(i) as real }

  lemma PercentReaches(used: real, max: Option<real>, p: real)
    requires p > 0.0
    ensures Percent(used, max) >= p <==> max.Some? && max.value > 0.0 && used * 100.0 >= p * max.value
  {
  }

  /** The used share of a limit that is set has reached the p-th hundredth of it. */
  predicate Reached(l: Limits, t: Totals, p: int) {
    || (l.maxTokens.Some? && l.maxTokens.value > 0 && t.tokens as real * 100.0 >= p as real * l.maxTokens.value as real)
    || (l.maxCost.Some? && l.maxCost.value > 0.0 && t.cost * 100.0 >= p as real * l.maxCost.value)
  }

  /** A status shows the usage itself, and each percentage is that of its own limit, if it has one. */
  lemma StatusShowsUsage(l: Limits, t: Totals)
    ensures StatusOf(l, t).usedTokens == t.tokens && StatusOf(l, t).usedCost == t.cost
    ensures StatusOf(l, t).action == l.action
    ensures if l.maxTokens.Some? && l.maxTokens.value > 0
            then StatusOf(l, t).pctTokens * l.maxTokens.value as real == t.tokens as real * 100.0
            else StatusOf(l, t).pctTokens == 0.0
    ensures if l.maxCost.Some? && l.maxCost.value > 0.0
            then StatusOf(l, t).pctCost * l.maxCost.value == t.cost * 100.0
            else StatusOf(l, t).pctCost == 0.0
  {
    if l.maxTokens.Some? && l.maxTokens.value > 0 {
      PercentOf(t.tokens as real, l.maxTokens.value as real);
    }
    if l.maxCost.Some? && l.maxCost.value > 0.0 {
      PercentOf(t.cost, l.maxCost.value);
    }
  }

  lemma PercentOf(used: real, max: real)
    requires max > 0.0
    ensures (used / max * 100.0) * max == used * 100.0
  {
    var q := used / max;
    assert q * max == used;
    assert (q * 100.0) * max == (q * max) * 100.0;
  }

  /** A level is crossed exactly when one of the limits has been used up to that share. */
  lemma CrossedExactlyWhenReached(l: Limits, t: Totals, i: Position)
    ensures Crossed(StatusOf(l, t), i) <==> Reached(l, t, Level(i))
  {
    PercentReaches(t.tokens as real, AsReal(l.maxTokens), Level(i) as real);
    PercentReaches(t.cost, l.maxCost, Level(i) as real);
  }

  /** A quota is exceeded exactly when the highest percentage is at least 100. */
  lemma ExceededExactlyAtHundred(l: Limits, t: Totals)
    ensures StatusOf(l, t).exceeded <==> Highest(StatusOf(l, t)) >= 100.0
    ensures StatusOf(l, t).exceeded <==> Reached(l, t, 100)
  {
    CrossedExactlyWhenReached(l, t, 2);
  }

  // ---------- The state machine ----------

  type CheckId = nat

  /** Where a check stands: it has read the row, summed the usage, or is in the loop over the levels
      with the flags it loaded before the loop. */
  datatype Check =
    | Read(tenant: TenantId, limits: Limits)
    | Summed(tenant: TenantId, status: Status)
    | Looping(tenant: TenantId, status: Status, flags: Flags, webhook: string, next: Position)

  datatype State = State(events: seq<UsageEvent>, quotas: map<TenantId, Row>, checks: map<CheckId, Check>)

  function Init(): State { State([], map[], map[]) }

  datatype Label =
    | Record(e: UsageEvent)
    | Upsert(tenant: TenantId, limits: Limits)
    | Begin(check: CheckId, tenant: TenantId)
    | Summarize(check: CheckId)
    | Load(check: CheckId)
    | Decide(check: CheckId, marked: bool)
    | GiveUp(check: CheckId)

  predicate Enabled(s: State, l: Label) {
    match l
    case Record(_) => true
    case Upsert(_, _) => true
    case Begin(c, t) => c !in s.checks && t in s.quotas
    case Summarize(c) => c in s.checks && s.checks[c].Read?
    case Load(c) => c in s.checks && s.checks[c].Summed? && s.checks[c].tenant in s.quotas
    case Decide(c, _) => c in s.checks && s.checks[c].Looping?
    case GiveUp(c) => c in s.checks && !s.checks[c].Looping?
  }

  function Upserted(quotas: map<TenantId, Row>, t: TenantId, l: Limits): map<TenantId, Row> {
    quotas[t := Row(l, if t in quotas then quotas[t].flags else Flags(false, false, false))]
  }

  function Marked(quotas: map<TenantId, Row>, t: TenantId, i: Position): map<TenantId, Row> {
    if t in quotas then quotas[t := quotas[t].(flags := quotas[t].flags.Raise(i))] else quotas
  }

  function UsageOf(s: State, t: TenantId, l: Limits): Totals { Summary(s.events, Query(t, l.from, l.to)) }

  /** Whether a check in the loop fires at its next level. */
  predicate WillFire(c: Check)
    requires c.Looping?
  {
    Crossed(c.status, c.next) && !c.flags.Up(c.next)
  }

  function Advance(checks: map<CheckId, Check>, c: CheckId): map<CheckId, Check>
    requires c in checks && checks[c].Looping?
  {
    if checks[c].next < 2 then checks[c := checks[c].(next := checks[c].next + 1)] else checks - {c}
  }

  function Next(s: State, l: Label): State
    requires Enabled(s, l)
  {
    match l
    case Record(e) => s.(events := s.events + [e])
    case Upsert(t, limits) => s.(quotas := Upserted(s.quotas, t, limits))
    case Begin(c, t) => s.(checks := s.checks[c := Read(t, s.quotas[t].limits)])
    case Summarize(c) =>
      var k := s.checks[c];
      s.(checks := s.checks[c := Summed(k.tenant, StatusOf(k.limits, UsageOf(s, k.tenant, k.limits)))])
    case Load(c) =>
      var k, row := s.checks[c], s.quotas[s.checks[c].tenant];
      s.(checks := s.checks[c := Looping(k.tenant, k.status, row.flags, row.limits.webhook, 0)])
    case Decide(c, marked) =>
      var k := s.checks[c];
      var rows := if WillFire(k) && marked then Marked(s.quotas, k.tenant, k.next) else s.quotas;
      State(s.events, rows, Advance(s.checks, c))
    case GiveUp(c) => s.(checks := s.checks - {c})
  }

  /** No two checks of one tenant overlap. */
  predicate Serial(s: State, l: Label) {
    l.Begin? ==> forall c :: c in s.checks ==> s.checks[c].tenant != l.tenant
  }

  /** A run is a history of steps. */
  datatype Run = Start | Then(past: Run, step: Label)

  predicate Possible(s: State, run: Run)
    decreases run, 0
  {
    run.Start? || (Possible(s, run.past) && Enabled(After(s, run.past), run.step))
  }

  function After(s: State, run: Run): State
    requires Possible(s, run)
    decreases run, 1
  {
    if run.Start? then s else Next(After(s, run.past), run.step)
  }

  predicate AllSerial(s: State, run: Run)
    requires Possible(s, run)
  {
    run.Start? || (AllSerial(s, run.past) && Serial(After(s, run.past), run.step))
  }

  // ---------- What a run shows ----------

  datatype Alert = Alert(tenant: TenantId, level: int, webhook: string, status: Status)

  /** The step decides the level in question for the tenant, having seen it crossed. */
  predicate SeesAt(s: State, l: Label, t: TenantId, i: Position)
    requires Enabled(s, l)
  {
    l.Decide? && s.checks[l.check].tenant == t && s.checks[l.check].next == i && Crossed(s.checks[l.check].status, i)
  }

  predicate FiresAt(s: State, l: Label, t: TenantId, i: Position)
    requires Enabled(s, l)
  {
    SeesAt(s, l, t, i) && !s.checks[l.check].flags.Up(i)
  }

  predicate Alerted(s: State, t: TenantId, i: Position) { t in s.quotas && s.quotas[t].flags.Up(i) }

  function One(b: bool): nat { if b then 1 else 0 }

  predicate Saw(s: State, run: Run, t: TenantId, i: Position)
    requires Possible(s, run)
  {
    run.Then? && (Saw(s, run.past, t, i) || SeesAt(After(s, run.past), run.step, t, i))
  }

  function Fires(s: State, run: Run, t: TenantId, i: Position): nat
    requires Possible(s, run)
  {
    if run.Start? then 0 else Fires(s, run.past, t, i) + One(FiresAt(After(s, run.past), run.step, t, i))
  }

  /** Firings whose mark failed. */
  function Missed(s: State, run: Run, t: TenantId, i: Position): nat
    requires Possible(s, run)
  {
    if run.Start? then 0
    else Missed(s, run.past, t, i) + One(FiresAt(After(s, run.past), run.step, t, i) && !run.step.marked)
  }

  /** Firings that marked what was marked already. */
  function Repeated(s: State, run: Run, t: TenantId, i: Position): nat
    requires Possible(s, run)
  {
    if run.Start? then 0
    else
      var before := After(s, run.past);
      Repeated(s, run.past, t, i) + One(FiresAt(before, run.step, t, i) && run.step.marked && Alerted(before, t, i))
  }

  /** The alerts of a run, in order. */
  function Emitted(s: State, run: Run): seq<Alert>
    requires Possible(s, run)
  {
    if run.Start? then [] else Emitted(s, run.past) + Emit(After(s, run.past), run.step)
  }

  function Emit(s: State, l: Label): seq<Alert>
    requires Enabled(s, l)
  {
    if l.Decide? && WillFire(s.checks[l.check]) then [AlertOf(s.checks[l.check])] else []
  }

  /** The alert that a check sends at its next level. */
  function AlertOf(k: Check): Alert
    requires k.Looping?
  {
    Alert(k.tenant, Level(k.next), k.webhook, k.status)
  }

  predicate IsFor(a: Alert, t: TenantId, level: int) { a.tenant == t && a.level == level }

  /** How many of the first k alerts are for the tenant and level. */
  function CountBy(alerts: seq<Alert>, k: nat, t: TenantId, level: int): nat
    requires k <= |alerts|
  {
    if k == 0 then 0 else CountBy(alerts, k - 1, t, level) + One(IsFor(alerts[k - 1], t, level))
  }

  function CountOf(alerts: seq<Alert>, t: TenantId, level: int): nat { CountBy(alerts, |alerts|, t, level) }

  // ---------- Every run ----------

  /** The tenant of a check has a quota. */
  ghost predicate Rooted(s: State) { forall c :: c in s.checks ==> s.checks[c].tenant in s.quotas }

  /** A latch that a check has loaded as up is up. */
  ghost predicate Behind(s: State, k: Check) {
    k.Looping? ==> forall i: Position :: k.flags.Up(i) ==> Alerted(s, k.tenant, i)
  }

  ghost predicate NoneAhead(s: State) { Rooted(s) && forall c :: c in s.checks ==> Behind(s, s.checks[c]) }

  /** One step either leaves the latch of a level alone or fires and raises it. */
  lemma LatchStep(s: State, l: Label, t: TenantId, i: Position)
    requires Enabled(s, l) && Rooted(s)
    ensures Alerted(Next(s, l), t, i) <==> Alerted(s, t, i) || (FiresAt(s, l, t, i) && l.marked)
  {
  }

  lemma StepKeepsBehind(s: State, l: Label)
    requires Enabled(s, l) && NoneAhead(s)
    ensures NoneAhead(Next(s, l))
  {
    var n := Next(s, l);
    forall c | c in n.checks ensures Behind(n, n.checks[c]) {
      if c in s.checks {
        assert Behind(s, s.checks[c]);
      }
    }
  }

  lemma {:induction false} RunKeepsBehind(s: State, run: Run)
    requires NoneAhead(s) && Possible(s, run)
    ensures NoneAhead(After(s, run))
  {
    if run.Then? {
      RunKeepsBehind(s, run.past);
      StepKeepsBehind(After(s, run.past), run.step);
    }
  }

  /** Every firing of every run, overlapping checks included, is accounted for: its mark failed, it
      raised the latch, or the latch was up already. */
  lemma {:induction false} FiringsAreAccountedFor(s: State, run: Run, t: TenantId, i: Position)
    requires NoneAhead(s) && Possible(s, run)
    ensures Fires(s, run, t, i) + One(Alerted(s, t, i))
         == Missed(s, run, t, i) + Repeated(s, run, t, i) + One(Alerted(After(s, run), t, i))
  {
    if run.Then? {
      FiringsAreAccountedFor(s, run.past, t, i);
      RunKeepsBehind(s, run.past);
      LatchStep(After(s, run.past), run.step, t, i);
    }
  }

  lemma {:induction false} RepeatedLeavesLatch(s: State, run: Run, t: TenantId, i: Position)
    requires NoneAhead(s) && Possible(s, run) && Repeated(s, run, t, i) > 0
    ensures Alerted(After(s, run), t, i)
  {
    RunKeepsBehind(s, run.past);
    LatchStep(After(s, run.past), run.step, t, i);
    if Repeated(s, run.past, t, i) > 0 {
      RepeatedLeavesLatch(s, run.past, t, i);
    }
  }

  /** A check that sees a level crossed fires, unless it loaded the latch as up, and then some check
      has fired before. */
  lemma {:induction false} FiresExactlyWhenSeen(run: Run, t: TenantId, i: Position)
    requires Possible(Init(), run)
    ensures Fires(Init(), run, t, i) > 0 <==> Saw(Init(), run, t, i)
  {
    if run.Then? {
      var before := After(Init(), run.past);
      FiresExactlyWhenSeen(run.past, t, i);
      RunKeepsBehind(Init(), run.past);
      FiringsAreAccountedFor(Init(), run.past, t, i);
      if run.step.Decide? {
        assert Behind(before, before.checks[run.step.check]);
      }
    }
  }

  /** Over every run, overlapping checks included: a level fires if and only if some check saw it
      crossed; its firings are failed marks, repeats of a latch that was up, and the one that raised it;
      and the latch is up only then, and always then unless a mark failed. */
  lemma AlertsAreLatched(run: Run, t: TenantId, i: Position)
    requires Possible(Init(), run)
    ensures Fires(Init(), run, t, i) > 0 <==> Saw(Init(), run, t, i)
    ensures Fires(Init(), run, t, i)
         == Missed(Init(), run, t, i) + Repeated(Init(), run, t, i) + One(Alerted(After(Init(), run), t, i))
    ensures Alerted(After(Init(), run), t, i) ==> Saw(Init(), run, t, i)
    ensures Saw(Init(), run, t, i) ==> Alerted(After(Init(), run), t, i) || Missed(Init(), run, t, i) > 0
    ensures Missed(Init(), run, t, i) == 0 ==>
              (Fires(Init(), run, t, i) == One(Saw(Init(), run, t, i)) <==> Repeated(Init(), run, t, i) == 0)
  {
    FiringsAreAccountedFor(Init(), run, t, i);
    FiresExactlyWhenSeen(run, t, i);
    if Repeated(Init(), run, t, i) > 0 {
      RepeatedLeavesLatch(Init(), run, t, i);
    }
  }

  /** The levels that a check has passed it has also seen. */
  ghost predicate Passed(run: Run, k: Check)
    requires Possible(Init(), run)
  {
    k.Looping? ==> forall i: Position :: i < k.next && Crossed(k.status, i) ==> Saw(Init(), run, k.tenant, i)
  }

  lemma {:induction false} ChecksPassLevelsInOrder(run: Run)
    requires Possible(Init(), run)
    ensures forall c :: c in After(Init(), run).checks ==> Passed(run, After(Init(), run).checks[c])
  {
    if run.Then? {
      var before, after := After(Init(), run.past), After(Init(), run);
      ChecksPassLevelsInOrder(run.past);
      forall c | c in after.checks ensures Passed(run, after.checks[c]) {
        if c in before.checks {
          assert Passed(run.past, before.checks[c]);
        }
      }
    }
  }

  /** Whoever has seen a level has seen the lower ones. */
  lemma {:induction false} SeenDownward(run: Run, t: TenantId, low: Position, high: Position)
    requires Possible(Init(), run) && low <= high && Saw(Init(), run, t, high)
    ensures Saw(Init(), run, t, low)
  {
    if Saw(Init(), run.past, t, high) {
      SeenDownward(run.past, t, low, high);
    } else {
      ChecksPassLevelsInOrder(run.past);
      assert Passed(run.past, After(Init(), run.past).checks[run.step.check]);
    }
  }

  /** In every run the latches are downward closed, except where marks of the lower level failed. */
  lemma LatchesAreDownwardClosed(run: Run, t: TenantId, low: Position, high: Position)
    requires Possible(Init(), run) && low <= high && Alerted(After(Init(), run), t, high)
    ensures Alerted(After(Init(), run), t, low) || Missed(Init(), run, t, low) > 0
  {
    AlertsAreLatched(run, t, high);
    SeenDownward(run, t, low, high);
    AlertsAreLatched(run, t, low);
  }

  // ---------- Exactly when an alert fires once ----------

  /** The check will still fire at the level: it saw the level crossed and loaded the latch as down. */
  predicate Due(k: Check, i: Position) {
    k.Looping? && k.next <= i && Crossed(k.status, i) && !k.flags.Up(i)
  }

  predicate DueTogether(k: Check, j: Check, i: Position) { k.tenant == j.tenant && Due(k, i) && Due(j, i) }

  /** A check loads the flags only when no other check of its tenant is due at a level that it has
      seen crossed. */
  ghost predicate Timely(s: State, l: Label)
    requires Enabled(s, l)
  {
    l.Load? ==>
      var k := s.checks[l.check];
      forall d, i: Position :: d in s.checks && d != l.check && s.checks[d].tenant == k.tenant ==>
        !(Due(s.checks[d], i) && Crossed(k.status, i))
  }

  ghost predicate AllTimely(s: State, run: Run)
    requires Possible(s, run)
  {
    run.Start? || (AllTimely(s, run.past) && Timely(After(s, run.past), run.step))
  }

  /** Every due level has its latch down, and no two checks of a tenant are due at the same level. */
  ghost predicate OnTrack(s: State) {
    && Rooted(s)
    && (forall c, i: Position :: c in s.checks && Due(s.checks[c], i) ==> !Alerted(s, s.checks[c].tenant, i))
    && (forall c, d, i: Position :: c in s.checks && d in s.checks && c != d ==>
          !DueTogether(s.checks[c], s.checks[d], i))
  }

  lemma DecideKeepsTrack(s: State, l: Label)
    requires OnTrack(s) && Enabled(s, l) && l.Decide?
    ensures OnTrack(Next(s, l))
  {
    var n, k := Next(s, l), s.checks[l.check];
    assert forall c :: c in n.checks ==> c in s.checks;
    assert forall c, i: Position :: c in n.checks && Due(n.checks[c], i) ==> Due(s.checks[c], i);
    forall c, d, i: Position | c in n.checks && d in n.checks && c != d
      ensures !DueTogether(n.checks[c], n.checks[d], i)
    {
      assert !DueTogether(s.checks[c], s.checks[d], i);
    }
    forall c, i: Position | c in n.checks && Due(n.checks[c], i) ensures !Alerted(n, n.checks[c].tenant, i) {
      LatchStep(s, l, n.checks[c].tenant, i);
      assert Due(s.checks[c], i);
      assert c != l.check ==> !DueTogether(s.checks[c], k, i);
    }
  }

  lemma LoadKeepsTrack(s: State, l: Label)
    requires OnTrack(s) && Enabled(s, l) && l.Load? && Timely(s, l)
    ensures OnTrack(Next(s, l))
  {
    var n := Next(s, l);
    forall c, i: Position | c in n.checks && Due(n.checks[c], i) ensures !Alerted(n, n.checks[c].tenant, i) {
      if c != l.check {
        assert Due(s.checks[c], i);
      }
    }
    forall c, d, i: Position | c in n.checks && d in n.checks && c != d
      ensures !DueTogether(n.checks[c], n.checks[d], i)
    {
      assert c != l.check && d != l.check ==> !DueTogether(s.checks[c], s.checks[d], i);
    }
  }

  lemma OtherStepKeepsTrack(s: State, l: Label)
    requires OnTrack(s) && Enabled(s, l) && !l.Decide? && !l.Load?
    ensures OnTrack(Next(s, l))
  {
    var n := Next(s, l);
    forall c, i: Position | c in n.checks && Due(n.checks[c], i) ensures !Alerted(n, n.checks[c].tenant, i) {
      assert c in s.checks && Due(s.checks[c], i);
      LatchStep(s, l, n.checks[c].tenant, i);
    }
    forall c, d, i: Position | c in n.checks && d in n.checks && c != d
      ensures !DueTogether(n.checks[c], n.checks[d], i)
    {
      assert c in s.checks && d in s.checks ==> !DueTogether(s.checks[c], s.checks[d], i);
    }
  }

  lemma StepKeepsTrack(s: State, l: Label)
    requires OnTrack(s) && Enabled(s, l) && Timely(s, l)
    ensures OnTrack(Next(s, l))
  {
    if l.Decide? {
      DecideKeepsTrack(s, l);
    } else if l.Load? {
      LoadKeepsTrack(s, l);
    } else {
      OtherStepKeepsTrack(s, l);
    }
  }

  lemma {:induction false} RunKeepsTrack(s: State, run: Run)
    requires OnTrack(s) && Possible(s, run) && AllTimely(s, run)
    ensures OnTrack(After(s, run))
  {
    if run.Then? {
      RunKeepsTrack(s, run.past);
      StepKeepsTrack(After(s, run.past), run.step);
    }
  }

  /** The step fires at a level whose latch is up, and its mark succeeds. */
  predicate Repeats(s: State, l: Label)
    requires Enabled(s, l)
  {
    l.Decide? && l.marked && WillFire(s.checks[l.check]) && Alerted(s, s.checks[l.check].tenant, s.checks[l.check].next)
  }

  lemma OnTrackNeverRepeats(s: State, l: Label)
    requires OnTrack(s) && Enabled(s, l)
    ensures !Repeats(s, l)
  {
    if l.Decide? && WillFire(s.checks[l.check]) {
      assert Due(s.checks[l.check], s.checks[l.check].next);
    }
  }

  /** While every load is timely, no firing finds its latch up, whatever marks fail. */
  lemma {:induction false} TimelyChecksNeverRepeat(s: State, run: Run, t: TenantId, i: Position)
    requires OnTrack(s) && Possible(s, run) && AllTimely(s, run)
    ensures Repeated(s, run, t, i) == 0
  {
    if run.Then? {
      TimelyChecksNeverRepeat(s, run.past, t, i);
      RunKeepsTrack(s, run.past);
      OnTrackNeverRepeats(After(s, run.past), run.step);
    }
  }

  // ---------- Runs one after another ----------

  /** The run leads from one state to the other and sends these alerts. */
  predicate Leads(s: State, run: Run, end: State, alerts: seq<Alert>) {
    Possible(s, run) && After(s, run) == end && Emitted(s, run) == alerts
  }

  lemma Extend(s: State, run: Run, mid: State, alerts: seq<Alert>, l: Label)
    requires Leads(s, run, mid, alerts) && Enabled(mid, l)
    ensures Leads(s, Then(run, l), Next(mid, l), alerts + Emit(mid, l))
  {
  }

  function Concat(a: Run, b: Run): Run { if b.Start? then a else Then(Concat(a, b.past), b.step) }

  lemma Regroup(x: seq<Alert>, y: seq<Alert>, z: seq<Alert>)
    ensures x + y + z == x + (y + z)
  {
  }

  /** One run after another is a run. */
  lemma {:induction false} RunsCompose(s: State, a: Run, b: Run)
    requires Possible(s, a) && Possible(After(s, a), b)
    ensures Leads(s, Concat(a, b), After(After(s, a), b), Emitted(s, a) + Emitted(After(s, a), b))
  {
    if b.Start? {
      assert Emitted(s, a) + [] == Emitted(s, a);
    } else {
      RunsCompose(s, a, b.past);
      Regroup(Emitted(s, a), Emitted(After(s, a), b.past), Emit(After(After(s, a), b.past), b.step));
    }
  }

  lemma {:induction false} TimelyCompose(s: State, a: Run, b: Run)
    requires Possible(s, a) && AllTimely(s, a) && Possible(After(s, a), b) && AllTimely(After(s, a), b)
    ensures Possible(s, Concat(a, b)) && AllTimely(s, Concat(a, b))
  {
    RunsCompose(s, a, b);
    if b.Then? {
      TimelyCompose(s, a, b.past);
      RunsCompose(s, a, b.past);
    }
  }

  // ---------- The guard on loading is exact ----------

  predicate AllMarked(run: Run) { run.Start? || (AllMarked(run.past) && (run.step.Decide? ==> run.step.marked)) }

  /** A timely run in which every mark succeeds leads to the step, which repeats an alert. */
  ghost predicate RepeatsAfter(s: State, run: Run, l: Label) {
    && Possible(s, run) && AllTimely(s, run) && AllMarked(run)
    && Enabled(After(s, run), l) && Repeats(After(s, run), l)
  }

  ghost predicate CanRepeat(s: State) { exists run, l :: RepeatsAfter(s, run, l) }

  lemma RepeatsNow(s: State, l: Label)
    requires Enabled(s, l) && Repeats(s, l)
    ensures CanRepeat(s)
  {
    assert RepeatsAfter(s, Start, l);
  }

  lemma {:induction false} MarkedCompose(a: Run, b: Run)
    requires AllMarked(a) && AllMarked(b)
    ensures AllMarked(Concat(a, b))
  {
    if b.Then? {
      MarkedCompose(a, b.past);
    }
  }

  lemma RepeatsLater(s: State, l: Label)
    requires Enabled(s, l) && Timely(s, l) && (l.Decide? ==> l.marked) && CanRepeat(Next(s, l))
    ensures CanRepeat(s)
  {
    var run, bad :| RepeatsAfter(Next(s, l), run, bad);
    var first := Then(Start, l);
    assert Possible(s, Start) && AllTimely(s, Start) && After(s, Start) == s;
    assert AllMarked(Start) && AllMarked(first);
    RunsCompose(s, first, run);
    TimelyCompose(s, first, run);
    MarkedCompose(first, run);
    assert RepeatsAfter(s, Concat(first, run), bad);
  }

  /** A check that is due at a level whose latch is up goes on to fire there. */
  lemma {:induction false} DueRepeats(s: State, c: CheckId, i: Position)
    requires Rooted(s) && c in s.checks && Due(s.checks[c], i) && Alerted(s, s.checks[c].tenant, i)
    ensures CanRepeat(s)
    decreases i - s.checks[c].next
  {
    var k, l := s.checks[c], Decide(c, true);
    if k.next == i {
      RepeatsNow(s, l);
    } else {
      LatchStep(s, l, k.tenant, i);
      DueRepeats(Next(s, l), c, i);
      RepeatsLater(s, l);
    }
  }

  /** Two checks of a tenant that are due at the same level both fire there. */
  lemma {:induction false} BothDueRepeat(s: State, c: CheckId, d: CheckId, i: Position)
    requires Rooted(s) && c != d && c in s.checks && d in s.checks && s.checks[c].tenant == s.checks[d].tenant
    requires Due(s.checks[c], i) && Due(s.checks[d], i)
    ensures CanRepeat(s)
    decreases i - s.checks[d].next
  {
    var k, l := s.checks[d], Decide(d, true);
    LatchStep(s, l, k.tenant, i);
    if k.next == i {
      DueRepeats(Next(s, l), c, i);
    } else {
      BothDueRepeat(Next(s, l), c, d, i);
    }
    RepeatsLater(s, l);
  }

  lemma UntimelyLoadRepeats(s: State, l: Label)
    requires OnTrack(s) && Enabled(s, l) && !Timely(s, l)
    ensures CanRepeat(Next(s, l))
  {
    var c, n := l.check, Next(s, l);
    var d, i: Position :| d in s.checks && d != c && s.checks[d].tenant == s.checks[c].tenant
      && Due(s.checks[d], i) && Crossed(s.checks[c].status, i);
    assert !Alerted(s, s.checks[d].tenant, i);
    assert Due(n.checks[c], i) && Due(n.checks[d], i);
    BothDueRepeat(n, c, d, i);
  }

  lemma TrackedCannotRepeat(s: State)
    requires OnTrack(s)
    ensures !CanRepeat(s)
  {
    forall run, l | Possible(s, run) && AllTimely(s, run) && Enabled(After(s, run), l)
      ensures !Repeats(After(s, run), l)
    {
      RunKeepsTrack(s, run);
      OnTrackNeverRepeats(After(s, run), l);
    }
  }

  /** The guard is exact: from a state in which no alert is due twice, a step is timely if and only if no
      timely continuation in which marks succeed fires an alert that has fired already. */
  lemma LoadGuardIsExact(s: State, l: Label)
    requires OnTrack(s) && Enabled(s, l)
    ensures Timely(s, l) <==> !CanRepeat(Next(s, l))
  {
    if Timely(s, l) {
      StepKeepsTrack(s, l);
      TrackedCannotRepeat(Next(s, l));
    } else {
      UntimelyLoadRepeats(s, l);
    }
  }

  /** While loads are timely and marks succeed, each alert fires exactly once if some check saw its level
      crossed, and never otherwise. */
  lemma TimelyAlertsFireOnce(run: Run, t: TenantId, i: Position)
    requires Possible(Init(), run) && AllTimely(Init(), run) && Missed(Init(), run, t, i) == 0
    ensures Fires(Init(), run, t, i) == One(Saw(Init(), run, t, i)) == One(Alerted(After(Init(), run), t, i))
  {
    AlertsAreLatched(run, t, i);
    TimelyChecksNeverRepeat(Init(), run, t, i);
  }

  // ---------- A latch stays up ----------

  /** The latch is up, and no check that is under way is due at the level. */
  ghost predicate Spent(s: State, t: TenantId, i: Position) {
    Rooted(s) && Alerted(s, t, i) && forall c :: c in s.checks ==> !(s.checks[c].tenant == t && Due(s.checks[c], i))
  }

  lemma StepKeepsSpent(s: State, l: Label, t: TenantId, i: Position)
    requires Spent(s, t, i) && Enabled(s, l)
    ensures Spent(Next(s, l), t, i) && !FiresAt(s, l, t, i)
  {
    LatchStep(s, l, t, i);
    var n := Next(s, l);
    forall c | c in n.checks ensures !(n.checks[c].tenant == t && Due(n.checks[c], i)) {
      if c in s.checks {
        assert !(s.checks[c].tenant == t && Due(s.checks[c], i));
      }
    }
    if l.Decide? {
      assert !(s.checks[l.check].tenant == t && Due(s.checks[l.check], i));
    }
  }

  /** A level whose latch is up never fires again from a check that loads the flags later, in any run: no
      upsert, whatever limits and period it sets, brings the latch down. The alerts are therefore once
      per tenant, not once per period. */
  lemma {:induction false} NoAlertInALaterPeriod(s: State, run: Run, t: TenantId, i: Position)
    requires Spent(s, t, i) && Possible(s, run)
    ensures Spent(After(s, run), t, i) && Fires(s, run, t, i) == 0
  {
    if run.Then? {
      NoAlertInALaterPeriod(s, run.past, t, i);
      StepKeepsSpent(After(s, run.past), run.step, t, i);
    }
  }

  // ---------- Checks that do not overlap ----------

  ghost predicate Apart(s: State) {
    forall c, d :: c in s.checks && d in s.checks && c != d ==> s.checks[c].tenant != s.checks[d].tenant
  }

  lemma {:induction false} SerialIsTimely(s: State, run: Run)
    requires Apart(s) && Possible(s, run) && AllSerial(s, run)
    ensures Apart(After(s, run)) && AllTimely(s, run)
  {
    if run.Then? {
      SerialIsTimely(s, run.past);
    }
  }

  /** Without overlapping checks no firing finds its latch up. */
  lemma SerialChecksNeverRepeat(s: State, run: Run, t: TenantId, i: Position)
    requires Apart(s) && OnTrack(s) && Possible(s, run) && AllSerial(s, run)
    ensures Repeated(s, run, t, i) == 0
  {
    SerialIsTimely(s, run);
    TimelyChecksNeverRepeat(s, run, t, i);
  }

  /** While the checks of a tenant do not overlap and marks succeed, each alert fires exactly once if
      some check saw its level crossed, and never otherwise. */
  lemma SerialAlertsFireOnce(run: Run, t: TenantId, i: Position)
    requires Possible(Init(), run) && AllSerial(Init(), run) && Missed(Init(), run, t, i) == 0
    ensures Fires(Init(), run, t, i) == One(Saw(Init(), run, t, i)) == One(Alerted(After(Init(), run), t, i))
  {
    SerialIsTimely(Init(), run);
    TimelyAlertsFireOnce(run, t, i);
  }

  // ---------- The alerts sent ----------

  lemma {:induction false} CountByAppended(a: seq<Alert>, b: seq<Alert>, k: nat, t: TenantId, level: int)
    requires k <= |a| + |b|
    ensures CountBy(a + b, k, t, level)
            == if k <= |a| then CountBy(a, k, t, level) else CountOf(a, t, level) + CountBy(b, k - |a|, t, level)
  {
    if k > 0 {
      CountByAppended(a, b, k - 1, t, level);
      assert (a + b)[k - 1] == if k <= |a| then a[k - 1] else b[k - 1 - |a|];
    }
  }

  lemma CountOfAppended(a: seq<Alert>, b: seq<Alert>, t: TenantId, level: int)
    ensures CountOf(a + b, t, level) == CountOf(a, t, level) + CountOf(b, t, level)
  {
    CountByAppended(a, b, |a| + |b|, t, level);
  }

  lemma CountOfOne(a: Alert, t: TenantId, level: int)
    ensures CountOf([a], t, level) == One(IsFor(a, t, level))
  {
    assert CountBy([a], 1, t, level) == CountBy([a], 0, t, level) + One(IsFor([a][0], t, level));
  }

  lemma EmitCounts(s: State, l: Label, t: TenantId, i: Position)
    requires Enabled(s, l)
    ensures CountOf(Emit(s, l), t, Level(i)) == One(FiresAt(s, l, t, i))
  {
    if l.Decide? && WillFire(s.checks[l.check]) {
      CountOfOne(AlertOf(s.checks[l.check]), t, Level(i));
    }
  }

  /** The firings counted above are the alerts sent. */
  lemma {:induction false} FiresCountsAlerts(s: State, run: Run, t: TenantId, i: Position)
    requires Possible(s, run)
    ensures CountOf(Emitted(s, run), t, Level(i)) == Fires(s, run, t, i)
  {
    if run.Then? {
      var before := After(s, run.past);
      FiresCountsAlerts(s, run.past, t, i);
      CountOfAppended(Emitted(s, run.past), Emit(before, run.step), t, Level(i));
      EmitCounts(before, run.step, t, i);
    }
  }

  // ---------- One check, step by step ----------

  function Begun(run: Run, c: CheckId, t: TenantId): Run { Then(Then(Then(run, Begin(c, t)), Summarize(c)), Load(c)) }

  /** A check that has loaded its flags. */
  function Loaded(s: State, t: TenantId): Check
    requires t in s.quotas
  {
    var row := s.quotas[t];
    Looping(t, StatusOf(row.limits, UsageOf(s, t, row.limits)), row.flags, row.limits.webhook, 0)
  }

  function SummedUp(s: State, t: TenantId): Check
    requires t in s.quotas
  {
    Summed(t, StatusOf(s.quotas[t].limits, UsageOf(s, t, s.quotas[t].limits)))
  }

  lemma SummingUp(s: State, c: CheckId, t: TenantId)
    requires c !in s.checks && t in s.quotas
    ensures Next(Next(s, Begin(c, t)), Summarize(c)) == s.(checks := s.checks[c := SummedUp(s, t)])
  {
  }

  lemma Loading(s: State, c: CheckId, t: TenantId)
    requires c !in s.checks && t in s.quotas
    ensures Next(s.(checks := s.checks[c := SummedUp(s, t)]), Load(c)) == s.(checks := s.checks[c := Loaded(s, t)])
  {
  }

  lemma SummedLeads(s: State, run: Run, mid: State, alerts: seq<Alert>, c: CheckId, t: TenantId)
    requires Leads(s, run, mid, alerts) && c !in mid.checks && t in mid.quotas
    ensures var summed := mid.(checks := mid.checks[c := SummedUp(mid, t)]);
            Leads(s, Then(Then(run, Begin(c, t)), Summarize(c)), summed, alerts)
  {
    Extend(s, run, mid, alerts, Begin(c, t));
    Extend(s, Then(run, Begin(c, t)), Next(mid, Begin(c, t)), alerts, Summarize(c));
    SummingUp(mid, c, t);
  }

  lemma BegunLeads(s: State, run: Run, mid: State, alerts: seq<Alert>, c: CheckId, t: TenantId)
    requires Leads(s, run, mid, alerts) && c !in mid.checks && t in mid.quotas
    ensures Leads(s, Begun(run, c, t), mid.(checks := mid.checks[c := Loaded(mid, t)]), alerts)
  {
    SummedLeads(s, run, mid, alerts, c, t);
    Loading(mid, c, t);
    var summed := mid.(checks := mid.checks[c := SummedUp(mid, t)]);
    Extend(s, Then(Then(run, Begin(c, t)), Summarize(c)), summed, alerts, Load(c));
  }

  /** The first decisions of a check; a mark succeeds for the levels in marks. */
  function Decided(run: Run, c: CheckId, marks: set<int>, n: nat): Run
    requires n <= 3
  {
    if n == 0 then run else Then(Decided(run, c, marks, n - 1), Decide(c, Level(n - 1) in marks))
  }

  /** The check that is about to decide level i. */
  function At(k: Check, i: nat): Check
    requires k.Looping? && i < 3
  {
    k.(next := i)
  }

  function ChecksAt(checks: map<CheckId, Check>, c: CheckId, k: Check, n: nat): map<CheckId, Check>
    requires k.Looping? && n <= 3
  {
    if n < 3 then checks[c := At(k, n)] else checks - {c}
  }

  /** The rows after the first decisions of the check. */
  function RowsAt(quotas: map<TenantId, Row>, k: Check, marks: set<int>, n: nat): map<TenantId, Row>
    requires k.Looping? && n <= 3
  {
    if n == 0 then quotas
    else
      var earlier := RowsAt(quotas, k, marks, n - 1);
      if WillFire(At(k, n - 1)) && Level(n - 1) in marks then Marked(earlier, k.tenant, n - 1) else earlier
  }

  /** The alerts of the first decisions of the check. */
  function SentAt(k: Check, n: nat): seq<Alert>
    requires k.Looping? && n <= 3
  {
    if n == 0 then []
    else if WillFire(At(k, n - 1)) then SentAt(k, n - 1) + [AlertOf(At(k, n - 1))] else SentAt(k, n - 1)
  }

  function StateAt(s: State, c: CheckId, k: Check, marks: set<int>, n: nat): State
    requires k.Looping? && n <= 3
  {
    State(s.events, RowsAt(s.quotas, k, marks, n), ChecksAt(s.checks, c, k, n))
  }

  lemma DecisionStep(s: State, c: CheckId, k: Check, marks: set<int>, n: nat)
    requires n < 3 && k.Looping?
    ensures var l := Decide(c, Level(n) in marks);
            && Enabled(StateAt(s, c, k, marks, n), l)
            && Next(StateAt(s, c, k, marks, n), l) == StateAt(s, c, k, marks, n + 1)
            && SentAt(k, n) + Emit(StateAt(s, c, k, marks, n), l) == SentAt(k, n + 1)
  {
    var was := ChecksAt(s.checks, c, k, n);
    assert Advance(was, c) == ChecksAt(s.checks, c, k, n + 1);
    assert SentAt(k, n) + [] == SentAt(k, n);
  }

  lemma {:induction false} DecidedLeads(s: State, run: Run, mid: State, alerts: seq<Alert>, c: CheckId, k: Check,
      marks: set<int>, n: nat)
    requires n <= 3 && Leads(s, run, mid, alerts) && c in mid.checks && mid.checks[c] == k && k.Looping? && k.next == 0
    ensures Leads(s, Decided(run, c, marks, n), StateAt(mid, c, k, marks, n), alerts + SentAt(k, n))
  {
    if n == 0 {
      assert mid.checks[c := At(k, 0)] == mid.checks;
      assert alerts + [] == alerts;
    } else {
      var l, was := Decide(c, Level(n - 1) in marks), StateAt(mid, c, k, marks, n - 1);
      DecidedLeads(s, run, mid, alerts, c, k, marks, n - 1);
      DecisionStep(mid, c, k, marks, n - 1);
      Extend(s, Decided(run, c, marks, n - 1), was, alerts + SentAt(k, n - 1), l);
      Regroup(alerts, SentAt(k, n - 1), Emit(was, l));
    }
  }

  /** A check sends the alert of a level once if it finds the level crossed and the latch down. */
  lemma {:induction false} SentCounts(k: Check, n: nat, i: Position)
    requires k.Looping? && n <= 3
    ensures CountOf(SentAt(k, n), k.tenant, Level(i)) == One(i < n && Crossed(k.status, i) && !k.flags.Up(i))
  {
    if n > 0 {
      SentCounts(k, n - 1, i);
      if WillFire(At(k, n - 1)) {
        CountOfAppended(SentAt(k, n - 1), [AlertOf(At(k, n - 1))], k.tenant, Level(i));
        CountOfOne(AlertOf(At(k, n - 1)), k.tenant, Level(i));
      }
    }
  }

  // ---------- Overlapping checks ----------

  /** Two checks of one tenant that both load the flags before either decides. */
  function Overlap(c: CheckId, d: CheckId, t: TenantId, marks: set<int>, others: set<int>): Run {
    Decided(Decided(Begun(Begun(Start, c, t), d, t), c, marks, 3), d, others, 3)
  }

  lemma BothLoaded(s: State, c: CheckId, d: CheckId, t: TenantId)
    requires c != d && c !in s.checks && d !in s.checks && t in s.quotas
    ensures var k := Loaded(s, t);
            Leads(s, Begun(Begun(Start, c, t), d, t), s.(checks := s.checks[c := k][d := k]), [])
  {
    var one := s.(checks := s.checks[c := Loaded(s, t)]);
    BegunLeads(s, Start, s, [], c, t);
    BegunLeads(s, Begun(Start, c, t), one, [], d, t);
  }

  lemma OverlapLeads(s: State, c: CheckId, d: CheckId, t: TenantId, marks: set<int>, others: set<int>)
    requires c != d && c !in s.checks && d !in s.checks && t in s.quotas
    ensures Possible(s, Overlap(c, d, t, marks, others))
    ensures Emitted(s, Overlap(c, d, t, marks, others)) == SentAt(Loaded(s, t), 3) + SentAt(Loaded(s, t), 3)
  {
    var k, both := Loaded(s, t), Begun(Begun(Start, c, t), d, t);
    BothLoaded(s, c, d, t);
    var mid := s.(checks := s.checks[c := k][d := k]);
    DecidedLeads(s, both, mid, [], c, k, marks, 3);
    assert [] + SentAt(k, 3) == SentAt(k, 3);
    DecidedLeads(s, Decided(both, c, marks, 3), StateAt(mid, c, k, marks, 3), SentAt(k, 3), d, k, others, 3);
  }

  /** Wherever two checks of a tenant both load the flags before either decides, and whatever marks
      succeed, a level is sent twice if and only if its share is reached and its latch is down;
      otherwise it is not sent at all. */
  lemma OverlappingChecksFireTwice(s: State, c: CheckId, d: CheckId, t: TenantId, marks: set<int>, others: set<int>,
      i: Position)
    requires c != d && c !in s.checks && d !in s.checks && t in s.quotas
    ensures Possible(s, Overlap(c, d, t, marks, others))
    ensures var l, n := s.quotas[t].limits, CountOf(Emitted(s, Overlap(c, d, t, marks, others)), t, Level(i));
            if Reached(l, UsageOf(s, t, l), Level(i)) && !Alerted(s, t, i) then n == 2 else n == 0
  {
    var l, sent := s.quotas[t].limits, SentAt(Loaded(s, t), 3);
    CrossedExactlyWhenReached(l, UsageOf(s, t, l), i);
    OverlapLeads(s, c, d, t, marks, others);
    CountOfAppended(sent, sent, t, Level(i));
    SentCounts(Loaded(s, t), 3, i);
  }

  // ---------- Blocking ----------

  predicate Spends(e: UsageEvent) { e.input >= 0 && e.output >= 0 && (e.cost.Some? ==> e.cost.value >= 0.0) }

  /** Further spending never takes a tenant back below a level that it has reached. */
  lemma SpendingKeepsReached(es: seq<UsageEvent>, e: UsageEvent, q: Query, l: Limits, p: int)
    requires Spends(e) && Reached(l, Summary(es, q), p)
    ensures Reached(l, Summary(es + [e], q), p)
  {
    SummarySnoc(es, e, q);
  }

  // ---------- The repository and the enforcer ----------

  datatype Lookup<+T> = Failed | Absent | Present(value: T)

  /** Which statements of a check succeed; a mark may fail for each level. */
  datatype Io = Io(read: bool, sum: bool, reload: bool, marks: set<int>)

  class QuotaRepo {
    var quotas: map<TenantId, Row>
    const usage: UsageRepo

    constructor (u: UsageRepo)
      ensures quotas == map[] && usage == u
    {
      quotas, usage := map[], u;
    }

    function Snapshot(): State
      reads this, usage
    {
      State(usage.events, quotas, map[])
    }

    method Get(t: TenantId, dbOk: bool) returns (r: Lookup<Row>)
      ensures r == if !dbOk then Failed else if t in quotas then Present(quotas[t]) else Absent
    {
      r := if !dbOk then Failed else if t in quotas then Present(quotas[t]) else Absent;
    }

    /** A new row starts with its latches down; an existing row keeps them. */
    method Upsert(t: TenantId, limits: Limits, dbOk: bool) returns (ok: bool)
      modifies this
      ensures ok == dbOk
      ensures Snapshot() == if ok then Next(old(Snapshot()), Label.Upsert(t, limits)) else old(Snapshot())
      ensures ok ==> t in quotas && quotas[t].limits == limits
      ensures forall u, i: Position :: Alerted(Snapshot(), u, i) <==> Alerted(old(Snapshot()), u, i)
    {
      ok := dbOk;
      if ok {
        quotas := quotas[t := Row(limits, if t in quotas then quotas[t].flags else Flags(false, false, false))];
      }
    }

    /** An unknown threshold is an error; a missing row is not. */
    method MarkAlerted(t: TenantId, threshold: int, dbOk: bool) returns (ok: bool)
      modifies this
      ensures ok <==> dbOk && exists i: Position :: Level(i) == threshold
      ensures !ok ==> quotas == old(quotas)
      ensures forall i: Position :: ok && Level(i) == threshold ==> quotas == Marked(old(quotas), t, i)
      ensures quotas.Keys == old(quotas).Keys && forall u :: u in quotas ==> quotas[u].limits == old(quotas)[u].limits
      ensures ok && t in quotas ==>
                var was, flags := old(quotas)[t].flags, quotas[t].flags;
                && flags.at80 == (was.at80 || threshold == 80) && flags.at90 == (was.at90 || threshold == 90)
                && flags.at100 == (was.at100 || threshold == 100)
    {
      assert Level(0) == 80 && Level(1) == 90 && Level(2) == 100;
      ok := dbOk && (threshold == 80 || threshold == 90 || threshold == 100);
      if ok && t in quotas {
        var row := quotas[t];
        quotas := quotas[t :=
          if threshold == 80 then row.(flags := row.flags.(at80 := true))
          else if threshold == 90 then row.(flags := row.flags.(at90 := true))
          else row.(flags := row.flags.(at100 := true))];
      }
    }

    method CheckQuota(t: TenantId, readOk: bool, sumOk: bool) returns (r: Lookup<Status>)
      ensures r == Checked(Snapshot(), t, readOk, sumOk)
      ensures r.Failed? <==> !readOk || (t in quotas && !sumOk)
      ensures r.Absent? <==> readOk && t !in quotas
      ensures r.Present? ==>
                var l := quotas[t].limits;
                var used := Summary(usage.events, Query(t, l.from, l.to));
                && r.value.usedTokens == used.tokens && r.value.usedCost == used.cost && r.value.action == l.action
                && (r.value.exceeded <==> Reached(l, used, 100))
    {
      if t in quotas {
        ExceededExactlyAtHundred(quotas[t].limits, UsageOf(Snapshot(), t, quotas[t].limits));
      }
      var q := Get(t, readOk);
      if !q.Present? {
        return if q.Failed? then Failed else Absent;
      }
      var l := q.value.limits;
      var sum := usage.SummaryByTenant(Query(t, l.from, l.to), sumOk);
      if sum.None? {
        return Failed;
      }
      var pctTokens, pctCost, exceeded := 0.0, 0.0, false;
      if l.maxTokens.Some? && l.maxTokens.value > 0 {
        pctTokens := sum.value.tokens as real / l.maxTokens.value as real * 100.0;
        exceeded := exceeded || pctTokens >= 100.0;
      }
      if l.maxCost.Some? && l.maxCost.value > 0.0 {
        pctCost := sum.value.cost / l.maxCost.value * 100.0;
        exceeded := exceeded || pctCost >= 100.0;
      }
      r := Present(Status(sum.value.tokens, sum.value.cost, pctTokens, pctCost, l.action, exceeded));
    }
  }

  function Checked(s: State, t: TenantId, readOk: bool, sumOk: bool): Lookup<Status> {
    if !readOk then Failed
    else if t !in s.quotas then Absent
    else if !sumOk then Failed
    else Present(StatusOf(s.quotas[t].limits, UsageOf(s, t, s.quotas[t].limits)))
  }

  /** The steps of one check that nothing interrupts. */
  function CheckRun(s: State, t: TenantId, io: Io): Run {
    if !io.read || t !in s.quotas then Start
    else if !io.sum then Then(Then(Start, Begin(0, t)), GiveUp(0))
    else if !io.reload then Then(Then(Then(Start, Begin(0, t)), Summarize(0)), GiveUp(0))
    else Decided(Begun(Start, 0, t), 0, io.marks, 3)
  }

  lemma GivenUp(s: State, t: TenantId, io: Io)
    requires s.checks == map[] && !(io.read && io.sum && io.reload && t in s.quotas)
    ensures Leads(s, CheckRun(s, t, io), s, [])
  {
    if io.read && t in s.quotas {
      Extend(s, Start, s, [], Begin(0, t));
      if !io.sum {
        Extend(s, Then(Start, Begin(0, t)), Next(s, Begin(0, t)), [], GiveUp(0));
      } else {
        var summed := s.(checks := map[0 := SummedUp(s, t)]);
        SummedLeads(s, Start, s, [], 0, t);
        Extend(s, Then(Then(Start, Begin(0, t)), Summarize(0)), summed, [], GiveUp(0));
      }
    }
  }

  lemma Undisturbed(s: State, t: TenantId, io: Io)
    requires s.checks == map[] && io.read && io.sum && io.reload && t in s.quotas
    ensures var k := Loaded(s, t);
            Leads(s, CheckRun(s, t, io), State(s.events, RowsAt(s.quotas, k, io.marks, 3), map[]), SentAt(k, 3))
  {
    var k := Loaded(s, t);
    BegunLeads(s, Start, s, [], 0, t);
    DecidedLeads(s, Begun(Start, 0, t), s.(checks := map[0 := k]), [], 0, k, io.marks, 3);
    assert ChecksAt(map[0 := k], 0, k, 3) == map[];
    assert [] + SentAt(k, 3) == SentAt(k, 3);
  }

  class QuotaEnforcer {
    const quotas: QuotaRepo
    /** The warnings logged, and those posted to a webhook. */
    var warned: seq<Alert>
    var posted: seq<Alert>

    constructor (repo: QuotaRepo)
      ensures quotas == repo && warned == [] && posted == []
    {
      quotas, warned, posted := repo, [], [];
    }

    /** One level of the loop. */
    method DecideLevel(k: Check, i: nat, markOk: bool)
      requires i < 3 && k.Looping?
      modifies this, quotas
      ensures var fired := WillFire(At(k, i));
              && (fired && markOk ==> quotas.quotas == Marked(old(quotas.quotas), k.tenant, i))
              && (!fired || !markOk ==> quotas.quotas == old(quotas.quotas))
              && warned == old(warned) + (if fired then [AlertOf(At(k, i))] else [])
              && posted == old(posted) + (if fired && k.webhook != "" then [AlertOf(At(k, i))] else [])
    {
      var level := if i == 0 then 80 else if i == 1 then 90 else 100;
      if Highest(k.status) >= level as real && !k.flags.Up(i) {
        var alert := Alert(k.tenant, level, k.webhook, k.status);
        warned := warned + [alert];
        if k.webhook != "" {
          posted := posted + [alert];
        }
        var marked := quotas.MarkAlerted(k.tenant, level, markOk);
        assert Level(i) == level;
      }
    }

    /** The loop over the three levels. */
    method DecideLevels(k: Check, marks: set<int>)
      requires k.Looping?
      modifies this, quotas
      ensures quotas.quotas == RowsAt(old(quotas.quotas), k, marks, 3)
      ensures warned == old(warned) + SentAt(k, 3) && posted == old(posted) + Posts(SentAt(k, 3))
    {
      for i := 0 to 3
        invariant quotas.quotas == RowsAt(old(quotas.quotas), k, marks, i)
        invariant warned == old(warned) + SentAt(k, i) && posted == old(posted) + Posts(SentAt(k, i))
      {
        var ok := (if i == 0 then 80 else if i == 1 then 90 else 100) in marks;
        DecideLevel(k, i, ok);
        SentMore(old(warned), old(posted), SentAt(k, i), AlertOf(At(k, i)));
      }
    }

    /** One check, uninterrupted, does the steps of the state machine. */
    method CheckAndAlert(t: TenantId, io: Io) returns (r: Lookup<Status>)
      modifies this, quotas
      ensures r == Checked(old(quotas.Snapshot()), t, io.read, io.sum)
      ensures Possible(old(quotas.Snapshot()), CheckRun(old(quotas.Snapshot()), t, io))
      ensures var s := old(quotas.Snapshot());
              && quotas.Snapshot() == After(s, CheckRun(s, t, io))
              && warned == old(warned) + Emitted(s, CheckRun(s, t, io))
              && posted == old(posted) + Posts(Emitted(s, CheckRun(s, t, io)))
      ensures |old(warned)| <= |warned| && |old(posted)| <= |posted|
      ensures forall a :: a in warned[|old(warned)|..] ==>
                && r == Present(a.status) && a.tenant == t && t in old(quotas.quotas)
                && a.webhook == old(quotas.quotas)[t].limits.webhook
                && (a.level == 80 || a.level == 90 || a.level == 100) && Highest(a.status) >= a.level as real
      ensures forall a :: a in posted[|old(posted)|..] <==> a in warned[|old(warned)|..] && a.webhook != ""
    {
      ghost var s := quotas.Snapshot();
      r := quotas.CheckQuota(t, io.read, io.sum);
      if !r.Present? {
        GivenUp(s, t, io);
        return;
      }
      var q := quotas.Get(t, io.reload);
      if !q.Present? {
        GivenUp(s, t, io);
        return;
      }
      Undisturbed(s, t, io);
      SentIsOwn(Loaded(s, t), 3);
      PostsAreThose(SentAt(Loaded(s, t), 3));
      DecideLevels(Looping(t, r.value, q.value.flags, q.value.limits.webhook, 0), io.marks);
    }

    method IsBlocked(t: TenantId, readOk: bool, sumOk: bool) returns (r: Lookup<bool>)
      ensures r.Failed? <==> !readOk || (t in quotas.quotas && !sumOk)
      ensures !r.Absent?
      ensures r == Present(true) <==>
        && readOk && sumOk && t in quotas.quotas && quotas.quotas[t].limits.action == "block"
        && var l := quotas.quotas[t].limits;
           Reached(l, Summary(quotas.usage.events, Query(t, l.from, l.to)), 100)
    {
      var status := quotas.CheckQuota(t, readOk, sumOk);
      if !status.Present? {
        return if status.Failed? then Failed else Present(false);
      }
      r := Present(status.value.exceeded && status.value.action == "block");
      ExceededExactlyAtHundred(quotas.quotas[t].limits, UsageOf(quotas.Snapshot(), t, quotas.quotas[t].limits));
    }
  }

  /** The alerts of a check carry its tenant, webhook and status, at levels that it has seen crossed. */
  lemma {:induction false} SentIsOwn(k: Check, n: nat)
    requires k.Looping? && n <= 3
    ensures forall a :: a in SentAt(k, n) ==>
              && a.status == k.status && a.tenant == k.tenant && a.webhook == k.webhook
              && (a.level == 80 || a.level == 90 || a.level == 100) && Highest(a.status) >= a.level as real
  {
    if n > 0 {
      SentIsOwn(k, n - 1);
    }
  }

  lemma {:induction false} PostsAreThose(alerts: seq<Alert>)
    ensures forall a :: a in Posts(alerts) <==> a in alerts && a.webhook != ""
  {
    if |alerts| > 0 {
      var init, last := alerts[..|alerts| - 1], alerts[|alerts| - 1];
      PostsAreThose(init);
      assert alerts == init + [last];
    }
  }

  function Posts(alerts: seq<Alert>): seq<Alert> {
    if |alerts| == 0 then []
    else
      var last := alerts[|alerts| - 1];
      var earlier := Posts(alerts[..|alerts| - 1]);
      if last.webhook != "" then earlier + [last] else earlier
  }

  lemma SentMore(warned: seq<Alert>, posted: seq<Alert>, sent: seq<Alert>, a: Alert)
    ensures warned + sent + [a] == warned + (sent + [a])
    ensures posted + Posts(sent) + (if a.webhook != "" then [a] else []) == posted + Posts(sent + [a])
  {
    assert (sent + [a])[..|sent|] == sent;
  }
}
