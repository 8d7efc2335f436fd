/**
  The usage event log of all tenants and the two aggregations over it. Costs are exact reals; a
  missing cost is ignored by the sums, as SQL ignores NULL.
 */
module Usage {
  import opened Wrappers

  type TenantId = nat

  datatype ModelKey = ModelKey(provider: string, model: string)

  datatype UsageEvent = UsageEvent(
    tenant: TenantId, key: ModelKey, input: int, output: int, cost: Option<real>, at: int)
  {
    /** The generated column. */
    function Total(): int { input + output }
  }

  predicate FitsInteger(n: int) { -0x8000_0000 <= n < 0x8000_0000 }

  /** The columns of an aggregation. */
  datatype Totals = Totals(input: int, output: int, tokens: int, cost: real, count: nat) {
    function Plus(t: Totals): Totals {
      Totals(input + t.input, output + t.output, tokens + t.tokens, cost + t.cost, count + t.count)
    }
  }

  function Zero(): Totals { Totals(0, 0, 0, 0.0, 0) }

  function Single(e: UsageEvent): Totals {
    Totals(e.input, e.output, e.Total(), if e.cost.Some? then e.cost.value else 0.0, 1)
  }

  function Sum(es: seq<UsageEvent>): Totals {
    if |es| == 0 then Zero()
    else
      var e := es[|es| - 1];
      Sum(es[..|es| - 1]).Plus(Single(e))
  }

  /** A tenant and a half-open period. */
  datatype Query = Query(tenant: TenantId, from: int, to: int)

  predicate Matches(e: UsageEvent, q: Query) { e.tenant == q.tenant && q.from <= e.at < q.to }

  function Select(es: seq<UsageEvent>, q: Query): seq<UsageEvent> {
    if |es| == 0 then []
    else
      var earlier := Select(es[..|es| - 1], q);
      if Matches(es[|es| - 1], q) then earlier + [es[|es| - 1]] else earlier
  }

  function Summary(es: seq<UsageEvent>, q: Query): Totals { Sum(Select(es, q)) }

  /** The events of one model, and the others. */
  function OfModel(es: seq<UsageEvent>, k: ModelKey): seq<UsageEvent> {
    if |es| == 0 then []
    else
      var earlier := OfModel(es[..|es| - 1], k);
      if es[|es| - 1].key == k then earlier + [es[|es| - 1]] else earlier
  }

  function NotOf(es: seq<UsageEvent>, k: ModelKey): seq<UsageEvent> {
    if |es| == 0 then []
    else
      var earlier := NotOf(es[..|es| - 1], k);
      if es[|es| - 1].key != k then earlier + [es[|es| - 1]] else earlier
  }

  datatype ModelRow = ModelRow(key: ModelKey, totals: Totals)

  ghost predicate HasKey(rows: seq<ModelRow>, k: ModelKey) { exists i :: 0 <= i < |rows| && rows[i].key == k }

  ghost predicate DistinctKeys(rows: seq<ModelRow>) {
    forall i, j :: 0 <= i < j < |rows| ==> rows[i].key != rows[j].key
  }

  /** Each row has the sums of its own model, which occurs. */
  ghost predicate OwnSums(rows: seq<ModelRow>, es: seq<UsageEvent>) {
    forall i :: 0 <= i < |rows| ==> OfModel(es, rows[i].key) != [] && rows[i].totals == Sum(OfModel(es, rows[i].key))
  }

  /** The rows of a GROUP BY over the events: one per model that occurs, with its own sums. */
  ghost predicate Groups(rows: seq<ModelRow>, es: seq<UsageEvent>) {
    && DistinctKeys(rows) && OwnSums(rows, es)
    && forall e :: e in es ==> HasKey(rows, e.key)
  }

  ghost predicate ByTokensDescending(rows: seq<ModelRow>) {
    forall i, j :: 0 <= i < j < |rows| ==> rows[i].totals.tokens >= rows[j].totals.tokens
  }

  class UsageRepo {
    var events: seq<UsageEvent>

    constructor ()
      ensures events == []
    {
      events := [];
    }

    /** An insert fails when a token count, or their sum, does not fit its column. */
    method Record(e: UsageEvent, dbOk: bool) returns (ok: bool)
      modifies this
      ensures ok <==>
              && dbOk && -2_147_483_648 <= e.input <= 2_147_483_647 && -2_147_483_648 <= e.output <= 2_147_483_647
              && -2_147_483_648 <= e.input + e.output <= 2_147_483_647
      ensures events == if ok then old(events) + [e] else old(events)
    {
      ok := dbOk && FitsInteger(e.input) && FitsInteger(e.output) && FitsInteger(e.Total());
      if ok {
        events := events + [e];
      }
    }

    method SummaryByTenant(q: Query, dbOk: bool) returns (r: Option<Totals>)
      ensures r == if dbOk then Some(Summary(events, q)) else None
    {
      if !dbOk {
        return None;
      }
      var t := Zero();
      for i := 0 to |events|
        invariant t == Summary(events[..i], q)
      {
        assert events[..i + 1][..i] == events[..i];
        if Matches(events[i], q) {
          SumSnoc(Select(events[..i], q), events[i]);
          t := t.Plus(Single(events[i]));
        }
      }
      assert events[..|events|] == events;
      r := Some(t);
    }

    method BreakdownByModel(q: Query, dbOk: bool) returns (r: Option<seq<ModelRow>>)
      ensures r.Some? <==> dbOk
      ensures r.Some? ==> Groups(r.value, Select(events, q)) && ByTokensDescending(r.value)
      ensures r.Some? ==> SumRows(r.value) == Summary(events, q)
    {
      if !dbOk {
        return None;
      }
      var rows := GroupByModel(Select(events, q));
      BreakdownAddsUpToSummary(rows, events, q);
      r := Some(rows);
    }
  }

  lemma SumSnoc(es: seq<UsageEvent>, e: UsageEvent)
    ensures Sum(es + [e]) == Sum(es).Plus(Single(e))
  {
    assert (es + [e])[..|es|] == es;
  }

  // ---------- Grouping ----------

  /** Where a row with this many tokens goes in a descending list. */
  function Place(rows: seq<ModelRow>, tokens: int): (k: nat)
    requires ByTokensDescending(rows)
    ensures k <= |rows|
    ensures forall i :: 0 <= i < k ==> rows[i].totals.tokens >= tokens
    ensures forall i :: k <= i < |rows| ==> rows[i].totals.tokens < tokens
  {
    if rows == [] || rows[|rows| - 1].totals.tokens >= tokens then |rows| else Place(rows[..|rows| - 1], tokens)
  }

  function Insert(rows: seq<ModelRow>, k: nat, row: ModelRow): seq<ModelRow>
    requires k <= |rows|
  {
    rows[..k] + [row] + rows[k..]
  }

  lemma InsertKeys(rows: seq<ModelRow>, k: nat, row: ModelRow, m: ModelKey)
    requires k <= |rows|
    ensures HasKey(Insert(rows, k, row), m) <==> m == row.key || HasKey(rows, m)
  {
    var more := Insert(rows, k, row);
    assert more[k] == row;
    if i :| 0 <= i < |rows| && rows[i].key == m {
      assert more[if i < k then i else i + 1] == rows[i];
    }
    if i :| 0 <= i < |more| && more[i].key == m && i != k {
      assert rows[if i < k then i else i - 1] == more[i];
    }
  }

  lemma InsertDistinct(rows: seq<ModelRow>, k: nat, row: ModelRow)
    requires k <= |rows| && DistinctKeys(rows) && !HasKey(rows, row.key)
    ensures DistinctKeys(Insert(rows, k, row))
  {
    var more := Insert(rows, k, row);
    forall i | 0 <= i < |more| ensures more[i] == if i < k then rows[i] else if i == k then row else rows[i - 1] {}
  }

  lemma InsertDescending(rows: seq<ModelRow>, row: ModelRow)
    requires ByTokensDescending(rows)
    ensures ByTokensDescending(Insert(rows, Place(rows, row.totals.tokens), row))
  {
    var k := Place(rows, row.totals.tokens);
    var more := Insert(rows, k, row);
    forall i | 0 <= i < |more| ensures more[i] == if i < k then rows[i] else if i == k then row else rows[i - 1] {}
  }

  method GroupByModel(es: seq<UsageEvent>) returns (rows: seq<ModelRow>)
    ensures Groups(rows, es) && ByTokensDescending(rows)
  {
    rows := [];
    var rest := es;
    while |rest| > 0
      invariant ByTokensDescending(rows) && Partial(rows, rest, es)
      decreases |rest|
    {
      var key := rest[0].key;
      var row := ModelRow(key, Sum(OfModel(rest, key)));
      var k := Place(rows, row.totals.tokens);
      InsertDescending(rows, row);
      PartialStep(rows, rest, es, k);
      NotOfShrinks(rest, key);
      rows := Insert(rows, k, row);
      rest := NotOf(rest, key);
    }
    PartialIsWhole(rows, es);
  }

  /** The rows group the events that are not in the rest, and the rest has every other model whole. */
  ghost predicate Partial(rows: seq<ModelRow>, rest: seq<UsageEvent>, es: seq<UsageEvent>) {
    && DistinctKeys(rows) && OwnSums(rows, es)
    && forall m :: OfModel(rest, m) == if HasKey(rows, m) then [] else OfModel(es, m)
  }

  lemma PartialIsWhole(rows: seq<ModelRow>, es: seq<UsageEvent>)
    requires Partial(rows, [], es)
    ensures Groups(rows, es)
  {
    forall e | e in es ensures HasKey(rows, e.key) {
      OfModelMembers(es, e.key);
      assert OfModel([], e.key) == [];
    }
  }

  lemma {:induction false} OfModelMembers(es: seq<UsageEvent>, k: ModelKey)
    ensures (exists e :: e in es && e.key == k) <==> OfModel(es, k) != []
  {
    if |es| > 0 {
      OfModelMembers(es[..|es| - 1], k);
      var last := es[|es| - 1];
      assert forall e :: e in es <==> e in es[..|es| - 1] || e == last;
    }
  }

  lemma {:induction false} OfNotOf(es: seq<UsageEvent>, k: ModelKey, m: ModelKey)
    ensures OfModel(NotOf(es, k), m) == if m == k then [] else OfModel(es, m)
  {
    if |es| > 0 {
      var init, last, n := es[..|es| - 1], es[|es| - 1], NotOf(es, k);
      OfNotOf(init, k, m);
      if last.key != k {
        assert n[..|n| - 1] == NotOf(init, k);
      } else {
        assert n == NotOf(init, k);
      }
    }
  }

  lemma {:induction false} NotOfMembers(es: seq<UsageEvent>, k: ModelKey, e: UsageEvent)
    ensures e in NotOf(es, k) <==> e in es && e.key != k
  {
    if |es| > 0 {
      NotOfMembers(es[..|es| - 1], k, e);
    }
  }

  lemma {:induction false} PartSizes(es: seq<UsageEvent>, k: ModelKey)
    ensures |OfModel(es, k)| + |NotOf(es, k)| == |es|
  {
    if |es| > 0 {
      PartSizes(es[..|es| - 1], k);
    }
  }

  lemma NotOfShrinks(es: seq<UsageEvent>, k: ModelKey)
    requires es != [] && es[0].key == k
    ensures |NotOf(es, k)| < |es|
  {
    PartSizes(es, k);
    OfModelMembers(es, k);
  }

  lemma PartialStep(rows: seq<ModelRow>, rest: seq<UsageEvent>, es: seq<UsageEvent>, k: nat)
    requires Partial(rows, rest, es) && rest != [] && k <= |rows|
    ensures var key := rest[0].key;
            Partial(Insert(rows, k, ModelRow(key, Sum(OfModel(rest, key)))), NotOf(rest, key), es)
  {
    var key := rest[0].key;
    var row := ModelRow(key, Sum(OfModel(rest, key)));
    var more := Insert(rows, k, row);
    OfModelMembers(rest, key);
    assert !HasKey(rows, key) && OfModel(rest, key) == OfModel(es, key);
    InsertDistinct(rows, k, row);
    forall i | 0 <= i < |more|
      ensures OfModel(es, more[i].key) != [] && more[i].totals == Sum(OfModel(es, more[i].key))
    {
      assert more[i] == if i < k then rows[i] else if i == k then row else rows[i - 1];
    }
    forall m ensures OfModel(NotOf(rest, key), m) == if HasKey(more, m) then [] else OfModel(es, m) {
      OfNotOf(rest, key, m);
      InsertKeys(rows, k, row, m);
      assert OfModel(rest, m) == if HasKey(rows, m) then [] else OfModel(es, m);
    }
  }

  // ---------- The sums agree ----------

  function SumRows(rows: seq<ModelRow>): Totals {
    if |rows| == 0 then Zero() else rows[0].totals.Plus(SumRows(rows[1..]))
  }

  lemma PlusRegroups(a: Totals, b: Totals, c: Totals)
    ensures a.Plus(b).Plus(c) == a.Plus(b.Plus(c)) == a.Plus(c).Plus(b)
  {
  }

  lemma PartsSnoc(es: seq<UsageEvent>, e: UsageEvent, k: ModelKey)
    ensures OfModel(es + [e], k) == if e.key == k then OfModel(es, k) + [e] else OfModel(es, k)
    ensures NotOf(es + [e], k) == if e.key == k then NotOf(es, k) else NotOf(es, k) + [e]
  {
    assert (es + [e])[..|es|] == es;
  }

  /** One more event on one side of a split. */
  lemma SplitGrows(es: seq<UsageEvent>, xs: seq<UsageEvent>, ys: seq<UsageEvent>, e: UsageEvent)
    requires Sum(es) == Sum(xs).Plus(Sum(ys))
    ensures Sum(es + [e]) == Sum(xs + [e]).Plus(Sum(ys)) == Sum(xs).Plus(Sum(ys + [e]))
  {
    SumSnoc(es, e);
    SumSnoc(xs, e);
    SumSnoc(ys, e);
    PlusRegroups(Sum(xs), Sum(ys), Single(e));
  }

  predicate SplitsAt(es: seq<UsageEvent>, k: ModelKey) {
    Sum(es) == Sum(OfModel(es, k)).Plus(Sum(NotOf(es, k)))
  }

  lemma SplitSnoc(es: seq<UsageEvent>, e: UsageEvent, k: ModelKey)
    requires SplitsAt(es, k)
    ensures SplitsAt(es + [e], k)
  {
    PartsSnoc(es, e, k);
    SplitGrows(es, OfModel(es, k), NotOf(es, k), e);
  }

  lemma EmptySplits(k: ModelKey)
    ensures SplitsAt([], k)
  {
  }

  /** The events of a model and the others share out the sums. */
  lemma {:induction false} PartsAddUp(es: seq<UsageEvent>, k: ModelKey)
    ensures SplitsAt(es, k)
  {
    if |es| == 0 {
      EmptySplits(k);
    } else {
      PartsAddUp(es[..|es| - 1], k);
      SplitSnoc(es[..|es| - 1], es[|es| - 1], k);
      assert es[..|es| - 1] + [es[|es| - 1]] == es;
    }
  }

  lemma GroupsWithoutFirst(rows: seq<ModelRow>, es: seq<UsageEvent>)
    requires Groups(rows, es) && rows != []
    ensures Groups(rows[1..], NotOf(es, rows[0].key))
  {
    var k, less := rows[0].key, NotOf(es, rows[0].key);
    forall i | 0 <= i < |rows[1..]|
      ensures OfModel(less, rows[1..][i].key) == OfModel(es, rows[i + 1].key)
    {
      OfNotOf(es, k, rows[i + 1].key);
    }
    forall e | e in less ensures HasKey(rows[1..], e.key) {
      NotOfMembers(es, k, e);
      var i :| 0 <= i < |rows| && rows[i].key == e.key;
      assert rows[1..][i - 1] == rows[i];
    }
  }

  lemma {:induction false} GroupsAddUp(rows: seq<ModelRow>, es: seq<UsageEvent>)
    requires Groups(rows, es)
    ensures SumRows(rows) == Sum(es)
    decreases |rows|
  {
    if |rows| == 0 {
      assert forall e :: e !in es;
    } else {
      GroupsWithoutFirst(rows, es);
      GroupsAddUp(rows[1..], NotOf(es, rows[0].key));
      PartsAddUp(es, rows[0].key);
    }
  }

  /** For every log, tenant and period, any breakdown by model adds up, column by column, to the
      summary. */
  lemma BreakdownAddsUpToSummary(rows: seq<ModelRow>, es: seq<UsageEvent>, q: Query)
    requires Groups(rows, Select(es, q))
    ensures SumRows(rows) == Summary(es, q)
  {
    GroupsAddUp(rows, Select(es, q));
  }

  lemma {:induction false} TokensAreInputPlusOutput(es: seq<UsageEvent>)
    ensures Sum(es).tokens == Sum(es).input + Sum(es).output && Sum(es).count == |es|
  {
    if |es| > 0 {
      TokensAreInputPlusOutput(es[..|es| - 1]);
    }
  }

  function Column<T>(es: seq<UsageEvent>, f: UsageEvent -> T): seq<T> { seq(|es|,
      i requires 0 <= i < |es| => f(es[i])) }

  function Add(xs: seq<int>): int { if |xs| == 0 then 0 else Add(xs[..|xs| - 1]) + xs[|xs| - 1] }

  function AddCosts(xs: seq<Option<real>>): real {
    if |xs| == 0 then 0.0
    else AddCosts(xs[..|xs| - 1]) + if xs[|xs| - 1].Some? then xs[|xs| - 1].value else 0.0
  }

  /** Each column of the totals is the sum of its own column of the events. */
  lemma {:induction false} ColumnsAreSums(es: seq<UsageEvent>)
    ensures Sum(es).input == Add(Column(es, (e: UsageEvent) => e.input))
    ensures Sum(es).output == Add(Column(es, (e: UsageEvent) => e.output))
    ensures Sum(es).cost == AddCosts(Column(es, (e: UsageEvent) => e.cost))
  {
    if |es| > 0 {
      var n, init := |es| - 1, es[..|es| - 1];
      ColumnsAreSums(init);
      assert Column(es, (e: UsageEvent) => e.input)[..n] == Column(init, (e: UsageEvent) => e.input);
      assert Column(es, (e: UsageEvent) => e.output)[..n] == Column(init, (e: UsageEvent) => e.output);
      assert Column(es, (e: UsageEvent) => e.cost)[..n] == Column(init, (e: UsageEvent) => e.cost);
    }
  }

  /** A query selects every event of its tenant in its period, as often as it occurs, and no other. */
  lemma {:induction false} SelectsExactlyTheMatches(es: seq<UsageEvent>, q: Query, e: UsageEvent)
    ensures multiset(Select(es, q))[e] ==
            if e.tenant == q.tenant && q.from <= e.at && e.at < q.to then multiset(es)[e] else 0
  {
    if |es| > 0 {
      var init, last := es[..|es| - 1], es[|es| - 1];
      SelectsExactlyTheMatches(init, q, e);
      assert es == init + [last];
      assert multiset(es) == multiset(init) + multiset{last};
    }
  }

  lemma SummarySnoc(es: seq<UsageEvent>, e: UsageEvent, q: Query)
    ensures Summary(es + [e], q) == if Matches(e, q) then Summary(es, q).Plus(Single(e)) else Summary(es, q)
  {
    assert (es + [e])[..|es|] == es;
    if Matches(e, q) {
      SumSnoc(Select(es, q), e);
    }
  }

  /** An event of another tenant, before the period or at its end or after, leaves a summary as it is. */
  lemma OtherEventsDoNotCount(es: seq<UsageEvent>, e: UsageEvent, q: Query)
    requires e.tenant != q.tenant || e.at < q.from || e.at >= q.to
    ensures Summary(es + [e], q) == Summary(es, q)
  {
    SummarySnoc(es, e, q);
  }

  /** An event of the tenant in the period adds its own counts, its cost if it has one, and one event. */
  lemma OwnEventsCount(es: seq<UsageEvent>, e: UsageEvent, q: Query)
    requires e.tenant == q.tenant && q.from <= e.at < q.to
    ensures Summary(es + [e], q).input == Summary(es, q).input + e.input
    ensures Summary(es + [e], q).output == Summary(es, q).output + e.output
    ensures Summary(es + [e], q).tokens == Summary(es, q).tokens + e.input + e.output
    ensures e.cost.Some? ==> Summary(es + [e], q).cost == Summary(es, q).cost + e.cost.value
    ensures e.cost.None? ==> Summary(es + [e], q).cost == Summary(es, q).cost
    ensures Summary(es + [e], q).count == Summary(es, q).count + 1
  {
    SummarySnoc(es, e, q);
  }

  lemma EmptySummary(q: Query)
    ensures Summary([], q) == Totals(0, 0, 0, 0.0, 0)
  {
  }

  predicate PeriodsAddUp(es: seq<UsageEvent>, tenant: TenantId, a: int, b: int, c: int) {
    Summary(es, Query(tenant, a, c)) == Summary(es, Query(tenant, a, b)).Plus(Summary(es, Query(tenant, b, c)))
  }

  lemma PeriodsSnoc(es: seq<UsageEvent>, e: UsageEvent, tenant: TenantId, a: int, b: int, c: int)
    requires a <= b <= c && PeriodsAddUp(es, tenant, a, b, c)
    ensures PeriodsAddUp(es + [e], tenant, a, b, c)
  {
    SummarySnoc(es, e, Query(tenant, a, c));
    SummarySnoc(es, e, Query(tenant, a, b));
    SummarySnoc(es, e, Query(tenant, b, c));
    PlusRegroups(Summary(es, Query(tenant, a, b)), Summary(es, Query(tenant, b, c)), Single(e));
  }

  lemma EmptyPeriodsAddUp(tenant: TenantId, a: int, b: int, c: int)
    ensures PeriodsAddUp([], tenant, a, b, c)
  {
  }

  /** Summaries over adjacent periods add up to the summary over both. */
  lemma {:induction false} AdjacentPeriodsAddUp(es: seq<UsageEvent>, tenant: TenantId, a: int, b: int, c: int)
    requires a <= b <= c
    ensures PeriodsAddUp(es, tenant, a, b, c)
  {
    if |es| == 0 {
      EmptyPeriodsAddUp(tenant, a, b, c);
    } else {
      AdjacentPeriodsAddUp(es[..|es| - 1], tenant, a, b, c);
      PeriodsSnoc(es[..|es| - 1], es[|es| - 1], tenant, a, b, c);
      assert es[..|es| - 1] + [es[|es| - 1]] == es;
    }
  }
}
