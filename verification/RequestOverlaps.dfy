/**
  The requests of the router at once: any number of requests walk their chains, each asking a breaker,
  waiting for its provider and recording the result in separate steps, and health reads fall between any
  two steps.
 */
module RequestOverlaps {
  import opened CircuitBreakers
  import opened Routers
  import WarmPool

  type RequestId = nat

  /** A request under way: its chain, the entry it has reached, whether it waits for that entry's provider,
      and the last error. */
  datatype Progress = Progress(chain: seq<Provider>, next: nat, waiting: bool, lastErr: Failure) {
    function Name(): string
      requires next < |chain|
    {
      chain[next].name
    }
  }

  datatype World = World(breakers: Breakers, going: map<RequestId, Progress>, done: map<RequestId, Reply>)

  datatype Happening =
    | Arrive(id: RequestId, chain: seq<Provider>, at: int)
    | AskEntry(id: RequestId, at: int)
    | Answer(id: RequestId, at: int, reply: Reply)
    | ReadHealth(name: string, at: int)

  /** The entry that a request has reached has a breaker. */
  ghost predicate Placed(w: World, id: RequestId) {
    id in w.going && w.going[id].next < |w.going[id].chain| && Covers(w.breakers, w.going[id].chain)
  }

  ghost predicate Valid(w: World) { forall id :: id in w.going ==> Placed(w, id) }

  ghost predicate Enabled(w: World, e: Happening) {
    match e
    case Arrive(id, chain, _) => id !in w.going && id !in w.done && chain != [] && Covers(w.breakers, chain)
    case AskEntry(id, _) => Placed(w, id) && !w.going[id].waiting
    case Answer(id, _, _) => Placed(w, id) && w.going[id].waiting
    case ReadHealth(_, _) => true
  }

  /** The entry is lost: the request goes on to the next one, or fails after the last. */
  function Lose(w: World, id: RequestId, error: Failure): World
    requires id in w.going
  {
    var p := w.going[id];
    if p.next + 1 < |p.chain| then w.(going := w.going[id := Progress(p.chain, p.next + 1, false, error)])
    else w.(going := w.going - {id}, done := w.done[id := Err(AllFailed(error))])
  }

  /** An operation on one breaker. */
  function Touch(c: Config, w: World, n: string, op: Op): World
    requires n in w.breakers
  {
    w.(breakers := w.breakers[n := Step(c, w.breakers[n], op)])
  }

  function OpOf(e: Happening): Op
    requires e.Answer?
  {
    if e.reply.Ok? then Succeed(e.at) else Fail(e.at)
  }

  ghost function Next(c: Config, w: World, e: Happening): World
    requires Enabled(w, e)
  {
    match e
    case Arrive(id, chain, _) => w.(going := w.going[id := Progress(chain, 0, false, NoProviders)])
    case AskEntry(id, at) =>
      var n := w.going[id].Name();
      var asked := Touch(c, w, n, Ask(at));
      if Admits(c, w.breakers[n], at) then asked.(going := w.going[id := w.going[id].(waiting := true)])
      else Lose(asked, id, CircuitOpen(n))
    case Answer(id, _, reply) =>
      var told := Touch(c, w, w.going[id].Name(), OpOf(e));
      if reply.Ok? then told.(going := w.going - {id}, done := w.done[id := Ok(reply.value)])
      else Lose(told, id, reply.error)
    case ReadHealth(n, at) => if n in w.breakers then Touch(c, w, n, Poll(at)) else w
  }

  // ---------- Runs ----------

  ghost predicate Possible(c: Config, w: World, es: seq<Happening>)
    decreases |es|
  {
    es != [] ==> Enabled(w, es[0]) && Possible(c, Next(c, w, es[0]), es[1..])
  }

  ghost function Run(c: Config, w: World, es: seq<Happening>): World
    requires Possible(c, w, es)
    decreases |es|
  {
    if es == [] then w else Run(c, Next(c, w, es[0]), es[1..])
  }

  ghost predicate Timed(es: seq<Happening>, now: int)
    decreases |es|
  {
    es != [] ==> now <= es[0].at && Timed(es[1..], es[0].at)
  }

  function WithoutReads(es: seq<Happening>): seq<Happening> {
    if es == [] then []
    else
      var later := WithoutReads(es[1..]);
      if es[0].ReadHealth? then later else [es[0]] + later
  }

  /** The request waits for the given provider. */
  ghost predicate WaitsFor(w: World, id: RequestId, n: string) {
    Placed(w, id) && w.going[id].waiting && w.going[id].Name() == n
  }

  /** A success that finds its breaker open while another request waits for the same provider. */
  ghost predicate LateAnswer(w: World, e: Happening)
    requires Enabled(w, e)
  {
    && e.Answer? && e.reply.Ok?
    && var n := w.going[e.id].Name();
       w.breakers[n].state == Open && exists id :: id != e.id && WaitsFor(w, id, n)
  }

  /** As far as the run is possible, no answer is late. */
  ghost predicate NoneLate(c: Config, w: World, es: seq<Happening>)
    decreases |es|
  {
    es != [] && Enabled(w, es[0]) ==> !LateAnswer(w, es[0]) && NoneLate(c, Next(c, w, es[0]), es[1..])
  }

  // ---------- Health reads change no result ----------

  /** The same requests are where they are in both worlds, and the breakers differ by reads only. */
  ghost predicate Alike(c: Config, p: World, u: World, now: int) {
    p.going == u.going && p.done == u.done && AgreeAll(c, p.breakers, u.breakers, now)
  }

  /** An open breaker has enough failures on record to open again, or no request waits for its provider. */
  ghost predicate SettledAt(c: Config, w: World, n: string) {
    n in w.breakers && w.breakers[n].state == Open && w.breakers[n].failures < c.failureThreshold ==>
      forall id :: !WaitsFor(w, id, n)
  }

  ghost predicate AllSettled(c: Config, w: World) { Valid(w) && forall n :: SettledAt(c, w, n) }

  lemma StepKeepsValid(c: Config, w: World, e: Happening)
    requires Valid(w) && Enabled(w, e)
    ensures Valid(Next(c, w, e)) && Next(c, w, e).breakers.Keys == w.breakers.Keys
  {
    var n := Next(c, w, e);
    assert n.breakers.Keys == w.breakers.Keys;
    forall id | id in n.going ensures Placed(n, id) {
      assert id in w.going ==> Placed(w, id);
    }
  }

  /** Only an admitted question makes a request wait. */
  lemma WaitersAfter(c: Config, w: World, e: Happening, id: RequestId, n: string)
    requires Valid(w) && Enabled(w, e) && WaitsFor(Next(c, w, e), id, n)
    ensures || WaitsFor(w, id, n)
            || (e.AskEntry? && e.id == id && w.going[id].Name() == n && Admits(c, w.breakers[n], e.at))
    ensures e.Answer? ==> e.id != id
  {
    StepKeepsValid(c, w, e);
  }

  lemma StepSettles(c: Config, w: World, e: Happening)
    requires AllSettled(c, w) && Enabled(w, e) && !e.ReadHealth? && !LateAnswer(w, e)
    ensures AllSettled(c, Next(c, w, e))
  {
    var w' := Next(c, w, e);
    StepKeepsValid(c, w, e);
    forall n ensures SettledAt(c, w', n) {
      assert SettledAt(c, w, n);
      forall id | WaitsFor(w', id, n) && w'.breakers[n].state == Open
        ensures w'.breakers[n].failures >= c.failureThreshold
      {
        WaitersAfter(c, w, e, id, n);
      }
    }
  }

  lemma AnswerIsNotEarly(c: Config, w: World, e: Happening)
    requires AllSettled(c, w) && Enabled(w, e) && e.Answer?
    ensures !EarlyFailure(c, w.breakers[w.going[e.id].Name()], OpOf(e))
  {
    var n := w.going[e.id].Name();
    assert SettledAt(c, w, n) && WaitsFor(w, e.id, n);
  }

  lemma ReadIsAlike(c: Config, p: World, u: World, e: Happening, now: int)
    requires Alike(c, p, u, now) && e.ReadHealth? && now <= e.at
    ensures Enabled(p, e) && Alike(c, Next(c, p, e), u, e.at)
  {
    var p' := Next(c, p, e);
    forall n | n in u.breakers ensures Follows(c, p'.breakers[n], u.breakers[n], e.at) {
      PollFollows(c, p.breakers[n], u.breakers[n], e.at, now);
    }
  }

  lemma AskIsAlike(c: Config, p: World, u: World, e: Happening, now: int)
    requires Alike(c, p, u, now) && Enabled(p, e) && e.AskEntry? && now <= e.at
    ensures Enabled(u, e) && Alike(c, Next(c, p, e), Next(c, u, e), e.at)
  {
    OneAgrees(c, p.breakers, u.breakers, p.going[e.id].Name(), Ask(e.at), now);
  }

  lemma AnswerIsAlike(c: Config, p: World, u: World, e: Happening, now: int)
    requires Alike(c, p, u, now) && Enabled(p, e) && e.Answer? && now <= e.at && AllSettled(c, u)
    ensures Enabled(u, e) && Alike(c, Next(c, p, e), Next(c, u, e), e.at)
  {
    AnswerIsNotEarly(c, u, e);
    OneAgrees(c, p.breakers, u.breakers, p.going[e.id].Name(), OpOf(e), now);
  }

  lemma {:induction false} RunsAreAlike(c: Config, p: World, u: World, es: seq<Happening>, now: int)
    requires Alike(c, p, u, now) && AllSettled(c, u) && Possible(c, p, es) && Timed(es, now)
    requires NoneLate(c, u, WithoutReads(es))
    ensures Possible(c, u, WithoutReads(es))
    ensures Run(c, p, es).going == Run(c, u, WithoutReads(es)).going
    ensures Run(c, p, es).done == Run(c, u, WithoutReads(es)).done
    decreases |es|
  {
    if es != [] {
      var e, later := es[0], WithoutReads(es[1..]);
      if e.ReadHealth? {
        ReadIsAlike(c, p, u, e, now);
        RunsAreAlike(c, Next(c, p, e), u, es[1..], e.at);
      } else {
        assert ([e] + later)[1..] == later;
        if e.AskEntry? {
          AskIsAlike(c, p, u, e, now);
        } else if e.Answer? {
          AnswerIsAlike(c, p, u, e, now);
        }
        StepSettles(c, u, e);
        RunsAreAlike(c, Next(c, p, e), Next(c, u, e), es[1..], e.at);
      }
    }
  }

  /** Over every run of overlapping requests from any breakers: if without health reads no success finds
      its breaker open while another request waits for the same provider, then the reads, wherever they
      fall, change neither the result nor the progress of any request. */
  lemma OverlappingRequestsAreUnaffected(c: Config, v: Breakers, es: seq<Happening>, now: int)
    requires Possible(c, World(v, map[], map[]), es) && Timed(es, now)
    requires NoneLate(c, World(v, map[], map[]), WithoutReads(es))
    ensures Possible(c, World(v, map[], map[]), WithoutReads(es))
    ensures var w := World(v, map[], map[]);
            && Run(c, w, es).done == Run(c, w, WithoutReads(es)).done
            && Run(c, w, es).going == Run(c, w, WithoutReads(es)).going
  {
    var w := World(v, map[], map[]);
    RunsAreAlike(c, w, w, es, now);
  }

  // ---------- Exactly when reads show ----------

  lemma {:induction false} OneFailureHidesReads(c: Config, p: World, u: World, es: seq<Happening>, now: int)
    requires c.failureThreshold == 1 && Alike(c, p, u, now) && Possible(c, p, es) && Timed(es, now)
    ensures Possible(c, u, WithoutReads(es))
    ensures Run(c, p, es).going == Run(c, u, WithoutReads(es)).going
    ensures Run(c, p, es).done == Run(c, u, WithoutReads(es)).done
    decreases |es|
  {
    if es != [] {
      var e, later := es[0], WithoutReads(es[1..]);
      if e.ReadHealth? {
        ReadIsAlike(c, p, u, e, now);
        OneFailureHidesReads(c, Next(c, p, e), u, es[1..], e.at);
      } else {
        assert ([e] + later)[1..] == later;
        if e.AskEntry? {
          AskIsAlike(c, p, u, e, now);
        } else if e.Answer? {
          OneAgrees(c, p.breakers, u.breakers, p.going[e.id].Name(), OpOf(e), now);
        }
        OneFailureHidesReads(c, Next(c, p, e), Next(c, u, e), es[1..], e.at);
      }
    }
  }

  /** The run goes on without a late answer, and its health reads change a result or the progress of a
      request. */
  ghost predicate ReadsShowIn(c: Config, w: World, es: seq<Happening>, now: int) {
    && Possible(c, w, es) && Timed(es, now) && NoneLate(c, w, WithoutReads(es))
    && !(&& Possible(c, w, WithoutReads(es))
         && Run(c, w, es).going == Run(c, w, WithoutReads(es)).going
         && Run(c, w, es).done == Run(c, w, WithoutReads(es)).done)
  }

  ghost predicate ReadsCanShow(c: Config, w: World, now: int) { exists es :: ReadsShowIn(c, w, es, now) }

  lemma SettledHidesReads(c: Config, w: World, now: int)
    requires c.failureThreshold == 1 || AllSettled(c, w)
    ensures !ReadsCanShow(c, w, now)
  {
    forall es ensures !ReadsShowIn(c, w, es, now) {
      if Possible(c, w, es) && Timed(es, now) && NoneLate(c, w, WithoutReads(es)) {
        if c.failureThreshold == 1 {
          OneFailureHidesReads(c, w, w, es, now);
        } else {
          RunsAreAlike(c, w, w, es, now);
        }
      }
    }
  }

  /** The failure of a waiting request, and a new request for the same provider. */
  function FailThenAsk(id: RequestId, newId: RequestId, n: string, t: int): seq<Happening> {
    [Answer(id, t, Err(ProviderError("")))] + [Arrive(newId, [Provider(n)], t)] + [AskEntry(newId, t)]
  }

  /** The world in which a waiting request has failed and a new one has arrived. */
  ghost function Asking(c: Config, w: World, id: RequestId, newId: RequestId, n: string, t: int): World
    requires WaitsFor(w, id, n) && newId !in w.going && newId !in w.done
  {
    var failed := Next(c, w, Answer(id, t, Err(ProviderError(""))));
    failed.(going := failed.going[newId := Progress([Provider(n)], 0, false, NoProviders)])
  }

  lemma AskingIsReached(c: Config, w: World, id: RequestId, newId: RequestId, n: string, t: int)
    requires WaitsFor(w, id, n) && newId !in w.going && newId !in w.done
    ensures var failed := Next(c, w, Answer(id, t, Err(ProviderError(""))));
            && Enabled(failed, Arrive(newId, [Provider(n)], t))
            && Next(c, failed, Arrive(newId, [Provider(n)], t)) == Asking(c, w, id, newId, n, t)
            && Enabled(Asking(c, w, id, newId, n, t), AskEntry(newId, t))
            && newId !in Asking(c, w, id, newId, n, t).done
            && Asking(c, w, id, newId, n, t).breakers[n] == Step(c, w.breakers[n], Fail(t))
  {
  }

  /** The run of the three steps ends after the question. */
  lemma FailThenAskRuns(c: Config, w: World, id: RequestId, newId: RequestId, n: string, t: int)
    requires WaitsFor(w, id, n) && newId !in w.going && newId !in w.done
    ensures var es := FailThenAsk(id, newId, n, t);
            && Possible(c, w, es) && WithoutReads(es) == es && NoneLate(c, w, es)
            && Enabled(Asking(c, w, id, newId, n, t), AskEntry(newId, t))
            && Run(c, w, es) == Next(c, Asking(c, w, id, newId, n, t), AskEntry(newId, t))
  {
    var a, b, d := Answer(id, t, Err(ProviderError(""))), Arrive(newId, [Provider(n)], t), AskEntry(newId, t);
    var w1, w2 := Next(c, w, a), Asking(c, w, id, newId, n, t);
    AskingIsReached(c, w, id, newId, n, t);
    var es := FailThenAsk(id, newId, n, t);
    assert es[0] == a && es[1..] == [b] + [d] && ([b] + [d])[1..] == [d] && [d][1..] == [];
    assert Possible(c, Next(c, w2, d), []) && NoneLate(c, Next(c, w2, d), []);
    assert Possible(c, w2, [d]) && NoneLate(c, w2, [d]) && Run(c, w2, [d]) == Next(c, w2, d);
    assert Possible(c, w1, [b] + [d]) && NoneLate(c, w1, [b] + [d]) && Run(c, w1, [b] + [d]) == Run(c, w2, [d]);
    assert WithoutReads([d]) == [d] + [];
    assert WithoutReads([b] + [d]) == [b] + [d];
  }

  lemma FailThenAskTimed(id: RequestId, newId: RequestId, n: string, t: int, now: int)
    requires now <= t
    ensures Timed(FailThenAsk(id, newId, n, t), now)
    ensures Timed([ReadHealth(n, t)] + FailThenAsk(id, newId, n, t), now)
  {
    var a, b, d := Answer(id, t, Err(ProviderError(""))), Arrive(newId, [Provider(n)], t), AskEntry(newId, t);
    var es := FailThenAsk(id, newId, n, t);
    assert es[0] == a && es[1..] == [b] + [d] && ([b] + [d])[1..] == [d] && [d][1..] == [];
    assert Timed([], t);
    assert Timed([d], t);
    assert Timed([b] + [d], t);
    assert Timed(es, t);
    assert ([ReadHealth(n, t)] + es)[1..] == es;
  }

  /** A request for one provider is over at once if its breaker refuses it. */
  lemma AskDecides(c: Config, w: World, newId: RequestId, n: string, t: int)
    requires Enabled(w, AskEntry(newId, t)) && newId !in w.done
    requires w.going[newId] == Progress([Provider(n)], 0, false, NoProviders)
    ensures newId in Next(c, w, AskEntry(newId, t)).done <==> !Admits(c, w.breakers[n], t)
  {
  }

  /** Where a request waits for a provider whose breaker is open with no failure on record, a health read
      before its failure decides the fate of the next request. */
  lemma UnsettledReadsShow(c: Config, w: World, id: RequestId, n: string, now: int)
    requires c.Sensible() && c.failureThreshold >= 2 && WaitsFor(w, id, n)
    requires w.breakers[n].state == Open && w.breakers[n].failures == 0
    ensures ReadsCanShow(c, w, now)
  {
    var cooled := w.breakers[n].lastFailure + c.openDuration;
    var t := if now < cooled then cooled else now;
    var newId := WarmPool.BoundOf(w.going.Keys + w.done.Keys);
    var rest, read := FailThenAsk(id, newId, n, t), ReadHealth(n, t);
    var es, p := [read] + rest, Next(c, w, read);
    FailThenAskRuns(c, w, id, newId, n, t);
    FailThenAskRuns(c, p, id, newId, n, t);
    AskingIsReached(c, w, id, newId, n, t);
    AskingIsReached(c, p, id, newId, n, t);
    FailThenAskTimed(id, newId, n, t, now);
    AskDecides(c, Asking(c, w, id, newId, n, t), newId, n, t);
    AskDecides(c, Asking(c, p, id, newId, n, t), newId, n, t);
    assert es[0] == read && es[1..] == rest;
    assert newId in Run(c, w, rest).done && newId !in Run(c, p, rest).done;
    assert ReadsShowIn(c, w, es, now);
  }

  lemma LateAnswerReadsShow(c: Config, w: World, e: Happening)
    requires c.Sensible() && c.failureThreshold >= 2 && Valid(w) && Enabled(w, e) && LateAnswer(w, e)
    ensures ReadsCanShow(c, Next(c, w, e), e.at)
  {
    var n := w.going[e.id].Name();
    var id :| id != e.id && WaitsFor(w, id, n);
    assert WaitsFor(Next(c, w, e), id, n);
    UnsettledReadsShow(c, Next(c, w, e), id, n, e.at);
  }

  /** The guard is exact: from a settled world, a step other than a read lets health reads change a result in
      what follows if and only if it is a late answer and more than one failure is needed to open a
      breaker. */
  lemma ReadsShowExactlyAfterLateAnswer(c: Config, w: World, e: Happening)
    requires c.Sensible() && AllSettled(c, w) && Enabled(w, e) && !e.ReadHealth?
    ensures ReadsCanShow(c, Next(c, w, e), e.at) <==> c.failureThreshold > 1 && LateAnswer(w, e)
  {
    if c.failureThreshold > 1 && LateAnswer(w, e) {
      LateAnswerReadsShow(c, w, e);
    } else {
      if c.failureThreshold > 1 {
        StepSettles(c, w, e);
      }
      SettledHidesReads(c, Next(c, w, e), e.at);
    }
  }

  // ---------- A request that nothing overlaps ----------

  ghost predicate Leads(c: Config, w: World, es: seq<Happening>, end: World) {
    Possible(c, w, es) && Run(c, w, es) == end
  }

  lemma {:induction false} LeadsOn(c: Config, w: World, es: seq<Happening>, mid: World, later: seq<Happening>,
      end: World)
    requires Leads(c, w, es, mid) && Leads(c, mid, later, end)
    ensures Leads(c, w, es + later, end)
    decreases |es|
  {
    if es == [] {
      assert es + later == later;
    } else {
      assert (es + later)[0] == es[0] && (es + later)[1..] == es[1..] + later;
      LeadsOn(c, Next(c, w, es[0]), es[1..], mid, later, end);
    }
  }

  lemma OneLeads(c: Config, w: World, e: Happening)
    requires Enabled(w, e)
    ensures Leads(c, w, [e], Next(c, w, e))
  {
    assert [e][1..] == [];
  }

  /** The first health reads of a series. */
  function ReadsBy(polls: seq<Read>, k: nat): seq<Happening>
    requires k <= |polls|
  {
    if k == 0 then [] else ReadsBy(polls, k - 1) + [ReadHealth(polls[k - 1].name, polls[k - 1].at)]
  }

  lemma {:induction false} ReadsLead(c: Config, w: World, polls: seq<Read>, k: nat)
    requires k <= |polls|
    ensures Leads(c, w, ReadsBy(polls, k), w.(breakers := ReadBy(c, w.breakers, polls, k)))
  {
    if k > 0 {
      var mid, r := w.(breakers := ReadBy(c, w.breakers, polls, k - 1)), polls[k - 1];
      ReadsLead(c, w, polls, k - 1);
      OneLeads(c, mid, ReadHealth(r.name, r.at));
      LeadsOn(c, w, ReadsBy(polls, k - 1), mid, [ReadHealth(r.name, r.at)], Next(c, mid, ReadHealth(r.name, r.at)));
    }
  }

  /** A request that has reached entry i of its chain. */
  function At(w: World, id: RequestId, chain: seq<Provider>, i: nat, waiting: bool, last: Failure): World {
    w.(going := w.going[id := Progress(chain, i, waiting, last)])
  }

  /** Where a request is that has lost entry i. */
  function Lost(w: World, id: RequestId, chain: seq<Provider>, i: nat, last: Failure): World {
    if i + 1 < |chain| then At(w, id, chain, i + 1, false, last) else w.(done := w.done[id := Err(AllFailed(last))])
  }

  /** What happens at one entry: reads, the question, reads, and the answer if the breaker let the call through. */
  function EntrySteps(id: RequestId, a: Attempt, admitted: bool): seq<Happening> {
    ReadsBy(a.before, |a.before|) + ([AskEntry(id, a.askAt)] + (ReadsBy(a.during, |a.during|)
    + (if admitted then [Answer(id, a.doneAt, a.reply)] else [])))
  }

  /** What happens from entry i on. */
  function StepsFrom(c: Config, now: Breakers, id: RequestId, chain: seq<Provider>, attempts: seq<Attempt>, i: nat)
      : seq<Happening>
    requires i < |chain| && Ready(now, chain, attempts)
    decreases |chain| - i
  {
    var n, a := chain[i].name, attempts[i];
    var admitted := LetsThrough(c, now, n, a);
    EntrySteps(id, a, admitted)
    + if (admitted && a.reply.Ok?) || i + 1 == |chain| then []
      else StepsFrom(c, Turned(c, now, n, a), id, chain, attempts, i + 1)
  }

  /** The world after one entry. */
  function EntryDone(c: Config, w: World, id: RequestId, chain: seq<Provider>, i: nat, a: Attempt): World
    requires i < |chain| && Covers(w.breakers, chain)
  {
    var p := chain[i];
    var admitted, later := LetsThrough(c, w.breakers, p.name, a), w.(breakers := Turned(c, w.breakers, p.name, a));
    if admitted && a.reply.Ok? then later.(done := later.done[id := a.reply])
    else Lost(later, id, chain, i, Loss(p, a, admitted))
  }

  lemma AskLeads(c: Config, w: World, id: RequestId, chain: seq<Provider>, i: nat, last: Failure, at: int)
    requires id !in w.going && i < |chain| && Covers(w.breakers, chain)
    ensures var n := chain[i].name;
            var asked := w.(breakers := w.breakers[n := Step(c, w.breakers[n], Ask(at))]);
            Leads(c, At(w, id, chain, i, false, last), [AskEntry(id, at)],
                  if Admits(c, w.breakers[n], at) then At(asked, id, chain, i, true, last)
                  else Lost(asked, id, chain, i, CircuitOpen(n)))
  {
    OneLeads(c, At(w, id, chain, i, false, last), AskEntry(id, at));
    assert w.going[id := Progress(chain, i, false, last)] - {id} == w.going;
  }

  lemma AnswerLeads(c: Config, w: World, id: RequestId, chain: seq<Provider>, i: nat, last: Failure, at: int,
      reply: Reply)
    requires id !in w.going && i < |chain| && Covers(w.breakers, chain)
    ensures var n := chain[i].name;
            var told := w.(breakers := w.breakers[n := Step(c, w.breakers[n],
                                                            if reply.Ok? then Succeed(at) else Fail(at))]);
            Leads(c, At(w, id, chain, i, true, last), [Answer(id, at, reply)],
                  if reply.Ok? then told.(done := told.done[id := reply]) else Lost(told, id, chain, i, reply.error))
  {
    OneLeads(c, At(w, id, chain, i, true, last), Answer(id, at, reply));
    assert w.going[id := Progress(chain, i, true, last)] - {id} == w.going;
  }

  lemma EntryLeads(c: Config, w: World, id: RequestId, chain: seq<Provider>, i: nat, last: Failure, a: Attempt)
    requires id !in w.going && i < |chain| && Covers(w.breakers, chain)
    ensures Leads(c, At(w, id, chain, i, false, last), EntrySteps(id, a, LetsThrough(c, w.breakers, chain[i].name, a)),
                  EntryDone(c, w, id, chain, i, a))
  {
    var n, start := chain[i].name, At(w, id, chain, i, false, last);
    var admitted := LetsThrough(c, w.breakers, n, a);
    var read := w.(breakers := ReadAll(c, w.breakers, a.before));
    var asked := read.(breakers := read.breakers[n := Step(c, read.breakers[n], Ask(a.askAt))]);
    var waited := asked.(breakers := ReadAll(c, asked.breakers, a.during));
    var s1 := At(read, id, chain, i, false, last);
    var s2 := if admitted then At(asked, id, chain, i, true, last) else Lost(asked, id, chain, i, CircuitOpen(n));
    var s3 := if admitted then At(waited, id, chain, i, true, last) else Lost(waited, id, chain, i, CircuitOpen(n));
    var end := EntryDone(c, w, id, chain, i, a);
    var between, answer := ReadsBy(a.during, |a.during|), if admitted then [Answer(id, a.doneAt, a.reply)] else [];
    ReadsLead(c, start, a.before, |a.before|);
    AskLeads(c, read, id, chain, i, last, a.askAt);
    ReadsLead(c, s2, a.during, |a.during|);
    AnswerLeads(c, waited, id, chain, i, last, a.doneAt, a.reply);
    assert Leads(c, s3, answer, end);
    LeadsOn(c, s2, between, s3, answer, end);
    LeadsOn(c, s1, [AskEntry(id, a.askAt)], s2, between + answer, end);
    LeadsOn(c, start, ReadsBy(a.before, |a.before|), s1, [AskEntry(id, a.askAt)] + (between + answer), end);
  }

  lemma LastEntry(c: Config, w: World, id: RequestId, chain: seq<Provider>, attempts: seq<Attempt>, i: nat,
      last: Failure)
    requires i < |chain| && Ready(w.breakers, chain, attempts)
    requires (LetsThrough(c, w.breakers, chain[i].name, attempts[i]) && attempts[i].reply.Ok?) || i + 1 == |chain|
    ensures var (reply, later) := Finish(c, w.breakers, chain, attempts, i, last);
            EntryDone(c, w, id, chain, i, attempts[i]) == World(later, w.going, w.done[id := reply])
    ensures StepsFrom(c, w.breakers, id, chain, attempts, i)
            == EntrySteps(id, attempts[i], LetsThrough(c, w.breakers, chain[i].name, attempts[i]))
  {
  }

  lemma LostEntry(c: Config, w: World, id: RequestId, chain: seq<Provider>, attempts: seq<Attempt>, i: nat,
      last: Failure)
    requires i + 1 < |chain| && Ready(w.breakers, chain, attempts)
    requires !(LetsThrough(c, w.breakers, chain[i].name, attempts[i]) && attempts[i].reply.Ok?)
    ensures var admitted := LetsThrough(c, w.breakers, chain[i].name, attempts[i]);
            var later := Turned(c, w.breakers, chain[i].name, attempts[i]);
            var error := Loss(chain[i], attempts[i], admitted);
            && Finish(c, w.breakers, chain, attempts, i, last) == Finish(c, later, chain, attempts, i + 1, error)
            && StepsFrom(c, w.breakers, id, chain, attempts, i)
               == EntrySteps(id, attempts[i], admitted) + StepsFrom(c, later, id, chain, attempts, i + 1)
            && EntryDone(c, w, id, chain, i, attempts[i])
               == At(w.(breakers := later), id, chain, i + 1, false, error)
  {
  }

  /** The steps from entry i on lead where the router's loop ends. */
  ghost predicate EndsAsTheLoop(c: Config, w: World, id: RequestId, chain: seq<Provider>, attempts: seq<Attempt>,
      i: nat, last: Failure)
    requires i < |chain| && Ready(w.breakers, chain, attempts)
  {
    var (reply, later) := Finish(c, w.breakers, chain, attempts, i, last);
    Leads(c, At(w, id, chain, i, false, last), StepsFrom(c, w.breakers, id, chain, attempts, i),
          World(later, w.going, w.done[id := reply]))
  }

  lemma LostEntryLeadsOn(c: Config, w: World, id: RequestId, chain: seq<Provider>, attempts: seq<Attempt>, i: nat,
      last: Failure)
    requires id !in w.going && i + 1 < |chain| && Ready(w.breakers, chain, attempts)
    requires !(LetsThrough(c, w.breakers, chain[i].name, attempts[i]) && attempts[i].reply.Ok?)
    requires var later := w.(breakers := Turned(c, w.breakers, chain[i].name, attempts[i]));
             var error := Loss(chain[i], attempts[i], LetsThrough(c, w.breakers, chain[i].name, attempts[i]));
             EndsAsTheLoop(c, later, id, chain, attempts, i + 1, error)
    ensures EndsAsTheLoop(c, w, id, chain, attempts, i, last)
  {
    var n, a := chain[i].name, attempts[i];
    var admitted, later := LetsThrough(c, w.breakers, n, a), Turned(c, w.breakers, n, a);
    var (reply, end) := Finish(c, w.breakers, chain, attempts, i, last);
    EntryLeads(c, w, id, chain, i, last, a);
    LostEntry(c, w, id, chain, attempts, i, last);
    LeadsOn(c, At(w, id, chain, i, false, last), EntrySteps(id, a, admitted), EntryDone(c, w, id, chain, i, a),
            StepsFrom(c, later, id, chain, attempts, i + 1), World(end, w.going, w.done[id := reply]));
  }

  lemma {:induction false} StepsLead(c: Config, w: World, id: RequestId, chain: seq<Provider>, attempts: seq<Attempt>,
      i: nat, last: Failure)
    requires id !in w.going && i < |chain| && Ready(w.breakers, chain, attempts)
    ensures EndsAsTheLoop(c, w, id, chain, attempts, i, last)
    decreases |chain| - i
  {
    var n, a := chain[i].name, attempts[i];
    var admitted := LetsThrough(c, w.breakers, n, a);
    if (admitted && a.reply.Ok?) || i + 1 == |chain| {
      EntryLeads(c, w, id, chain, i, last, a);
      LastEntry(c, w, id, chain, attempts, i, last);
    } else {
      var later := w.(breakers := Turned(c, w.breakers, n, a));
      StepsLead(c, later, id, chain, attempts, i + 1, Loss(chain[i], a, admitted));
      LostEntryLeadsOn(c, w, id, chain, attempts, i, last);
    }
  }

  /** A request whose steps nothing but health reads fall between, in any world, ends with the reply and leaves
      the breakers that the router's loop gives; the other requests stay where they are. */
  lemma LoneRequestEndsAsTheLoop(c: Config, w: World, id: RequestId, chain: seq<Provider>, attempts: seq<Attempt>,
      at: int)
    requires id !in w.going && id !in w.done && chain != [] && Ready(w.breakers, chain, attempts)
    ensures var (reply, later) := Ending(c, w.breakers, chain, attempts);
            Leads(c, w, [Arrive(id, chain, at)] + StepsFrom(c, w.breakers, id, chain, attempts, 0),
                  World(later, w.going, w.done[id := reply]))
  {
    var (reply, later) := Ending(c, w.breakers, chain, attempts);
    FinishIsEnding(c, w.breakers, chain, attempts, 0, NoProviders);
    StepsLead(c, w, id, chain, attempts, 0, NoProviders);
    OneLeads(c, w, Arrive(id, chain, at));
    LeadsOn(c, w, [Arrive(id, chain, at)], At(w, id, chain, 0, false, NoProviders),
            StepsFrom(c, w.breakers, id, chain, attempts, 0), World(later, w.going, w.done[id := reply]));
  }
}
