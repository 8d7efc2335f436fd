/**
  The LLM router: provider registration, fallback chains, and the request loop that tries the
  entries of a chain behind their circuit breakers. The loop is the one of Chat, StreamChat and
  Embed, which differ only in the type of the reply. Providers and the clock are oracles.
 */
module Routers {
  import opened CircuitBreakers

  datatype Failure =
    | NoProviders
    | UnknownProvider(name: string)
    | CircuitOpen(name: string)
    | ProviderError(message: string)
    | AllFailed(last: Failure)

  datatype Reply = Ok(value: string) | Err(error: Failure)
  datatype Result<+R> = Found(value: R) | Missing(error: Failure)

  datatype Provider = Provider(name: string)

  /** A read of one breaker's state. ProviderHealth, which other goroutines may call at any time,
      reads every breaker once, one after another. */
  datatype Read = Read(name: string, at: int)

  /** What happens at one position of a chain: when the breaker is asked, and, if the entry is
      admitted, what the provider replies and when that is recorded; and the health reads that
      arrive before the breaker is asked and before the entry is done. */
  datatype Attempt = Attempt(before: seq<Read>, askAt: int, during: seq<Read>, doneAt: int, reply: Reply)

  type Breakers = map<string, Breaker>

  /** The chain to try: the primary and those of its fallbacks that are registered. */
  function Registered(providers: map<string, Provider>, names: seq<string>): seq<Provider> {
    if names == [] then []
    else Registered(providers, names[..|names| - 1])
         + (if names[|names| - 1] in providers then [providers[names[|names| - 1]]] else [])
  }

  ghost predicate Covers(v: Breakers, chain: seq<Provider>) {
    forall j :: 0 <= j < |chain| ==> chain[j].name in v
  }

  /** Every entry of the chain has a breaker, and the oracle covers every position. */
  ghost predicate Ready(v: Breakers, chain: seq<Provider>, attempts: seq<Attempt>) {
    Covers(v, chain) && |chain| <= |attempts|
  }

  /** The positions pick out registered names, in order, and every registered name is picked. */
  ghost predicate Selects(at: seq<nat>, providers: map<string, Provider>, names: seq<string>, chain: seq<Provider>) {
    && |at| == |chain|
    && (forall i, j :: 0 <= i < j < |at| ==> at[i] < at[j])
    && (forall i :: 0 <= i < |at| ==>
          at[i] < |names| && names[at[i]] in providers && chain[i] == providers[names[at[i]]])
    && (forall k :: 0 <= k < |names| && names[k] in providers ==> k in at)
  }

  /** The chain consists of the providers of the registered names, in the order of the names. */
  ghost predicate InOrderOf(providers: map<string, Provider>, names: seq<string>, chain: seq<Provider>) {
    exists at :: Selects(at, providers, names, chain)
  }

  lemma SelectsMore(at: seq<nat>, providers: map<string, Provider>, names: seq<string>, chain: seq<Provider>,
      name: string)
    requires Selects(at, providers, names, chain)
    ensures if name in providers then Selects(at + [|names|], providers, names + [name], chain + [providers[name]])
            else Selects(at, providers, names + [name], chain)
  {
    if name in providers {
      var more := at + [|names|];
      forall k | 0 <= k < |names + [name]| && (names + [name])[k] in providers ensures k in more {
        if k < |names| {
          assert k in at;
        } else {
          assert more[|at|] == k;
        }
      }
    }
  }

  lemma InOrderMore(providers: map<string, Provider>, names: seq<string>, chain: seq<Provider>, name: string)
    requires InOrderOf(providers, names, chain)
    ensures InOrderOf(providers, names + [name], chain + if name in providers then [providers[name]] else [])
  {
    var at :| Selects(at, providers, names, chain);
    SelectsMore(at, providers, names, chain, name);
    assert chain + [] == chain;
  }

  lemma {:induction false} RegisteredIsInOrder(providers: map<string, Provider>, names: seq<string>)
    ensures InOrderOf(providers, names, Registered(providers, names))
  {
    if names == [] {
      assert Selects([], providers, names, []);
    } else {
      var init, last := names[..|names| - 1], names[|names| - 1];
      RegisteredIsInOrder(providers, init);
      InOrderMore(providers, init, Registered(providers, init), last);
      assert init + [last] == names;
    }
  }

  function ReadOne(c: Config, v: Breakers, r: Read): Breakers {
    if r.name in v then v[r.name := Step(c, v[r.name], Poll(r.at))] else v
  }

  /** The breakers after the first k of some health reads. */
  function ReadBy(c: Config, v: Breakers, polls: seq<Read>, k: nat): (r: Breakers)
    requires k <= |polls|
    ensures r.Keys == v.Keys
  {
    if k == 0 then v else ReadOne(c, ReadBy(c, v, polls, k - 1), polls[k - 1])
  }

  function ReadAll(c: Config, v: Breakers, polls: seq<Read>): (r: Breakers)
    ensures r.Keys == v.Keys
  {
    ReadBy(c, v, polls, |polls|)
  }

  lemma {:induction false} ReadByPrefix(c: Config, v: Breakers, polls: seq<Read>, r: Read, k: nat)
    requires k <= |polls|
    ensures ReadBy(c, v, polls + [r], k) == ReadBy(c, v, polls, k)
  {
    if k > 0 {
      ReadByPrefix(c, v, polls, r, k - 1);
    }
  }

  lemma ReadSnoc(c: Config, v: Breakers, polls: seq<Read>, r: Read)
    ensures ReadAll(c, v, polls + [r]) == ReadOne(c, ReadAll(c, v, polls), r)
  {
    ReadByPrefix(c, v, polls, r, |polls|);
  }

  function ResultOf(a: Attempt): Op { if a.reply.Ok? then Succeed(a.doneAt) else Fail(a.doneAt) }

  /** The breaker lets the entry through when it is asked. */
  predicate LetsThrough(c: Config, v: Breakers, n: string, a: Attempt)
    requires n in v
  {
    Admits(c, ReadAll(c, v, a.before)[n], a.askAt)
  }

  /** The breakers after an entry was asked and the reads that follow. */
  function Waited(c: Config, v: Breakers, n: string, a: Attempt): (r: Breakers)
    requires n in v
    ensures r.Keys == v.Keys
  {
    var ready := ReadAll(c, v, a.before);
    ReadAll(c, ready[n := Step(c, ready[n], Ask(a.askAt))], a.during)
  }

  /** The breakers after one entry. */
  function Turned(c: Config, v: Breakers, n: string, a: Attempt): (r: Breakers)
    requires n in v
    ensures r.Keys == v.Keys
  {
    var waited := Waited(c, v, n, a);
    if LetsThrough(c, v, n, a) then waited[n := Step(c, waited[n], ResultOf(a))] else waited
  }

  /** The breakers after the first k entries were tried in turn. */
  function After(c: Config, v: Breakers, chain: seq<Provider>, attempts: seq<Attempt>, k: nat): (r: Breakers)
    requires k <= |chain| && Ready(v, chain, attempts)
    ensures r.Keys == v.Keys
  {
    if k == 0 then v else Turned(c, After(c, v, chain, attempts, k - 1), chain[k - 1].name, attempts[k - 1])
  }

  /** Entry k, reached after the entries before it, is let through by its breaker. */
  predicate AdmittedAt(c: Config, v: Breakers, chain: seq<Provider>, attempts: seq<Attempt>, k: nat)
    requires k < |chain| && Ready(v, chain, attempts)
  {
    LetsThrough(c, After(c, v, chain, attempts, k), chain[k].name, attempts[k])
  }

  predicate Wins(c: Config, v: Breakers, chain: seq<Provider>, attempts: seq<Attempt>, k: nat)
    requires k < |chain| && Ready(v, chain, attempts)
  {
    AdmittedAt(c, v, chain, attempts, k) && attempts[k].reply.Ok?
  }

  /** The first position from k on that holds, or the length. */
  function FirstTrue(bs: seq<bool>, k: nat): (w: nat)
    requires k <= |bs|
    ensures k <= w <= |bs| && (w < |bs| ==> bs[w])
    ensures forall j :: k <= j < w ==> !bs[j]
    decreases |bs| - k
  {
    if k == |bs| || bs[k] then k else FirstTrue(bs, k + 1)
  }

  /** Which entries are admitted and succeed. */
  function Winners(c: Config, v: Breakers, chain: seq<Provider>, attempts: seq<Attempt>): (r: seq<bool>)
    requires Ready(v, chain, attempts)
    ensures |r| == |chain| && forall k :: 0 <= k < |chain| ==> r[k] == Wins(c, v, chain, attempts, k)
  {
    seq(|chain|, k requires 0 <= k < |chain| => Wins(c, v, chain, attempts, k))
  }

  /** The first entry that is admitted and succeeds, or the length of the chain. */
  function FirstWin(c: Config, v: Breakers, chain: seq<Provider>, attempts: seq<Attempt>): (w: nat)
    requires Ready(v, chain, attempts)
    ensures w <= |chain| && (w < |chain| ==> Wins(c, v, chain, attempts, w))
    ensures forall j :: 0 <= j < w ==> !Wins(c, v, chain, attempts, j)
  {
    FirstTrue(Winners(c, v, chain, attempts), 0)
  }

  /** The error that entry k leaves behind when it does not win. */
  function LossAt(c: Config, v: Breakers, chain: seq<Provider>, attempts: seq<Attempt>, k: nat): Failure
    requires k < |chain| && Ready(v, chain, attempts)
  {
    Loss(chain[k], attempts[k], AdmittedAt(c, v, chain, attempts, k))
  }

  /** The result of a request: the reply of the first entry that wins, or the last loss. */
  function Outcome(c: Config, v: Breakers, chain: seq<Provider>, attempts: seq<Attempt>): Reply
    requires Ready(v, chain, attempts) && chain != []
  {
    var w := FirstWin(c, v, chain, attempts);
    if w < |chain| then Ok(attempts[w].reply.value)
    else Err(AllFailed(LossAt(c, v, chain, attempts, |chain| - 1)))
  }

  /** How many entries a request tries. */
  function Tried(c: Config, v: Breakers, chain: seq<Provider>, attempts: seq<Attempt>): nat
    requires Ready(v, chain, attempts)
  {
    var w := FirstWin(c, v, chain, attempts);
    if w < |chain| then w + 1 else w
  }

  /** The error that an entry leaves behind when it does not win. */
  function Loss(p: Provider, a: Attempt, admitted: bool): Failure {
    if admitted && a.reply.Err? then a.reply.error else CircuitOpen(p.name)
  }

  /** How a request ends that has reached entry i with the given breakers and last error. */
  function Finish(c: Config, now: Breakers, chain: seq<Provider>, attempts: seq<Attempt>, i: nat,
      last: Failure): (Reply, Breakers)
    requires i <= |chain| && Ready(now, chain, attempts)
    decreases |chain| - i
  {
    if i == |chain| then (Err(AllFailed(last)), now)
    else
      var p, a := chain[i], attempts[i];
      var later, admitted := Turned(c, now, p.name, a), LetsThrough(c, now, p.name, a);
      if admitted && a.reply.Ok? then (Ok(a.reply.value), later)
      else Finish(c, later, chain, attempts, i + 1, Loss(p, a, admitted))
  }

  lemma FinishWins(c: Config, v: Breakers, chain: seq<Provider>, attempts: seq<Attempt>, i: nat, last: Failure)
    requires i < |chain| && Ready(v, chain, attempts) && Wins(c, v, chain, attempts, i)
    ensures Finish(c, After(c, v, chain, attempts, i), chain, attempts, i, last)
            == (attempts[i].reply, After(c, v, chain, attempts, i + 1))
  {
  }

  lemma FinishLoses(c: Config, v: Breakers, chain: seq<Provider>, attempts: seq<Attempt>, i: nat, last: Failure)
    requires i < |chain| && Ready(v, chain, attempts) && !Wins(c, v, chain, attempts, i)
    ensures Finish(c, After(c, v, chain, attempts, i), chain, attempts, i, last)
            == Finish(c, After(c, v, chain, attempts, i + 1), chain, attempts, i + 1, LossAt(c, v, chain, attempts, i))
  {
  }

  /** The reply and the breakers that a request ends with. */
  function Ending(c: Config, v: Breakers, chain: seq<Provider>, attempts: seq<Attempt>): (Reply, Breakers)
    requires Ready(v, chain, attempts) && chain != []
  {
    (Outcome(c, v, chain, attempts), After(c, v, chain, attempts, Tried(c, v, chain, attempts)))
  }

  lemma EndingWins(c: Config, v: Breakers, chain: seq<Provider>, attempts: seq<Attempt>, i: nat)
    requires Ready(v, chain, attempts) && i < |chain| && i == FirstWin(c, v, chain, attempts)
    ensures Ending(c, v, chain, attempts) == (attempts[i].reply, After(c, v, chain, attempts, i + 1))
  {
  }

  lemma EndingLoses(c: Config, v: Breakers, chain: seq<Provider>, attempts: seq<Attempt>)
    requires Ready(v, chain, attempts) && chain != [] && FirstWin(c, v, chain, attempts) == |chain|
    ensures Ending(c, v, chain, attempts)
            == (Err(AllFailed(LossAt(c, v, chain, attempts, |chain| - 1))), After(c, v, chain, attempts, |chain|))
  {
  }

  lemma {:induction false} FinishIsEnding(c: Config, v: Breakers, chain: seq<Provider>, attempts: seq<Attempt>,
      i: nat, last: Failure)
    requires Ready(v, chain, attempts) && chain != [] && i <= FirstWin(c, v, chain, attempts)
    requires i > 0 ==> last == LossAt(c, v, chain, attempts, i - 1)
    ensures Finish(c, After(c, v, chain, attempts, i), chain, attempts, i, last) == Ending(c, v, chain, attempts)
    decreases |chain| - i
  {
    var w := FirstWin(c, v, chain, attempts);
    if i == |chain| {
      EndingLoses(c, v, chain, attempts);
    } else if i == w {
      FinishWins(c, v, chain, attempts, i, last);
      EndingWins(c, v, chain, attempts, i);
    } else {
      FinishLoses(c, v, chain, attempts, i, last);
      FinishIsEnding(c, v, chain, attempts, i + 1, LossAt(c, v, chain, attempts, i));
    }
  }

  function Polled(c: Config, v: Breakers, clock: string -> int): Breakers {
    map n | n in v :: Step(c, v[n], Poll(clock(n)))
  }

  /** The breakers while the providers in todo are still to be polled. */
  ghost predicate HalfPolled(c: Config, v: Breakers, now: Breakers, todo: set<string>, clock: string -> int) {
    && now.Keys == v.Keys
    && forall n :: n in v ==> now[n] == if n in todo then v[n] else Step(c, v[n], Poll(clock(n)))
  }

  /** The states of the breakers, except of those in todo. */
  function Healths(v: Breakers, todo: set<string>): map<string, Circuit> {
    map n | n in v && n !in todo :: v[n].state
  }

  lemma PollStep(c: Config, v: Breakers, now: Breakers, todo: set<string>, n: string, clock: string -> int)
    requires HalfPolled(c, v, now, todo, clock) && n in todo && n in v
    ensures var later := now[n := Step(c, now[n], Poll(clock(n)))];
            && HalfPolled(c, v, later, todo - {n}, clock)
            && Healths(later, todo - {n}) == Healths(now, todo)[n := later[n].state]
  {
  }

  class Router {
    var providers: map<string, Provider>
    var circuits: map<string, CircuitBreaker>
    var fallbackChains: map<string, seq<string>>
    var defaultProvider: string
    ghost const config: Config  // the settings of every breaker
    ghost var breakers: set<CircuitBreaker>
    ghost var views: Breakers  // what the breakers hold, by provider

    /** Providers and circuits keep the same keys, and no two providers share a breaker. */
    ghost predicate Valid()
      reads this, breakers
    {
      && config == DEFAULT_CONFIG
      && providers.Keys == circuits.Keys == views.Keys
      && (forall n :: n in providers ==> providers[n].name == n)
      && (forall n :: n in circuits ==>
            && circuits[n] in breakers && circuits[n].provider == n
            && circuits[n].Settings() == config && circuits[n].View() == views[n])
    }

    /** The chain that a request for the given provider tries, or why there is none. */
    ghost function Chain(name: string): Result<seq<Provider>>
      reads this
    {
      var n := if name == "" then defaultProvider else name;
      if n == "" then Missing(NoProviders)
      else if n !in providers then Missing(UnknownProvider(n))
      else Found([providers[n]] + if n in fallbackChains then Registered(providers, fallbackChains[n]) else [])
    }

    constructor ()
      ensures Valid() && breakers == {} && views == map[] && providers == map[]
      ensures fallbackChains == map[] && defaultProvider == ""
    {
      providers, circuits, fallbackChains, defaultProvider := map[], map[], map[], "";
      config, breakers, views := DEFAULT_CONFIG, {}, map[];
    }

    method Register(p: Provider)
      requires Valid()
      modifies this
      ensures Valid() && fresh(breakers - old(breakers))
      ensures providers == old(providers)[p.name := p]
      ensures views == old(views)[p.name := FRESH]
      ensures fallbackChains == old(fallbackChains)
      ensures defaultProvider == if old(defaultProvider) == "" then p.name else old(defaultProvider)
    {
      var cb := new CircuitBreaker(p.name);
      Install(p, cb);
      if defaultProvider == "" {
        defaultProvider := p.name;
      }
    }

    /** Puts a provider and its new breaker into the two maps. */
    method Install(p: Provider, cb: CircuitBreaker)
      requires Valid() && cb.provider == p.name && cb.Settings() == DEFAULT_CONFIG && cb.View() == FRESH
      modifies this`providers, this`circuits, this`breakers, this`views
      ensures Valid() && breakers == old(breakers) + {cb}
      ensures providers == old(providers)[p.name := p]
      ensures views == old(views)[p.name := FRESH]
    {
      providers, circuits := providers[p.name := p], circuits[p.name := cb];
      breakers, views := breakers + {cb}, views[p.name := FRESH];
      forall n | n in circuits && n != p.name
        ensures circuits[n] in breakers && circuits[n].provider == n && views[n] == circuits[n].View()
      {
        assert n in old(circuits) && circuits[n] == old(circuits)[n];
      }
    }

    method SetFallbackChain(primary: string, fallbacks: seq<string>)
      requires Valid()
      modifies this`fallbackChains
      ensures Valid() && views == old(views)
      ensures fallbackChains == old(fallbackChains)[primary := fallbacks]
    {
      fallbackChains := fallbackChains[primary := fallbacks];
    }

    /** The chain of a registered provider: the provider itself and its registered fallbacks in order. */
    method ChainOf(n: string) returns (chain: seq<Provider>)
      requires Valid() && n in providers
      ensures var names := if n in fallbackChains then fallbackChains[n] else [];
              && chain == [providers[n]] + Registered(providers, names)
              && InOrderOf(providers, names, chain[1..])
      ensures forall j :: 0 <= j < |chain| ==> chain[j].name in providers
    {
      chain := [providers[n]];
      var fallbacks := if n in fallbackChains then fallbackChains[n] else [];
      for i := 0 to |fallbacks|
        invariant chain == [providers[n]] + Registered(providers, fallbacks[..i])
        invariant forall j :: 0 <= j < |chain| ==> chain[j].name in providers
      {
        assert fallbacks[..i + 1][..i] == fallbacks[..i];
        if fallbacks[i] in providers {
          chain := chain + [providers[fallbacks[i]]];
        }
      }
      assert fallbacks[..|fallbacks|] == fallbacks;
      RegisteredIsInOrder(providers, fallbacks);
      assert chain[1..] == Registered(providers, fallbacks);
    }

    /** The chain of the provider asked for, or of the default, or the error. */
    method GetWithFallbacks(name: string) returns (r: Result<seq<Provider>>)
      requires Valid()
      ensures r == Chain(name)
      ensures var n := if name == "" then defaultProvider else name;
              var names := if n in fallbackChains then fallbackChains[n] else [];
              && (n == "" ==> r == Missing(NoProviders))
              && (n != "" && n !in providers ==> r == Missing(UnknownProvider(n)))
              && (n != "" && n in providers ==>
                    && r.Found? && r.value != [] && r.value[0] == providers[n]
                    && InOrderOf(providers, names, r.value[1..]))
      ensures r.Found? ==> r.value != [] && Covers(views, r.value)
    {
      var n := if name == "" then defaultProvider else name;
      if n == "" {
        return Missing(NoProviders);
      }
      if n !in providers {
        return Missing(UnknownProvider(n));
      }
      var chain := ChainOf(n);
      return Found(chain);
    }

    /** The health reads of other goroutines. */
    method Interleave(polls: seq<Read>)
      requires Valid()
      modifies breakers, this`views
      ensures Valid() && views == ReadAll(config, old(views), polls)
    {
      for i := 0 to |polls|
        invariant Valid() && views == ReadBy(config, old(views), polls, i)
      {
        if polls[i].name in circuits {
          var _ := PollOne(polls[i].name, polls[i].at);
        }
      }
    }

    method AllowOne(n: string, now: int) returns (ok: bool)
      requires Valid() && n in circuits
      modifies breakers, this`views
      ensures Valid() && ok == Admits(config, old(views)[n], now)
      ensures views == old(views)[n := Step(config, old(views)[n], Ask(now))]
    {
      ok := circuits[n].Allow(now);
      views := views[n := Step(config, views[n], Ask(now))];
    }

    method RecordOne(n: string, a: Attempt)
      requires Valid() && n in circuits
      modifies breakers, this`views
      ensures Valid() && views == old(views)[n := Step(config, old(views)[n], ResultOf(a))]
    {
      if a.reply.Err? {
        circuits[n].RecordFailure(a.doneAt);
      } else {
        circuits[n].RecordSuccess(a.doneAt);
      }
      views := views[n := Step(config, views[n], ResultOf(a))];
    }

    /** One turn of the request loop: ask the breaker and, when it admits, record the reply. */
    method TryEntry(p: Provider, a: Attempt) returns (ok: bool)
      requires Valid() && p.name in circuits
      modifies breakers, this`views
      ensures Valid()
      ensures ok == LetsThrough(config, old(views), p.name, a)
      ensures views == Turned(config, old(views), p.name, a)
    {
      Interleave(a.before);
      ok := AllowOne(p.name, a.askAt);
      Interleave(a.during);
      assert views == Waited(config, old(views), p.name, a);
      if ok {
        RecordOne(p.name, a);
      }
    }

    /** The request loop. Every entry of the chain has a breaker, so the nil case of the lookup
        does not arise. */
    method TryEach(chain: seq<Provider>, attempts: seq<Attempt>) returns (r: Reply)
      requires Valid() && Ready(views, chain, attempts)
      modifies breakers, this`views
      ensures Valid() && (r, views) == Finish(config, old(views), chain, attempts, 0, NoProviders)
    {
      var lastErr := NoProviders;
      ghost var all := Finish(config, views, chain, attempts, 0, NoProviders);
      var i := 0;
      while i < |chain|
        invariant Valid() && breakers == old(breakers) && i <= |chain| && Ready(views, chain, attempts)
        invariant Finish(config, views, chain, attempts, i, lastErr) == all
      {
        var ok := TryEntry(chain[i], attempts[i]);
        if !ok {
          lastErr := CircuitOpen(chain[i].name);
        } else if attempts[i].reply.Err? {
          lastErr := attempts[i].reply.error;
        } else {
          return Ok(attempts[i].reply.value);
        }
        i := i + 1;
      }
      return Err(AllFailed(lastErr));
    }

    method TryChain(chain: seq<Provider>, attempts: seq<Attempt>) returns (r: Reply)
      requires Valid() && chain != [] && Ready(views, chain, attempts)
      modifies breakers, this`views
      ensures Valid()
      ensures r == Outcome(config, old(views), chain, attempts)
      ensures views == After(config, old(views), chain, attempts, Tried(config, old(views), chain, attempts))
    {
      FinishIsEnding(config, views, chain, attempts, 0, NoProviders);
      r := TryEach(chain, attempts);
    }

    /** A request whose chain has been looked up. */
    method Serve(found: Result<seq<Provider>>, attempts: seq<Attempt>) returns (r: Reply)
      requires Valid() && (found.Found? ==> found.value != [] && Ready(views, found.value, attempts))
      modifies breakers, this`views
      ensures Valid()
      ensures found.Missing? ==> r == Err(found.error) && views == old(views)
      ensures found.Found? ==> (r, views) == Ending(config, old(views), found.value, attempts)
    {
      match found {
        case Missing(e) => r := Err(e);
        case Found(chain) => r := TryChain(chain, attempts);
      }
    }

    method Chat(name: string, attempts: seq<Attempt>) returns (r: Reply)
      requires Valid() && (Chain(name).Found? ==> |Chain(name).value| <= |attempts|)
      modifies breakers, this`views
      ensures Valid() && Chain(name) == old(Chain(name))
      ensures Chain(name).Missing? ==> r == Err(Chain(name).error) && views == old(views)
      ensures Chain(name).Found? ==>
                && Chain(name).value != [] && Ready(old(views), Chain(name).value, attempts)
                && (r, views) == Ending(config, old(views), Chain(name).value, attempts)
    {
      var found := GetWithFallbacks(name);
      r := Serve(found, attempts);
    }

    /** One poll of one breaker. */
    method PollOne(n: string, now: int) returns (s: Circuit)
      requires Valid() && n in circuits
      modifies breakers, this`views
      ensures Valid()
      ensures views == old(views)[n := Step(config, old(views)[n], Poll(now))] && s == views[n].state
    {
      s := circuits[n].State(now);
      views := views[n := Step(config, views[n], Poll(now))];
    }

    /** Polls every breaker once, each at its own time, in some order. */
    method ProviderHealth(clock: string -> int) returns (health: map<string, Circuit>, ghost polls: seq<Read>)
      requires Valid()
      modifies breakers, this`views
      ensures Valid()
      ensures views == Polled(config, old(views), clock) == ReadAll(config, old(views), polls)
      ensures health == Healths(views, {})
      ensures views.Keys == old(views).Keys == health.Keys
      ensures forall n :: n in views ==>
                views[n] == Step(config, old(views)[n], Poll(clock(n))) && health[n] == views[n].state
    {
      ghost var v := views;
      health, polls := map[], [];
      var todo := circuits.Keys;
      while todo != {}
        invariant Valid() && todo <= views.Keys
        invariant HalfPolled(config, v, views, todo, clock) && health == Healths(views, todo)
        invariant views == ReadAll(config, v, polls)
        decreases todo
      {
        var n :| n in todo;
        PollStep(config, v, views, todo, n, clock);
        var s := PollOne(n, clock(n));
        health := health[n := s];
        ReadSnoc(config, v, polls, Read(n, clock(n)));
        polls := polls + [Read(n, clock(n))];
        todo := todo - {n};
      }
    }
  }

  // ---------- What one request does to the breakers ----------

  /** Those of the first k reads that are of one breaker. */
  function PollsBy(polls: seq<Read>, n: string, k: nat): seq<Op>
    requires k <= |polls|
  {
    if k == 0 then []
    else if polls[k - 1].name == n then PollsBy(polls, n, k - 1) + [Poll(polls[k - 1].at)]
    else PollsBy(polls, n, k - 1)
  }

  function PollsOf(polls: seq<Read>, n: string): seq<Op> { PollsBy(polls, n, |polls|) }

  /** The calls on the breaker of n while an entry for m is tried. */
  function OpsOn(a: Attempt, m: string, n: string, admitted: bool): seq<Op> {
    PollsOf(a.before, n) + (if m == n then [Ask(a.askAt)] else []) + PollsOf(a.during, n)
    + (if m == n && admitted then [ResultOf(a)] else [])
  }

  /** Which entries of the chain are admitted when they are reached. */
  ghost function Admissions(c: Config, v: Breakers, chain: seq<Provider>, attempts: seq<Attempt>): (r: seq<bool>)
    requires Ready(v, chain, attempts)
    ensures |r| == |chain| && forall k :: 0 <= k < |chain| ==> r[k] == AdmittedAt(c, v, chain, attempts, k)
  {
    seq(|chain|, k requires 0 <= k < |chain| => AdmittedAt(c, v, chain, attempts, k))
  }

  ghost predicate Fits(chain: seq<Provider>, attempts: seq<Attempt>, admitted: seq<bool>) {
    |admitted| == |chain| <= |attempts|
  }

  /** The calls that the first k entries, and the reads meanwhile, make on the breaker of one
      provider. */
  ghost function LogOf(chain: seq<Provider>, attempts: seq<Attempt>, admitted: seq<bool>, k: nat, n: string): seq<Op>
    requires Fits(chain, attempts, admitted) && k <= |chain|
  {
    if k == 0 then []
    else LogOf(chain, attempts, admitted, k - 1, n) + OpsOn(attempts[k - 1], chain[k - 1].name, n, admitted[k - 1])
  }

  predicate IsResult(op: Op) { op.Succeed? || op.Fail? }

  /** How many of the first k calls record a result. */
  ghost function ResultsBy(log: seq<Op>, k: nat): nat
    requires k <= |log|
  {
    if k == 0 then 0 else ResultsBy(log, k - 1) + if IsResult(log[k - 1]) then 1 else 0
  }

  ghost function Results(log: seq<Op>): nat { ResultsBy(log, |log|) }

  /** How many of the first k entries are for the given provider and admitted. */
  ghost function AdmittedFor(chain: seq<Provider>, admitted: seq<bool>, k: nat, n: string): nat
    requires k <= |chain| == |admitted|
  {
    if k == 0 then 0
    else AdmittedFor(chain, admitted, k - 1, n) + if chain[k - 1].name == n && admitted[k - 1] then 1 else 0
  }

  lemma OneOp(c: Config, b: Breaker, op: Op)
    ensures RunFrom(c, b, [op]) == Step(c, b, op)
  {
    assert [op][1..] == [];
  }

  lemma {:induction false} ReadByIsPolls(c: Config, v: Breakers, polls: seq<Read>, n: string, k: nat)
    requires n in v && k <= |polls|
    ensures ReadBy(c, v, polls, k)[n] == RunFrom(c, v[n], PollsBy(polls, n, k))
  {
    if k > 0 {
      var at := polls[k - 1].at;
      ReadByIsPolls(c, v, polls, n, k - 1);
      RunFromAppend(c, v[n], PollsBy(polls, n, k - 1), [Poll(at)]);
      OneOp(c, ReadBy(c, v, polls, k - 1)[n], Poll(at));
    }
  }

  lemma ReadAllIsPolls(c: Config, v: Breakers, polls: seq<Read>, n: string)
    requires n in v
    ensures ReadAll(c, v, polls)[n] == RunFrom(c, v[n], PollsOf(polls, n))
  {
    ReadByIsPolls(c, v, polls, n, |polls|);
  }

  lemma WaitedIsOwnOps(c: Config, v: Breakers, m: string, a: Attempt, n: string)
    requires m in v && n in v
    ensures Waited(c, v, m, a)[n]
            == RunFrom(c, v[n], PollsOf(a.before, n) + (if m == n then [Ask(a.askAt)] else []) + PollsOf(a.during, n))
  {
    var ready := ReadAll(c, v, a.before);
    var asked := ready[m := Step(c, ready[m], Ask(a.askAt))];
    var polls, ask := PollsOf(a.before, n), if m == n then [Ask(a.askAt)] else [];
    ReadAllIsPolls(c, v, a.before, n);
    RunFromAppend(c, v[n], polls, ask);
    OneOp(c, ready[n], Ask(a.askAt));
    assert asked[n] == RunFrom(c, v[n], polls + ask);
    ReadAllIsPolls(c, asked, a.during, n);
    RunFromAppend(c, v[n], polls + ask, PollsOf(a.during, n));
  }

  lemma TurnedIsOwnOps(c: Config, v: Breakers, m: string, a: Attempt, n: string)
    requires m in v && n in v
    ensures Turned(c, v, m, a)[n] == RunFrom(c, v[n], OpsOn(a, m, n, LetsThrough(c, v, m, a)))
  {
    var ops := PollsOf(a.before, n) + (if m == n then [Ask(a.askAt)] else []) + PollsOf(a.during, n);
    WaitedIsOwnOps(c, v, m, a, n);
    if m == n && LetsThrough(c, v, m, a) {
      RunFromAppend(c, v[n], ops, [ResultOf(a)]);
      OneOp(c, RunFrom(c, v[n], ops), ResultOf(a));
    } else {
      assert ops + [] == ops;
    }
  }

  /** Whether an entry is said to be admitted exactly when it is. */
  ghost predicate SaysAt(c: Config, v: Breakers, chain: seq<Provider>, attempts: seq<Attempt>, admitted: seq<bool>,
      k: nat)
    requires Ready(v, chain, attempts) && k < |chain| == |admitted|
  {
    admitted[k] == AdmittedAt(c, v, chain, attempts, k)
  }

  /** The breaker of n after k entries, by its own calls. */
  ghost function OwnAfter(c: Config, b: Breaker, chain: seq<Provider>, attempts: seq<Attempt>, admitted: seq<bool>,
      k: nat, n: string): Breaker
    requires Fits(chain, attempts, admitted) && k <= |chain|
  {
    if k == 0 then b
    else
      var ops := OpsOn(attempts[k - 1], chain[k - 1].name, n, admitted[k - 1]);
      RunFrom(c, OwnAfter(c, b, chain, attempts, admitted, k - 1, n), ops)
  }

  lemma {:induction false} OwnAfterIsLog(c: Config, b: Breaker, chain: seq<Provider>, attempts: seq<Attempt>,
      admitted: seq<bool>, k: nat, n: string)
    requires Fits(chain, attempts, admitted) && k <= |chain|
    ensures OwnAfter(c, b, chain, attempts, admitted, k, n) == RunFrom(c, b, LogOf(chain, attempts, admitted, k, n))
  {
    if k > 0 {
      var log := LogOf(chain, attempts, admitted, k - 1, n);
      var ops := OpsOn(attempts[k - 1], chain[k - 1].name, n, admitted[k - 1]);
      OwnAfterIsLog(c, b, chain, attempts, admitted, k - 1, n);
      RunFromAppend(c, b, log, ops);
    }
  }

  lemma {:induction false} AfterIsOwn(c: Config, v: Breakers, chain: seq<Provider>, attempts: seq<Attempt>,
      admitted: seq<bool>, k: nat, n: string)
    requires k <= |chain| && Ready(v, chain, attempts) && n in v && Fits(chain, attempts, admitted)
    requires forall j :: 0 <= j < |chain| ==> SaysAt(c, v, chain, attempts, admitted, j)
    ensures After(c, v, chain, attempts, k)[n] == OwnAfter(c, v[n], chain, attempts, admitted, k, n)
  {
    if k > 0 {
      AfterIsOwn(c, v, chain, attempts, admitted, k - 1, n);
      assert SaysAt(c, v, chain, attempts, admitted, k - 1);
      TurnedIsOwnOps(c, After(c, v, chain, attempts, k - 1), chain[k - 1].name, attempts[k - 1], n);
    }
  }

  lemma {:induction false} ResultsByAppend(xs: seq<Op>, ys: seq<Op>, k: nat)
    requires k <= |xs| + |ys|
    ensures ResultsBy(xs + ys, k) == if k <= |xs| then ResultsBy(xs, k) else Results(xs) + ResultsBy(ys, k - |xs|)
  {
    if k > 0 {
      ResultsByAppend(xs, ys, k - 1);
      assert (xs + ys)[k - 1] == if k <= |xs| then xs[k - 1] else ys[k - 1 - |xs|];
    }
  }

  lemma ResultsAppend(xs: seq<Op>, ys: seq<Op>)
    ensures Results(xs + ys) == Results(xs) + Results(ys)
  {
    ResultsByAppend(xs, ys, |xs| + |ys|);
  }

  predicate OnlyPolls(ops: seq<Op>) { forall i :: 0 <= i < |ops| ==> ops[i].Poll? }

  lemma {:induction false} PollsByArePolls(polls: seq<Read>, n: string, k: nat)
    requires k <= |polls|
    ensures OnlyPolls(PollsBy(polls, n, k))
    ensures (forall r :: r in polls ==> r.name != n) ==> PollsBy(polls, n, k) == []
  {
    if k > 0 {
      PollsByArePolls(polls, n, k - 1);
    }
  }

  lemma PollsOfArePolls(polls: seq<Read>, n: string)
    ensures OnlyPolls(PollsOf(polls, n))
    ensures (forall r :: r in polls ==> r.name != n) ==> PollsOf(polls, n) == []
  {
    PollsByArePolls(polls, n, |polls|);
  }

  lemma {:induction false} PollsHaveNoResults(ops: seq<Op>, k: nat)
    requires OnlyPolls(ops) && k <= |ops|
    ensures ResultsBy(ops, k) == 0
  {
    if k > 0 {
      PollsHaveNoResults(ops, k - 1);
    }
  }

  lemma OneResultAtMost(a: Attempt, m: string, n: string, admitted: bool)
    ensures Results(OpsOn(a, m, n, admitted)) == if m == n && admitted then 1 else 0
  {
    var first, ask, more := PollsOf(a.before, n), if m == n then [Ask(a.askAt)] else [], PollsOf(a.during, n);
    var result := if m == n && admitted then [ResultOf(a)] else [];
    PollsOfArePolls(a.before, n);
    PollsOfArePolls(a.during, n);
    PollsHaveNoResults(first, |first|);
    PollsHaveNoResults(more, |more|);
    ResultsAppend(first, ask);
    ResultsAppend(first + ask, more);
    ResultsAppend(first + ask + more, result);
    OneResult(Ask(a.askAt));
    OneResult(ResultOf(a));
  }

  lemma OneResult(op: Op)
    ensures Results([op]) == if IsResult(op) then 1 else 0
  {
    assert ResultsBy([op], 1) == ResultsBy([op], 0) + if IsResult([op][0]) then 1 else 0;
  }

  lemma ResultsAfterEntry(log: seq<Op>, a: Attempt, m: string, n: string, admitted: bool)
    ensures Results(log + OpsOn(a, m, n, admitted)) == Results(log) + if m == n && admitted then 1 else 0
  {
    ResultsAppend(log, OpsOn(a, m, n, admitted));
    OneResultAtMost(a, m, n, admitted);
  }

  lemma {:induction false} ResultsAreAdmissions(chain: seq<Provider>, attempts: seq<Attempt>, admitted: seq<bool>,
      k: nat, n: string)
    requires Fits(chain, attempts, admitted) && k <= |chain|
    ensures Results(LogOf(chain, attempts, admitted, k, n)) == AdmittedFor(chain, admitted, k, n)
  {
    if k > 0 {
      ResultsAreAdmissions(chain, attempts, admitted, k - 1, n);
      var log := LogOf(chain, attempts, admitted, k - 1, n);
      ResultsAfterEntry(log, attempts[k - 1], chain[k - 1].name, n, admitted[k - 1]);
    }
  }

  /** No read meanwhile is of the given provider. */
  ghost predicate Unread(a: Attempt, n: string) { forall r :: r in a.before || r in a.during ==> r.name != n }

  lemma UntriedIsOnlyRead(a: Attempt, m: string, n: string, admitted: bool)
    requires m != n
    ensures OnlyPolls(OpsOn(a, m, n, admitted)) && (Unread(a, n) ==> OpsOn(a, m, n, admitted) == [])
  {
    PollsOfArePolls(a.before, n);
    PollsOfArePolls(a.during, n);
  }

  lemma StillUntried(log: seq<Op>, a: Attempt, m: string, n: string, admitted: bool)
    requires m != n && OnlyPolls(log)
    ensures OnlyPolls(log + OpsOn(a, m, n, admitted))
    ensures Unread(a, n) && log == [] ==> log + OpsOn(a, m, n, admitted) == []
  {
    UntriedIsOnlyRead(a, m, n, admitted);
  }

  lemma {:induction false} UntriedHasNoLog(chain: seq<Provider>, attempts: seq<Attempt>, admitted: seq<bool>, k: nat,
      n: string)
    requires Fits(chain, attempts, admitted) && k <= |chain|
    requires forall j :: 0 <= j < k ==> chain[j].name != n
    ensures OnlyPolls(LogOf(chain, attempts, admitted, k, n))
    ensures (forall j :: 0 <= j < k ==> Unread(attempts[j], n)) ==> LogOf(chain, attempts, admitted, k, n) == []
  {
    if k > 0 {
      UntriedHasNoLog(chain, attempts, admitted, k - 1, n);
      var log := LogOf(chain, attempts, admitted, k - 1, n);
      StillUntried(log, attempts[k - 1], chain[k - 1].name, n, admitted[k - 1]);
    }
  }

  /** However often a provider occurs in the chain, its breaker ends where its own calls take it:
      one result per admitted attempt, none per refused one, nothing but the health reads for a
      provider that was not tried, and nothing at all if those read others only. */
  lemma OneResultPerAdmittedAttempt(c: Config, v: Breakers, chain: seq<Provider>, attempts: seq<Attempt>, k: nat,
      n: string)
    requires k <= |chain| && Ready(v, chain, attempts) && n in v
    ensures var admitted := Admissions(c, v, chain, attempts);
            var log := LogOf(chain, attempts, admitted, k, n);
            && After(c, v, chain, attempts, k)[n] == RunFrom(c, v[n], log)
            && Results(log) == AdmittedFor(chain, admitted, k, n)
            && ((forall j :: 0 <= j < k ==> chain[j].name != n) ==> OnlyPolls(log))
    ensures (forall j :: 0 <= j < k ==> chain[j].name != n && Unread(attempts[j], n)) ==>
              After(c, v, chain, attempts, k)[n] == v[n]
  {
    var admitted := Admissions(c, v, chain, attempts);
    AfterIsOwn(c, v, chain, attempts, admitted, k, n);
    OwnAfterIsLog(c, v[n], chain, attempts, admitted, k, n);
    ResultsAreAdmissions(chain, attempts, admitted, k, n);
    if forall j :: 0 <= j < k ==> chain[j].name != n {
      UntriedHasNoLog(chain, attempts, admitted, k, n);
    }
  }

  /** A request ends with the reply of the first entry that is admitted and succeeds, and no entry after it
      is tried. */
  lemma RequestEndsAtFirstWin(c: Config, v: Breakers, chain: seq<Provider>, attempts: seq<Attempt>, w: nat)
    requires Ready(v, chain, attempts) && w < |chain|
    requires AdmittedAt(c, v, chain, attempts, w) && attempts[w].reply.Ok?
    requires forall j :: 0 <= j < w ==> !(AdmittedAt(c, v, chain, attempts, j) && attempts[j].reply.Ok?)
    ensures Ending(c, v, chain, attempts) == (attempts[w].reply, After(c, v, chain, attempts, w + 1))
  {
    var first := FirstWin(c, v, chain, attempts);
    assert Wins(c, v, chain, attempts, w);
    assert first < |chain| ==> Wins(c, v, chain, attempts, first);
    EndingWins(c, v, chain, attempts, w);
  }

  /** If there is none, every entry is tried, and the request ends with the error of the last one: that of the
      provider if it was called, and that its circuit is open if it was not. */
  lemma RequestEndsInLastError(c: Config, v: Breakers, chain: seq<Provider>, attempts: seq<Attempt>)
    requires Ready(v, chain, attempts) && chain != []
    requires forall j :: 0 <= j < |chain| ==> !(AdmittedAt(c, v, chain, attempts, j) && attempts[j].reply.Ok?)
    ensures var last := |chain| - 1;
            if AdmittedAt(c, v, chain, attempts, last) then
              && attempts[last].reply.Err?
              && Ending(c, v, chain, attempts).0 == Err(AllFailed(attempts[last].reply.error))
            else Ending(c, v, chain, attempts).0 == Err(AllFailed(CircuitOpen(chain[last].name)))
    ensures Ending(c, v, chain, attempts).1 == After(c, v, chain, attempts, |chain|)
  {
    var first := FirstWin(c, v, chain, attempts);
    assert first < |chain| ==> Wins(c, v, chain, attempts, first);
    EndingLoses(c, v, chain, attempts);
  }

  /** A request fails exactly when no entry of its chain is admitted and succeeds. */
  lemma FailsExactlyWhenNothingWins(c: Config, v: Breakers, chain: seq<Provider>, attempts: seq<Attempt>)
    requires Ready(v, chain, attempts) && chain != []
    ensures Outcome(c, v, chain, attempts).Err? <==>
            forall j :: 0 <= j < |chain| ==> !Wins(c, v, chain, attempts, j)
  {
    var w := FirstWin(c, v, chain, attempts);
    if w < |chain| { assert Wins(c, v, chain, attempts, w); }
  }

  // ---------- Health polling over whole runs of the router ----------

  datatype Traffic = Call(chain: seq<Provider>, attempts: seq<Attempt>) | Health(polls: seq<Read>)

  ghost predicate Runnable(v: Breakers, run: seq<Traffic>) {
    forall i :: 0 <= i < |run| && run[i].Call? ==> run[i].chain != [] && Ready(v, run[i].chain, run[i].attempts)
  }

  ghost predicate AllBetween(polls: seq<Read>, lo: int, hi: int) {
    lo <= hi && forall r :: r in polls ==> lo <= r.at <= hi
  }

  ghost predicate Punctual(a: Attempt, now: int) {
    AllBetween(a.before, now, a.askAt) && AllBetween(a.during, a.askAt, a.doneAt)
  }

  /** The attempts from i on, with the reads before and during each, follow one another. */
  ghost predicate InTurn(attempts: seq<Attempt>, i: nat, n: nat, now: int, end: int)
    requires i <= n <= |attempts|
    decreases n - i
  {
    if i == n then now <= end else Punctual(attempts[i], now) && InTurn(attempts, i + 1, n, attempts[i].doneAt, end)
  }

  ghost predicate Within(t: Traffic, lo: int, hi: int) {
    match t
    case Call(chain, attempts) => |chain| <= |attempts| && InTurn(attempts, 0, |chain|, lo, hi)
    case Health(polls) => AllBetween(polls, lo, hi)
  }

  /** Requests are serial: the requests of a run, and the reads between them, have these boundaries. */
  ghost predicate Timed(run: seq<Traffic>, marks: seq<int>) {
    && |marks| == |run| + 1
    && forall i :: 0 <= i < |run| ==> Within(run[i], marks[i], marks[i + 1])
  }

  /** The results of the requests of a run. */
  ghost function Outcomes(c: Config, v: Breakers, run: seq<Traffic>): seq<Reply>
    requires Runnable(v, run)
    decreases |run|
  {
    if |run| == 0 then []
    else match run[0]
      case Health(polls) => Outcomes(c, ReadAll(c, v, polls), run[1..])
      case Call(chain, attempts) =>
        var (reply, later) := Ending(c, v, chain, attempts);
        [reply] + Outcomes(c, later, run[1..])
  }

  /** The same attempts, requests and runs without any health read. */
  function Unwatched(a: Attempt): Attempt { a.(before := [], during := []) }

  function Quiet(attempts: seq<Attempt>): (r: seq<Attempt>)
    ensures |r| == |attempts| && forall i :: 0 <= i < |r| ==> r[i] == Unwatched(attempts[i])
  {
    seq(|attempts|, i requires 0 <= i < |attempts| => Unwatched(attempts[i]))
  }

  function QuietTraffic(t: Traffic): Traffic {
    match t
    case Call(chain, attempts) => Call(chain, Quiet(attempts))
    case Health(_) => Health([])
  }

  function QuietRun(run: seq<Traffic>): (r: seq<Traffic>)
    ensures |r| == |run| && forall i :: 0 <= i < |r| ==> r[i] == QuietTraffic(run[i])
  {
    seq(|run|, i requires 0 <= i < |run| => QuietTraffic(run[i]))
  }

  ghost predicate AgreeAll(c: Config, polled: Breakers, plain: Breakers, now: int) {
    polled.Keys == plain.Keys && forall n :: n in plain ==> Follows(c, polled[n], plain[n], now)
  }

  lemma {:induction false} ReadsByAgree(c: Config, p: Breakers, u: Breakers, polls: seq<Read>, k: nat, lo: int, hi: int)
    requires AgreeAll(c, p, u, lo) && AllBetween(polls, lo, hi) && k <= |polls|
    ensures AgreeAll(c, ReadBy(c, p, polls, k), u, hi)
  {
    if k > 0 {
      ReadsByAgree(c, p, u, polls, k - 1, lo, hi);
      assert polls[k - 1] in polls;
    }
  }

  lemma ReadsAgree(c: Config, p: Breakers, u: Breakers, polls: seq<Read>, lo: int, hi: int)
    requires AgreeAll(c, p, u, lo) && AllBetween(polls, lo, hi)
    ensures AgreeAll(c, ReadAll(c, p, polls), u, hi)
  {
    ReadsByAgree(c, p, u, polls, |polls|, lo, hi);
  }

  lemma OneAgrees(c: Config, p: Breakers, u: Breakers, n: string, op: Op, now: int)
    requires n in u && AgreeAll(c, p, u, now) && now <= op.at && !op.Poll? && !EarlyFailure(c, u[n], op)
    ensures n in p && AgreeAll(c, p[n := Step(c, p[n], op)], u[n := Step(c, u[n], op)], op.at)
    ensures Admits(c, p[n], op.at) == Admits(c, u[n], op.at)
  {
    StepFollows(c, p[n], u[n], op, now);
  }

  lemma EntryAgrees(c: Config, p: Breakers, u: Breakers, n: string, a: Attempt, now: int)
    requires n in u && n in p && AgreeAll(c, p, u, now) && Punctual(a, now)
    ensures LetsThrough(c, p, n, a) == LetsThrough(c, u, n, Unwatched(a))
    ensures AgreeAll(c, Turned(c, p, n, a), Turned(c, u, n, Unwatched(a)), a.doneAt)
  {
    var ready := ReadAll(c, p, a.before);
    ReadsAgree(c, p, u, a.before, now, a.askAt);
    OneAgrees(c, ready, u, n, Ask(a.askAt), a.askAt);
    var asked, plain := ready[n := Step(c, ready[n], Ask(a.askAt))], u[n := Step(c, u[n], Ask(a.askAt))];
    ReadsAgree(c, asked, plain, a.during, a.askAt, a.doneAt);
    assert Waited(c, u, n, Unwatched(a)) == plain;
    if LetsThrough(c, p, n, a) {
      OneAgrees(c, Waited(c, p, n, a), plain, n, ResultOf(a), a.doneAt);
    }
  }

  lemma {:induction false} InTurnEnds(attempts: seq<Attempt>, i: nat, n: nat, now: int, end: int)
    requires i <= n <= |attempts| && InTurn(attempts, i, n, now, end)
    ensures now <= end
    decreases n - i
  {
    if i < n {
      InTurnEnds(attempts, i + 1, n, attempts[i].doneAt, end);
    }
  }

  lemma AgreeLater(c: Config, p: Breakers, u: Breakers, now: int, end: int)
    requires AgreeAll(c, p, u, now) && now <= end
    ensures AgreeAll(c, p, u, end)
  {
  }

  /** A request that goes on from breakers which differ by health reads ends alike. */
  lemma {:induction false} FinishAgrees(c: Config, p: Breakers, u: Breakers, chain: seq<Provider>,
      attempts: seq<Attempt>,
                                        i: nat, last: Failure, now: int, end: int)
    requires i <= |chain| && Ready(p, chain, attempts) && Ready(u, chain, Quiet(attempts))
    requires InTurn(attempts, i, |chain|, now, end) && AgreeAll(c, p, u, now)
    ensures var (r, p') := Finish(c, p, chain, attempts, i, last);
            var (r', u') := Finish(c, u, chain, Quiet(attempts), i, last);
            r == r' && AgreeAll(c, p', u', end)
    decreases |chain| - i
  {
    if i == |chain| {
      AgreeLater(c, p, u, now, end);
    } else {
      var n, a := chain[i].name, attempts[i];
      var p', u' := Turned(c, p, n, a), Turned(c, u, n, Unwatched(a));
      EntryAgrees(c, p, u, n, a, now);
      InTurnEnds(attempts, i + 1, |chain|, a.doneAt, end);
      AgreeLater(c, p', u', a.doneAt, end);
      FinishAgrees(c, p', u', chain, attempts, i + 1, Loss(chain[i], a, LetsThrough(c, p, n, a)), a.doneAt, end);
    }
  }

  lemma RequestAgrees(c: Config, p: Breakers, u: Breakers, chain: seq<Provider>, attempts: seq<Attempt>, now: int,
      end: int)
    requires chain != [] && Ready(u, chain, Quiet(attempts)) && Ready(p, chain, attempts)
    requires InTurn(attempts, 0, |chain|, now, end) && AgreeAll(c, p, u, now)
    ensures Ending(c, p, chain, attempts).0 == Ending(c, u, chain, Quiet(attempts)).0
    ensures AgreeAll(c, Ending(c, p, chain, attempts).1, Ending(c, u, chain, Quiet(attempts)).1, end)
  {
    FinishIsEnding(c, p, chain, attempts, 0, NoProviders);
    FinishIsEnding(c, u, chain, Quiet(attempts), 0, NoProviders);
    FinishAgrees(c, p, u, chain, attempts, 0, NoProviders, now, end);
  }

  lemma RunnableRest(v: Breakers, run: seq<Traffic>, later: Breakers)
    requires Runnable(v, run) && |run| > 0 && later.Keys == v.Keys
    ensures Runnable(later, run[1..])
  {
    forall i | 0 <= i < |run| - 1 && run[1..][i].Call?
      ensures run[1..][i].chain != [] && Ready(later, run[1..][i].chain, run[1..][i].attempts)
    {
      assert run[1..][i] == run[i + 1];
    }
  }

  lemma RunnableQuiet(v: Breakers, run: seq<Traffic>, u: Breakers)
    requires Runnable(v, run) && u.Keys == v.Keys
    ensures Runnable(u, QuietRun(run))
  {
    forall i | 0 <= i < |run| && QuietRun(run)[i].Call?
      ensures QuietRun(run)[i].chain != [] && Ready(u, QuietRun(run)[i].chain, QuietRun(run)[i].attempts)
    {
      assert run[i].Call? && Ready(v, run[i].chain, run[i].attempts);
    }
  }

  lemma TimedRest(run: seq<Traffic>, marks: seq<int>)
    requires Timed(run, marks) && |run| > 0
    ensures Timed(run[1..], marks[1..]) && Within(run[0], marks[0], marks[1])
  {
  }

  lemma {:induction false} OutcomesAgree(c: Config, p: Breakers, u: Breakers, run: seq<Traffic>, marks: seq<int>)
    requires Runnable(p, run) && Timed(run, marks) && AgreeAll(c, p, u, marks[0])
    ensures Runnable(u, QuietRun(run))
    ensures Outcomes(c, p, run) == Outcomes(c, u, QuietRun(run))
    decreases |run|
  {
    RunnableQuiet(p, run, u);
    if |run| > 0 {
      assert QuietRun(run)[1..] == QuietRun(run[1..]);
      TimedRest(run, marks);
      match run[0] {
        case Health(polls) =>
          ReadsAgree(c, p, u, polls, marks[0], marks[1]);
          RunnableRest(p, run, ReadAll(c, p, polls));
          OutcomesAgree(c, ReadAll(c, p, polls), u, run[1..], marks[1..]);
        case Call(chain, attempts) =>
          var p', u' := Ending(c, p, chain, attempts).1, Ending(c, u, chain, Quiet(attempts)).1;
          RequestAgrees(c, p, u, chain, attempts, marks[0], marks[1]);
          RunnableRest(p, run, p');
          OutcomesAgree(c, p', u', run[1..], marks[1..]);
      }
    }
  }

  /** Over every run of the router in which requests are serial, health reads, at any time between
      requests, between the attempts of a request and while a provider is called, change the result
      of no request. */
  lemma ProviderHealthIsHarmless(c: Config, v: Breakers, run: seq<Traffic>, marks: seq<int>)
    requires Runnable(v, run) && Timed(run, marks)
    ensures Runnable(v, QuietRun(run)) && Outcomes(c, v, run) == Outcomes(c, v, QuietRun(run))
  {
    OutcomesAgree(c, v, v, run, marks);
  }
}
