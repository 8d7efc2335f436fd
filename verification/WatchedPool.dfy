/**
  The watchers of a conversation over the pool. Every dispatched message starts a watcher of its own on the
  conversation's stream, and every watcher that sees the agent end releases the conversation's instance.
 */
module WatchedPool {
  import opened Watchers
  import WarmPool

  /** The steps of the protocol that an effect of a watcher takes, in order, when every store answers. */
  function EffectSteps(e: Effect, c: WarmPool.ConvId, t: WarmPool.ThreadId, now: int): seq<WarmPool.Label> {
    match e
    case Release =>
      [WarmPool.ReleaseLookup(t, c, true), WarmPool.ReleaseDelete(t, true), WarmPool.ReleaseUpdate(t, true, now),
       WarmPool.ReleaseCount(t)]
    case ClearRoute => [WarmPool.Clear(c)]
    case SetRoute(_) => [WarmPool.AnnounceSet(t, true)]
    case _ => []
  }

  /** A stream that ends with the end of the agent and has no other. */
  ghost predicate EndsOnce(es: seq<StreamEvent>) {
    |es| > 0 && es[|es| - 1].AgentEnd? && forall k :: 0 <= k < |es| - 1 ==> !es[k].AgentEnd?
  }

  lemma {:induction false} WatcherFinishes(c: Config, s: State, signals: seq<Signal>, es: seq<StreamEvent>)
    requires s.status == Running && EndsOnce(es) && Carries(signals, es)
    ensures After(c, s, signals).status == Finished
    decreases |es|
  {
    if |es| == 1 {
      EndedStaysEnded(c, Step(c, s, signals[0]), signals[1..]);
    } else {
      assert Carries(signals[1..], es[1..]);
      WatcherFinishes(c, Step(c, s, signals[0]), signals[1..], es[1..]);
    }
  }

  /** Two watchers of one stream, the second joining at any point before its end, both release. */
  lemma BothWatchersRelease(c: Config, es: seq<StreamEvent>, k: nat, first: seq<Signal>, second: seq<Signal>)
    requires c.hasClaims && EndsOnce(es) && k < |es| && Carries(first, es) && Carries(second, es[k..])
    ensures Occurs(After(c, START, first).log, Release) && Occurs(After(c, START, second).log, Release)
  {
    WatcherFinishes(c, START, first, es);
    WatcherFinishes(c, START, second, es[k..]);
    EffectsAreInOrder(c, first);
    EffectsAreInOrder(c, second);
  }

  /** The first steps of the two releases, one after the other. */
  function BothLookups(c: WarmPool.ConvId, t: WarmPool.ThreadId, u: WarmPool.ThreadId, now: int): seq<WarmPool.Label> {
    [EffectSteps(Release, c, t, now)[0]] + [EffectSteps(Release, c, u, now)[0]]
  }

  lemma BothLookupsGoWrong(s: WarmPool.State, conv: WarmPool.ConvId, t: WarmPool.ThreadId, u: WarmPool.ThreadId)
    requires WarmPool.Inv(s) && conv in s.route && t != u && t !in s.threads && u !in s.threads
    requires forall r :: r in s.threads ==> !WarmPool.Releases(s.threads[r], s.route[conv])
    ensures var one, two := WarmPool.ReleaseLookup(t, conv, true), WarmPool.ReleaseLookup(u, conv, true);
            && WarmPool.Enabled(s, one) && WarmPool.Disciplined(s, one)
            && WarmPool.Enabled(WarmPool.Next(s, one), two) && !WarmPool.Careful(WarmPool.Next(s, one), two)
            && WarmPool.CanGoWrong(WarmPool.Next(WarmPool.Next(s, one), two))
  {
    var one, two := WarmPool.ReleaseLookup(t, conv, true), WarmPool.ReleaseLookup(u, conv, true);
    var s' := WarmPool.Next(s, one);
    WarmPool.StepKeepsInv(s, one);
    assert t in s'.threads && WarmPool.Releases(s'.threads[t], s'.route[conv]);
    WarmPool.UndisciplinedStepGoesWrong(s', two);
  }

  /** Two messages of a conversation give two watchers of its stream. Wherever the conversation is routed,
      both watchers release it when the agent ends, and if both look up the route before either deletes it,
      a disciplined continuation reaches an unsafe state. */
  lemma TwoWatchersAreUnsafe(c: Config, es: seq<StreamEvent>, k: nat, first: seq<Signal>, second: seq<Signal>,
      s: WarmPool.State, conv: WarmPool.ConvId, t: WarmPool.ThreadId, u: WarmPool.ThreadId, now: int)
    requires c.hasClaims && EndsOnce(es) && k < |es| && Carries(first, es) && Carries(second, es[k..])
    requires WarmPool.Inv(s) && conv in s.route && t != u && t !in s.threads && u !in s.threads
    requires forall r :: r in s.threads ==> !WarmPool.Releases(s.threads[r], s.route[conv])
    ensures Occurs(After(c, START, first).log, Release) && Occurs(After(c, START, second).log, Release)
    ensures WarmPool.Possible(s, BothLookups(conv, t, u, now)) && !WarmPool.AllCareful(s, BothLookups(conv, t, u, now))
    ensures WarmPool.CanGoWrong(WarmPool.Run(s, BothLookups(conv, t, u, now)))
  {
    var one, two := WarmPool.ReleaseLookup(t, conv, true), WarmPool.ReleaseLookup(u, conv, true);
    BothWatchersRelease(c, es, k, first, second);
    BothLookupsGoWrong(s, conv, t, u);
    WarmPool.OneStep(WarmPool.Next(s, one), two);
    assert ([one] + [two])[1..] == [two];
    assert BothLookups(conv, t, u, now) == [one] + [two];
  }

  /** A watcher whose release finds no other release of the instance is disciplined, and no disciplined
      continuation goes wrong. */
  lemma OneWatcherIsSafe(s: WarmPool.State, conv: WarmPool.ConvId, t: WarmPool.ThreadId)
    requires WarmPool.Inv(s) && conv in s.route && t !in s.threads
    requires forall r :: r in s.threads ==> !WarmPool.Releases(s.threads[r], s.route[conv])
    ensures var one := WarmPool.ReleaseLookup(t, conv, true);
            && WarmPool.Enabled(s, one) && WarmPool.Disciplined(s, one) && !WarmPool.CanGoWrong(WarmPool.Next(s, one))
  {
    WarmPool.GuardIsExact(s, WarmPool.ReleaseLookup(t, conv, true));
  }
}
