/**
  The bridge between a conversation's message subject and its reader: a channel of 512 slots
  into which parsed events are put, and from which an event is dropped when the channel is full.
 */
module Bridges {
  import opened Wrappers

  const CAPACITY := 512

  class Bridge<E> {
    var queue: seq<E>

    constructor ()
      ensures queue == []
    {
      queue := [];
    }

    /** The subscription callback; None is a message that does not parse. */
    method Deliver(msg: Option<E>) returns (dropped: bool)
      modifies this
      ensures queue == Offer(old(queue), msg)
      ensures dropped <==> msg.Some? && |old(queue)| >= 512
      ensures queue == if msg.Some? && !dropped then old(queue) + [msg.value] else old(queue)
    {
      if msg.None? {
        return false;
      }
      dropped := |queue| >= CAPACITY;
      if !dropped {
        queue := queue + [msg.value];
      }
    }

    /** What the reader gets from the channel; nothing while the channel is empty. */
    method Receive() returns (e: Option<E>)
      modifies this
      ensures queue == Rest(old(queue))
      ensures e == if old(queue) == [] then None else Some(old(queue)[0])
    {
      if |queue| == 0 {
        return None;
      }
      e := Some(queue[0]);
      queue := queue[1..];
    }
  }

  function Offer<E>(q: seq<E>, msg: Option<E>): seq<E> {
    if msg.Some? && |q| < CAPACITY then q + [msg.value] else q
  }

  function Rest<E>(q: seq<E>): seq<E> { if |q| == 0 then [] else q[1..] }

  // ---------- Schedules ----------

  datatype Action<+E> = Publish(msg: Option<E>) | Take

  /** The channel after a schedule. */
  function Queue<E>(h: seq<Action<E>>): seq<E> {
    if |h| == 0 then []
    else match h[|h| - 1]
      case Publish(msg) => Offer(Queue(h[..|h| - 1]), msg)
      case Take => Rest(Queue(h[..|h| - 1]))
  }

  /** What the reader has received. */
  function Delivered<E>(h: seq<Action<E>>): seq<E> {
    if |h| == 0 then []
    else
      var q := Queue(h[..|h| - 1]);
      Delivered(h[..|h| - 1]) + if h[|h| - 1].Take? && |q| > 0 then [q[0]] else []
  }

  /** What was published and parsed. */
  function Parsed<E>(h: seq<Action<E>>): seq<E> {
    if |h| == 0 then []
    else Parsed(h[..|h| - 1])
         + if h[|h| - 1].Publish? && h[|h| - 1].msg.Some? then [h[|h| - 1].msg.value] else []
  }

  /** How many events would be waiting if the channel had no limit. */
  function Backlog<E>(h: seq<Action<E>>): nat {
    if |h| == 0 then 0
    else
      var n := Backlog(h[..|h| - 1]);
      match h[|h| - 1]
      case Publish(msg) => if msg.Some? then n + 1 else n
      case Take => if n == 0 then 0 else n - 1
  }

  ghost predicate NeverOverflows<E>(h: seq<Action<E>>) {
    forall k :: 0 <= k <= |h| ==> Backlog(h[..k]) <= CAPACITY
  }

  /** The first sequence occurs in the second, in order. */
  ghost predicate Subsequence<E>(xs: seq<E>, ys: seq<E>) {
    if xs == [] then true
    else if ys == [] then false
    else
      || (xs[|xs| - 1] == ys[|ys| - 1] && Subsequence(xs[..|xs| - 1], ys[..|ys| - 1]))
      || Subsequence(xs, ys[..|ys| - 1])
  }

  lemma {:induction false} SubsequenceOfMore<E>(xs: seq<E>, ys: seq<E>, y: E)
    requires Subsequence(xs, ys)
    ensures Subsequence(xs, ys + [y]) && Subsequence(xs + [y], ys + [y])
  {
    assert (ys + [y])[..|ys|] == ys && (xs + [y])[..|xs|] == xs;
  }

  lemma {:induction false} PrefixIsSubsequence<E>(xs: seq<E>, zs: seq<E>, ys: seq<E>)
    requires Subsequence(xs + zs, ys)
    ensures Subsequence(xs, ys)
    decreases |ys|
  {
    if zs == [] {
      assert xs + zs == xs;
    } else if xs != [] {
      var all := xs + zs;
      var earlier := ys[..|ys| - 1];
      if Subsequence(all, earlier) {
        PrefixIsSubsequence(xs, zs, earlier);
      } else {
        assert all[..|all| - 1] == xs + zs[..|zs| - 1];
        PrefixIsSubsequence(xs, zs[..|zs| - 1], earlier);
      }
      assert earlier + [ys[|ys| - 1]] == ys;
      SubsequenceOfMore(xs, earlier, ys[|ys| - 1]);
    }
  }

  /** Taking an event moves it from the channel to the reader. */
  lemma TakeMoves<E>(delivered: seq<E>, q: seq<E>)
    ensures (delivered + if |q| > 0 then [q[0]] else []) + Rest(q) == delivered + q
  {
  }

  lemma OfferKeepsOrder<E>(delivered: seq<E>, q: seq<E>, parsed: seq<E>, e: E)
    requires Subsequence(delivered + q, parsed)
    ensures Subsequence(delivered + Offer(q, Some(e)), parsed + [e])
  {
    SubsequenceOfMore(delivered + q, parsed, e);
    assert delivered + (q + [e]) == delivered + q + [e];
  }

  lemma {:induction false} NothingInvented<E>(h: seq<Action<E>>)
    ensures Subsequence(Delivered(h) + Queue(h), Parsed(h))
  {
    if |h| > 0 {
      var earlier, a := h[..|h| - 1], h[|h| - 1];
      NothingInvented(earlier);
      if a.Take? {
        TakeMoves(Delivered(earlier), Queue(earlier));
        assert Parsed(h) == Parsed(earlier);
      } else {
        assert Delivered(h) == Delivered(earlier);
        if a.msg.Some? {
          OfferKeepsOrder(Delivered(earlier), Queue(earlier), Parsed(earlier), a.msg.value);
        } else {
          assert Parsed(h) == Parsed(earlier);
        }
      }
    }
  }

  /** Under every schedule, what is delivered is what was parsed, in order, possibly with gaps. */
  lemma DeliveryIsInOrder<E>(h: seq<Action<E>>)
    ensures Subsequence(Delivered(h), Parsed(h))
  {
    NothingInvented(h);
    PrefixIsSubsequence(Delivered(h), Queue(h), Parsed(h));
  }

  lemma NeverOverflowsPrefix<E>(h: seq<Action<E>>)
    requires |h| > 0
    ensures NeverOverflows(h) <==> NeverOverflows(h[..|h| - 1]) && Backlog(h) <= CAPACITY
  {
    var earlier := h[..|h| - 1];
    forall k | 0 <= k <= |earlier| ensures earlier[..k] == h[..k] {}
    assert h[..|h|] == h;
    if NeverOverflows(h) {
      forall k | 0 <= k <= |earlier| ensures Backlog(earlier[..k]) <= CAPACITY { assert Backlog(h[..k]) <= CAPACITY; }
      assert Backlog(h[..|h|]) <= CAPACITY;
    } else {
      var k :| 0 <= k <= |h| && Backlog(h[..k]) > CAPACITY;
      if k < |h| { assert Backlog(earlier[..k]) > CAPACITY; }
    }
  }

  lemma {:induction false} CountsOf<E>(h: seq<Action<E>>)
    ensures |Delivered(h)| + |Queue(h)| <= |Parsed(h)|
    ensures NeverOverflows(h) ==> |Queue(h)| == Backlog(h) && Delivered(h) + Queue(h) == Parsed(h)
    ensures !NeverOverflows(h) ==> |Delivered(h)| + |Queue(h)| < |Parsed(h)|
  {
    if |h| > 0 {
      var earlier, a := h[..|h| - 1], h[|h| - 1];
      CountsOf(earlier);
      NeverOverflowsPrefix(h);
      assert earlier[..|earlier|] == earlier;
      if NeverOverflows(h) && a.Publish? && a.msg.Some? {
        assert Delivered(h) + Queue(h) == Delivered(earlier) + Queue(earlier) + [a.msg.value];
      } else if NeverOverflows(h) {
        assert Delivered(h) + Queue(h) == Delivered(earlier) + Queue(earlier);
        assert Parsed(h) == Parsed(earlier);
      }
    } else {
      forall k | 0 <= k <= |h| ensures Backlog(h[..k]) == 0 { assert h[..k] == h; }
    }
  }

  /** Nothing parsed is lost, up to what still waits, if and only if the backlog never exceeds
      the capacity of the channel. */
  lemma LosslessExactlyWithinCapacity<E>(h: seq<Action<E>>)
    ensures Delivered(h) + Queue(h) == Parsed(h) <==> NeverOverflows(h)
  {
    CountsOf(h);
  }
}
