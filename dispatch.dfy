/**
 * Selective receive (message.hpp): the base `dispatcher`, the chain of
 * `TemplateDispatcher` links built by `handle<T>`, their `dispatch` and
 * `wait_and_dispatch`, the `chained` flag that picks the one link that
 * waits, and `receiver`.
 *
 * In C++ the chain is encoded in nested template types and the handlers are
 * lambdas; here a Chain value lists the registered message kinds, and a
 * successful dispatch reports the link (by registration index) whose
 * handler the caller then runs.  The close_queue exception becomes the
 * Shutdown receipt.
 */
module Dispatchers {
  import opened Messaging
  import opened Messages

  /**
   * A chain of registrations: Base is the dispatcher that receiver::wait
   * returns, Handler(prev, k) the link that handle<k> puts on top of prev.
   */
  datatype Chain = Base | Handler(prev: Chain, kind: Kind)

  /** The registered kinds, in registration order (innermost first). */
  function Kinds(c: Chain): seq<Kind>
  {
    match c
    case Base => []
    case Handler(p, k) => Kinds(p) + [k]
  }

  /** The chain that registers the kinds ks one after the other. */
  function ChainOf(ks: seq<Kind>): (c: Chain)
    ensures Kinds(c) == ks
    decreases |ks|
  {
    if ks == [] then Base else Handler(ChainOf(ks[..|ks| - 1]), ks[|ks| - 1])
  }

  /** What one dispatch does: run a link's handler, report no match, or raise close_queue. */
  datatype Verdict = Matched(link: nat) | NoMatch | Close

  /**
   * dispatch on a chain: the outermost link whose kind equals the message's
   * runs; otherwise the previous link is asked; the base dispatcher raises
   * close_queue for that message and reports no match for any other.
   */
  function Dispatch(c: Chain, m: Message): (v: Verdict)
    ensures v.Matched? <==> KindOf(m) in Kinds(c)
    ensures v.Matched? ==>
              v.link < |Kinds(c)| && Kinds(c)[v.link] == KindOf(m)
              && forall j :: v.link < j < |Kinds(c)| ==> Kinds(c)[j] != KindOf(m)
    ensures v.Close? <==> KindOf(m) !in Kinds(c) && m.CloseQueue?
  {
    match c
    case Base => if KindOf(m) == CloseQueueKind then Close else NoMatch
    case Handler(p, k) => if KindOf(m) == k then Matched(|Kinds(p)|) else Dispatch(p, m)
  }

  /**
   * The outcome of one selective receive: the handled message with its link
   * and what stays queued behind it, a shutdown with what stays queued, or a
   * mailbox that ran dry before anything matched (where the source blocks).
   */
  datatype Receipt =
    | Handled(link: nat, msg: Message, rest: seq<Message>)
    | Shutdown(rest: seq<Message>)
    | Starved

  /** The mailbox contents after a receive. */
  function Remaining(r: Receipt): seq<Message>
  {
    if r.Starved? then [] else r.rest
  }

  /**
   * wait_and_dispatch as a function of the mailbox contents: pop, dispatch,
   * stop on a match or on close_queue, drop the message and pop again
   * otherwise.  The receive ends at the FIRST queued message the chain
   * matches or that is close_queue; every message before it is dropped.
   */
  function Receive(c: Chain, items: seq<Message>): (r: Receipt)
    ensures !r.Starved? ==> |r.rest| < |items|
    ensures r.Handled? ==> Dispatch(c, r.msg) == Matched(r.link) && r.msg in items
    decreases |items|
  {
    if items == [] then Starved
    else
      match Dispatch(c, items[0])
      case Matched(l) => Handled(l, items[0], items[1..])
      case Close => Shutdown(items[1..])
      case NoMatch => Receive(c, items[1..])
  }

  /** The receive runs dry exactly when no queued message is matched or close_queue. */
  lemma {:induction false} ReceiveStarvedSpec(c: Chain, items: seq<Message>)
    ensures Receive(c, items).Starved? <==> forall j :: 0 <= j < |items| ==> Dispatch(c, items[j]).NoMatch?
    decreases |items|
  {
    if items != [] && Dispatch(c, items[0]).NoMatch? {
      var tail := items[1..];
      ReceiveStarvedSpec(c, tail);
      if Receive(c, tail).Starved? {
        forall j | 0 <= j < |items| ensures Dispatch(c, items[j]).NoMatch? {
          if j > 0 {
            assert items[j] == tail[j - 1];
          }
        }
      } else {
        var k :| 0 <= k < |tail| && !Dispatch(c, tail[k]).NoMatch?;
        assert items[k + 1] == tail[k];
      }
    }
  }

  /**
   * What a receive that does not run dry consumed: it stops at the n-th
   * message, the first one matched or close_queue, drops the n - 1 before
   * it, and leaves the rest queued in order.
   */
  lemma {:induction false} ReceiveSpec(c: Chain, items: seq<Message>)
    requires !Receive(c, items).Starved?
    ensures var r := Receive(c, items);
            var n := |items| - |r.rest|;
            0 < n && r.rest == items[n..]
            && (forall j :: 0 <= j < n - 1 ==> Dispatch(c, items[j]).NoMatch?)
            && (r.Handled? ==> r.msg == items[n - 1])
            && (r.Shutdown? ==> Dispatch(c, items[n - 1]).Close?)
    decreases |items|
  {
    if Dispatch(c, items[0]).NoMatch? {
      var tail := items[1..];
      var r := Receive(c, items);
      assert r == Receive(c, tail);
      ReceiveSpec(c, tail);
      var n, n' := |items| - |r.rest|, |tail| - |r.rest|;
      assert n' == n - 1 && r.rest == tail[n'..];
      assert tail[n'..] == items[n..];
      assert tail[n' - 1] == items[n - 1];
      forall j | 0 <= j < n - 1 ensures Dispatch(c, items[j]).NoMatch? {
        if j > 0 {
          assert items[j] == tail[j - 1];
        }
      }
    }
  }

  /** close_queue at the head of the mailbox ends the receive of a chain that registers no handler for it. */
  lemma ReceiveCloseFirst(c: Chain, rest: seq<Message>)
    requires CloseQueueKind !in Kinds(c)
    ensures Receive(c, [CloseQueue] + rest) == Shutdown(rest)
  {
    var items := [CloseQueue] + rest;
    assert items[0] == CloseQueue && items[1..] == rest;
    assert Dispatch(c, CloseQueue) == Close;
  }

  /** A handled message is the one just before what the receive leaves behind. */
  lemma ReceiveTaken(c: Chain, items: seq<Message>)
    requires Receive(c, items).Handled?
    ensures var r := Receive(c, items);
            var n := |items| - |r.rest|;
            0 < n && r.msg == items[n - 1]
  {
    ReceiveSpec(c, items);
  }

  /** Unmatched messages at the head of the mailbox are dropped and change nothing else. */
  lemma {:induction false} ReceiveSkipsUnmatched(c: Chain, dropped: seq<Message>, items: seq<Message>)
    requires forall j :: 0 <= j < |dropped| ==> Dispatch(c, dropped[j]).NoMatch?
    ensures Receive(c, dropped + items) == Receive(c, items)
    decreases |dropped|
  {
    if dropped != [] {
      var all := dropped + items;
      assert all[0] == dropped[0] && Dispatch(c, all[0]).NoMatch?;
      assert all[1..] == dropped[1..] + items;
      calc {
        Receive(c, all);
        Receive(c, all[1..]);
        { ReceiveSkipsUnmatched(c, dropped[1..], items); }
        Receive(c, items);
      }
    } else {
      assert dropped + items == items;
    }
  }

  /** A receive that ends on `items` ends the same way when more messages are queued behind them. */
  lemma {:induction false} ReceiveIgnoresLaterInput(c: Chain, items: seq<Message>, more: seq<Message>)
    requires !Receive(c, items).Starved?
    ensures var r := Receive(c, items);
            Receive(c, items + more)
            == if r.Handled? then Handled(r.link, r.msg, r.rest + more) else Shutdown(r.rest + more)
    decreases |items|
  {
    var longer := items + more;
    assert longer[0] == items[0] && longer[1..] == items[1..] + more;
    var v := Dispatch(c, items[0]);
    if v.NoMatch? {
      assert Receive(c, items) == Receive(c, items[1..]);
      assert Receive(c, longer) == Receive(c, items[1..] + more);
      ReceiveIgnoresLaterInput(c, items[1..], more);
    } else if v.Matched? {
      assert Receive(c, longer) == Handled(v.link, items[0], items[1..] + more);
    } else {
      assert Receive(c, longer) == Shutdown(items[1..] + more);
    }
  }

  /**
   * The receive ends exactly at the first message that the chain matches or
   * that is close_queue, and leaves what follows it queued in order.
   */
  lemma ReceiveStopsAtFirstRelevant(c: Chain, items: seq<Message>, i: nat)
    requires i < |items| && !Dispatch(c, items[i]).NoMatch?
    requires forall j :: 0 <= j < i ==> Dispatch(c, items[j]).NoMatch?
    ensures Receive(c, items) ==
              match Dispatch(c, items[i])
              case Matched(l) => Handled(l, items[i], items[i + 1..])
              case _ => Shutdown(items[i + 1..])
  {
    assert items == items[..i] + items[i..];
    ReceiveSkipsUnmatched(c, items[..i], items[i..]);
  }

  /**
   * A bare dispatcher, with no handle<> registered, never handles a
   * message: it drops everything until close_queue shuts it down.
   */
  lemma BareDispatcherOnlyShutsDown(items: seq<Message>)
    ensures !Receive(Base, items).Handled?
    ensures Receive(Base, items).Shutdown? <==> CloseQueue in items
    ensures Receive(Base, items).Shutdown? ==>
              var n := |items| - |Receive(Base, items).rest|;
              items[n - 1] == CloseQueue && CloseQueue !in items[..n - 1]
  {
    var r := Receive(Base, items);
    ReceiveStarvedSpec(Base, items);
    if CloseQueue in items {
      var j :| 0 <= j < |items| && items[j] == CloseQueue;
      assert Dispatch(Base, items[j]).Close?;
    }
    if r.Shutdown? {
      ReceiveSpec(Base, items);
      var n := |items| - |r.rest|;
      var before := items[..n - 1];
      forall j | 0 <= j < |before| ensures before[j] != CloseQueue {
        assert before[j] == items[j] && Dispatch(Base, items[j]).NoMatch?;
      }
    }
  }

  /**
   * For a chain that registers no handler for close_queue, a receive stops
   * on close_queue only if one is queued, runs dry only if none is, and
   * after a handled message leaves a queued close_queue in the mailbox.
   */
  lemma {:induction false} ReceiveKeepsClose(c: Chain, items: seq<Message>)
    requires CloseQueueKind !in Kinds(c)
    ensures var r := Receive(c, items);
            (r.Shutdown? ==> CloseQueue in items)
            && (r.Starved? ==> CloseQueue !in items)
            && (r.Handled? ==> r.msg != CloseQueue && (CloseQueue in items <==> CloseQueue in r.rest))
    decreases |items|
  {
    if items != [] {
      assert items == [items[0]] + items[1..];
      var v := Dispatch(c, items[0]);
      if v.NoMatch? {
        assert items[0] != CloseQueue;
        ReceiveKeepsClose(c, items[1..]);
      } else if v.Matched? {
        assert items[0] != CloseQueue;
      }
    }
  }

  /**
   * When a chain registers each kind once (as every chain of the ATM and the
   * bank does), the matched link is the only one of that kind, so trying
   * links outermost-first or in registration order picks the same handler.
   */
  lemma DistinctChainMatchesUniqueLink(c: Chain, m: Message, i: nat)
    requires forall a, b :: 0 <= a < b < |Kinds(c)| ==> Kinds(c)[a] != Kinds(c)[b]
    requires i < |Kinds(c)|
    ensures Dispatch(c, m) == Matched(i) <==> Kinds(c)[i] == KindOf(m)
  {
    var v := Dispatch(c, m);
    if Kinds(c)[i] == KindOf(m) {
      assert KindOf(m) in Kinds(c);
      assert v.Matched? && Kinds(c)[v.link] == Kinds(c)[i];
    }
  }

  /** The link a match reports is the position of the message's kind in the registered list. */
  lemma MatchedKind(ks: seq<Kind>, m: Message, link: nat)
    requires Dispatch(ChainOf(ks), m) == Matched(link)
    ensures link < |ks| && KindOf(m) == ks[link]
  {
    assert Kinds(ChainOf(ks)) == ks;
  }

  /** wait_and_dispatch on a real mailbox: a pop loop proved against Receive. */
  method WaitAndDispatch(q: Queue<Message>, c: Chain) returns (r: Receipt)
    modifies q
    ensures r == Receive(c, old(q.items))
    ensures q.items == Remaining(r)
  {
    while q.items != []
      invariant Receive(c, q.items) == Receive(c, old(q.items))
      decreases |q.items|
    {
      var m := q.WaitAndPop();
      var v := Dispatch(c, m);
      if v.Matched? {
        return Handled(v.link, m, q.items);
      } else if v.Close? {
        return Shutdown(q.items);
      }
    }
    return Starved;
  }

  /**
   * One dispatcher object: the base dispatcher (chain Base) or a
   * TemplateDispatcher link.  Only an object whose `chained` flag is still
   * clear runs the wait loop when it is destroyed.
   */
  class Dispatcher {
    const q: Queue<Message>
    const chain: Chain
    var chained: bool

    /** dispatcher(queue*), as receiver::wait makes it. */
    constructor FromQueue(q: Queue<Message>)
      ensures this.q == q && chain == Base && !chained
    {
      this.q := q;
      chain := Base;
      chained := false;
    }

    /** TemplateDispatcher(q, prev, f): a new, unchained link that marks prev chained. */
    constructor Link(q: Queue<Message>, prev: Dispatcher, k: Kind)
      modifies prev
      ensures this.q == q && chain == Handler(prev.chain, k) && !chained
      ensures prev.chained
    {
      this.q := q;
      chain := Handler(prev.chain, k);
      chained := false;
      new;
      prev.chained := true;
    }

    /**
     * The move constructors: the copy takes over the flag, the source becomes
     * chained.  `Receiver.Wait` and `Handle` build their result in place (the
     * copy elision the C++ compiler may apply to a returned temporary), so no
     * selective receive in this model goes through a move; this constructor
     * states on its own that a move never adds a second receive.
     */
    constructor Moved(other: Dispatcher)
      modifies other
      ensures q == other.q && chain == other.chain
      ensures chained == old(other.chained) && other.chained
    {
      q := other.q;
      chain := other.chain;
      chained := other.chained;
      new;
      other.chained := true;
    }

    /** handle<k>(f): extends the chain by one link and hands the wait over to it. */
    method Handle(k: Kind) returns (d: Dispatcher)
      modifies this
      ensures fresh(d) && d.q == q && d.chain == Handler(chain, k) && !d.chained
      ensures chained
    {
      d := new Dispatcher.Link(q, this, k);
    }

    /** The destructor: an unchained object performs the receive, a chained one nothing. */
    method Destroy() returns (r: Option<Receipt>)
      modifies q
      ensures chained ==> r == None && q.items == old(q.items)
      ensures !chained ==> r == Some(Receive(chain, old(q.items))) && q.items == Remaining(r.value)
    {
      if !chained {
        var receipt := WaitAndDispatch(q, chain);
        r := Some(receipt);
      } else {
        r := None;
      }
    }
  }

  /** receiver: owns a mailbox, hands out senders to it and starts receives on it. */
  class Receiver {
    const q: Queue<Message>

    constructor ()
      ensures fresh(q) && q.items == []
    {
      q := new Queue<Message>();
    }

    /** operator sender(): a sender bound to this receiver's mailbox. */
    function AsSender(): (s: Sender<Message>)
      ensures s.Bound() && s.target == q
    {
      Sender(q)
    }

    /** wait(): a fresh, unchained base dispatcher on this mailbox. */
    method Wait() returns (d: Dispatcher)
      ensures fresh(d) && d.q == q && d.chain == Base && !d.chained
    {
      d := new Dispatcher.FromQueue(q);
    }

    /**
     * The statement `wait().handle<k0>(..)...handle<kn>(..);`: the base
     * dispatcher and one link per kind are built in order, then destroyed in
     * reverse order at the end of the statement.  Exactly one of them, the
     * outermost, runs the receive.
     */
    method SelectiveReceive(kinds: seq<Kind>) returns (r: Receipt, receives: nat)
      modifies q
      ensures receives == 1
      ensures r == Receive(ChainOf(kinds), old(q.items))
      ensures q.items == Remaining(r)
    {
      var links := BuildChain(kinds);
      r, receives := DestroyChain(links, ChainOf(kinds));
    }

    /** Evaluates `wait().handle<k0>(..)...handle<kn>(..)`: every object but the last is chained. */
    method BuildChain(kinds: seq<Kind>) returns (links: seq<Dispatcher>)
      ensures |links| == |kinds| + 1
      ensures forall j :: 0 <= j < |links| ==> fresh(links[j]) && links[j].q == q
      ensures forall j :: 0 <= j < |links| - 1 ==> links[j].chained
      ensures !links[|kinds|].chained && links[|kinds|].chain == ChainOf(kinds)
    {
      var base := Wait();
      links := [base];
      var i := 0;
      while i < |kinds|
        invariant 0 <= i <= |kinds| && |links| == i + 1
        invariant forall j :: 0 <= j <= i ==> fresh(links[j]) && links[j].q == q
        invariant forall j :: 0 <= j < i ==> links[j].chained
        invariant !links[i].chained && links[i].chain == ChainOf(kinds[..i])
      {
        var prev := links[i];
        assert forall j :: 0 <= j < i ==> links[j] != prev;
        assert kinds[..i + 1][..i] == kinds[..i];
        var d := prev.Handle(kinds[i]);
        assert d.chain == ChainOf(kinds[..i + 1]);
        links := links + [d];
        i := i + 1;
      }
      assert kinds[..i] == kinds;
    }

    /** Destroys the objects in reverse order of construction. */
    method DestroyChain(links: seq<Dispatcher>, ghost c: Chain) returns (r: Receipt, receives: nat)
      requires |links| > 0
      requires forall j :: 0 <= j < |links| ==> links[j].q == q
      requires forall j :: 0 <= j < |links| - 1 ==> links[j].chained
      requires !links[|links| - 1].chained && links[|links| - 1].chain == c
      modifies q
      ensures receives == 1
      ensures r == Receive(c, old(q.items))
      ensures q.items == Remaining(r)
    {
      r, receives := Starved, 0;
      var k := |links|;
      while k > 0
        invariant 0 <= k <= |links|
        invariant k == |links| ==> receives == 0 && q.items == old(q.items)
        invariant k < |links| ==> receives == 1 && r == Receive(c, old(q.items)) && q.items == Remaining(r)
      {
        k := k - 1;
        var outcome := links[k].Destroy();
        if outcome.Some? {
          r, receives := outcome.value, receives + 1;
        }
      }
    }
  }
}
