/**
 * The mailbox and the sender handle of the messaging runtime (message.hpp).
 *
 * A mailbox is a FIFO of messages owned by one receiver; a sender is a
 * copyable handle that refers to a mailbox or to nothing.  Both are generic
 * in the message type, as the C++ templates are: the queue stores
 * type-erased messages, and the message catalogue is defined on top of it.
 *
 * The mutex and condition variable that make the C++ queue thread-safe are
 * not modelled: each actor here runs sequentially, and a pop that would
 * block is ruled out by a precondition (the selective receive of module
 * Dispatch reports a mailbox that runs dry instead of waiting).
 */
module Messaging {

  datatype Option<T> = None | Some(value: T)

  /** Concatenation regroups freely. */
  lemma AppendAssoc<T>(a: seq<T>, b: seq<T>, c: seq<T>)
    ensures a + (b + c) == (a + b) + c
  {
  }

  /** An unbounded FIFO mailbox. */
  class Queue<M> {
    var items: seq<M>

    constructor ()
      ensures items == []
    {
      items := [];
    }

    /** Appends one message at the back; never fails. */
    method Push(m: M)
      modifies this
      ensures items == old(items) + [m]
      ensures |items| == |old(items)| + 1 && items[..|old(items)|] == old(items)
    {
      items := items + [m];
    }

    /** Removes and returns the oldest message; the rest keeps its order. */
    method WaitAndPop() returns (m: M)
      requires items != []
      modifies this
      ensures m == old(items)[0]
      ensures items == old(items)[1..]
      ensures [m] + items == old(items)
    {
      m := items[0];
      items := items[1..];
    }
  }

  /**
   * A handle on a mailbox; Sender(null) is the default-constructed sender,
   * whose sends go nowhere.
   */
  datatype Sender<M> = Sender(target: Queue?<M>) {

    /** The objects a send through this handle may change. */
    function Frame(): set<object> {
      if target == null then {} else {target}
    }

    predicate Bound() {
      target != null
    }
  }

  /** The sender made by the default constructor: bound to no mailbox. */
  function Unbound<M>(): (s: Sender<M>)
    ensures !s.Bound() && s.Frame() == {}
  {
    Sender(null)
  }

  /** Pushes m into the mailbox s refers to, or does nothing if s is unbound. */
  method Send<M>(s: Sender<M>, m: M)
    modifies s.Frame()
    ensures s.Bound() ==> s.target.items == old(s.target.items) + [m]
  {
    if s.target != null {
      s.target.Push(m);
    }
  }
}
