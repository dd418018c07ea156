/**
 * The bank ledger actor, bank_machine (action.hpp): it owns an unsigned
 * balance, opened at 199, and in each turn of its run loop performs one
 * selective receive over the five requests it understands, replying to the
 * reply address a request carries.
 */
module Bank {
  import opened Messaging
  import opened Messages
  import opened Dispatchers

  /** The one PIN the bank accepts. */
  const Secret: string := "1937"

  /** The balance bank_machine starts with. */
  const OpeningBalance: u32 := 199

  /** The kinds bank_machine::run registers, in order. */
  const Handlers: seq<Kind> :=
    [VerifyPinKind, WithdrawKind, GetBalanceKind, WithdrawalProcessedKind, CancelWithdrawalKind]

  /** What a handler leaves behind: the new balance and the reply it sends, if any. */
  datatype Answer = Answer(balance: u32, reply: Option<Message>)

  /**
   * The handler the bank runs for a request: a PIN check against the secret,
   * a withdrawal that debits only when the balance covers it, a balance
   * query, and two acknowledgements that change nothing.
   */
  function Serve(balance: u32, m: Message): (a: Answer)
    ensures a.balance <= balance
    ensures a.reply.Some? <==> m.Withdraw? || m.VerifyPin? || m.GetBalance?
  {
    match m
    case VerifyPin(_, pin, _) => Answer(balance, Some(if pin == Secret then PinVerified else PinIncorrect))
    case Withdraw(_, amount, _) =>
      if balance >= amount then Answer(balance - amount, Some(WithdrawOk))
      else Answer(balance, Some(WithdrawDenied))
    case GetBalance(_, _) => Answer(balance, Some(Balance(balance)))
    case _ => Answer(balance, None)
  }

  /** withdraw: debits exactly the amount when it is covered, and otherwise refuses and keeps the balance. */
  lemma WithdrawChecksThenDebits(balance: u32, account: string, amount: u32, replyTo: Sender<Message>)
    ensures var a := Serve(balance, Withdraw(account, amount, replyTo));
            (a.reply == Some(WithdrawOk) <==> amount <= balance)
            && (a.reply == Some(WithdrawOk) ==> a.balance as int == balance as int - amount as int)
            && (a.reply != Some(WithdrawOk) ==> a.reply == Some(WithdrawDenied) && a.balance == balance)
  {
  }

  /** verify_pin: pin_verified exactly for the secret, pin_incorrect otherwise; the balance is untouched. */
  lemma VerifyPinLeavesBalance(balance: u32, account: string, pin: string, replyTo: Sender<Message>)
    ensures var a := Serve(balance, VerifyPin(account, pin, replyTo));
            a.balance == balance
            && (a.reply == Some(PinVerified) <==> pin == Secret)
            && (a.reply != Some(PinVerified) ==> a.reply == Some(PinIncorrect))
  {
  }

  /**
   * get_balance replies with the current balance; withdrawal_processed and
   * cancel_withdrawal send nothing and change nothing.
   */
  lemma QueriesAndAcknowledgementsLeaveBalance(balance: u32, m: Message)
    requires m.GetBalance? || m.WithdrawalProcessed? || m.CancelWithdrawal?
    ensures Serve(balance, m).balance == balance
    ensures Serve(balance, m).reply == if m.GetBalance? then Some(Balance(balance)) else None
  {
  }

  /** The total of the withdrawals the bank accepts when it serves requests in order. */
  function Debited(balance: u32, requests: seq<Message>): nat
    decreases |requests|
  {
    if requests == [] then 0
    else
      var a := Serve(balance, requests[0]);
      (if a.reply == Some(WithdrawOk) then requests[0].amount as nat else 0) + Debited(a.balance, requests[1..])
  }

  /** The balance after serving requests in order. */
  function Settle(balance: u32, requests: seq<Message>): u32
    decreases |requests|
  {
    if requests == [] then balance else Settle(Serve(balance, requests[0]).balance, requests[1..])
  }

  /**
   * Conservation: whatever the requests, the closing balance plus the
   * accepted withdrawals equals the opening balance, so the unsigned balance
   * never goes below zero and only accepted withdrawals move it.
   */
  lemma {:induction false} LedgerConserves(balance: u32, requests: seq<Message>)
    ensures Settle(balance, requests) as int + Debited(balance, requests) == balance as int
    decreases |requests|
  {
    if requests != [] {
      LedgerConserves(Serve(balance, requests[0]).balance, requests[1..]);
    }
  }

  /** PIN checks, balance queries and acknowledgements alone never move the balance. */
  lemma {:induction false} NoWithdrawalNoChange(balance: u32, requests: seq<Message>)
    requires forall j :: 0 <= j < |requests| ==> !requests[j].Withdraw?
    ensures Settle(balance, requests) == balance && Debited(balance, requests) == 0
    decreases |requests|
  {
    if requests != [] {
      NoWithdrawalNoChange(Serve(balance, requests[0]).balance, requests[1..]);
    }
  }

  /** The link bank_machine's receive reports names the request it matched. */
  lemma HandlerOfLink(link: nat, m: Message)
    requires Dispatch(ChainOf(Handlers), m) == Matched(link)
    ensures link < |Handlers| && KindOf(m) == Handlers[link]
    ensures link == 0 <==> m.VerifyPin?
    ensures link == 1 <==> m.Withdraw?
    ensures link == 2 <==> m.GetBalance?
    ensures link >= 3 <==> m.WithdrawalProcessed? || m.CancelWithdrawal?
  {
    assert Kinds(ChainOf(Handlers)) == Handlers;
  }

  /** One reply the bank sent: where it went and what it said. */
  datatype Reply = Reply(to: Sender<Message>, msg: Message)

  /** What the bank's run loop does with a mailbox and no further input. */
  datatype Service = Service(
    balance: u32,
    served: seq<Message>,   // the requests handled, in order
    replies: seq<Reply>,    // the replies sent, in order
    stopped: bool,          // close_queue ended the loop
    rest: seq<Message>)     // what stays queued

  /** The reply a handled request produces, as a (possibly empty) list. */
  function ReplyOf(balance: u32, m: Message): seq<Reply>
  {
    var a := Serve(balance, m);
    if a.reply.Some? then [Reply(ReplyAddress(m), a.reply.value)] else []
  }

  /**
   * bank_machine::run over a mailbox: receive, serve, repeat, until
   * close_queue (stopped) or until the mailbox runs dry (where the source
   * blocks).  Messages of other kinds are dropped by the receive.
   */
  function Loop(balance: u32, inbox: seq<Message>): (r: Service)
    ensures r.balance == Settle(balance, r.served)
    ensures |r.rest| < |inbox| || (inbox == [] && r.rest == [])
    ensures !r.stopped ==> r.rest == []
    decreases |inbox|
  {
    match Receive(ChainOf(Handlers), inbox)
    case Handled(_, m, rest) =>
      var more := Loop(Serve(balance, m).balance, rest);
      assert ([m] + more.served)[0] == m && ([m] + more.served)[1..] == more.served;
      Service(more.balance, [m] + more.served, ReplyOf(balance, m) + more.replies, more.stopped, more.rest)
    case Shutdown(rest) => Service(balance, [], [], true, rest)
    case Starved => Service(balance, [], [], false, [])
  }

  /**
   * The requests a run serves from a mailbox: the messages up to the first
   * close_queue whose type the bank registers, in order.
   */
  function Requests(inbox: seq<Message>): seq<Message>
    decreases |inbox|
  {
    if inbox == [] || inbox[0] == CloseQueue then []
    else (if KindOf(inbox[0]) in Handlers then [inbox[0]] else []) + Requests(inbox[1..])
  }

  /** The replies the handlers send for requests served in order, each with the balance it found. */
  function Replies(balance: u32, requests: seq<Message>): seq<Reply>
    decreases |requests|
  {
    if requests == [] then []
    else ReplyOf(balance, requests[0]) + Replies(Serve(balance, requests[0]).balance, requests[1..])
  }

  /**
   * The run serves exactly the mailbox's requests before the first
   * close_queue, in order, and sends exactly their handlers' replies.
   */
  lemma {:induction false} LoopServesRequests(balance: u32, inbox: seq<Message>)
    ensures Loop(balance, inbox).served == Requests(inbox)
    ensures Loop(balance, inbox).replies == Replies(balance, Requests(inbox))
    decreases |inbox|
  {
    if inbox != [] {
      var c := ChainOf(Handlers);
      var m := inbox[0];
      assert Kinds(c) == Handlers;
      match Dispatch(c, m)
      case Matched(_) =>
        assert m != CloseQueue && KindOf(m) in Handlers;
        assert Requests(inbox) == [m] + Requests(inbox[1..]);
        LoopServesRequests(Serve(balance, m).balance, inbox[1..]);
        var rs := [m] + Requests(inbox[1..]);
        assert rs[0] == m && rs[1..] == Requests(inbox[1..]);
      case Close =>
      case NoMatch =>
        assert m != CloseQueue && KindOf(m) !in Handlers;
        assert [] + Requests(inbox[1..]) == Requests(inbox[1..]);
        assert Loop(balance, inbox) == Loop(balance, inbox[1..]);
        LoopServesRequests(balance, inbox[1..]);
    }
  }

  /** The bank's whole run conserves money: closing balance plus accepted withdrawals is the opening balance. */
  lemma RunConserves(balance: u32, inbox: seq<Message>)
    ensures var r := Loop(balance, inbox); r.balance as int + Debited(balance, r.served) == balance as int
  {
    LedgerConserves(balance, Loop(balance, inbox).served);
  }

  /** The bank handles only the request kinds it registers. */
  lemma {:induction false} RunServesOnlyRequests(balance: u32, inbox: seq<Message>)
    ensures forall j :: 0 <= j < |Loop(balance, inbox).served| ==> KindOf(Loop(balance, inbox).served[j]) in Handlers
    decreases |inbox|
  {
    match Receive(ChainOf(Handlers), inbox)
    case Handled(_, m, rest) =>
      RunServesOnlyRequests(Serve(balance, m).balance, rest);
    case Shutdown(_) =>
    case Starved =>
  }

  /** run ends only through close_queue: the loop stops exactly when the mailbox holds close_queue. */
  lemma {:induction false} LoopStopsIffClosed(balance: u32, inbox: seq<Message>)
    ensures Loop(balance, inbox).stopped <==> CloseQueue in inbox
    decreases |inbox|
  {
    assert Kinds(ChainOf(Handlers)) == Handlers;
    ReceiveKeepsClose(ChainOf(Handlers), inbox);
    match Receive(ChainOf(Handlers), inbox)
    case Handled(_, m, rest) =>
      LoopStopsIffClosed(Serve(balance, m).balance, rest);
    case Shutdown(_) =>
    case Starved =>
  }

  /** `whole` is what the loop does from its start, `now` what it still does after the replies `sent`. */
  ghost predicate Accounts(whole: Service, now: Service, sent: seq<Reply>)
  {
    whole.balance == now.balance && whole.stopped == now.stopped && whole.rest == now.rest
    && whole.replies == sent + now.replies
  }

  /** One turn of the loop keeps the account of what the whole loop does. */
  lemma LoopAccounts(balance: u32, inbox: seq<Message>, sent: seq<Reply>, whole: Service)
    requires Accounts(whole, Loop(balance, inbox), sent)
    ensures var r := Receive(ChainOf(Handlers), inbox);
            && (r.Handled? ==>
                  Accounts(whole, Loop(Serve(balance, r.msg).balance, r.rest), sent + ReplyOf(balance, r.msg)))
            && (r.Shutdown? ==>
                  whole.balance == balance && whole.stopped && whole.rest == r.rest && whole.replies == sent)
            && (r.Starved? ==>
                  whole.balance == balance && !whole.stopped && whole.rest == [] && whole.replies == sent)
  {
    var r := Receive(ChainOf(Handlers), inbox);
    if r.Handled? {
      var more := Loop(Serve(balance, r.msg).balance, r.rest);
      assert sent + (ReplyOf(balance, r.msg) + more.replies) == (sent + ReplyOf(balance, r.msg)) + more.replies;
    } else {
      assert sent + [] == sent;
    }
  }

  /** Every peer's mailbox holds what it held at `start`, then the replies `sent` addressed to it. */
  ghost predicate Delivered(peers: set<Queue<Message>>, start: map<Queue<Message>, seq<Message>>, sent: seq<Reply>)
    reads peers
  {
    forall p :: p in peers ==> p in start && p.items == start[p] + RepliesTo(p, sent)
  }

  /** A mailbox that held `first` plus the replies `sent`, and then received `extra`, holds `first` plus both. */
  lemma MailboxAdvance(p: Queue<Message>, first: seq<Message>, mid: seq<Message>, last: seq<Message>,
                       sent: seq<Reply>, extra: seq<Reply>)
    requires mid == first + RepliesTo(p, sent) && last == mid + RepliesTo(p, extra)
    ensures last == first + RepliesTo(p, sent + extra)
  {
    RepliesToAppend(p, sent, extra);
  }

  /** The address a request's reply goes to lies in peers (or is unbound). */
  ghost predicate RepliesWithin(items: seq<Message>, peers: set<Queue<Message>>)
  {
    forall j :: 0 <= j < |items| ==> ReplyAddress(items[j]).target == null || ReplyAddress(items[j]).target in peers
  }

  /** A receive keeps reply addresses within peers: for the message it hands over and for what it leaves queued. */
  lemma ReceiveWithin(items: seq<Message>, peers: set<Queue<Message>>, r: Receipt)
    requires RepliesWithin(items, peers) && r == Receive(ChainOf(Handlers), items)
    ensures r.Handled? ==> ReplyAddress(r.msg).target == null || ReplyAddress(r.msg).target in peers
    ensures RepliesWithin(Remaining(r), peers)
  {
    if !r.Starved? {
      ReceiveSpec(ChainOf(Handlers), items);
      var rest := Remaining(r);
      var n := |items| - |rest|;
      assert forall j :: 0 <= j < |rest| ==> rest[j] == items[n + j];
    }
  }

  /** The messages of the replies that go to mailbox p, in order. */
  function RepliesTo(p: Queue<Message>, replies: seq<Reply>): seq<Message>
  {
    if replies == [] then []
    else (if replies[0].to.target == p then [replies[0].msg] else []) + RepliesTo(p, replies[1..])
  }

  /** Filtering by mailbox distributes over concatenation. */
  lemma {:induction false} RepliesToAppend(p: Queue<Message>, a: seq<Reply>, b: seq<Reply>)
    ensures RepliesTo(p, a + b) == RepliesTo(p, a) + RepliesTo(p, b)
    decreases |a|
  {
    if a == [] {
      assert a + b == b;
    } else {
      assert (a + b)[0] == a[0] && (a + b)[1..] == a[1..] + b;
      var head := if a[0].to.target == p then [a[0].msg] else [];
      assert RepliesTo(p, a + b) == head + RepliesTo(p, a[1..] + b);
      assert RepliesTo(p, a) == head + RepliesTo(p, a[1..]);
      RepliesToAppend(p, a[1..], b);
      AppendAssoc(head, RepliesTo(p, a[1..]), RepliesTo(p, b));
    }
  }

  /** The bank actor: its mailbox and its balance. */
  class BankMachine {
    const incoming: Receiver
    var balance: u32

    constructor ()
      ensures balance == OpeningBalance
      ensures fresh(incoming) && fresh(incoming.q) && incoming.q.items == []
    {
      incoming := new Receiver();
      balance := OpeningBalance;
    }

    /** get_sender: a sender bound to the bank's mailbox. */
    function AsSender(): (s: Sender<Message>)
      ensures s.target == incoming.q
    {
      incoming.AsSender()
    }

    /** done: sends close_queue to the bank's own mailbox. */
    method Done()
      modifies incoming.q
      ensures incoming.q.items == old(incoming.q.items) + [CloseQueue]
    {
      Send(AsSender(), CloseQueue);
    }

    /**
     * run: turns of the loop until close_queue ends it (true) or the mailbox
     * runs dry (false, where the source blocks for more input).
     */
    method Run(ghost peers: set<Queue<Message>>) returns (stopped: bool)
      requires incoming.q !in peers && RepliesWithin(incoming.q.items, peers)
      modifies this, incoming.q, peers
      ensures var s := Loop(old(balance), old(incoming.q.items));
              balance == s.balance && stopped == s.stopped && incoming.q.items == s.rest
              && forall p :: p in peers ==> p.items == old(p.items) + RepliesTo(p, s.replies)
    {
      ghost var whole := Loop(balance, incoming.q.items);
      ghost var start := map p | p in peers :: p.items;
      ghost var sent: seq<Reply> := [];
      while true
        invariant RepliesWithin(incoming.q.items, peers)
        invariant Accounts(whole, Loop(balance, incoming.q.items), sent)
        invariant Delivered(peers, start, sent)
        decreases |incoming.q.items|
      {
        var r;
        r, sent := Step(peers, start, whole, sent);
        if !r.Handled? {
          return r.Shutdown?;
        }
      }
    }

    /** One turn of run, with the account of what the whole loop does brought up to date. */
    method Step(ghost peers: set<Queue<Message>>, ghost start: map<Queue<Message>, seq<Message>>,
                ghost whole: Service, ghost sent: seq<Reply>)
      returns (r: Receipt, ghost sent': seq<Reply>)
      requires incoming.q !in peers && RepliesWithin(incoming.q.items, peers)
      requires Accounts(whole, Loop(balance, incoming.q.items), sent)
      requires Delivered(peers, start, sent)
      modifies this, incoming.q, peers
      ensures RepliesWithin(incoming.q.items, peers) && Delivered(peers, start, sent')
      ensures r.Handled? ==>
                Accounts(whole, Loop(balance, incoming.q.items), sent')
                && |incoming.q.items| < |old(incoming.q.items)|
      ensures !r.Handled? ==>
                whole.balance == balance && whole.stopped == r.Shutdown? && whole.rest == incoming.q.items
                && whole.replies == sent'
    {
      ghost var before := balance;
      LoopAccounts(before, incoming.q.items, sent, whole);
      r := ServeNext(peers);
      ghost var extra := if r.Handled? then ReplyOf(before, r.msg) else [];
      sent' := sent + extra;
      forall p | p in peers ensures p in start && p.items == start[p] + RepliesTo(p, sent') {
        assert p.items == old(p.items) + RepliesTo(p, extra);
        MailboxAdvance(p, start[p], old(p.items), p.items, sent, extra);
      }
    }

    /** One turn of the run loop: one selective receive and the handler it picks. */
    method ServeNext(ghost peers: set<Queue<Message>>) returns (r: Receipt)
      requires incoming.q !in peers && RepliesWithin(incoming.q.items, peers)
      modifies this, incoming.q, peers
      ensures r == Receive(ChainOf(Handlers), old(incoming.q.items)) && incoming.q.items == Remaining(r)
      ensures balance == if r.Handled? then Serve(old(balance), r.msg).balance else old(balance)
      ensures r.Handled? ==> forall p :: p in peers ==> p.items == old(p.items) + RepliesTo(p, ReplyOf(old(balance), r.msg))
      ensures !r.Handled? ==> forall p :: p in peers ==> p.items == old(p.items)
      ensures RepliesWithin(incoming.q.items, peers)
    {
      var receives;
      r, receives := incoming.SelectiveReceive(Handlers);
      ReceiveWithin(old(incoming.q.items), peers, r);
      if r.Handled? {
        RunHandler(r.link, r.msg, peers);
      }
    }

    /** The handler of link `link`, run on the message that link matched. */
    method RunHandler(link: nat, m: Message, ghost peers: set<Queue<Message>>)
      requires Dispatch(ChainOf(Handlers), m) == Matched(link)
      requires ReplyAddress(m).target == null || ReplyAddress(m).target in peers
      modifies this, peers
      ensures balance == Serve(old(balance), m).balance
      ensures forall p :: p in peers ==> p.items == old(p.items) + RepliesTo(p, ReplyOf(old(balance), m))
    {
      HandlerOfLink(link, m);
      if link == 0 {
        if m.pin == Secret {
          SendReply(m.atmQueue, PinVerified, peers);
        } else {
          SendReply(m.atmQueue, PinIncorrect, peers);
        }
      } else if link == 1 {
        if balance >= m.amount {
          SendReply(m.atmQueue, WithdrawOk, peers);
          balance := balance - m.amount;
        } else {
          SendReply(m.atmQueue, WithdrawDenied, peers);
        }
      } else if link == 2 {
        SendReply(m.atmQueue, Balance(balance), peers);
      } else {
        forall p | p in peers ensures p.items == old(p.items) + RepliesTo(p, []) {
          assert p.items + [] == p.items;
        }
      }
    }

    /** Sends one reply through `to`: only the mailbox it names, if any, grows. */
    method SendReply(to: Sender<Message>, msg: Message, ghost peers: set<Queue<Message>>)
      requires to.target == null || to.target in peers
      modifies peers
      ensures forall p :: p in peers ==> p.items == old(p.items) + RepliesTo(p, [Reply(to, msg)])
    {
      Send(to, msg);
      forall p | p in peers ensures p.items == old(p.items) + RepliesTo(p, [Reply(to, msg)]) {
        assert [Reply(to, msg)][1..] == [];
        if to.target != p {
          assert p.items + [] == p.items;
        }
      }
    }
  }
}
