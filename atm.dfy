/**
 * The ATM session actor, class atm (action.hpp): a finite state machine
 * whose current state is one of seven member functions.  Each state but
 * done_processing sends its entry notification, then performs one
 * selective receive; the handler that runs updates the session fields,
 * sends to the bank and to the display, and picks the next state.
 *
 * The pure part below gives each state's behaviour as functions of the
 * session and the mailbox (Round for one call of the current state,
 * Rounds for the run loop); class AtmMachine is proved against them.
 */
module Atm {
  import opened Messaging
  import opened Messages
  import opened Dispatchers

  /** The states: the member functions `state` can point to. */
  datatype State =
    | WaitingForCard | GettingPin | VerifyingPin | WaitForAction
    | ProcessWithdrawal | ProcessBalance | DoneProcessing

  /** The fields of atm that the states change. */
  datatype Session = Session(state: State, account: string, pin: string, withdrawalAmount: u32)

  /** `pin_length` of getting_pin. */
  const PinLength: nat := 4

  /** The kinds the state's receive registers, in the order of its handle<> calls. */
  function Accepted(st: State): (ks: seq<Kind>)
    ensures forall a, b :: 0 <= a < b < |ks| ==> ks[a] != ks[b]
    ensures CloseQueueKind !in ks
    ensures CancelPressedKind in ks <==> st != WaitingForCard && st != DoneProcessing
    ensures ks == [] <==> st == DoneProcessing
  {
    match st
    case WaitingForCard => [CardInsertedKind]
    case GettingPin => [DigitPressedKind, ClearLastPressedKind, CancelPressedKind]
    case VerifyingPin => [PinVerifiedKind, PinIncorrectKind, CancelPressedKind]
    case WaitForAction => [WithdrawPressedKind, BalancePressedKind, CancelPressedKind]
    case ProcessWithdrawal => [WithdrawOkKind, WithdrawDeniedKind, CancelPressedKind]
    case ProcessBalance => [BalanceKind, CancelPressedKind]
    case DoneProcessing => []
  }

  /** What a state sends to the display before anything else. */
  function Entry(st: State): seq<Message>
  {
    match st
    case WaitingForCard => [DisplayEnterCard]
    case WaitForAction => [DisplayWithdrawalOptions]
    case DoneProcessing => [EjectCard]
    case _ => []
  }

  /** The transitions of the state machine, as a table. */
  predicate Edge(a: State, b: State)
  {
    || (a == WaitingForCard && b == GettingPin)
    || (a == GettingPin && (b == VerifyingPin || b == DoneProcessing))
    || (a == VerifyingPin && (b == WaitForAction || b == DoneProcessing))
    || (a == WaitForAction && (b == ProcessWithdrawal || b == ProcessBalance || b == DoneProcessing))
    || (a == ProcessWithdrawal && b == DoneProcessing)
    || (a == ProcessBalance && (b == WaitForAction || b == DoneProcessing))
    || (a == DoneProcessing && b == WaitingForCard)
  }

  /** The PIN buffer never holds more than four digits, and holds all four once they are sent. */
  predicate SessionInv(s: Session)
  {
    && (s.state == GettingPin ==> |s.pin| < PinLength)
    && (s.state in {VerifyingPin, WaitForAction, ProcessWithdrawal, ProcessBalance} ==> |s.pin| == PinLength)
  }

  /** What a handler does: the new session and what it sends to the bank and to the display. */
  datatype Effect = Effect(next: Session, toBank: seq<Message>, toDisplay: seq<Message>)

  /**
   * The handler the current state registers for m, run on m.  A message
   * the state registers no handler for changes nothing (the receive drops
   * it before any handler could see it).
   */
  function React(s: Session, m: Message, self: Sender<Message>): Effect
  {
    match s.state
    case WaitingForCard =>
      if m.CardInserted? then
        Effect(s.(state := GettingPin, account := m.account, pin := ""), [], [DisplayEnterPin])
      else Effect(s, [], [])
    case GettingPin =>
      if m.DigitPressed? then
        var pin := s.pin + [m.digit];
        if |pin| == PinLength then
          Effect(s.(state := VerifyingPin, pin := pin), [VerifyPin(s.account, pin, self)], [])
        else Effect(s.(pin := pin), [], [])
      else if m.ClearLastPressed? then
        Effect(s.(pin := if s.pin != [] then s.pin[..|s.pin| - 1] else s.pin), [], [])
      else if m.CancelPressed? then Effect(s.(state := DoneProcessing), [], [])
      else Effect(s, [], [])
    case VerifyingPin =>
      if m.PinVerified? then Effect(s.(state := WaitForAction), [], [])
      else if m.PinIncorrect? then Effect(s.(state := DoneProcessing), [], [DisplayPinIncorrectMessage])
      else if m.CancelPressed? then Effect(s.(state := DoneProcessing), [], [])
      else Effect(s, [], [])
    case WaitForAction =>
      if m.WithdrawPressed? then
        Effect(s.(state := ProcessWithdrawal, withdrawalAmount := m.amount), [Withdraw(s.account, m.amount, self)], [])
      else if m.BalancePressed? then Effect(s.(state := ProcessBalance), [GetBalance(s.account, self)], [])
      else if m.CancelPressed? then Effect(s.(state := DoneProcessing), [], [])
      else Effect(s, [], [])
    case ProcessWithdrawal =>
      if m.WithdrawOk? then
        Effect(s.(state := DoneProcessing),
               [WithdrawalProcessed(s.account, s.withdrawalAmount)], [IssueMoney(s.withdrawalAmount)])
      else if m.WithdrawDenied? then Effect(s.(state := DoneProcessing), [], [DisplayInsufficientFunds])
      else if m.CancelPressed? then
        Effect(s.(state := DoneProcessing),
               [CancelWithdrawal(s.account, s.withdrawalAmount)], [DisplayWithdrawalCancelled])
      else Effect(s, [], [])
    case ProcessBalance =>
      if m.Balance? then Effect(s.(state := WaitForAction), [], [DisplayBalance(m.amount)])
      else if m.CancelPressed? then Effect(s.(state := DoneProcessing), [], [])
      else Effect(s, [], [])
    case DoneProcessing => Effect(s, [], [])
  }

  /**
   * What the handlers promise: a message without a handler changes nothing,
   * every move follows the transition table and keeps the PIN invariant,
   * cancel_pressed always ends the session, and the account and the amount
   * are written only by the handlers that read them from the user.
   */
  lemma ReactSpec(s: Session, m: Message, self: Sender<Message>)
    ensures var e := React(s, m, self);
            && (KindOf(m) !in Accepted(s.state) ==> e == Effect(s, [], []))
            && (e.next.state == s.state || Edge(s.state, e.next.state))
            && (SessionInv(s) ==> SessionInv(e.next))
            && (m.CancelPressed? && CancelPressedKind in Accepted(s.state) ==> e.next.state == DoneProcessing)
            && (e.next.account != s.account ==> s.state == WaitingForCard && m.CardInserted?)
            && (e.next.withdrawalAmount != s.withdrawalAmount ==> s.state == WaitForAction && m.WithdrawPressed?)
  {
  }

  /** How one call of the current state ends. */
  datatype Outcome = Completed | Stopped | Blocked

  /**
   * One call of the current state: how it ends, the session after it,
   * whether it is left blocked inside its receive, the mailbox left, and
   * what it sent.
   */
  datatype Turn = Turn(outcome: Outcome, next: Session, waiting: bool, rest: seq<Message>,
                       toBank: seq<Message>, toDisplay: seq<Message>)

  /** How a receive ends the call of the state that made it. */
  function Ending(r: Receipt): Outcome
  {
    match r
    case Handled(_, _, _) => Completed
    case Shutdown(_) => Stopped
    case Starved => Blocked
  }

  /** What a receiving state does once its receive has ended with r (its entry notification aside). */
  function Finish(s: Session, r: Receipt, self: Sender<Message>): (t: Turn)
    ensures t.outcome == Completed <==> r.Handled?
    ensures t.outcome == Stopped <==> r.Shutdown?
    ensures t.waiting <==> r.Starved?
    ensures t.outcome != Completed ==> t.next == s && t.toBank == [] && t.toDisplay == []
    ensures t.rest == Remaining(r)
  {
    var outcome := Ending(r);
    match r
    case Handled(_, m, rest) =>
      var e := React(s, m, self);
      Turn(outcome, e.next, false, rest, e.toBank, e.toDisplay)
    case Shutdown(rest) => Turn(outcome, s, false, rest, [], [])
    case Starved => Turn(outcome, s, true, [], [], [])
  }

  /** The receive of a state, on a mailbox. */
  function Listen(st: State, inbox: seq<Message>): Receipt
  {
    Receive(ChainOf(Accepted(st)), inbox)
  }

  /**
   * `(this->*state)()` on a mailbox: done_processing ejects the card and
   * goes back to waiting_for_card without receiving; every other state
   * sends its entry notification (unless `waiting` says it is resuming a
   * receive already under way), then runs the handler of the first message
   * its receive accepts, stops on close_queue, or blocks when the mailbox
   * runs dry.
   */
  function Round(s: Session, waiting: bool, inbox: seq<Message>, self: Sender<Message>): (t: Turn)
    ensures t.outcome == Completed ==>
              |t.rest| < |inbox| || (s.state == DoneProcessing && t.rest == inbox && t.next.state == WaitingForCard)
    ensures t.outcome == Stopped ==> t.next == s && t.toBank == [] && s.state != DoneProcessing
    ensures t.outcome == Blocked ==> t.next == s && t.rest == [] && t.toBank == []
    ensures t.waiting <==> t.outcome == Blocked
  {
    if s.state == DoneProcessing then
      Turn(Completed, s.(state := WaitingForCard), false, inbox, [], Entry(DoneProcessing))
    else Call(s, waiting, Listen(s.state, inbox), self)
  }

  /** A receiving state's call whose receive ended with r: its entry notification (unless resuming), then Finish. */
  function Call(s: Session, waiting: bool, r: Receipt, self: Sender<Message>): Turn
  {
    var t := Finish(s, r, self);
    t.(toDisplay := (if waiting then [] else Entry(s.state)) + t.toDisplay)
  }

  /** A call that blocks sends only its entry notification; resumed, it sends nothing more before its handler. */
  lemma CallResumes(s: Session, waiting: bool, r: Receipt, self: Sender<Message>)
    ensures var entry := if waiting then [] else Entry(s.state);
            var t := Call(s, true, r, self);
            && Call(s, waiting, Starved, self) == Turn(Blocked, s, true, [], [], entry)
            && Call(s, waiting, r, self) == t.(toDisplay := entry + t.toDisplay)
  {
    var entry := if waiting then [] else Entry(s.state);
    var f := Finish(s, r, self);
    assert entry + [] == entry && [] + f.toDisplay == f.toDisplay;
  }

  /** What the run loop does with a mailbox and no further input. */
  datatype Run = Run(stopped: bool, last: Session, rest: seq<Message>, toBank: seq<Message>, toDisplay: seq<Message>)

  /** Measure of the run loop: done_processing consumes no message but always leads to a state that does. */
  function Pending(s: Session): nat
  {
    if s.state == DoneProcessing then 1 else 0
  }

  /**
   * atm::run's loop from session s: call the current state until
   * close_queue stops it or it blocks (then it is left waiting inside the
   * receive of r.last's state).
   */
  function Rounds(s: Session, waiting: bool, inbox: seq<Message>, self: Sender<Message>): (r: Run)
    ensures !r.stopped ==> r.rest == []
    decreases |inbox|, Pending(s)
  {
    var t := Round(s, waiting, inbox, self);
    if t.outcome == Completed then
      var more := Rounds(t.next, false, t.rest, self);
      Run(more.stopped, more.last, more.rest, t.toBank + more.toBank, t.toDisplay + more.toDisplay)
    else Run(t.outcome == Stopped, t.next, t.rest, t.toBank, t.toDisplay)
  }

  /** One call of the current state follows the transition table and keeps the PIN invariant. */
  lemma RoundSpec(s: Session, waiting: bool, inbox: seq<Message>, self: Sender<Message>)
    ensures var t := Round(s, waiting, inbox, self);
            (t.next.state == s.state || Edge(s.state, t.next.state)) && (SessionInv(s) ==> SessionInv(t.next))
  {
    var r := Listen(s.state, inbox);
    if s.state != DoneProcessing && r.Handled? {
      ReactSpec(s, r.msg, self);
    }
  }

  /** The run loop keeps the PIN invariant in every session it reaches. */
  lemma {:induction false} RunKeepsInv(s: Session, waiting: bool, inbox: seq<Message>, self: Sender<Message>)
    requires SessionInv(s)
    ensures SessionInv(Rounds(s, waiting, inbox, self).last)
    decreases |inbox|, Pending(s)
  {
    var t := Round(s, waiting, inbox, self);
    RoundSpec(s, waiting, inbox, self);
    if t.outcome == Completed {
      RunKeepsInv(t.next, false, t.rest, self);
    }
  }

  /** One call of the current state: close_queue stops it only if queued, and survives a handled message. */
  lemma RoundKeepsClose(s: Session, waiting: bool, inbox: seq<Message>, self: Sender<Message>)
    ensures var t := Round(s, waiting, inbox, self);
            (t.outcome == Stopped ==> CloseQueue in inbox)
            && (t.outcome == Blocked ==> CloseQueue !in inbox)
            && (t.outcome == Completed ==> (CloseQueue in inbox <==> CloseQueue in t.rest))
  {
    if s.state != DoneProcessing {
      ReceiveKeepsClose(ChainOf(Accepted(s.state)), inbox);
    }
  }

  /**
   * run ends only through close_queue: the loop stops exactly when the
   * mailbox holds close_queue, and otherwise it blocks with the mailbox
   * drained.
   */
  lemma {:induction false} RunStopsIffClosed(s: Session, waiting: bool, inbox: seq<Message>, self: Sender<Message>)
    ensures Rounds(s, waiting, inbox, self).stopped <==> CloseQueue in inbox
    decreases |inbox|, Pending(s)
  {
    var t := Round(s, waiting, inbox, self);
    RoundKeepsClose(s, waiting, inbox, self);
    if t.outcome == Completed {
      RunStopsIffClosed(t.next, false, t.rest, self);
    }
  }

  /** close_queue at the head of the mailbox stops any receiving state before a handler runs. */
  lemma CloseStopsBeforeAnyHandler(s: Session, waiting: bool, rest: seq<Message>, self: Sender<Message>)
    requires s.state != DoneProcessing
    ensures Round(s, waiting, [CloseQueue] + rest, self)
            == Turn(Stopped, s, false, rest, [], if waiting then [] else Entry(s.state))
  {
    var ks := Accepted(s.state);
    assert Kinds(ChainOf(ks)) == ks;
    ReceiveCloseFirst(ChainOf(ks), rest);
    assert Round(s, waiting, [CloseQueue] + rest, self) == Call(s, waiting, Shutdown(rest), self);
    CallStops(s, waiting, rest, self);
  }

  /** A receiving state's call whose receive shut down sends only its entry notification. */
  lemma CallStops(s: Session, waiting: bool, rest: seq<Message>, self: Sender<Message>)
    ensures Call(s, waiting, Shutdown(rest), self) == Turn(Stopped, s, false, rest, [], if waiting then [] else Entry(s.state))
  {
    var entry := if waiting then [] else Entry(s.state);
    assert entry + [] == entry;
  }

  /**
   * Messages the current state registers no handler for (other than
   * close_queue) are dropped: they change neither the session nor what is
   * sent.
   */
  lemma DroppedChangeNothing(s: Session, waiting: bool, dropped: seq<Message>, inbox: seq<Message>, self: Sender<Message>)
    requires s.state != DoneProcessing
    requires forall j :: 0 <= j < |dropped| ==> KindOf(dropped[j]) !in Accepted(s.state) && !dropped[j].CloseQueue?
    ensures Round(s, waiting, dropped + inbox, self) == Round(s, waiting, inbox, self)
  {
    var c := ChainOf(Accepted(s.state));
    forall j | 0 <= j < |dropped| ensures Dispatch(c, dropped[j]).NoMatch? {
    }
    ReceiveSkipsUnmatched(c, dropped, inbox);
  }

  /**
   * waiting_for_card: only card_inserted leaves the state; it records the
   * account, clears the PIN and asks for it.
   */
  lemma OnlyCardInsertedStartsSession(s: Session, waiting: bool, inbox: seq<Message>, self: Sender<Message>)
    requires s.state == WaitingForCard
    ensures var t := Round(s, waiting, inbox, self);
            t.next.state != WaitingForCard <==> t.outcome == Completed
    ensures var t := Round(s, waiting, inbox, self);
            t.outcome == Completed ==>
              var m := inbox[|inbox| - |t.rest| - 1];
              m.CardInserted? && t.next == Session(GettingPin, m.account, "", s.withdrawalAmount)
              && t.toBank == [] && t.toDisplay == (if waiting then [] else [DisplayEnterCard]) + [DisplayEnterPin]
  {
    var r := Listen(s.state, inbox);
    var t := Round(s, waiting, inbox, self);
    assert t == Call(s, waiting, r, self);
    if r.Handled? {
      ReceiveTaken(ChainOf(Accepted(s.state)), inbox);
      MatchedKind(Accepted(s.state), r.msg, r.link);
      KindOfTags(r.msg);
      CardCall(s, waiting, r, self);
      assert t.rest == r.rest;
      assert inbox[|inbox| - |t.rest| - 1] == r.msg;
    } else {
      CardCall(s, waiting, r, self);
    }
  }

  /** The waiting_for_card call, given a receipt whose handled message is a card_inserted. */
  lemma CardCall(s: Session, waiting: bool, r: Receipt, self: Sender<Message>)
    requires s.state == WaitingForCard
    requires r.Handled? ==> r.msg.CardInserted?
    ensures var t := Call(s, waiting, r, self);
            && (t.next.state != WaitingForCard <==> r.Handled?)
            && (t.outcome == Completed <==> r.Handled?)
            && t.rest == Remaining(r)
            && (r.Handled? ==>
                  t.next == Session(GettingPin, r.msg.account, "", s.withdrawalAmount)
                  && t.toBank == [] && t.toDisplay == (if waiting then [] else [DisplayEnterCard]) + [DisplayEnterPin])
  {
  }

  /** A receiving state whose handler matches the head of its mailbox runs that handler on it. */
  lemma RoundHandlesHead(s: Session, waiting: bool, m: Message, rest: seq<Message>, self: Sender<Message>)
    requires s.state != DoneProcessing && KindOf(m) in Accepted(s.state)
    ensures var e := React(s, m, self);
            Round(s, waiting, [m] + rest, self)
            == Turn(Completed, e.next, false, rest, e.toBank, (if waiting then [] else Entry(s.state)) + e.toDisplay)
  {
    var c := ChainOf(Accepted(s.state));
    var inbox := [m] + rest;
    assert Kinds(c) == Accepted(s.state);
    assert inbox[0] == m && inbox[1..] == rest;
    assert Dispatch(c, m).Matched?;
    assert Listen(s.state, inbox) == Handled(Dispatch(c, m).link, m, rest);
  }

  /**
   * getting_pin: a digit is appended to the PIN, and the fourth sends the
   * account and the PIN to the bank; clear_last_pressed drops the last digit
   * if there is one; cancel_pressed ends the session.  Nothing goes to the
   * display.
   */
  lemma GettingPinCall(s: Session, waiting: bool, m: Message, rest: seq<Message>, self: Sender<Message>)
    requires s.state == GettingPin && KindOf(m) in Accepted(GettingPin)
    ensures var t := Round(s, waiting, [m] + rest, self);
            && t.outcome == Completed && t.rest == rest && t.toDisplay == []
            && (m.DigitPressed? && |s.pin| + 1 == PinLength ==>
                  t.next == s.(state := VerifyingPin, pin := s.pin + [m.digit])
                  && t.toBank == [VerifyPin(s.account, s.pin + [m.digit], self)])
            && (m.DigitPressed? && |s.pin| + 1 != PinLength ==> t.next == s.(pin := s.pin + [m.digit]) && t.toBank == [])
            && (m.ClearLastPressed? ==>
                  t.next == s.(pin := if s.pin == [] then [] else s.pin[..|s.pin| - 1]) && t.toBank == [])
            && (m.CancelPressed? ==> t.next == s.(state := DoneProcessing) && t.toBank == [])
  {
    RoundHandlesHead(s, waiting, m, rest, self);
    KindOfTags(m);
  }

  /** verifying_pin: the bank's verdict either opens the menu or ends the session with a message; cancel ends it. */
  lemma VerifyingPinCall(s: Session, waiting: bool, m: Message, rest: seq<Message>, self: Sender<Message>)
    requires s.state == VerifyingPin && KindOf(m) in Accepted(VerifyingPin)
    ensures var t := Round(s, waiting, [m] + rest, self);
            && t.outcome == Completed && t.rest == rest && t.toBank == []
            && (m.PinVerified? ==> t.next == s.(state := WaitForAction) && t.toDisplay == [])
            && (m.PinIncorrect? ==> t.next == s.(state := DoneProcessing) && t.toDisplay == [DisplayPinIncorrectMessage])
            && (m.CancelPressed? ==> t.next == s.(state := DoneProcessing) && t.toDisplay == [])
  {
    RoundHandlesHead(s, waiting, m, rest, self);
    KindOfTags(m);
  }

  /**
   * wait_for_action: shows the options, then a withdrawal records the amount
   * and asks the bank for it, a balance request asks the bank for the
   * balance, and cancel ends the session.
   */
  lemma WaitForActionCall(s: Session, waiting: bool, m: Message, rest: seq<Message>, self: Sender<Message>)
    requires s.state == WaitForAction && KindOf(m) in Accepted(WaitForAction)
    ensures var t := Round(s, waiting, [m] + rest, self);
            && t.outcome == Completed && t.rest == rest
            && t.toDisplay == (if waiting then [] else [DisplayWithdrawalOptions])
            && (m.WithdrawPressed? ==>
                  t.next == s.(state := ProcessWithdrawal, withdrawalAmount := m.amount)
                  && t.toBank == [Withdraw(s.account, m.amount, self)])
            && (m.BalancePressed? ==> t.next == s.(state := ProcessBalance) && t.toBank == [GetBalance(s.account, self)])
            && (m.CancelPressed? ==> t.next == s.(state := DoneProcessing) && t.toBank == [])
  {
    RoundHandlesHead(s, waiting, m, rest, self);
    KindOfTags(m);
    assert [DisplayWithdrawalOptions] + [] == [DisplayWithdrawalOptions];
  }

  /**
   * process_withdrawal: an approval issues the money and confirms the
   * withdrawal to the bank, a refusal reports insufficient funds, and cancel
   * withdraws the request from the bank and says so; all three end the
   * session.
   */
  lemma ProcessWithdrawalCall(s: Session, waiting: bool, m: Message, rest: seq<Message>, self: Sender<Message>)
    requires s.state == ProcessWithdrawal && KindOf(m) in Accepted(ProcessWithdrawal)
    ensures var t := Round(s, waiting, [m] + rest, self);
            && t.outcome == Completed && t.rest == rest && t.next == s.(state := DoneProcessing)
            && (m.WithdrawOk? ==>
                  t.toBank == [WithdrawalProcessed(s.account, s.withdrawalAmount)]
                  && t.toDisplay == [IssueMoney(s.withdrawalAmount)])
            && (m.WithdrawDenied? ==> t.toBank == [] && t.toDisplay == [DisplayInsufficientFunds])
            && (m.CancelPressed? ==>
                  t.toBank == [CancelWithdrawal(s.account, s.withdrawalAmount)]
                  && t.toDisplay == [DisplayWithdrawalCancelled])
  {
    RoundHandlesHead(s, waiting, m, rest, self);
    KindOfTags(m);
  }

  /** process_balance: the bank's answer is shown and the menu comes back; cancel ends the session. */
  lemma ProcessBalanceCall(s: Session, waiting: bool, m: Message, rest: seq<Message>, self: Sender<Message>)
    requires s.state == ProcessBalance && KindOf(m) in Accepted(ProcessBalance)
    ensures var t := Round(s, waiting, [m] + rest, self);
            && t.outcome == Completed && t.rest == rest && t.toBank == []
            && (m.Balance? ==> t.next == s.(state := WaitForAction) && t.toDisplay == [DisplayBalance(m.amount)])
            && (m.CancelPressed? ==> t.next == s.(state := DoneProcessing) && t.toDisplay == [])
  {
    RoundHandlesHead(s, waiting, m, rest, self);
    KindOfTags(m);
  }

  /** done_processing: ejects the card and returns to waiting_for_card without receiving anything. */
  lemma DoneProcessingCall(s: Session, waiting: bool, inbox: seq<Message>, self: Sender<Message>)
    requires s.state == DoneProcessing
    ensures Round(s, waiting, inbox, self) == Turn(Completed, s.(state := WaitingForCard), false, inbox, [], [EjectCard])
  {
  }

  /**
   * Blocking and resuming: when the current state's receive runs dry on
   * `first`, the later call on `second` picks up the same receive, and the
   * two together do what one call on `first + second` does.
   */
  lemma ResumeRound(s: Session, waiting: bool, first: seq<Message>, second: seq<Message>, self: Sender<Message>)
    requires Round(s, waiting, first, self).outcome == Blocked
    ensures var t1 := Round(s, waiting, first, self);
            var t2 := Round(t1.next, t1.waiting, second, self);
            Round(s, waiting, first + second, self) == t2.(toDisplay := t1.toDisplay + t2.toDisplay)
  {
    var c := ChainOf(Accepted(s.state));
    assert s.state != DoneProcessing;
    ReceiveStarvedSpec(c, first);
    ReceiveSkipsUnmatched(c, first, second);
    CallResumes(s, waiting, Listen(s.state, second), self);
  }

  /** A call that completes on `first` does the same when more input is queued behind it. */
  lemma RoundOnLongerMailbox(s: Session, waiting: bool, first: seq<Message>, second: seq<Message>, self: Sender<Message>)
    requires Round(s, waiting, first, self).outcome != Blocked
    ensures var t := Round(s, waiting, first, self);
            Round(s, waiting, first + second, self) == t.(rest := t.rest + second)
  {
    if s.state != DoneProcessing {
      ReceiveIgnoresLaterInput(ChainOf(Accepted(s.state)), first, second);
    }
  }

  /** The run loop, blocked on `first` and resumed on `second`, does what one run on `first + second` does. */
  lemma {:induction false} ResumeRun(s: Session, waiting: bool, first: seq<Message>, second: seq<Message>,
                                     self: Sender<Message>)
    requires !Rounds(s, waiting, first, self).stopped
    ensures var r1 := Rounds(s, waiting, first, self);
            var r2 := Rounds(r1.last, true, second, self);
            Rounds(s, waiting, first + second, self)
            == Run(r2.stopped, r2.last, r2.rest, r1.toBank + r2.toBank, r1.toDisplay + r2.toDisplay)
    decreases |first|, Pending(s)
  {
    var t := Round(s, waiting, first, self);
    if t.outcome == Blocked {
      ResumeBlockedRound(s, waiting, first, second, self);
    } else {
      var more := Rounds(t.next, false, t.rest, self);
      ResumeRun(t.next, false, t.rest, second, self);
      ResumeAfterCompletedRound(s, waiting, first, second, self);
    }
  }

  /** ResumeRun when the first call already blocks. */
  lemma ResumeBlockedRound(s: Session, waiting: bool, first: seq<Message>, second: seq<Message>, self: Sender<Message>)
    requires Round(s, waiting, first, self).outcome == Blocked
    ensures var r1 := Rounds(s, waiting, first, self);
            var r2 := Rounds(r1.last, true, second, self);
            Rounds(s, waiting, first + second, self)
            == Run(r2.stopped, r2.last, r2.rest, r1.toBank + r2.toBank, r1.toDisplay + r2.toDisplay)
  {
    var t := Round(s, waiting, first, self);
    ResumeRound(s, waiting, first, second, self);
    RoundsShareTail(s, waiting, first + second, true, second, t.toDisplay, self);
    var r2 := Rounds(s, true, second, self);
    assert [] + r2.toBank == r2.toBank;
  }

  /** Two runs whose first calls differ only by a prefix d of what they display differ in the same way. */
  lemma RoundsShareTail(s: Session, w1: bool, in1: seq<Message>, w2: bool, in2: seq<Message>, d: seq<Message>,
                        self: Sender<Message>)
    requires var t2 := Round(s, w2, in2, self);
             Round(s, w1, in1, self) == t2.(toDisplay := d + t2.toDisplay)
    ensures var r2 := Rounds(s, w2, in2, self);
            Rounds(s, w1, in1, self) == r2.(toDisplay := d + r2.toDisplay)
  {
    var t2 := Round(s, w2, in2, self);
    if t2.outcome == Completed {
      var more := Rounds(t2.next, false, t2.rest, self);
      AppendAssoc(d, t2.toDisplay, more.toDisplay);
    }
  }

  /** ResumeRun's inductive step: a first call that completes, followed by the rest of the run. */
  lemma ResumeAfterCompletedRound(s: Session, waiting: bool, first: seq<Message>, second: seq<Message>,
                                  self: Sender<Message>)
    requires Round(s, waiting, first, self).outcome == Completed
    requires var t := Round(s, waiting, first, self);
             var more := Rounds(t.next, false, t.rest, self);
             var r2 := Rounds(more.last, true, second, self);
             !more.stopped
             && Rounds(t.next, false, t.rest + second, self)
                == Run(r2.stopped, r2.last, r2.rest, more.toBank + r2.toBank, more.toDisplay + r2.toDisplay)
    ensures var r1 := Rounds(s, waiting, first, self);
            var r2 := Rounds(r1.last, true, second, self);
            Rounds(s, waiting, first + second, self)
            == Run(r2.stopped, r2.last, r2.rest, r1.toBank + r2.toBank, r1.toDisplay + r2.toDisplay)
  {
    var t := Round(s, waiting, first, self);
    RoundOnLongerMailbox(s, waiting, first, second, self);
    var more := Rounds(t.next, false, t.rest, self);
    var r2 := Rounds(more.last, true, second, self);
    AppendAssoc(t.toBank, more.toBank, r2.toBank);
    AppendAssoc(t.toDisplay, more.toDisplay, r2.toDisplay);
  }

  /**
   * A call's effect on the actor: the outcome, the session, whether it is
   * left inside its receive, its mailbox, and the bank's and the display's
   * mailboxes, before (0) and after (1).
   */
  ghost predicate Performed(t: Turn, outcome: Outcome, next: Session, resuming: bool, rest: seq<Message>,
                            bank0: seq<Message>, bank1: seq<Message>, display0: seq<Message>, display1: seq<Message>)
  {
    outcome == t.outcome && next == t.next && resuming == t.waiting && rest == t.rest
    && bank1 == bank0 + t.toBank && display1 == display0 + t.toDisplay
  }

  /** `whole` is what the run loop does from its start, `now` what it still does after it sent `bank` and `display`. */
  ghost predicate Tracks(whole: Run, now: Run, bank: seq<Message>, display: seq<Message>)
  {
    whole.stopped == now.stopped && whole.last == now.last && whole.rest == now.rest
    && whole.toBank == bank + now.toBank && whole.toDisplay == display + now.toDisplay
  }

  /** One call of the run loop keeps the account of what the whole loop does. */
  lemma RoundsAccount(whole: Run, s: Session, waiting: bool, inbox: seq<Message>, self: Sender<Message>,
                      bank: seq<Message>, display: seq<Message>)
    requires Tracks(whole, Rounds(s, waiting, inbox, self), bank, display)
    ensures var t := Round(s, waiting, inbox, self);
            && (t.outcome == Completed ==>
                  Tracks(whole, Rounds(t.next, false, t.rest, self), bank + t.toBank, display + t.toDisplay))
            && (t.outcome != Completed ==>
                  whole == Run(t.outcome == Stopped, t.next, t.rest, bank + t.toBank, display + t.toDisplay))
  {
    var t := Round(s, waiting, inbox, self);
    if t.outcome == Completed {
      var more := Rounds(t.next, false, t.rest, self);
      AppendAssoc(bank, t.toBank, more.toBank);
      AppendAssoc(display, t.toDisplay, more.toDisplay);
    }
  }

  /**
   * A receiving state's call, read off its receipt: the entry notification
   * (unless resuming), then the handler's effect when a message was
   * handled, and no other change when the receive stopped or ran dry.
   */
  lemma ReceivingCall(s: Session, waiting: bool, inbox: seq<Message>, self: Sender<Message>, r: Receipt,
                      outcome: Outcome, next: Session, resuming: bool, rest: seq<Message>,
                      bank0: seq<Message>, bank1: seq<Message>,
                      display0: seq<Message>, display1: seq<Message>, display2: seq<Message>)
    requires s.state != DoneProcessing && r == Listen(s.state, inbox) && rest == Remaining(r)
    requires display1 == if waiting || Entry(s.state) == [] then display0 else display0 + Entry(s.state)
    requires var f := Finish(s, r, self);
             && outcome == f.outcome && next == f.next && resuming == f.waiting
             && bank1 == bank0 + f.toBank && display2 == display1 + f.toDisplay
    ensures Performed(Round(s, waiting, inbox, self), outcome, next, resuming, rest, bank0, bank1, display0, display2)
  {
    var f := Finish(s, r, self);
    var entry := if waiting then [] else Entry(s.state);
    assert Round(s, waiting, inbox, self) == Call(s, waiting, r, self) == f.(toDisplay := entry + f.toDisplay);
    assert display1 == display0 + entry by {
      if entry == [] {
        assert display0 + [] == display0;
      }
    }
    AppendAssoc(display0, entry, f.toDisplay);
  }

  /** The ATM actor: its mailbox, the senders to the bank and the display, and its session fields. */
  class AtmMachine {
    const incoming: Receiver
    const bank: Sender<Message>
    const interfaceHardware: Sender<Message>
    var state: State
    var account: string
    var withdrawalAmount: u32
    var pin: string
    /** Set while a call is left inside its receive, waiting for more input (where the source thread blocks). */
    var resuming: bool

    /** atm(bank, interface_hardware); state and the session fields get definite starting values. */
    constructor (bank: Sender<Message>, interfaceHardware: Sender<Message>)
      ensures this.bank == bank && this.interfaceHardware == interfaceHardware
      ensures fresh(incoming) && fresh(incoming.q) && incoming.q.items == []
      ensures Current() == Session(WaitingForCard, "", "", 0) && !resuming
    {
      this.bank := bank;
      this.interfaceHardware := interfaceHardware;
      incoming := new Receiver();
      state := WaitingForCard;
      account := "";
      withdrawalAmount := 0;
      pin := "";
      resuming := false;
    }

    /** The session fields as a value. */
    function Current(): Session
      reads this
    {
      Session(state, account, pin, withdrawalAmount)
    }

    /** get_sender: a sender bound to the ATM's mailbox. */
    function Self(): (s: Sender<Message>)
      ensures s.target == incoming.q
    {
      incoming.AsSender()
    }

    /** The bank and the display are reachable, and the three mailboxes are distinct. */
    predicate Wired()
    {
      bank.Bound() && interfaceHardware.Bound()
      && bank.target != interfaceHardware.target
      && bank.target != incoming.q && interfaceHardware.target != incoming.q
    }

    /** done: sends close_queue to the ATM's own mailbox. */
    method Done()
      modifies incoming.q
      ensures incoming.q.items == old(incoming.q.items) + [CloseQueue]
    {
      Send(Self(), CloseQueue);
    }

    /** run: starts in waiting_for_card and calls the current state until close_queue. */
    method Run() returns (stopped: bool)
      requires Wired()
      modifies this, incoming.q, bank.Frame(), interfaceHardware.Frame()
      ensures var r := Rounds(old(Current()).(state := WaitingForCard), false, old(incoming.q.items), Self());
              && stopped == r.stopped && Current() == r.last && resuming == !r.stopped && incoming.q.items == r.rest
              && bank.target.items == old(bank.target.items) + r.toBank
              && interfaceHardware.target.items == old(interfaceHardware.target.items) + r.toDisplay
    {
      state := WaitingForCard;
      resuming := false;
      stopped := Resume();
    }

    /** The loop of run, from the current state (and, when resuming, from inside its receive). */
    method Resume() returns (stopped: bool)
      requires Wired()
      modifies this, incoming.q, bank.Frame(), interfaceHardware.Frame()
      ensures var r := Rounds(old(Current()), old(resuming), old(incoming.q.items), Self());
              && stopped == r.stopped && Current() == r.last && resuming == !r.stopped && incoming.q.items == r.rest
              && bank.target.items == old(bank.target.items) + r.toBank
              && interfaceHardware.target.items == old(interfaceHardware.target.items) + r.toDisplay
    {
      ghost var whole := Rounds(Current(), resuming, incoming.q.items, Self());
      ghost var bank0, display0 := bank.target.items, interfaceHardware.target.items;
      ghost var sentBank: seq<Message>, sentDisplay: seq<Message> := [], [];
      assert [] + whole.toBank == whole.toBank && [] + whole.toDisplay == whole.toDisplay;
      assert bank0 + [] == bank0 && display0 + [] == display0;
      while true
        invariant Tracks(whole, Rounds(Current(), resuming, incoming.q.items, Self()), sentBank, sentDisplay)
        invariant bank.target.items == bank0 + sentBank
        invariant interfaceHardware.target.items == display0 + sentDisplay
        decreases |incoming.q.items|, Pending(Current())
      {
        var outcome;
        outcome, sentBank, sentDisplay := Step(whole, bank0, display0, sentBank, sentDisplay);
        if outcome != Completed {
          return outcome == Stopped;
        }
      }
    }

    /** One call of run's loop, with the account of what the whole loop does brought up to date. */
    method Step(ghost whole: Run, ghost bank0: seq<Message>, ghost display0: seq<Message>,
                ghost sentBank: seq<Message>, ghost sentDisplay: seq<Message>)
      returns (outcome: Outcome, ghost bank': seq<Message>, ghost display': seq<Message>)
      requires Wired()
      requires Tracks(whole, Rounds(Current(), resuming, incoming.q.items, Self()), sentBank, sentDisplay)
      requires bank.target.items == bank0 + sentBank && interfaceHardware.target.items == display0 + sentDisplay
      modifies this, incoming.q, bank.Frame(), interfaceHardware.Frame()
      ensures bank.target.items == bank0 + bank' && interfaceHardware.target.items == display0 + display'
      ensures outcome == Completed ==>
                !resuming && Tracks(whole, Rounds(Current(), false, incoming.q.items, Self()), bank', display')
                && (|incoming.q.items| < |old(incoming.q.items)|
                    || (|incoming.q.items| == |old(incoming.q.items)| && Pending(Current()) < Pending(old(Current()))))
      ensures outcome != Completed ==>
                whole.stopped == (outcome == Stopped) && whole.last == Current() && whole.rest == incoming.q.items
                && whole.toBank == bank' && whole.toDisplay == display'
                && resuming == (outcome == Blocked)
    {
      ghost var t := Round(Current(), resuming, incoming.q.items, Self());
      RoundsAccount(whole, Current(), resuming, incoming.q.items, Self(), sentBank, sentDisplay);
      outcome := CallState();
      AppendAssoc(bank0, sentBank, t.toBank);
      AppendAssoc(display0, sentDisplay, t.toDisplay);
      bank', display' := sentBank + t.toBank, sentDisplay + t.toDisplay;
    }

    /** `(this->*state)()`: calls the member function the current state names. */
    method CallState() returns (outcome: Outcome)
      requires Wired()
      modifies this, incoming.q, bank.Frame(), interfaceHardware.Frame()
      ensures Performed(Round(old(Current()), old(resuming), old(incoming.q.items), Self()),
                        outcome, Current(), resuming, incoming.q.items,
                        old(bank.target.items), bank.target.items,
                        old(interfaceHardware.target.items), interfaceHardware.target.items)
    {
      match state
      case WaitingForCard => outcome := WaitingForCardState();
      case GettingPin => outcome := GettingPinState();
      case VerifyingPin => outcome := VerifyingPinState();
      case WaitForAction => outcome := WaitForActionState();
      case ProcessWithdrawal => outcome := ProcessWithdrawalState();
      case ProcessBalance => outcome := ProcessBalanceState();
      case DoneProcessing => outcome := DoneProcessingState();
    }

    /** waiting_for_card: asks for a card, then waits for one. */
    method WaitingForCardState() returns (outcome: Outcome)
      requires Wired() && state == WaitingForCard
      modifies this, incoming.q, bank.Frame(), interfaceHardware.Frame()
      ensures Performed(Round(old(Current()), old(resuming), old(incoming.q.items), Self()),
                        outcome, Current(), resuming, incoming.q.items,
                        old(bank.target.items), bank.target.items,
                        old(interfaceHardware.target.items), interfaceHardware.target.items)
    {
      ghost var s0, inbox := Current(), incoming.q.items;
      ghost var bank0, display0 := bank.target.items, interfaceHardware.target.items;
      if !resuming {
        Send(interfaceHardware, DisplayEnterCard);
      }
      assert Current() == s0 && bank.target.items == bank0 && incoming.q.items == inbox;
      ghost var display1 := interfaceHardware.target.items;
      var r, _ := incoming.SelectiveReceive([CardInsertedKind]);
      assert r == Listen(s0.state, inbox);
      assert Current() == s0 && bank.target.items == bank0 && interfaceHardware.target.items == display1;
      ghost var rest := incoming.q.items;
      if r.Handled? {
        MatchedKind(Accepted(state), r.msg, r.link);
      }
      outcome := WaitingForCardHandlers(r, s0);
      assert incoming.q.items == rest;
      ReceivingCall(s0, old(resuming), inbox, Self(), r, outcome, Current(), resuming, rest,
                    bank0, bank.target.items, display0, display1, interfaceHardware.target.items);
    }

    /** The handler waiting_for_card registers: card_inserted records the account and asks for the PIN. */
    method WaitingForCardHandlers(r: Receipt, ghost s: Session) returns (outcome: Outcome)
      requires Wired() && state == WaitingForCard && s == Current()
      requires r.Handled? ==> r.link < |Accepted(state)| && KindOf(r.msg) == Accepted(state)[r.link]
      modifies this, bank.Frame(), interfaceHardware.Frame()
      ensures var f := Finish(s, r, Self());
              && outcome == f.outcome && Current() == f.next && resuming == f.waiting
              && bank.target.items == old(bank.target.items) + f.toBank
              && interfaceHardware.target.items == old(interfaceHardware.target.items) + f.toDisplay
      ensures incoming.q.items == old(incoming.q.items)
    {
      if r.Handled? {
        account := r.msg.account;
        pin := "";
        Send(interfaceHardware, DisplayEnterPin);
        state := GettingPin;
      }
      outcome, resuming := Ending(r), r.Starved?;
    }

    /** getting_pin: waits for a key press. */
    method GettingPinState() returns (outcome: Outcome)
      requires Wired() && state == GettingPin
      modifies this, incoming.q, bank.Frame(), interfaceHardware.Frame()
      ensures Performed(Round(old(Current()), old(resuming), old(incoming.q.items), Self()),
                        outcome, Current(), resuming, incoming.q.items,
                        old(bank.target.items), bank.target.items,
                        old(interfaceHardware.target.items), interfaceHardware.target.items)
    {
      ghost var s0, inbox := Current(), incoming.q.items;
      ghost var bank0, display0 := bank.target.items, interfaceHardware.target.items;
      ghost var display1 := interfaceHardware.target.items;
      var r, _ := incoming.SelectiveReceive([DigitPressedKind, ClearLastPressedKind, CancelPressedKind]);
      assert r == Listen(s0.state, inbox);
      assert Current() == s0 && bank.target.items == bank0 && interfaceHardware.target.items == display1;
      ghost var rest := incoming.q.items;
      if r.Handled? {
        MatchedKind(Accepted(state), r.msg, r.link);
      }
      outcome := GettingPinHandlers(r, s0);
      assert incoming.q.items == rest;
      ReceivingCall(s0, old(resuming), inbox, Self(), r, outcome, Current(), resuming, rest,
                    bank0, bank.target.items, display0, display1, interfaceHardware.target.items);
    }

    /** The handlers getting_pin registers: a digit (the fourth goes to the bank), clear-last, cancel. */
    method GettingPinHandlers(r: Receipt, ghost s: Session) returns (outcome: Outcome)
      requires Wired() && state == GettingPin && s == Current()
      requires r.Handled? ==> r.link < |Accepted(state)| && KindOf(r.msg) == Accepted(state)[r.link]
      modifies this, bank.Frame(), interfaceHardware.Frame()
      ensures var f := Finish(s, r, Self());
              && outcome == f.outcome && Current() == f.next && resuming == f.waiting
              && bank.target.items == old(bank.target.items) + f.toBank
              && interfaceHardware.target.items == old(interfaceHardware.target.items) + f.toDisplay
      ensures incoming.q.items == old(incoming.q.items)
    {
      if r.Handled? {
        if r.link == 0 {
          pin := pin + [r.msg.digit];
          if |pin| == PinLength {
            Send(bank, VerifyPin(account, pin, Self()));
            state := VerifyingPin;
          }
        } else if r.link == 1 {
          if pin != [] {
            pin := pin[..|pin| - 1];
          }
        } else {
          state := DoneProcessing;
        }
      }
      outcome, resuming := Ending(r), r.Starved?;
    }

    /** verifying_pin: waits for the bank's verdict on the PIN. */
    method VerifyingPinState() returns (outcome: Outcome)
      requires Wired() && state == VerifyingPin
      modifies this, incoming.q, bank.Frame(), interfaceHardware.Frame()
      ensures Performed(Round(old(Current()), old(resuming), old(incoming.q.items), Self()),
                        outcome, Current(), resuming, incoming.q.items,
                        old(bank.target.items), bank.target.items,
                        old(interfaceHardware.target.items), interfaceHardware.target.items)
    {
      ghost var s0, inbox := Current(), incoming.q.items;
      ghost var bank0, display0 := bank.target.items, interfaceHardware.target.items;
      ghost var display1 := interfaceHardware.target.items;
      var r, _ := incoming.SelectiveReceive([PinVerifiedKind, PinIncorrectKind, CancelPressedKind]);
      assert r == Listen(s0.state, inbox);
      assert Current() == s0 && bank.target.items == bank0 && interfaceHardware.target.items == display1;
      ghost var rest := incoming.q.items;
      if r.Handled? {
        MatchedKind(Accepted(state), r.msg, r.link);
      }
      outcome := VerifyingPinHandlers(r, s0);
      assert incoming.q.items == rest;
      ReceivingCall(s0, old(resuming), inbox, Self(), r, outcome, Current(), resuming, rest,
                    bank0, bank.target.items, display0, display1, interfaceHardware.target.items);
    }

    /** The handlers verifying_pin registers: verified, incorrect (shown), cancel. */
    method VerifyingPinHandlers(r: Receipt, ghost s: Session) returns (outcome: Outcome)
      requires Wired() && state == VerifyingPin && s == Current()
      requires r.Handled? ==> r.link < |Accepted(state)| && KindOf(r.msg) == Accepted(state)[r.link]
      modifies this, bank.Frame(), interfaceHardware.Frame()
      ensures var f := Finish(s, r, Self());
              && outcome == f.outcome && Current() == f.next && resuming == f.waiting
              && bank.target.items == old(bank.target.items) + f.toBank
              && interfaceHardware.target.items == old(interfaceHardware.target.items) + f.toDisplay
      ensures incoming.q.items == old(incoming.q.items)
    {
      if r.Handled? {
        if r.link == 0 {
          state := WaitForAction;
        } else if r.link == 1 {
          Send(interfaceHardware, DisplayPinIncorrectMessage);
          state := DoneProcessing;
        } else {
          state := DoneProcessing;
        }
      }
      outcome, resuming := Ending(r), r.Starved?;
    }

    /** wait_for_action: offers the options, then waits for a choice. */
    method WaitForActionState() returns (outcome: Outcome)
      requires Wired() && state == WaitForAction
      modifies this, incoming.q, bank.Frame(), interfaceHardware.Frame()
      ensures Performed(Round(old(Current()), old(resuming), old(incoming.q.items), Self()),
                        outcome, Current(), resuming, incoming.q.items,
                        old(bank.target.items), bank.target.items,
                        old(interfaceHardware.target.items), interfaceHardware.target.items)
    {
      ghost var s0, inbox := Current(), incoming.q.items;
      ghost var bank0, display0 := bank.target.items, interfaceHardware.target.items;
      if !resuming {
        Send(interfaceHardware, DisplayWithdrawalOptions);
      }
      assert Current() == s0 && bank.target.items == bank0 && incoming.q.items == inbox;
      ghost var display1 := interfaceHardware.target.items;
      var r, _ := incoming.SelectiveReceive([WithdrawPressedKind, BalancePressedKind, CancelPressedKind]);
      assert r == Listen(s0.state, inbox);
      assert Current() == s0 && bank.target.items == bank0 && interfaceHardware.target.items == display1;
      ghost var rest := incoming.q.items;
      if r.Handled? {
        MatchedKind(Accepted(state), r.msg, r.link);
      }
      outcome := WaitForActionHandlers(r, s0);
      assert incoming.q.items == rest;
      ReceivingCall(s0, old(resuming), inbox, Self(), r, outcome, Current(), resuming, rest,
                    bank0, bank.target.items, display0, display1, interfaceHardware.target.items);
    }

    /** The handlers wait_for_action registers: a withdrawal or a balance query goes to the bank; cancel. */
    method WaitForActionHandlers(r: Receipt, ghost s: Session) returns (outcome: Outcome)
      requires Wired() && state == WaitForAction && s == Current()
      requires r.Handled? ==> r.link < |Accepted(state)| && KindOf(r.msg) == Accepted(state)[r.link]
      modifies this, bank.Frame(), interfaceHardware.Frame()
      ensures var f := Finish(s, r, Self());
              && outcome == f.outcome && Current() == f.next && resuming == f.waiting
              && bank.target.items == old(bank.target.items) + f.toBank
              && interfaceHardware.target.items == old(interfaceHardware.target.items) + f.toDisplay
      ensures incoming.q.items == old(incoming.q.items)
    {
      if r.Handled? {
        if r.link == 0 {
          withdrawalAmount := r.msg.amount;
          Send(bank, Withdraw(account, r.msg.amount, Self()));
          state := ProcessWithdrawal;
        } else if r.link == 1 {
          Send(bank, GetBalance(account, Self()));
          state := ProcessBalance;
        } else {
          state := DoneProcessing;
        }
      }
      outcome, resuming := Ending(r), r.Starved?;
    }

    /** process_withdrawal: waits for the bank's answer to the withdrawal. */
    method ProcessWithdrawalState() returns (outcome: Outcome)
      requires Wired() && state == ProcessWithdrawal
      modifies this, incoming.q, bank.Frame(), interfaceHardware.Frame()
      ensures Performed(Round(old(Current()), old(resuming), old(incoming.q.items), Self()),
                        outcome, Current(), resuming, incoming.q.items,
                        old(bank.target.items), bank.target.items,
                        old(interfaceHardware.target.items), interfaceHardware.target.items)
    {
      ghost var s0, inbox := Current(), incoming.q.items;
      ghost var bank0, display0 := bank.target.items, interfaceHardware.target.items;
      ghost var display1 := interfaceHardware.target.items;
      var r, _ := incoming.SelectiveReceive([WithdrawOkKind, WithdrawDeniedKind, CancelPressedKind]);
      assert r == Listen(s0.state, inbox);
      assert Current() == s0 && bank.target.items == bank0 && interfaceHardware.target.items == display1;
      ghost var rest := incoming.q.items;
      if r.Handled? {
        MatchedKind(Accepted(state), r.msg, r.link);
      }
      outcome := ProcessWithdrawalHandlers(r, s0);
      assert incoming.q.items == rest;
      ReceivingCall(s0, old(resuming), inbox, Self(), r, outcome, Current(), resuming, rest,
                    bank0, bank.target.items, display0, display1, interfaceHardware.target.items);
    }

    /** The handlers process_withdrawal registers: money out and acknowledged, refusal shown, or cancelled with the bank. */
    method ProcessWithdrawalHandlers(r: Receipt, ghost s: Session) returns (outcome: Outcome)
      requires Wired() && state == ProcessWithdrawal && s == Current()
      requires r.Handled? ==> r.link < |Accepted(state)| && KindOf(r.msg) == Accepted(state)[r.link]
      modifies this, bank.Frame(), interfaceHardware.Frame()
      ensures var f := Finish(s, r, Self());
              && outcome == f.outcome && Current() == f.next && resuming == f.waiting
              && bank.target.items == old(bank.target.items) + f.toBank
              && interfaceHardware.target.items == old(interfaceHardware.target.items) + f.toDisplay
      ensures incoming.q.items == old(incoming.q.items)
    {
      if r.Handled? {
        if r.link == 0 {
          Send(interfaceHardware, IssueMoney(withdrawalAmount));
          Send(bank, WithdrawalProcessed(account, withdrawalAmount));
          state := DoneProcessing;
        } else if r.link == 1 {
          Send(interfaceHardware, DisplayInsufficientFunds);
          state := DoneProcessing;
        } else {
          Send(bank, CancelWithdrawal(account, withdrawalAmount));
          Send(interfaceHardware, DisplayWithdrawalCancelled);
          state := DoneProcessing;
        }
      }
      outcome, resuming := Ending(r), r.Starved?;
    }

    /** process_balance: waits for the balance. */
    method ProcessBalanceState() returns (outcome: Outcome)
      requires Wired() && state == ProcessBalance
      modifies this, incoming.q, bank.Frame(), interfaceHardware.Frame()
      ensures Performed(Round(old(Current()), old(resuming), old(incoming.q.items), Self()),
                        outcome, Current(), resuming, incoming.q.items,
                        old(bank.target.items), bank.target.items,
                        old(interfaceHardware.target.items), interfaceHardware.target.items)
    {
      ghost var s0, inbox := Current(), incoming.q.items;
      ghost var bank0, display0 := bank.target.items, interfaceHardware.target.items;
      ghost var display1 := interfaceHardware.target.items;
      var r, _ := incoming.SelectiveReceive([BalanceKind, CancelPressedKind]);
      assert r == Listen(s0.state, inbox);
      assert Current() == s0 && bank.target.items == bank0 && interfaceHardware.target.items == display1;
      ghost var rest := incoming.q.items;
      if r.Handled? {
        MatchedKind(Accepted(state), r.msg, r.link);
      }
      outcome := ProcessBalanceHandlers(r, s0);
      assert incoming.q.items == rest;
      ReceivingCall(s0, old(resuming), inbox, Self(), r, outcome, Current(), resuming, rest,
                    bank0, bank.target.items, display0, display1, interfaceHardware.target.items);
    }

    /** The handlers process_balance registers: the balance is shown; cancel. */
    method ProcessBalanceHandlers(r: Receipt, ghost s: Session) returns (outcome: Outcome)
      requires Wired() && state == ProcessBalance && s == Current()
      requires r.Handled? ==> r.link < |Accepted(state)| && KindOf(r.msg) == Accepted(state)[r.link]
      modifies this, bank.Frame(), interfaceHardware.Frame()
      ensures var f := Finish(s, r, Self());
              && outcome == f.outcome && Current() == f.next && resuming == f.waiting
              && bank.target.items == old(bank.target.items) + f.toBank
              && interfaceHardware.target.items == old(interfaceHardware.target.items) + f.toDisplay
      ensures incoming.q.items == old(incoming.q.items)
    {
      if r.Handled? {
        if r.link == 0 {
          Send(interfaceHardware, DisplayBalance(r.msg.amount));
          state := WaitForAction;
        } else {
          state := DoneProcessing;
        }
      }
      outcome, resuming := Ending(r), r.Starved?;
    }

    /** done_processing: ejects the card and goes back to waiting for one, without receiving. */
    method DoneProcessingState() returns (outcome: Outcome)
      requires Wired() && state == DoneProcessing
      modifies this, incoming.q, bank.Frame(), interfaceHardware.Frame()
      ensures Performed(Round(old(Current()), old(resuming), old(incoming.q.items), Self()),
                        outcome, Current(), resuming, incoming.q.items,
                        old(bank.target.items), bank.target.items,
                        old(interfaceHardware.target.items), interfaceHardware.target.items)
    {
      Send(interfaceHardware, EjectCard);
      state := WaitingForCard;
      outcome, resuming := Completed, false;
    }
  }
}
