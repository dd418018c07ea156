/**
 * The two actors of the example wired together through their mailboxes: the
 * ATM is constructed with senders to the bank's mailbox and to the display,
 * the bank replies to the address each request carries, and the user's key
 * presses are sent to the ATM's mailbox.
 *
 * The threads become an explicit schedule: each event either delivers one
 * input to the ATM or lets one actor run until it blocks on an empty
 * mailbox or stops on close_queue.
 */
module System {
  import opened Messaging
  import opened Messages
  import opened Dispatchers
  import opened Bank
  import opened Atm

  /** Both actors' state, their mailboxes and what the display received. */
  datatype World = World(
    atm: Session,
    resuming: bool,          // the ATM is blocked inside a receive
    atmRunning: bool,        // the ATM has not stopped on close_queue
    atmBox: seq<Message>,
    balance: u32,
    bankRunning: bool,
    bankBox: seq<Message>,
    display: seq<Message>)

  /** Fresh actors: the ATM about to enter waiting_for_card, the bank with its opening balance, empty mailboxes. */
  function Start(): (w: World)
    ensures w.balance == OpeningBalance && SessionInv(w.atm)
  {
    World(Session(WaitingForCard, "", "", 0), false, true, [], OpeningBalance, true, [], [])
  }

  /**
   * One step of the schedule: a message sent to the ATM's mailbox (a key
   * press, or close_queue through atm::done), bank_machine::done, or one
   * actor's thread running.
   */
  datatype Event = Input(m: Message) | BankDone | RunAtm | RunBank

  /** The ATM's thread runs until it blocks on an empty mailbox or stops on close_queue. */
  function AtmRuns(w: World, atmQueue: Queue<Message>): World
  {
    if !w.atmRunning then w
    else
      var r := Rounds(w.atm, w.resuming, w.atmBox, Sender(atmQueue));
      w.(atm := r.last, resuming := !r.stopped, atmRunning := !r.stopped, atmBox := r.rest,
         bankBox := w.bankBox + r.toBank, display := w.display + r.toDisplay)
  }

  /** The bank's thread runs until it blocks on an empty mailbox or stops on close_queue. */
  function BankRuns(w: World, atmQueue: Queue<Message>): World
  {
    if !w.bankRunning then w
    else
      var s := Loop(w.balance, w.bankBox);
      w.(balance := s.balance, bankRunning := !s.stopped, bankBox := s.rest,
         atmBox := w.atmBox + RepliesTo(atmQueue, s.replies))
  }

  /** What one event does to the world; `atmQueue` is the ATM's own mailbox, to which the bank replies. */
  function Apply(w: World, e: Event, atmQueue: Queue<Message>): World
  {
    match e
    case Input(m) => w.(atmBox := w.atmBox + [m])
    case BankDone => w.(bankBox := w.bankBox + [CloseQueue])
    case RunAtm => AtmRuns(w, atmQueue)
    case RunBank => BankRuns(w, atmQueue)
  }

  /** A whole schedule, event by event. */
  function Drive(w: World, events: seq<Event>, atmQueue: Queue<Message>): World
    decreases |events|
  {
    if events == [] then w else Drive(Apply(w, events[0], atmQueue), events[1..], atmQueue)
  }

  /** One event keeps the PIN invariant of the ATM's session and never raises the bank's balance. */
  lemma ApplyKeeps(w: World, e: Event, atmQueue: Queue<Message>)
    requires SessionInv(w.atm)
    ensures var w' := Apply(w, e, atmQueue);
            SessionInv(w'.atm) && w'.balance <= w.balance
  {
    match e
    case Input(_) =>
    case BankDone =>
    case RunAtm =>
      if w.atmRunning {
        RunKeepsInv(w.atm, w.resuming, w.atmBox, Sender(atmQueue));
      }
    case RunBank =>
      if w.bankRunning {
        RunConserves(w.balance, w.bankBox);
      }
  }

  /**
   * Any schedule keeps the PIN invariant, and the balance only goes down:
   * the bank never holds more than it opened with.
   */
  lemma {:induction false} DriveKeeps(w: World, events: seq<Event>, atmQueue: Queue<Message>)
    requires SessionInv(w.atm)
    ensures var w' := Drive(w, events, atmQueue);
            SessionInv(w'.atm) && w'.balance <= w.balance
    decreases |events|
  {
    if events != [] {
      ApplyKeeps(w, events[0], atmQueue);
      DriveKeeps(Apply(w, events[0], atmQueue), events[1..], atmQueue);
    }
  }

  /** close_queue sent to the ATM (atm::done) stops its thread the next time it runs. */
  lemma CloseStopsAtm(w: World, atmQueue: Queue<Message>)
    requires w.atmRunning
    ensures !Apply(Apply(w, Input(CloseQueue), atmQueue), RunAtm, atmQueue).atmRunning
  {
    var box := w.atmBox + [CloseQueue];
    assert box[|box| - 1] == CloseQueue;
    RunStopsIffClosed(w.atm, w.resuming, box, Sender(atmQueue));
  }

  /** bank_machine::done stops the bank's thread the next time it runs. */
  lemma CloseStopsBank(w: World, atmQueue: Queue<Message>)
    requires w.bankRunning
    ensures !Apply(Apply(w, BankDone, atmQueue), RunBank, atmQueue).bankRunning
  {
    var box := w.bankBox + [CloseQueue];
    assert box[|box| - 1] == CloseQueue;
    LoopStopsIffClosed(w.balance, box);
  }
}
