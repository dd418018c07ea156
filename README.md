# FSM-ATM in Dafny

A model of the message-passing ATM example: a small actor runtime
(`message.hpp`) and the two actors built on it (`action.hpp`).

- **Runtime.** It has a FIFO mailbox (`queue`), a nullable handle on a mailbox
  (`sender`), and the selective receive. The receive is a chain of
  `TemplateDispatcher` links on top of a base `dispatcher`. It pops messages,
  drops the ones no link matches, runs exactly one handler, or stops on
  `close_queue`. A `receiver` owns a mailbox and starts receives on it.
- **ATM.** The `atm` class is a state machine over `waiting_for_card`,
  `getting_pin`, `verifying_pin`, `wait_for_action`, `process_withdrawal`,
  `process_balance` and `done_processing`. Its session fields are the
  account, the PIN and the withdrawal amount. Every state except
  `done_processing` makes one selective receive, and its handlers send
  requests to the bank and notifications to the display; `done_processing`
  ejects the card and returns to `waiting_for_card` without receiving.
- **Bank.** The `bank_machine` class owns an unsigned balance, opened at 199.
  It checks PINs against "1937", debits a withdrawal only when the balance
  covers it, and reports the balance.

Files:

- `messaging.dfy`: module `Messaging`, the mailbox and sender, generic in the message type.
- `messages.dfy`: module `Messages`, one datatype constructor per message struct, plus `CloseQueue` and the type tags.
- `dispatch.dfy`: module `Dispatchers`. It holds three things:
  - the selective receive as a specification function, `Receive`;
  - the pop loop proved against it, `WaitAndDispatch`;
  - the dispatcher objects with their `chained` flags, and the receiver.
- `bank.dfy`: module `Bank`. The pure ledger (`Serve`, `Loop`) and the `BankMachine` class, whose `Run` is proved against `Loop`.
- `atm.dfy`: module `Atm`. One call of a state (`Round`) and the run loop (`Rounds`) as specification functions, plus the `AtmMachine` class. Its state methods and run loop are proved against those functions.
- `system.dfy`: module `System`. The two actors wired through their mailboxes, with an explicit schedule of inputs and actor runs.

The model runs each actor sequentially. Where the C++ thread blocks on an
empty mailbox, the model's receive returns `Starved`. The ATM then stays
inside the receive of its current state, flagged by `resuming`, and later
input is matched by that same receive. The lemma `Atm.ResumeRun` proves that
blocking and resuming loses nothing: a run blocked on `first` and resumed on
`second` does what one run on `first + second` does.

## Model

| member | source | states |
|---|---|---|
| Messaging.Queue.constructor | message.hpp:26-30 | a new mailbox is empty |
| Messaging.Queue.Push | message.hpp:33-38 | appends exactly the pushed message at the back; the earlier messages are unchanged and in order |
| Messaging.Queue.WaitAndPop | message.hpp:39-46 | on a non-empty mailbox, returns the oldest message and leaves the others in order (FIFO) |
| Messaging.Unbound | message.hpp:53-55 | a default-constructed sender refers to no mailbox, so sending through it may change nothing |
| Messaging.Send | message.hpp:59-66 | a bound sender pushes the message once into its mailbox; an unbound one modifies nothing |
| Messages.KindOf | message.hpp:98-99 | the type tag a `dynamic_cast` test compares; its behaviour is stated by `KindOfTags`: each tag belongs to exactly one message type |
| Messages.KindOfTags | message.hpp:96-103 | each of the 26 type tags belongs to exactly one message type (the `dynamic_cast` test) |
| Messages.ReplyAddress | action.hpp:5-106 | only `withdraw`, `verify_pin` and `get_balance` carry a reply address, and for them it is the `atm_queue` sender they carry; every other message gives an unbound sender |
| Dispatchers.ChainOf | message.hpp:127-134 | the chain built by `handle<k0>…handle<kn>` registers exactly `k0…kn` in that order |
| Dispatchers.Dispatch | message.hpp:96-107 | matches iff the message's type is registered, and then reports the outermost link of that type; raises close_queue iff the type is unregistered and the message is `close_queue`; otherwise no match |
| Dispatchers.Receive | message.hpp:85-94 | a receive that does not run dry consumes at least one message; a handled message was matched and came from the mailbox |
| Dispatchers.ReceiveStarvedSpec | message.hpp:85-94 | the receive runs dry exactly when no queued message is matched or is `close_queue` |
| Dispatchers.ReceiveSpec | message.hpp:85-94 | the receive ends at the n-th message; the n-1 before it were unmatched and dropped; the rest stays queued in order; that message is the one handled, or one the chain answered with close_queue |
| Dispatchers.ReceiveStopsAtFirstRelevant | message.hpp:85-94 | the receive ends exactly at the first message that is matched or is `close_queue`, leaving what follows queued |
| Dispatchers.ReceiveSkipsUnmatched | message.hpp:85-94 | unmatched messages at the head are dropped (never requeued) and change nothing else |
| Dispatchers.ReceiveIgnoresLaterInput | message.hpp:85-94 | a receive that ends on a mailbox ends the same way with more messages queued behind it |
| Dispatchers.ReceiveTaken | message.hpp:89-91 | a handled message is the one just before what the receive leaves queued |
| Dispatchers.ReceiveCloseFirst | message.hpp:174-182 | `close_queue` at the head shuts down a chain that has no handler for it |
| Dispatchers.ReceiveKeepsClose | message.hpp:174-182 | the receive stops on close_queue only if one is queued, and runs dry only if none is; a handled message leaves a queued `close_queue` in the mailbox |
| Dispatchers.BareDispatcherOnlyShutsDown | message.hpp:164-182 | a bare dispatcher never handles a message; it shuts down iff `close_queue` is queued, at the first one |
| Dispatchers.DistinctChainMatchesUniqueLink | message.hpp:96-107 | when every type is registered once, link i matches iff it has the message's type, so outermost-first and first-registered agree |
| Dispatchers.MatchedKind | message.hpp:96-107 | the matched link's position holds the message's type |
| Dispatchers.WaitAndDispatch | message.hpp:85-94 | the pop loop returns exactly what `Receive` specifies and leaves the mailbox `Receive` leaves |
| Dispatchers.Dispatcher.FromQueue | message.hpp:190-192 | a base dispatcher on the mailbox, not chained |
| Dispatchers.Dispatcher.Link | message.hpp:119-125 | a new link on top of prev, not chained, and prev becomes chained |
| Dispatchers.Dispatcher.Moved | message.hpp:110-117 | the move takes over the chain and the flag, and marks the source chained |
| Dispatchers.Dispatcher.Handle | message.hpp:127-134 | `handle<k>` returns a fresh unchained link that registers k on top of this one, and chains this one |
| Dispatchers.Dispatcher.Destroy | message.hpp:136-143 | destroying an unchained object performs the receive of its chain; a chained one does nothing |
| Dispatchers.Receiver.constructor | message.hpp:211-213 | a receiver owns a fresh, empty mailbox |
| Dispatchers.Receiver.AsSender | message.hpp:215-218 | the sender it hands out is bound to its mailbox |
| Dispatchers.Receiver.Wait | message.hpp:219-222 | `wait()` returns a fresh unchained base dispatcher on its mailbox |
| Dispatchers.Receiver.BuildChain | message.hpp:119-134 | building `wait().handle<k0>…handle<kn>` chains every object but the last, and the last registers `k0…kn` |
| Dispatchers.Receiver.DestroyChain | message.hpp:136-143 | destroying the objects in reverse order performs exactly one receive, that of the last link |
| Dispatchers.Receiver.SelectiveReceive | message.hpp:110-143 | one selective-receive statement performs exactly one receive, the one `Receive` specifies for the registered kinds |
| Bank.Serve | action.hpp:338-380 | a handler never raises the balance, and it replies iff the request is `withdraw`, `verify_pin` or `get_balance`; each handler's full effect is stated by `WithdrawChecksThenDebits`, `VerifyPinLeavesBalance` and `QueriesAndAcknowledgementsLeaveBalance`, and a sequence of them by `LedgerConserves` |
| Bank.WithdrawChecksThenDebits | action.hpp:351-364 | `withdraw_ok` iff amount ≤ balance, and then the balance drops by exactly the amount; otherwise `withdraw_denied` and the balance is unchanged |
| Bank.VerifyPinLeavesBalance | action.hpp:338-350 | `pin_verified` iff the PIN is "1937", `pin_incorrect` otherwise; the balance is unchanged |
| Bank.QueriesAndAcknowledgementsLeaveBalance | action.hpp:365-380 | `get_balance` replies with the current balance; `withdrawal_processed` and `cancel_withdrawal` reply nothing; none changes the balance |
| Bank.LedgerConserves | action.hpp:351-364 | for any requests served in order, closing balance plus accepted withdrawals equals the opening balance, so the unsigned balance never underflows |
| Bank.NoWithdrawalNoChange | action.hpp:338-380 | requests without a withdrawal never move the balance |
| Bank.HandlerOfLink | action.hpp:337-380 | the link the bank's receive reports names the request type it handles |
| Bank.Loop | action.hpp:331-387 | the run loop's closing balance is the requests it served, settled in order; it stops or drains its mailbox |
| Bank.RunConserves | action.hpp:331-387 | a whole bank run conserves money (closing balance plus accepted withdrawals equals the balance it started with) |
| Bank.LoopServesRequests | action.hpp:331-387 | the run serves exactly the mailbox's messages of the five registered types that come before the first `close_queue`, in order, and sends exactly the replies their handlers produce, each computed from the balance left by the requests before it |
| Bank.RunServesOnlyRequests | action.hpp:337-380 | the bank serves only the five request types it registers |
| Bank.LoopStopsIffClosed | action.hpp:331-387 | the bank's loop stops exactly when its mailbox holds `close_queue` |
| Bank.LoopAccounts | action.hpp:335-382 | one turn of the loop keeps the account of what the whole loop does |
| Bank.BankMachine.constructor | action.hpp:324-326 | the bank opens with a balance of 199 and an empty mailbox |
| Bank.BankMachine.AsSender | action.hpp:388-391 | `get_sender` is bound to the bank's mailbox |
| Bank.BankMachine.Done | action.hpp:327-330 | `done` queues `close_queue` on the bank's own mailbox |
| Bank.BankMachine.Run | action.hpp:331-387 | the loop ends with the balance, the stop flag and the mailbox `Loop` specifies, and every peer mailbox receives exactly the replies addressed to it, in order |
| Bank.BankMachine.Step | action.hpp:335-382 | one turn keeps the loop's account and delivers that turn's reply, shrinking the mailbox when a request was handled |
| Bank.BankMachine.ServeNext | action.hpp:337-380 | one receive and its handler: the balance as `Serve` gives it, and exactly that request's reply sent to its reply address |
| Bank.BankMachine.RunHandler | action.hpp:338-380 | runs the handler of the matched link and sends exactly that handler's reply |
| Bank.BankMachine.SendReply | action.hpp:341-348 | a reply goes exactly to the mailbox its address names, and to no other |
| Atm.Accepted | action.hpp:135-281 | each state's receive registers its types once, never `close_queue`; cancel is accepted in every state between card and done; done_processing receives nothing |
| Atm.Entry | action.hpp:183-286 | the notification a state sends on entry (lines 185, 270 and 284: waiting_for_card, wait_for_action and done_processing); stated by `OnlyCardInsertedStartsSession`, `WaitForActionCall` and `DoneProcessingCall`, and, for the states that send none, by `GettingPinCall`, `VerifyingPinCall`, `ProcessWithdrawalCall` and `ProcessBalanceCall` |
| Atm.Listen | action.hpp:135-281 | the selective receive `incoming.wait().handle<…>()` of each receiving state, over the kinds `Accepted` lists; its behaviour is stated by `RoundHandlesHead`, `DroppedChangeNothing` and `CloseStopsBeforeAnyHandler` |
| Atm.React | action.hpp:138-280 | the handler bodies of every state; stated by `ReactSpec` and by the per-state lemmas `GettingPinCall` … `ProcessBalanceCall` and `OnlyCardInsertedStartsSession` |
| Atm.ReactSpec | action.hpp:135-286 | a message without a handler changes nothing; every move follows the transition table and keeps the PIN invariant; cancel ends the session; only card insertion writes the account and only a withdrawal writes the amount |
| Atm.Finish | action.hpp:298-311 | a state call completes iff a message was handled, stops iff close_queue was raised, and is left waiting iff the mailbox ran dry; only a completed call changes or sends anything |
| Atm.Round | action.hpp:282-311 | a completed call consumes a message, except done_processing, which receives nothing and goes to waiting_for_card; a stopped call changes no session field and sends nothing to the bank |
| Atm.Rounds | action.hpp:298-311 | the run loop either stops on close_queue or blocks with its mailbox drained |
| Atm.RoundSpec | action.hpp:135-286 | one call follows the transition table and keeps the PIN invariant |
| Atm.RunKeepsInv | action.hpp:233-263 | in every session the run loop reaches, the PIN holds fewer than four digits while getting_pin and all four once sent |
| Atm.RoundKeepsClose | action.hpp:298-311 | a call stops only with `close_queue` queued, never blocks with one queued, and leaves a queued one for the next call |
| Atm.RunStopsIffClosed | action.hpp:298-311 | `run` ends exactly when its mailbox holds `close_queue`; otherwise it waits with the mailbox drained |
| Atm.CloseStopsBeforeAnyHandler | action.hpp:298-311 | `close_queue` at the head stops any receiving state after its entry notification, before any handler runs |
| Atm.DroppedChangeNothing | message.hpp:85-94 | messages the current state has no handler for (other than `close_queue`) are dropped and change neither the session nor what is sent |
| Atm.OnlyCardInsertedStartsSession | action.hpp:268-281 | waiting_for_card leaves its state iff a message is handled, and that message is `card_inserted`. The call records the account, clears the PIN, keeps the amount, sends `display_enter_card` on entry then `display_enter_pin`, and sends nothing to the bank |
| Atm.RoundHandlesHead | message.hpp:85-107 | a receiving state whose handler matches the head of its mailbox runs that handler on it |
| Atm.GettingPinCall | action.hpp:233-263 | a digit is appended; the fourth sends `verify_pin(account, pin, self)` and moves to verifying_pin; `clear_last_pressed` drops a digit only if there is one; cancel goes to done_processing; nothing is displayed |
| Atm.VerifyingPinCall | action.hpp:209-232 | `pin_verified` goes to wait_for_action; `pin_incorrect` displays the message and goes to done_processing; cancel goes to done_processing |
| Atm.WaitForActionCall | action.hpp:183-208 | shows the options on entry; `withdraw_pressed(a)` records a, sends `withdraw(account, a, self)` and goes to process_withdrawal; `balance_pressed` sends `get_balance` and goes to process_balance; cancel goes to done_processing |
| Atm.ProcessWithdrawalCall | action.hpp:135-165 | `withdraw_ok` issues the money and confirms with `withdrawal_processed`; `withdraw_denied` shows insufficient funds; cancel sends `cancel_withdrawal` and shows the cancellation; all three go to done_processing |
| Atm.ProcessBalanceCall | action.hpp:166-182 | `balance(n)` shows n and returns to wait_for_action; cancel goes to done_processing |
| Atm.DoneProcessingCall | action.hpp:282-286 | done_processing ejects the card and returns to waiting_for_card, receiving nothing |
| Atm.ResumeRound | message.hpp:39-46 | a call blocked on `first` and resumed on `second` does what one call on `first + second` does |
| Atm.RoundOnLongerMailbox | message.hpp:85-94 | a call that does not block ends the same way with more input queued behind |
| Atm.ResumeRun | action.hpp:298-311 | the run loop blocked on `first` and resumed on `second` does what one run on `first + second` does |
| Atm.AtmMachine.constructor | action.hpp:290-293 | the ATM keeps the two senders it is given and owns a fresh, empty mailbox |
| Atm.AtmMachine.Self | action.hpp:312-315 | `get_sender` is bound to the ATM's own mailbox |
| Atm.AtmMachine.Done | action.hpp:294-297 | `done` queues `close_queue` on the ATM's own mailbox |
| Atm.AtmMachine.Run | action.hpp:298-311 | `run` starts in waiting_for_card. It ends in the session, stop flag and mailbox `Rounds` gives, and appends exactly the run's requests to the bank's mailbox and its notifications to the display's |
| Atm.AtmMachine.Resume | action.hpp:301-307 | the loop of `run`, from the current state, does exactly what `Rounds` specifies |
| Atm.AtmMachine.Step | action.hpp:303-306 | one call of the loop keeps the account of the whole run, and makes progress |
| Atm.AtmMachine.CallState | action.hpp:305 | `(this->*state)()` does exactly what `Round` specifies for the current state |
| Atm.AtmMachine.WaitingForCardState | action.hpp:268-281 | the state method does exactly what `Round` specifies |
| Atm.AtmMachine.WaitingForCardHandlers | action.hpp:272-280 | the `card_inserted` handler does exactly what `Finish` specifies |
| Atm.AtmMachine.GettingPinState | action.hpp:233-263 | the state method does exactly what `Round` specifies |
| Atm.AtmMachine.GettingPinHandlers | action.hpp:236-262 | the three handlers do exactly what `Finish` specifies |
| Atm.AtmMachine.VerifyingPinState | action.hpp:209-232 | the state method does exactly what `Round` specifies |
| Atm.AtmMachine.VerifyingPinHandlers | action.hpp:212-231 | the three handlers do exactly what `Finish` specifies |
| Atm.AtmMachine.WaitForActionState | action.hpp:183-208 | the state method does exactly what `Round` specifies |
| Atm.AtmMachine.WaitForActionHandlers | action.hpp:187-207 | the three handlers do exactly what `Finish` specifies |
| Atm.AtmMachine.ProcessWithdrawalState | action.hpp:135-165 | the state method does exactly what `Round` specifies |
| Atm.AtmMachine.ProcessWithdrawalHandlers | action.hpp:138-164 | the three handlers do exactly what `Finish` specifies |
| Atm.AtmMachine.ProcessBalanceState | action.hpp:166-182 | the state method does exactly what `Round` specifies |
| Atm.AtmMachine.ProcessBalanceHandlers | action.hpp:169-181 | the two handlers do exactly what `Finish` specifies |
| Atm.AtmMachine.DoneProcessingState | action.hpp:282-286 | ejects the card and returns to waiting_for_card, as `Round` specifies |
| System.Start | action.hpp:324-326 | fresh actors: the bank holds its opening balance and the ATM session satisfies the PIN invariant |
| System.ApplyKeeps | action.hpp:298-387 | any one input or actor run keeps the PIN invariant and never raises the balance |
| System.DriveKeeps | action.hpp:298-387 | any schedule keeps the PIN invariant, and the bank's balance only goes down |
| System.CloseStopsAtm | action.hpp:294-311 | after `close_queue` is sent to the ATM (`atm::done`), its next run stops it |
| System.CloseStopsBank | action.hpp:327-387 | after `bank_machine::done`, the bank's next run stops it |

`TemplateDispatcher::dispatch` (message.hpp:96-107) tries the outermost
link, the one registered last, first, and only then asks `prev`;
`Dispatchers.Dispatch` does the same. `Dispatchers.DistinctChainMatchesUniqueLink`
shows that this picks the same handler as trying links in registration order
whenever no type is registered twice, and no chain in `action.hpp` registers
a type twice (`Atm.Accepted`, `Bank.Handlers`).

## Left out

- `interface_machine` (action.hpp:395-514) prints text to the console under a mutex. The display is modelled as the sequence of messages sent to it.
- The mutex and condition variable of `queue`, and the actors' threads, are not modelled. The actors run one at a time. A pop that would block is excluded by `WaitAndPop`'s precondition, and the receive reports `Starved` instead of waiting.
- The actor threads' interleaving becomes the explicit schedule of `System.Drive`. Only runs to the next block or stop are modelled, not finer interleavings.
- Run-time type tests (`dynamic_cast`) are modelled as equality of the tags given by `Messages.KindOf`.
- The `close_queue` exception is modelled as the `Shutdown` receipt and the `Stopped` outcome. The destructor-driven wait is modelled by `Dispatcher.Destroy`.
- `t_idx`/`idx` and the log and trace output (message.hpp:69, 114, 122; action.hpp:381, 518-552) are instrumentation only.
- Handlers are not stored closures. A link records its message type, and the caller runs the handler of the link the receive reports.
- Atm.AtmMachine.constructor: `state`, `withdrawal_amount` and the strings get definite starting values (waiting_for_card, 0, ""). In the source, `state` is only set by `run` and `withdrawal_amount` is left uninitialised.
- Atm.AtmMachine.Run: requires `Wired()`. Both senders must be bound, and the ATM's mailbox, the bank's and the display's must be distinct. The effect of an ATM that sends to its own mailbox is not modelled.
- Bank.BankMachine.Run: requires that no reply address names the bank's own mailbox. Replies are tracked only in the peer mailboxes passed as `peers`.
- Atm.AtmMachine.Run: states its messages per destination mailbox. The order of sends to two different mailboxes within one handler is not stated, for example `issue_money` before `withdrawal_processed`.
- Messaging.Send: a sender is a nullable mailbox reference. Pointer lifetimes and ownership are not modelled.
- Dispatchers.Receive: its own contract is deliberately light. The full specification is in `ReceiveSpec`, `ReceiveStarvedSpec` and `ReceiveStopsAtFirstRelevant`.
- Worked end-to-end scenarios (a card, a PIN and a withdrawal on concrete mailboxes) are not stated as lemmas. The per-state lemmas (`Atm.GettingPinCall` and the others) and the bank lemmas cover each of their steps.
