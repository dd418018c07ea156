/**
 * The message catalogue of the ATM example (the structs of action.hpp) and
 * the runtime's own control message close_queue (message.hpp).
 *
 * The C++ program gives each message kind its own struct and recognises it
 * with a dynamic_cast; here one datatype holds every kind, and KindOf gives
 * the tag the dispatcher compares.
 */
module Messages {
  import opened Messaging

  /** The C++ `unsigned` used for every amount and the bank balance. */
  newtype u32 = x: int | 0 <= x < 0x1_0000_0000

  datatype Message =
    // requests to the bank
    | Withdraw(account: string, amount: u32, atmQueue: Sender<Message>)
    | VerifyPin(account: string, pin: string, atmQueue: Sender<Message>)
    | GetBalance(account: string, atmQueue: Sender<Message>)
    | WithdrawalProcessed(account: string, amount: u32)
    | CancelWithdrawal(account: string, amount: u32)
    // replies from the bank
    | WithdrawOk
    | WithdrawDenied
    | PinVerified
    | PinIncorrect
    | Balance(amount: u32)
    // user input to the ATM
    | CardInserted(account: string)
    | DigitPressed(digit: char)
    | ClearLastPressed
    | CancelPressed
    | WithdrawPressed(amount: u32)
    | BalancePressed
    // notifications to the display
    | DisplayEnterCard
    | DisplayEnterPin
    | DisplayWithdrawalOptions
    | DisplayBalance(amount: u32)
    | DisplayInsufficientFunds
    | DisplayWithdrawalCancelled
    | DisplayPinIncorrectMessage
    | IssueMoney(amount: u32)
    | EjectCard
    // the runtime's shutdown signal
    | CloseQueue

  /** One tag per message type: what `handle<T>` registers. */
  datatype Kind =
    | WithdrawKind | VerifyPinKind | GetBalanceKind | WithdrawalProcessedKind | CancelWithdrawalKind
    | WithdrawOkKind | WithdrawDeniedKind | PinVerifiedKind | PinIncorrectKind | BalanceKind
    | CardInsertedKind | DigitPressedKind | ClearLastPressedKind | CancelPressedKind
    | WithdrawPressedKind | BalancePressedKind
    | DisplayEnterCardKind | DisplayEnterPinKind | DisplayWithdrawalOptionsKind | DisplayBalanceKind
    | DisplayInsufficientFundsKind | DisplayWithdrawalCancelledKind | DisplayPinIncorrectMessageKind
    | IssueMoneyKind | EjectCardKind
    | CloseQueueKind

  /** The type of a message: each tag belongs to exactly one constructor. */
  function KindOf(m: Message): Kind
  {
    match m
    case Withdraw(_, _, _) => WithdrawKind
    case VerifyPin(_, _, _) => VerifyPinKind
    case GetBalance(_, _) => GetBalanceKind
    case WithdrawalProcessed(_, _) => WithdrawalProcessedKind
    case CancelWithdrawal(_, _) => CancelWithdrawalKind
    case WithdrawOk => WithdrawOkKind
    case WithdrawDenied => WithdrawDeniedKind
    case PinVerified => PinVerifiedKind
    case PinIncorrect => PinIncorrectKind
    case Balance(_) => BalanceKind
    case CardInserted(_) => CardInsertedKind
    case DigitPressed(_) => DigitPressedKind
    case ClearLastPressed => ClearLastPressedKind
    case CancelPressed => CancelPressedKind
    case WithdrawPressed(_) => WithdrawPressedKind
    case BalancePressed => BalancePressedKind
    case DisplayEnterCard => DisplayEnterCardKind
    case DisplayEnterPin => DisplayEnterPinKind
    case DisplayWithdrawalOptions => DisplayWithdrawalOptionsKind
    case DisplayBalance(_) => DisplayBalanceKind
    case DisplayInsufficientFunds => DisplayInsufficientFundsKind
    case DisplayWithdrawalCancelled => DisplayWithdrawalCancelledKind
    case DisplayPinIncorrectMessage => DisplayPinIncorrectMessageKind
    case IssueMoney(_) => IssueMoneyKind
    case EjectCard => EjectCardKind
    case CloseQueue => CloseQueueKind
  }

  /** Each tag names exactly one message type. */
  lemma KindOfTags(m: Message)
    ensures KindOf(m) == CloseQueueKind <==> m.CloseQueue?
    ensures KindOf(m) == VerifyPinKind <==> m.VerifyPin?
    ensures KindOf(m) == WithdrawKind <==> m.Withdraw?
    ensures KindOf(m) == GetBalanceKind <==> m.GetBalance?
    ensures KindOf(m) == WithdrawalProcessedKind <==> m.WithdrawalProcessed?
    ensures KindOf(m) == CancelWithdrawalKind <==> m.CancelWithdrawal?
    ensures KindOf(m) == WithdrawOkKind <==> m.WithdrawOk?
    ensures KindOf(m) == WithdrawDeniedKind <==> m.WithdrawDenied?
    ensures KindOf(m) == PinVerifiedKind <==> m.PinVerified?
    ensures KindOf(m) == PinIncorrectKind <==> m.PinIncorrect?
    ensures KindOf(m) == BalanceKind <==> m.Balance?
    ensures KindOf(m) == CardInsertedKind <==> m.CardInserted?
    ensures KindOf(m) == DigitPressedKind <==> m.DigitPressed?
    ensures KindOf(m) == ClearLastPressedKind <==> m.ClearLastPressed?
    ensures KindOf(m) == CancelPressedKind <==> m.CancelPressed?
    ensures KindOf(m) == WithdrawPressedKind <==> m.WithdrawPressed?
    ensures KindOf(m) == BalancePressedKind <==> m.BalancePressed?
    ensures KindOf(m) == DisplayEnterCardKind <==> m.DisplayEnterCard?
    ensures KindOf(m) == DisplayEnterPinKind <==> m.DisplayEnterPin?
    ensures KindOf(m) == DisplayWithdrawalOptionsKind <==> m.DisplayWithdrawalOptions?
    ensures KindOf(m) == DisplayBalanceKind <==> m.DisplayBalance?
    ensures KindOf(m) == DisplayInsufficientFundsKind <==> m.DisplayInsufficientFunds?
    ensures KindOf(m) == DisplayWithdrawalCancelledKind <==> m.DisplayWithdrawalCancelled?
    ensures KindOf(m) == DisplayPinIncorrectMessageKind <==> m.DisplayPinIncorrectMessage?
    ensures KindOf(m) == IssueMoneyKind <==> m.IssueMoney?
    ensures KindOf(m) == EjectCardKind <==> m.EjectCard?
  {
  }

  /** The reply address a request carries; Sender(null) for other messages. */
  function ReplyAddress(m: Message): (s: Sender<Message>)
    ensures !(m.Withdraw? || m.VerifyPin? || m.GetBalance?) ==> s == Sender(null)
    ensures m.Withdraw? || m.VerifyPin? || m.GetBalance? ==> s == m.atmQueue
  {
    match m
    case Withdraw(_, _, q) => q
    case VerifyPin(_, _, q) => q
    case GetBalance(_, q) => q
    case _ => Sender(null)
  }
}
