/**
 * One tier's position box: the guards before opening a position, the
 * encoding of the request, and the classification of a rejection message.
 */
module LeverageBox {
  import opened Wrappers
  import opened Units
  import opened Text

  /** The smallest stake, in dollars, the box submits. */
  const MinimumStake: real := 10.0

  /** The `openPosition` call the box submits to the ledger. */
  datatype OpenCall = OpenCall(direction: int, leverage: int, amountInCents: int)

  /** What the box does with a click before anything is sent. */
  datatype Decision = NeedWallet | BelowMinimum | Submit(call: OpenCall)

  /** The categories of rejection the box tells apart. */
  datatype Rejection = InsufficientBalance | DuplicatePosition | TradingEnded | Cancelled | GenericFailure

  /** The message the box shows after a click. */
  datatype Notice = ConnectWalletFirst | MinimumPosition | Opened(direction: Direction) | Rejected(kind: Rejection)

  /** How the submitted call ended: confirmed, or thrown with a message. */
  datatype TxOutcome = Confirmed | Failed(message: string)

  function DirectionOf(isLong: bool): Direction
  {
    if isLong then Long else Short
  }

  /**
   * The guards of `openPosition`: no wallet, no call; below $10, no call;
   * otherwise the amount in whole cents and the direction code.
   */
  function Decide(connected: bool, amount: real, isLong: bool, leverage: int): (d: Decision)
    ensures !connected ==> d == NeedWallet
    ensures connected && amount < MinimumStake ==> d == BelowMinimum
    ensures d.Submit? <==> connected && amount >= MinimumStake
    ensures d.Submit? ==>
      d.call.leverage == leverage &&
      d.call.amountInCents >= 1000 &&
      d.call.amountInCents as real <= amount * 100.0 < d.call.amountInCents as real + 1.0 &&
      DirectionOfCode(d.call.direction) == DirectionOf(isLong) &&
      (d.call.direction == 0 <==> isLong) && (d.call.direction == 1 <==> !isLong)
  {
    if !connected then NeedWallet
    else if amount < MinimumStake then BelowMinimum
    else
      ToCentsAtLeast(amount, 10);
      Submit(OpenCall(DirectionCode(DirectionOf(isLong)), leverage, ToCents(amount)))
  }

  /** A stake entered as whole ledger cents is submitted as exactly those cents. */
  lemma SubmitsLedgerCents(cents: int, isLong: bool, leverage: int)
    requires cents >= 1000
    ensures Decide(true, ToDollars(cents), isLong, leverage) == Submit(OpenCall(if isLong then 0 else 1, leverage, cents))
  {
    ToCentsOfDollars(cents);
  }

  function HasInsufficientFunds(message: string): bool
  {
    Contains(message, "insufficient funds") || Contains(message, "Insufficient balance")
  }

  /** The rejection message is tested in order: balance, duplicate position, trading ended, user declined. */
  function ClassifyRejection(message: string): (k: Rejection)
    ensures k == InsufficientBalance <==>
      (exists i :: OccursAt(message, "insufficient funds", i)) ||
      (exists i :: OccursAt(message, "Insufficient balance", i))
    ensures k == DuplicatePosition <==>
      !HasInsufficientFunds(message) &&
      exists i :: OccursAt(message, "Already have position", i)
    ensures k == TradingEnded <==>
      !HasInsufficientFunds(message) && !Contains(message, "Already have position") &&
      exists i :: OccursAt(message, "Trading not active", i)
    ensures k == Cancelled <==>
      !HasInsufficientFunds(message) && !Contains(message, "Already have position") &&
      !Contains(message, "Trading not active") &&
      exists i :: OccursAt(message, "user rejected", i)
  {
    ContainsIff(message, "insufficient funds");
    ContainsIff(message, "Insufficient balance");
    ContainsIff(message, "Already have position");
    ContainsIff(message, "Trading not active");
    ContainsIff(message, "user rejected");
    if HasInsufficientFunds(message) then InsufficientBalance
    else if Contains(message, "Already have position") then DuplicatePosition
    else if Contains(message, "Trading not active") then TradingEnded
    else if Contains(message, "user rejected") then Cancelled
    else GenericFailure
  }

  /** A balance message wins over every other phrase the message may also carry. */
  lemma BalanceWins(before: string, after: string)
    ensures ClassifyRejection(before + "Insufficient balance" + after) == InsufficientBalance
    ensures ClassifyRejection(before + "insufficient funds" + after) == InsufficientBalance
  {
    ContainsInfix(before, "Insufficient balance", after);
    ContainsInfix(before, "insufficient funds", after);
  }

  /** A revert reason naming a duplicate position is reported as such unless a balance phrase precedes it in the order. */
  lemma DuplicateWinsOverLater(before: string, after: string)
    requires !HasInsufficientFunds(before + "Already have position" + after)
    ensures ClassifyRejection(before + "Already have position" + after) == DuplicatePosition
  {
    ContainsInfix(before, "Already have position", after);
  }

  /** The empty message matches no phrase and is reported as a generic failure. */
  lemma EmptyMessageIsGeneric()
    ensures ClassifyRejection("") == GenericFailure
  {
  }

  /** The direction buttons are disabled once a direction has been chosen. */
  predicate DirectionButtonsDisabled(selected: Option<Direction>)
  {
    selected.Some?
  }

  /** The box's state: its tier, the amount field, the chosen direction, and the calls it submitted. */
  class PositionBox {
    const leverage: int
    var amount: real
    var selectedDirection: Option<Direction>
    var submitted: seq<OpenCall>

    constructor (leverage: int)
      ensures this.leverage == leverage
      ensures amount == 100.0 && selectedDirection == None && submitted == []
    {
      this.leverage := leverage;
      amount := 100.0;
      selectedDirection := None;
      submitted := [];
    }

    /** The amount field and the quick-amount buttons. */
    method SetAmount(value: real)
      modifies this`amount
      ensures amount == value
    {
      amount := value;
    }

    /**
     * `openPosition`: check the guards, submit the call, and on confirmation
     * remember the direction; a failure is classified by its message.
     */
    method OpenPosition(isLong: bool, connected: bool, outcome: TxOutcome) returns (notice: Notice)
      modifies this`selectedDirection, this`submitted
      ensures match Decide(connected, amount, isLong, leverage)
        case NeedWallet =>
          notice == ConnectWalletFirst && submitted == old(submitted) &&
          selectedDirection == old(selectedDirection)
        case BelowMinimum =>
          notice == MinimumPosition && submitted == old(submitted) &&
          selectedDirection == old(selectedDirection)
        case Submit(call) =>
          submitted == old(submitted) + [call] &&
          (outcome.Confirmed? ==>
            notice == Opened(DirectionOf(isLong)) && selectedDirection == Some(DirectionOf(isLong))) &&
          (outcome.Failed? ==>
            notice == Rejected(ClassifyRejection(outcome.message)) &&
            selectedDirection == old(selectedDirection))
      ensures outcome.Confirmed? && connected && amount >= MinimumStake ==>
        DirectionButtonsDisabled(selectedDirection)
    {
      if !connected {
        return ConnectWalletFirst;
      }
      if amount < MinimumStake {
        return MinimumPosition;
      }
      var amountInCents := ToCents(amount);
      var direction := if isLong then 0 else 1;
      submitted := submitted + [OpenCall(direction, leverage, amountInCents)];
      match outcome {
        case Confirmed =>
          notice := Opened(DirectionOf(isLong));
          selectedDirection := Some(DirectionOf(isLong));
        case Failed(message) =>
          notice := Rejected(ClassifyRejection(message));
      }
    }
  }
}
