/**
 * A yes/no prediction card: its countdown, the minimum-stake guard in front
 * of the stake callback, the odds bar, the participant estimate and the
 * category symbol.
 */
module PredictionCard {
  import opened Wrappers
  import App

  /** The countdown label: empty before the first tick, then "Ended" or hours and minutes. */
  datatype Label = Unset | Ended | Remaining(hours: int, minutes: int)

  /** A call of the `onPlaceStake` callback. */
  datatype StakeCall = StakeCall(predictionId: int, isYes: bool, amount: int)

  /** The symbols a category badge can show. */
  datatype Symbol = Bitcoin | SoccerBall | SunBehindCloud | TearsOfJoy | ChartIncreasing | DirectHit

  /** The smallest stake, in points, passed on. */
  const MinimumStake: int := 10

  /** The known categories and their symbols. */
  const CategorySymbols: map<string, Symbol> := map[
    "crypto" := Bitcoin,
    "sports" := SoccerBall,
    "weather" := SunBehindCloud,
    "memes" := TearsOfJoy,
    "markets" := ChartIncreasing]

  /**
   * `updateTimeLeft`'s label for the current instant `now` (seconds, possibly
   * fractional): "Ended" once nothing remains, otherwise the whole hours and
   * the whole minutes of the rest. For a positive `remaining`, JavaScript's
   * `remaining % 3600` is `remaining - 3600 * floor(remaining / 3600)`.
   */
  function Countdown(endTime: real, now: real): (l: Label)
    ensures l != Unset
    ensures l == Ended <==> endTime - now <= 0.0
    ensures l.Remaining? ==>
      0 <= l.hours && 0 <= l.minutes < 60 &&
      (3600 * l.hours + 60 * l.minutes) as real <= endTime - now < (3600 * l.hours + 60 * l.minutes + 60) as real
  {
    var remaining := endTime - now;
    if remaining <= 0.0 then Ended
    else
      var hours := (remaining / 3600.0).Floor;
      var rest := remaining - 3600.0 * hours as real;
      Remaining(hours, (rest / 60.0).Floor)
  }

  /** On a positive remainder the card's countdown agrees with the page's `formatTimeLeft` of the whole seconds. */
  lemma CountdownAgreesWithPage(endTime: real, now: real)
    requires endTime - now > 0.0
    ensures var whole := App.FormatTimeLeft((endTime - now).Floor);
      Countdown(endTime, now) == Remaining(whole.hours, whole.minutes)
  {
    var l := Countdown(endTime, now);
    var s := (endTime - now).Floor;
    assert 3600 * l.hours + 60 * l.minutes <= s;
    assert s < 3600 * l.hours + 60 * l.minutes + 60;
    App.FormatTimeLeftUnique(s, l.hours, l.minutes);
  }

  /** The stake buttons are disabled exactly when the label reads "Ended". */
  predicate StakeButtonsDisabled(l: Label)
  {
    l == Ended
  }

  /** Once the end time has passed, the card refuses stakes; before it, it accepts them. */
  lemma ButtonsFollowEndTime(endTime: real, now: real)
    ensures StakeButtonsDisabled(Countdown(endTime, now)) <==> endTime <= now
  {
  }

  /**
   * The odds bar: each side's share of the total stake in percent, or 50/50
   * when nothing is staked (before `toFixed(1)` rounding).
   */
  function Odds(totalYes: nat, totalNo: nat): (pair: (real, real))
    ensures totalYes + totalNo == 0 ==> pair == (50.0, 50.0)
    ensures totalYes + totalNo > 0 ==>
      pair.0 + pair.1 == 100.0 && 0.0 <= pair.0 <= 100.0 && 0.0 <= pair.1 <= 100.0
    ensures pair.0 > pair.1 <==> totalYes > totalNo
    ensures totalYes + totalNo > 0 ==>
      pair.0 * (totalYes + totalNo) as real == 100.0 * totalYes as real &&
      pair.1 * (totalYes + totalNo) as real == 100.0 * totalNo as real
  {
    var total := totalYes + totalNo;
    if total > 0 then
      SharesSum(totalYes, totalNo);
      (totalYes as real / total as real * 100.0, totalNo as real / total as real * 100.0)
    else (50.0, 50.0)
  }

  lemma SharesSum(yes: nat, no: nat)
    requires yes + no > 0
    ensures var t := (yes + no) as real;
      yes as real / t * 100.0 + no as real / t * 100.0 == 100.0 &&
      0.0 <= yes as real / t * 100.0 <= 100.0 && 0.0 <= no as real / t * 100.0 <= 100.0 &&
      (yes as real / t * 100.0 > no as real / t * 100.0 <==> yes > no)
  {
    var t := (yes + no) as real;
    assert yes as real / t + no as real / t == 1.0;
    assert yes as real / t <= 1.0;
    assert no as real / t <= 1.0;
    var d := (yes as real - no as real) / t;
    assert yes as real / t - no as real / t == d;
    assert d > 0.0 <==> yes > no;
  }

  /** The participant estimate: one participant per 50 points staked, rounded down. */
  function Participants(totalStake: nat): (n: nat)
    ensures 50 * n <= totalStake < 50 * n + 50
  {
    totalStake / 50
  }

  /** `getCategoryEmoji`: the known category's symbol, and the target for any other. */
  function CategorySymbol(category: string): (s: Symbol)
    ensures category in CategorySymbols ==> s == CategorySymbols[category]
    ensures category !in CategorySymbols ==> s == DirectHit
  {
    if category in CategorySymbols then CategorySymbols[category] else DirectHit
  }

  /** The target shows exactly for the categories the card does not know. */
  lemma DefaultOnlyForUnknown(category: string)
    ensures CategorySymbol(category) == DirectHit <==> category !in CategorySymbols
  {
  }

  /** The card's state: its prediction, the chosen stake, the countdown label and the stakes passed on. */
  class Card {
    const predictionId: int
    const endTime: real
    var stakeAmount: int
    var timeLeft: Label
    var placed: seq<StakeCall>

    constructor (predictionId: int, endTime: real)
      ensures this.predictionId == predictionId && this.endTime == endTime
      ensures stakeAmount == 50 && timeLeft == Unset && placed == []
    {
      this.predictionId := predictionId;
      this.endTime := endTime;
      stakeAmount := 50;
      timeLeft := Unset;
      placed := [];
    }

    /** The stake buttons (10, 50, 100, 250). */
    method SetStakeAmount(amount: int)
      modifies this`stakeAmount
      ensures stakeAmount == amount
    {
      stakeAmount := amount;
    }

    /** `updateTimeLeft`, run on every tick of the interval. */
    method UpdateTimeLeft(now: real)
      modifies this`timeLeft
      ensures timeLeft == Countdown(endTime, now)
    {
      var remaining := endTime - now;
      if remaining <= 0.0 {
        timeLeft := Ended;
      } else {
        var hours := (remaining / 3600.0).Floor;
        var minutes := ((remaining - 3600.0 * hours as real) / 60.0).Floor;
        timeLeft := Remaining(hours, minutes);
      }
    }

    /** `handleStake`: below the minimum nothing is passed on; otherwise the callback is called once. */
    method HandleStake(isYes: bool) returns (called: bool)
      modifies this`placed
      ensures called <==> stakeAmount >= MinimumStake
      ensures placed == old(placed) + if called then [StakeCall(predictionId, isYes, stakeAmount)] else []
    {
      if stakeAmount < MinimumStake {
        return false;
      }
      placed := placed + [StakeCall(predictionId, isYes, stakeAmount)];
      return true;
    }
  }
}
