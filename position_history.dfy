/**
 * The position history panel: which of yesterday's three positions it shows,
 * the leveraged settlement it predicts for each, and the badge or button under it.
 */
module PositionHistory {
  import opened Wrappers
  import opened Units

  /** A position as the panel holds it after loading: dollars, not cents. */
  datatype Shown = Shown(
    leverage: int,
    leverageName: string,
    direction: Direction,
    amount: real,
    claimed: bool,
    liquidated: bool,
    startPrice: real,
    endPrice: real,
    resolved: bool)

  /** What `calculatePnL` returns. */
  datatype PnL = PnL(
    pnlAmount: real,
    finalAmount: real,
    isProfit: bool,
    priceChange: real,
    isLiquidated: bool)

  /** The badge or button under a position card. */
  datatype Action = ClaimedBadge | LiquidatedBadge | CloseButton

  // ---------------------------------------------------------------------------
  // Settlement

  /** Percentage move of the price over the day. */
  function PriceChange(startPrice: real, endPrice: real): real
    requires startPrice > 0.0
  {
    (endPrice - startPrice) / startPrice * 100.0
  }

  /** The tier index selects 1x, 2x, and 10x for every other index. */
  function Multiplier(leverage: int): real
  {
    if leverage == 0 then 1.0 else if leverage == 1 then 2.0 else 10.0
  }

  /** The move in the position's favour, scaled by the tier's multiplier. */
  function PnlPercent(p: Shown): real
    requires p.startPrice > 0.0
  {
    var change := PriceChange(p.startPrice, p.endPrice);
    if p.direction == Long then change * Multiplier(p.leverage) else -change * Multiplier(p.leverage)
  }

  /** Only the 10x tier (index 2) liquidates, once the move against the position reaches 10 percent. */
  predicate Liquidates(p: Shown)
    requires p.startPrice > 0.0
  {
    var change := PriceChange(p.startPrice, p.endPrice);
    p.leverage == 2 &&
    ((p.direction == Long && change <= -10.0) || (p.direction == Short && change >= 10.0))
  }

  /** `calculatePnL`: the settlement the panel predicts for a position. */
  function CalculatePnL(p: Shown): (r: PnL)
    requires p.startPrice > 0.0
    ensures r.finalAmount >= 0.0
    ensures r.isProfit <==> r.pnlAmount > 0.0
    ensures r.priceChange == PriceChange(p.startPrice, p.endPrice)
    ensures r.isLiquidated ==> r.pnlAmount == -p.amount && r.finalAmount == 0.0
  {
    var liquidated := Liquidates(p);
    var pnlAmount := if liquidated then -p.amount else p.amount * PnlPercent(p) / 100.0;
    var finalAmount := if liquidated then 0.0 else Max(0.0, p.amount + pnlAmount);
    PnL(pnlAmount, finalAmount, pnlAmount > 0.0, PriceChange(p.startPrice, p.endPrice), liquidated)
  }

  function Max(a: real, b: real): real
  {
    if a >= b then a else b
  }

  /** The tier multipliers, and the sign of the move for each direction. */
  lemma MultiplierByTier(p: Shown)
    requires p.startPrice > 0.0
    ensures p.leverage == 0 ==> Multiplier(p.leverage) == 1.0
    ensures p.leverage == 1 ==> Multiplier(p.leverage) == 2.0
    ensures p.leverage != 0 && p.leverage != 1 ==> Multiplier(p.leverage) == 10.0
    ensures p.direction == Long ==>
      PnlPercent(p) == CalculatePnL(p).priceChange * Multiplier(p.leverage)
    ensures p.direction == Short ==>
      PnlPercent(p) == -CalculatePnL(p).priceChange * Multiplier(p.leverage)
  {
  }

  /**
   * Liquidation happens at tier index 2 only, with the boundary included:
   * LONG when the price fell by 10 percent or more, SHORT when it rose by 10 percent or more.
   */
  lemma LiquidationRule(p: Shown)
    requires p.startPrice > 0.0
    ensures CalculatePnL(p).isLiquidated <==>
      p.leverage == 2 &&
      ((p.direction == Long && (p.endPrice - p.startPrice) / p.startPrice * 100.0 <= -10.0) ||
       (p.direction == Short && (p.endPrice - p.startPrice) / p.startPrice * 100.0 >= 10.0))
    ensures p.leverage != 2 ==> !CalculatePnL(p).isLiquidated
  {
  }

  /** Without liquidation the stake moves by the leveraged percentage and a loss stops at zero. */
  lemma SettlementWithoutLiquidation(p: Shown)
    requires p.startPrice > 0.0
    requires !CalculatePnL(p).isLiquidated
    ensures CalculatePnL(p).pnlAmount == p.amount * PnlPercent(p) / 100.0
    ensures CalculatePnL(p).finalAmount == Max(0.0, p.amount + p.amount * PnlPercent(p) / 100.0)
  {
  }

  /** An unchanged price settles to the stake itself with no profit. */
  lemma FlatMarket(p: Shown)
    requires p.startPrice > 0.0 && p.endPrice == p.startPrice
    requires p.amount >= 0.0
    ensures CalculatePnL(p).pnlAmount == 0.0
    ensures !CalculatePnL(p).isProfit
    ensures CalculatePnL(p).finalAmount == p.amount
    ensures !CalculatePnL(p).isLiquidated
  {
    assert PriceChange(p.startPrice, p.endPrice) == 0.0;
  }

  /**
   * At 2x a LONG that lost half or more is not liquidated, yet its final amount
   * is clamped to zero: the tier asymmetry the panel preserves.
   */
  lemma TwoXDeepLossClamps(p: Shown)
    requires p.startPrice > 0.0 && p.amount >= 0.0
    requires p.leverage == 1 && p.direction == Long
    requires PriceChange(p.startPrice, p.endPrice) <= -50.0
    ensures !CalculatePnL(p).isLiquidated
    ensures CalculatePnL(p).finalAmount == 0.0
    ensures CalculatePnL(p).pnlAmount <= -p.amount
  {
    var change := PriceChange(p.startPrice, p.endPrice);
    assert PnlPercent(p) == change * 2.0;
    assert p.amount * (change * 2.0) <= p.amount * -100.0 by {
      assert change * 2.0 <= -100.0;
    }
  }

  /** At 10x a position that escaped liquidation always keeps part of its stake. */
  lemma TenXSurvivorKeepsStake(p: Shown)
    requires p.startPrice > 0.0 && p.amount > 0.0
    requires p.leverage == 2
    requires !CalculatePnL(p).isLiquidated
    ensures CalculatePnL(p).finalAmount > 0.0
  {
    var change := PriceChange(p.startPrice, p.endPrice);
    var pct := PnlPercent(p);
    assert pct > -100.0 by {
      if p.direction == Long {
        assert change > -10.0 && pct == change * 10.0;
      } else {
        assert change < 10.0 && pct == -change * 10.0;
      }
    }
    StakeSurvives(p.amount, pct);
    SettlementWithoutLiquidation(p);
  }

  /** A loss of less than 100 percent leaves part of a positive stake. */
  lemma StakeSurvives(amount: real, pct: real)
    requires amount > 0.0 && pct > -100.0
    ensures amount + amount * pct / 100.0 > 0.0
  {
    assert amount * (pct + 100.0) > 0.0;
    assert amount + amount * pct / 100.0 == amount * (pct + 100.0) / 100.0;
  }

  /** For a real stake, the panel reports a profit exactly when the price moved the position's way. */
  lemma ProfitFollowsDirection(p: Shown)
    requires p.startPrice > 0.0 && p.amount > 0.0
    ensures CalculatePnL(p).isProfit <==>
      (if p.direction == Long then p.endPrice > p.startPrice else p.endPrice < p.startPrice)
  {
    var change := PriceChange(p.startPrice, p.endPrice);
    var m := Multiplier(p.leverage);
    assert m > 0.0;
    assert change > 0.0 <==> p.endPrice > p.startPrice by {
      DivisionSign(p.endPrice - p.startPrice, p.startPrice);
    }
    assert change < 0.0 <==> p.endPrice < p.startPrice by {
      DivisionSign(p.endPrice - p.startPrice, p.startPrice);
    }
    if !Liquidates(p) {
      assert PnlPercent(p) > 0.0 <==> (if p.direction == Long then change > 0.0 else change < 0.0) by {
        ProductSign(change, m);
      }
      ProductSign(PnlPercent(p), p.amount);
    }
  }

  lemma DivisionSign(x: real, y: real)
    requires y > 0.0
    ensures x / y * 100.0 > 0.0 <==> x > 0.0
    ensures x / y * 100.0 < 0.0 <==> x < 0.0
  {
  }

  lemma ProductSign(x: real, m: real)
    requires m > 0.0
    ensures x * m > 0.0 <==> x > 0.0
    ensures x * m < 0.0 <==> x < 0.0
    ensures m * x / 100.0 > 0.0 <==> x > 0.0
  {
  }

  /** $100 at 2x LONG while the price rises 5 percent: +10 percent, final $110. */
  lemma TwoXLongScenario()
    ensures var r := CalculatePnL(Shown(1, "2x Leveraged", Long, 100.0, false, false,
                                        96500.0, 101325.0, true));
      r.priceChange == 5.0 && r.pnlAmount == 10.0 && r.finalAmount == 110.0 &&
      r.isProfit && !r.isLiquidated
  {
  }

  /** $500 at 10x SHORT while the price rises 11 percent: liquidated, nothing back. */
  lemma TenXShortLiquidatedScenario()
    ensures var r := CalculatePnL(Shown(2, "10x Leveraged", Short, 500.0, false, false,
                                        100000.0, 111000.0, true));
      r.isLiquidated && r.pnlAmount == -500.0 && r.finalAmount == 0.0 && !r.isProfit
  {
  }

  // ---------------------------------------------------------------------------
  // Badge

  /** A claimed card shows the Claimed badge, a liquidated one the Liquidated badge, any other the close button. */
  function CardAction(p: Shown, pnl: PnL): (a: Action)
    ensures p.claimed ==> a == ClaimedBadge
    ensures a == CloseButton <==> !p.claimed && !pnl.isLiquidated
    ensures a == LiquidatedBadge <==> !p.claimed && pnl.isLiquidated
  {
    if p.claimed then ClaimedBadge else if pnl.isLiquidated then LiquidatedBadge else CloseButton
  }

  // ---------------------------------------------------------------------------
  // Loading yesterday's positions

  /** A position record as the ledger's `getPosition` returns it: amount in cents, direction as a code. */
  datatype LedgerPosition = LedgerPosition(direction: int, amount: int, claimed: bool, liquidated: bool)

  /** A market record as the ledger's `dailyMarkets` returns it: prices in cents. */
  datatype LedgerMarket = LedgerMarket(startPrice: int, endPrice: int, resolved: bool)

  /**
   * What the panel reads from the ledger for the connected account: positions keyed
   * by (day, tier), and the `dailyMarkets(day)` read each tier makes for itself, keyed
   * by (day, tier) too. A missing key is a read that threw.
   */
  datatype LedgerView = LedgerView(
    positions: map<(int, int), LedgerPosition>,
    markets: map<(int, int), LedgerMarket>)

  /** The name printed on a card for a tier index. */
  function LeverageName(leverage: int): string
  {
    if leverage == 0 then "1x Normal" else if leverage == 1 then "2x Leveraged" else "10x Leveraged"
  }

  /** The card built from a ledger position and its market. */
  function MakeShown(leverage: int, pos: LedgerPosition, market: LedgerMarket): Shown
  {
    Shown(leverage, LeverageName(leverage), DirectionOfCode(pos.direction), ToDollars(pos.amount),
          pos.claimed, pos.liquidated, ToDollars(market.startPrice), ToDollars(market.endPrice),
          market.resolved)
  }

  /** The card for one tier of `day`, if both reads succeed, the stake is positive and the market resolved. */
  function CardFor(view: LedgerView, day: int, leverage: int): Option<Shown>
  {
    if (day, leverage) in view.positions && view.positions[(day, leverage)].amount > 0
       && (day, leverage) in view.markets && view.markets[(day, leverage)].resolved
    then Some(MakeShown(leverage, view.positions[(day, leverage)], view.markets[(day, leverage)]))
    else None
  }

  /** The cards for tiers `from`..2 of `day`, in tier order. */
  function CardsFrom(view: LedgerView, day: int, from: nat): seq<Shown>
    decreases 3 - from
  {
    if from > 2 then []
    else
      (match CardFor(view, day, from) case Some(s) => [s] case None => [])
      + CardsFrom(view, day, from + 1)
  }

  /** The cards shown for the day before `currentDay`. */
  function YesterdayPositions(view: LedgerView, currentDay: int): seq<Shown>
  {
    CardsFrom(view, currentDay - 1, 0)
  }

  /** The loop of `loadYesterdayPositions`: tiers 0, 1, 2 in order, a failed read skips its tier. */
  method CollectYesterday(view: LedgerView, currentDay: int) returns (positions: seq<Shown>)
    ensures positions == YesterdayPositions(view, currentDay)
  {
    var yesterday := currentDay - 1;
    positions := [];
    var leverage := 0;
    while leverage <= 2
      invariant 0 <= leverage <= 3
      invariant positions + CardsFrom(view, yesterday, leverage) == CardsFrom(view, yesterday, 0)
    {
      CardsFromStep(view, yesterday, leverage);
      var card := ReadTier(view, yesterday, leverage);
      ghost var before := positions;
      if card.Some? {
        positions := positions + [card.value];
      }
      assert positions == before + OptionalCard(card);
      AppendAssoc(before, OptionalCard(card), CardsFrom(view, yesterday, leverage + 1));
      leverage := leverage + 1;
    }
    assert CardsFrom(view, yesterday, leverage) == [];
  }

  lemma AppendAssoc(a: seq<Shown>, b: seq<Shown>, c: seq<Shown>)
    ensures (a + b) + c == a + (b + c)
  {
  }

  /**
   * One pass of the loop's `try` block: the position read, the stake test, the
   * market read and the resolved test, in that order; any failure skips the tier.
   */
  method ReadTier(view: LedgerView, day: int, leverage: int) returns (card: Option<Shown>)
    ensures card == CardFor(view, day, leverage)
  {
    card := None;
    if (day, leverage) in view.positions {
      var pos := view.positions[(day, leverage)];
      if pos.amount > 0 {
        if (day, leverage) in view.markets {
          var market := view.markets[(day, leverage)];
          if market.resolved {
            card := Some(MakeShown(leverage, pos, market));
          }
        }
      }
    }
  }

  /** The card of one tier as a sequence of zero or one cards. */
  function OptionalCard(card: Option<Shown>): (cards: seq<Shown>)
    ensures |cards| <= 1
  {
    match card case Some(s) => [s] case None => []
  }

  /** `CardsFrom` peels off the card of its first tier. */
  lemma CardsFromStep(view: LedgerView, day: int, from: nat)
    requires from <= 2
    ensures CardsFrom(view, day, from) == OptionalCard(CardFor(view, day, from)) + CardsFrom(view, day, from + 1)
  {
  }

  /** Some card of `cards` is for tier `t`. */
  predicate HasTier(cards: seq<Shown>, t: int)
  {
    exists i :: 0 <= i < |cards| && cards[i].leverage == t
  }

  /** Every card of `CardsFrom` is a tier in from..2, in strictly increasing order, and read from `day`. */
  lemma {:induction false} CardsFromShape(view: LedgerView, day: int, from: nat)
    ensures |CardsFrom(view, day, from)| <= if from > 2 then 0 else 3 - from
    ensures forall i :: 0 <= i < |CardsFrom(view, day, from)| ==>
      from <= CardsFrom(view, day, from)[i].leverage <= 2 &&
      CardFor(view, day, CardsFrom(view, day, from)[i].leverage) == Some(CardsFrom(view, day, from)[i])
    ensures forall i, j :: 0 <= i < j < |CardsFrom(view, day, from)| ==>
      CardsFrom(view, day, from)[i].leverage < CardsFrom(view, day, from)[j].leverage
    decreases 3 - from
  {
    if from <= 2 {
      CardsFromShape(view, day, from + 1);
    }
  }

  /** Every card of `CardsFrom(view, day, from)` is for tier `from` or above. */
  lemma {:induction false} CardsFromAbove(view: LedgerView, day: int, from: nat)
    ensures forall i :: 0 <= i < |CardsFrom(view, day, from)| ==> CardsFrom(view, day, from)[i].leverage >= from
    decreases 3 - from
  {
    if from <= 2 {
      CardsFromAbove(view, day, from + 1);
    }
  }

  lemma HasTierAppend(a: seq<Shown>, b: seq<Shown>, t: int)
    ensures HasTier(a + b, t) <==> HasTier(a, t) || HasTier(b, t)
  {
    if HasTier(a + b, t) {
      var i :| 0 <= i < |a + b| && (a + b)[i].leverage == t;
      if i < |a| {
        assert a[i] == (a + b)[i];
      } else {
        assert b[i - |a|] == (a + b)[i];
      }
    }
    if HasTier(a, t) {
      var i :| 0 <= i < |a| && a[i].leverage == t;
      assert (a + b)[i] == a[i];
    }
    if HasTier(b, t) {
      var j :| 0 <= j < |b| && b[j].leverage == t;
      assert (a + b)[|a| + j] == b[j];
    }
  }

  /** A tier in from..2 has a card exactly when its own reads yield one. */
  lemma {:induction false} CardsFromComplete(view: LedgerView, day: int, from: nat, leverage: int)
    requires from <= leverage <= 2
    ensures CardFor(view, day, leverage).Some? <==> HasTier(CardsFrom(view, day, from), leverage)
    decreases 3 - from
  {
    var head := match CardFor(view, day, from) case Some(s) => [s] case None => [];
    var rest := CardsFrom(view, day, from + 1);
    assert CardsFrom(view, day, from) == head + rest;
    HasTierAppend(head, rest, leverage);
    if CardFor(view, day, from).Some? {
      assert head[0].leverage == from;
    }
    assert HasTier(head, leverage) <==> leverage == from && CardFor(view, day, from).Some?;
    if leverage == from {
      CardsFromAbove(view, day, from + 1);
      assert !HasTier(rest, leverage);
    } else {
      CardsFromComplete(view, day, from + 1, leverage);
    }
  }

  /**
   * The panel shows at most three cards, in increasing tier order; each is read
   * from day `currentDay - 1` with a positive stake and a resolved market, and a
   * tier is shown exactly when its own reads succeed and qualify, so a failed
   * read removes that tier alone.
   */
  lemma YesterdayPositionsSpec(view: LedgerView, currentDay: int)
    ensures var r := YesterdayPositions(view, currentDay);
      |r| <= 3 &&
      (forall i, j :: 0 <= i < j < |r| ==> r[i].leverage < r[j].leverage) &&
      (forall s :: s in r ==>
        0 <= s.leverage <= 2 &&
        (currentDay - 1, s.leverage) in view.positions &&
        view.positions[(currentDay - 1, s.leverage)].amount > 0 &&
        (currentDay - 1, s.leverage) in view.markets && view.markets[(currentDay - 1, s.leverage)].resolved &&
        s == MakeShown(s.leverage, view.positions[(currentDay - 1, s.leverage)], view.markets[(currentDay - 1, s.leverage)])) &&
      (forall t :: 0 <= t <= 2 ==> (HasTier(r, t) <==> CardFor(view, currentDay - 1, t).Some?))
  {
    var r := YesterdayPositions(view, currentDay);
    CardsFromShape(view, currentDay - 1, 0);
    forall s | s in r
      ensures 0 <= s.leverage <= 2 && CardFor(view, currentDay - 1, s.leverage) == Some(s)
    {
      var i :| 0 <= i < |r| && r[i] == s;
    }
    forall t | 0 <= t <= 2
      ensures HasTier(r, t) <==> CardFor(view, currentDay - 1, t).Some?
    {
      CardsFromComplete(view, currentDay - 1, 0, t);
    }
  }

  /** The panel's state: the cards of the last successful load. */
  class HistoryPanel {
    var yesterdayPositions: seq<Shown>

    constructor ()
      ensures yesterdayPositions == []
    {
      yesterdayPositions := [];
    }

    /** `loadYesterdayPositions`: collect the cards, then replace the panel's list. */
    method LoadYesterdayPositions(view: LedgerView, currentDay: int)
      modifies this
      ensures yesterdayPositions == YesterdayPositions(view, currentDay)
    {
      var positions := CollectYesterday(view, currentDay);
      yesterdayPositions := positions;
    }

    /** The effect that reloads when the wallet, account or day changes: only with a day to look back on. */
    method OnDayChanged(connected: bool, currentDay: int, view: LedgerView)
      modifies this
      ensures connected && currentDay > 0 ==> yesterdayPositions == YesterdayPositions(view, currentDay)
      ensures !(connected && currentDay > 0) ==> yesterdayPositions == old(yesterdayPositions)
    {
      if connected && currentDay > 0 {
        LoadYesterdayPositions(view, currentDay);
      }
    }
  }
}
