# BTC Leverage Trainer: a verified model of its settlement, scheduling and display rules

BTC Leverage Trainer is a paper-trading game. Each day a player may hold one
position per leverage tier (1x, 2x, 10x) on whether the Bitcoin price rises or
falls. An on-chain ledger holds the balances. A backend automation service
closes the day at midnight (host time) and opens the next one, and a React frontend
lets players open positions and read back yesterday's results.

This project models in Dafny the logic of that system that can be stated exactly:

- `position_history.dfy`: the position history panel. This is the settlement
  it predicts (`calculatePnL`: tier multipliers, 10x liquidation, the loss clamp
  at zero), which of yesterday's three tier positions it loads (an imperative
  loop over tiers 0..2), and which badge or button each card shows.
- `scheduler.dfy`: the automation service. This is the price oracle client
  (`getBTCPrice`, USD to whole cents) and `resolveDailyMarket`, a method on a
  `Ledger` class that keeps the day slot and a trace of the calls the service
  submitted, with the scheduled handler that swallows a failed cycle.
- `leverage_box.dfy`: one tier's position box. This covers the wallet and
  minimum-stake guards, the cents and direction encoding of `openPosition`, the
  ordered classification of rejection messages, and the direction buttons
  locking after a confirmed open.
- `leaderboard_view.dfy`: the leaderboard. This covers filtering out empty
  slots, ranking from 1, tab titles, address shortening and rank marks.
- `app.dfy`: the main page. This covers `formatTimeLeft`, the announced daily
  bonus, cents-to-dollars scaling in the two loaders, and the two render guards.
- `prediction_card.dfy`: the yes/no prediction card. This covers the
  countdown, the minimum-stake guard, the odds split, the participant estimate
  and the category symbol.
- `units.dfy`, `text.dfy`, `wrappers.dfy`: shared pieces.
  - `units.dfy` holds cents and dollars, and the direction codes.
  - `text.dfy` holds JavaScript's `String.prototype.includes`, proved equal to
    "occurs at some index".
  - `wrappers.dfy` holds `Option` and `Result`.

Every piece of code that changes things in place is a class with `modifies`
clauses, except the leaderboard's `loadLeaderboard`. That one is the function
`LeaderboardView.LoadLeaderboard`, from the current rows to the new rows. Each
class is proved against a specification function: the ledger's
`ResolveDailyMarket` against `Scheduler.Cycle`, the loader's loop against
`PositionHistory.YesterdayPositions`, and `RunTriggers` against
`Scheduler.Replay`. The properties of those functions are then proved as
lemmas.

Sources of nondeterminism are parameters:
- The oracle is a sequence of quotes for each cycle. An entry of `None` is a
  failed request, and reading past the end also gives `None`.
- Each ledger transaction has a confirmed or failed flag.
- The frontend's contract reads are `Option` values, or maps in which a
  missing key means the read threw.
- The current time is passed in as `now`.

Money and prices are exact `real` and `int` values. `Math.floor` is `.Floor`
and JavaScript's truncating `%` is written out (`App.JsRemainder`).

## Model

| member | source | states |
|---|---|---|
| PositionHistory.CalculatePnL | frontend/src/components/PositionHistory.js:84-108 | the final amount is never negative; `isProfit` holds exactly when the P&L is positive; `priceChange` is the percentage move; a liquidated position loses its whole stake and gets nothing back |
| PositionHistory.MultiplierByTier | frontend/src/components/PositionHistory.js:86-87 | the multiplier is 1 for tier 0, 2 for tier 1 and 10 for any other index; the leveraged percentage is the move times the multiplier for LONG and its negation for SHORT |
| PositionHistory.LiquidationRule | frontend/src/components/PositionHistory.js:89-96 | liquidation happens exactly at tier 2, for LONG when the move is at most -10 % and for SHORT when it is at least +10 % (boundary included); tiers 0 and 1 never liquidate |
| PositionHistory.SettlementWithoutLiquidation | frontend/src/components/PositionHistory.js:98-99 | without liquidation the P&L is amount × percentage / 100 and the final amount is max(0, amount + P&L) |
| PositionHistory.FlatMarket | frontend/src/components/PositionHistory.js:85-104 | an unchanged price gives zero P&L, no profit, no liquidation, and the stake back |
| PositionHistory.TwoXDeepLossClamps | frontend/src/components/PositionHistory.js:86-99 | at 2x a LONG that lost 50 % or more is not liquidated, yet its final amount is clamped to 0 |
| PositionHistory.TenXSurvivorKeepsStake | frontend/src/components/PositionHistory.js:86-99 | at 10x a positive stake that escaped liquidation always keeps a positive final amount |
| PositionHistory.ProfitFollowsDirection | frontend/src/components/PositionHistory.js:85-104 | for a positive stake, profit is reported exactly when the price moved the position's way, at every tier |
| PositionHistory.TwoXLongScenario | frontend/src/components/PositionHistory.js:84-108 | $100 at 2x LONG with a +5 % move: +$10, final $110 |
| PositionHistory.TenXShortLiquidatedScenario | frontend/src/components/PositionHistory.js:84-108 | $500 at 10x SHORT with a +11 % move: liquidated, -$500, final $0 |
| PositionHistory.CardAction | frontend/src/components/PositionHistory.js:168-176 | a claimed card shows the Claimed badge even when liquidated; the Liquidated badge shows exactly when unclaimed and liquidated; the close button shows exactly when unclaimed and not liquidated |
| PositionHistory.CollectYesterday | frontend/src/components/PositionHistory.js:10-37 | the loop over tiers 0, 1, 2 pushes exactly the cards of `YesterdayPositions` |
| PositionHistory.ReadTier | frontend/src/components/PositionHistory.js:14-36 | one tier's reads and tests (position read, positive stake, that tier's own market read, resolved) yield exactly `CardFor` of that tier; any failure yields no card |
| PositionHistory.CardsFromShape | frontend/src/components/PositionHistory.js:13-33 | the cards from tier `from` on are at most 3 - from, in strictly increasing tier order, each equal to what its own tier's reads yield |
| PositionHistory.CardsFromAbove | frontend/src/components/PositionHistory.js:13 | every card collected from tier `from` on has tier `from` or above |
| PositionHistory.CardsFromComplete | frontend/src/components/PositionHistory.js:13-37 | a tier is shown exactly when its own position read succeeds with a positive amount and its own market read succeeds with a resolved market |
| PositionHistory.YesterdayPositionsSpec | frontend/src/components/PositionHistory.js:9-40 | at most 3 cards, increasing tiers, all read from day `currentDay - 1` with amount > 0 and a resolved market, decoded from cents; each tier is present exactly when its own position read and its own market read qualify, so a failed read, of either kind, drops only that tier |
| PositionHistory.HistoryPanel.constructor | frontend/src/components/PositionHistory.js:6 | the panel starts with no cards |
| PositionHistory.HistoryPanel.LoadYesterdayPositions | frontend/src/components/PositionHistory.js:9-40 | the panel's list becomes `YesterdayPositions` of the ledger view |
| PositionHistory.HistoryPanel.OnDayChanged | frontend/src/components/PositionHistory.js:42-46 | the list is reloaded only with a contract and `currentDay > 0`; otherwise it is unchanged |
| Units.DirectionCode | frontend/src/components/LeverageBox.js:19 | LONG is sent as 0 and SHORT as 1 |
| Units.DirectionOfCode | frontend/src/components/PositionHistory.js:24 | code 0 reads back as LONG, any other code as SHORT |
| Units.DirectionCodeRoundTrip | frontend/src/components/PositionHistory.js:24 | decoding an encoded direction gives the direction that was sent |
| Units.ToCents | backend/index.js:26 | `Math.floor(x * 100)`: the largest whole number of cents not above the amount |
| Units.ToDollars | frontend/src/App.js:62 | dollars times 100 give back the ledger's cents |
| Units.ToCentsOfDollars | frontend/src/components/LeverageBox.js:18 | converting ledger cents to dollars and back to cents loses nothing |
| Units.ToCentsMonotone | backend/index.js:26 | rounding down to cents never reverses the order of two quotes |
| Units.ToCentsAtLeast | frontend/src/components/LeverageBox.js:13-18 | an amount of at least d dollars is at least 100·d cents |
| Text.ContainsSound | frontend/src/components/LeverageBox.js:27 | when `includes` succeeds the phrase occurs at some index |
| Text.ContainsComplete | frontend/src/components/LeverageBox.js:27 | wherever the phrase occurs, `includes` finds it |
| Text.ContainsIff | frontend/src/components/LeverageBox.js:27-33 | `includes` holds exactly when the phrase occurs at some index |
| Text.ContainsInfix | frontend/src/components/LeverageBox.js:27-33 | a message built around a phrase contains it |
| Scheduler.GetBTCPrice | backend/index.js:19-31 | a quote that arrives always becomes `Ok` of its whole cents rounded down; a failed request is exactly the oracle error, and there is never a fallback price |
| Scheduler.CycleCallShapes | backend/index.js:51-69 | a cycle only appends to the trace: nothing, resolve, start, or resolve then start; with no active day only starts |
| Scheduler.ActiveCycle | backend/index.js:51-69 | with an active day and a cooperating world: exactly `resolveDay` at the first quote, then `startNewDay` at the second, and the next day is open |
| Scheduler.InactiveCycle | backend/index.js:51-69 | with no active day: never `resolveDay`, at most one `startNewDay` priced from the first quote, and a completed start opens the next day |
| Scheduler.EarlyFailureLeavesLedger | backend/index.js:44-53 | a failed market read or a failed first quote leaves the ledger and the trace unchanged and reports a failure |
| Scheduler.FailureAfterResolve | backend/index.js:53-77 | after a confirmed `resolveDay`, a failed second quote or start leaves the day resolved and no new day started, and reports a failure; a failed second quote submits nothing more than `resolveDay` (oracle failure reported), a refused start submits exactly `resolveDay` then `startNewDay` (start failure reported) |
| Scheduler.ResolveRejectedStops | backend/index.js:56-57 | a refused `resolveDay` ends the cycle: no second quote, no `startNewDay`, the day stays active, and the resolve failure is reported |
| Scheduler.CompletedOpensNextDay | backend/index.js:64-72 | a completed cycle always ends with `startNewDay` and leaves the next day index active |
| Scheduler.NextTriggerCompletesHalfCycle | backend/index.js:81-88 | after a cycle that failed past `resolveDay`, the next trigger submits only the missing `startNewDay` and completes |
| Scheduler.OutcomesSpec | backend/index.js:81-88 | the i-th trigger reports the outcome of its own cycle, run on the ledger the earlier triggers left; one outcome per trigger |
| Scheduler.ReplayGrows | backend/index.js:81-88 | over any run of triggers the trace only grows, by at most two calls per trigger, and the day index never goes back and rises by at most one per trigger |
| Scheduler.Ledger.ResolveDay | backend/index.js:56-57 | the call is appended to the trace; once confirmed the day is closed |
| Scheduler.Ledger.StartNewDay | backend/index.js:68-69 | the call is appended to the trace; once confirmed the next day is open |
| Scheduler.Ledger.ResolveDailyMarket | backend/index.js:34-78 | the new ledger state and the outcome are exactly `Cycle` of the old state |
| Scheduler.Ledger.ScheduledTask | backend/index.js:81-88 | a failed cycle is swallowed: the ledger is left as the cycle left it |
| Scheduler.Ledger.RunTriggers | backend/index.js:81-88 | every trigger runs whatever the earlier ones did; the final state is `Replay` of the initial one and the outcomes are `Outcomes` of it |
| LeverageBox.Decide | frontend/src/components/LeverageBox.js:8-20 | no wallet: no call; under $10: no call; otherwise a call at the box's tier with floor(amount × 100) ≥ 1000 cents and direction 0 for LONG, 1 for SHORT |
| LeverageBox.SubmitsLedgerCents | frontend/src/components/LeverageBox.js:18-20 | an amount entered as whole cents (≥ 1000) is submitted as exactly those cents |
| LeverageBox.ClassifyRejection | frontend/src/components/LeverageBox.js:25-37 | ordered classification: a balance phrase first, then duplicate position, then trading ended, then user rejected, else generic; each category holds exactly when its phrase occurs and no earlier phrase does |
| LeverageBox.BalanceWins | frontend/src/components/LeverageBox.js:27-28 | a message containing a balance phrase is a balance rejection, whatever else it says |
| LeverageBox.DuplicateWinsOverLater | frontend/src/components/LeverageBox.js:29-30 | a message naming a duplicate position without a balance phrase is a duplicate rejection |
| LeverageBox.EmptyMessageIsGeneric | frontend/src/components/LeverageBox.js:35-36 | an empty message is a generic failure |
| LeverageBox.PositionBox.constructor | frontend/src/components/LeverageBox.js:5-6 | the box starts at $100 with no direction chosen |
| LeverageBox.PositionBox.SetAmount | frontend/src/components/LeverageBox.js:60-67 | the amount field takes the value entered |
| LeverageBox.PositionBox.OpenPosition | frontend/src/components/LeverageBox.js:8-39 | the guards submit nothing and leave the direction unset; a submitted call is `Decide`'s; only a confirmed call sets the direction, after which both direction buttons are disabled (lines 70, 73); a failure is classified by its message |
| LeaderboardView.Occupied | frontend/src/components/LeaderboardView.js:17 | no kept entry has the zero address; every occupied entry is kept; the output is no longer than the board |
| LeaderboardView.OccupiedAppend | frontend/src/components/LeaderboardView.js:16-17 | filtering commutes with concatenation, so the kept entries keep their relative order |
| LeaderboardView.OccupiedKeepsAll | frontend/src/components/LeaderboardView.js:17 | a board without empty slots is kept whole |
| LeaderboardView.Ranked | frontend/src/components/LeaderboardView.js:18-23 | one row per entry |
| LeaderboardView.Rows | frontend/src/components/LeaderboardView.js:16-23 | row i has rank i + 1 and a non-zero address; no more rows than board entries |
| LeaderboardView.RowsSpec | frontend/src/components/LeaderboardView.js:16-23 | ranks are exactly 1..n, strictly increasing, and row i carries the i-th kept entry's address, score and timestamp |
| LeaderboardView.FullBoardListed | frontend/src/components/LeaderboardView.js:16-23 | a board with no empty slot is listed in full and in order |
| LeaderboardView.LoadLeaderboard | frontend/src/components/LeaderboardView.js:12-28 | without a contract, or when the fetch fails, the rows are unchanged; a fetched board replaces them |
| LeaderboardView.LeaderboardName | frontend/src/components/LeaderboardView.js:30-33 | `names[type]` for types 0..4 and "Points" otherwise |
| LeaderboardView.PointsTitle | frontend/src/components/LeaderboardView.js:30-33 | the title is "Points" exactly for type 0 and for unknown types |
| LeaderboardView.Head | frontend/src/components/LeaderboardView.js:36 | `slice(0, n)`: the first min(length, n) characters |
| LeaderboardView.Tail | frontend/src/components/LeaderboardView.js:36 | `slice(-n)` for n > 0: the last min(length, n) characters |
| LeaderboardView.FormatAddress | frontend/src/components/LeaderboardView.js:35-37 | the first six characters, "...", then the last four (fewer for a short address) |
| LeaderboardView.FormatFullAddress | frontend/src/components/LeaderboardView.js:35-37 | a 42-character address becomes 13 characters: its first 6, "...", its last 4 |
| LeaderboardView.RankMarks | frontend/src/components/LeaderboardView.js:84-87 | each rank ≥ 1 shows exactly one mark, `#n` above 3, and rank < 1 shows none |
| LeaderboardView.ListedRowsShowOneMark | frontend/src/components/LeaderboardView.js:82-87 | every listed row shows one mark, and the gold, silver and bronze medals go to the first three rows |
| App.JsRemainder | frontend/src/App.js:138 | JavaScript `%`: the remainder differs from the dividend by a multiple of the divisor, has the sign of the dividend and is below the divisor in magnitude (so `-5 % 3` is `-2`) |
| App.FormatTimeLeft | frontend/src/App.js:136-140 | minutes lie in -60..59; for s ≥ 0 they lie in 0..59 and 3600·h + 60·m ≤ s < 3600·h + 60·m + 60 |
| App.FormatTimeLeftUnique | frontend/src/App.js:136-139 | for s ≥ 0 the printed hours and minutes are the only pair that brackets s to the minute |
| App.TimeLeftLine | frontend/src/App.js:192 | the time-left line shows exactly when `timeLeft > 0`; its hours ≥ 0 and minutes in 0..59 bracket `timeLeft` to the minute, which fixes them as `formatTimeLeft(timeLeft)` |
| App.BonusAmount | frontend/src/App.js:116-117 | the announced bonus is $5 plus the new streak |
| App.BonusPerStreakDay | frontend/src/App.js:117 | $5 at no streak and one more dollar per streak day |
| App.StatsOf | frontend/src/App.js:79-87 | balance and total P&L are ledger cents / 100; the counters are copied as read |
| App.StatsRoundTrip | frontend/src/App.js:75-83 | the displayed balance and P&L convert back to exactly the ledger's cents |
| App.HistoryReadsValidDay | frontend/src/App.js:179 | whenever the history is rendered, the day it reads, `currentDay - 1`, is not negative |
| App.Page.constructor | frontend/src/App.js:15-19 | the page starts with zero price, time, day and balance and no statistics |
| App.Page.LoadMarketData | frontend/src/App.js:58-69 | on success the price is cents / 100, the time left is the third field and the day the first; on failure nothing changes |
| App.Page.LoadUserData | frontend/src/App.js:72-91 | on success the balance is cents / 100 and the statistics are `StatsOf` the account; on failure nothing changes |
| PredictionCard.Countdown | frontend/src/components/PredictionCard.js:30-41 | "Ended" exactly when nothing remains; otherwise hours ≥ 0 and minutes in 0..59 bracket the remaining seconds to the minute |
| PredictionCard.CountdownAgreesWithPage | frontend/src/components/PredictionCard.js:37-38 | on a positive remainder the card shows the same hours and minutes as the page's `formatTimeLeft` of the whole seconds |
| PredictionCard.ButtonsFollowEndTime | frontend/src/components/PredictionCard.js:111 | the stake buttons are disabled exactly when the end time has passed (lines 111 and 118) |
| PredictionCard.Odds | frontend/src/components/PredictionCard.js:62-64 | no stake: 50/50; otherwise each share times the total is 100 times its side's stake, the shares sum to 100 and each lies in [0, 100]; YES leads exactly when more is staked on YES |
| PredictionCard.SharesSum | frontend/src/components/PredictionCard.js:63-64 | the two computed shares sum to 100, each lies in [0, 100], and their order follows the stakes |
| PredictionCard.Participants | frontend/src/components/PredictionCard.js:127 | floor(total / 50): 50·n ≤ total < 50·n + 50 |
| PredictionCard.CategorySymbol | frontend/src/components/PredictionCard.js:51-60 | a known category's symbol, and the target for any other |
| PredictionCard.DefaultOnlyForUnknown | frontend/src/components/PredictionCard.js:59 | the target shows exactly for categories not in the table |
| PredictionCard.Card.constructor | frontend/src/components/PredictionCard.js:5-7 | a stake of 50, an empty label, nothing passed on |
| PredictionCard.Card.SetStakeAmount | frontend/src/components/PredictionCard.js:100-103 | the stake takes the chosen amount |
| PredictionCard.Card.UpdateTimeLeft | frontend/src/components/PredictionCard.js:30-41 | the label becomes `Countdown(endTime, now)` |
| PredictionCard.Card.HandleStake | frontend/src/components/PredictionCard.js:43-49 | below 10 points nothing is passed on; otherwise exactly one call (id, side, stake) is appended |

## Left out

- Floating point: prices, amounts and percentages are exact reals. IEEE rounding of `Math.floor(price * 100)`, `/ 100` and the percentages is not modelled. Neither is the text rendering (`toFixed`, `toLocaleString`, `` `${h}h ${m}m` ``, `#n`), nor a NaN amount typed into the field.
- Emoji glyphs: the medals and category symbols are enumeration values, not characters.
- Network and ledger I/O are parameters.
  - The CoinGecko request, the ethers provider and wallet, and `tx.wait()` finality become success flags and quote lists.
  - Log output is dropped.
  - So are the 5-second settling delay (backend/index.js:61), the cron timing, the `RUN_ON_START` flag and the SIGINT handler.
- Ledger contract internals: the contract is not part of this model.
  - The service sees its documented effect: a confirmed `resolveDay` closes the active day, and a confirmed `startNewDay` opens day index + 1.
  - A refused call is still recorded in the trace as submitted.
  - Balances, one position per tier and claiming are not modelled.
- The position loader's reads are given as one ledger view, with a position read and a market read for each tier. The order of the reads in time, and any change in the ledger between them, are not modelled.
- The frontend's `emojis[category]` also finds inherited object properties such as `constructor`. The model looks up only the five listed categories.
- `getTodayMarket`'s third field is declared `bool isActive` by the service and read as seconds left by the page. Each file is modelled as written.
- React rendering, hooks, intervals and `onSuccess` callbacks are not modelled. The state updates they trigger are modelled as class methods.
- `closePosition`, the confetti and win sound, `alert` texts, dark mode, wallet connection (ConnectWallet.js and `connectWallet`), `handleInitialize`, `loadUserPosition` and `refreshData` are outside the modelled core.
- UserStats.js, UserBalance.js and the one-off deployment and resolution scripts under scripts/ are not part of this model.
- PositionHistory.CalculatePnL: requires a positive start price. At a zero start price JavaScript computes an infinite or NaN percentage, and NaN comparisons leave `isLiquidated` false; that behaviour is not modelled.
- App.BonusAmount: its contract is the announced formula itself. The stated property is the partner lemma `App.BonusPerStreakDay`.
