/**
 * The main page: what it loads from the ledger, how it scales cents to
 * dollars, the header's time-left line, the bonus it announces, and when it
 * shows the position history.
 */
module App {
  import opened Wrappers
  import opened Units

  /** Hours and minutes, as the page prints them (`${hours}h ${minutes}m`). */
  datatype Clock = Clock(hours: int, minutes: int)

  /** `getTodayMarket()` as the page reads it: day, start price in cents, and the third field as seconds left. */
  datatype MarketRead = MarketRead(dayIndex: int, startPrice: int, secondsLeft: int)

  /** `getAccount(address)`: balance and P&L in cents, counters as they are. */
  datatype AccountRead = AccountRead(
    balance: int, totalTrades: int, winningTrades: int, totalPnL: int,
    isNegativePnL: bool, streak: int, bestStreak: int)

  /** The statistics the page keeps, in dollars. */
  datatype UserStats = UserStats(
    balance: real, totalTrades: int, winningTrades: int, totalPnL: real,
    isNegativePnL: bool, streak: int, bestStreak: int)

  /** JavaScript's `a % n` for n > 0: the remainder takes the sign of `a`. */
  function JsRemainder(a: int, n: int): (r: int)
    requires n > 0
    ensures a >= 0 ==> 0 <= r < n
    ensures a < 0 ==> -n < r <= 0
    ensures a >= 0 ==> r == a % n
    ensures (a - r) % n == 0
  {
    if a >= 0 then
      var q := a / n;
      assert a - a % n == q * n;
      MultipleOf(q, n);
      a % n
    else
      var q, m := (-a) / n, (-a) % n;
      assert -a == q * n + m;
      assert a + m == (-q) * n;
      MultipleOf(-q, n);
      -m
  }

  /** A multiple of `n` leaves no remainder. */
  lemma {:induction false} MultipleOf(k: int, n: int)
    requires n > 0
    ensures (k * n) % n == 0
  {
    assert k * n == (k * n) / n * n + (k * n) % n;
    MultipleOfUnique(k, n, (k * n) / n, (k * n) % n);
  }

  lemma MultipleOfUnique(k: int, n: int, q: int, r: int)
    requires n > 0 && 0 <= r < n
    requires k * n == q * n + r
    ensures r == 0
  {
    assert (k - q) * n == r;
    ProductBounds(k - q, n);
  }

  lemma ProductBounds(d: int, n: int)
    requires n > 0
    ensures d >= 1 ==> d * n >= n
    ensures d <= -1 ==> d * n <= -n
  {
  }

  /** `formatTimeLeft`: `Math.floor(s / 3600)` hours and `Math.floor((s % 3600) / 60)` minutes. */
  function FormatTimeLeft(seconds: int): (c: Clock)
    ensures -60 <= c.minutes < 60
    ensures seconds >= 0 ==>
      0 <= c.hours && 0 <= c.minutes < 60 &&
      3600 * c.hours + 60 * c.minutes <= seconds < 3600 * c.hours + 60 * c.minutes + 60
  {
    Clock(seconds / 3600, JsRemainder(seconds, 3600) / 60)
  }

  /** For a non-negative count the printed hours and minutes are the only ones that bracket it to the minute. */
  lemma FormatTimeLeftUnique(seconds: int, h: int, m: int)
    requires seconds >= 0
    requires 0 <= m < 60
    requires 3600 * h + 60 * m <= seconds < 3600 * h + 60 * m + 60
    ensures FormatTimeLeft(seconds) == Clock(h, m)
  {
    var c := FormatTimeLeft(seconds);
    var a := 60 * h + m;
    var b := 60 * c.hours + c.minutes;
    assert 60 * a <= seconds < 60 * a + 60;
    assert 60 * b <= seconds < 60 * b + 60;
    assert a == b;
    assert h == c.hours;
  }

  /** The header's time-left line: shown only while seconds remain. */
  function TimeLeftLine(timeLeft: int): (line: Option<Clock>)
    ensures line.Some? <==> timeLeft > 0
    ensures line.Some? ==> line.value.hours >= 0 && 0 <= line.value.minutes < 60
    ensures line.Some? ==>
      3600 * line.value.hours + 60 * line.value.minutes <= timeLeft < 3600 * line.value.hours + 60 * line.value.minutes + 60
  {
    if timeLeft > 0 then Some(FormatTimeLeft(timeLeft)) else None
  }

  /** The daily bonus the page announces: $5 plus $1 per day of the new streak. */
  function BonusAmount(newStreak: int): (dollars: int)
    ensures dollars - newStreak == 5
  {
    5 + newStreak
  }

  /** A streak that grows by a day raises the announced bonus by one dollar, from $5 at no streak. */
  lemma BonusPerStreakDay(newStreak: int)
    ensures BonusAmount(0) == 5
    ensures BonusAmount(newStreak + 1) == BonusAmount(newStreak) + 1
  {
  }

  /** `loadUserData`'s statistics: balance and P&L from cents to dollars, the rest as read. */
  function StatsOf(a: AccountRead): (u: UserStats)
    ensures u.balance * 100.0 == a.balance as real && u.totalPnL * 100.0 == a.totalPnL as real
    ensures u.totalTrades == a.totalTrades && u.winningTrades == a.winningTrades
    ensures u.isNegativePnL == a.isNegativePnL && u.streak == a.streak && u.bestStreak == a.bestStreak
  {
    UserStats(ToDollars(a.balance), a.totalTrades, a.winningTrades, ToDollars(a.totalPnL),
              a.isNegativePnL, a.streak, a.bestStreak)
  }

  /** Converting the displayed balance back to cents gives the ledger's balance. */
  lemma StatsRoundTrip(a: AccountRead)
    ensures ToCents(StatsOf(a).balance) == a.balance
    ensures ToCents(StatsOf(a).totalPnL) == a.totalPnL
  {
    ToCentsOfDollars(a.balance);
    ToCentsOfDollars(a.totalPnL);
  }

  /** The position history is mounted only with a contract and a day to look back on. */
  predicate ShowsPositionHistory(connected: bool, currentDay: int)
  {
    connected && currentDay > 0
  }

  /** Whenever the history is shown, the day it reads, `currentDay - 1`, is a valid day index. */
  lemma HistoryReadsValidDay(connected: bool, currentDay: int)
    requires ShowsPositionHistory(connected, currentDay)
    ensures currentDay - 1 >= 0
  {
  }

  /** The page's state fields that the loaders write. */
  class Page {
    var btcPrice: real
    var timeLeft: int
    var currentDay: int
    var userBalance: real
    var userStats: Option<UserStats>

    constructor ()
      ensures btcPrice == 0.0 && timeLeft == 0 && currentDay == 0
      ensures userBalance == 0.0 && userStats == None
    {
      btcPrice := 0.0;
      timeLeft := 0;
      currentDay := 0;
      userBalance := 0.0;
      userStats := None;
    }

    /** `loadMarketData`: on success the price in dollars, the seconds left and the day; on failure nothing changes. */
    method LoadMarketData(read: Option<MarketRead>)
      modifies this`btcPrice, this`timeLeft, this`currentDay
      ensures read.Some? ==>
        btcPrice * 100.0 == read.value.startPrice as real &&
        timeLeft == read.value.secondsLeft && currentDay == read.value.dayIndex
      ensures read.None? ==>
        btcPrice == old(btcPrice) && timeLeft == old(timeLeft) && currentDay == old(currentDay)
    {
      if read.Some? {
        var market := read.value;
        var priceInCents := market.startPrice;
        btcPrice := ToDollars(priceInCents);
        timeLeft := market.secondsLeft;
        currentDay := market.dayIndex;
      }
    }

    /** `loadUserData`: on success the balance and statistics in dollars; on failure nothing changes. */
    method LoadUserData(read: Option<AccountRead>)
      modifies this`userBalance, this`userStats
      ensures read.Some? ==>
        userBalance * 100.0 == read.value.balance as real && userStats == Some(StatsOf(read.value))
      ensures read.None? ==> userBalance == old(userBalance) && userStats == old(userStats)
    {
      if read.Some? {
        var account := read.value;
        userBalance := ToDollars(account.balance);
        userStats := Some(StatsOf(account));
      }
    }
  }
}
