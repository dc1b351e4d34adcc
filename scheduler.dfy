/**
 * The automation service: the price oracle client and the daily cycle that
 * resolves the active day and starts the next one on the ledger.
 */
module Scheduler {
  import opened Wrappers
  import opened Units

  /** Why a cycle stopped. */
  datatype Failure =
    | MarketReadFailed   // connecting or `getTodayMarket` threw
    | OracleUnavailable  // the quote request failed or its payload had no price
    | ResolveRejected    // `resolveDay` was refused or did not reach finality
    | StartRejected      // `startNewDay` was refused or did not reach finality

  datatype Outcome = Completed | Aborted(failure: Failure)

  /** A mutating call the service submitted to the ledger, with its price in cents. */
  datatype Call = ResolveDay(endPriceInCents: int) | StartNewDay(startPriceInCents: int)

  /**
   * What the outside world answers during one cycle: whether the market read
   * succeeds, the oracle's successive answers (USD, `None` for a failed
   * request; an exhausted list answers `None`), and whether each submitted
   * ledger call is confirmed.
   */
  datatype Env = Env(
    marketRead: bool,
    quotes: seq<Option<real>>,
    resolveConfirmed: bool,
    startConfirmed: bool)

  /** The ledger as the service sees it, with every call submitted so far. */
  datatype Snapshot = Snapshot(dayIndex: int, isActive: bool, trace: seq<Call>)

  datatype CycleResult = CycleResult(state: Snapshot, outcome: Outcome)

  /** The oracle's `k`-th answer within a cycle. */
  function Quote(env: Env, k: nat): Option<real>
  {
    if k < |env.quotes| then env.quotes[k] else None
  }

  /** `getBTCPrice`: the quote in whole cents, rounded down; a failed request is rethrown, never replaced. */
  function GetBTCPrice(quote: Option<real>): (r: Result<int, Failure>)
    ensures quote.None? <==> r == Err(OracleUnavailable)
    ensures r.Ok? ==> r.value as real <= quote.value * 100.0 < r.value as real + 1.0
    ensures quote.Some? ==> r == Ok(ToCents(quote.value))
  {
    match quote
    case None => Err(OracleUnavailable)
    case Some(usd) => Ok(ToCents(usd))
  }

  /** The ledger after a `resolveDay` submission: confirmed, the day is closed. */
  function AfterResolve(s: Snapshot, price: int, confirmed: bool): Snapshot
  {
    Snapshot(s.dayIndex, if confirmed then false else s.isActive, s.trace + [ResolveDay(price)])
  }

  /** The ledger after a `startNewDay` submission: confirmed, the next day is open. */
  function AfterStart(s: Snapshot, price: int, confirmed: bool): Snapshot
  {
    Snapshot(if confirmed then s.dayIndex + 1 else s.dayIndex,
             if confirmed then true else s.isActive,
             s.trace + [StartNewDay(price)])
  }

  /** Fetch an opening price and start the next day with it. */
  function OpenDay(s: Snapshot, quote: Option<real>, confirmed: bool): CycleResult
  {
    match GetBTCPrice(quote)
    case Err(e) => CycleResult(s, Aborted(e))
    case Ok(open) =>
      CycleResult(AfterStart(s, open, confirmed), if confirmed then Completed else Aborted(StartRejected))
  }

  /**
   * `resolveDailyMarket` as a function of the ledger and the world: if the day
   * is active, close it with a first quote, then open the next day with a
   * fresh quote; the first failure ends the cycle.
   */
  function Cycle(s: Snapshot, env: Env): CycleResult
  {
    if !env.marketRead then CycleResult(s, Aborted(MarketReadFailed))
    else if s.isActive then
      match GetBTCPrice(Quote(env, 0))
      case Err(e) => CycleResult(s, Aborted(e))
      case Ok(close) =>
        var resolved := AfterResolve(s, close, env.resolveConfirmed);
        if !env.resolveConfirmed then CycleResult(resolved, Aborted(ResolveRejected))
        else OpenDay(resolved, Quote(env, 1), env.startConfirmed)
    else OpenDay(s, Quote(env, 0), env.startConfirmed)
  }

  /** The cycles of successive triggers; the scheduled handler swallows each failure and waits for the next. */
  function Replay(s: Snapshot, envs: seq<Env>): Snapshot
    decreases |envs|
  {
    if envs == [] then s else Replay(Cycle(s, envs[0]).state, envs[1..])
  }

  /** The outcome of each of successive triggers, each cycle starting where the previous one left the ledger. */
  function Outcomes(s: Snapshot, envs: seq<Env>): seq<Outcome>
    decreases |envs|
  {
    if envs == [] then [] else [Cycle(s, envs[0]).outcome] + Outcomes(Cycle(s, envs[0]).state, envs[1..])
  }

  /** The calls one cycle submitted. */
  function NewCalls(s: Snapshot, env: Env): seq<Call>
  {
    var t := Cycle(s, env).state.trace;
    if |s.trace| <= |t| then t[|s.trace|..] else []
  }

  // ---------------------------------------------------------------------------
  // Properties of one cycle

  /** A cycle only appends to the trace, and what it appends is one of four call sequences. */
  lemma CycleCallShapes(s: Snapshot, env: Env)
    ensures s.trace <= Cycle(s, env).state.trace
    ensures var c := NewCalls(s, env);
      c == [] || (|c| == 1 && c[0].ResolveDay?) || (|c| == 1 && c[0].StartNewDay?) ||
      (|c| == 2 && c[0].ResolveDay? && c[1].StartNewDay?)
    ensures !s.isActive ==> forall k :: 0 <= k < |NewCalls(s, env)| ==> NewCalls(s, env)[k].StartNewDay?
  {
  }

  /**
   * With an active day and a cooperating world, the cycle submits exactly
   * `resolveDay` with the first quote and then `startNewDay` with the second.
   */
  lemma ActiveCycle(s: Snapshot, env: Env)
    requires s.isActive && env.marketRead && env.resolveConfirmed && env.startConfirmed
    requires Quote(env, 0).Some? && Quote(env, 1).Some?
    ensures Cycle(s, env).outcome == Completed
    ensures Cycle(s, env).state == Snapshot(s.dayIndex + 1, true,
      s.trace + [ResolveDay(ToCents(Quote(env, 0).value)), StartNewDay(ToCents(Quote(env, 1).value))])
  {
  }

  /** With no active day, the cycle never resolves: at most one `startNewDay`, priced from the first quote. */
  lemma InactiveCycle(s: Snapshot, env: Env)
    requires !s.isActive
    ensures Cycle(s, env).state.trace == s.trace ||
            Cycle(s, env).state.trace == s.trace + [StartNewDay(ToCents(Quote(env, 0).value))]
    ensures env.marketRead && Quote(env, 0).Some? && env.startConfirmed ==>
      Cycle(s, env) == CycleResult(Snapshot(s.dayIndex + 1, true, s.trace + [StartNewDay(ToCents(Quote(env, 0).value))]), Completed)
  {
  }

  /** A failed market read or a failed first quote leaves the ledger exactly as it was. */
  lemma EarlyFailureLeavesLedger(s: Snapshot, env: Env)
    requires !env.marketRead || Quote(env, 0).None?
    ensures Cycle(s, env).state == s
    ensures Cycle(s, env).outcome.Aborted?
  {
  }

  /**
   * Once `resolveDay` is confirmed, a later failure leaves the day resolved
   * and no new day started, with the failure reported.
   */
  lemma FailureAfterResolve(s: Snapshot, env: Env)
    requires s.isActive && env.marketRead && Quote(env, 0).Some? && env.resolveConfirmed
    requires Quote(env, 1).None? || !env.startConfirmed
    ensures !Cycle(s, env).state.isActive
    ensures Cycle(s, env).state.dayIndex == s.dayIndex
    ensures Cycle(s, env).outcome.Aborted?
    ensures Cycle(s, env).state.trace[|s.trace|] == ResolveDay(ToCents(Quote(env, 0).value))
    ensures Quote(env, 1).None? ==>
      Cycle(s, env).outcome == Aborted(OracleUnavailable) &&
      NewCalls(s, env) == [ResolveDay(ToCents(Quote(env, 0).value))]
    ensures Quote(env, 1).Some? ==>
      Cycle(s, env).outcome == Aborted(StartRejected) &&
      NewCalls(s, env) == [ResolveDay(ToCents(Quote(env, 0).value)), StartNewDay(ToCents(Quote(env, 1).value))]
  {
  }

  /**
   * A refused `resolveDay` ends the cycle at once: no second quote is used, no
   * `startNewDay` is submitted, and the day stays active.
   */
  lemma ResolveRejectedStops(s: Snapshot, env: Env)
    requires s.isActive && env.marketRead && Quote(env, 0).Some? && !env.resolveConfirmed
    ensures Cycle(s, env) == CycleResult(
      Snapshot(s.dayIndex, true, s.trace + [ResolveDay(ToCents(Quote(env, 0).value))]),
      Aborted(ResolveRejected))
    ensures NewCalls(s, env) == [ResolveDay(ToCents(Quote(env, 0).value))]
  {
  }

  /** A completed cycle always leaves a freshly opened day: the next day index, active. */
  lemma CompletedOpensNextDay(s: Snapshot, env: Env)
    requires Cycle(s, env).outcome == Completed
    ensures Cycle(s, env).state.dayIndex == s.dayIndex + 1
    ensures Cycle(s, env).state.isActive
    ensures NewCalls(s, env)[|NewCalls(s, env)| - 1].StartNewDay?
  {
  }

  /**
   * A half-finished cycle is repaired by the next trigger: it sees no active
   * day and submits only the missing `startNewDay`.
   */
  lemma NextTriggerCompletesHalfCycle(s: Snapshot, env1: Env, env2: Env)
    requires s.isActive && env1.marketRead && Quote(env1, 0).Some? && env1.resolveConfirmed
    requires Quote(env1, 1).None? || !env1.startConfirmed
    requires env2.marketRead && Quote(env2, 0).Some? && env2.startConfirmed
    ensures var mid := Cycle(s, env1).state;
      Cycle(mid, env2) == CycleResult(
        Snapshot(s.dayIndex + 1, true, mid.trace + [StartNewDay(ToCents(Quote(env2, 0).value))]),
        Completed)
  {
    FailureAfterResolve(s, env1);
    InactiveCycle(Cycle(s, env1).state, env2);
  }

  /** Over any run of triggers the trace only grows, by at most two calls per trigger, and days never go back. */
  lemma {:induction false} ReplayGrows(s: Snapshot, envs: seq<Env>)
    ensures s.trace <= Replay(s, envs).trace
    ensures |Replay(s, envs).trace| <= |s.trace| + 2 * |envs|
    ensures s.dayIndex <= Replay(s, envs).dayIndex <= s.dayIndex + |envs|
    decreases |envs|
  {
    if envs != [] {
      var next := Cycle(s, envs[0]).state;
      CycleCallShapes(s, envs[0]);
      ReplayGrows(next, envs[1..]);
    }
  }

  /** The i-th trigger reports the outcome of its own cycle, run on the ledger the first i triggers left. */
  lemma {:induction false} OutcomesSpec(s: Snapshot, envs: seq<Env>)
    ensures |Outcomes(s, envs)| == |envs|
    ensures forall i :: 0 <= i < |envs| ==>
      Outcomes(s, envs)[i] == Cycle(Replay(s, envs[..i]), envs[i]).outcome
    decreases |envs|
  {
    if envs != [] {
      var next := Cycle(s, envs[0]).state;
      OutcomesSpec(next, envs[1..]);
      forall i | 0 <= i < |envs|
        ensures Outcomes(s, envs)[i] == Cycle(Replay(s, envs[..i]), envs[i]).outcome
      {
        if i > 0 {
          assert envs[..i][0] == envs[0];
          assert envs[..i][1..] == envs[1..][..i - 1];
          assert Outcomes(s, envs)[i] == Outcomes(next, envs[1..])[i - 1];
        } else {
          assert envs[..i] == [];
        }
      }
    }
  }

  // ---------------------------------------------------------------------------
  // The service against a ledger object

  /** The ledger's day slot and the calls the service has submitted to it. */
  class Ledger {
    var dayIndex: int
    var isActive: bool
    var trace: seq<Call>

    function State(): Snapshot
      reads this
    {
      Snapshot(dayIndex, isActive, trace)
    }

    constructor (dayIndex: int, isActive: bool)
      ensures State() == Snapshot(dayIndex, isActive, [])
    {
      this.dayIndex := dayIndex;
      this.isActive := isActive;
      this.trace := [];
    }

    /** Submit `resolveDay(endPriceInCents)` and wait for finality; `confirmed` is the ledger's answer. */
    method ResolveDay(endPriceInCents: int, confirmed: bool) returns (ok: bool)
      modifies this
      ensures ok == confirmed
      ensures State() == AfterResolve(old(State()), endPriceInCents, confirmed)
    {
      trace := trace + [Call.ResolveDay(endPriceInCents)];
      if confirmed {
        isActive := false;
      }
      ok := confirmed;
    }

    /** Submit `startNewDay(startPriceInCents)` and wait for finality; `confirmed` is the ledger's answer. */
    method StartNewDay(startPriceInCents: int, confirmed: bool) returns (ok: bool)
      modifies this
      ensures ok == confirmed
      ensures State() == AfterStart(old(State()), startPriceInCents, confirmed)
    {
      trace := trace + [Call.StartNewDay(startPriceInCents)];
      if confirmed {
        dayIndex := dayIndex + 1;
        isActive := true;
      }
      ok := confirmed;
    }

    /** `resolveDailyMarket`: one resolve-then-start cycle; a failure stops it and is reported. */
    method ResolveDailyMarket(env: Env) returns (outcome: Outcome)
      modifies this
      ensures CycleResult(State(), outcome) == Cycle(old(State()), env)
    {
      if !env.marketRead {
        return Aborted(MarketReadFailed);
      }
      var next := 0;
      if isActive {
        var close := GetBTCPrice(Quote(env, 0));
        if close.Err? {
          return Aborted(close.error);
        }
        var resolved := ResolveDay(close.value, env.resolveConfirmed);
        if !resolved {
          return Aborted(ResolveRejected);
        }
        next := 1;
      }
      var open := GetBTCPrice(Quote(env, next));
      if open.Err? {
        return Aborted(open.error);
      }
      var started := StartNewDay(open.value, env.startConfirmed);
      if !started {
        return Aborted(StartRejected);
      }
      return Completed;
    }

    /** The scheduled handler: run one cycle and swallow its failure. */
    method ScheduledTask(env: Env)
      modifies this
      ensures State() == Cycle(old(State()), env).state
    {
      var _ := ResolveDailyMarket(env);
    }

    /** Successive scheduled triggers: every trigger runs, whatever the earlier ones did. */
    method RunTriggers(envs: seq<Env>) returns (outcomes: seq<Outcome>)
      modifies this
      ensures outcomes == Outcomes(old(State()), envs)
      ensures State() == Replay(old(State()), envs)
    {
      outcomes := [];
      var i := 0;
      while i < |envs|
        invariant 0 <= i <= |envs|
        invariant Outcomes(old(State()), envs) == outcomes + Outcomes(State(), envs[i..])
        invariant Replay(old(State()), envs) == Replay(State(), envs[i..])
      {
        assert envs[i..][1..] == envs[i + 1..];
        var outcome := ResolveDailyMarket(envs[i]);
        outcomes := outcomes + [outcome];
        i := i + 1;
      }
    }
  }
}
