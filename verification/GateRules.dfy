/** The pre-trade rules of the risk gate, in the order the gate applies them. */
module GateRules {
  import opened Types
  import opened Markets
  import opened Drawdown
  import opened CancelTracker

  const DLL_AMOUNT := 1000.0
  const PROFIT_TARGET_50K := 3000.0
  const HARD_FLAT_MINUTE := 15 * 60 + 10
  const PREEMPT_MINUTE := 15 * 60

  datatype NewsEvent = NewsEvent(time: int, high: bool)

  datatype NewsCalendar = NewsCalendar(events: seq<NewsEvent>, before: int, after: int, cap: int)
  {
    predicate InWindow(now: int) {
      exists i :: 0 <= i < |events| && events[i].high
                  && events[i].time - before <= now <= events[i].time + after
    }
  }

  datatype Config = Config(hardConsistency: bool, hftThreshold: real, safetyBufferTicks: int)
  {
    /** The bounds the configuration model validates. */
    predicate Valid() {
      hftThreshold > 0.0 && safetyBufferTicks >= 0
    }
  }

  datatype Rules = Rules(policy: Policy, news: NewsCalendar, config: Config, symbol: string)

  /** What the journal answers when rule 6 asks. */
  datatype JournalView = JournalView(bestDay: real, netPnl: real)

  const NO_JOURNAL := JournalView(0.0, 0.0)

  datatype Rule =
    | STRATEGY_DISABLED | HARD_FLAT_CLOCK | HARD_FLAT_PREEMPT | STOP_REQUIRED | DLL | MLL
    | MAX_POSITION | NEWS_THROTTLE | CONSISTENCY_HARD | HFT_DEFENSIVE | MLL_PROXIMITY

  datatype LookupError = KEY_ERROR | VALUE_ERROR

  /** One rule's answer; `Raise` is an unregistered symbol reaching the market registry. */
  datatype Verdict = Pass | Deny(rule: Rule) | Raise(error: LookupError)

  datatype Decision =
    | Approved(intent: OrderIntent, state: AccountState)
    | Denied(intent: OrderIntent, rule: Rule, state: AccountState)
    | Raised(error: LookupError)

  function WorstCaseLoss(intent: OrderIntent): real {
    if intent.bracket.None? then 0.0
    else intent.bracket.value.stopLossTicks as real * PerTick(intent)
  }

  /** Dollars the order gains or loses per tick. */
  function PerTick(intent: OrderIntent): (r: real)
    ensures r >= 0.0
    ensures Registered(intent.symbol) && intent.quantity != 0 ==> r > 0.0
  {
    assert Registered(intent.symbol) ==> TickValue(intent.symbol) > 0.0 by {
      if Registered(intent.symbol) { ValuesArePositive(intent.symbol); }
    }
    TickValue(intent.symbol) * Abs(intent.quantity) as real
  }

  predicate MissesMarket(intent: OrderIntent) {
    intent.bracket.Some? && !Registered(intent.symbol)
  }

  function Projected(intent: OrderIntent, state: AccountState): int {
    Held(state.openPositions, intent.symbol) + intent.SignedQty()
  }

  function CheckHardFlat(rules: Rules, intent: OrderIntent, state: AccountState): Verdict {
    if !rules.policy.EnforcesHardFlat() then Pass
    else if !intent.IncreasesExposure(state.openPositions) then Pass
    else if state.timestamp.ctMinute >= HARD_FLAT_MINUTE then Deny(HARD_FLAT_CLOCK)
    else if state.timestamp.ctMinute >= PREEMPT_MINUTE then Deny(HARD_FLAT_PREEMPT)
    else Pass
  }

  function CheckDll(intent: OrderIntent, state: AccountState): Verdict {
    if intent.MarketOrLimitOpen() && intent.bracket.None? && intent.IncreasesExposure(state.openPositions)
    then Deny(STOP_REQUIRED)
    else if MissesMarket(intent) then Raise(KEY_ERROR)
    else if state.realizedToday - WorstCaseLoss(intent) <= -DLL_AMOUNT then Deny(DLL)
    else Pass
  }

  function CheckMll(rules: Rules, intent: OrderIntent, state: AccountState): Verdict {
    if MissesMarket(intent) then Raise(KEY_ERROR)
    else if state.equity - WorstCaseLoss(intent) < rules.policy.PhantomMll(state) then Deny(MLL)
    else Pass
  }

  function CheckMaxPosition(rules: Rules, intent: OrderIntent, state: AccountState): Verdict {
    match rules.policy.MaxPosition(intent.symbol, state)
    case None => Raise(VALUE_ERROR)
    case Some(cap) => if Abs(Projected(intent, state)) > cap then Deny(MAX_POSITION) else Pass
  }

  function CheckNewsThrottle(rules: Rules, intent: OrderIntent, state: AccountState): Verdict {
    if !rules.news.InWindow(state.timestamp.instant) then Pass
    else if !intent.IncreasesExposure(state.openPositions) then Pass
    else if Abs(Projected(intent, state)) > rules.news.cap then Deny(NEWS_THROTTLE)
    else Pass
  }

  /** Soft mode only raises an alert; hard mode denies. */
  function CheckConsistency(rules: Rules, journal: JournalView, state: AccountState): Verdict {
    if !state.isCombine then Pass
    else
      var remaining := PROFIT_TARGET_50K - journal.netPnl;
      if remaining <= 0.0 then Pass
      else if journal.bestDay / remaining <= 0.5 then Pass
      else if rules.config.hardConsistency then Deny(CONSISTENCY_HARD)
      else Pass
  }

  function CheckHftRatio(rules: Rules, ratio: Ratio): Verdict {
    if ratio.Exceeds(rules.config.hftThreshold) then Deny(HFT_DEFENSIVE) else Pass
  }

  function Otherwise(first: Verdict, next: Verdict): Verdict {
    if first.Pass? then next else first
  }

  /** Rules 1 to 6: everything that is asked before the cancel tracker is. */
  function FirstSix(rules: Rules, journal: JournalView, intent: OrderIntent, state: AccountState): Verdict {
    Otherwise(CheckHardFlat(rules, intent, state),
    Otherwise(CheckDll(intent, state),
    Otherwise(CheckMll(rules, intent, state),
    Otherwise(CheckMaxPosition(rules, intent, state),
    Otherwise(CheckNewsThrottle(rules, intent, state),
              CheckConsistency(rules, journal, state))))))
  }

  /** Ticks of stop that still leave the safety buffer above the floor. */
  function RoomTicks(rules: Rules, intent: OrderIntent, state: AccountState): int
    requires PerTick(intent) > 0.0
  {
    var distance := (state.equity - rules.policy.PhantomMll(state)) / PerTick(intent);
    Truncate(distance - rules.config.safetyBufferTicks as real)
  }

  /** Tightens the stop so that the broker order sits inside the floor by the buffer. */
  function AugmentWithSafetyBuffer(rules: Rules, intent: OrderIntent, state: AccountState): Decision {
    if intent.bracket.None? then Approved(intent, state)
    else if !Registered(intent.symbol) then Raised(KEY_ERROR)
    else if PerTick(intent) <= 0.0 then Approved(intent, state)
    else
      var room := RoomTicks(rules, intent, state);
      if room <= 0 then Denied(intent, MLL_PROXIMITY, state)
      else
        var stop := intent.bracket.value.stopLossTicks;
        Approved(intent.WithStop(if room < stop then room else stop), state)
  }

  function Settle(verdict: Verdict, intent: OrderIntent, state: AccountState): Decision
    requires !verdict.Pass?
  {
    match verdict
    case Deny(rule) => Denied(intent, rule, state)
    case Raise(error) => Raised(error)
  }

  /** The whole decision of an enabled or disabled gate whose cancel tracker answers `ratio`. */
  function Decide(rules: Rules, disabled: bool, ratio: Ratio, journal: JournalView,
                  intent: OrderIntent, state: AccountState): Decision
  {
    if disabled then Denied(intent, STRATEGY_DISABLED, state)
    else
      var verdict := Otherwise(FirstSix(rules, journal, intent, state), CheckHftRatio(rules, ratio));
      if !verdict.Pass? then Settle(verdict, intent, state)
      else AugmentWithSafetyBuffer(rules, intent, state)
  }

  // ---- Laws of a single decision ---------------------------------------------

  /** `out` is `intent` with a stop no wider, whose loss stays inside the floor with the
      buffer to spare and inside the daily loss limit, and whose position fits the cap. */
  predicate WithinLimits(rules: Rules, intent: OrderIntent, state: AccountState, out: OrderIntent)
    requires intent.bracket.Some?
  {
    && out.bracket.Some?
    && var stop := out.bracket.value.stopLossTicks;
    && 1 <= stop <= intent.bracket.value.stopLossTicks
    && out == intent.WithStop(stop)
    && KeepsBuffer(rules, out, state, stop)
    && KeepsDll(out, state, stop)
    && CapCovers(rules, out, state)
  }

  /** Being stopped out, safety buffer included, leaves equity at or above the floor. */
  predicate KeepsBuffer(rules: Rules, intent: OrderIntent, state: AccountState, stop: int) {
    state.equity - (stop + rules.config.safetyBufferTicks) as real * PerTick(intent) >= rules.policy.PhantomMll(state)
  }

  /** Being stopped out leaves the day's realized loss short of the daily limit. */
  predicate KeepsDll(intent: OrderIntent, state: AccountState, stop: int) {
    state.realizedToday - stop as real * PerTick(intent) > -DLL_AMOUNT
  }

  predicate CapCovers(rules: Rules, intent: OrderIntent, state: AccountState) {
    && rules.policy.MaxPosition(intent.symbol, state).Some?
    && Abs(Projected(intent, state)) <= rules.policy.MaxPosition(intent.symbol, state).value
  }

  /** What an approval of a bracketed order with a real stop guarantees. */
  lemma {:induction false} ApprovalBound(rules: Rules, ratio: Ratio, journal: JournalView,
                                         intent: OrderIntent, state: AccountState)
    requires Decide(rules, false, ratio, journal, intent, state).Approved?
    requires intent.bracket.Some? && intent.quantity >= 1 && intent.bracket.value.stopLossTicks >= 1
    ensures WithinLimits(rules, intent, state, Decide(rules, false, ratio, journal, intent, state).intent)
  {
    var stop := intent.bracket.value.stopLossTicks;
    var out := Decide(rules, false, ratio, journal, intent, state).intent;
    ApprovalPassedEveryRule(rules, ratio, journal, intent, state);
    assert PerTick(intent) > 0.0;
    var tight := out.bracket.value.stopLossTicks;
    assert 1 <= tight <= stop && tight <= RoomTicks(rules, intent, state) && out == intent.WithStop(tight);
    assert WithinLimits(rules, intent, state, intent.WithStop(tight)) by {
      BoundAtStop(rules, intent, state, tight);
    }
  }

  lemma BoundAtStop(rules: Rules, intent: OrderIntent, state: AccountState, tight: int)
    requires intent.bracket.Some? && PerTick(intent) > 0.0
    requires CheckDll(intent, state).Pass?
    requires 1 <= tight <= intent.bracket.value.stopLossTicks && tight <= RoomTicks(rules, intent, state)
    requires CheckMaxPosition(rules, intent, state).Pass?
    ensures WithinLimits(rules, intent, state, intent.WithStop(tight))
  {
    var out := intent.WithStop(tight);
    WithStopKeepsScale(rules, intent, state, tight);
    RoomIsExact(rules, out, state, tight);
    StopStaysInDll(intent, state, tight);
  }

  lemma WithStopKeepsScale(rules: Rules, intent: OrderIntent, state: AccountState, tight: int)
    requires intent.bracket.Some? && PerTick(intent) > 0.0
    ensures PerTick(intent.WithStop(tight)) > 0.0
    ensures RoomTicks(rules, intent.WithStop(tight), state) == RoomTicks(rules, intent, state)
    ensures Projected(intent.WithStop(tight), state) == Projected(intent, state)
  {
    assert PerTick(intent.WithStop(tight)) == PerTick(intent);
  }

  lemma StopStaysInDll(intent: OrderIntent, state: AccountState, tight: int)
    requires intent.bracket.Some? && CheckDll(intent, state).Pass?
    requires tight <= intent.bracket.value.stopLossTicks
    ensures KeepsDll(intent.WithStop(tight), state, tight)
  {
    assert PerTick(intent.WithStop(tight)) == PerTick(intent);
    ScaleLe(tight as real, intent.bracket.value.stopLossTicks as real, PerTick(intent));
  }

  /** An approval is a pass of every rule followed by the stop adjustment. */
  lemma ApprovalPassedEveryRule(rules: Rules, ratio: Ratio, journal: JournalView,
                                intent: OrderIntent, state: AccountState)
    requires Decide(rules, false, ratio, journal, intent, state).Approved?
    ensures CheckHardFlat(rules, intent, state).Pass? && CheckDll(intent, state).Pass?
    ensures CheckMll(rules, intent, state).Pass? && CheckMaxPosition(rules, intent, state).Pass?
    ensures CheckNewsThrottle(rules, intent, state).Pass? && CheckConsistency(rules, journal, state).Pass?
    ensures CheckHftRatio(rules, ratio).Pass?
    ensures Registered(intent.symbol)
    ensures Decide(rules, false, ratio, journal, intent, state) == AugmentWithSafetyBuffer(rules, intent, state)
  {
  }

  /** The room is exact: a stop of at least one tick keeps the buffer if and only if it
      is within the room, truncation toward zero included. */
  lemma {:induction false} RoomIsExact(rules: Rules, intent: OrderIntent, state: AccountState, stop: int)
    requires PerTick(intent) > 0.0 && stop >= 1
    ensures KeepsBuffer(rules, intent, state, stop) <==> stop <= RoomTicks(rules, intent, state)
  {
    var p := PerTick(intent);
    var d := state.equity - rules.policy.PhantomMll(state);
    var ticks := (stop + rules.config.safetyBufferTicks) as real;
    DivideExact(ticks, d, p);
    assert stop <= RoomTicks(rules, intent, state) <==> ticks <= d / p;
  }

  lemma DivideExact(a: real, b: real, p: real)
    requires p > 0.0
    ensures a * p <= b <==> a <= b / p
  {
    assert b / p * p == b;
    if a <= b / p {
      ScaleLe(a, b / p, p);
    } else {
      assert (a - b / p) * p > 0.0;
    }
  }

  /** The adjusted stop is the widest one the buffer allows, and an order is turned away
      for proximity exactly when not even a one-tick stop would keep the buffer. */
  lemma {:induction false} WidestSafeStop(rules: Rules, intent: OrderIntent, state: AccountState)
    requires intent.bracket.Some? && PerTick(intent) > 0.0 && intent.bracket.value.stopLossTicks >= 1
    ensures var decision := AugmentWithSafetyBuffer(rules, intent, state);
            && (decision.Denied? <==> !KeepsBuffer(rules, intent, state, 1))
            && (decision.Denied? ==> decision == Denied(intent, MLL_PROXIMITY, state))
            && (decision.Approved? ==> forall stop ::
                  decision.intent.bracket.value.stopLossTicks < stop <= intent.bracket.value.stopLossTicks
                  ==> !KeepsBuffer(rules, intent, state, stop))
  {
    RoomIsExact(rules, intent, state, 1);
    forall stop | stop >= 1
      ensures KeepsBuffer(rules, intent, state, stop) <==> stop <= RoomTicks(rules, intent, state)
    {
      RoomIsExact(rules, intent, state, stop);
    }
  }

  lemma ScaleLe(a: real, b: real, p: real)
    requires a <= b && p >= 0.0
    ensures a * p <= b * p
  {
  }

  lemma DivideLe(a: real, b: real, p: real)
    requires a <= b && p > 0.0
    ensures a / p <= b / p
  {
  }

  lemma TruncateMonotone(x: real, y: real)
    requires x <= y
    ensures Truncate(x) <= Truncate(y)
  {
  }

  /** The gate is idempotent on its own output: an approved order, shown again at the same
      state to a gate that only differs in having an empty journal and an empty cancel
      tracker, is approved unchanged. */
  lemma ApprovedIsStable(rules: Rules, ratio: Ratio, journal: JournalView, intent: OrderIntent, state: AccountState)
    requires rules.config.Valid()
    requires Decide(rules, false, ratio, journal, intent, state).Approved?
    ensures var out := Decide(rules, false, ratio, journal, intent, state).intent;
            Decide(rules, false, Finite(0.0), NO_JOURNAL, out, state) == Approved(out, state)
  {
    var out := Decide(rules, false, ratio, journal, intent, state).intent;
    ApprovalPassedEveryRule(rules, ratio, journal, intent, state);
    if intent.bracket.Some? {
      var stop := out.bracket.value.stopLossTicks;
      assert out == intent.WithStop(stop);
      TighterStopPassesRules(rules, journal, intent, state, stop);
      AugmentIsStable(rules, intent, state);
    } else {
      assert out == intent;
    }
  }

  lemma TighterStopPassesRules(rules: Rules, journal: JournalView, intent: OrderIntent, state: AccountState, stop: int)
    requires FirstSix(rules, journal, intent, state).Pass?
    requires intent.bracket.Some? && stop <= intent.bracket.value.stopLossTicks
    ensures FirstSix(rules, NO_JOURNAL, intent.WithStop(stop), state).Pass?
  {
    TighterStopLosesLess(intent.WithStop(stop), intent);
    assert Projected(intent.WithStop(stop), state) == Projected(intent, state);
  }

  lemma AugmentIsStable(rules: Rules, intent: OrderIntent, state: AccountState)
    requires AugmentWithSafetyBuffer(rules, intent, state).Approved?
    ensures var out := AugmentWithSafetyBuffer(rules, intent, state).intent;
            AugmentWithSafetyBuffer(rules, out, state) == Approved(out, state)
  {
    var out := AugmentWithSafetyBuffer(rules, intent, state).intent;
    assert PerTick(out) == PerTick(intent);
    if out.bracket.Some? && PerTick(out) > 0.0 {
      assert RoomTicks(rules, out, state) == RoomTicks(rules, intent, state);
    }
  }

  lemma TighterStopLosesLess(tight: OrderIntent, intent: OrderIntent)
    requires AtLeastAsWide(tight, intent)
    ensures WorstCaseLoss(tight) <= WorstCaseLoss(intent)
  {
    assert PerTick(tight) == PerTick(intent);
    if tight.bracket.Some? {
      ScaleLe(tight.bracket.value.stopLossTicks as real, intent.bracket.value.stopLossTicks as real, PerTick(intent));
    }
  }

  /** More equity, everything else equal, never turns an approval into a denial and never
      tightens the stop further: for the Combine floor and for the tiered EFA cap alike. */
  lemma MonotoneInEquity(rules: Rules, ratio: Ratio, journal: JournalView,
                         intent: OrderIntent, state: AccountState, richer: real)
    requires state.equity <= richer
    requires Decide(rules, false, ratio, journal, intent, state).Approved?
    ensures var rich := Decide(rules, false, ratio, journal, intent, state.(equity := richer));
            && rich.Approved?
            && AtLeastAsWide(Decide(rules, false, ratio, journal, intent, state).intent, rich.intent)
  {
    MonotoneInRoom(rules, ratio, journal, intent, state, state.(equity := richer));
  }

  /** The same order with a stop at least as wide. */
  predicate AtLeastAsWide(tight: OrderIntent, wide: OrderIntent) {
    && tight.bracket.Some? == wide.bracket.Some?
    && (tight.bracket.None? ==> wide == tight)
    && (tight.bracket.Some? ==>
          && tight.bracket.value.stopLossTicks <= wide.bracket.value.stopLossTicks
          && wide == tight.WithStop(wide.bracket.value.stopLossTicks))
  }

  /** What monotonicity rests on: the decision sees equity only through the room above the
      floor and through the position cap. */
  lemma {:induction false} MonotoneInRoom(rules: Rules, ratio: Ratio, journal: JournalView,
                                          intent: OrderIntent, poor: AccountState, rich: AccountState)
    requires poor.equity - rules.policy.PhantomMll(poor) <= rich.equity - rules.policy.PhantomMll(rich)
    requires rules.policy.MaxMini(poor) <= rules.policy.MaxMini(rich)
    requires && poor.realizedToday == rich.realizedToday && poor.openPositions == rich.openPositions
             && poor.timestamp == rich.timestamp && poor.isCombine == rich.isCombine
    requires Decide(rules, false, ratio, journal, intent, poor).Approved?
    ensures var decision := Decide(rules, false, ratio, journal, intent, rich);
            && decision.Approved?
            && AtLeastAsWide(Decide(rules, false, ratio, journal, intent, poor).intent, decision.intent)
  {
    assert FirstSix(rules, journal, intent, poor).Pass?;
    assert CheckMll(rules, intent, rich).Pass?;
    CapGrows(rules.policy, intent.symbol, poor, rich);
    assert CheckMaxPosition(rules, intent, rich).Pass?;
    assert FirstSix(rules, journal, intent, rich).Pass?;
    if intent.bracket.Some? && PerTick(intent) > 0.0 {
      var p := PerTick(intent);
      var buffer := rules.config.safetyBufferTicks as real;
      var less := poor.equity - rules.policy.PhantomMll(poor);
      var more := rich.equity - rules.policy.PhantomMll(rich);
      DivideLe(less, more, p);
      TruncateMonotone(less / p - buffer, more / p - buffer);
      assert RoomTicks(rules, intent, poor) <= RoomTicks(rules, intent, rich);
    }
  }

  lemma CapGrows(policy: Policy, symbol: string, poor: AccountState, rich: AccountState)
    requires policy.MaxMini(poor) <= policy.MaxMini(rich)
    requires policy.MaxPosition(symbol, poor).Some?
    ensures policy.MaxPosition(symbol, rich).Some?
    ensures policy.MaxPosition(symbol, poor).value <= policy.MaxPosition(symbol, rich).value
  {
  }

  /** The same through the tick: a bar that ends richer is approved whenever a poorer end of
      the same bar would have been, although the high-water itself may have risen. */
  lemma MonotoneThroughTick(rules: Rules, ratio: Ratio, journal: JournalView,
                            intent: OrderIntent, state: AccountState, low: real, high: real)
    requires low <= high
    requires state.isLocked ==> state.lockPoint.Some?
    requires Decide(rules, false, ratio, journal, intent, TickAt(rules.policy, state, low)).Approved?
    ensures var decision := Decide(rules, false, ratio, journal, intent, TickAt(rules.policy, state, high));
            && decision.Approved?
            && AtLeastAsWide(Decide(rules, false, ratio, journal, intent, TickAt(rules.policy, state, low)).intent,
                decision.intent)
  {
    hide Decide;
    RoomGrowsWithEquity(rules.policy, state, low, high);
    MonotoneInRoom(rules, ratio, journal, intent, TickAt(rules.policy, state, low), TickAt(rules.policy, state, high));
  }

  /** At or below the floor nothing that adds exposure gets through, whatever its stop. */
  lemma TouchBlocksExposure(rules: Rules, disabled: bool, ratio: Ratio, journal: JournalView,
                            intent: OrderIntent, state: AccountState)
    requires rules.config.Valid()
    requires state.equity <= rules.policy.PhantomMll(state)
    requires intent.MarketOrLimitOpen() && intent.quantity >= 1
    requires intent.IncreasesExposure(state.openPositions)
    ensures !Decide(rules, disabled, ratio, journal, intent, state).Approved?
  {
    if !disabled && FirstSix(rules, journal, intent, state).Pass? {
      var p := PerTick(intent);
      assert p > 0.0;
      DivideLe(state.equity - rules.policy.PhantomMll(state), 0.0, p);
      assert RoomTicks(rules, intent, state) <= 0;
    }
  }
}
