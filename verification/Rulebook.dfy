/** The gate's rules as a trader reads them, in contracts, dollars and minutes of the day: an
    order is denied if and only if it breaks one of them, and the denial names the first. */
module Rulebook {
  import opened Types
  import opened Markets
  import opened Drawdown
  import opened CancelTracker
  import opened Gate
  import opened GateRules

  /** Minis an account may hold: the configured number in a Combine; by profit in an EFA. */
  function Minis(policy: Policy, state: AccountState): int {
    match policy
    case Combine(_, _, maxMini) => maxMini
    case Efa(_) =>
      if state.equity < state.startBalance + 1500.0 then 2
      else if state.equity < state.startBalance + 2000.0 then 3
      else 5
  }

  /** The floor: the lock point of a locked Combine; otherwise the loss limit below the
      high-water, which in an EFA never counts for less than the start and stops there. */
  function Floor(policy: Policy, state: AccountState): real {
    match policy
    case Combine(_, mll, _) => if state.isLocked && state.lockPoint.Some? then state.lockPoint.value
                               else state.highWater - mll
    case Efa(mll) => CombineFloor(state.startBalance, mll, Max(state.highWater, state.startBalance))
  }

  /** Dollars lost when the market moves this many ticks against the order. */
  function LossOfTicks(intent: OrderIntent, ticks: int): real {
    ticks as real * (TickDollars(intent.symbol) * Abs(intent.quantity) as real)
  }

  function StopLoss(intent: OrderIntent): real {
    if intent.bracket.Some? then LossOfTicks(intent, intent.bracket.value.stopLossTicks) else 0.0
  }

  /** The position the order would leave. */
  function After(intent: OrderIntent, state: AccountState): int {
    Held(state.openPositions, intent.symbol) + (if intent.side == BUY then intent.quantity else -intent.quantity)
  }

  predicate Adds(intent: OrderIntent, state: AccountState) {
    Abs(After(intent, state)) > Abs(Held(state.openPositions, intent.symbol))
  }

  /** A high-impact release within the calendar's minutes before and after. */
  predicate NewsNow(news: NewsCalendar, now: int) {
    exists i :: 0 <= i < |news.events|
                && news.events[i].high && -news.before <= now - news.events[i].time <= news.after
  }

  predicate Breaks(rules: Rules, disabled: bool, ratio: Ratio, journal: JournalView,
                   intent: OrderIntent, state: AccountState, rule: Rule)
  {
    match rule
    case STRATEGY_DISABLED => disabled
    case HARD_FLAT_CLOCK => rules.policy.Combine? && Adds(intent, state) && 910 <= state.timestamp.ctMinute
    case HARD_FLAT_PREEMPT => rules.policy.Combine? && Adds(intent, state) && 900 <= state.timestamp.ctMinute < 910
    case STOP_REQUIRED => Adds(intent, state) && intent.bracket.None? && intent.orderType in {MARKET, LIMIT, BRACKET}
    case DLL => state.realizedToday - StopLoss(intent) <= -1000.0
    case MLL => state.equity - StopLoss(intent) < Floor(rules.policy, state)
    case MAX_POSITION => Abs(After(intent, state)) > Minis(rules.policy, state) * PerMini(intent.symbol)
    case NEWS_THROTTLE => NewsNow(rules.news, state.timestamp.instant) && Adds(intent, state)
                          && Abs(After(intent, state)) > rules.news.cap
    case CONSISTENCY_HARD => state.isCombine && rules.config.hardConsistency
                             && journal.netPnl < 3000.0 && 2.0 * journal.bestDay > 3000.0 - journal.netPnl
    case HFT_DEFENSIVE => ratio.Infinite? || ratio.value > rules.config.hftThreshold
    case MLL_PROXIMITY => intent.bracket.Some? && intent.quantity != 0
                          && state.equity - LossOfTicks(intent, 1 + rules.config.safetyBufferTicks)
                             < Floor(rules.policy, state)
  }

  /** The place of a rule in the gate's order. */
  function Rank(rule: Rule): nat {
    match rule
    case STRATEGY_DISABLED => 0
    case HARD_FLAT_CLOCK => 1
    case HARD_FLAT_PREEMPT => 2
    case STOP_REQUIRED => 3
    case DLL => 4
    case MLL => 5
    case MAX_POSITION => 6
    case NEWS_THROTTLE => 7
    case CONSISTENCY_HARD => 8
    case HFT_DEFENSIVE => 9
    case MLL_PROXIMITY => 10
  }

  ghost predicate IsFirstBroken(rules: Rules, disabled: bool, ratio: Ratio, journal: JournalView,
                                intent: OrderIntent, state: AccountState, rule: Rule)
  {
    && Breaks(rules, disabled, ratio, journal, intent, state, rule)
    && forall r :: Rank(r) < Rank(rule) ==> !Breaks(rules, disabled, ratio, journal, intent, state, r)
  }

  // ---- Policies and losses in these numbers -----------------------------------

  lemma FloorInNumbers(policy: Policy, state: AccountState)
    ensures policy.PhantomMll(state) == Floor(policy, state)
    ensures policy.MaxMini(state) == Minis(policy, state)
  {
  }

  lemma LossInNumbers(rules: Rules, intent: OrderIntent)
    requires Registered(intent.symbol)
    ensures WorstCaseLoss(intent) == StopLoss(intent)
    ensures PerTick(intent) == TickDollars(intent.symbol) * Abs(intent.quantity) as real
  {
    RegistryInNumbers(intent.symbol);
  }

  /** Half of what is left of the target, without the division. */
  lemma HalfOfRemaining(bestDay: real, remaining: real)
    requires remaining > 0.0
    ensures bestDay / remaining <= 0.5 <==> 2.0 * bestDay <= remaining
  {
    DivideExact(0.5, bestDay, remaining);
    DivideExact(-0.5, -bestDay, remaining);
    assert -bestDay / remaining == -(bestDay / remaining);
  }

  // ---- Rule by rule -----------------------------------------------------------

  /** The verdict of one rule. */
  function Answer(broken: bool, rule: Rule): Verdict {
    if broken then Deny(rule) else Pass
  }

  lemma ClockInNumbers(rules: Rules, disabled: bool, ratio: Ratio, journal: JournalView,
                       intent: OrderIntent, state: AccountState)
    ensures CheckHardFlat(rules, intent, state)
         == Otherwise(Answer(Breaks(rules, disabled, ratio, journal, intent, state, HARD_FLAT_CLOCK), HARD_FLAT_CLOCK),
                      Answer(Breaks(rules, disabled, ratio, journal, intent, state, HARD_FLAT_PREEMPT),
                             HARD_FLAT_PREEMPT))
  {
  }

  lemma LossesInNumbers(rules: Rules, disabled: bool, ratio: Ratio, journal: JournalView,
                        intent: OrderIntent, state: AccountState)
    requires Registered(intent.symbol)
    ensures CheckDll(intent, state)
         == Otherwise(Answer(Breaks(rules, disabled, ratio, journal, intent, state, STOP_REQUIRED), STOP_REQUIRED),
                      Answer(Breaks(rules, disabled, ratio, journal, intent, state, DLL), DLL))
    ensures CheckMll(rules, intent, state)
         == Answer(Breaks(rules, disabled, ratio, journal, intent, state, MLL), MLL)
  {
    hide Registered, WorstCaseLoss, StopLoss, Floor;
    LossInNumbers(rules, intent);
    FloorInNumbers(rules.policy, state);
  }

  lemma PositionsInNumbers(rules: Rules, disabled: bool, ratio: Ratio, journal: JournalView,
                           intent: OrderIntent, state: AccountState)
    requires Registered(intent.symbol)
    ensures CheckMaxPosition(rules, intent, state)
         == Answer(Breaks(rules, disabled, ratio, journal, intent, state, MAX_POSITION), MAX_POSITION)
    ensures CheckNewsThrottle(rules, intent, state)
         == Answer(Breaks(rules, disabled, ratio, journal, intent, state, NEWS_THROTTLE), NEWS_THROTTLE)
  {
    hide Minis, PerMini, ContractCap, GetMarket;
    RegistryInNumbers(intent.symbol);
    FloorInNumbers(rules.policy, state);
    assert rules.news.InWindow(state.timestamp.instant) <==> NewsNow(rules.news, state.timestamp.instant);
  }

  lemma ConsistencyInNumbers(rules: Rules, disabled: bool, ratio: Ratio, journal: JournalView,
                             intent: OrderIntent, state: AccountState)
    ensures CheckConsistency(rules, journal, state)
         == Answer(Breaks(rules, disabled, ratio, journal, intent, state, CONSISTENCY_HARD), CONSISTENCY_HARD)
    ensures CheckHftRatio(rules, ratio)
         == Answer(Breaks(rules, disabled, ratio, journal, intent, state, HFT_DEFENSIVE), HFT_DEFENSIVE)
  {
    if journal.netPnl < 3000.0 {
      HalfOfRemaining(journal.bestDay, 3000.0 - journal.netPnl);
    }
  }

  lemma ProximityInNumbers(rules: Rules, disabled: bool, ratio: Ratio, journal: JournalView,
                           intent: OrderIntent, state: AccountState)
    requires Registered(intent.symbol)
    ensures var decision := AugmentWithSafetyBuffer(rules, intent, state);
            if Breaks(rules, disabled, ratio, journal, intent, state, MLL_PROXIMITY)
            then decision == Denied(intent, MLL_PROXIMITY, state)
            else decision.Approved?
  {
    hide Registered, RoomTicks, Floor;
    LossInNumbers(rules, intent);
    FloorInNumbers(rules.policy, state);
    if PerTick(intent) > 0.0 {
      RoomIsExact(rules, intent, state, 1);
    }
  }

  // ---- The whole decision -----------------------------------------------------

  /** The first broken rule in the gate's order, if any is. */
  function FirstBroken(broken: Rule -> bool): Option<Rule> {
    if broken(STRATEGY_DISABLED) then Some(STRATEGY_DISABLED)
    else if broken(HARD_FLAT_CLOCK) then Some(HARD_FLAT_CLOCK)
    else if broken(HARD_FLAT_PREEMPT) then Some(HARD_FLAT_PREEMPT)
    else if broken(STOP_REQUIRED) then Some(STOP_REQUIRED)
    else if broken(DLL) then Some(DLL)
    else if broken(MLL) then Some(MLL)
    else if broken(MAX_POSITION) then Some(MAX_POSITION)
    else if broken(NEWS_THROTTLE) then Some(NEWS_THROTTLE)
    else if broken(CONSISTENCY_HARD) then Some(CONSISTENCY_HARD)
    else if broken(HFT_DEFENSIVE) then Some(HFT_DEFENSIVE)
    else if broken(MLL_PROXIMITY) then Some(MLL_PROXIMITY)
    else None
  }

  lemma FirstBrokenIsFirst(broken: Rule -> bool)
    ensures var first := FirstBroken(broken);
            && (first.None? <==> forall r :: !broken(r))
            && (first.Some? ==> broken(first.value) && forall r :: Rank(r) < Rank(first.value) ==> !broken(r))
  {
    if FirstBroken(broken).None? {
      forall r
        ensures !broken(r)
      {
        match r {
          case STRATEGY_DISABLED => case HARD_FLAT_CLOCK => case HARD_FLAT_PREEMPT => case STOP_REQUIRED =>
          case DLL => case MLL => case MAX_POSITION => case NEWS_THROTTLE => case CONSISTENCY_HARD =>
          case HFT_DEFENSIVE => case MLL_PROXIMITY =>
        }
      }
    }
  }

  lemma DecisionFollowsRules(rules: Rules, disabled: bool, ratio: Ratio, journal: JournalView,
                             intent: OrderIntent, state: AccountState)
    requires Registered(intent.symbol)
    ensures var decision := Decide(rules, disabled, ratio, journal, intent, state);
            var first := FirstBroken(r => Breaks(rules, disabled, ratio, journal, intent, state, r));
            if first.Some? then decision == Denied(intent, first.value, state) else decision.Approved?
  {
    hide Breaks, Registered, AugmentWithSafetyBuffer, CheckHardFlat, CheckDll, CheckMll, CheckMaxPosition,
      CheckNewsThrottle, CheckConsistency, CheckHftRatio;
    DisabledBreaks(rules, disabled, ratio, journal, intent, state);
    ClockInNumbers(rules, disabled, ratio, journal, intent, state);
    LossesInNumbers(rules, disabled, ratio, journal, intent, state);
    PositionsInNumbers(rules, disabled, ratio, journal, intent, state);
    ConsistencyInNumbers(rules, disabled, ratio, journal, intent, state);
    ProximityInNumbers(rules, disabled, ratio, journal, intent, state);
  }

  /** For every order in a registered contract, the gate denies if and only if some rule is
      broken in these numbers, the rule it names is the first one broken, and it never
      raises. So whatever breaks none of them is approved, the contract cap included. */
  lemma DecisionIsFirstBroken(rules: Rules, disabled: bool, ratio: Ratio, journal: JournalView,
                              intent: OrderIntent, state: AccountState)
    requires Registered(intent.symbol)
    ensures var decision := Decide(rules, disabled, ratio, journal, intent, state);
            && !decision.Raised?
            && (decision.Approved? <==> forall r :: !Breaks(rules, disabled, ratio, journal, intent, state, r))
            && (decision.Denied? ==>
                  && IsFirstBroken(rules, disabled, ratio, journal, intent, state, decision.rule)
                  && decision == Denied(intent, decision.rule, state))
  {
    hide Breaks, Registered, Decide, FirstBroken, Rank;
    var broken := r => Breaks(rules, disabled, ratio, journal, intent, state, r);
    DecisionFollowsRules(rules, disabled, ratio, journal, intent, state);
    FirstBrokenIsFirst(broken);
    assert forall r :: broken(r) <==> Breaks(rules, disabled, ratio, journal, intent, state, r);
  }

  lemma DisabledBreaks(rules: Rules, disabled: bool, ratio: Ratio, journal: JournalView,
                       intent: OrderIntent, state: AccountState)
    ensures Breaks(rules, disabled, ratio, journal, intent, state, STRATEGY_DISABLED) <==> disabled
  {
  }

  /** Rule 7 as the gate asks it: over the last sixty minutes, more than the threshold of
      cancels to a fill, or any cancel where there was no fill. */
  lemma HftInNumbers(rules: Rules, g: GateState, journal: JournalView, intent: OrderIntent, state: AccountState)
    requires rules.config.Valid()
    ensures var since := state.timestamp.instant - 3_600_000_000;
            var cancels, fills := CountSince(g.history.cancels, since), CountSince(g.history.fills, since);
            Breaks(rules, g.disabled, RatioNow(g, state), journal, intent, state, HFT_DEFENSIVE)
            <==> if fills == 0 then cancels > 0
                 else cancels as real > rules.config.hftThreshold * fills as real
  {
    hide RatioOf, Pruned, CountSince;
    RatioInNumbers(g.history, state.timestamp.instant - 3_600_000_000, rules.config.hftThreshold);
  }

  /** An order in an unregistered contract is never approved. It raises, unless the clock, a
      missing stop, or a day or an account already at its limit turns it away first. */
  lemma UnregisteredRaises(rules: Rules, ratio: Ratio, journal: JournalView, intent: OrderIntent, state: AccountState)
    requires !Registered(intent.symbol)
    ensures var decision := Decide(rules, false, ratio, journal, intent, state);
            && !decision.Approved?
            && (decision.Raised? <==>
                  && !Breaks(rules, false, ratio, journal, intent, state, HARD_FLAT_CLOCK)
                  && !Breaks(rules, false, ratio, journal, intent, state, HARD_FLAT_PREEMPT)
                  && !Breaks(rules, false, ratio, journal, intent, state, STOP_REQUIRED)
                  && (intent.bracket.None? ==>
                        state.realizedToday > -1000.0 && state.equity >= Floor(rules.policy, state)))
            && (decision.Raised? ==> decision.error == if intent.bracket.Some? then KEY_ERROR else VALUE_ERROR)
  {
    hide GetMarket, CheckNewsThrottle, CheckConsistency, Floor;
    FloorInNumbers(rules.policy, state);
  }

  /** Profit an EFA account shows over its start. */
  function Profit(state: AccountState): real {
    state.equity - state.startBalance
  }

  /** The EFA cap both ways: an approved order never leaves more than two minis below 1,500
      dollars of profit, three below 2,000 and five ever, and the cap turns away nothing that
      fits those numbers. */
  lemma EfaTiers(rules: Rules, ratio: Ratio, journal: JournalView, intent: OrderIntent, state: AccountState)
    requires rules.policy.Efa? && Registered(intent.symbol)
    ensures var left := Abs(After(intent, state));
            && (Decide(rules, false, ratio, journal, intent, state).Approved? ==>
                  && left <= 5 * PerMini(intent.symbol)
                  && (Profit(state) < 2000.0 ==> left <= 3 * PerMini(intent.symbol))
                  && (Profit(state) < 1500.0 ==> left <= 2 * PerMini(intent.symbol)))
            && (CheckMaxPosition(rules, intent, state).Pass? <==>
                  || left <= 2 * PerMini(intent.symbol)
                  || (left <= 3 * PerMini(intent.symbol) && Profit(state) >= 1500.0)
                  || (left <= 5 * PerMini(intent.symbol) && Profit(state) >= 2000.0))
  {
    if Decide(rules, false, ratio, journal, intent, state).Approved? {
      ApprovalPassedEveryRule(rules, ratio, journal, intent, state);
    }
    hide Decide, Registered, GetMarket, ContractCap;
    RegistryInNumbers(intent.symbol);
  }
}
