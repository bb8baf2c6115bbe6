/** When the two strategies open and close, in prices and minutes, and how far away they put
    their brackets. */
module EntriesAndExits {
  import opened Types
  import opened Markets
  import opened Strategies

  // ---- Mean reversion -------------------------------------------------------

  /** Warm indicators, and an entry left in the trading day. */
  predicate MrMayOpen(cfg: MrConfig, st: MrState, signals: Signals) {
    && signals.bands.Some? && signals.rsi.Some?
    && (st.day != Some(signals.day) || st.tradesToday < cfg.maxTradesPerDay)
  }

  /** At or under the lower band, oversold. */
  predicate Cheap(cfg: MrConfig, bar: Bar, signals: Signals) {
    && signals.bands.Some? && signals.rsi.Some?
    && bar.close <= signals.bands.value.lower && signals.rsi.value <= cfg.rsiOversold
  }

  /** At or over the upper band, overbought. */
  predicate Dear(cfg: MrConfig, bar: Bar, signals: Signals) {
    && signals.bands.Some? && signals.rsi.Some?
    && bar.close >= signals.bands.value.upper && signals.rsi.value >= cfg.rsiOverbought
  }

  predicate MrHolds(st: MrState, side: Side) {
    st.position.Some? && st.position.value.side == side
  }

  /** From flat, mean reversion is long after the bar if and only if it may open and the close
      is cheap, short if and only if the close is dear and not cheap. It buys what it goes
      long and sells what it goes short, at the close. */
  lemma MrOpensExactly(cfg: MrConfig, st: MrState, bar: Bar, signals: Signals)
    requires cfg.Valid() && st.position.None?
    ensures var (after, intents) := MrOnBar(cfg, st, bar, signals);
            var may := MrMayOpen(cfg, st, signals);
            && (MrHolds(after, BUY) <==> may && Cheap(cfg, bar, signals))
            && (MrHolds(after, SELL) <==> may && Dear(cfg, bar, signals) && !Cheap(cfg, bar, signals))
            && (after.position.None? ==> intents == [])
            && (after.position.Some? ==>
                  && after.position.value.entry == bar.close
                  && |intents| == 1 && intents[0].side == after.position.value.side
                  && intents[0].orderType == BRACKET && intents[0].quantity == cfg.quantity
                  && intents[0].symbol == cfg.symbol && intents[0].timestamp == bar.timestamp)
  {
    hide RoundHalfEven, TickSize, Registered, MrStopTicks;
  }

  /** The position's stop is reached within the bar. */
  predicate MrStopped(position: MrPosition, bar: Bar) {
    if position.side == BUY then bar.low <= position.stopPrice else bar.high >= position.stopPrice
  }

  /** The bar comes back to the middle band, while the bands are warm. */
  predicate BackToMid(position: MrPosition, bar: Bar, signals: Signals) {
    && signals.bands.Some?
    && if position.side == BUY then bar.high >= signals.bands.value.mid else bar.low <= signals.bands.value.mid
  }

  /** A held position is closed, with one order the other way, if and only if the bar reaches
      its stop or comes back to the middle band, and the order says which: the stop if both. */
  lemma MrClosesExactly(cfg: MrConfig, st: MrState, bar: Bar, signals: Signals)
    requires cfg.Valid() && st.position.Some?
    ensures var (after, intents) := MrOnBar(cfg, st, bar, signals);
            var position := st.position.value;
            var stopped := MrStopped(position, bar);
            && (after.position.None? <==> stopped || BackToMid(position, bar, signals))
            && (after.position.Some? ==> after.position == st.position && intents == [])
            && (after.position.None? ==>
                  && |intents| == 1 && intents[0].orderType == MARKET
                  && intents[0].side == (if position.side == BUY then SELL else BUY)
                  && intents[0].quantity == cfg.quantity && intents[0].symbol == cfg.symbol
                  && intents[0].clientOrderId.tag == (if stopped then "exit-stop" else "exit-mid"))
  {
    hide RoundHalfEven, TickSize, Registered, MrStopTicks;
  }

  /** The bracket of a mean-reversion entry: the stop the ticks nearest to sigma times the
      reward ratio, the target those nearest to sigma; the position's own stop on the losing
      side of the close. */
  lemma MrBracketIsSigma(cfg: MrConfig, st: MrState, bar: Bar, signals: Signals)
    requires cfg.Valid() && st.position.None? && MrOnBar(cfg, st, bar, signals).0.position.Some?
    ensures signals.bands.Some?
    ensures var (after, intents) := MrOnBar(cfg, st, bar, signals);
            var sigma := signals.bands.value.sigma;
            var tick := TickPoints(cfg.symbol);
            && |intents| == 1 && intents[0].bracket.Some?
            && var bracket := intents[0].bracket.value;
               && IsNearest(bracket.stopLossTicks, Multiple(sigma, cfg.rewardRatio), tick)
               && IsNearest(bracket.takeProfitTicks, sigma, tick)
               && after.position.value.stopPrice
                  == (if after.position.value.side == BUY then bar.close - bracket.stopLossTicks as real * tick
                      else bar.close + bracket.stopLossTicks as real * tick)
  {
    hide RoundHalfEven, GetMarket, InTicks, IsNearest, TickPoints;
    RegistryInNumbers(cfg.symbol);
    var sigma, tick := signals.bands.value.sigma, TickSize(cfg.symbol);
    TicksAreNearest(Multiple(sigma, cfg.rewardRatio), tick);
    TicksAreNearest(sigma, tick);
    Mirrored(MrStopTicks(cfg, sigma), tick);
  }

  lemma Mirrored(ticks: int, tick: real)
    ensures (-ticks) as real * tick == -(ticks as real * tick)
  {
  }

  // ---- Trend following ------------------------------------------------------

  /** Warm indicators, an entry left in the trading day, and the session still open. */
  predicate TfMayOpen(cfg: TfConfig, st: TfState, bar: Bar, signals: Signals) {
    && signals.fastEma.Some? && signals.slowEma.Some? && signals.atr.Some?
    && (st.day != Some(signals.day) || st.tradesToday < cfg.maxTradesPerDay)
    && bar.timestamp.ctMinute < cfg.sessionEndMinute
  }

  /** The fast average is over the slow one by a tenth of the ATR or more, and the bar's low
      has pulled back to within the configured multiple of the ATR above it. */
  predicate PulledBackInUptrend(cfg: TfConfig, bar: Bar, fast: real, slow: real, atr: real) {
    fast > slow && 10.0 * (fast - slow) >= atr && bar.low - fast <= cfg.pullbackAtrMult * atr
  }

  /** The mirror image; level averages count as a downtrend when there is no range at all. */
  predicate PulledBackInDowntrend(cfg: TfConfig, bar: Bar, fast: real, slow: real, atr: real) {
    fast <= slow && 10.0 * (slow - fast) >= atr && fast - bar.high <= cfg.pullbackAtrMult * atr
  }

  predicate TfHolds(st: TfState, side: Side) {
    st.position.Some? && st.position.value.side == side
  }

  /** From flat, trend following is long after the bar if and only if it may open and the bar is
      a pullback in an uptrend, short if and only if it is one in a downtrend. */
  lemma TfOpensExactly(cfg: TfConfig, st: TfState, bar: Bar, signals: Signals)
    requires cfg.Valid() && st.position.None?
    ensures var (after, intents) := TfOnBar(cfg, st, bar, signals);
            && (TfHolds(after, BUY) <==>
                  && TfMayOpen(cfg, st, bar, signals)
                  && PulledBackInUptrend(cfg, bar, signals.fastEma.value, signals.slowEma.value, signals.atr.value))
            && (TfHolds(after, SELL) <==>
                  && TfMayOpen(cfg, st, bar, signals)
                  && PulledBackInDowntrend(cfg, bar, signals.fastEma.value, signals.slowEma.value, signals.atr.value))
            && (after.position.None? ==> intents == [])
            && (after.position.Some? ==>
                  && after.position.value.entry == bar.close
                  && |intents| == 1 && intents[0].side == after.position.value.side
                  && intents[0].orderType == BRACKET && intents[0].quantity == 1
                  && intents[0].symbol == cfg.symbol && intents[0].timestamp == bar.timestamp)
  {
    hide RoundHalfEven, TickSize, Registered, InTicks, TakeProfitTicks;
  }

  /** The session is over, the bar reaches the target or the stop, or the averages have come
      back together or crossed. */
  predicate TfDone(cfg: TfConfig, position: TfPosition, bar: Bar, signals: Signals) {
    || bar.timestamp.ctMinute >= cfg.sessionEndMinute
    || (if position.side == BUY then bar.high >= position.takeProfitPrice || bar.low <= position.stopPrice
        else bar.low <= position.takeProfitPrice || bar.high >= position.stopPrice)
    || (signals.fastEma.Some? && signals.slowEma.Some?
        && if position.side == BUY then signals.fastEma.value <= signals.slowEma.value
           else signals.slowEma.value <= signals.fastEma.value)
  }

  lemma TfClosesExactly(cfg: TfConfig, st: TfState, bar: Bar, signals: Signals)
    requires cfg.Valid() && st.position.Some?
    ensures var (after, intents) := TfOnBar(cfg, st, bar, signals);
            var position := st.position.value;
            && (after.position.None? <==> TfDone(cfg, position, bar, signals))
            && (after.position.Some? ==> after.position == st.position && intents == [])
            && (after.position.None? ==>
                  && |intents| == 1 && intents[0].orderType == MARKET && intents[0].bracket.None?
                  && intents[0].side == (if position.side == BUY then SELL else BUY)
                  && intents[0].quantity == 1 && intents[0].symbol == cfg.symbol)
  {
    hide RoundHalfEven, TickSize, Registered, InTicks, TakeProfitTicks;
  }

  /** The bracket of a trend entry: the stop the ticks nearest to one ATR beyond the fast
      average, or to one tick if the close is past that already; the target its multiple,
      rounded to the nearest tick; the position's own levels where the bracket puts them. */
  lemma TfBracketIsAtr(cfg: TfConfig, st: TfState, bar: Bar, signals: Signals)
    requires cfg.Valid() && st.position.None? && TfOnBar(cfg, st, bar, signals).0.position.Some?
    ensures signals.fastEma.Some? && signals.atr.Some?
    ensures var (after, intents) := TfOnBar(cfg, st, bar, signals);
            var tick := TickPoints(cfg.symbol);
            && |intents| == 1 && intents[0].bracket.Some?
            && var position := after.position.value;
               var bracket := intents[0].bracket.value;
               var stop := bracket.stopLossTicks as real * tick;
               var target := bracket.takeProfitTicks as real * tick;
               && IsNearest(bracket.stopLossTicks, Max(Beyond(position.side, bar.close, signals), tick), tick)
               && IsNearest(bracket.takeProfitTicks, Multiple(bracket.stopLossTicks as real, cfg.rewardRatio), 1.0)
               && (position.side == BUY ==>
                     position.stopPrice == bar.close - stop && position.takeProfitPrice == bar.close + target)
               && (position.side == SELL ==>
                     position.stopPrice == bar.close + stop && position.takeProfitPrice == bar.close - target)
  {
    hide RoundHalfEven, GetMarket, InTicks, IsNearest, TickPoints, TakeProfitTicks;
    RegistryInNumbers(cfg.symbol);
    var (after, intents) := TfOnBar(cfg, st, bar, signals);
    var tick, ticks := TickSize(cfg.symbol), intents[0].bracket.value;
    TicksAreNearest(Max(Beyond(after.position.value.side, bar.close, signals), tick), tick);
    TargetIsNearest(ticks.stopLossTicks, cfg.rewardRatio);
    Mirrored(ticks.stopLossTicks, tick);
    Mirrored(ticks.takeProfitTicks, tick);
  }

  /** How far the close is from the price one ATR beyond the fast average. */
  function Beyond(side: Side, close: real, signals: Signals): real
    requires signals.fastEma.Some? && signals.atr.Some?
  {
    if side == BUY then close - signals.fastEma.value + signals.atr.value
    else signals.fastEma.value + signals.atr.value - close
  }

  lemma TargetIsNearest(stopTicks: int, rewardRatio: real)
    ensures IsNearest(TakeProfitTicks(stopTicks, rewardRatio), Multiple(stopTicks as real, rewardRatio), 1.0)
  {
    TicksAreNearest(Multiple(stopTicks as real, rewardRatio), 1.0);
  }

  // ---- Days and order ids -----------------------------------------------------

  /** A new trading day clears the count of entries and nothing else; an entry adds one. */
  lemma DayRollsCount(strategy: Strategy, bar: Bar, signals: Signals)
    requires strategy.Valid()
    ensures var (next, intents) := strategy.OnBar(bar, signals);
            && OnDay(next, signals.day)
            && next.TradesToday() == (if OnDay(strategy, signals.day) then strategy.TradesToday() else 0)
                                     + (if strategy.Holding().None? && next.Holding().Some? then 1 else 0)
            && Counter(next) == Counter(strategy) + |intents|
            && forall i :: 0 <= i < |intents| ==>
                 NumberedAs(intents[i], strategy, Counter(next)) && intents[i].clientOrderId.day == signals.day
  {
    hide RoundHalfEven, TickSize, Registered, InTicks, TakeProfitTicks;
  }

  function Counter(strategy: Strategy): nat {
    match strategy
    case MeanReversion(_, st) => st.counter
    case TrendFollowing(_, st) => st.counter
  }

  predicate NumberedAs(intent: OrderIntent, strategy: Strategy, number: nat) {
    && intent.clientOrderId.number == number
    && intent.clientOrderId.origin == (if strategy.MeanReversion? then "mr" else "trend")
  }

  /** Every order a run of bars emits, in order. */
  function Emitted(strategy: Strategy, bars: seq<(Bar, Signals)>): seq<OrderIntent>
    requires strategy.Valid()
    decreases |bars|
  {
    if bars == [] then []
    else
      var (next, intents) := strategy.OnBar(bars[0].0, bars[0].1);
      EveryBarIsATurn(strategy, bars[0].0, bars[0].1);
      intents + Emitted(next, bars[1..])
  }

  lemma {:induction false} OrderIsNumbered(strategy: Strategy, bars: seq<(Bar, Signals)>, i: nat)
    requires strategy.Valid() && i < |Emitted(strategy, bars)|
    ensures NumberedAs(Emitted(strategy, bars)[i], strategy, Counter(strategy) + 1 + i)
    decreases |bars|
  {
    hide MrOnBar, TfOnBar, Registered;
    if bars != [] {
      var (next, intents) := strategy.OnBar(bars[0].0, bars[0].1);
      EveryBarIsATurn(strategy, bars[0].0, bars[0].1);
      DayRollsCount(strategy, bars[0].0, bars[0].1);
      if i >= |intents| {
        assert Emitted(strategy, bars)[i] == Emitted(next, bars[1..])[i - |intents|];
        OrderIsNumbered(next, bars[1..], i - |intents|);
      } else {
        assert Emitted(strategy, bars)[i] == intents[i] && |intents| == 1;
      }
    }
  }

  /** Over any run of bars, across days, the orders are numbered one after the other, so no
      two share a client order id. */
  lemma OrderIdsAreDistinct(strategy: Strategy, bars: seq<(Bar, Signals)>, i: nat, j: nat)
    requires strategy.Valid() && i < j < |Emitted(strategy, bars)|
    ensures var orders := Emitted(strategy, bars);
            && orders[i].clientOrderId != orders[j].clientOrderId
            && orders[j].clientOrderId.number == orders[i].clientOrderId.number + (j - i)
  {
    hide Emitted;
    OrderIsNumbered(strategy, bars, i);
    OrderIsNumbered(strategy, bars, j);
  }
}
