/** The position machines of the mean-reversion and trend-following strategies. Indicator
    values (bands, RSI, moving averages, ATR) arrive as inputs of each bar. */
module Strategies {
  import opened Types
  import opened Markets

  datatype Bands = Bands(lower: real, mid: real, upper: real, sigma: real)

  /** What the indicators say on one bar; None while they are warming up. */
  datatype Signals = Signals(
    day: int, bands: Option<Bands>, rsi: Option<real>,
    fastEma: Option<real>, slowEma: Option<real>, atr: Option<real>)

  function AtLeastOne(x: int): int {
    if x < 1 then 1 else x
  }

  function AbsReal(x: real): real {
    if x < 0.0 then -x else x
  }

  function TickSize(symbol: string): real
    requires Registered(symbol)
    ensures TickSize(symbol) > 0.0
  {
    ValuesArePositive(symbol);
    assert forall i :: 0 <= i < |MARKETS| ==> MARKETS[i].tickSize > 0.0;
    GetMarket(symbol).value.tickSize
  }

  /** A price moved by a number of ticks. */
  function Offset(price: real, ticks: int, tickSize: real): real {
    price + ticks as real * tickSize
  }

  /** A price distance in whole ticks, one at least. */
  function InTicks(distance: real, tickSize: real): int
    requires tickSize > 0.0
  {
    AtLeastOne(RoundHalfEven(distance / tickSize))
  }

  /** The price distance a number of ticks spans. */
  function Span(ticks: real, tickSize: real): real {
    ticks * tickSize
  }

  /** A whole number of ticks within half a tick of the distance, or one for less than a tick. */
  predicate IsNearest(ticks: int, distance: real, tickSize: real) {
    && ticks >= 1
    && (distance >= tickSize ==> -0.5 * tickSize <= distance - Span(ticks as real, tickSize) <= 0.5 * tickSize)
    && (distance < tickSize ==> ticks == 1)
  }

  /** Rounding gives the nearest whole number of ticks, and never less than one. */
  lemma TicksAreNearest(distance: real, tickSize: real)
    requires tickSize > 0.0
    ensures IsNearest(InTicks(distance, tickSize), distance, tickSize)
  {
    hide RoundHalfEven, Span;
    var exact := distance / tickSize;
    var rounded := RoundHalfEven(exact);
    SpanOfQuotient(distance, tickSize);
    SpanOrder(1.0, exact, tickSize);
    if distance >= tickSize {
      SpanOrder(-0.5, exact - rounded as real, tickSize);
      SpanOrder(exact - rounded as real, 0.5, tickSize);
      SpanDifference(exact, rounded as real, tickSize);
    }
  }

  lemma SpanOfQuotient(distance: real, tickSize: real)
    requires tickSize > 0.0
    ensures Span(distance / tickSize, tickSize) == distance
  {
  }

  lemma SpanDifference(x: real, y: real, tickSize: real)
    ensures Span(x - y, tickSize) == Span(x, tickSize) - Span(y, tickSize)
  {
  }

  lemma SpanOrder(x: real, y: real, tickSize: real)
    requires tickSize > 0.0
    ensures x <= y <==> Span(x, tickSize) <= Span(y, tickSize)
    ensures Span(1.0, tickSize) == tickSize && Span(-0.5, tickSize) == -0.5 * tickSize
            && Span(0.5, tickSize) == 0.5 * tickSize
  {
  }

  /** A distance times the configured reward ratio. */
  function Multiple(distance: real, ratio: real): real {
    distance * ratio
  }

  // ---- Mean reversion -------------------------------------------------------

  datatype MrConfig = MrConfig(
    symbol: string, quantity: int, rsiOversold: real, rsiOverbought: real, rewardRatio: real, maxTradesPerDay: int)
  {
    /** What the constructor checks. */
    predicate Valid() {
      Registered(symbol) && quantity >= 1 && maxTradesPerDay >= 1 && rewardRatio > 0.0
    }
  }

  datatype MrPosition = MrPosition(side: Side, entry: real, stopPrice: real)

  datatype MrState = MrState(day: Option<int>, tradesToday: nat, position: Option<MrPosition>, counter: nat)

  const MR_START := MrState(None, 0, None, 0)

  function MrRolled(st: MrState, day: int): MrState {
    if st.day == Some(day) then st else st.(day := Some(day), tradesToday := 0)
  }

  function MrStopTicks(cfg: MrConfig, sigma: real): int
    requires cfg.Valid()
  {
    InTicks(Multiple(sigma, cfg.rewardRatio), TickSize(cfg.symbol))
  }

  function MrOpen(cfg: MrConfig, st: MrState, bar: Bar, side: Side, sigma: real): (MrState, OrderIntent)
    requires cfg.Valid() && st.day.Some?
  {
    var ticks := MrStopTicks(cfg, sigma);
    var stop := Offset(bar.close, if side == BUY then -ticks else ticks, TickSize(cfg.symbol));
    var takeProfit := InTicks(sigma, TickSize(cfg.symbol));
    (MrState(st.day, st.tradesToday + 1, Some(MrPosition(side, bar.close, stop)), st.counter + 1),
     OrderIntent(cfg.symbol, side, cfg.quantity, BRACKET, OrderId("mr", st.day.value, st.counter + 1, "entry"),
                 bar.timestamp, None, None, Some(Bracket(ticks, takeProfit))))
  }

  function MrClose(cfg: MrConfig, st: MrState, bar: Bar, side: Side, tag: string): (MrState, OrderIntent)
    requires st.day.Some?
  {
    (st.(position := None, counter := st.counter + 1),
     OrderIntent(cfg.symbol, side, cfg.quantity, MARKET, OrderId("mr", st.day.value, st.counter + 1, tag),
                 bar.timestamp, None, None, None))
  }

  /** The stop is looked at before the mid-band, and even before the bands are warm. */
  function MrExitTag(position: MrPosition, bar: Bar, bands: Option<Bands>): Option<string> {
    if position.side == BUY && bar.low <= position.stopPrice then Some("exit-stop")
    else if position.side == SELL && bar.high >= position.stopPrice then Some("exit-stop")
    else if bands.None? then None
    else if position.side == BUY && bar.high >= bands.value.mid then Some("exit-mid")
    else if position.side == SELL && bar.low <= bands.value.mid then Some("exit-mid")
    else None
  }

  function MrEntrySide(cfg: MrConfig, bar: Bar, bands: Bands, rsi: real): Option<Side> {
    if bar.close <= bands.lower && rsi <= cfg.rsiOversold then Some(BUY)
    else if bar.close >= bands.upper && rsi >= cfg.rsiOverbought then Some(SELL)
    else None
  }

  function MrOnBar(cfg: MrConfig, st: MrState, bar: Bar, signals: Signals): (MrState, seq<OrderIntent>)
    requires cfg.Valid()
  {
    var rolled := MrRolled(st, signals.day);
    if rolled.position.Some? then
      var tag := MrExitTag(rolled.position.value, bar, signals.bands);
      if tag.None? then (rolled, [])
      else
        var (next, intent) := MrClose(cfg, rolled, bar, Opposite(rolled.position.value.side), tag.value);
        (next, [intent])
    else if signals.bands.None? || rolled.tradesToday >= cfg.maxTradesPerDay || signals.rsi.None? then (rolled, [])
    else
      var side := MrEntrySide(cfg, bar, signals.bands.value, signals.rsi.value);
      if side.None? then (rolled, [])
      else
        var (next, intent) := MrOpen(cfg, rolled, bar, side.value, signals.bands.value.sigma);
        (next, [intent])
  }

  // ---- Trend following ------------------------------------------------------

  datatype TfConfig = TfConfig(
    symbol: string, pullbackAtrMult: real, rewardRatio: real, maxTradesPerDay: int, sessionEndMinute: nat)
  {
    predicate Valid() {
      Registered(symbol) && pullbackAtrMult > 0.0 && rewardRatio > 0.0 && maxTradesPerDay >= 1
    }
  }

  datatype TfPosition = TfPosition(side: Side, entry: real, stopPrice: real, takeProfitPrice: real)

  datatype TfState = TfState(day: Option<int>, tradesToday: nat, position: Option<TfPosition>, counter: nat)

  const TF_START := TfState(None, 0, None, 0)

  const CHOP_ATR_MULT := 0.1

  function TfRolled(st: TfState, day: int): TfState {
    if st.day == Some(day) then st else st.(day := Some(day), tradesToday := 0)
  }

  predicate AfterCutoff(cfg: TfConfig, bar: Bar) {
    bar.timestamp.ctMinute >= cfg.sessionEndMinute
  }

  function TfEntrySide(fast: real, slow: real, atr: real): Option<Side> {
    var spread := fast - slow;
    if AbsReal(spread) < CHOP_ATR_MULT * atr then None
    else if spread > 0.0 then Some(BUY) else Some(SELL)
  }

  predicate PullbackArmed(cfg: TfConfig, bar: Bar, side: Side, fast: real, atr: real) {
    var threshold := cfg.pullbackAtrMult * atr;
    if side == BUY then bar.low <= fast + threshold else bar.high >= fast - threshold
  }

  function TakeProfitTicks(stopTicks: int, rewardRatio: real): int {
    AtLeastOne(RoundHalfEven(Multiple(stopTicks as real, rewardRatio)))
  }

  function TfOpen(cfg: TfConfig, st: TfState, bar: Bar, side: Side, fast: real, atr: real): (TfState, OrderIntent)
    requires cfg.Valid() && st.day.Some?
  {
    var tick := TickSize(cfg.symbol);
    var distance := if side == BUY then Max(bar.close - (fast - atr), tick) else Max(fast + atr - bar.close, tick);
    var stopTicks := InTicks(distance, tick);
    var takeProfitTicks := TakeProfitTicks(stopTicks, cfg.rewardRatio);
    var stop := Offset(bar.close, if side == BUY then -stopTicks else stopTicks, tick);
    var takeProfit := Offset(bar.close, if side == BUY then takeProfitTicks else -takeProfitTicks, tick);
    (TfState(st.day, st.tradesToday + 1, Some(TfPosition(side, bar.close, stop, takeProfit)), st.counter + 1),
     OrderIntent(cfg.symbol, side, 1, BRACKET, OrderId("trend", st.day.value, st.counter + 1, ""),
                 bar.timestamp, None, None, Some(Bracket(stopTicks, takeProfitTicks))))
  }

  function TfClose(cfg: TfConfig, st: TfState, bar: Bar, side: Side): (TfState, OrderIntent)
    requires st.day.Some?
  {
    (st.(position := None, counter := st.counter + 1),
     OrderIntent(cfg.symbol, Opposite(side), 1, MARKET, OrderId("trend", st.day.value, st.counter + 1, ""),
                 bar.timestamp, None, None, None))
  }

  /** End of session first, then the bracket levels, then a trend reversal. */
  predicate TfExits(cfg: TfConfig, position: TfPosition, bar: Bar, signals: Signals) {
    || AfterCutoff(cfg, bar)
    || (position.side == BUY && (bar.high >= position.takeProfitPrice || bar.low <= position.stopPrice))
    || (position.side == SELL && (bar.low <= position.takeProfitPrice || bar.high >= position.stopPrice))
    || (signals.fastEma.Some? && signals.slowEma.Some?
        && var spread := signals.fastEma.value - signals.slowEma.value;
           if position.side == BUY then spread <= 0.0 else spread >= 0.0)
  }

  function TfOnBar(cfg: TfConfig, st: TfState, bar: Bar, signals: Signals): (TfState, seq<OrderIntent>)
    requires cfg.Valid()
  {
    var rolled := TfRolled(st, signals.day);
    if rolled.position.Some? then
      if !TfExits(cfg, rolled.position.value, bar, signals) then (rolled, [])
      else
        var (next, intent) := TfClose(cfg, rolled, bar, rolled.position.value.side);
        (next, [intent])
    else if signals.fastEma.None? || signals.slowEma.None? || signals.atr.None? then (rolled, [])
    else if rolled.tradesToday >= cfg.maxTradesPerDay || AfterCutoff(cfg, bar) then (rolled, [])
    else
      var side := TfEntrySide(signals.fastEma.value, signals.slowEma.value, signals.atr.value);
      if side.None? || !PullbackArmed(cfg, bar, side.value, signals.fastEma.value, signals.atr.value) then (rolled, [])
      else
        var (next, intent) := TfOpen(cfg, rolled, bar, side.value, signals.fastEma.value, signals.atr.value);
        (next, [intent])
  }

  // ---- The shared position machine ------------------------------------------

  datatype Strategy =
    | MeanReversion(mr: MrConfig, mrState: MrState)
    | TrendFollowing(tf: TfConfig, tfState: TfState)
  {
    predicate Valid() {
      match this
      case MeanReversion(cfg, _) => cfg.Valid()
      case TrendFollowing(cfg, _) => cfg.Valid()
    }

    function Symbol(): string {
      match this
      case MeanReversion(cfg, _) => cfg.symbol
      case TrendFollowing(cfg, _) => cfg.symbol
    }

    function Quantity(): int {
      match this
      case MeanReversion(cfg, _) => cfg.quantity
      case TrendFollowing(_, _) => 1
    }

    /** The side the strategy believes it holds. */
    function Holding(): Option<Side> {
      match this
      case MeanReversion(_, st) => if st.position.Some? then Some(st.position.value.side) else None
      case TrendFollowing(_, st) => if st.position.Some? then Some(st.position.value.side) else None
    }

    function TradesToday(): nat {
      match this
      case MeanReversion(_, st) => st.tradesToday
      case TrendFollowing(_, st) => st.tradesToday
    }

    function MaxTradesPerDay(): int {
      match this
      case MeanReversion(cfg, _) => cfg.maxTradesPerDay
      case TrendFollowing(cfg, _) => cfg.maxTradesPerDay
    }

    function OnBar(bar: Bar, signals: Signals): (Strategy, seq<OrderIntent>)
      requires Valid()
    {
      match this
      case MeanReversion(cfg, st) =>
        var (next, intents) := MrOnBar(cfg, st, bar, signals);
        (MeanReversion(cfg, next), intents)
      case TrendFollowing(cfg, st) =>
        var (next, intents) := TfOnBar(cfg, st, bar, signals);
        (TrendFollowing(cfg, next), intents)
    }
  }

  predicate IsOpen(intent: OrderIntent, symbol: string, side: Side, quantity: int) {
    && intent.symbol == symbol && intent.side == side && intent.quantity == quantity
    && intent.orderType == BRACKET && intent.bracket.Some? && intent.bracket.value.stopLossTicks >= 1
  }

  predicate IsBareClose(intent: OrderIntent, symbol: string, side: Side, quantity: int) {
    && intent.symbol == symbol && intent.side == side && intent.quantity == quantity
    && intent.orderType == MARKET && intent.bracket.None?
  }

  /** One turn of the position machine: nothing; or a bracketed open from flat; or a bare
      market close, opposite to the side held, of the same quantity. Neither waits to hear
      whether the order was approved. */
  predicate Turn(before: Strategy, after: Strategy, intents: seq<OrderIntent>) {
    && after.Symbol() == before.Symbol() && after.Quantity() == before.Quantity()
    && (|| (intents == [] && after.Holding() == before.Holding())
        || (|intents| == 1 && before.Holding().None? && after.Holding().Some?
            && IsOpen(intents[0], before.Symbol(), after.Holding().value, before.Quantity()))
        || (|intents| == 1 && before.Holding().Some? && after.Holding().None?
            && IsBareClose(intents[0], before.Symbol(), Opposite(before.Holding().value), before.Quantity())))
  }

  /** Both strategies run the position machine, whatever their indicators say. */
  lemma EveryBarIsATurn(strategy: Strategy, bar: Bar, signals: Signals)
    requires strategy.Valid()
    ensures var (next, intents) := strategy.OnBar(bar, signals);
            && next.Valid() && Turn(strategy, next, intents)
  {
    hide RoundHalfEven, TickSize, Registered;
  }

  // ---- Where the stop sits ---------------------------------------------------

  /** The price the strategy will leave at with a loss, if it holds anything. */
  function StopPrice(strategy: Strategy): Option<real> {
    match strategy
    case MeanReversion(_, st) => if st.position.Some? then Some(st.position.value.stopPrice) else None
    case TrendFollowing(_, st) => if st.position.Some? then Some(st.position.value.stopPrice) else None
  }

  lemma OffsetSide(price: real, ticks: int, tickSize: real)
    requires tickSize > 0.0 && ticks >= 1
    ensures Offset(price, ticks, tickSize) >= price + tickSize && Offset(price, -ticks, tickSize) <= price - tickSize
  {
    assert ticks as real * tickSize >= 1.0 * tickSize;
    assert (-ticks) as real * tickSize == -(ticks as real * tickSize);
  }

  /** On an open the strategy's own stop price is where the bracket puts the broker's: on the
      losing side of the close, the bracket's ticks away, one tick at the least. */
  lemma OwnStopIsBracketStop(strategy: Strategy, bar: Bar, signals: Signals)
    requires strategy.Valid() && strategy.Holding().None? && strategy.OnBar(bar, signals).0.Holding().Some?
    ensures var (next, intents) := strategy.OnBar(bar, signals);
            var tick := TickSize(strategy.Symbol());
            && |intents| == 1 && intents[0].bracket.Some? && StopPrice(next).Some?
            && var ticks := intents[0].bracket.value.stopLossTicks;
               && ticks >= 1
               && StopPrice(next).value == Offset(bar.close, if intents[0].side == BUY then -ticks else ticks, tick)
               && (if intents[0].side == BUY then StopPrice(next).value <= bar.close - tick
                   else StopPrice(next).value >= bar.close + tick)
  {
    hide RoundHalfEven, Registered, TickSize, Offset;
    EveryBarIsATurn(strategy, bar, signals);
    var (next, intents) := strategy.OnBar(bar, signals);
    OffsetSide(bar.close, intents[0].bracket.value.stopLossTicks, TickSize(strategy.Symbol()));
  }

  /** A bar that trades at or through the stop of the position held. */
  predicate ReachesStop(strategy: Strategy, bar: Bar)
    requires strategy.Holding().Some?
  {
    if strategy.Holding().value == BUY then bar.low <= StopPrice(strategy).value
    else bar.high >= StopPrice(strategy).value
  }

  /** Whatever the indicators say, a bar that reaches the stop closes the position. */
  lemma ReachedStopCloses(strategy: Strategy, bar: Bar, signals: Signals)
    requires strategy.Valid() && strategy.Holding().Some? && ReachesStop(strategy, bar)
    ensures strategy.OnBar(bar, signals).0.Holding().None?
  {
    hide RoundHalfEven, Registered, TickSize;
  }

  /** While it is held, a position keeps its side and its stop. */
  lemma HeldStopStays(strategy: Strategy, bar: Bar, signals: Signals)
    requires strategy.Valid() && strategy.Holding().Some?
    requires strategy.OnBar(bar, signals).0.Holding().Some?
    ensures var next := strategy.OnBar(bar, signals).0;
            && next.Valid() && next.Holding() == strategy.Holding() && StopPrice(next) == StopPrice(strategy)
  {
    hide RoundHalfEven, Registered, TickSize;
  }

  /** The strategy holds a position before and after every one of these bars. */
  predicate HoldsThroughout(strategy: Strategy, bars: seq<(Bar, Signals)>)
    requires strategy.Valid()
    decreases |bars|
  {
    && strategy.Holding().Some?
    && (bars != [] ==>
          var next := strategy.OnBar(bars[0].0, bars[0].1).0;
          next.Holding().Some? && next.Valid() && HoldsThroughout(next, bars[1..]))
  }

  /** No position is held past its stop: of all the bars it lives through, over days and
      whatever the indicators do, none has reached the stop set when it was opened. */
  lemma {:induction false} NothingHeldPastStop(strategy: Strategy, bars: seq<(Bar, Signals)>)
    requires strategy.Valid() && HoldsThroughout(strategy, bars)
    ensures forall b :: b in bars ==> !ReachesStop(strategy, b.0)
    decreases |bars|
  {
    hide MrOnBar, TfOnBar, Registered;
    if bars != [] {
      if ReachesStop(strategy, bars[0].0) {
        ReachedStopCloses(strategy, bars[0].0, bars[0].1);
      }
      HeldStopStays(strategy, bars[0].0, bars[0].1);
      var next := strategy.OnBar(bars[0].0, bars[0].1).0;
      NothingHeldPastStop(next, bars[1..]);
      forall b | b in bars[1..]
        ensures !ReachesStop(strategy, b.0)
      {
        assert !ReachesStop(next, b.0);
      }
      assert bars == [bars[0]] + bars[1..];
    }
  }

  // ---- The daily cap --------------------------------------------------------

  /** Entries a run of bars emits. */
  function Entries(strategy: Strategy, bars: seq<(Bar, Signals)>): nat
    requires strategy.Valid()
    decreases |bars|
  {
    if bars == [] then 0
    else
      var (next, intents) := strategy.OnBar(bars[0].0, bars[0].1);
      EveryBarIsATurn(strategy, bars[0].0, bars[0].1);
      (if strategy.Holding().None? && next.Holding().Some? then 1 else 0) + Entries(next, bars[1..])
  }

  /** However often the signals fire, bars of one trading day open at most the daily cap. */
  lemma {:induction false} DailyCap(strategy: Strategy, bars: seq<(Bar, Signals)>, day: int)
    requires strategy.Valid()
    requires forall i :: 0 <= i < |bars| ==> bars[i].1.day == day
    ensures Entries(strategy, bars) <= strategy.MaxTradesPerDay()
    ensures OnDay(strategy, day) ==>
              Entries(strategy, bars) + strategy.TradesToday()
              <= Larger(strategy.MaxTradesPerDay(), strategy.TradesToday())
    decreases |bars|
  {
    hide RoundHalfEven, TickSize, Registered;
    if bars != [] {
      var (next, intents) := strategy.OnBar(bars[0].0, bars[0].1);
      EveryBarIsATurn(strategy, bars[0].0, bars[0].1);
      assert bars[0].1.day == day;
      forall i | 0 <= i < |bars[1..]|
        ensures bars[1..][i].1.day == day
      {
        assert bars[1..][i] == bars[i + 1];
      }
      DailyCap(next, bars[1..], day);
    }
  }

  function Larger(x: int, y: int): int {
    if x < y then y else x
  }

  predicate OnDay(strategy: Strategy, day: int) {
    match strategy
    case MeanReversion(_, st) => st.day == Some(day)
    case TrendFollowing(_, st) => st.day == Some(day)
  }

  // ---- The classes ----------------------------------------------------------

  class MeanReversionStrategy {
    const cfg: MrConfig
    var day: Option<int>
    var tradesToday: nat
    var position: Option<MrPosition>
    var counter: nat

    function State(): MrState
      reads this
    {
      MrState(day, tradesToday, position, counter)
    }

    constructor (cfg: MrConfig)
      requires cfg.Valid()
      ensures this.cfg == cfg && State() == MR_START
    {
      this.cfg := cfg;
      day, tradesToday, position, counter := None, 0, None, 0;
    }

    method OnBar(bar: Bar, signals: Signals) returns (intents: seq<OrderIntent>)
      requires cfg.Valid()
      modifies this
      ensures (State(), intents) == MrOnBar(cfg, old(State()), bar, signals)
    {
      hide RoundHalfEven, TickSize, Registered, MrStopTicks;
      if day != Some(signals.day) {
        day := Some(signals.day);
        tradesToday := 0;
      }
      if position.Some? {
        var exit := MaybeEmitExit(bar, signals.bands);
        return if exit.Some? then [exit.value] else [];
      }
      if signals.bands.None? {
        return [];
      }
      if tradesToday >= cfg.maxTradesPerDay {
        return [];
      }
      if signals.rsi.None? {
        return [];
      }
      var bands := signals.bands.value;
      if bar.close <= bands.lower && signals.rsi.value <= cfg.rsiOversold {
        var intent := OpenIntent(bar, BUY, bands.sigma);
        return [intent];
      }
      if bar.close >= bands.upper && signals.rsi.value >= cfg.rsiOverbought {
        var intent := OpenIntent(bar, SELL, bands.sigma);
        return [intent];
      }
      return [];
    }

    method OpenIntent(bar: Bar, side: Side, sigma: real) returns (intent: OrderIntent)
      requires cfg.Valid() && day.Some?
      modifies this
      ensures (State(), intent) == MrOpen(cfg, old(State()), bar, side, sigma)
    {
      hide TickSize, Registered, InTicks, TakeProfitTicks, Offset;
      var tick := TickSize(cfg.symbol);
      var stopLossTicks := MrStopTicks(cfg, sigma);
      var stopPrice;
      if side == BUY {
        stopPrice := Offset(bar.close, -stopLossTicks, tick);
      } else {
        stopPrice := Offset(bar.close, stopLossTicks, tick);
      }
      position := Some(MrPosition(side, bar.close, stopPrice));
      tradesToday := tradesToday + 1;
      counter := counter + 1;
      var tpTicks := InTicks(sigma, tick);
      intent := OrderIntent(cfg.symbol, side, cfg.quantity, BRACKET, OrderId("mr", day.value, counter, "entry"),
                            bar.timestamp, None, None, Some(Bracket(stopLossTicks, tpTicks)));
    }

    method MaybeEmitExit(bar: Bar, bands: Option<Bands>) returns (exit: Option<OrderIntent>)
      requires position.Some? && day.Some?
      modifies this
      ensures var tag := MrExitTag(old(position).value, bar, bands);
              && (tag.None? ==> exit.None? && State() == old(State()))
              && (tag.Some? ==>
                    (exit.Some? && (State(), exit.value)
                        == MrClose(cfg, old(State()), bar, Opposite(old(position).value.side), tag.value)))
    {
      var pos := position.value;
      var closeSide := Opposite(pos.side);
      if (pos.side == BUY && bar.low <= pos.stopPrice) || (pos.side == SELL && bar.high >= pos.stopPrice) {
        var intent := EmitClose(bar, closeSide, "exit-stop");
        return Some(intent);
      }
      if bands.Some? {
        var mid := bands.value.mid;
        if (pos.side == BUY && bar.high >= mid) || (pos.side == SELL && bar.low <= mid) {
          var intent := EmitClose(bar, closeSide, "exit-mid");
          return Some(intent);
        }
      }
      return None;
    }

    method EmitClose(bar: Bar, side: Side, tag: string) returns (intent: OrderIntent)
      requires day.Some?
      modifies this
      ensures (State(), intent) == MrClose(cfg, old(State()), bar, side, tag)
    {
      counter := counter + 1;
      intent := OrderIntent(cfg.symbol, side, cfg.quantity, MARKET, OrderId("mr", day.value, counter, tag),
                            bar.timestamp, None, None, None);
      position := None;
    }
  }

  class TrendFollowingStrategy {
    const cfg: TfConfig
    var day: Option<int>
    var tradesToday: nat
    var position: Option<TfPosition>
    var counter: nat

    function State(): TfState
      reads this
    {
      TfState(day, tradesToday, position, counter)
    }

    constructor (cfg: TfConfig)
      requires cfg.Valid()
      ensures this.cfg == cfg && State() == TF_START
    {
      this.cfg := cfg;
      day, tradesToday, position, counter := None, 0, None, 0;
    }

    method OnBar(bar: Bar, signals: Signals) returns (intents: seq<OrderIntent>)
      requires cfg.Valid()
      modifies this
      ensures (State(), intents) == TfOnBar(cfg, old(State()), bar, signals)
    {
      hide RoundHalfEven, TickSize, Registered, TfOpen;
      if day != Some(signals.day) {
        day := Some(signals.day);
        tradesToday := 0;
      }
      if position.Some? {
        if TfExits(cfg, position.value, bar, signals) {
          var intent := CloseIntent(bar, position.value.side);
          return [intent];
        }
        return [];
      }
      if signals.fastEma.None? || signals.slowEma.None? || signals.atr.None? {
        return [];
      }
      if tradesToday >= cfg.maxTradesPerDay {
        return [];
      }
      if AfterCutoff(cfg, bar) {
        return [];
      }
      var side := TfEntrySide(signals.fastEma.value, signals.slowEma.value, signals.atr.value);
      if side.None? {
        return [];
      }
      if !PullbackArmed(cfg, bar, side.value, signals.fastEma.value, signals.atr.value) {
        return [];
      }
      var intent := OpenIntent(bar, side.value, signals.fastEma.value, signals.atr.value);
      return [intent];
    }

    method OpenIntent(bar: Bar, side: Side, fast: real, atr: real) returns (intent: OrderIntent)
      requires cfg.Valid() && day.Some?
      modifies this
      ensures (State(), intent) == TfOpen(cfg, old(State()), bar, side, fast, atr)
    {
      hide TickSize, Registered, InTicks, TakeProfitTicks, Offset;
      var tick := TickSize(cfg.symbol);
      var stopPrice, stopDistance;
      if side == BUY {
        stopPrice := fast - atr;
        stopDistance := Max(bar.close - stopPrice, tick);
      } else {
        stopPrice := fast + atr;
        stopDistance := Max(stopPrice - bar.close, tick);
      }
      var stopLossTicks := InTicks(stopDistance, tick);
      var takeProfitTicks := TakeProfitTicks(stopLossTicks, cfg.rewardRatio);
      var tpPrice, slPrice;
      if side == BUY {
        tpPrice := Offset(bar.close, takeProfitTicks, tick);
        slPrice := Offset(bar.close, -stopLossTicks, tick);
      } else {
        tpPrice := Offset(bar.close, -takeProfitTicks, tick);
        slPrice := Offset(bar.close, stopLossTicks, tick);
      }
      position := Some(TfPosition(side, bar.close, slPrice, tpPrice));
      tradesToday := tradesToday + 1;
      counter := counter + 1;
      intent := OrderIntent(cfg.symbol, side, 1, BRACKET, OrderId("trend", day.value, counter, ""),
                            bar.timestamp, None, None, Some(Bracket(stopLossTicks, takeProfitTicks)));
    }

    method CloseIntent(bar: Bar, side: Side) returns (intent: OrderIntent)
      requires day.Some?
      modifies this
      ensures (State(), intent) == TfClose(cfg, old(State()), bar, side)
    {
      counter := counter + 1;
      intent := OrderIntent(cfg.symbol, Opposite(side), 1, MARKET, OrderId("trend", day.value, counter, ""),
                            bar.timestamp, None, None, None);
      position := None;
    }
  }
}
