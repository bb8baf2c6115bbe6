/** The strategy that trades signals from outside: a bounded queue filled by a background
    task and drained, a few matching events a bar, by the loop. */
module SignalQueue {
  import opened Types
  import opened Markets
  import opened CancelTracker
  import opened GateRules
  import opened Strategies
  import opened ClosedLoop

  datatype SignalEvent = SignalEvent(
    symbol: string, side: Side, qty: int,
    limitPrice: Option<real>, stopLoss: Option<real>, takeProfit: Option<real>, sourceId: string)

  // ---- Symbols and brackets ---------------------------------------------------

  predicate SymbolsMatch(signalSymbol: string, botSymbol: string) {
    botSymbol <= signalSymbol || signalSymbol <= botSymbol
  }

  /** Tick offsets of absolute prices. Without a limit price there is nothing to measure
      from; without a target it is as far away as the stop. */
  function BuildBracket(event: SignalEvent, tickSize: real): Option<Bracket>
    requires tickSize > 0.0
  {
    if event.stopLoss.None? || event.limitPrice.None? then None
    else
      var slTicks := InTicks(AbsReal(event.limitPrice.value - event.stopLoss.value), tickSize);
      var tpTicks := if event.takeProfit.Some?
          then InTicks(AbsReal(event.takeProfit.value - event.limitPrice.value), tickSize)
                     else slTicks;
      Some(Bracket(slTicks, tpTicks))
  }

  function IntentOf(event: SignalEvent, symbol: string, bar: Bar, number: nat): OrderIntent
    requires Registered(symbol)
  {
    OrderIntent(symbol, event.side, event.qty, if event.limitPrice.Some? then LIMIT else MARKET,
                OrderId("signal", 0, number, event.sourceId), bar.timestamp, event.limitPrice, None,
                BuildBracket(event, TickSize(symbol)))
  }

  /** The order of a signal: the bot's own symbol, the signal's side and quantity, a limit at
      the signal's price or else at market; and with both a limit and a stop, a bracket of the
      ticks nearest to their distance, and to the target's if there is one. */
  lemma SignalOrder(event: SignalEvent, symbol: string, bar: Bar, number: nat)
    requires Registered(symbol)
    ensures var order := IntentOf(event, symbol, bar, number);
            var tick := TickPoints(symbol);
            && order.symbol == symbol && order.side == event.side && order.quantity == event.qty
            && order.limitPrice == event.limitPrice && order.timestamp == bar.timestamp
            && order.clientOrderId.number == number && order.clientOrderId.tag == event.sourceId
            && (order.orderType == LIMIT <==> event.limitPrice.Some?)
            && (order.orderType == MARKET <==> event.limitPrice.None?)
            && (order.bracket.Some? <==> event.limitPrice.Some? && event.stopLoss.Some?)
            && (order.bracket.Some? ==>
                  var entry, stop := event.limitPrice.value, event.stopLoss.value;
                  && IsNearest(order.bracket.value.stopLossTicks, Max(entry - stop, stop - entry), tick)
                  && (event.takeProfit.None? ==>
                        order.bracket.value.takeProfitTicks == order.bracket.value.stopLossTicks)
                  && (event.takeProfit.Some? ==>
                        var target := event.takeProfit.value;
                        IsNearest(order.bracket.value.takeProfitTicks, Max(entry - target, target - entry), tick)))
  {
    hide InTicks, IsNearest, GetMarket;
    RegistryInNumbers(symbol);
    var tick := TickSize(symbol);
    if event.limitPrice.Some? && event.stopLoss.Some? {
      TicksAreNearest(AbsReal(event.limitPrice.value - event.stopLoss.value), tick);
      if event.takeProfit.Some? {
        TicksAreNearest(AbsReal(event.takeProfit.value - event.limitPrice.value), tick);
      }
    }
  }

  /** A signal in a registered contract reaches the bots of that contract's market alone. */
  lemma SignalReachesOneMarket(signalSymbol: string, botSymbol: string)
    requires Registered(signalSymbol) && Registered(botSymbol) && SymbolsMatch(signalSymbol, botSymbol)
    ensures GetMarket(signalSymbol) == GetMarket(botSymbol)
  {
    if botSymbol <= signalSymbol {
      LongerCodeSameMarket(botSymbol, signalSymbol);
    } else {
      LongerCodeSameMarket(signalSymbol, botSymbol);
    }
  }

  /** A bare root matches every contract of its market, whichever side it is on, and of no
      other. */
  lemma RootMatchesItsMarket(root: string, symbol: string)
    requires IsRoot(root) && Registered(symbol)
    ensures SymbolsMatch(root, symbol) <==> GetMarket(root) == GetMarket(symbol)
    ensures SymbolsMatch(symbol, root) <==> GetMarket(root) == GetMarket(symbol)
  {
    RootIsItsOwnPrefix(root);
    if SymbolsMatch(root, symbol) {
      SignalReachesOneMarket(root, symbol);
    }
    if GetMarket(root) == GetMarket(symbol) {
      FoundRoot(root, MARKETS);
      FoundPrefix(symbol, MARKETS);
    }
  }

  lemma {:induction false} FoundRoot(root: string, markets: seq<MarketSpec>)
    requires FindRoot(root, markets).Some?
    ensures FindRoot(root, markets).value.root == root
    decreases |markets|
  {
    if markets[0].root != root {
      FoundRoot(root, markets[1..]);
    }
  }

  /** A symbol too short to be in the registry reaches every market it begins: "M" all the
      micros, and an empty one every bot. */
  lemma ShortSignalReachesMany(botSymbol: string)
    requires Registered(botSymbol)
    ensures SymbolsMatch("", botSymbol) && !Registered("") && !Registered("M")
    ensures SymbolsMatch("M", botSymbol) <==> IsMicro(GetMarket(botSymbol).value)
  {
    ValuesArePositive(botSymbol);
    FoundPrefix(botSymbol, MARKETS);
    assert forall i :: 0 <= i < |MARKETS| ==> (MARKETS[i].root[0] == 'M' <==> IsMicro(MARKETS[i]));
    var market := GetMarket(botSymbol).value;
    assert market.root[0] == botSymbol[0];
  }

  /** The gate turns down every signal order that adds exposure unless the signal carries
      both a limit price and a stop. */
  lemma UnanchoredSignalNeverOpens(rules: Rules, disabled: bool, ratio: Ratio, journal: JournalView,
                                   event: SignalEvent, symbol: string, bar: Bar, number: nat, state: AccountState)
    requires Registered(symbol) && (event.limitPrice.None? || event.stopLoss.None?)
    requires IntentOf(event, symbol, bar, number).IncreasesExposure(state.openPositions)
    ensures !Decide(rules, disabled, ratio, journal, IntentOf(event, symbol, bar, number), state).Approved?
  {
    BareOpenIsDenied(rules, disabled, ratio, journal, IntentOf(event, symbol, bar, number), state);
  }

  // ---- The queue ----------------------------------------------------------------

  datatype Config = Config(symbol: string, maxPerBar: int, maxQueue: nat)
  {
    predicate Valid() {
      Registered(symbol) && maxPerBar >= 1
    }
  }

  /** The background task drops what does not fit. */
  function Pumped(queue: seq<SignalEvent>, event: SignalEvent, maxQueue: nat): seq<SignalEvent> {
    if |queue| >= maxQueue then queue else queue + [event]
  }

  /** A bounded deque makes room at the front. */
  function Injected(queue: seq<SignalEvent>, event: SignalEvent, maxQueue: nat): seq<SignalEvent> {
    var all := queue + [event];
    if |all| > maxQueue then all[|all| - maxQueue..] else all
  }

  /** Front to back: mismatches are dropped, matches are taken up to the quota, the rest stay. */
  function Drained(queue: seq<SignalEvent>, symbol: string, quota: nat): (r: (seq<SignalEvent>, seq<SignalEvent>))
    decreases |queue|
  {
    if queue == [] then ([], [])
    else if !SymbolsMatch(queue[0].symbol, symbol) then Drained(queue[1..], symbol, quota)
    else if quota == 0 then
      var (taken, left) := Drained(queue[1..], symbol, 0);
      (taken, [queue[0]] + left)
    else
      var (taken, left) := Drained(queue[1..], symbol, quota - 1);
      ([queue[0]] + taken, left)
  }

  function Matching(events: seq<SignalEvent>, symbol: string): seq<SignalEvent> {
    if events == [] then []
    else (if SymbolsMatch(events[0].symbol, symbol) then [events[0]] else []) + Matching(events[1..], symbol)
  }

  lemma {:induction false} MatchingConcat(a: seq<SignalEvent>, b: seq<SignalEvent>, symbol: string)
    ensures Matching(a + b, symbol) == Matching(a, symbol) + Matching(b, symbol)
    decreases |a|
  {
    if a == [] {
      assert a + b == b;
    } else {
      assert (a + b)[0] == a[0] && (a + b)[1..] == a[1..] + b;
      MatchingConcat(a[1..], b, symbol);
      var first := if SymbolsMatch(a[0].symbol, symbol) then [a[0]] else [];
      assert first + (Matching(a[1..], symbol) + Matching(b, symbol))
             == first + Matching(a[1..], symbol) + Matching(b, symbol);
    }
  }

  lemma {:induction false} MatchingTwice(events: seq<SignalEvent>, symbol: string)
    ensures Matching(Matching(events, symbol), symbol) == Matching(events, symbol)
    decreases |events|
  {
    if events != [] {
      MatchingTwice(events[1..], symbol);
      if SymbolsMatch(events[0].symbol, symbol) {
        assert ([events[0]] + Matching(events[1..], symbol))[1..] == Matching(events[1..], symbol);
      } else {
        assert [] + Matching(events[1..], symbol) == Matching(events[1..], symbol);
      }
    }
  }

  function Least(x: nat, y: nat): nat {
    if x < y then x else y
  }

  /** A bar takes exactly the first min(quota, matching) matching events, whatever stands
      between them, and leaves exactly the other matching ones. */
  lemma {:induction false} DrainTakesFirstMatches(queue: seq<SignalEvent>, symbol: string, quota: nat)
    ensures var (taken, left) := Drained(queue, symbol, quota);
            var matching := Matching(queue, symbol);
            var n := Least(quota, |matching|);
            taken == matching[..n] && left == matching[n..]
    decreases |queue|
  {
    hide SymbolsMatch;
    if queue != [] {
      var rest := Matching(queue[1..], symbol);
      if !SymbolsMatch(queue[0].symbol, symbol) {
        DrainTakesFirstMatches(queue[1..], symbol, quota);
        assert [] + rest == rest;
      } else if quota == 0 {
        DrainTakesFirstMatches(queue[1..], symbol, 0);
      } else {
        DrainTakesFirstMatches(queue[1..], symbol, quota - 1);
        ConsSlices(queue[0], rest, Least(quota, 1 + |rest|));
      }
    }
  }

  lemma ConsSlices(x: SignalEvent, rest: seq<SignalEvent>, n: nat)
    requires 0 < n <= 1 + |rest|
    ensures ([x] + rest)[..n] == [x] + rest[..n - 1] && ([x] + rest)[n..] == rest[n - 1..]
  {
  }

  /** The orders for the events a bar takes, numbered onward. */
  function Intents(taken: seq<SignalEvent>, symbol: string, bar: Bar, counter: nat): (r: seq<OrderIntent>)
    requires Registered(symbol)
    ensures |r| == |taken|
  {
    seq(|taken|, i requires 0 <= i < |taken| => IntentOf(taken[i], symbol, bar, counter + i + 1))
  }

  /** A bar's orders are its signals', in the order they were taken, numbered onward. */
  lemma OrdersFollowSignals(taken: seq<SignalEvent>, symbol: string, bar: Bar, counter: nat, i: nat)
    requires Registered(symbol) && i < |taken|
    ensures var order := Intents(taken, symbol, bar, counter)[i];
            && order.side == taken[i].side && order.quantity == taken[i].qty
            && order.limitPrice == taken[i].limitPrice && order.symbol == symbol
            && order.clientOrderId.tag == taken[i].sourceId && order.clientOrderId.number == counter + 1 + i
  {
    hide BuildBracket, Registered;
  }

  /** How a drain continues behind what has been taken and kept so far. */
  lemma DrainFront(queue: seq<SignalEvent>, symbol: string, quota: nat, taken: seq<SignalEvent>, kept: seq<SignalEvent>)
    requires queue != []
    ensures var (t, l) := Drained(queue, symbol, quota);
            (taken + t, kept + l) ==
            if !SymbolsMatch(queue[0].symbol, symbol) then
              var (t', l') := Drained(queue[1..], symbol, quota);
              (taken + t', kept + l')
            else if quota == 0 then
              var (t', l') := Drained(queue[1..], symbol, 0);
              (taken + t', kept + [queue[0]] + l')
            else
              var (t', l') := Drained(queue[1..], symbol, quota - 1);
              (taken + [queue[0]] + t', kept + l')
  {
    var e := queue[0];
    var rest := Drained(queue[1..], symbol, if quota == 0 then 0 else quota - 1);
    assert taken + ([e] + rest.0) == taken + [e] + rest.0;
    assert kept + ([e] + rest.1) == kept + [e] + rest.1;
  }

  class SignalStrategy {
    const cfg: Config
    var queue: seq<SignalEvent>
    var intentCounter: nat

    constructor (cfg: Config)
      requires cfg.Valid()
      ensures this.cfg == cfg && queue == [] && intentCounter == 0
    {
      this.cfg := cfg;
      queue, intentCounter := [], 0;
    }

    /** One event of the background task. */
    method Pump(event: SignalEvent)
      modifies this`queue
      ensures queue == Pumped(old(queue), event, cfg.maxQueue)
    {
      if |queue| >= cfg.maxQueue {
        return;
      }
      queue := queue + [event];
    }

    method Inject(event: SignalEvent)
      modifies this`queue
      ensures queue == Injected(old(queue), event, cfg.maxQueue)
    {
      queue := queue + [event];
      if |queue| > cfg.maxQueue {
        queue := queue[|queue| - cfg.maxQueue..];
      }
    }

    method OnBar(bar: Bar) returns (out: seq<OrderIntent>)
      requires cfg.Valid()
      modifies this
      ensures var (taken, left) := Drained(old(queue), cfg.symbol, cfg.maxPerBar);
              && out == Intents(taken, cfg.symbol, bar, old(intentCounter))
              && queue == left && intentCounter == old(intentCounter) + |out|
    {
      hide Registered, IntentOf, SymbolsMatch;
      ghost var whole := Drained(queue, cfg.symbol, cfg.maxPerBar);
      ghost var taken: seq<SignalEvent> := [];
      ghost var first := intentCounter;
      out := [];
      var remaining: seq<SignalEvent> := [];
      var emitted := 0;
      assert [] + whole.0 == whole.0 && [] + whole.1 == whole.1;
      while queue != []
        invariant 0 <= emitted == |out| <= cfg.maxPerBar && (remaining != [] ==> emitted == cfg.maxPerBar)
        invariant intentCounter == first + emitted && out == Intents(taken, cfg.symbol, bar, first)
        invariant var rest := Drained(queue, cfg.symbol, cfg.maxPerBar - emitted);
                  whole == (taken + rest.0, remaining + rest.1)
        decreases |queue|
      {
        var event := queue[0];
        DrainFront(queue, cfg.symbol, cfg.maxPerBar - emitted, taken, remaining);
        queue := queue[1..];
        if !SymbolsMatch(event.symbol, cfg.symbol) {
          continue;
        }
        if emitted >= cfg.maxPerBar {
          remaining := remaining + [event];
          continue;
        }
        intentCounter := intentCounter + 1;
        out := out + [IntentOf(event, cfg.symbol, bar, intentCounter)];
        emitted := emitted + 1;
        taken := taken + [event];
      }
      queue := remaining + queue;
    }
  }

  // ---- Whole runs ---------------------------------------------------------------

  datatype Op = Arrives(event: SignalEvent) | Injects(event: SignalEvent) | Bars

  /** What a run did: the events accepted into the queue, the events that left it as orders,
      bar by bar, and the queue at the end. */
  datatype QueueRun = QueueRun(accepted: seq<SignalEvent>, emitted: seq<SignalEvent>, queue: seq<SignalEvent>)

  function OpDone(cfg: Config, h: QueueRun, op: Op): QueueRun
    requires cfg.Valid()
  {
    match op
    case Arrives(event) =>
      h.(accepted := h.accepted + (if |h.queue| < cfg.maxQueue then [event] else []),
         queue := Pumped(h.queue, event, cfg.maxQueue))
    case Injects(event) =>
      h.(accepted := h.accepted + [event], queue := Injected(h.queue, event, cfg.maxQueue))
    case Bars =>
      var (taken, left) := Drained(h.queue, cfg.symbol, cfg.maxPerBar);
      h.(emitted := h.emitted + taken, queue := left)
  }

  function RunOps(cfg: Config, h: QueueRun, ops: seq<Op>): QueueRun
    requires cfg.Valid()
    decreases |ops|
  {
    if ops == [] then h else RunOps(cfg, OpDone(cfg, h, ops[0]), ops[1..])
  }

  /** No direct injection meets a full queue. */
  predicate NoOverflow(cfg: Config, h: QueueRun, ops: seq<Op>)
    requires cfg.Valid()
    decreases |ops|
  {
    ops == [] || ((ops[0].Injects? ==> |h.queue| < cfg.maxQueue) && NoOverflow(cfg, OpDone(cfg, h, ops[0]), ops[1..]))
  }

  /** Every accepted matching event has left as an order or is still queued, in order. */
  ghost predicate Lossless(cfg: Config, h: QueueRun) {
    h.emitted + Matching(h.queue, cfg.symbol) == Matching(h.accepted, cfg.symbol)
  }

  lemma OpKeepsLossless(cfg: Config, h: QueueRun, op: Op)
    requires cfg.Valid() && Lossless(cfg, h) && |h.queue| <= cfg.maxQueue
    requires op.Injects? ==> |h.queue| < cfg.maxQueue
    ensures Lossless(cfg, OpDone(cfg, h, op)) && |OpDone(cfg, h, op).queue| <= cfg.maxQueue
  {
    hide Registered, Drained, SymbolsMatch;
    match op
    case Arrives(event) =>
      AppendKeepsLossless(cfg, h, event);
      assert h.accepted + [] == h.accepted;
    case Injects(event) => AppendKeepsLossless(cfg, h, event);
    case Bars =>
      var matching := Matching(h.queue, cfg.symbol);
      DrainTakesFirstMatches(h.queue, cfg.symbol, cfg.maxPerBar);
      var (taken, left) := Drained(h.queue, cfg.symbol, cfg.maxPerBar);
      var n := Least(cfg.maxPerBar, |matching|);
      MatchingTwice(h.queue, cfg.symbol);
      assert matching == matching[..n] + matching[n..];
      MatchingConcat(matching[..n], matching[n..], cfg.symbol);
      MatchingIsShorter(matching[..n], cfg.symbol);
      MatchingIsShorter(matching[n..], cfg.symbol);
      MatchingIsShorter(h.queue, cfg.symbol);
      assert Matching(left, cfg.symbol) == left;
      assert h.emitted + taken + left == h.emitted + (taken + left);
  }

  lemma AppendKeepsLossless(cfg: Config, h: QueueRun, event: SignalEvent)
    requires Lossless(cfg, h)
    ensures Lossless(cfg, h.(accepted := h.accepted + [event], queue := h.queue + [event]))
  {
    hide Matching;
    MatchingConcat(h.accepted, [event], cfg.symbol);
    MatchingConcat(h.queue, [event], cfg.symbol);
    assert h.emitted + (Matching(h.queue, cfg.symbol) + Matching([event], cfg.symbol))
        == h.emitted + Matching(h.queue, cfg.symbol) + Matching([event], cfg.symbol);
  }

  lemma {:induction false} MatchingIsShorter(events: seq<SignalEvent>, symbol: string)
    ensures |Matching(events, symbol)| <= |events|
    decreases |events|
  {
    if events != [] {
      MatchingIsShorter(events[1..], symbol);
    }
  }

  lemma {:induction false} RunKeepsLossless(cfg: Config, h: QueueRun, ops: seq<Op>)
    requires cfg.Valid() && Lossless(cfg, h) && |h.queue| <= cfg.maxQueue && NoOverflow(cfg, h, ops)
    ensures Lossless(cfg, RunOps(cfg, h, ops)) && |RunOps(cfg, h, ops).queue| <= cfg.maxQueue
    decreases |ops|
  {
    hide Lossless, OpDone, Registered;
    if ops != [] {
      OpKeepsLossless(cfg, h, ops[0]);
      RunKeepsLossless(cfg, OpDone(cfg, h, ops[0]), ops[1..]);
    }
  }

  const NEW_QUEUE := QueueRun([], [], [])

  /** The queue is a lossless FIFO: over every interleaving of arrivals, injections and bars
      from the start, the events that left as orders, followed by the matching events still
      queued, are the matching events accepted, in order of acceptance. */
  lemma QueueIsLossless(cfg: Config, ops: seq<Op>)
    requires cfg.Valid() && NoOverflow(cfg, NEW_QUEUE, ops)
    ensures var h := RunOps(cfg, NEW_QUEUE, ops);
            && h.emitted + Matching(h.queue, cfg.symbol) == Matching(h.accepted, cfg.symbol)
            && |h.queue| <= cfg.maxQueue
  {
    hide Registered, RunOps, NoOverflow;
    EmptyIsLossless(cfg);
    RunKeepsLossless(cfg, NEW_QUEUE, ops);
  }

  lemma EmptyIsLossless(cfg: Config)
    ensures Lossless(cfg, NEW_QUEUE)
  {
  }

  /** Exactly when a direct injection keeps it so: there is room, or the event that falls off
      the front is not one of the bot's own. */
  lemma InjectionKeepsLosslessExactly(cfg: Config, h: QueueRun, event: SignalEvent)
    requires cfg.Valid() && Lossless(cfg, h) && |h.queue| <= cfg.maxQueue
    ensures Lossless(cfg, OpDone(cfg, h, Injects(event)))
       <==> |h.queue| < cfg.maxQueue || !SymbolsMatch((h.queue + [event])[0].symbol, cfg.symbol)
  {
    hide Registered, SymbolsMatch;
    AppendKeepsLossless(cfg, h, event);
    var all := h.queue + [event];
    var after := OpDone(cfg, h, Injects(event));
    if |h.queue| == cfg.maxQueue {
      assert after.queue == all[1..];
      assert Matching(all, cfg.symbol)
             == (if SymbolsMatch(all[0].symbol, cfg.symbol) then [all[0]] else []) + Matching(all[1..], cfg.symbol);
    }
  }
}
