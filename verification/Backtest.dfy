/** The backtest engine: the same order path over recorded bars, with a trade log. */
module Backtest {
  import opened Types
  import opened Markets
  import opened Drawdown
  import opened CancelTracker
  import opened GateRules
  import opened Gate
  import opened Sums
  import opened Ledger
  import opened Tracker
  import opened LiveLoop
  import opened BarOrders
  import opened RoundTrips
  import opened SimClient

  datatype TradeLog = TradeLog(
    finalState: AccountState, emitted: nat, approved: nat, denied: seq<Decision>,
    fills: seq<OrderEvent>, approvedOrders: seq<(OrderIntent, OrderEvent)>)

  /** A bar, what the strategy emits on it, and what the gate's journal answers then. */
  datatype Recorded = Recorded(bar: Bar, intents: seq<(OrderIntent, JournalView)>)

  // ---- Specification --------------------------------------------------------

  /** No fleet, and a simulated broker that takes every order. */
  function Simulated(intent: OrderIntent, journal: JournalView): Proposal {
    Proposal(intent, Surroundings(journal, None, true))
  }

  function AsProposals(intents: seq<(OrderIntent, JournalView)>): seq<Proposal> {
    seq(|intents|, i requires 0 <= i < |intents| => Simulated(intents[i].0, intents[i].1))
  }

  /** Mark, snapshot, tick, then every order; nothing here ever drains a flatten. */
  ghost function Collected(rules: Rules, d: Desk, r: Recorded): Pumped {
    var account := Marked(d.account, r.bar.symbol, r.bar.close);
    var (gate, state) := Ticked(rules, d.gate, SnapshotOf(account, r.bar.timestamp));
    Pump(rules, Desk(gate, account), state, r.bar.close, AsProposals(r.intents))
  }

  /** The fill event of an approved order: its whole quantity at the bar's close. */
  function FillEvent(order: OrderIntent, bar: Bar, brokerId: nat): OrderEvent {
    OrderEvent(order.clientOrderId, brokerId, FILLED, order.quantity, Some(bar.close), bar.timestamp)
  }

  /** The approved orders among the decisions of a bar, numbered by the simulated broker. */
  function OrdersOf(decisions: seq<Decision>, bar: Bar, nextId: nat): seq<(OrderIntent, OrderEvent)> {
    if decisions == [] then []
    else if decisions[0].Approved? then
      [(decisions[0].intent, FillEvent(decisions[0].intent, bar, nextId))] + OrdersOf(decisions[1..], bar, nextId + 1)
    else OrdersOf(decisions[1..], bar, nextId)
  }

  datatype Trace = Trace(
    desk: Desk, emitted: nat, denied: seq<Decision>, orders: seq<(OrderIntent, OrderEvent)>, events: seq<Event>,
        raised: bool)

  ghost function RunCollected(rules: Rules, d: Desk, bars: seq<Recorded>, nextId: nat): Trace
    decreases |bars|
  {
    if bars == [] then Trace(d, 0, [], [], [], false)
    else
      var r := bars[0];
      var p := Collected(rules, d, r);
      var orders := OrdersOf(p.decisions, r.bar, nextId);
      var mark := Mark(r.bar.symbol, r.bar.close);
      if p.raised then Trace(p.desk, |r.intents|, Violations(p.decisions), orders, [mark] + p.fills, true)
      else
        var rest := RunCollected(rules, p.desk, bars[1..], nextId + |orders|);
        Trace(rest.desk, |r.intents| + rest.emitted, Violations(p.decisions) + rest.denied,
              orders + rest.orders, [mark] + p.fills + rest.events, rest.raised)
  }

  // ---- What a bar shows the gate, and what the log shows of it ----------------

  /** Every recorded bar is judged against its marked ledger, shown as it stands, and a flatten
      is scheduled if and only if equity is at or below the closed-form floor. */
  lemma RecordedBarShowsLedger(rules: Rules, d: Desk, r: Recorded)
    ensures var a := Marked(d.account, r.bar.symbol, r.bar.close);
            var state := StateOf(rules.policy, a, r.bar.timestamp);
            var touched := a.Equity() <= FloorOf(rules.policy, a);
            var gate := if touched then Scheduled(d.gate, "MLL_EQUITY_TOUCH") else d.gate;
            && rules.policy.PhantomMll(state) == FloorOf(rules.policy, a)
            && Collected(rules, d, r) == Pump(rules, Desk(gate, a), state, r.bar.close, AsProposals(r.intents))
  {
    hide Pump, Marked, StateOf, FloorOf, Ticked, SnapshotOf;
    var a := Marked(d.account, r.bar.symbol, r.bar.close);
    MarkSeesHighWater(d.account, r.bar.symbol, r.bar.close);
    LedgerIsShown(rules, d.gate, a, r.bar.timestamp);
  }

  /** The event of an order filled whole at a bar's close, under this broker id. */
  predicate IsFillAt(order: OrderIntent, event: OrderEvent, bar: Bar, id: nat) {
    && event.clientOrderId == order.clientOrderId && event.brokerOrderId == id && event.status == FILLED
    && event.filledQuantity == order.quantity && event.avgFillPrice == Some(bar.close)
    && event.timestamp == bar.timestamp
  }

  lemma {:induction false} OrdersFillAt(decisions: seq<Decision>, bar: Bar, nextId: nat, i: nat)
    requires i < |OrdersOf(decisions, bar, nextId)|
    ensures var (order, event) := OrdersOf(decisions, bar, nextId)[i];
            && IsFillAt(order, event, bar, nextId + i)
            && exists decision :: decision in decisions && decision.Approved? && decision.intent == order
    decreases |decisions|
  {
    hide IsFillAt;
    if decisions[0].Approved? {
      if i == 0 {
        assert decisions[0] in decisions;
        assert IsFillAt(decisions[0].intent, FillEvent(decisions[0].intent, bar, nextId), bar, nextId) by {
          FilledAtOnce(decisions[0].intent, bar, nextId);
        }
      } else {
        OrdersFillAt(decisions[1..], bar, nextId + 1, i - 1);
      }
    } else {
      OrdersFillAt(decisions[1..], bar, nextId, i);
    }
  }

  lemma FilledAtOnce(order: OrderIntent, bar: Bar, id: nat)
    ensures IsFillAt(order, FillEvent(order, bar, id), bar, id)
  {
  }

  /** Over every run, the log's orders carry the simulated broker's numbers in turn, and each
      was filled whole at the close, and the time, of one of the bars. */
  lemma {:induction false} LogFillsAtCloses(rules: Rules, d: Desk, bars: seq<Recorded>, nextId: nat, i: nat)
    requires i < |RunCollected(rules, d, bars, nextId).orders|
    ensures var (order, event) := RunCollected(rules, d, bars, nextId).orders[i];
            exists r :: r in bars && IsFillAt(order, event, r.bar, nextId + i)
    decreases |bars|
  {
    hide Collected, OrdersOf, Violations, IsFillAt;
    var p := Collected(rules, d, bars[0]);
    var own := OrdersOf(p.decisions, bars[0].bar, nextId);
    if i < |own| {
      OrdersFillAt(p.decisions, bars[0].bar, nextId, i);
      assert bars[0] in bars;
    } else {
      LogFillsAtCloses(rules, p.desk, bars[1..], nextId + |own|, i - |own|);
      var (order, event) := RunCollected(rules, p.desk, bars[1..], nextId + |own|).orders[i - |own|];
      var r :| r in bars[1..] && IsFillAt(order, event, r.bar, nextId + i);
      assert r in bars;
    }
  }

  // ---- Counting and order ---------------------------------------------------

  lemma {:induction false} PumpCounts(rules: Rules, d: Desk, state: AccountState, close: real, proposals: seq<Proposal>,
                                      bar: Bar, nextId: nat)
    requires forall p :: p in proposals ==> p.around.fleet.None? && p.around.brokerTakes
    requires close == bar.close
    ensures var p := Pump(rules, d, state, close, proposals);
            var orders := OrdersOf(p.decisions, bar, nextId);
            && (!p.raised ==> |proposals| == |orders| + |Violations(p.decisions)|)
            && FillsOf(orders) == p.fills
            && FilledInFull(orders)
    decreases |proposals|
  {
    hide Placed, FillEvent;
    if proposals != [] {
      var first := Placed(rules, d, state, close, proposals[0]);
      assert proposals[0] in proposals && forall q :: q in proposals[1..] ==> q in proposals;
      SimulatedPlacing(rules, d, state, close, proposals[0]);
      if first.raised {
        assert OrdersOf([first.decision], bar, nextId) == OrdersOf([first.decision][1..], bar, nextId);
        assert [first.decision][1..] == [];
      } else {
        var rest := Pump(rules, first.desk, state, close, proposals[1..]);
        assert ([first.decision] + rest.decisions)[1..] == rest.decisions;
        if first.decision.Approved? {
          PumpCounts(rules, first.desk, state, close, proposals[1..], bar, nextId + 1);
          OneMoreFill(first.decision.intent, bar, nextId, OrdersOf(rest.decisions, bar, nextId + 1));
        } else {
          PumpCounts(rules, first.desk, state, close, proposals[1..], bar, nextId);
          assert [] + rest.fills == rest.fills;
        }
      }
    }
  }

  /** Without a fleet and with a broker that takes it, an approved order fills. */
  lemma SimulatedPlacing(rules: Rules, d: Desk, state: AccountState, close: real, p: Proposal)
    requires p.around.fleet.None? && p.around.brokerTakes
    ensures var first := Placed(rules, d, state, close, p);
            && (first.raised <==> first.decision.Raised?)
            && first.fills == if first.decision.Approved?
                              then [Fill(first.decision.intent.symbol, first.decision.intent.SignedQty(), close)]
                                  else []
  {
    hide Ask, Filled;
  }

  lemma OneMoreFill(order: OrderIntent, bar: Bar, id: nat, rest: seq<(OrderIntent, OrderEvent)>)
    ensures var orders := [(order, FillEvent(order, bar, id))] + rest;
            && FillsOf(orders) == [Fill(order.symbol, order.SignedQty(), bar.close)] + FillsOf(rest)
            && (FilledInFull(rest) ==> FilledInFull(orders))
  {
    var orders := [(order, FillEvent(order, bar, id))] + rest;
    assert orders[1..] == rest;
  }

  /** The fills of a stream, marks left out. */
  function FillsOnly(events: seq<Event>): seq<Event> {
    if events == [] then []
    else (if events[0].Fill? then [events[0]] else []) + FillsOnly(events[1..])
  }

  lemma {:induction false} FillsOnlyConcat(xs: seq<Event>, ys: seq<Event>)
    ensures FillsOnly(xs + ys) == FillsOnly(xs) + FillsOnly(ys)
    decreases |xs|
  {
    if xs == [] {
      assert xs + ys == ys;
    } else {
      assert (xs + ys)[0] == xs[0] && (xs + ys)[1..] == xs[1..] + ys;
      FillsOnlyConcat(xs[1..], ys);
      var first := if xs[0].Fill? then [xs[0]] else [];
      assert first + (FillsOnly(xs[1..]) + FillsOnly(ys)) == first + FillsOnly(xs[1..]) + FillsOnly(ys);
    }
  }

  lemma {:induction false} AllFillsAreFills(events: seq<Event>)
    requires forall e :: e in events ==> e.Fill?
    ensures FillsOnly(events) == events
  {
    if events != [] {
      assert events[0] in events;
      AllFillsAreFills(events[1..]);
    }
  }

  lemma {:induction false} FillsOfConcat(xs: seq<(OrderIntent, OrderEvent)>, ys: seq<(OrderIntent, OrderEvent)>)
    ensures FillsOf(xs + ys) == FillsOf(xs) + FillsOf(ys)
    decreases |xs|
  {
    if xs == [] {
      assert xs + ys == ys;
    } else {
      assert (xs + ys)[0] == xs[0] && (xs + ys)[1..] == xs[1..] + ys;
      FillsOfConcat(xs[1..], ys);
      assert FillsOf([xs[0]]) + (FillsOf(xs[1..]) + FillsOf(ys)) == FillsOf([xs[0]]) + FillsOf(xs[1..]) + FillsOf(ys);
      var first := match xs[0].1.avgFillPrice
        case None => []
        case Some(price) => [Fill(xs[0].0.symbol, xs[0].0.SignedQty(), price)];
      assert first + (FillsOf(xs[1..]) + FillsOf(ys)) == first + FillsOf(xs[1..]) + FillsOf(ys);
    }
  }

  lemma CollectedCounts(rules: Rules, d: Desk, r: Recorded, nextId: nat)
    ensures var p := Collected(rules, d, r);
            var orders := OrdersOf(p.decisions, r.bar, nextId);
            && (!p.raised ==> |r.intents| == |orders| + |Violations(p.decisions)|)
            && FillsOf(orders) == p.fills && FillsOnly([Mark(r.bar.symbol, r.bar.close)] + p.fills) == p.fills
            && FilledInFull(orders)
            && p.desk.account == Run(d.account, [Mark(r.bar.symbol, r.bar.close)] + p.fills)
  {
    hide Ticked, Pump, OrdersOf, Refreshed;
    var account := Marked(d.account, r.bar.symbol, r.bar.close);
    var ticked := Ticked(rules, d.gate, SnapshotOf(account, r.bar.timestamp));
    var p := Collected(rules, d, r);
    PumpCounts(rules, Desk(ticked.0, account), ticked.1, r.bar.close, AsProposals(r.intents), r.bar, nextId);
    PumpRunsLedger(rules, Desk(ticked.0, account), ticked.1, r.bar.close, AsProposals(r.intents));
    AllFillsAreFills(p.fills);
    assert ([Mark(r.bar.symbol, r.bar.close)] + p.fills)[1..] == p.fills;
  }

  /** In every run: emitted = approved + denied; every approved order has its fill, in order,
      for its whole quantity; and the ledger has seen exactly those fills. */
  lemma {:induction false} LogIsComplete(rules: Rules, d: Desk, bars: seq<Recorded>, nextId: nat)
    ensures var t := RunCollected(rules, d, bars, nextId);
            && (!t.raised ==> t.emitted == |t.orders| + |t.denied|)
            && FillsOf(t.orders) == FillsOnly(t.events)
            && FilledInFull(t.orders)
            && t.desk.account == Run(d.account, t.events)
    decreases |bars|
  {
    hide Collected, OrdersOf, Violations, Step;
    if bars != [] {
      var r := bars[0];
      var p := Collected(rules, d, r);
      var orders := OrdersOf(p.decisions, r.bar, nextId);
      CollectedCounts(rules, d, r, nextId);
      if !p.raised {
        LogIsComplete(rules, p.desk, bars[1..], nextId + |orders|);
        var rest := RunCollected(rules, p.desk, bars[1..], nextId + |orders|);
        var own := [Mark(r.bar.symbol, r.bar.close)] + p.fills;
        RunConcat(d.account, own, rest.events);
        FillsOnlyConcat(own, rest.events);
        FillsOfConcat(orders, rest.orders);
      }
    }
  }

  // ---- The report against the ledger ----------------------------------------

  lemma {:induction false} WalkIgnoresMarks(w: Walk, events: seq<Event>)
    ensures WalkAll(w, events) == WalkAll(w, FillsOnly(events))
    decreases |events|
  {
    hide Walked;
    if events != [] {
      match events[0]
      case Mark(_, _) =>
        WalkIgnoresMarks(w, events[1..]);
        assert FillsOnly(events) == FillsOnly(events[1..]);
      case Fill(symbol, signedQty, price) =>
        WalkIgnoresMarks(Walked(w, symbol, signedQty, price), events[1..]);
        assert FillsOnly(events)[0] == events[0] && FillsOnly(events)[1..] == FillsOnly(events[1..]);
    }
  }

  /** For every backtest from a fresh account that ends flat, and whose report does not raise
      on a symbol that is not a bare root, the round trips of its log add up to the ledger's
      realized P&L less the drift of partial
      reductions, and the proof bundle's walker produces the same list. */
  lemma {:induction false} ReportMatchesRealized(rules: Rules, start: real, isCombine: bool, gate: GateState,
                                                 bars: seq<Recorded>, nextId: nat)
    requires var t := RunCollected(rules, Desk(gate, Opened(start, isCombine)), bars, nextId);
             !WalkRaises(START, t.events) && forall s :: Held(t.desk.account.positions, s) == 0
    ensures var a := Opened(start, isCombine);
            var t := RunCollected(rules, Desk(gate, a), bars, nextId);
            var pnls := RoundTripPnls(FillsOf(t.orders));
            && SumOf(pnls) == t.desk.account.realized - Drift(a, t.events)
            && Pnls(LegsAfterAll(NO_LEGS, RawFillsOf(t.orders)).trades) == pnls
  {
    hide RunCollected, WalkRaises, Drift, SumOf, WalkAll, LegsAfterAll, Run, FilledInFull;
    var a := Opened(start, isCombine);
    var t := RunCollected(rules, Desk(gate, a), bars, nextId);
    LogIsComplete(rules, Desk(gate, a), bars, nextId);
    WalkIgnoresMarks(START, t.events);
    ReportAgreesWithLedger(start, isCombine, t.events);
    WalkersAgree(t.orders);
  }

  // ---- The position cap -----------------------------------------------------

  /** A bar's orders, each judged alone at the bar's state, fit on top of what is held. */
  ghost predicate BarFits(rules: Rules, d: Desk, r: Recorded)
    requires rules.policy.Combine?
  {
    var account := Marked(d.account, r.bar.symbol, r.bar.close);
    var (gate, state) := Ticked(rules, d.gate, SnapshotOf(account, r.bar.timestamp));
    OrdersFit(rules, gate, state, account.positions, AsProposals(r.intents))
  }

  /** After the bar every position is within the cap if and only if its orders fit. */
  lemma CapHoldsForBar(rules: Rules, d: Desk, r: Recorded)
    requires rules.policy.Combine?
    ensures WithinCap(rules.policy, Collected(rules, d, r).desk.account.positions) <==> BarFits(rules, d, r)
  {
    hide Pump, Ticked, WithinCap, OrdersFit, Refreshed;
    var account := Marked(d.account, r.bar.symbol, r.bar.close);
    var (gate, state) := Ticked(rules, d.gate, SnapshotOf(account, r.bar.timestamp));
    CapHoldsExactly(rules, Desk(gate, account), state, r.bar.close, AsProposals(r.intents));
  }

  ghost predicate EveryBarFits(rules: Rules, d: Desk, bars: seq<Recorded>)
    requires rules.policy.Combine?
    decreases |bars|
  {
    bars == [] ||
    (BarFits(rules, d, bars[0])
     && (!Collected(rules, d, bars[0]).raised ==> EveryBarFits(rules, Collected(rules, d, bars[0]).desk, bars[1..])))
  }

  /** After every bar of the run no position exceeds the cap. */
  ghost predicate CappedThroughout(rules: Rules, d: Desk, bars: seq<Recorded>)
    requires rules.policy.Combine?
    decreases |bars|
  {
    bars == [] ||
    (var p := Collected(rules, d, bars[0]);
     WithinCap(rules.policy, p.desk.account.positions) && (!p.raised ==> CappedThroughout(rules, p.desk, bars[1..])))
  }

  /** Over whole runs, for any number of orders a bar: the cap holds after every bar if and
      only if every bar's orders fit. */
  lemma {:induction false} CapHoldsThroughoutExactly(rules: Rules, d: Desk, bars: seq<Recorded>)
    requires rules.policy.Combine?
    ensures CappedThroughout(rules, d, bars) <==> EveryBarFits(rules, d, bars)
    decreases |bars|
  {
    hide Collected, WithinCap, BarFits;
    if bars != [] {
      CapHoldsForBar(rules, d, bars[0]);
      var p := Collected(rules, d, bars[0]);
      if !p.raised {
        CapHoldsThroughoutExactly(rules, p.desk, bars[1..]);
      }
    }
  }

  /** One order a bar always fits, whatever the strategy. */
  lemma {:induction false} OneOrderABarFits(rules: Rules, d: Desk, bars: seq<Recorded>)
    requires rules.policy.Combine? && WithinCap(rules.policy, d.account.positions)
    requires forall r :: r in bars ==> |r.intents| <= 1
    ensures EveryBarFits(rules, d, bars)
    decreases |bars|
  {
    hide Collected, WithinCap, BarFits;
    if bars != [] {
      assert bars[0] in bars;
      OneOrderFits(rules, d, bars[0]);
      CapHoldsForBar(rules, d, bars[0]);
      var p := Collected(rules, d, bars[0]);
      if !p.raised {
        assert forall r :: r in bars[1..] ==> r in bars;
        OneOrderABarFits(rules, p.desk, bars[1..]);
      }
    }
  }

  lemma OneOrderFits(rules: Rules, d: Desk, r: Recorded)
    requires rules.policy.Combine? && WithinCap(rules.policy, d.account.positions) && |r.intents| <= 1
    ensures BarFits(rules, d, r)
  {
    hide Ticked, TotalOpenPnl, WithinCap, OrdersFit;
    var account := Marked(d.account, r.bar.symbol, r.bar.close);
    var (gate, state) := Ticked(rules, d.gate, SnapshotOf(account, r.bar.timestamp));
    TickKeepsPositions(rules, d.gate, SnapshotOf(account, r.bar.timestamp));
    OneOrderFitsCap(rules, gate, state, account.positions, AsProposals(r.intents));
  }

  lemma TickKeepsPositions(rules: Rules, g: GateState, state: AccountState)
    ensures Ticked(rules, g, state).1.openPositions == state.openPositions
  {
  }

  /** So one order a bar keeps every position within the Combine cap after every bar. */
  lemma CapHoldsOneOrderABar(rules: Rules, d: Desk, bars: seq<Recorded>)
    requires rules.policy.Combine? && WithinCap(rules.policy, d.account.positions)
    requires forall r :: r in bars ==> |r.intents| <= 1
    ensures CappedThroughout(rules, d, bars)
  {
    hide EveryBarFits, CappedThroughout, WithinCap;
    OneOrderABarFits(rules, d, bars);
    CapHoldsThroughoutExactly(rules, d, bars);
  }

  // ---- A flatten that is never drained ----------------------------------------

  /** Unlike the live loop, a backtest never drains a scheduled flatten: an enabled gate is
      still enabled at the end of every run, however often the floor was touched. */
  lemma {:induction false} BacktestNeverDisables(rules: Rules, d: Desk, bars: seq<Recorded>, nextId: nat)
    ensures RunCollected(rules, d, bars, nextId).desk.gate.disabled == d.gate.disabled
    ensures RunCollected(rules, d, bars, nextId).desk.gate.cancelAlls == d.gate.cancelAlls
    decreases |bars|
  {
    hide Pump, Marked, OrdersOf, Violations;
    if bars != [] {
      var r := bars[0];
      var account := Marked(d.account, r.bar.symbol, r.bar.close);
      var ticked := Ticked(rules, d.gate, SnapshotOf(account, r.bar.timestamp));
      PumpKeepsLatches(rules, Desk(ticked.0, account), ticked.1, r.bar.close, AsProposals(r.intents));
      var p := Collected(rules, d, r);
      if !p.raised {
        BacktestNeverDisables(rules, p.desk, bars[1..], nextId + |OrdersOf(p.decisions, r.bar, nextId)|);
      }
    }
  }

  /** Gates that differ in the flatten latch only. */
  predicate SameButLatch(g: GateState, h: GateState) {
    g.disabled == h.disabled && g.history == h.history
  }

  lemma PlacedIgnoresLatch(rules: Rules, d: Desk, e: Desk, state: AccountState, close: real, p: Proposal)
    requires SameButLatch(d.gate, e.gate) && d.account == e.account
    ensures var f, g := Placed(rules, d, state, close, p), Placed(rules, e, state, close, p);
            && f.decision == g.decision && f.fills == g.fills && f.raised == g.raised
            && SameButLatch(f.desk.gate, g.desk.gate) && f.desk.account == g.desk.account
  {
    hide Decide, FirstSix, Filled, HasRoom;
  }

  lemma {:induction false} PumpIgnoresLatch(rules: Rules, d: Desk, e: Desk, state: AccountState, close: real,
                                            proposals: seq<Proposal>)
    requires SameButLatch(d.gate, e.gate) && d.account == e.account
    ensures var p, q := Pump(rules, d, state, close, proposals), Pump(rules, e, state, close, proposals);
            && p.decisions == q.decisions && p.fills == q.fills && p.raised == q.raised
            && SameButLatch(p.desk.gate, q.desk.gate) && p.desk.account == q.desk.account
    decreases |proposals|
  {
    hide Placed;
    if proposals != [] {
      var f, g := Placed(rules, d, state, close, proposals[0]), Placed(rules, e, state, close, proposals[0]);
      PlacedIgnoresLatch(rules, d, e, state, close, proposals[0]);
      if !f.raised {
        PumpIgnoresLatch(rules, f.desk, g.desk, state, close, proposals[1..]);
      }
    }
  }

  /** What that means: a backtest forgets every touch. Started from a gate that has scheduled
      a flatten, or touched on the way, it decides, fills and reports as if nothing had been. */
  lemma {:induction false} TouchIsForgotten(rules: Rules, d: Desk, e: Desk, bars: seq<Recorded>, nextId: nat)
    requires SameButLatch(d.gate, e.gate) && d.account == e.account
    ensures var t, u := RunCollected(rules, d, bars, nextId), RunCollected(rules, e, bars, nextId);
            && t.(desk := u.desk) == u && t.desk.account == u.desk.account
    decreases |bars|
  {
    hide Pump, Marked, OrdersOf, Violations, Touches;
    if bars != [] {
      var r := bars[0];
      var account := Marked(d.account, r.bar.symbol, r.bar.close);
      var (g, state) := Ticked(rules, d.gate, SnapshotOf(account, r.bar.timestamp));
      var (h, _) := Ticked(rules, e.gate, SnapshotOf(account, r.bar.timestamp));
      PumpIgnoresLatch(rules, Desk(g, account), Desk(h, account), state, r.bar.close, AsProposals(r.intents));
      var p, q := Collected(rules, d, r), Collected(rules, e, r);
      if !p.raised {
        TouchIsForgotten(rules, p.desk, q.desk, bars[1..], nextId + |OrdersOf(p.decisions, r.bar, nextId)|);
      }
    }
  }

  // ---- Two runs of an example account -----------------------------------------

  function MorningBar(close: real): Bar {
    Bar("NQ", close, close, close, close, 0, MORNING)
  }

  /** The ledger of a fifty-thousand account that is long one NQ at 20000. */
  const LONG_ONE := Opened(50000.0, true).(positions := map["NQ" := 1], avgEntry := map["NQ" := 20000.0])

  /** A fresh account shows the gate an untouched state. */
  lemma FreshMorning(close: real)
    ensures var account := Marked(Opened(50000.0, true), "NQ", close);
            && account.positions == map[]
            && Ticked(EXAMPLE, FRESH, SnapshotOf(account, MORNING)) == (FRESH, Untouched(map[]))
  {
    EmptySum(OpenPnls(map[], map[], map["NQ" := close]));
    var none: map<string, int> := map[];
    assert none.Keys == {} && TotalOpenPnl(map[], map[], map["NQ" := close]) == 0.0;
    UntouchedTick(FRESH, map[]);
    hide TotalOpenPnl, Ticked;
    assert Opened(50000.0, true).lastClose["NQ" := close] == map["NQ" := close];
    var marked := Marked(Opened(50000.0, true), "NQ", close);
    assert marked == Opened(50000.0, true).(lastClose := map["NQ" := close]);
  }

  /** A bar that offers three NQ twice takes a fresh account past its cap of five. */
  lemma TwoOrdersPassTheCap(close: real)
    ensures var r := Recorded(MorningBar(close), [(Buy(3), NO_JOURNAL), (Buy(3), NO_JOURNAL)]);
            var t := RunCollected(EXAMPLE, Desk(FRESH, Opened(50000.0, true)), [r], 1);
            && |t.orders| == 2 && Held(t.desk.account.positions, "NQ") == 6
            && ContractCap(5, GetMarket("NQ").value) == 5 && !WithinCap(EXAMPLE.policy, t.desk.account.positions)
  {
    hide Decide, Pump, GetMarket, Marked, Ticked, OrdersOf;
    var d := Desk(FRESH, Opened(50000.0, true));
    var intents := [(Buy(3), NO_JOURNAL), (Buy(3), NO_JOURNAL)];
    var r := Recorded(MorningBar(close), intents);
    FreshMorning(close);
    BuyIsApproved(3, map[]);
    var shown := Desk(FRESH, Marked(Opened(50000.0, true), "NQ", close));
    var p := Simulated(Buy(3), NO_JOURNAL);
    assert AsProposals(intents) == [p, p];
    assert RatioNow(FRESH, Untouched(map[])) == Finite(0.0);
    StaleStateDoubles(EXAMPLE, shown, Untouched(map[]), close, p, "NQ");
    TwoApprovals(EXAMPLE, shown, Untouched(map[]), close, p);
    assert [r][1..] == [];
    var c := Collected(EXAMPLE, d, r);
    TwoOrders(c.decisions, r.bar, 1);
    assert RunCollected(EXAMPLE, c.desk, [], 3) == Trace(c.desk, 0, [], [], [], false);
    assert !FitsCap(EXAMPLE.policy, "NQ", Held(c.desk.account.positions, "NQ"));
  }

  lemma TwoApprovals(rules: Rules, d: Desk, state: AccountState, close: real, p: Proposal)
    requires p.around.fleet.None? && p.around.brokerTakes
    requires Decide(rules, d.gate.disabled, RatioNow(d.gate, state), p.around.journal, p.intent, state).Approved?
    ensures var pumped := Pump(rules, d, state, close, [p, p]);
            !pumped.raised && |pumped.decisions| == 2 && pumped.decisions[0].Approved? && pumped.decisions[1].Approved?
  {
    hide Decide, Placed, RatioNow;
    PlacedMoves(rules, d, state, close, p, "");
    var first := Placed(rules, d, state, close, p);
    PlacedMoves(rules, first.desk, state, close, p, "");
    assert [p, p][1..] == [p] && [p][1..] == [];
    var second := Placed(rules, first.desk, state, close, p);
    assert Pump(rules, second.desk, state, close, []).decisions == [];
    assert Pump(rules, first.desk, state, close, [p]).decisions == [second.decision] + [];
  }

  lemma TwoOrders(decisions: seq<Decision>, bar: Bar, nextId: nat)
    requires |decisions| == 2 && decisions[0].Approved? && decisions[1].Approved?
    ensures |OrdersOf(decisions, bar, nextId)| == 2
  {
    assert decisions[1..] == [decisions[1]] && [decisions[1]][1..] == [];
    assert OrdersOf([decisions[1]], bar, nextId + 1)
           == [(decisions[1].intent, FillEvent(decisions[1].intent, bar, nextId + 1))] + [];
  }

  /** The same account marked at `close`. */
  function LongAt(close: real): Account {
    LONG_ONE.(unrealized := (close - 20000.0) * 20.0, lastClose := map["NQ" := close])
  }

  lemma LongPnl(close: real)
    ensures TotalOpenPnl(LONG_ONE.positions, LONG_ONE.avgEntry, map["NQ" := close]) == (close - 20000.0) * 20.0
  {
    NqIsRegistered();
    hide GetMarket;
    var pnls := OpenPnls(LONG_ONE.positions, LONG_ONE.avgEntry, map["NQ" := close]);
    TakeReal({"NQ"}, pnls, "NQ");
    assert {"NQ"} - {"NQ"} == {};
    EmptySum(pnls);
    assert LONG_ONE.positions.Keys == {"NQ"};
  }

  lemma LongMarked(a: Account, close: real)
    requires a == LONG_ONE || a == LongAt(19900.0)
    requires close <= 20000.0
    ensures Marked(a, "NQ", close) == LongAt(close)
    ensures SnapshotOf(LongAt(close), MORNING)
         == Untouched(map["NQ" := 1]).(equity := 50000.0 + (close - 20000.0) * 20.0,
                                       unrealized := (close - 20000.0) * 20.0)
  {
    LongPnl(close);
    hide TotalOpenPnl;
    assert a.lastClose["NQ" := close] == map["NQ" := close];
  }

  const TOUCH := Recorded(MorningBar(19900.0), [])

  const RECOVER := Recorded(MorningBar(20000.0), [(Buy(1), NO_JOURNAL)])

  /** At 19900 the account is on its floor of 48000, and a flatten is scheduled. */
  lemma TouchingBar()
    ensures Touches(EXAMPLE, Ticked(EXAMPLE, FRESH, SnapshotOf(LongAt(19900.0), MORNING)).1)
    ensures Collected(EXAMPLE, Desk(FRESH, LONG_ONE), TOUCH)
         == Pumped(Desk(Scheduled(FRESH, "MLL_EQUITY_TOUCH"), LongAt(19900.0)), [], [], false)
  {
    LongMarked(LONG_ONE, 19900.0);
    hide Marked, Pump, LongAt;
    var (gate, state) := Ticked(EXAMPLE, FRESH, SnapshotOf(LongAt(19900.0), MORNING));
    assert AsProposals(TOUCH.intents) == [];
    NothingToPump(EXAMPLE, Desk(gate, LongAt(19900.0)), state, 19900.0);
  }

  /** Back at 20000 the order is approved, flatten or not. */
  lemma RecoveringBar(g: GateState)
    requires !g.disabled && g.history == History([], [])
    ensures var c := Collected(EXAMPLE, Desk(g, LongAt(19900.0)), RECOVER);
            && !c.raised && c.decisions == [Approved(Buy(1), Untouched(map["NQ" := 1]))]
            && Held(c.desk.account.positions, "NQ") == 2
  {
    hide Marked, Decide, Placed, LongAt, Ticked, LONG_ONE, Untouched;
    LongMarked(LongAt(19900.0), 20000.0);
    var state := Untouched(map["NQ" := 1]);
    RecoveredSnapshot();
    UntouchedTick(g, map["NQ" := 1]);
    BuyIsApproved(1, map["NQ" := 1]);
    var p := Simulated(Buy(1), NO_JOURNAL);
    assert AsProposals(RECOVER.intents) == [p] && [p][1..] == [];
    RatioOfNothing(g, state);
    var d := Desk(g, LongAt(20000.0));
    PlacedMoves(EXAMPLE, d, state, 20000.0, p, "NQ");
    NothingToPump(EXAMPLE, Placed(EXAMPLE, d, state, 20000.0, p).desk, state, 20000.0);
  }

  lemma RecoveredSnapshot()
    ensures SnapshotOf(LongAt(20000.0), MORNING) == Untouched(map["NQ" := 1])
    ensures LongAt(20000.0).positions == map["NQ" := 1]
  {
    assert (20000.0 - 20000.0) * 20.0 == 0.0;
  }

  lemma RatioOfNothing(g: GateState, state: AccountState)
    requires g.history == History([], [])
    ensures RatioNow(g, state) == Finite(0.0)
  {
  }

  /** A run of it: a bar at 19900 touches the floor, the next recovers to 20000, and there the
      backtest buys more. The live loop never does (TouchEndsTrading). */
  lemma TouchedBacktestBuys()
    ensures var t := RunCollected(EXAMPLE, Desk(FRESH, LONG_ONE), [TOUCH, RECOVER], 1);
            && Touches(EXAMPLE, Ticked(EXAMPLE, FRESH, SnapshotOf(LongAt(19900.0), MORNING)).1)
            && !t.raised && |t.orders| == 1 && t.orders[0].0 == Buy(1)
            && Buy(1).IncreasesExposure(LONG_ONE.positions) && Held(t.desk.account.positions, "NQ") == 2
  {
    hide Marked, Collected, Ticked, Touches, LongAt;
    TouchingBar();
    var c1 := Collected(EXAMPLE, Desk(FRESH, LONG_ONE), TOUCH);
    RecoveringBar(c1.desk.gate);
    var c2 := Collected(EXAMPLE, c1.desk, RECOVER);
    assert [TOUCH, RECOVER][1..] == [RECOVER] && [RECOVER][1..] == [];
    OneOrder(c2.decisions, RECOVER.bar, 1);
    assert RunCollected(EXAMPLE, c2.desk, [], 2) == Trace(c2.desk, 0, [], [], [], false);
    var rest := RunCollected(EXAMPLE, c1.desk, [RECOVER], 1);
    assert rest.orders == OrdersOf(c2.decisions, RECOVER.bar, 1) + [];
  }

  lemma OneOrder(decisions: seq<Decision>, bar: Bar, nextId: nat)
    requires |decisions| == 1 && decisions[0].Approved?
    ensures OrdersOf(decisions, bar, nextId) == [(decisions[0].intent, FillEvent(decisions[0].intent, bar, nextId))]
    ensures OrdersOf([], bar, nextId) == []
  {
    assert decisions[1..] == [];
  }

  // ---- The class ------------------------------------------------------------

  function EventsOf(orders: seq<(OrderIntent, OrderEvent)>): seq<OrderEvent> {
    seq(|orders|, i requires 0 <= i < |orders| => orders[i].1)
  }

  /** The log a finished trace stands for. */
  ghost function LogOf(t: Trace, at: Timestamp): TradeLog {
    TradeLog(SnapshotOf(t.desk.account, at), t.emitted, |t.orders|, t.denied, EventsOf(t.orders), t.orders)
  }

  function IntentCount(bars: seq<Recorded>): nat {
    if bars == [] then 0 else |bars[0].intents| + IntentCount(bars[1..])
  }

  lemma {:induction false} EmittedAreAll(rules: Rules, d: Desk, bars: seq<Recorded>, nextId: nat)
    ensures var t := RunCollected(rules, d, bars, nextId);
            !t.raised ==> t.emitted == IntentCount(bars)
    decreases |bars|
  {
    hide Collected, OrdersOf, Violations;
    if bars != [] {
      var p := Collected(rules, d, bars[0]);
      if !p.raised {
        EmittedAreAll(rules, p.desk, bars[1..], nextId + |OrdersOf(p.decisions, bars[0].bar, nextId)|);
      }
    }
  }

  /** The log of a run that does not raise adds up: every order the strategy emitted was
      approved or denied, every approved one is listed with its fill, and the final state is
      the ledger's. */
  lemma LogAddsUp(rules: Rules, d: Desk, bars: seq<Recorded>, nextId: nat, at: Timestamp)
    requires !RunCollected(rules, d, bars, nextId).raised
    ensures var t := RunCollected(rules, d, bars, nextId);
            var log := LogOf(t, at);
            var a := Run(d.account, t.events);
            && log.emitted == IntentCount(bars) == log.approved + |log.denied|
            && log.approved == |log.fills| == |log.approvedOrders|
            && (forall i :: 0 <= i < |log.fills| ==> log.fills[i] == log.approvedOrders[i].1)
            && FillsOf(log.approvedOrders) == FillsOnly(t.events)
            && log.finalState.equity == a.startBalance + a.realized + a.unrealized
            && log.finalState.realizedToday == a.realized && log.finalState.unrealized == a.unrealized
            && log.finalState.openPositions == a.positions && log.finalState.highWater == a.highWater
            && log.finalState.startBalance == a.startBalance && log.finalState.isCombine == a.isCombine
            && log.finalState.timestamp == at
  {
    hide RunCollected, Run, FillsOf, FillsOnly, FilledInFull;
    LogIsComplete(rules, d, bars, nextId);
    EmittedAreAll(rules, d, bars, nextId);
  }

  /** Joins what has been collected so far with the rest of the run. */
  ghost function Joined(emitted: nat, denied: seq<Decision>, orders: seq<(OrderIntent, OrderEvent)>,
                        rest: Trace): (nat, seq<Decision>, seq<(OrderIntent, OrderEvent)>) {
    (emitted + rest.emitted, denied + rest.denied, orders + rest.orders)
  }

  lemma JoinedStep(rules: Rules, d: Desk, bars: seq<Recorded>, nextId: nat, emitted: nat, denied: seq<Decision>,
                   orders: seq<(OrderIntent, OrderEvent)>)
    requires bars != [] && !Collected(rules, d, bars[0]).raised
    ensures var p := Collected(rules, d, bars[0]);
            var more := OrdersOf(p.decisions, bars[0].bar, nextId);
            var rest := RunCollected(rules, p.desk, bars[1..], nextId + |more|);
            && Joined(emitted, denied, orders, RunCollected(rules, d, bars, nextId))
               == Joined(emitted + |bars[0].intents|, denied + Violations(p.decisions), orders + more, rest)
            && RunCollected(rules, d, bars, nextId).raised == rest.raised
            && RunCollected(rules, d, bars, nextId).desk == rest.desk
  {
    hide Collected, OrdersOf, Violations;
    var p := Collected(rules, d, bars[0]);
    var more := OrdersOf(p.decisions, bars[0].bar, nextId);
    var rest := RunCollected(rules, p.desk, bars[1..], nextId + |more|);
    assert denied + (Violations(p.decisions) + rest.denied) == denied + Violations(p.decisions) + rest.denied;
    assert orders + (more + rest.orders) == orders + more + rest.orders;
  }

  class BacktestEngine {
    const gate: TopstepRiskGate
    const tracker: AccountStateTracker
    const sim: SimExecutionClient

    constructor (gate: TopstepRiskGate, tracker: AccountStateTracker, sim: SimExecutionClient)
      ensures this.gate == gate && this.tracker == tracker && this.sim == sim
    {
      this.gate, this.tracker, this.sim := gate, tracker, sim;
    }

    function State(): Desk
      reads gate, gate.cancelTracker, tracker
    {
      Desk(gate.State(), tracker.Value())
    }

    /** Runs the bars and returns the log, or None when an unregistered symbol raises. The
        epoch stands in as the final timestamp when there are no bars. */
    method RunCollect(bars: seq<Recorded>, epoch: Timestamp) returns (log: Option<TradeLog>)
      requires tracker.AllPriced() && gate.cancelTracker.window == WINDOW
      modifies gate, gate.cancelTracker, tracker, sim
      ensures var t := RunCollected(gate.rules, old(State()), bars, old(sim.nextId));
              && (log.None? <==> t.raised)
              && (!t.raised ==> State() == t.desk && tracker.AllPriced()
                                && log == Some(LogOf(t, if bars == [] then epoch else bars[|bars| - 1].bar.timestamp)))
    {
      hide Ask, Filled, Marked, Ticked, RunCollected, Registered, OrdersOf, Violations, Joined;
      var emitted: nat := 0;
      var denied: seq<Decision> := [];
      var fills: seq<OrderEvent> := [];
      var approvedOrders: seq<(OrderIntent, OrderEvent)> := [];
      var lastAt := epoch;
      ghost var whole := RunCollected(gate.rules, State(), bars, sim.nextId);
      assert bars[0..] == bars;
      var i := 0;
      while i < |bars|
        invariant 0 <= i <= |bars|
        invariant tracker.AllPriced()
        invariant fills == EventsOf(approvedOrders)
        invariant lastAt == if i == 0 then epoch else bars[i - 1].bar.timestamp
        invariant var rest := RunCollected(gate.rules, State(), bars[i..], sim.nextId);
                  && whole.raised == rest.raised && whole.desk == rest.desk
                  && Joined(0, [], [], whole) == Joined(emitted, denied, approvedOrders, rest)
      {
        var r := bars[i];
        ghost var d, id := State(), sim.nextId;
        assert bars[i..][0] == r && bars[i..][1..] == bars[i + 1..];
        var raised, moreDenied, more := RunBar(r);
        if raised {
          RaisedRun(gate.rules, d, bars[i..], id);
          return None;
        }
        JoinedStep(gate.rules, d, bars[i..], id, emitted, denied, approvedOrders);
        emitted := emitted + |r.intents|;
        denied := denied + moreDenied;
        EventsOfConcat(approvedOrders, more);
        fills := fills + EventsOf(more);
        approvedOrders := approvedOrders + more;
        lastAt := r.bar.timestamp;
        i := i + 1;
      }
      var final := tracker.Snapshot(lastAt);
      log := Some(TradeLog(final, emitted, |approvedOrders|, denied, fills, approvedOrders));
      EmptyRun(gate.rules, State(), bars[i..], sim.nextId, emitted, denied, approvedOrders);
      JoinedNothing(whole);
    }

    /** One bar: mark, snapshot, tick, and the bar's orders in turn. */
    method RunBar(r: Recorded) returns (raised: bool, denied: seq<Decision>, orders: seq<(OrderIntent, OrderEvent)>)
      requires tracker.AllPriced() && gate.cancelTracker.window == WINDOW
      modifies gate, gate.cancelTracker, tracker, sim
      ensures tracker.AllPriced()
      ensures var p := Collected(gate.rules, old(State()), r);
              && raised == p.raised && State() == p.desk
              && (!raised ==> denied == Violations(p.decisions))
              && orders == OrdersOf(p.decisions, r.bar, old(sim.nextId)) && sim.nextId == old(sim.nextId) + |orders|
    {
      hide Pump, Placed, Filled, Refreshed, Registered, Ticked, Priced, RefreshRaises, FillRaises, OrdersOf, Violations;
      PricedNeverRaisesAtMark(tracker.Value(), r.bar.symbol, r.bar.close);
      var failed := tracker.MarkToMarket(r.bar);
      assert !failed;
      var state := tracker.Snapshot(r.bar.timestamp);
      state := gate.OnTick(state);
      denied, orders := [], [];
      ghost var whole := Pump(gate.rules, State(), state, r.bar.close, AsProposals(r.intents));
      assert whole == Collected(gate.rules, old(State()), r);
      ghost var decisions: seq<Decision>, events: seq<Event> := [], [];
      assert [] + whole.decisions == whole.decisions && [] + whole.fills == whole.fills;
      ghost var firstId := sim.nextId;
      assert r.intents[0..] == r.intents;
      NoDecisions(r.bar, firstId);
      var i := 0;
      while i < |r.intents|
        invariant 0 <= i <= |r.intents|
        invariant tracker.AllPriced()
        invariant whole
                  == Then(decisions, events, Pump(gate.rules, State(), state, r.bar.close, AsProposals(r.intents[i..])))
        invariant denied == Violations(decisions) && orders == OrdersOf(decisions, r.bar, firstId)
        invariant sim.nextId == firstId + |orders|
        decreases |r.intents| - i
      {
        var (intent, journal) := r.intents[i];
        ghost var d := State();
        ghost var proposals := AsProposals(r.intents[i..]);
        assert proposals[0] == Simulated(intent, journal) && proposals[1..] == AsProposals(r.intents[i + 1..]);
        PumpUnfoldsAfter(gate.rules, d, state, r.bar.close, proposals, decisions, events);
        SimulatedPlacing(gate.rules, d, state, r.bar.close, proposals[0]);
        ghost var first := Placed(gate.rules, d, state, r.bar.close, proposals[0]);
        var decision, filled := Propose(intent, journal, state, r.bar);
        SnocDecision(decisions, decision, r.bar, firstId);
        events := events + first.fills;
        decisions := decisions + [decision];
        orders := orders + filled;
        if decision.Denied? {
          denied := denied + [decision];
        }
        if decision.Raised? {
          assert whole.decisions == decisions;
          return true, denied, orders;
        }
        i := i + 1;
      }
      raised := false;
      assert AsProposals(r.intents[i..]) == [];
      NothingToPump(gate.rules, State(), state, r.bar.close);
      assert decisions + [] == decisions && events + [] == events;
    }

    /** One order: through the gate, and if approved into the ledger and the broker. */
    method Propose(intent: OrderIntent, journal: JournalView, state: AccountState, bar: Bar)
      returns (decision: Decision, filled: seq<(OrderIntent, OrderEvent)>)
      requires tracker.AllPriced() && gate.cancelTracker.window == WINDOW
      modifies gate.cancelTracker, tracker, sim
      ensures tracker.AllPriced()
      ensures var first := Placed(gate.rules, old(State()), state, bar.close, Simulated(intent, journal));
              State() == first.desk && decision == first.decision
      ensures filled == OrderOf(decision, bar, old(sim.nextId))
      ensures sim.nextId == old(sim.nextId) + |filled|
    {
      hide Ask, Filled, Registered, Priced, FillRaises, FillStopped;
      ghost var d := State();
      decision := gate.ApproveOrDeny(journal, intent, state);
      filled := [];
      if decision.Approved? {
        var approved := decision.intent;
        ApprovedIsRegistered(gate.rules, d.gate, journal, intent, state);
        PricedNeverRaises(tracker.Value(), approved.symbol, approved.SignedQty(), bar.close);
        var failed := tracker.RecordFill(approved.symbol, approved.SignedQty(), bar.close);
        assert !failed;
        var pending := sim.RegisterIntent(approved);
        var event := sim.ExecuteFill(approved, bar.close, bar.timestamp);
        filled := [(approved, event)];
      }
    }
  }

  lemma NoDecisions(bar: Bar, nextId: nat)
    ensures Violations([]) == [] && OrdersOf([], bar, nextId) == []
  {
  }

  lemma SnocDecision(decisions: seq<Decision>, decision: Decision, bar: Bar, nextId: nat)
    ensures Violations(decisions + [decision]) == Violations(decisions) + (if decision.Denied? then [decision] else [])
    ensures var orders := OrdersOf(decisions, bar, nextId);
            OrdersOf(decisions + [decision], bar, nextId) == orders + OrderOf(decision, bar, nextId + |orders|)
  {
    hide Violations, OrdersOf, FillEvent;
    ViolationsConcat(decisions, [decision]);
    OneViolation(decision);
    OrdersSnoc(decisions, decision, bar, nextId);
  }

  /** The orders one decision gives. */
  function OrderOf(decision: Decision, bar: Bar, id: nat): seq<(OrderIntent, OrderEvent)> {
    if decision.Approved? then [(decision.intent, FillEvent(decision.intent, bar, id))] else []
  }

  lemma {:induction false} OrdersSnoc(decisions: seq<Decision>, decision: Decision, bar: Bar, nextId: nat)
    ensures var orders := OrdersOf(decisions, bar, nextId);
            OrdersOf(decisions + [decision], bar, nextId) == orders + OrderOf(decision, bar, nextId + |orders|)
    decreases |decisions|
  {
    hide FillEvent;
    if decisions == [] {
      assert [] + [decision] == [decision] && [decision][1..] == [];
    } else {
      hide OrderOf;
      var all := decisions + [decision];
      assert all[0] == decisions[0] && all[1..] == decisions[1..] + [decision];
      OrdersSnoc(decisions[1..], decision, bar, if decisions[0].Approved? then nextId + 1 else nextId);
    }
  }

  lemma EventsOfConcat(xs: seq<(OrderIntent, OrderEvent)>, ys: seq<(OrderIntent, OrderEvent)>)
    ensures EventsOf(xs + ys) == EventsOf(xs) + EventsOf(ys)
  {
  }

  lemma RaisedRun(rules: Rules, d: Desk, bars: seq<Recorded>, nextId: nat)
    requires bars != [] && Collected(rules, d, bars[0]).raised
    ensures RunCollected(rules, d, bars, nextId).raised
  {
    hide Collected;
  }

  lemma EmptyRun(rules: Rules, d: Desk, bars: seq<Recorded>, nextId: nat, emitted: nat, denied: seq<Decision>,
                 orders: seq<(OrderIntent, OrderEvent)>)
    requires bars == []
    ensures RunCollected(rules, d, bars, nextId) == Trace(d, 0, [], [], [], false)
    ensures Joined(emitted, denied, orders, RunCollected(rules, d, bars, nextId)) == (emitted, denied, orders)
  {
    assert denied + [] == denied && orders + [] == orders;
  }

  lemma JoinedNothing(t: Trace)
    ensures Joined(0, [], [], t) == (t.emitted, t.denied, t.orders)
  {
    assert [] + t.denied == t.denied && [] + t.orders == t.orders;
  }
}
