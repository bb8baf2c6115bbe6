/** The two walkers that rebuild round trips from a list of fills, and their agreement
    with each other and with the running ledger. */
module RoundTrips {
  import opened Types
  import opened Markets
  import opened Sums
  import opened Ledger

  /** Running quantity and cash of a symbol, in contracts and price points. */
  datatype Open = Open(qty: int, cash: real)

  datatype Walk = Walk(running: map<string, Open>, pnls: seq<real>)

  const START := Walk(map[], [])

  // ---- The report's walker --------------------------------------------------

  /** Price points times contracts, in dollars. */
  function Dollars(points: real, symbol: string): real {
    points * TickRatio(symbol)
  }

  function RunningOf(w: Walk, symbol: string): Open {
    if symbol in w.running then w.running[symbol] else Open(0, 0.0)
  }

  function Walked(w: Walk, symbol: string, signedQty: int, price: real): Walk {
    var open := RunningOf(w, symbol);
    var next := Open(open.qty + signedQty, open.cash + Flow(signedQty, price));
    if next.qty == 0 && open.qty != 0
    then Walk(w.running - {symbol}, w.pnls + [Dollars(next.cash, symbol)])
    else w.(running := w.running[symbol := next])
  }

  function WalkAll(w: Walk, fills: seq<Event>): Walk
    decreases |fills|
  {
    if fills == [] then w
    else match fills[0]
      case Mark(_, _) => WalkAll(w, fills[1..])
      case Fill(symbol, signedQty, price) => WalkAll(Walked(w, symbol, signedQty, price), fills[1..])
  }

  /** The fills recorded in a list of approved orders; events without a price are skipped. */
  function FillsOf(orders: seq<(OrderIntent, OrderEvent)>): seq<Event> {
    if orders == [] then []
    else (match orders[0].1.avgFillPrice
          case None => []
          case Some(price) => [Fill(orders[0].0.symbol, orders[0].0.SignedQty(), price)]) + FillsOf(orders[1..])
  }

  /** Profit and loss of the closed round trips of a stream, in closing order. */
  function RoundTripPnls(fills: seq<Event>): seq<real> {
    WalkAll(START, fills).pnls
  }

  function SumOf(pnls: seq<real>): real {
    if pnls == [] then 0.0 else SumOf(pnls[..|pnls| - 1]) + pnls[|pnls| - 1]
  }

  // ---- Nothing is lost between trips and open cash --------------------------

  /** Dollars a symbol's open cash stands for. */
  function InDollars(points: real, symbol: string): real {
    points * PointValue(symbol)
  }

  ghost function OpenCash(w: Walk): string -> real {
    s => InDollars(RunningOf(w, s).cash, s)
  }

  /** Closed round trips plus the dollars tied up in unfinished ones. */
  ghost function Accounted(w: Walk): real {
    SumOf(w.pnls) + SumReal(w.running.Keys, OpenCash(w))
  }

  /** The fill closes a round trip. */
  predicate ClosesTrip(w: Walk, symbol: string, signedQty: int) {
    RunningOf(w, symbol).qty != 0 && RunningOf(w, symbol).qty + signedQty == 0
  }

  /** The walk looks a point value up only when a trip closes, and raises there unless the
      symbol is a bare root; what stays open is carried along under any name. */
  predicate WalkRaises(w: Walk, fills: seq<Event>)
    decreases |fills|
  {
    if fills == [] then false
    else match fills[0]
      case Mark(_, _) => WalkRaises(w, fills[1..])
      case Fill(symbol, signedQty, price) =>
        (ClosesTrip(w, symbol, signedQty) && !IsRoot(symbol))
        || WalkRaises(Walked(w, symbol, signedQty, price), fills[1..])
  }

  lemma WalkStepConserves(w: Walk, symbol: string, signedQty: int, price: real)
    requires ClosesTrip(w, symbol, signedQty) ==> IsRoot(symbol)
    ensures Accounted(Walked(w, symbol, signedQty, price)) == Accounted(w) + Cash(symbol, signedQty, price)
  {
    DollarsOfFlow(RunningOf(w, symbol).cash, symbol, signedQty, price);
    hide Dollars, Cash, SumReal, IsRoot, Flow, InDollars;
    var next := Walked(w, symbol, signedQty, price);
    var open := RunningOf(w, symbol);
    ChangeReal(w.running.Keys, OpenCash(w), next.running.Keys, OpenCash(next), symbol);
    assert OpenCash(w)(symbol) == InDollars(open.cash, symbol);
    if open.qty + signedQty == 0 && open.qty != 0 {
      assert next.pnls[..|next.pnls| - 1] == w.pnls;
    } else {
      assert OpenCash(next)(symbol) == InDollars(open.cash + Flow(signedQty, price), symbol);
    }
  }

  lemma DollarsOfFlow(points: real, symbol: string, signedQty: int, price: real)
    ensures InDollars(points + Flow(signedQty, price), symbol)
            == InDollars(points, symbol) + Cash(symbol, signedQty, price)
    ensures InDollars(0.0, symbol) == 0.0
    ensures IsRoot(symbol) ==> forall p :: Dollars(p, symbol) == InDollars(p, symbol)
  {
    if IsRoot(symbol) {
      TickRatioIsPointValue(symbol);
    }
    hide TickRatio, PointValue, IsRoot, Flow;
  }

  /** For every stream the walk gets through, round-trip P&L plus the cash of still-open
      symbols is the total signed cash flow. */
  lemma {:induction false} WalkConserves(w: Walk, fills: seq<Event>)
    requires !WalkRaises(w, fills)
    ensures Accounted(WalkAll(w, fills)) == Accounted(w) + CashFlow(fills)
    decreases |fills|
  {
    hide Walked, Accounted, Cash, IsRoot, ClosesTrip;
    if fills != [] {
      match fills[0]
      case Mark(_, _) => WalkConserves(w, fills[1..]);
      case Fill(symbol, signedQty, price) =>
        WalkStepConserves(w, symbol, signedQty, price);
        WalkConserves(Walked(w, symbol, signedQty, price), fills[1..]);
    }
  }

  // ---- Agreement with the ledger --------------------------------------------

  /** A symbol the walker holds at zero has no cash tied up in it. */
  ghost predicate IdleIsEmpty(w: Walk) {
    forall s :: s in w.running && w.running[s].qty == 0 ==> w.running[s].cash == 0.0
  }

  lemma {:induction false} WalkTracksQuantity(w: Walk, fills: seq<Event>, symbol: string)
    requires IdleIsEmpty(w)
    ensures IdleIsEmpty(WalkAll(w, fills))
    ensures RunningOf(WalkAll(w, fills), symbol).qty == RunningOf(w, symbol).qty + NetQty(fills, symbol)
    decreases |fills|
  {
    hide TickRatio;
    if fills != [] {
      match fills[0]
      case Mark(_, _) => WalkTracksQuantity(w, fills[1..], symbol);
      case Fill(filled, signedQty, price) => WalkTracksQuantity(Walked(w, filled, signedQty, price), fills[1..],
          symbol);
    }
  }

  /** A stream that ends flat in the ledger leaves all its cash in closed round trips. */
  lemma FlatWalkIsAllTrips(start: real, isCombine: bool, events: seq<Event>)
    requires forall s :: Held(Run(Opened(start, isCombine), events).positions, s) == 0
    ensures Accounted(WalkAll(START, events)) == SumOf(RoundTripPnls(events))
  {
    hide Run, SumReal, WalkAll, PointValue;
    var end := WalkAll(START, events);
    forall s | s in end.running.Keys
      ensures OpenCash(end)(s) == 0.0
    {
      WalkTracksQuantity(START, events, s);
      RunMovesQuantity(Opened(start, isCombine), events, s);
    }
    SameReal(end.running.Keys, OpenCash(end), s => 0.0);
    SumOfZeros(end.running.Keys);
  }

  lemma {:induction false} SumOfZeros(keys: set<string>)
    ensures SumReal(keys, s => 0.0) == 0.0
    decreases keys
  {
    if keys != {} {
      var k :| k in keys;
      TakeReal(keys, s => 0.0, k);
      SumOfZeros(keys - {k});
    }
  }

  /** For every stream of marks and fills that ends flat, the round trips add up to the
      ledger's realized P&L less the drift of partial reductions. Without partial
      reductions the two are equal. */
  lemma ReportAgreesWithLedger(start: real, isCombine: bool, events: seq<Event>)
    requires !WalkRaises(START, events)
    requires forall s :: Held(Run(Opened(start, isCombine), events).positions, s) == 0
    ensures var a := Opened(start, isCombine);
            && SumOf(RoundTripPnls(events)) == Run(a, events).realized - Drift(a, events)
            && (NoPartialReduction(a, events) ==> SumOf(RoundTripPnls(events)) == Run(a, events).realized)
  {
    hide Run, WalkAll, Drift, CashFlow, NoPartialReduction, SumReal, WalkRaises, Cost;
    var a := Opened(start, isCombine);
    var end := Run(a, events);
    WalkConserves(START, events);
    EmptySum(OpenCash(START));
    assert START.running.Keys == {} && Accounted(START) == 0.0;
    CashIsConserved(a, events);
    EmptyBasis(start, isCombine);
    FlatWalkIsAllTrips(start, isCombine, events);
    FlatHasNoCost(end);
    if NoPartialReduction(a, events) {
      NoPartialNoDrift(a, events);
    }
  }

  lemma FlatHasNoCost(end: Account)
    requires forall s :: Held(end.positions, s) == 0
    ensures Basis(end) == end.realized
  {
    hide SumReal, PointValue;
    forall s | s in end.positions.Keys
      ensures Costs(end)(s) == 0.0
    {
      assert LegOf(end, s).qty == 0;
    }
    SameReal(end.positions.Keys, Costs(end), s => 0.0);
    SumOfZeros(end.positions.Keys);
  }

  // ---- The proof bundle's walker --------------------------------------------

  datatype RawFill = RawFill(symbol: string, side: Side, qty: int, price: real, ts: Timestamp)
  {
    function SignedQty(): int {
      if side == BUY then qty else -qty
    }
  }

  datatype OpenLeg = OpenLeg(qty: int, cash: real, openerTs: Timestamp, openerPrice: real, openerSide: Side,
      openerQty: int)

  datatype ClosedTrade = ClosedTrade(
    entryTs: Timestamp, exitTs: Timestamp, side: Side, entryPrice: real, exitPrice: real, qty: int, pnl: real)

  datatype Legs = Legs(open: map<string, OpenLeg>, trades: seq<ClosedTrade>)

  const NO_LEGS := Legs(map[], [])

  function LegsAfter(l: Legs, fill: RawFill): Legs {
    var signed := fill.SignedQty();
    if fill.symbol !in l.open then
      l.(open := l.open[fill.symbol :=
          OpenLeg(signed, Flow(signed, fill.price), fill.ts, fill.price, fill.side, fill.qty)])
    else
      var leg := l.open[fill.symbol];
      var newQty, newCash := leg.qty + signed, leg.cash + Flow(signed, fill.price);
      if newQty == 0 && leg.qty != 0 then
        Legs(l.open - {fill.symbol},
             l.trades + [ClosedTrade(leg.openerTs, fill.ts, leg.openerSide, leg.openerPrice, fill.price, leg.openerQty,
                                     Dollars(newCash, fill.symbol))])
      else
        l.(open := l.open[fill.symbol := leg.(qty := newQty, cash := newCash)])
  }

  function LegsAfterAll(l: Legs, fills: seq<RawFill>): Legs
    decreases |fills|
  {
    if fills == [] then l else LegsAfterAll(LegsAfter(l, fills[0]), fills[1..])
  }

  /** The generator raises at the same closes. */
  predicate LegsRaise(l: Legs, fills: seq<RawFill>)
    decreases |fills|
  {
    fills != []
    && (LegRaises(l, fills[0]) || LegsRaise(LegsAfter(l, fills[0]), fills[1..]))
  }

  predicate LegRaises(l: Legs, fill: RawFill) {
    && fill.symbol in l.open && !IsRoot(fill.symbol)
    && l.open[fill.symbol].qty != 0 && l.open[fill.symbol].qty + fill.SignedQty() == 0
  }

  /** What the log source reads from a list of approved orders: the event's quantity with
      the intent's side. */
  function RawFillsOf(orders: seq<(OrderIntent, OrderEvent)>): seq<RawFill> {
    if orders == [] then []
    else (match orders[0].1.avgFillPrice
          case None => []
          case Some(price) =>
            [RawFill(orders[0].0.symbol, orders[0].0.side, orders[0].1.filledQuantity, price, orders[0].1.timestamp)])
         + RawFillsOf(orders[1..])
  }

  function Pnls(trades: seq<ClosedTrade>): seq<real> {
    seq(|trades|, i requires 0 <= i < |trades| => trades[i].pnl)
  }

  ghost predicate SameWalk(w: Walk, l: Legs) {
    && w.running.Keys == l.open.Keys
    && (forall s :: s in w.running ==> w.running[s] == Open(l.open[s].qty, l.open[s].cash))
    && w.pnls == Pnls(l.trades)
  }

  lemma WalkersStepTogether(w: Walk, l: Legs, fill: RawFill)
    requires SameWalk(w, l)
    ensures SameWalk(Walked(w, fill.symbol, fill.SignedQty(), fill.price), LegsAfter(l, fill))
  {
    hide Dollars, Flow;
    var signed := fill.SignedQty();
    var l' := LegsAfter(l, fill);
    if |l'.trades| > |l.trades| {
      assert Pnls(l'.trades) == Pnls(l.trades) + [l'.trades[|l.trades|].pnl];
    }
  }

  predicate FilledInFull(orders: seq<(OrderIntent, OrderEvent)>) {
    forall i :: 0 <= i < |orders| ==> orders[i].1.filledQuantity == orders[i].0.quantity
  }

  lemma WalkersRaiseTogether(w: Walk, l: Legs, fill: RawFill)
    requires SameWalk(w, l)
    ensures LegRaises(l, fill) <==> ClosesTrip(w, fill.symbol, fill.SignedQty()) && !IsRoot(fill.symbol)
  {
    hide IsRoot;
  }

  lemma {:induction false} WalkersAgreeFrom(w: Walk, l: Legs, orders: seq<(OrderIntent, OrderEvent)>)
    requires SameWalk(w, l) && FilledInFull(orders)
    ensures SameWalk(WalkAll(w, FillsOf(orders)), LegsAfterAll(l, RawFillsOf(orders)))
    ensures WalkRaises(w, FillsOf(orders)) <==> LegsRaise(l, RawFillsOf(orders))
    decreases |orders|
  {
    hide SameWalk, Walked, LegsAfter, LegRaises, ClosesTrip, IsRoot;
    if orders != [] {
      var (intent, event) := orders[0];
      assert FilledInFull(orders[1..]);
      if event.avgFillPrice.Some? {
        var raw := RawFill(intent.symbol, intent.side, event.filledQuantity, event.avgFillPrice.value, event.timestamp);
        WalkersStepTogether(w, l, raw);
        WalkersRaiseTogether(w, l, raw);
        var fills, raws := FillsOf(orders), RawFillsOf(orders);
        assert fills[0] == Fill(intent.symbol, intent.SignedQty(), event.avgFillPrice.value);
        assert fills[1..] == FillsOf(orders[1..]);
        assert raws[0] == raw && raws[1..] == RawFillsOf(orders[1..]);
        WalkersAgreeFrom(Walked(w, raw.symbol, raw.SignedQty(), raw.price), LegsAfter(l, raw), orders[1..]);
      } else {
        assert FillsOf(orders) == FillsOf(orders[1..]) && RawFillsOf(orders) == RawFillsOf(orders[1..]);
        WalkersAgreeFrom(w, l, orders[1..]);
      }
    }
  }

  /** Orders filled in full give the proof bundle the very P&L list of the report, and both
      walks raise on the same lists. */
  lemma WalkersAgree(orders: seq<(OrderIntent, OrderEvent)>)
    requires FilledInFull(orders)
    ensures Pnls(LegsAfterAll(NO_LEGS, RawFillsOf(orders)).trades) == RoundTripPnls(FillsOf(orders))
    ensures WalkRaises(START, FillsOf(orders)) <==> LegsRaise(NO_LEGS, RawFillsOf(orders))
  {
    hide WalkRaises, LegsRaise;
    WalkersAgreeFrom(START, NO_LEGS, orders);
  }

  // ---- The loops ------------------------------------------------------------

  lemma {:induction false} WalkSnoc(w: Walk, fills: seq<Event>, more: seq<Event>)
    ensures WalkAll(w, fills + more) == WalkAll(WalkAll(w, fills), more)
    decreases |fills|
  {
    hide Walked;
    if fills == [] {
      assert fills + more == more;
    } else {
      assert (fills + more)[0] == fills[0] && (fills + more)[1..] == fills[1..] + more;
      match fills[0]
      case Mark(_, _) => WalkSnoc(w, fills[1..], more);
      case Fill(symbol, signedQty, price) => WalkSnoc(Walked(w, symbol, signedQty, price), fills[1..], more);
    }
  }

  lemma NothingToWalk(w: Walk)
    ensures WalkAll(w, []) == w && !WalkRaises(w, [])
  {
  }

  /** One fill of a walk. */
  lemma WalkUnfolds(w: Walk, symbol: string, signedQty: int, price: real, rest: seq<Event>)
    ensures var fills := [Fill(symbol, signedQty, price)] + rest;
            var next := Walked(w, symbol, signedQty, price);
            && WalkAll(w, fills) == WalkAll(next, rest)
            && (WalkRaises(w, fills) <==>
                  (ClosesTrip(w, symbol, signedQty) && !IsRoot(symbol)) || WalkRaises(next, rest))
  {
    hide IsRoot, Walked, ClosesTrip;
    assert ([Fill(symbol, signedQty, price)] + rest)[1..] == rest;
  }

  /** The report's list; None where a close raises. */
  method WalkOrders(orders: seq<(OrderIntent, OrderEvent)>) returns (result: Option<seq<real>>)
    ensures result.None? <==> WalkRaises(START, FillsOf(orders))
    ensures result.Some? ==> result.value == RoundTripPnls(FillsOf(orders))
  {
    hide Dollars, IsRoot, Flow, WalkAll, WalkRaises;
    var pnls: seq<real> := [];
    assert orders[0..] == orders;
    var running: map<string, Open> := map[];
    for i := 0 to |orders|
      invariant WalkAll(START, FillsOf(orders)) == WalkAll(Walk(running, pnls), FillsOf(orders[i..]))
      invariant WalkRaises(START, FillsOf(orders)) == WalkRaises(Walk(running, pnls), FillsOf(orders[i..]))
    {
      var (intent, event) := orders[i];
      assert orders[i..][1..] == orders[i + 1..];
      if event.avgFillPrice.None? {
        assert FillsOf(orders[i..]) == FillsOf(orders[i + 1..]);
        continue;
      }
      var fillPrice := event.avgFillPrice.value;
      var signed := intent.SignedQty();
      ghost var before := Walk(running, pnls);
      assert FillsOf(orders[i..]) == [Fill(intent.symbol, signed, fillPrice)] + FillsOf(orders[i + 1..]);
      WalkUnfolds(before, intent.symbol, signed, fillPrice, FillsOf(orders[i + 1..]));
      var open := if intent.symbol in running then running[intent.symbol] else Open(0, 0.0);
      var newQty := open.qty + signed;
      var newCash := open.cash + Flow(signed, fillPrice);
      if newQty == 0 && open.qty != 0 {
        if !IsRoot(intent.symbol) {
          return None;
        }
        pnls := pnls + [Dollars(newCash, intent.symbol)];
        running := running - {intent.symbol};
      } else {
        running := running[intent.symbol := Open(newQty, newCash)];
      }
      assert Walk(running, pnls) == Walked(before, intent.symbol, signed, fillPrice);
    }
    assert FillsOf(orders[|orders|..]) == [];
    NothingToWalk(Walk(running, pnls));
    return Some(pnls);
  }

  method WalkRawFills(fills: seq<RawFill>) returns (result: Option<seq<ClosedTrade>>)
    ensures result.None? <==> LegsRaise(NO_LEGS, fills)
    ensures result.Some? ==> result.value == LegsAfterAll(NO_LEGS, fills).trades
  {
    hide Dollars, IsRoot, Flow;
    var trades: seq<ClosedTrade> := [];
    var openLegs: map<string, OpenLeg> := map[];
    for i := 0 to |fills|
      invariant LegsAfterAll(NO_LEGS, fills) == LegsAfterAll(Legs(openLegs, trades), fills[i..])
      invariant LegsRaise(NO_LEGS, fills) == LegsRaise(Legs(openLegs, trades), fills[i..])
    {
      var fill := fills[i];
      assert fills[i..][0] == fill && fills[i..][1..] == fills[i + 1..];
      var signed := fill.SignedQty();
      if fill.symbol !in openLegs {
        openLegs := openLegs[fill.symbol :=
          OpenLeg(signed, Flow(signed, fill.price), fill.ts, fill.price, fill.side, fill.qty)];
        continue;
      }
      var leg := openLegs[fill.symbol];
      var newQty := leg.qty + signed;
      var newCash := leg.cash + Flow(signed, fill.price);
      if newQty == 0 && leg.qty != 0 {
        if !IsRoot(fill.symbol) {
          return None;
        }
        var pnl := Dollars(newCash, fill.symbol);
        trades := trades + [ClosedTrade(leg.openerTs, fill.ts, leg.openerSide, leg.openerPrice, fill.price,
                                        leg.openerQty, pnl)];
        openLegs := openLegs - {fill.symbol};
      } else {
        openLegs := openLegs[fill.symbol := leg.(qty := newQty, cash := newCash)];
      }
    }
    assert fills[|fills|..] == [];
    return Some(trades);
  }
}
