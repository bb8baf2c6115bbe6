/** The running account of the backtest and the live loop: positions with average entry
    prices, realized and unrealized P&L, and the high-water equity. */
module Ledger {
  import opened Types
  import opened Markets
  import opened Sums

  datatype Account = Account(
    startBalance: real, isCombine: bool, realized: real, unrealized: real,
    positions: map<string, int>, avgEntry: map<string, real>,
    highWater: real, lastClose: map<string, real>)
  {
    function Equity(): real {
      startBalance + realized + unrealized
    }
  }

  function Opened(startBalance: real, isCombine: bool): Account {
    Account(startBalance, isCombine, 0.0, 0.0, map[], map[], startBalance, map[])
  }

  /** Positions and average entries are kept for the same symbols. */
  predicate WellFormed(a: Account) {
    a.positions.Keys == a.avgEntry.Keys
  }

  /** And every one of them is in the registry. */
  ghost predicate Priced(a: Account) {
    WellFormed(a) && forall s :: s in a.positions ==> Registered(s)
  }

  function Price(prices: map<string, real>, symbol: string): real {
    if symbol in prices then prices[symbol] else 0.0
  }

  // ---- Specification --------------------------------------------------------

  /** Open P&L of one symbol against its latest mark; nothing while it is unmarked. */
  function OpenPnl(positions: map<string, int>, avgEntry: map<string, real>, marks: map<string, real>,
                   symbol: string): real {
    if symbol in marks then LegPnl(Leg(Held(positions, symbol), Price(avgEntry, symbol)), marks[symbol], symbol)
        else 0.0
  }

  function LegPnl(leg: Leg, mark: real, symbol: string): real {
    (mark - leg.avg) * leg.qty as real * PointValue(symbol)
  }

  ghost function OpenPnls(positions: map<string, int>, avgEntry: map<string, real>,
                          marks: map<string, real>): string -> real {
    s => OpenPnl(positions, avgEntry, marks, s)
  }

  ghost function TotalOpenPnl(positions: map<string, int>, avgEntry: map<string, real>,
                              marks: map<string, real>): real {
    SumReal(positions.Keys, OpenPnls(positions, avgEntry, marks))
  }

  /** Recomputes the open P&L and ratchets the high-water. */
  ghost function Refreshed(a: Account): Account {
    var b := a.(unrealized := TotalOpenPnl(a.positions, a.avgEntry, a.lastClose));
    b.(highWater := Max(b.highWater, b.Equity()))
  }

  /** One symbol's quantity and average entry. */
  datatype Leg = Leg(qty: int, avg: real)

  function LegOf(a: Account, symbol: string): Leg {
    Leg(Held(a.positions, symbol), Price(a.avgEntry, symbol))
  }

  function Sign(x: int): int {
    if x > 0 then 1 else -1
  }

  /** The quantity a closing or flipping fill takes off the table, signed like the position. */
  function ClosedQty(current: int, signedQty: int): int {
    (if Abs(current) < Abs(signedQty) then Abs(current) else Abs(signedQty)) * Sign(current)
  }

  function Average(leg: Leg, signedQty: int, price: real): real
    requires leg.qty + signedQty != 0
  {
    (leg.avg * Abs(leg.qty) as real + price * Abs(signedQty) as real) / Abs(leg.qty + signedQty) as real
  }

  /** `x * y < 0`, by sign. */
  predicate Opposed(x: int, y: int) {
    (x > 0 && y < 0) || (x < 0 && y > 0)
  }

  lemma OpposedIsNegativeProduct(x: int, y: int)
    ensures Opposed(x, y) <==> x * y < 0
  {
    if x > 0 && y >= 0 { assert x * y >= 0; }
    if x < 0 && y <= 0 { assert x * y >= 0; }
  }

  /** An opposite fill smaller than the position. */
  predicate PartialReduction(current: int, signedQty: int) {
    Opposed(current, signedQty) && Abs(signedQty) < Abs(current)
  }

  predicate ClosesOrFlips(current: int, signedQty: int) {
    current != 0 && (current + signedQty == 0 || Opposed(current, current + signedQty))
  }

  /** The leg after a fill: opened, flipped or flat at the fill price, or else averaged.
      Partial reductions are averaged too. */
  function AfterFill(leg: Leg, signedQty: int, price: real): Leg {
    if leg.qty == 0 || ClosesOrFlips(leg.qty, signedQty) then Leg(leg.qty + signedQty, price)
    else Leg(leg.qty + signedQty, Average(leg, signedQty, price))
  }

  /** Points times contracts the fill realizes. */
  function Realizes(leg: Leg, signedQty: int, price: real): real {
    if ClosesOrFlips(leg.qty, signedQty) then (price - leg.avg) * ClosedQty(leg.qty, signedQty) as real else 0.0
  }

  /** Stores the leg, or drops the symbol once it is flat. */
  function WithLeg(a: Account, symbol: string, leg: Leg): Account {
    if leg.qty == 0 then a.(positions := a.positions - {symbol}, avgEntry := a.avgEntry - {symbol})
    else a.(positions := a.positions[symbol := leg.qty], avgEntry := a.avgEntry[symbol := leg.avg])
  }

  function Realized(a: Account, symbol: string, signedQty: int, price: real): Account {
    a.(realized := a.realized + Realizes(LegOf(a, symbol), signedQty, price) * PointValue(symbol))
  }

  /** The books of a fill on an open leg, before the refresh. */
  function Booked(a: Account, symbol: string, signedQty: int, price: real): Account {
    WithLeg(Realized(a, symbol, signedQty, price), symbol, AfterFill(LegOf(a, symbol), signedQty, price))
  }

  /** A fill on a flat symbol opens without refreshing the open P&L; any other fill
      realizes what it closes, stores or drops the leg, and refreshes. */
  ghost function Filled(a: Account, symbol: string, signedQty: int, price: real): Account {
    if Held(a.positions, symbol) == 0 then
      a.(positions := a.positions[symbol := signedQty], avgEntry := a.avgEntry[symbol := price])
    else
      Refreshed(Booked(a, symbol, signedQty, price))
  }

  // ---- Where a lookup raises ---------------------------------------------------

  /** Refreshing the open P&L raises: a marked position has no point value. */
  ghost predicate RefreshRaises(a: Account) {
    exists s :: s in a.positions && s in a.lastClose && !Registered(s)
  }

  /** A fill raises when it realizes on an unregistered symbol, or at the refresh; never on
      an open. */
  ghost predicate FillRaises(a: Account, symbol: string, signedQty: int, price: real) {
    var held := Held(a.positions, symbol);
    && held != 0
    && ((ClosesOrFlips(held, signedQty) && !Registered(symbol)) || RefreshRaises(Booked(a, symbol, signedQty, price)))
  }

  /** How far a fill that raises has got. */
  function FillStopped(a: Account, symbol: string, signedQty: int, price: real): Account {
    if ClosesOrFlips(Held(a.positions, symbol), signedQty) && !Registered(symbol) then a
    else Booked(a, symbol, signedQty, price)
  }

  /** A fill that raises on its own symbol has done nothing; one that raises at the refresh has
      moved its position and realized what it closed. The open P&L and the high-water have been
      left behind either way. */
  lemma RaisedFillStops(a: Account, symbol: string, signedQty: int, price: real)
    requires FillRaises(a, symbol, signedQty, price)
    ensures var b := FillStopped(a, symbol, signedQty, price);
            var held := Held(a.positions, symbol);
            && b.unrealized == a.unrealized && b.highWater == a.highWater && b.lastClose == a.lastClose
            && (Registered(symbol) ==>
                  && Held(b.positions, symbol) == held + signedQty
                  && b.realized == a.realized + Realizes(LegOf(a, symbol), signedQty, price) * PointValue(symbol))
            && (!Registered(symbol) ==>
                  if held + signedQty == 0 || Opposed(held, held + signedQty) then b == a
                  else Held(b.positions, symbol) == held + signedQty && b.realized == a.realized)
  {
    hide Registered, RefreshRaises, Average, ClosedQty, PointValue;
  }

  /** Registered symbols never raise, and stay registered. */
  lemma PricedNeverRaises(a: Account, symbol: string, signedQty: int, price: real)
    requires Priced(a) && Registered(symbol)
    ensures WellFormed(a) && !FillRaises(a, symbol, signedQty, price) && Priced(Filled(a, symbol, signedQty, price))
  {
    hide Registered, TotalOpenPnl, Average, ClosedQty, PointValue;
  }

  ghost function Marked(a: Account, symbol: string, close: real): Account {
    Refreshed(a.(lastClose := a.lastClose[symbol := close]))
  }

  lemma PricedNeverRaisesAtMark(a: Account, symbol: string, close: real)
    requires Priced(a)
    ensures WellFormed(a) && !RefreshRaises(a.(lastClose := a.lastClose[symbol := close]))
            && Priced(Marked(a, symbol, close))
  {
    hide Registered, TotalOpenPnl;
  }

  /** A position opened in an unregistered symbol goes unnoticed until that symbol is first
      marked: the fill goes through, the marks of other symbols do, and that one raises. */
  lemma UnregisteredRaisesAtItsMark(a: Account, symbol: string, signedQty: int, price: real, marked: string,
                                    close: real)
    requires Priced(a) && !Registered(symbol) && symbol !in a.lastClose
    ensures !FillRaises(a, symbol, signedQty, price)
    ensures var b := Filled(a, symbol, signedQty, price);
            RefreshRaises(b.(lastClose := b.lastClose[marked := close])) <==> marked == symbol
  {
    hide Registered, TotalOpenPnl, Average, ClosedQty, PointValue;
    var b := Filled(a, symbol, signedQty, price);
    assert Held(a.positions, symbol) == 0 && symbol in b.positions;
    if marked == symbol {
      assert symbol in b.lastClose[marked := close];
    }
  }

  function SnapshotOf(a: Account, at: Timestamp): AccountState {
    AccountState(a.Equity(), a.realized, a.unrealized, a.positions, a.highWater, a.isCombine, at,
                 false, None, a.startBalance)
  }

  // ---- Streams of marks and fills -------------------------------------------

  datatype Event = Mark(symbol: string, close: real) | Fill(symbol: string, signedQty: int, price: real)

  ghost function Step(a: Account, e: Event): Account {
    match e
    case Mark(symbol, close) => Marked(a, symbol, close)
    case Fill(symbol, signedQty, price) => Filled(a, symbol, signedQty, price)
  }

  ghost function Run(a: Account, events: seq<Event>): Account
    decreases |events|
  {
    if events == [] then a else Run(Step(a, events[0]), events[1..])
  }

  lemma {:induction false} RunConcat(a: Account, xs: seq<Event>, ys: seq<Event>)
    ensures Run(a, xs + ys) == Run(Run(a, xs), ys)
    decreases |xs|
  {
    if xs == [] {
      assert xs + ys == ys;
    } else {
      assert (xs + ys)[1..] == xs[1..] + ys;
      RunConcat(Step(a, xs[0]), xs[1..], ys);
    }
  }

  predicate SameUnlessFlat(x: Leg, y: Leg) {
    x.qty == y.qty && (x.qty != 0 ==> x.avg == y.avg)
  }

  predicate SameLeg(a: Account, b: Account, symbol: string) {
    (symbol in a.positions <==> symbol in b.positions) && LegOf(a, symbol) == LegOf(b, symbol)
  }

  /** What a fill does to the books: one leg moves, by the fill's own quantity whatever the
      branch, and nothing else about the positions does. */
  lemma FillTouchesOneLeg(a: Account, symbol: string, signedQty: int, price: real)
    ensures var b := Filled(a, symbol, signedQty, price);
            && Held(b.positions, symbol) == Held(a.positions, symbol) + signedQty
            && SameUnlessFlat(LegOf(b, symbol), AfterFill(LegOf(a, symbol), signedQty, price))
            && b.realized == a.realized + Realizes(LegOf(a, symbol), signedQty, price) * PointValue(symbol)
            && b.lastClose == a.lastClose && b.startBalance == a.startBalance && b.isCombine == a.isCombine
  {
    hide PointValue, TotalOpenPnl, ClosedQty, Average;
  }

  lemma FillKeepsOtherLegs(a: Account, symbol: string, signedQty: int, price: real)
    ensures forall s :: s != symbol ==> SameLeg(a, Filled(a, symbol, signedQty, price), s)
  {
    hide PointValue, TotalOpenPnl, Realizes, AfterFill;
  }

  /** Contracts the fills of a stream add to one symbol. */
  function NetQty(events: seq<Event>, symbol: string): int {
    if events == [] then 0
    else
      var first := if events[0].Fill? && events[0].symbol == symbol then events[0].signedQty else 0;
      first + NetQty(events[1..], symbol)
  }

  lemma {:induction false} RunMovesQuantity(a: Account, events: seq<Event>, symbol: string)
    ensures Held(Run(a, events).positions, symbol) == Held(a.positions, symbol) + NetQty(events, symbol)
    decreases |events|
  {
    hide Filled, TotalOpenPnl, SameUnlessFlat;
    if events != [] {
      var e := events[0];
      RunMovesQuantity(Step(a, e), events[1..], symbol);
      if e.Fill? {
        FillMovesQuantity(a, e.symbol, e.signedQty, e.price, symbol);
      }
    }
  }

  lemma FillMovesQuantity(a: Account, filled: string, signedQty: int, price: real, symbol: string)
    ensures Held(Filled(a, filled, signedQty, price).positions, symbol)
         == Held(a.positions, symbol) + (if symbol == filled then signedQty else 0)
  {
    hide Filled;
    FillTouchesOneLeg(a, filled, signedQty, price);
    FillKeepsOtherLegs(a, filled, signedQty, price);
    assert symbol != filled ==> SameLeg(a, Filled(a, filled, signedQty, price), symbol);
  }

  // ---- Conservation ---------------------------------------------------------

  /** Dollars tied up in one symbol at its average entry. */
  function Cost(leg: Leg, symbol: string): real {
    leg.avg * leg.qty as real * PointValue(symbol)
  }

  ghost function Costs(a: Account): string -> real {
    s => Cost(LegOf(a, s), s)
  }

  /** Realized P&L less the cost of what is still open: the cash the fills have moved. */
  ghost function Basis(a: Account): real {
    a.realized - SumReal(a.positions.Keys, Costs(a))
  }

  /** Price points times contracts a fill brings in: positive for a sale. */
  function Flow(signedQty: int, price: real): real {
    -(signedQty as real * price)
  }

  /** Dollars a fill brings in: positive for a sale, negative for a purchase. */
  function Cash(symbol: string, signedQty: int, price: real): real {
    Flow(signedQty, price) * PointValue(symbol)
  }

  /** What a fill conjures up: a partial reduction is booked as if it had been bought on
      top, which is off by twice its value. */
  function FillDrift(symbol: string, current: int, signedQty: int, price: real): real {
    if PartialReduction(current, signedQty) then 2.0 * (signedQty as real * price) * PointValue(symbol) else 0.0
  }

  /** One leg, in points times contracts. */
  lemma LegConserves(leg: Leg, signedQty: int, price: real)
    ensures var next := AfterFill(leg, signedQty, price);
            Realizes(leg, signedQty, price) - next.avg * next.qty as real
            == -(leg.avg * leg.qty as real) - signedQty as real * price
               + (if PartialReduction(leg.qty, signedQty) then 2.0 * (signedQty as real * price) else 0.0)
  {
    var next := AfterFill(leg, signedQty, price);
    if leg.qty == 0 {
    } else if ClosesOrFlips(leg.qty, signedQty) {
      assert ClosedQty(leg.qty, signedQty) == leg.qty;
    } else {
      var total := leg.avg * Abs(leg.qty) as real + price * Abs(signedQty) as real;
      assert total / Abs(next.qty) as real * Abs(next.qty) as real == total;
    }
  }

  lemma ScaleLegs(realized: real, next: real, leg: real, cash: real, drift: real, m: real)
    requires realized - next == -leg - cash + drift
    ensures realized * m - next * m == -(leg * m) + -cash * m + drift * m
  {
  }

  /** Cash is conserved up to the drift of partial reductions: realized P&L less the open
      cost moves by exactly the fill's cash plus that drift. */
  lemma FillConserves(a: Account, symbol: string, signedQty: int, price: real)
    ensures Basis(Filled(a, symbol, signedQty, price))
         == Basis(a) + Cash(symbol, signedQty, price)
            + FillDrift(symbol, Held(a.positions, symbol), signedQty, price)
  {
    hide PointValue, Filled, Realizes, AfterFill;
    var b := Filled(a, symbol, signedQty, price);
    FillTouchesOneLeg(a, symbol, signedQty, price);
    FillKeepsOtherLegs(a, symbol, signedQty, price);
    assert Cost(LegOf(b, symbol), symbol) == Cost(AfterFill(LegOf(a, symbol), signedQty, price), symbol);
    CostsMoveInOneLeg(a, b, symbol);
    LegConservesDollars(LegOf(a, symbol), symbol, signedQty, price);
  }

  lemma CostsMoveInOneLeg(a: Account, b: Account, symbol: string)
    requires forall s :: s != symbol ==> SameLeg(a, b, s)
    ensures Basis(b) - b.realized + Cost(LegOf(b, symbol), symbol)
         == Basis(a) - a.realized + Cost(LegOf(a, symbol), symbol)
  {
    assert symbol !in a.positions ==> Cost(LegOf(a, symbol), symbol) == 0.0;
    assert symbol !in b.positions ==> Cost(LegOf(b, symbol), symbol) == 0.0;
    hide Cost, SumReal;
    forall s | s != symbol
      ensures (s in a.positions.Keys <==> s in b.positions.Keys) && Costs(a)(s) == Costs(b)(s)
    {
      assert SameLeg(a, b, s);
    }
    assert a.positions.Keys + {symbol} == b.positions.Keys + {symbol};
    ChangeReal(a.positions.Keys, Costs(a), b.positions.Keys, Costs(b), symbol);
  }

  lemma LegConservesDollars(leg: Leg, symbol: string, signedQty: int, price: real)
    ensures var next := AfterFill(leg, signedQty, price);
            Realizes(leg, signedQty, price) * PointValue(symbol) - Cost(next, symbol)
                == -Cost(leg, symbol) + Cash(symbol, signedQty, price)
               + FillDrift(symbol, leg.qty, signedQty, price)
  {
    hide PointValue, AfterFill, Realizes, PartialReduction;
    var next := AfterFill(leg, signedQty, price);
    LegConserves(leg, signedQty, price);
    ScaleLegs(Realizes(leg, signedQty, price), next.avg * next.qty as real, leg.avg * leg.qty as real,
              signedQty as real * price, if PartialReduction(leg.qty, signedQty)
                  then 2.0 * (signedQty as real * price) else 0.0,
              PointValue(symbol));
  }

  /** Total cash of the fills in a stream. */
  function CashFlow(events: seq<Event>): real {
    if events == [] then 0.0
    else (match events[0]
          case Mark(_, _) => 0.0
          case Fill(symbol, signedQty, price) => Cash(symbol, signedQty, price)) + CashFlow(events[1..])
  }

  /** Total drift of the partial reductions in a stream. */
  ghost function Drift(a: Account, events: seq<Event>): real
    decreases |events|
  {
    if events == [] then 0.0
    else (match events[0]
          case Mark(_, _) => 0.0
          case Fill(symbol, signedQty, price) => FillDrift(symbol, Held(a.positions, symbol), signedQty, price))
         + Drift(Step(a, events[0]), events[1..])
  }

  ghost predicate NoPartialReduction(a: Account, events: seq<Event>)
    decreases |events|
  {
    events != [] ==>
      && (events[0].Fill? ==> !PartialReduction(Held(a.positions, events[0].symbol), events[0].signedQty))
      && NoPartialReduction(Step(a, events[0]), events[1..])
  }

  /** Over any stream of marks and fills, realized P&L less open cost is the opening value
      plus the cash of the fills plus the drift of the partial reductions. */
  lemma {:induction false} CashIsConserved(a: Account, events: seq<Event>)
    ensures Basis(Run(a, events)) == Basis(a) + CashFlow(events) + Drift(a, events)
    decreases |events|
  {
    hide Filled, Cash, FillDrift, Basis;
    if events != [] {
      var next := Step(a, events[0]);
      CashIsConserved(next, events[1..]);
      match events[0]
      case Mark(symbol, close) =>
        MarkKeepsBasis(a, symbol, close);
      case Fill(symbol, signedQty, price) =>
        FillConserves(a, symbol, signedQty, price);
    }
  }

  lemma MarkKeepsBasis(a: Account, symbol: string, close: real)
    ensures Basis(Marked(a, symbol, close)) == Basis(a)
  {
    hide SumReal, TotalOpenPnl, Cost;
    CostsMoveInOneLeg(a, Marked(a, symbol, close), symbol);
  }

  lemma {:induction false} NoPartialNoDrift(a: Account, events: seq<Event>)
    requires NoPartialReduction(a, events)
    ensures Drift(a, events) == 0.0
    decreases |events|
  {
    hide Filled, Marked;
    if events != [] {
      NoPartialNoDrift(Step(a, events[0]), events[1..]);
    }
  }

  // ---- Marked equity --------------------------------------------------------

  ghost function MarketValues(a: Account): string -> real {
    s => Price(a.lastClose, s) * Held(a.positions, s) as real * PointValue(s)
  }

  /** Right after a mark, and whenever every open symbol has been marked, equity is the
      opening balance plus all cash moved plus the market value of what is held, plus
      whatever partial reductions have conjured up. */
  lemma {:induction false} MarkedEquity(start: real, isCombine: bool, events: seq<Event>, symbol: string, close: real)
    requires var b := Run(Opened(start, isCombine), events + [Mark(symbol, close)]);
             forall s :: s in b.positions ==> s in b.lastClose
    ensures var a := Opened(start, isCombine);
            var b := Run(a, events + [Mark(symbol, close)]);
            b.Equity() == start + CashFlow(events) + Drift(a, events) + SumReal(b.positions.Keys, MarketValues(b))
  {
    hide SumReal, Filled, Cash, FillDrift;
    var a := Opened(start, isCombine);
    var mid := Run(a, events);
    RunConcat(a, events, [Mark(symbol, close)]);
    var b := Marked(mid, symbol, close);
    assert Run(mid, [Mark(symbol, close)]) == b;
    CashIsConserved(a, events);
    MarkKeepsBasis(mid, symbol, close);
    EmptyBasis(start, isCombine);
    RunKeepsStart(a, events);
    CostPlusPnlIsValue(b);
  }

  lemma EmptyBasis(start: real, isCombine: bool)
    ensures Basis(Opened(start, isCombine)) == 0.0
  {
  }

  lemma {:induction false} RunKeepsStart(a: Account, events: seq<Event>)
    ensures Run(a, events).startBalance == a.startBalance && Run(a, events).isCombine == a.isCombine
    decreases |events|
  {
    hide TotalOpenPnl, PointValue, Realizes, AfterFill;
    if events != [] {
      RunKeepsStart(Step(a, events[0]), events[1..]);
    }
  }

  lemma CostPlusPnlIsValue(b: Account)
    requires forall s :: s in b.positions ==> s in b.lastClose
    ensures SumReal(b.positions.Keys, MarketValues(b))
         == TotalOpenPnl(b.positions, b.avgEntry, b.lastClose) + SumReal(b.positions.Keys, Costs(b))
  {
    hide SumReal, PointValue;
    var pnls := OpenPnls(b.positions, b.avgEntry, b.lastClose);
    forall s | s in b.positions.Keys
      ensures MarketValues(b)(s) == pnls(s) + Costs(b)(s)
    {
      ValueSplits(Price(b.lastClose, s), Price(b.avgEntry, s), Held(b.positions, s) as real, PointValue(s));
    }
    AddReal(b.positions.Keys, pnls, Costs(b), MarketValues(b));
  }

  lemma ValueSplits(mark: real, avg: real, qty: real, m: real)
    ensures mark * qty * m == (mark - avg) * qty * m + avg * qty * m
  {
  }
}
