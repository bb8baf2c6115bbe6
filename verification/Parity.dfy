/** The backtest tracker and the simulated broker account run side by side. */
module Parity {
  import opened Types
  import opened Markets
  import opened Sums
  import opened Ledger
  import opened SimAccount

  /** The same open symbols, bare roots all of them, with the same non-zero legs. */
  ghost predicate SameBooks(t: Account, s: SimAccount) {
    && t.positions.Keys == t.avgEntry.Keys
    && t.positions.Keys == s.openPositions.Keys
    && forall k :: k in s.openPositions ==>
         IsRoot(k) && s.openPositions[k].qty != 0 && LegOf(t, k) == s.openPositions[k]
  }

  ghost predicate SameFigures(t: Account, s: SimAccount) {
    && t.startBalance == s.startBalance
    && t.realized == s.realized
    && t.unrealized == s.unrealized
    && t.Equity() == s.equity
    && t.highWater == s.highWater
    && t.lastClose == s.lastMark
  }

  /** Equal positions, averages, realized, unrealized, equity, high-water and marks, with
      open P&L up to date. */
  ghost predicate Same(t: Account, s: SimAccount) {
    SameBooks(t, s) && SameFigures(t, s) && Balanced(s)
  }

  /** What a fill must satisfy for the two ledgers to stay together: an opening fill is at
      the symbol's latest mark, if it has one, and no fill reduces a position partially
      (save at exactly minus the average price, where the two formulas coincide). */
  predicate InStep(t: Account, symbol: string, signedQty: int, price: real) {
    if Held(t.positions, symbol) == 0 then symbol !in t.lastClose || t.lastClose[symbol] == price
    else PartialReduction(Held(t.positions, symbol), signedQty) ==> price == -Price(t.avgEntry, symbol)
  }

  lemma FreshIsSame(start: real, isCombine: bool, stage: Stage)
    ensures Same(Opened(start, isCombine), NewAccount(start, stage))
  {
    NewIsBalanced(start, stage);
  }

  lemma SameTotals(t: Account, s: SimAccount)
    requires SameBooks(t, s) && t.lastClose == s.lastMark
    ensures TotalOpenPnl(t.positions, t.avgEntry, t.lastClose) == TotalSimPnl(s.openPositions, s.lastMark)
  {
    var f, g := OpenPnls(t.positions, t.avgEntry, t.lastClose), SimPnls(s.openPositions, s.lastMark);
    forall k | k in t.positions.Keys
      ensures f(k) == g(k)
    {
      TickRatioIsPointValue(k);
      PnlsAgree(t, s, k);
    }
    SameReal(t.positions.Keys, f, g);
  }

  lemma PnlsAgree(t: Account, s: SimAccount, k: string)
    requires k in s.openPositions && LegOf(t, k) == s.openPositions[k] && t.lastClose == s.lastMark
    requires TickRatio(k) == PointValue(k)
    ensures OpenPnl(t.positions, t.avgEntry, t.lastClose, k) == SimPnl(s.openPositions, s.lastMark, k)
  {
    hide TickRatio, PointValue;
  }

  lemma MarkKeepsSame(t: Account, s: SimAccount, symbol: string, close: real)
    requires Same(t, s)
    ensures Same(Marked(t, symbol, close), SimMarked(s, symbol, close))
  {
    hide TotalOpenPnl, TotalSimPnl, IsRoot;
    var marks := t.lastClose[symbol := close];
    SameTotals(t.(lastClose := marks), s.(lastMark := marks));
  }

  // ---- One leg --------------------------------------------------------------

  /** The two averaging rules differ on partial reductions only. */
  lemma LegsAgree(leg: Leg, signedQty: int, price: real)
    requires leg.qty != 0 && signedQty != 0
    ensures SimRealizes(leg, signedQty, price) == Realizes(leg, signedQty, price)
    ensures AfterSimFill(leg, signedQty, price) == AfterFill(leg, signedQty, price)
        <==> (PartialReduction(leg.qty, signedQty) ==> price == -leg.avg)
    ensures AfterSimFill(leg, signedQty, price).qty == AfterFill(leg, signedQty, price).qty == leg.qty + signedQty
  {
    hide Average;
    var next := leg.qty + signedQty;
    if PartialReduction(leg.qty, signedQty) {
      var mean := Average(leg, signedQty, price);
      assert AfterFill(leg, signedQty, price) == Leg(next, mean);
      AverageTimesCount(leg, signedQty, price);
      assert Abs(leg.qty) as real == Abs(next) as real + Abs(signedQty) as real;
      AveragesCoincide(leg.avg, price, Abs(next) as real, Abs(signedQty) as real, mean);
      assert AfterSimFill(leg, signedQty, price) == Leg(next, leg.avg);
    }
  }

  lemma AverageTimesCount(leg: Leg, signedQty: int, price: real)
    requires leg.qty + signedQty != 0
    ensures Average(leg, signedQty, price) * Abs(leg.qty + signedQty) as real
         == leg.avg * Abs(leg.qty) as real + price * Abs(signedQty) as real
  {
  }

  lemma AveragesCoincide(avg: real, price: real, left: real, moved: real, mean: real)
    requires left > 0.0 && moved > 0.0
    requires mean * left == avg * (left + moved) + price * moved
    ensures mean == avg <==> price == -avg
  {
    assert (mean - avg) * left == (avg + price) * moved;
  }

  // ---- The books ------------------------------------------------------------

  /** Replacing one leg by the same non-zero leg, or dropping it, on both sides. */
  lemma BooksAfterLeg(t: Account, s: SimAccount, t': Account, s': SimAccount, symbol: string)
    requires SameBooks(t, s) && IsRoot(symbol)
    requires forall k :: k != symbol ==> SameLeg(t, t', k)
    requires t'.positions.Keys == t'.avgEntry.Keys
    requires s'.openPositions - {symbol} == s.openPositions - {symbol}
    requires symbol in s'.openPositions <==> symbol in t'.positions
    requires symbol in s'.openPositions ==> s'.openPositions[symbol].qty != 0
    ensures SameBooks(t', s') <==> (symbol in s'.openPositions ==> LegOf(t', symbol) == s'.openPositions[symbol])
  {
    hide IsRoot;
    forall k | k != symbol
      ensures k in s'.openPositions <==> k in s.openPositions
      ensures k in s'.openPositions ==> s'.openPositions[k] == s.openPositions[k]
    {
      assert k in s'.openPositions <==> k in s'.openPositions - {symbol};
      assert k in s.openPositions <==> k in s.openPositions - {symbol};
      if k in s'.openPositions {
        assert (s'.openPositions - {symbol})[k] == (s.openPositions - {symbol})[k];
      }
    }
    forall k | k != symbol
      ensures k in s'.openPositions <==> k in t'.positions
      ensures k in s'.openPositions ==> IsRoot(k) && s'.openPositions[k].qty != 0 && LegOf(t', k) == s'.openPositions[k]
    {
      assert SameLeg(t, t', k);
    }
    assert t'.positions.Keys == s'.openPositions.Keys;
  }

  /** Both books move alike under any non-zero fill but a partial reduction. */
  lemma BooksAfterFill(t: Account, s: SimAccount, symbol: string, signedQty: int, price: real)
    requires SameBooks(t, s) && IsRoot(symbol) && signedQty != 0
    ensures var held := Held(t.positions, symbol);
            SameBooks(Filled(t, symbol, signedQty, price), SimFilled(s, symbol, signedQty, price))
            <==> (held != 0 && PartialReduction(held, signedQty) ==> price == -Price(t.avgEntry, symbol))
  {
    hide TotalOpenPnl, TotalSimPnl, Average, ClosedQty, IsRoot, TickRatio, PointValue, AfterFill, AfterSimFill,
        Realizes, SimRealizes, PartialReduction;
    var leg := LegOf(t, symbol);
    var t', s' := Filled(t, symbol, signedQty, price), SimFilled(s, symbol, signedQty, price);
    FillKeepsOtherLegs(t, symbol, signedQty, price);
    if leg.qty == 0 {
      assert symbol !in s.openPositions;
      BooksAfterLeg(t, s, t', s', symbol);
    } else {
      LegsAgree(leg, signedQty, price);
      BooksAfterLeg(t, s, t', s', symbol);
      assert leg.qty + signedQty == 0
             ==> !PartialReduction(leg.qty, signedQty) by { ExactCloseIsNotPartial(leg.qty, signedQty); }
    }
  }

  lemma ExactCloseIsNotPartial(current: int, signedQty: int)
    ensures current + signedQty == 0 ==> !PartialReduction(current, signedQty)
  {
  }

  lemma RealizedAfterFill(t: Account, s: SimAccount, symbol: string, signedQty: int, price: real)
    requires SameBooks(t, s) && IsRoot(symbol) && signedQty != 0 && t.realized == s.realized
    ensures Filled(t, symbol, signedQty, price).realized == SimFilled(s, symbol, signedQty, price).realized
  {
    hide TotalOpenPnl, TotalSimPnl, IsRoot, TickRatio, PointValue, AfterFill, AfterSimFill, SimRealizes, Realizes;
    TickRatioIsPointValue(symbol);
    if Held(t.positions, symbol) != 0 {
      LegsAgree(LegOf(t, symbol), signedQty, price);
      assert LegOf(t, symbol) == s.openPositions[symbol];
    }
  }

  // ---- One fill -------------------------------------------------------------

  /** Opening a symbol adds that symbol's open P&L against its own mark, if it has one. */
  lemma OpeningPnl(s: SimAccount, symbol: string, signedQty: int, price: real)
    requires symbol !in s.openPositions
    ensures TotalSimPnl(s.openPositions[symbol := Leg(signedQty, price)], s.lastMark)
         == TotalSimPnl(s.openPositions, s.lastMark)
            + (if symbol in s.lastMark then (s.lastMark[symbol] - price) * signedQty as real * TickRatio(symbol)
                else 0.0)
  {
    hide TickRatio, SumReal;
    var after := s.openPositions[symbol := Leg(signedQty, price)];
    var f, g := SimPnls(s.openPositions, s.lastMark), SimPnls(after, s.lastMark);
    ChangeReal(s.openPositions.Keys, f, after.Keys, g, symbol);
    assert g(symbol) == SimPnl(after, s.lastMark, symbol);
  }

  lemma PnlIsZero(mark: real, price: real, qty: int, ratio: real)
    requires qty != 0 && ratio > 0.0
    ensures (mark - price) * qty as real * ratio == 0.0 <==> mark == price
  {
    if mark > price && qty > 0 { assert (mark - price) * qty as real > 0.0; }
    if mark > price && qty < 0 { assert (mark - price) * qty as real < 0.0; }
    if mark < price && qty > 0 { assert (mark - price) * qty as real < 0.0; }
    if mark < price && qty < 0 { assert (mark - price) * qty as real > 0.0; }
  }

  lemma OpeningStaysInStep(t: Account, s: SimAccount, symbol: string, signedQty: int, price: real)
    requires Same(t, s) && IsRoot(symbol) && signedQty != 0 && Held(t.positions, symbol) == 0
    ensures Same(Filled(t, symbol, signedQty, price), SimFilled(s, symbol, signedQty, price))
        <==> InStep(t, symbol, signedQty, price)
  {
    hide TotalSimPnl, TotalOpenPnl, SameBooks, TickRatio, IsRoot;
    assert symbol !in s.openPositions by { FlatIsAbsent(t, s, symbol); }
    BooksAfterFill(t, s, symbol, signedQty, price);
    OpeningPnl(s, symbol, signedQty, price);
    FillBalances(s, symbol, signedQty, price);
    if symbol in s.lastMark {
      TickRatioIsPositive(symbol);
      PnlIsZero(s.lastMark[symbol], price, signedQty, TickRatio(symbol));
    }
  }

  lemma FlatIsAbsent(t: Account, s: SimAccount, symbol: string)
    requires SameBooks(t, s) && Held(t.positions, symbol) == 0
    ensures symbol !in s.openPositions
  {
  }

  lemma TickRatioIsPositive(symbol: string)
    requires IsRoot(symbol)
    ensures TickRatio(symbol) > 0.0
  {
    TickRatioIsPointValue(symbol);
    ValuesArePositive(symbol);
  }

  lemma LaterFillStaysInStep(t: Account, s: SimAccount, symbol: string, signedQty: int, price: real)
    requires Same(t, s) && IsRoot(symbol) && signedQty != 0 && Held(t.positions, symbol) != 0
    ensures Same(Filled(t, symbol, signedQty, price), SimFilled(s, symbol, signedQty, price))
        <==> InStep(t, symbol, signedQty, price)
  {
    hide TotalSimPnl, TotalOpenPnl, SameBooks, TickRatio, IsRoot, SimBook, SimRealized, Realized, WithLeg,
        PartialReduction, AfterFill;
    var t', s' := Filled(t, symbol, signedQty, price), SimFilled(s, symbol, signedQty, price);
    BooksAfterFill(t, s, symbol, signedQty, price);
    RealizedAfterFill(t, s, symbol, signedQty, price);
    FillBalances(s, symbol, signedQty, price);
    if InStep(t, symbol, signedQty, price) {
      FillKeepsRest(t, symbol, signedQty, price);
      SameTotals(t', s');
    }
  }

  lemma FillKeepsRest(t: Account, symbol: string, signedQty: int, price: real)
    requires Held(t.positions, symbol) != 0
    ensures var t' := Filled(t, symbol, signedQty, price);
            && t'.lastClose == t.lastClose && t'.startBalance == t.startBalance
            && t'.unrealized == TotalOpenPnl(t'.positions, t'.avgEntry, t'.lastClose)
            && t'.highWater == Max(t.highWater, t'.Equity())
  {
    hide TotalOpenPnl, Realizes, PointValue, AfterFill;
  }

  /** Exactly the fills in step keep the two ledgers equal. */
  lemma FillKeepsSame(t: Account, s: SimAccount, symbol: string, signedQty: int, price: real)
    requires Same(t, s) && IsRoot(symbol) && signedQty != 0
    ensures Same(Filled(t, symbol, signedQty, price), SimFilled(s, symbol, signedQty, price))
        <==> InStep(t, symbol, signedQty, price)
  {
    hide Filled, SimFilled, Same, InStep, IsRoot;
    if Held(t.positions, symbol) == 0 {
      OpeningStaysInStep(t, s, symbol, signedQty, price);
    } else {
      LaterFillStaysInStep(t, s, symbol, signedQty, price);
    }
  }

  // ---- Whole streams --------------------------------------------------------

  ghost function SimStep(s: SimAccount, e: Event): SimAccount {
    match e
    case Mark(symbol, close) => SimMarked(s, symbol, close)
    case Fill(symbol, signedQty, price) => SimFilled(s, symbol, signedQty, price)
  }

  /** The events both ledgers accept: fills are non-zero and on bare-root symbols. */
  predicate Tradable(e: Event) {
    e.Fill? ==> IsRoot(e.symbol) && e.signedQty != 0
  }

  /** The ledgers agree now and after every further event. */
  ghost predicate AlwaysSame(t: Account, s: SimAccount, events: seq<Event>)
    decreases |events|
  {
    Same(t, s) && (events != [] ==> AlwaysSame(Step(t, events[0]), SimStep(s, events[0]), events[1..]))
  }

  /** Every fill of the stream is in step with the ledger it meets. */
  ghost predicate AllInStep(t: Account, events: seq<Event>)
    decreases |events|
  {
    events != [] ==>
      && (events[0].Fill? ==> InStep(t, events[0].symbol, events[0].signedQty, events[0].price))
      && AllInStep(Step(t, events[0]), events[1..])
  }

  /** Over every stream of marks and non-zero fills the tracker and the broker account agree
      after each event if and only if every fill is in step. */
  lemma {:induction false} LedgersAgree(t: Account, s: SimAccount, events: seq<Event>)
    requires Same(t, s) && forall i :: 0 <= i < |events| ==> Tradable(events[i])
    ensures AlwaysSame(t, s, events) <==> AllInStep(t, events)
    decreases |events|
  {
    hide Filled, SimFilled, Same, InStep, IsRoot, Marked, SimMarked;
    if events != [] {
      var e := events[0];
      assert Tradable(e);
      match e {
        case Mark(symbol, close) => MarkKeepsSame(t, s, symbol, close);
        case Fill(symbol, signedQty, price) => FillKeepsSame(t, s, symbol, signedQty, price);
      }
      if Same(Step(t, e), SimStep(s, e)) {
        forall i | 0 <= i < |events[1..]|
          ensures Tradable(events[1..][i])
        {
          assert events[1..][i] == events[i + 1];
        }
        LedgersAgree(Step(t, e), SimStep(s, e), events[1..]);
      }
    }
  }
}
