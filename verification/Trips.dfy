/** What a round trip is, read off the list of fills alone, and that the proof bundle's walker
    finds exactly the round trips. */
module Trips {
  import opened Types
  import opened Markets
  import opened Ledger
  import opened RoundTrips

  /** Contracts of a symbol held after the first k fills. */
  function NetAt(fills: seq<RawFill>, symbol: string, k: nat): int
    requires k <= |fills|
  {
    if k == 0 then 0
    else NetAt(fills, symbol, k - 1) + (if fills[k - 1].symbol == symbol then fills[k - 1].SignedQty() else 0)
  }

  /** Points times contracts the fills of a symbol from place i to before place k bring in. */
  function CashBetween(fills: seq<RawFill>, symbol: string, i: nat, k: nat): real
    requires i <= k <= |fills|
    decreases k
  {
    if i == k then 0.0
    else
      CashBetween(fills, symbol, i, k - 1)
      + (if fills[k - 1].symbol == symbol then Flow(fills[k - 1].SignedQty(), fills[k - 1].price) else 0.0)
  }

  /** The fill at j brings its symbol back to flat. */
  predicate ClosesAt(fills: seq<RawFill>, j: nat)
    requires j < |fills|
  {
    NetAt(fills, fills[j].symbol, j) != 0 && NetAt(fills, fills[j].symbol, j + 1) == 0
  }

  predicate IsLastBefore(fills: seq<RawFill>, symbol: string, m: nat, k: nat)
    requires m < k <= |fills|
  {
    fills[m].symbol == symbol && forall q :: m < q < k ==> fills[q].symbol != symbol
  }

  /** The last fill of the symbol before place k, if there is one, closed a trip. */
  predicate NothingOpen(fills: seq<RawFill>, symbol: string, k: nat)
    requires k <= |fills|
  {
    forall m :: 0 <= m < k && IsLastBefore(fills, symbol, m, k) ==> ClosesAt(fills, m)
  }

  predicate NoneCloses(fills: seq<RawFill>, symbol: string, i: nat, k: nat)
    requires k <= |fills|
  {
    forall m :: i <= m < k && fills[m].symbol == symbol ==> !ClosesAt(fills, m)
  }

  /** A trip from the fill at i, with nothing open before it, to the fill at j, the first to
      bring the symbol back to flat: its entry is the one, its exit the other, and its P&L all
      the cash the symbol moved in between, both ends included. */
  predicate IsTrip(fills: seq<RawFill>, i: nat, j: nat, t: ClosedTrade)
    requires i < j < |fills|
  {
    var symbol := fills[j].symbol;
    && fills[i].symbol == symbol && NothingOpen(fills, symbol, i)
    && NoneCloses(fills, symbol, i, j) && ClosesAt(fills, j)
    && t.entryTs == fills[i].ts && t.side == fills[i].side
    && t.entryPrice == fills[i].price && t.qty == fills[i].qty
    && t.exitTs == fills[j].ts && t.exitPrice == fills[j].price
    && t.pnl == Dollars(CashBetween(fills, symbol, i, j + 1), symbol)
  }

  /** The closing fills among the first k. */
  function CloseCount(fills: seq<RawFill>, k: nat): nat
    requires k <= |fills|
  {
    if k == 0 then 0 else CloseCount(fills, k - 1) + (if ClosesAt(fills, k - 1) then 1 else 0)
  }

  ghost predicate SomeTrip(fills: seq<RawFill>, j: nat, t: ClosedTrade)
    requires j < |fills|
  {
    exists i :: 0 <= i < j && IsTrip(fills, i, j, t)
  }

  // ---- The walk against it ------------------------------------------------------

  predicate IsLeg(fills: seq<RawFill>, symbol: string, i: nat, k: nat, leg: OpenLeg)
    requires i < k <= |fills|
  {
    && fills[i].symbol == symbol && NothingOpen(fills, symbol, i) && NoneCloses(fills, symbol, i, k)
    && leg.openerTs == fills[i].ts && leg.openerSide == fills[i].side
    && leg.openerPrice == fills[i].price && leg.openerQty == fills[i].qty
    && leg.qty == NetAt(fills, symbol, k)
    && leg.cash == CashBetween(fills, symbol, i, k)
  }

  ghost predicate SomeLeg(fills: seq<RawFill>, symbol: string, k: nat, leg: OpenLeg)
    requires k <= |fills|
  {
    exists i :: 0 <= i < k && IsLeg(fills, symbol, i, k, leg)
  }

  /** What the walker holds after the first k fills. */
  ghost predicate WalkedTo(fills: seq<RawFill>, k: nat, l: Legs)
    requires k <= |fills|
  {
    && (forall s :: s in l.open ==> SomeLeg(fills, s, k, l.open[s]))
    && (forall s :: s !in l.open ==> NothingOpen(fills, s, k) && NetAt(fills, s, k) == 0)
    && |l.trades| == CloseCount(fills, k)
    && (forall j :: 0 <= j < k && ClosesAt(fills, j) ==>
          CloseCount(fills, j) < |l.trades| && SomeTrip(fills, j, l.trades[CloseCount(fills, j)]))
  }

  lemma OtherSymbolStays(fills: seq<RawFill>, s: string, k: nat)
    requires k < |fills| && fills[k].symbol != s
    ensures NetAt(fills, s, k + 1) == NetAt(fills, s, k)
    ensures NothingOpen(fills, s, k) ==> NothingOpen(fills, s, k + 1)
    ensures forall i :: 0 <= i < k ==> CashBetween(fills, s, i, k + 1) == CashBetween(fills, s, i, k)
    ensures forall i :: 0 <= i < k && NoneCloses(fills, s, i, k) ==> NoneCloses(fills, s, i, k + 1)
  {
    hide ClosesAt;
    if NothingOpen(fills, s, k) {
      forall m | 0 <= m < k + 1 && IsLastBefore(fills, s, m, k + 1)
        ensures ClosesAt(fills, m)
      {
        assert m < k && IsLastBefore(fills, s, m, k);
      }
    }
  }

  lemma OtherLegStays(fills: seq<RawFill>, s: string, k: nat, leg: OpenLeg)
    requires k < |fills| && fills[k].symbol != s && SomeLeg(fills, s, k, leg)
    ensures SomeLeg(fills, s, k + 1, leg)
  {
    hide ClosesAt, NothingOpen, NoneCloses, NetAt, CashBetween;
    OtherSymbolStays(fills, s, k);
    var i :| 0 <= i < k && IsLeg(fills, s, i, k, leg);
    assert IsLeg(fills, s, i, k + 1, leg);
  }

  /** The first fill of a symbol with nothing open starts a leg. */
  lemma OpensLeg(fills: seq<RawFill>, k: nat)
    requires k < |fills|
    requires var s := fills[k].symbol; NothingOpen(fills, s, k) && NetAt(fills, s, k) == 0
    ensures var fill := fills[k];
            && !ClosesAt(fills, k)
            && SomeLeg(fills, fill.symbol, k + 1,
                       OpenLeg(fill.SignedQty(), Flow(fill.SignedQty(), fill.price), fill.ts, fill.price, fill.side,
                               fill.qty))
  {
    hide NothingOpen, Flow;
    var fill := fills[k];
    assert CashBetween(fills, fill.symbol, k, k) == 0.0;
    assert IsLeg(fills, fill.symbol, k, k + 1,
                 OpenLeg(fill.SignedQty(), Flow(fill.SignedQty(), fill.price), fill.ts, fill.price, fill.side,
                         fill.qty));
  }

  /** A further fill extends the leg or closes the trip. */
  lemma ContinuesLeg(fills: seq<RawFill>, k: nat, leg: OpenLeg)
    requires k < |fills| && SomeLeg(fills, fills[k].symbol, k, leg)
    ensures var fill := fills[k];
            var qty, cash := leg.qty + fill.SignedQty(), leg.cash + Flow(fill.SignedQty(), fill.price);
            if qty == 0 && leg.qty != 0 then
              && ClosesAt(fills, k) && NothingOpen(fills, fill.symbol, k + 1) && NetAt(fills, fill.symbol, k + 1) == 0
              && SomeTrip(fills, k, ClosedTrade(leg.openerTs, fill.ts, leg.openerSide, leg.openerPrice, fill.price,
                                                leg.openerQty, Dollars(cash, fill.symbol)))
            else !ClosesAt(fills, k) && SomeLeg(fills, fill.symbol, k + 1, leg.(qty := qty, cash := cash))
  {
    hide NothingOpen, Dollars, Flow;
    var fill := fills[k];
    var i :| 0 <= i < k && IsLeg(fills, fill.symbol, i, k, leg);
    var qty, cash := leg.qty + fill.SignedQty(), leg.cash + Flow(fill.SignedQty(), fill.price);
    assert CashBetween(fills, fill.symbol, i, k + 1) == cash;
    assert NetAt(fills, fill.symbol, k + 1) == qty;
    if qty == 0 && leg.qty != 0 {
      ClosedLeavesNothing(fills, k);
      assert IsTrip(fills, i, k, ClosedTrade(leg.openerTs, fill.ts, leg.openerSide, leg.openerPrice, fill.price,
                                             leg.openerQty, Dollars(cash, fill.symbol)));
    } else {
      assert IsLeg(fills, fill.symbol, i, k + 1, leg.(qty := qty, cash := cash));
    }
  }

  lemma ClosedLeavesNothing(fills: seq<RawFill>, k: nat)
    requires k < |fills| && ClosesAt(fills, k)
    ensures NothingOpen(fills, fills[k].symbol, k + 1)
  {
    hide ClosesAt;
  }

  lemma WalkStep(fills: seq<RawFill>, k: nat, l: Legs)
    requires k < |fills| && WalkedTo(fills, k, l)
    ensures WalkedTo(fills, k + 1, LegsAfter(l, fills[k]))
  {
    hide SomeLeg, SomeTrip, NothingOpen, NetAt, ClosesAt, Dollars, Flow;
    var fill := fills[k];
    var after := LegsAfter(l, fill);
    if fill.symbol in l.open {
      ContinuesLeg(fills, k, l.open[fill.symbol]);
    } else {
      OpensLeg(fills, k);
    }
    forall s | s != fill.symbol
      ensures s in after.open ==> SomeLeg(fills, s, k + 1, after.open[s])
      ensures s !in after.open ==> NothingOpen(fills, s, k + 1) && NetAt(fills, s, k + 1) == 0
    {
      OtherSymbolStays(fills, s, k);
      if s in l.open {
        OtherLegStays(fills, s, k, l.open[s]);
      }
    }
  }

  lemma {:induction false} LegsSnoc(l: Legs, fills: seq<RawFill>, fill: RawFill)
    ensures LegsAfterAll(l, fills + [fill]) == LegsAfter(LegsAfterAll(l, fills), fill)
    decreases |fills|
  {
    hide LegsAfter;
    if fills == [] {
      assert [] + [fill] == [fill] && [fill][1..] == [];
    } else {
      assert (fills + [fill])[1..] == fills[1..] + [fill];
      LegsSnoc(LegsAfter(l, fills[0]), fills[1..], fill);
    }
  }

  lemma {:induction false} WalkReaches(fills: seq<RawFill>, k: nat)
    requires k <= |fills|
    ensures WalkedTo(fills, k, LegsAfterAll(NO_LEGS, fills[..k]))
    decreases k
  {
    hide LegsAfter, SomeLeg, SomeTrip, ClosesAt;
    if k > 0 {
      WalkReaches(fills, k - 1);
      assert fills[..k] == fills[..k - 1] + [fills[k - 1]];
      LegsSnoc(NO_LEGS, fills[..k - 1], fills[k - 1]);
      WalkStep(fills, k - 1, LegsAfterAll(NO_LEGS, fills[..k - 1]));
    }
  }

  /** The walker's trades are exactly the round trips of the list: one for every fill that
      brings its symbol back to flat, in that order, running from the fill that opened it. */
  lemma TradesAreTrips(fills: seq<RawFill>)
    ensures var trades := LegsAfterAll(NO_LEGS, fills).trades;
            && |trades| == CloseCount(fills, |fills|)
            && forall j :: 0 <= j < |fills| && ClosesAt(fills, j) ==>
                 CloseCount(fills, j) < |trades| && SomeTrip(fills, j, trades[CloseCount(fills, j)])
  {
    hide LegsAfter, SomeLeg, SomeTrip, ClosesAt;
    WalkReaches(fills, |fills|);
    assert fills[..|fills|] == fills;
  }

  /** So the report's list is the P&L of those trips, order by order, for orders filled in full. */
  lemma ReportListsTrips(orders: seq<(OrderIntent, OrderEvent)>)
    requires FilledInFull(orders)
    ensures var fills := RawFillsOf(orders);
            var pnls := RoundTripPnls(FillsOf(orders));
            && |pnls| == CloseCount(fills, |fills|)
            && forall j :: 0 <= j < |fills| && ClosesAt(fills, j) ==>
                 CloseCount(fills, j) < |pnls| && TripEarns(fills, j, pnls[CloseCount(fills, j)])
  {
    hide SomeTrip, ClosesAt, WalkAll, LegsAfterAll, FilledInFull, CloseCount;
    var fills := RawFillsOf(orders);
    var trades := LegsAfterAll(NO_LEGS, fills).trades;
    WalkersAgree(orders);
    TradesAreTrips(fills);
    forall j | 0 <= j < |fills| && ClosesAt(fills, j)
      ensures CloseCount(fills, j) < |trades| && TripEarns(fills, j, Pnls(trades)[CloseCount(fills, j)])
    {
      assert SomeTrip(fills, j, trades[CloseCount(fills, j)]);
    }
  }

  ghost predicate TripEarns(fills: seq<RawFill>, j: nat, pnl: real)
    requires j < |fills|
  {
    exists t :: SomeTrip(fills, j, t) && t.pnl == pnl
  }

  /** Where every event has a price, the fills are the events one by one, with the order's
      symbol and side. */
  lemma {:induction false} RawFillsAreEvents(orders: seq<(OrderIntent, OrderEvent)>)
    requires forall i :: 0 <= i < |orders| ==> orders[i].1.avgFillPrice.Some?
    ensures var fills := RawFillsOf(orders);
            && |fills| == |orders|
            && forall i :: 0 <= i < |orders| ==> IsRawFill(orders[i].0, orders[i].1, fills[i])
    decreases |orders|
  {
    if orders != [] {
      RawFillsAreEvents(orders[1..]);
    }
  }

  predicate IsRawFill(order: OrderIntent, event: OrderEvent, fill: RawFill)
    requires event.avgFillPrice.Some?
  {
    && fill.symbol == order.symbol && fill.side == order.side
    && fill.qty == event.filledQuantity && fill.price == event.avgFillPrice.value && fill.ts == event.timestamp
  }
}
