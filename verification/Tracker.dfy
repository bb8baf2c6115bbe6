/** The in-memory tracker that feeds the gate its account snapshots. */
module Tracker {
  import opened Types
  import opened Markets
  import opened Sums
  import opened Ledger

  class AccountStateTracker {
    const startBalance: real
    const isCombine: bool
    var realized: real
    var unrealized: real
    var positions: map<string, int>
    var avgEntry: map<string, real>
    var highWater: real
    var lastClose: map<string, real>

    function Value(): Account
      reads this
    {
      Account(startBalance, isCombine, realized, unrealized, positions, avgEntry, highWater, lastClose)
    }

    ghost predicate Valid()
      reads this
    {
      WellFormed(Value())
    }

    /** Every position is in a registered symbol, as the gate sees to. */
    ghost predicate AllPriced()
      reads this
    {
      Priced(Value())
    }

    constructor (startBalance: real, isCombine: bool)
      ensures Valid() && AllPriced() && Value() == Opened(startBalance, isCombine)
    {
      this.startBalance, this.isCombine := startBalance, isCombine;
      realized, unrealized := 0.0, 0.0;
      positions, avgEntry := map[], map[];
      highWater, lastClose := startBalance, map[];
    }

    /** A lookup of an unregistered symbol raises and leaves the books where they are. */
    method RecordFill(symbol: string, signedQty: int, fillPrice: real) returns (raised: bool)
      requires Valid()
      modifies this
      ensures Valid() && (raised <==> FillRaises(old(Value()), symbol, signedQty, fillPrice))
      ensures Value() == if raised then FillStopped(old(Value()), symbol, signedQty, fillPrice)
                         else Filled(old(Value()), symbol, signedQty, fillPrice)
    {
      hide Registered, PointValue, Refreshed, Average, ClosedQty, RefreshRaises, Opposed;
      var current := Held(positions, symbol);
      if current == 0 {
        positions := positions[symbol := signedQty];
        avgEntry := avgEntry[symbol := fillPrice];
        return false;
      }
      var newQty := current + signedQty;
      var crosses := current * newQty < 0;
      assert crosses <==> Opposed(current, newQty) by { OpposedIsNegativeProduct(current, newQty); }
      if newQty == 0 || crosses {
        var closedSignedQty := ClosedQty(current, signedQty);
        raised := RealizePnl(symbol, closedSignedQty, fillPrice);
        if raised {
          return;
        }
        assert Value() == Realized(old(Value()), symbol, signedQty, fillPrice);
        if newQty == 0 {
          positions := positions - {symbol};
          avgEntry := avgEntry - {symbol};
        } else {
          positions := positions[symbol := newQty];
          avgEntry := avgEntry[symbol := fillPrice];
        }
      } else {
        var oldLeg := Leg(current, avgEntry[symbol]);
        avgEntry := avgEntry[symbol := Average(oldLeg, signedQty, fillPrice)];
        positions := positions[symbol := newQty];
      }
      assert Value() == Booked(old(Value()), symbol, signedQty, fillPrice);
      raised := RecomputeUnrealized();
    }

    method RealizePnl(symbol: string, closedSignedQty: int, exitPrice: real) returns (raised: bool)
      requires symbol in avgEntry
      modifies this`realized
      ensures raised <==> !Registered(symbol)
      ensures raised ==> realized == old(realized)
      ensures !raised ==> realized == old(realized)
                                      + (exitPrice - avgEntry[symbol]) * closedSignedQty as real * PointValue(symbol)
    {
      if !Registered(symbol) {
        return true;
      }
      var entry := avgEntry[symbol];
      realized := realized + (exitPrice - entry) * closedSignedQty as real * PointValue(symbol);
      return false;
    }

    method MarkToMarket(bar: Bar) returns (raised: bool)
      requires Valid()
      modifies this
      ensures Valid()
      ensures var marked := old(Value()).(lastClose := old(lastClose)[bar.symbol := bar.close]);
              && (raised <==> RefreshRaises(marked))
              && Value() == if raised then marked else Marked(old(Value()), bar.symbol, bar.close)
    {
      lastClose := lastClose[bar.symbol := bar.close];
      raised := RecomputeUnrealized();
    }

    method RecomputeUnrealized() returns (raised: bool)
      requires positions.Keys == avgEntry.Keys
      modifies this`unrealized, this`highWater
      ensures raised <==> RefreshRaises(old(Value()))
      ensures Value() == if raised then old(Value()) else Refreshed(old(Value()))
    {
      hide LegPnl, SumReal, Registered;
      ghost var pnls := OpenPnls(positions, avgEntry, lastClose);
      var total := 0.0;
      var rest := positions.Keys;
      while rest != {}
        invariant rest <= positions.Keys && Value() == old(Value())
        invariant forall s :: s in positions.Keys - rest && s in lastClose ==> Registered(s)
        invariant total + SumReal(rest, pnls) == SumReal(positions.Keys, pnls)
        decreases rest
      {
        var symbol :| symbol in rest;
        TakeReal(rest, pnls, symbol);
        assert pnls(symbol) == OpenPnl(positions, avgEntry, lastClose, symbol);
        if symbol in lastClose {
          if !Registered(symbol) {
            return true;
          }
          total := total + LegPnl(Leg(positions[symbol], avgEntry[symbol]), lastClose[symbol], symbol);
        }
        rest := rest - {symbol};
      }
      EmptySum(pnls);
      assert rest == {};
      unrealized := total;
      var equity := startBalance + realized + unrealized;
      if equity > highWater {
        highWater := equity;
      }
      return false;
    }

    method Snapshot(at: Timestamp) returns (state: AccountState)
      ensures state == SnapshotOf(Value(), at)
    {
      var equity := startBalance + realized + unrealized;
      state := AccountState(equity, realized, unrealized, positions, highWater, isCombine, at, false, None,
          startBalance);
    }
  }
}
