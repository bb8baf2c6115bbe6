/** A bot of the closed loop inside the fleet: when the allocator turns down the close of a
    position it let the bot open. */
module FleetVeto {
  import opened Types
  import opened Markets
  import opened Ledger
  import opened Allocator
  import opened Fleet
  import opened GateRules
  import opened Gate
  import opened Strategies
  import opened LiveLoop
  import opened ClosedLoop

  /** Exactly when: the allocator denies the close of an idle bot's whole position if and only
      if the account without that position, everything reserved counted, is past the cap. */
  lemma CloseVetoedExactly(maxMini: int, f: Fleet, bot: string, close: OrderIntent)
    requires CanMove(f, Offer(bot, close)) && Registered(close.symbol)
    requires close.SignedQty() == -Held(f.bots[bot].account.positions, close.symbol)
    ensures Approval(maxMini, f.pending, bot, close, Positions(f)).1 == FleetDenied
       <==> Abs(Exposure(f, close.symbol) - Held(f.bots[bot].account.positions, close.symbol)) > FleetCap(maxMini,
           close.symbol)
  {
    hide Total, Registered, FleetCap;
  }

  /** A buys a cap and fills, B sells a cap and fills, C's sell of a cap is in flight. */
  function VetoMoves(up: OrderIntent, down: OrderIntent, price: real): seq<Move> {
    [Offer("a", up), FillAndSettle("a", price), Offer("b", down), FillAndSettle("b", price), Offer("c", down)]
  }

  /** It does happen: in a reachable state A is idle, holds the cap it was allowed, and its
      close is denied. */
  lemma CloseCanBeVetoed(maxMini: int, f: Fleet, up: OrderIntent, down: OrderIntent, price: real)
    requires Staged(maxMini, f, up, down)
    ensures CanRun(maxMini, f, VetoMoves(up, down, price))
    ensures var g := RunMoves(maxMini, f, VetoMoves(up, down, price));
            && CanMove(g, Offer("a", down))
            && Held(g.bots["a"].account.positions, up.symbol) == FleetCap(maxMini, up.symbol) > 0
            && Exposure(g, up.symbol) == -FleetCap(maxMini, up.symbol)
            && Approval(maxMini, g.pending, "a", down, Positions(g)).1 == FleetDenied
  {
    hide Total, Registered, FleetCap, Moved, CanRun, RunMoves, ReservesMatch, CanMove;
    CapIsPositive(maxMini, up.symbol);
    FlatTotals(f, up.symbol);
    FlatIsCapped(maxMini, f);
    IdleMayOffer(f, "a", up);
    var f1 := OfferAndFill(maxMini, f, "a", up, price);
    IdleMayOffer(f1, "b", down);
    var f2 := OfferAndFill(maxMini, f1, "b", down, price);
    IdleMayOffer(f2, "c", down);
    OfferThatFits(maxMini, f2, "c", down);
    FiveMoves(maxMini, f, up, down, price, f1, f2);
    var g := Moved(maxMini, f2, Offer("c", down));
    IdleMayOffer(g, "a", down);
    CloseVetoedExactly(maxMini, g, "a", down);
  }

  lemma IdleMayOffer(f: Fleet, bot: string, intent: OrderIntent)
    requires bot in f.bots && f.bots[bot].phase.Idle?
    ensures CanMove(f, Offer(bot, intent))
  {
  }

  /** One bot's order from offer to settlement. */
  lemma OfferAndFill(maxMini: int, f: Fleet, bot: string, intent: OrderIntent, price: real) returns (after: Fleet)
    requires CanMove(f, Offer(bot, intent)) && ReservesMatch(f) && Registered(intent.symbol)
    requires Abs(Exposure(f, intent.symbol) + intent.SignedQty()) <= FleetCap(maxMini, intent.symbol)
    ensures CanMove(Moved(maxMini, f, Offer(bot, intent)), FillAndSettle(bot, price))
    ensures after == Moved(maxMini, Moved(maxMini, f, Offer(bot, intent)), FillAndSettle(bot, price))
    ensures ReservesMatch(after) && Exposure(after, intent.symbol) == Exposure(f, intent.symbol) + intent.SignedQty()
    ensures after.bots.Keys == f.bots.Keys && after.bots[bot].phase.Idle?
    ensures forall b :: b in f.bots && b != bot ==> after.bots[b] == f.bots[b]
    ensures Held(after.bots[bot].account.positions, intent.symbol)
         == Held(f.bots[bot].account.positions, intent.symbol) + intent.SignedQty()
  {
    hide Total, Registered, FleetCap, ReservesMatch, Filled, Released;
    OfferThatFits(maxMini, f, bot, intent);
    OfferKeepsReserves(maxMini, f, bot, intent);
    var offered := Moved(maxMini, f, Offer(bot, intent));
    SettleKeepsReserves(maxMini, offered, bot, price);
    SettleKeepsExposure(maxMini, offered, bot, price);
    FillMovesQuantity(f.bots[bot].account, intent.symbol, intent.SignedQty(), price, intent.symbol);
    after := Moved(maxMini, offered, FillAndSettle(bot, price));
  }

  lemma FiveMoves(maxMini: int, f: Fleet, up: OrderIntent, down: OrderIntent, price: real, f1: Fleet, f2: Fleet)
    requires CanMove(f, Offer("a", up)) && CanMove(Moved(maxMini, f, Offer("a", up)), FillAndSettle("a", price))
    requires f1 == Moved(maxMini, Moved(maxMini, f, Offer("a", up)), FillAndSettle("a", price))
    requires CanMove(f1, Offer("b", down)) && CanMove(Moved(maxMini, f1, Offer("b", down)), FillAndSettle("b", price))
    requires f2 == Moved(maxMini, Moved(maxMini, f1, Offer("b", down)), FillAndSettle("b", price))
    requires CanMove(f2, Offer("c", down))
    ensures CanRun(maxMini, f, VetoMoves(up, down, price))
    ensures RunMoves(maxMini, f, VetoMoves(up, down, price)) == Moved(maxMini, f2, Offer("c", down))
  {
    hide Moved, CanMove, CanRun, RunMoves;
    var moves := VetoMoves(up, down, price);
    OneMove(maxMini, f, moves[0]);
    OneMoreMove(maxMini, f, [moves[0]], moves[1]);
    assert moves[..2] == [moves[0]] + [moves[1]];
    OneMoreMove(maxMini, f, moves[..2], moves[2]);
    assert moves[..3] == moves[..2] + [moves[2]];
    OneMoreMove(maxMini, f, moves[..3], moves[3]);
    assert moves[..4] == moves[..3] + [moves[3]];
    OneMoreMove(maxMini, f, moves[..4], moves[4]);
    assert moves == moves[..4] + [moves[4]];
  }

  // ---- The closed loop in the fleet -----------------------------------------------

  /** On this bar the loop's order meets the fleet in this state, in which the bot is idle and
      its tracker is the loop's own. */
  ghost predicate Meets(maxMini: int, f: Fleet, bot: string, x: Loop, cb: ClosedBar) {
    && cb.around(0).fleet == Some(FleetView(bot, maxMini, f.pending, Positions(f)))
    && bot in f.bots && f.bots[bot].phase.Idle?
    && f.bots[bot].account.positions == x.desk.account.positions
  }

  /** What a close needs, as something a caller can look up: the account without the bot's
      position is within the cap. */
  ghost predicate RoomToClose(maxMini: int, f: Fleet, x: Loop) {
    Registered(x.strategy.Symbol())
    && Abs(Exposure(f, x.strategy.Symbol()) - Position(x)) <= FleetCap(maxMini, x.strategy.Symbol())
  }

  /** A bar that closes a real position while the gate can approve. */
  ghost predicate Closes(rules: Rules, x: Loop, cb: ClosedBar)
    requires x.strategy.Valid()
  {
    && Alive(x) && Position(x) != 0 && Reached(x.desk, cb.live) && Orders(x, cb) != []
    && !Touches(rules, Shown(rules, x.desk, cb.live).1)
  }

  /** For a bot in the fleet, a bar keeps the invariant if and only if it does not close, or
      the close has room. */
  lemma FleetStepIsSafeExactly(rules: Rules, x: Loop, cb: ClosedBar, maxMini: int, f: Fleet, bot: string)
    requires Inv(rules, x) && Soft(rules) && x.strategy.Valid() && Meets(maxMini, f, bot, x, cb)
    ensures var (x', o) := ClosedStep(rules, x, cb);
            EndsWell(rules, x', o) <==> (Closes(rules, x, cb) ==> RoomToClose(maxMini, f, x))
  {
    hide ClosedStep, Inv, Total, Registered, FleetCap, Shown, Touches, Reached, EndsWell;
    StepIsSafeExactly(rules, x, cb);
  }

  /** And over whole runs: a run whose every bar meets the fleet in some state is safe
      throughout if and only if every close of it has room there. */
  ghost predicate RoomThroughout(rules: Rules, x: Loop, bars: seq<ClosedBar>, maxMini: int, fleets: seq<Fleet>)
    requires x.strategy.Valid() && |fleets| == |bars|
    decreases |bars|
  {
    bars != [] ==>
      && (Closes(rules, x, bars[0]) ==> RoomToClose(maxMini, fleets[0], x))
      && var (next, o) := ClosedStep(rules, x, bars[0]);
         (o.status == RUNNING ==> RoomThroughout(rules, next, bars[1..], maxMini, fleets[1..]))
  }

  ghost predicate MeetsThroughout(rules: Rules, x: Loop, bars: seq<ClosedBar>, maxMini: int, fleets: seq<Fleet>,
      bot: string)
    requires x.strategy.Valid() && |fleets| == |bars|
    decreases |bars|
  {
    bars != [] ==>
      && Meets(maxMini, fleets[0], bot, x, bars[0])
      && var (next, o) := ClosedStep(rules, x, bars[0]);
         (o.status == RUNNING ==> MeetsThroughout(rules, next, bars[1..], maxMini, fleets[1..], bot))
  }

  lemma {:induction false} FleetRunIsSafeExactly(rules: Rules, x: Loop, bars: seq<ClosedBar>, maxMini: int,
                                                 fleets: seq<Fleet>, bot: string)
    requires Inv(rules, x) && Soft(rules) && x.strategy.Valid() && |fleets| == |bars|
    requires MeetsThroughout(rules, x, bars, maxMini, fleets, bot)
    ensures EveryBarSafe(rules, x, bars) <==> RoomThroughout(rules, x, bars, maxMini, fleets)
    decreases |bars|
  {
    hide ClosedStep, Inv, RoomToClose, Closes, Meets, BarSafe, CloseFindsRoom;
    if bars != [] {
      var (next, o) := ClosedStep(rules, x, bars[0]);
      FleetStepIsSafeExactly(rules, x, bars[0], maxMini, fleets[0], bot);
      StepIsSafeExactly(rules, x, bars[0]);
      if CloseFindsRoom(rules, x, bars[0]) {
        StepIsSafe(rules, x, bars[0]);
        if o.status == RUNNING {
          FleetRunIsSafeExactly(rules, next, bars[1..], maxMini, fleets[1..], bot);
        }
      }
    }
  }

  /** The reachable denial strands: a loop that meets the fleet in that state and closes goes
      on with its contracts on the books and a strategy that believes it is flat. */
  lemma ReachableVetoStrands(maxMini: int, f: Fleet, up: OrderIntent, down: OrderIntent, price: real,
                             rules: Rules, x: Loop, cb: ClosedBar)
    requires Staged(maxMini, f, up, down)
    requires Inv(rules, x) && Soft(rules) && x.strategy.Valid() && x.strategy.Symbol() == up.symbol
    requires CanRun(maxMini, f, VetoMoves(up, down, price))
             && Meets(maxMini, RunMoves(maxMini, f, VetoMoves(up, down, price)), "a", x, cb)
    requires Closes(rules, x, cb)
    ensures var (x', o) := ClosedStep(rules, x, cb);
            && o.status == RUNNING && Alive(x') && Stranded(x') && Position(x') == FleetCap(maxMini, up.symbol)
  {
    hide ClosedStep, Inv, Total, Registered, FleetCap, Shown, Touches, Reached, CanRun, RunMoves, Stranded, Alive,
        Orders;
    CloseCanBeVetoed(maxMini, f, up, down, price);
    VetoedCloseStrands(rules, x, cb);
  }
}
