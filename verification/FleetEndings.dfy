/** How far a fleet can still move once its bots offer nothing more: orders in flight fill or
    fail, reservations are released, one after the other in any order. */
module FleetEndings {
  import opened Types
  import opened Markets
  import opened Sums
  import opened Ledger
  import opened Allocator
  import opened Fleet

  /** The ends a reservation can come to. `Rejected` is the release of one without a fill, as
      the allocator offers it for orders a broker turns down. */
  datatype Ending = Fills(bot: string, price: real) | Fails(bot: string) | Rejected(bot: string)

  predicate CanEnd(f: Fleet, e: Ending) {
    match e
    case Fills(bot, price) => CanMove(f, FillAndSettle(bot, price))
    case Fails(bot) => CanMove(f, Fail(bot))
    case Rejected(bot) => Reserving(f, bot).Some?
  }

  ghost function Ended(maxMini: int, f: Fleet, e: Ending): Fleet
    requires CanEnd(f, e)
  {
    match e
    case Fills(bot, price) => Moved(maxMini, f, FillAndSettle(bot, price))
    case Fails(bot) => Moved(maxMini, f, Fail(bot))
    case Rejected(bot) =>
      var intent := Reserving(f, bot).value;
      var phase := if f.bots[bot].phase.InFlight? then Idle else Crashed(None);
      Fleet(f.bots[bot := f.bots[bot].(phase := phase)], Released(f.pending, bot, intent.symbol, intent.SignedQty()))
  }

  ghost predicate CanEndAll(maxMini: int, f: Fleet, es: seq<Ending>)
    decreases |es|
  {
    es == [] || (CanEnd(f, es[0]) && CanEndAll(maxMini, Ended(maxMini, f, es[0]), es[1..]))
  }

  ghost function EndAll(maxMini: int, f: Fleet, es: seq<Ending>): Fleet
    requires CanEndAll(maxMini, f, es)
    decreases |es|
  {
    if es == [] then f else EndAll(maxMini, Ended(maxMini, f, es[0]), es[1..])
  }

  predicate NoRejects(es: seq<Ending>) {
    forall e :: e in es ==> !e.Rejected?
  }

  // ---- How far one side reaches ---------------------------------------------------

  /** +1 for the long side, -1 for the short side. */
  newtype Way = w: int | w == 1 || w == -1 witness 1

  /** A quantity counted in one direction. */
  function Along(way: Way, quantity: int): int {
    way as int * quantity
  }

  /** The part of a quantity that lies on one side. */
  function OnSide(way: Way, quantity: int): int {
    if Along(way, quantity) > 0 then Along(way, quantity) else 0
  }

  /** What a bot has reserved; `live` leaves out what a dead bot can no longer fill. */
  function Reserve(f: Fleet, bot: string, symbol: string, live: bool): int {
    if live && (bot !in f.bots || !f.bots[bot].phase.InFlight?) then 0 else OwnReserve(f, bot, symbol)
  }

  ghost function SideReserves(f: Fleet, symbol: string, way: Way, live: bool): string -> int {
    bot => OnSide(way, Reserve(f, bot, symbol, live))
  }

  /** All reservations on one side of a symbol. */
  ghost function Side(f: Fleet, symbol: string, way: Way, live: bool): int {
    SumInt(f.bots.Keys, SideReserves(f, symbol, way, live))
  }

  /** The settled contracts with every reservation of one side filled: the furthest the
      account can go that way. */
  ghost function Reach(f: Fleet, symbol: string, way: Way, live: bool): int {
    Along(way, Total(Positions(f), symbol)) + Side(f, symbol, way, live)
  }

  lemma SideCounts(f: Fleet, symbol: string, way: Way, live: bool)
    ensures Side(f, symbol, way, live) >= 0
    ensures Side(f, symbol, way, live) == 0
       <==> forall b :: b in f.bots ==> OnSide(way, Reserve(f, b, symbol, live)) == 0
  {
    var reserves := SideReserves(f, symbol, way, live);
    NoneNegative(f.bots.Keys, reserves);
    assert forall b :: b in f.bots.Keys ==> reserves(b) == OnSide(way, Reserve(f, b, symbol, live));
  }

  /** The two sides together are everything reserved. */
  lemma SidesAreTotal(f: Fleet, symbol: string)
    requires ReservesMatch(f)
    ensures Total(f.pending, symbol) == Side(f, symbol, 1, false) - Side(f, symbol, -1, false)
  {
    var longs, shorts := SideReserves(f, symbol, 1, false), SideReserves(f, symbol, -1, false);
    var nets := Nets(f.pending, symbol);
    forall b
      ensures nets(b) + shorts(b) == longs(b) && (b !in f.bots || b !in f.pending ==> nets(b) == 0)
    {
      assert Net(f.pending, b, symbol) == OwnReserve(f, b, symbol);
    }
    SameCounted(f.pending.Keys, f.bots.Keys, nets);
    AddInt(f.bots.Keys, nets, shorts, longs);
  }

  /** A change confined to one bot moves a side by that bot's change. */
  lemma SideMoves(f: Fleet, after: Fleet, bot: string, symbol: string, way: Way, live: bool)
    requires bot in f.bots && after.bots.Keys == f.bots.Keys
    requires forall b :: b in f.bots && b != bot ==> after.bots[b] == f.bots[b]
    ensures Side(after, symbol, way, live)
         == Side(f, symbol, way, live)
             + OnSide(way, Reserve(after, bot, symbol, live)) - OnSide(way, Reserve(f, bot, symbol, live))
  {
    ChangeInt(f.bots.Keys, SideReserves(f, symbol, way, live), after.bots.Keys,
        SideReserves(after, symbol, way, live), bot);
  }

  /** What an ending does to its own bot. */
  lemma EndTouchesOne(maxMini: int, f: Fleet, e: Ending)
    requires CanEnd(f, e) && ReservesMatch(f)
    ensures var after := Ended(maxMini, f, e);
            && e.bot in f.bots && after.bots.Keys == f.bots.Keys
            && (forall b :: b in f.bots && b != e.bot ==> after.bots[b] == f.bots[b])
            && ReservesMatch(after)
  {
    hide Total, Filled;
    match e
    case Fills(bot, price) => SettleKeepsReserves(maxMini, f, bot, price);
    case Fails(bot) => OthersMoveNothing(maxMini, f, Fail(bot));
    case Rejected(bot) => RejectKeepsReserves(maxMini, f, bot);
  }

  lemma RejectKeepsReserves(maxMini: int, f: Fleet, bot: string)
    requires ReservesMatch(f) && CanEnd(f, Rejected(bot))
    ensures ReservesMatch(Ended(maxMini, f, Rejected(bot)))
  {
    hide Released;
    ReleaseDropsEntry(f, bot);
    DroppedEntryMatches(f, Ended(maxMini, f, Rejected(bot)), bot);
  }

  /** What the ending's own bot had reserved that counts, and what it settles. */
  lemma EndOfOne(maxMini: int, f: Fleet, e: Ending, symbol: string, live: bool)
    requires CanEnd(f, e) && ReservesMatch(f)
    ensures var after := Ended(maxMini, f, e);
            var before, held := f.bots[e.bot].account.positions, after.bots[e.bot].account.positions;
            var settled := Held(held, symbol) - Held(before, symbol);
            && settled == (if e.Fills? then Reserve(f, e.bot, symbol, live) else 0)
            && (Reserve(after, e.bot, symbol, live) == 0
                || (e.Fails? && Reserve(after, e.bot, symbol, live) == Reserve(f, e.bot, symbol, live)))
  {
    hide Filled;
    match e
    case Fills(bot, price) =>
      var intent := f.bots[bot].phase.intent;
      FillMovesQuantity(f.bots[bot].account, intent.symbol, intent.SignedQty(), price, symbol);
    case Fails(_) =>
    case Rejected(_) =>
  }

  /** No ending takes either side further: a fill trades a reservation for a settled contract
      or pulls the other way, and a failure or a release only gives up. */
  lemma EndNeverReachesFurther(maxMini: int, f: Fleet, e: Ending, symbol: string, way: Way, live: bool)
    requires CanEnd(f, e) && ReservesMatch(f)
    ensures Reach(Ended(maxMini, f, e), symbol, way, live) <= Reach(f, symbol, way, live)
  {
    hide Total, Side, Ended, CanEnd, Reserve, ReservesMatch;
    var after := Ended(maxMini, f, e);
    EndTouchesOne(maxMini, f, e);
    EndOfOne(maxMini, f, e, symbol, live);
    SideMoves(f, after, e.bot, symbol, way, live);
    PositionsMove(f, after, e.bot, symbol);
  }

  lemma {:induction false} EndsNeverReachFurther(maxMini: int, f: Fleet, es: seq<Ending>, symbol: string, way: Way,
                                                 live: bool)
    requires CanEndAll(maxMini, f, es) && ReservesMatch(f)
    ensures var after := EndAll(maxMini, f, es);
            ReservesMatch(after) && Reach(after, symbol, way, live) <= Reach(f, symbol, way, live)
    decreases |es|
  {
    hide Reach, Ended, CanEnd, ReservesMatch;
    if es != [] {
      EndTouchesOne(maxMini, f, es[0]);
      EndNeverReachesFurther(maxMini, f, es[0], symbol, way, live);
      EndsNeverReachFurther(maxMini, Ended(maxMini, f, es[0]), es[1..], symbol, way, live);
    }
  }

  // ---- And it can be reached --------------------------------------------------------

  /** Bots whose reservation counts on one side. */
  ghost function OnThatSide(f: Fleet, symbol: string, way: Way, live: bool): set<string> {
    set b | b in f.bots && OnSide(way, Reserve(f, b, symbol, live)) != 0
  }

  /** Every live order of one side can fill, which takes the settled contracts to its reach. */
  lemma {:induction false} FillOneSide(maxMini: int, f: Fleet, symbol: string, way: Way,
      price: real) returns (es: seq<Ending>)
    requires ReservesMatch(f)
    ensures CanEndAll(maxMini, f, es) && NoRejects(es)
    ensures Along(way, Total(Positions(EndAll(maxMini, f, es)), symbol)) == Reach(f, symbol, way, true)
    decreases OnThatSide(f, symbol, way, true)
  {
    hide Total, Side, Ended;
    SideCounts(f, symbol, way, true);
    if OnThatSide(f, symbol, way, true) == {} {
      assert forall b :: b in f.bots ==> b !in OnThatSide(f, symbol, way, true);
      es := [];
    } else {
      var bot :| bot in OnThatSide(f, symbol, way, true);
      var e := Fills(bot, price);
      FillOne(maxMini, f, e, symbol, way);
      var after := Ended(maxMini, f, e);
      var rest := FillOneSide(maxMini, after, symbol, way, price);
      es := [e] + rest;
      assert es[1..] == rest;
    }
  }

  lemma FillOne(maxMini: int, f: Fleet, e: Ending, symbol: string, way: Way)
    requires ReservesMatch(f) && e.Fills? && e.bot in OnThatSide(f, symbol, way, true)
    ensures CanEnd(f, e)
    ensures var after := Ended(maxMini, f, e);
            && ReservesMatch(after) && Reach(after, symbol, way, true) == Reach(f, symbol, way, true)
            && OnThatSide(after, symbol, way, true) < OnThatSide(f, symbol, way, true)
  {
    hide Total, Side, Ended, ReservesMatch;
    var after := Ended(maxMini, f, e);
    EndTouchesOne(maxMini, f, e);
    EndOfOne(maxMini, f, e, symbol, true);
    SideMoves(f, after, e.bot, symbol, way, true);
    PositionsMove(f, after, e.bot, symbol);
    OneFewer(f, after, e.bot, symbol, way, true);
  }

  lemma OneFewer(f: Fleet, after: Fleet, bot: string, symbol: string, way: Way, live: bool)
    requires bot in OnThatSide(f, symbol, way, live) && after.bots.Keys == f.bots.Keys
    requires forall b :: b in f.bots && b != bot ==> after.bots[b] == f.bots[b]
    requires OnSide(way, Reserve(after, bot, symbol, live)) == 0
    ensures OnThatSide(after, symbol, way, live) == OnThatSide(f, symbol, way, live) - {bot}
  {
    hide OnSide;
    assert forall b :: b in f.bots && b != bot ==> Reserve(after, b, symbol, live) == Reserve(f, b, symbol, live);
  }

  /** Every reservation of the other side can be released, which takes settled plus reserved
      contracts to the reach of this one. */
  lemma {:induction false} ReleaseOtherSide(maxMini: int, f: Fleet, symbol: string, way: Way) returns (es: seq<Ending>)
    requires ReservesMatch(f)
    ensures CanEndAll(maxMini, f, es)
    ensures Along(way, Exposure(EndAll(maxMini, f, es), symbol)) == Reach(f, symbol, way, false)
    decreases OnThatSide(f, symbol, Other(way), false)
  {
    hide Total, Side, Ended;
    SideCounts(f, symbol, Other(way), false);
    if OnThatSide(f, symbol, Other(way), false) == {} {
      assert forall b :: b in f.bots ==> b !in OnThatSide(f, symbol, Other(way), false);
      SidesAreTotal(f, symbol);
      es := [];
    } else {
      var bot :| bot in OnThatSide(f, symbol, Other(way), false);
      var e := Rejected(bot);
      ReleaseOne(maxMini, f, bot, symbol, way);
      var rest := ReleaseOtherSide(maxMini, Ended(maxMini, f, e), symbol, way);
      es := [e] + rest;
      assert es[1..] == rest;
    }
  }

  function Other(way: Way): Way {
    if way == 1 then -1 else 1
  }

  lemma ReleaseOne(maxMini: int, f: Fleet, bot: string, symbol: string, way: Way)
    requires ReservesMatch(f) && bot in OnThatSide(f, symbol, Other(way), false)
    ensures CanEnd(f, Rejected(bot))
    ensures var after := Ended(maxMini, f, Rejected(bot));
            && ReservesMatch(after) && Reach(after, symbol, way, false) == Reach(f, symbol, way, false)
            && OnThatSide(after, symbol, Other(way), false) < OnThatSide(f, symbol, Other(way), false)
  {
    hide Total, Side, Ended;
    var after := Ended(maxMini, f, Rejected(bot));
    EndTouchesOne(maxMini, f, Rejected(bot));
    EndOfOne(maxMini, f, Rejected(bot), symbol, false);
    SideMoves(f, after, bot, symbol, way, false);
    PositionsMove(f, after, bot, symbol);
    OneFewer(f, after, bot, symbol, Other(way), false);
  }

  // ---- Exactly when the cap survives -------------------------------------------------

  /** Neither side of the symbol reaches past the cap. */
  ghost predicate ReachFits(maxMini: int, f: Fleet, symbol: string, live: bool)
    requires Registered(symbol)
  {
    forall way: Way :: Reach(f, symbol, way, live) <= FleetCap(maxMini, symbol)
  }

  /** However the orders in flight fill or fail, settled contracts alone stay within the cap. */
  ghost predicate SettledStaysCapped(maxMini: int, f: Fleet, symbol: string)
    requires Registered(symbol)
  {
    forall es :: CanEndAll(maxMini, f, es) && NoRejects(es)
                 ==> Abs(Total(Positions(EndAll(maxMini, f, es)), symbol)) <= FleetCap(maxMini, symbol)
  }

  /** And with releases too, settled contracts and settled plus reserved ones. */
  ghost predicate BothStayCapped(maxMini: int, f: Fleet, symbol: string)
    requires Registered(symbol)
  {
    forall es :: CanEndAll(maxMini, f, es)
                 ==> Abs(Total(Positions(EndAll(maxMini, f, es)), symbol)) <= FleetCap(maxMini, symbol)
                     && Abs(Exposure(EndAll(maxMini, f, es), symbol)) <= FleetCap(maxMini, symbol)
  }

  /** Within the reach of both sides. */
  lemma ReachBounds(f: Fleet, symbol: string, live: bool)
    requires ReservesMatch(f)
    ensures -Reach(f, symbol, -1, live) <= Total(Positions(f), symbol) <= Reach(f, symbol, 1, live)
    ensures -Reach(f, symbol, -1, false) <= Exposure(f, symbol) <= Reach(f, symbol, 1, false)
  {
    hide Total, Side;
    SideCounts(f, symbol, 1, live);
    SideCounts(f, symbol, -1, live);
    SideCounts(f, symbol, 1, false);
    SideCounts(f, symbol, -1, false);
    SidesAreTotal(f, symbol);
  }

  /** From any state whose reservations match, the orders in flight keep settled contracts
      within the cap, in every order of fills and failures, if and only if neither side's live
      orders could take them past it together. */
  lemma SettledStaysCappedExactly(maxMini: int, f: Fleet, symbol: string, price: real)
    requires ReservesMatch(f) && Registered(symbol)
    ensures SettledStaysCapped(maxMini, f, symbol) <==> ReachFits(maxMini, f, symbol, true)
  {
    hide Total, Side, CanEndAll, EndAll, ReservesMatch, FleetCap, Reach, Registered;
    if ReachFits(maxMini, f, symbol, true) {
      forall es | CanEndAll(maxMini, f, es) && NoRejects(es)
        ensures Abs(Total(Positions(EndAll(maxMini, f, es)), symbol)) <= FleetCap(maxMini, symbol)
      {
        EndsNeverReachFurther(maxMini, f, es, symbol, 1, true);
        EndsNeverReachFurther(maxMini, f, es, symbol, -1, true);
        ReachBounds(EndAll(maxMini, f, es), symbol, true);
      }
    }
    if SettledStaysCapped(maxMini, f, symbol) {
      forall way: Way
        ensures Reach(f, symbol, way, true) <= FleetCap(maxMini, symbol)
      {
        var es := FillOneSide(maxMini, f, symbol, way, price);
      }
    }
  }

  /** With releases among the endings, both counts stay within the cap if and only if neither
      side's reservations, dead bots' included, could take the account past it together. */
  lemma BothStayCappedExactly(maxMini: int, f: Fleet, symbol: string)
    requires ReservesMatch(f) && Registered(symbol)
    ensures BothStayCapped(maxMini, f, symbol) <==> ReachFits(maxMini, f, symbol, false)
  {
    hide Total, Side, CanEndAll, EndAll, ReservesMatch, FleetCap, Reach, Registered, Exposure;
    if ReachFits(maxMini, f, symbol, false) {
      forall es | CanEndAll(maxMini, f, es)
        ensures Abs(Total(Positions(EndAll(maxMini, f, es)), symbol)) <= FleetCap(maxMini, symbol)
        ensures Abs(Exposure(EndAll(maxMini, f, es), symbol)) <= FleetCap(maxMini, symbol)
      {
        EndsNeverReachFurther(maxMini, f, es, symbol, 1, false);
        EndsNeverReachFurther(maxMini, f, es, symbol, -1, false);
        ReachBounds(EndAll(maxMini, f, es), symbol, false);
      }
    }
    if BothStayCapped(maxMini, f, symbol) {
      forall way: Way
        ensures Reach(f, symbol, way, false) <= FleetCap(maxMini, symbol)
      {
        var es := ReleaseOtherSide(maxMini, f, symbol, way);
      }
    }
  }

  // ---- States that do not survive ----------------------------------------------------

  /** The three offers of the staged fleet are all approved, for twice the cap in reserved
      buys against once the cap in reserved sells. */
  lemma ThreeOffers(maxMini: int, f: Fleet, up: OrderIntent, down: OrderIntent)
    requires Staged(maxMini, f, up, down)
    ensures var moves := [Offer("a", up), Offer("b", down), Offer("c", up)];
            && CanRun(maxMini, f, moves)
            && var g := RunMoves(maxMini, f, moves);
               && g.bots.Keys == f.bots.Keys && "b" in g.pending
               && g.bots["a"].phase == InFlight(up) && g.bots["b"].phase == InFlight(down)
                   && g.bots["c"].phase == InFlight(up)
               && Total(Positions(g), up.symbol) == 0
               && Exposure(g, up.symbol) == FleetCap(maxMini, up.symbol)
  {
    hide Total, Registered, FleetCap, Moved;
    FlatTotals(f, up.symbol);
    CapIsPositive(maxMini, up.symbol);
    var m1, m2, m3 := Offer("a", up), Offer("b", down), Offer("c", up);
    OfferThatFits(maxMini, f, "a", up);
    var f1 := Moved(maxMini, f, m1);
    OfferThatFits(maxMini, f1, "b", down);
    var f2 := Moved(maxMini, f1, m2);
    OfferThatFits(maxMini, f2, "c", up);
    var f3 := Moved(maxMini, f2, m3);
    ThreeMoves(maxMini, f, m1, m2, m3);
    PendingStays(maxMini, f2, "c", up, "b");
  }

  lemma PendingStays(maxMini: int, f: Fleet, bot: string, intent: OrderIntent, other: string)
    requires CanMove(f, Offer(bot, intent)) && other in f.pending
    ensures other in Moved(maxMini, f, Offer(bot, intent)).pending
  {
    hide Total, Registered, FleetCap;
  }

  lemma ThreeMoves(maxMini: int, f: Fleet, m1: Move, m2: Move, m3: Move)
    requires CanMove(f, m1)
    requires var f1 := Moved(maxMini, f, m1); CanMove(f1, m2) && CanMove(Moved(maxMini, f1, m2), m3)
    ensures CanRun(maxMini, f, [m1, m2, m3])
    ensures RunMoves(maxMini, f, [m1, m2, m3]) == Moved(maxMini, Moved(maxMini, Moved(maxMini, f, m1), m2), m3)
  {
    hide Moved, CanMove;
    OneMove(maxMini, f, m1);
    OneMoreMove(maxMini, f, [m1], m2);
    OneMoreMove(maxMini, f, [m1, m2], m3);
    assert [m1] + [m2] == [m1, m2] && [m1, m2] + [m3] == [m1, m2, m3];
  }

  /** Releasing a reservation without a fill is not safe by itself: opposite reservations
      net out, so giving back the sell of a reachable state leaves twice the cap reserved. */
  lemma ReleaseAloneBreaksCap(maxMini: int, f: Fleet, up: OrderIntent, down: OrderIntent)
    requires Staged(maxMini, f, up, down)
    ensures var moves := [Offer("a", up), Offer("b", down), Offer("c", up)];
            && CanRun(maxMini, f, moves)
            && var g := RunMoves(maxMini, f, moves);
               var released := g.(pending := Released(g.pending, "b", down.symbol, down.SignedQty()));
               Exposure(released, up.symbol) == 2 * FleetCap(maxMini, up.symbol) > FleetCap(maxMini, up.symbol)
  {
    hide Total, Registered, FleetCap, Moved, RunMoves, CanRun;
    ThreeOffers(maxMini, f, up, down);
    CapIsPositive(maxMini, up.symbol);
    var g := RunMoves(maxMini, f, [Offer("a", up), Offer("b", down), Offer("c", up)]);
    ReleaseMoves(g.pending, "b", down.symbol, down.SignedQty());
  }

  /** Nor are settled contracts alone within the cap while an opposite order is still in
      flight: fill the two buys of the same state and the account holds twice the cap, also
      after the seller's bot has failed. */
  lemma SettledCanExceedCap(maxMini: int, f: Fleet, up: OrderIntent, down: OrderIntent, price: real, g: Fleet)
    requires Staged(maxMini, f, up, down) && Leads(maxMini, f, [Offer("a", up), Offer("b", down), Offer("c", up)], g)
    ensures CanRun(maxMini, g, [FillAndSettle("a", price), FillAndSettle("c", price), Fail("b")])
    ensures var h := RunMoves(maxMini, g, [FillAndSettle("a", price), FillAndSettle("c", price), Fail("b")]);
            && Total(Positions(h), up.symbol) == 2 * FleetCap(maxMini, up.symbol)
            && Exposure(h, up.symbol) == FleetCap(maxMini, up.symbol)
  {
    hide Total, Registered, FleetCap, RunMoves, CanRun, Filled, Released, ReservesMatch, Capped;
    ThreeOffers(maxMini, f, up, down);
    EveryInterleavingKeepsCap(maxMini, f, [Offer("a", up), Offer("b", down), Offer("c", up)]);
    CappedMatches(maxMini, g);
    var m1, m2, m3 := FillAndSettle("a", price), FillAndSettle("c", price), Fail("b");
    FillMovesTotal(maxMini, g, "a", price, up.symbol);
    SettleKeepsReserves(maxMini, g, "a", price);
    SettleKeepsExposure(maxMini, g, "a", price);
    var g1 := Moved(maxMini, g, m1);
    FillMovesTotal(maxMini, g1, "c", price, up.symbol);
    SettleKeepsReserves(maxMini, g1, "c", price);
    SettleKeepsExposure(maxMini, g1, "c", price);
    var g2 := Moved(maxMini, g1, m2);
    OthersMoveNothing(maxMini, g2, m3);
    ThreeMoves(maxMini, g, m1, m2, m3);
  }

  /** A run from one state to another. */
  ghost predicate Leads(maxMini: int, f: Fleet, moves: seq<Move>, g: Fleet) {
    CanRun(maxMini, f, moves) && RunMoves(maxMini, f, moves) == g
  }

  /** Both failures are what the exact condition says: the staged buys reach twice the cap. */
  lemma StagedReachesTwice(maxMini: int, f: Fleet, up: OrderIntent, down: OrderIntent, price: real)
    requires Staged(maxMini, f, up, down)
    ensures var moves := [Offer("a", up), Offer("b", down), Offer("c", up)];
            && CanRun(maxMini, f, moves)
            && !SettledStaysCapped(maxMini, RunMoves(maxMini, f, moves), up.symbol)
            && !BothStayCapped(maxMini, RunMoves(maxMini, f, moves), up.symbol)
  {
    hide Total, Registered, FleetCap, Moved, RunMoves, CanRun, Side, SettledStaysCapped, BothStayCapped, Capped;
    var moves := [Offer("a", up), Offer("b", down), Offer("c", up)];
    ThreeOffers(maxMini, f, up, down);
    CapIsPositive(maxMini, up.symbol);
    var g := RunMoves(maxMini, f, moves);
    EveryInterleavingKeepsCap(maxMini, f, moves);
    CappedMatches(maxMini, g);
    TwoOnOneSide(g, up, "a", "c", true);
    TwoOnOneSide(g, up, "a", "c", false);
    SettledStaysCappedExactly(maxMini, g, up.symbol, price);
    BothStayCappedExactly(maxMini, g, up.symbol);
    assert Reach(g, up.symbol, 1, true) > FleetCap(maxMini, up.symbol);
    assert Reach(g, up.symbol, 1, false) > FleetCap(maxMini, up.symbol);
  }

  lemma CappedMatches(maxMini: int, f: Fleet)
    requires Capped(maxMini, f)
    ensures ReservesMatch(f)
  {
  }

  lemma TwoOnOneSide(f: Fleet, up: OrderIntent, a: string, c: string, live: bool)
    requires {a, c} <= f.bots.Keys && a != c && up.SignedQty() > 0
    requires f.bots[a].phase == InFlight(up) && f.bots[c].phase == InFlight(up)
    ensures Side(f, up.symbol, 1, live) >= 2 * up.SignedQty()
  {
    var reserves := SideReserves(f, up.symbol, 1, live);
    TakeInt(f.bots.Keys, reserves, a);
    TakeInt(f.bots.Keys - {a}, reserves, c);
    NoneNegative(f.bots.Keys - {a} - {c}, reserves);
  }

  // ---- What stays of a bot that died ---------------------------------------------------

  /** A dead bot keeps what it held and what it had reserved through every later run. */
  lemma {:induction false} DeadReservationStays(maxMini: int, f: Fleet, moves: seq<Move>, bot: string)
    requires Capped(maxMini, f) && CanRun(maxMini, f, moves) && bot in f.bots && f.bots[bot].phase.Crashed?
    ensures var g := RunMoves(maxMini, f, moves);
            && bot in g.bots && g.bots[bot] == f.bots[bot]
            && forall s :: Net(g.pending, bot, s) == Net(f.pending, bot, s)
    decreases |moves|
  {
    hide Approval, Filled, Marked, Released, Capped;
    if moves != [] {
      MoveKeepsCap(maxMini, f, moves[0]);
      var next := Moved(maxMini, f, moves[0]);
      assert next.bots[bot] == f.bots[bot];
      DeadReservationStays(maxMini, next, moves[1..], bot);
      SameReserve(maxMini, f, next, bot);
    }
  }

  lemma SameReserve(maxMini: int, f: Fleet, g: Fleet, bot: string)
    requires Capped(maxMini, f) && Capped(maxMini, g) && bot in f.bots && bot in g.bots && g.bots[bot] == f.bots[bot]
    ensures forall s :: Net(g.pending, bot, s) == Net(f.pending, bot, s)
  {
    hide Total;
    forall s
      ensures Net(g.pending, bot, s) == Net(f.pending, bot, s)
    {
      assert Net(g.pending, bot, s) == OwnReserve(g, bot, s) && Net(f.pending, bot, s) == OwnReserve(f, bot, s);
    }
  }

  /** What it leaves behind is a reservation, not the excess: at exposure of one cap and twice
      the cap settled, an idle holder may close its share, which takes settled contracts back
      within the cap. */
  lemma ExcessCanBeClosed(maxMini: int, f: Fleet, bot: string, close: OrderIntent, price: real)
    requires Capped(maxMini, f) && CanMove(f, Offer(bot, close)) && Registered(close.symbol) && maxMini > 0
    requires close.SignedQty() == -FleetCap(maxMini, close.symbol)
    requires Exposure(f, close.symbol) == FleetCap(maxMini, close.symbol)
    requires Total(Positions(f), close.symbol) == 2 * FleetCap(maxMini, close.symbol)
    ensures CanRun(maxMini, f, [Offer(bot, close), FillAndSettle(bot, price)])
    ensures var g := RunMoves(maxMini, f, [Offer(bot, close), FillAndSettle(bot, price)]);
            Total(Positions(g), close.symbol) == FleetCap(maxMini, close.symbol)
  {
    hide Total, Registered, FleetCap, Moved, Capped;
    CapIsPositive(maxMini, close.symbol);
    OfferThatFits(maxMini, f, bot, close);
    var g := Moved(maxMini, f, Offer(bot, close));
    OneMove(maxMini, f, Offer(bot, close));
    FillMovesTotal(maxMini, g, bot, price, close.symbol);
    OneMoreMove(maxMini, f, [Offer(bot, close)], FillAndSettle(bot, price));
    assert [Offer(bot, close)] + [FillAndSettle(bot, price)] == [Offer(bot, close), FillAndSettle(bot, price)];
  }
}
