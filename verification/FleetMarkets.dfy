/** The fleet cap seen by market instead of by symbol: the same market can be traded under
    several spellings (its root, or any of its contract codes). */
module FleetMarkets {
  import opened Types
  import opened Markets
  import opened Sums
  import opened Ledger
  import opened Allocator
  import opened Fleet

  /** The symbols of one market that appear anywhere in the books. */
  function Spellings(books: Books, market: MarketSpec): set<string> {
    set b, s | b in books && s in books[b] && GetMarket(s) == Some(market) :: s
  }

  function AllSpellings(f: Fleet, market: MarketSpec): set<string> {
    Spellings(Positions(f), market) + Spellings(f.pending, market)
  }

  ghost function Exposures(f: Fleet): string -> int {
    s => Exposure(f, s)
  }

  /** Settled and reserved contracts of a market, over all its spellings and all bots. */
  ghost function MarketExposure(f: Fleet, market: MarketSpec): int {
    SumInt(AllSpellings(f, market), Exposures(f))
  }

  /** A spelling that appears nowhere counts for nothing. */
  lemma AbsentIsZero(f: Fleet, market: MarketSpec, symbol: string)
    requires GetMarket(symbol) == Some(market) && symbol !in AllSpellings(f, market)
    ensures Exposure(f, symbol) == 0
  {
    hide GetMarket, Total;
    AbsentFromBooks(Positions(f), market, symbol);
    AbsentFromBooks(f.pending, market, symbol);
  }

  lemma AbsentFromBooks(books: Books, market: MarketSpec, symbol: string)
    requires GetMarket(symbol) == Some(market) && symbol !in Spellings(books, market)
    ensures Total(books, symbol) == 0
  {
    hide GetMarket;
    forall b
      ensures Net(books, b, symbol) == 0
    {
      assert b in books && symbol in books[b] ==> symbol in Spellings(books, market);
    }
    NothingTotal(books, symbol);
  }

  /** The market's exposure is the sum over any spellings that leave out only zeros. */
  lemma MarketExposureOver(f: Fleet, market: MarketSpec, spellings: set<string>)
    requires forall s :: s in spellings ==> GetMarket(s) == Some(market)
    requires forall s :: GetMarket(s) == Some(market) && s !in spellings ==> Exposure(f, s) == 0
    ensures MarketExposure(f, market) == SumInt(spellings, Exposures(f))
  {
    hide GetMarket, Exposure;
    forall s | s in spellings && s !in AllSpellings(f, market)
      ensures Exposure(f, s) == 0
    {
      AbsentIsZero(f, market, s);
    }
    SameCounted(AllSpellings(f, market), spellings, Exposures(f));
  }

  // ---- Symbols nobody offers ------------------------------------------------------

  predicate OnlyOffers(moves: seq<Move>, offered: set<string>) {
    forall m :: m in moves && m.Offer? ==> m.intent.symbol in offered
  }

  /** No bot holds or has reserved anything of the symbol. */
  ghost predicate NoneOf(f: Fleet, symbol: string) {
    forall b :: b in f.bots ==>
      && Held(f.bots[b].account.positions, symbol) == 0
      && (Reserving(f, b).Some? ==> Reserving(f, b).value.symbol != symbol)
  }

  lemma MoveKeepsNone(maxMini: int, f: Fleet, m: Move, symbol: string)
    requires NoneOf(f, symbol) && CanMove(f, m) && !(m.Offer? && m.intent.symbol == symbol)
    ensures NoneOf(Moved(maxMini, f, m), symbol)
  {
    hide Approval, Filled, TotalOpenPnl, Released;
    var after := Moved(maxMini, f, m);
    if m.FillAndSettle? {
      var intent := f.bots[m.bot].phase.intent;
      assert Reserving(f, m.bot) == Some(intent);
      FillMovesQuantity(f.bots[m.bot].account, intent.symbol, intent.SignedQty(), m.price, symbol);
    }
    forall b | b in after.bots
      ensures Held(after.bots[b].account.positions, symbol) == 0
      ensures Reserving(after, b).Some? ==> Reserving(after, b).value.symbol != symbol
    {
      assert b in f.bots && Held(f.bots[b].account.positions, symbol) == 0;
      assert Reserving(f, b).Some? ==> Reserving(f, b).value.symbol != symbol;
    }
  }

  lemma {:induction false} RunKeepsNone(maxMini: int, f: Fleet, moves: seq<Move>, offered: set<string>, symbol: string)
    requires NoneOf(f, symbol) && CanRun(maxMini, f, moves) && OnlyOffers(moves, offered) && symbol !in offered
    ensures NoneOf(RunMoves(maxMini, f, moves), symbol)
    decreases |moves|
  {
    hide NoneOf, Moved, CanMove;
    if moves != [] {
      assert moves[0] in moves && forall m :: m in moves[1..] ==> m in moves;
      MoveKeepsNone(maxMini, f, moves[0], symbol);
      RunKeepsNone(maxMini, Moved(maxMini, f, moves[0]), moves[1..], offered, symbol);
    }
  }

  lemma NoneIsZero(f: Fleet, symbol: string)
    requires NoneOf(f, symbol) && ReservesMatch(f)
    ensures Exposure(f, symbol) == 0
  {
    hide Total;
    forall b
      ensures Net(Positions(f), b, symbol) == 0 && Net(f.pending, b, symbol) == 0
    {
      assert Net(f.pending, b, symbol) == OwnReserve(f, b, symbol);
    }
    NothingTotal(Positions(f), symbol);
    NothingTotal(f.pending, symbol);
  }

  /** From flat, a symbol that is never offered is never exposed. */
  lemma NeverOffered(maxMini: int, f: Fleet, moves: seq<Move>, offered: set<string>, symbol: string)
    requires AllFlat(f) && maxMini > 0 && CanRun(maxMini, f, moves) && OnlyOffers(moves, offered) && symbol !in offered
    ensures Exposure(RunMoves(maxMini, f, moves), symbol) == 0
  {
    hide Moved, Exposure, CanRun, RunMoves;
    assert NoneOf(f, symbol);
    RunKeepsNone(maxMini, f, moves, offered, symbol);
    FlatIsCapped(maxMini, f);
    RunKeepsCap(maxMini, f, moves);
    NoneIsZero(RunMoves(maxMini, f, moves), symbol);
  }

  // ---- One cap a market -------------------------------------------------------------

  /** The bots offer at most one spelling of the market. */
  predicate OneSpelling(offered: set<string>, market: MarketSpec) {
    forall s, t :: s in offered && t in offered && GetMarket(s) == Some(market) && GetMarket(t) == Some(market)
        ==> s == t
  }

  /** Settled plus reserved contracts of the market stay within one cap in every
      interleaving of bots that offer these symbols. */
  ghost predicate MarketStaysCapped(maxMini: int, f: Fleet, offered: set<string>, market: MarketSpec) {
    forall moves :: CanRun(maxMini, f, moves) && OnlyOffers(moves, offered)
                    ==> Abs(MarketExposure(RunMoves(maxMini, f, moves), market)) <= CapFor(maxMini, market)
  }

  /** Exactly when the account-wide cap covers a whole market: the bots spell it one way. */
  lemma MarketCapExactly(maxMini: int, f: Fleet, offered: set<string>, market: MarketSpec)
    requires AllFlat(f) && f.bots != map[] && maxMini > 0
    ensures MarketStaysCapped(maxMini, f, offered, market) <==> OneSpelling(offered, market)
  {
    hide CanRun, RunMoves, MarketExposure, GetMarket, CapFor;
    if OneSpelling(offered, market) {
      forall moves | CanRun(maxMini, f, moves) && OnlyOffers(moves, offered)
        ensures Abs(MarketExposure(RunMoves(maxMini, f, moves), market)) <= CapFor(maxMini, market)
      {
        OneSpellingIsCapped(maxMini, f, moves, offered, market);
      }
    } else {
      var s, t :| s in offered && t in offered && GetMarket(s) == Some(market) && GetMarket(t) == Some(market)
          && s != t;
      var bot :| bot in f.bots;
      var moves := BothSpellings(maxMini, bot, s, t, market, 0.0);
      TwoSpellingsTwoCaps(maxMini, f, bot, s, t, market, 0.0);
      CapIsThere(maxMini, market, s);
      assert OnlyOffers(moves, offered);
    }
  }

  lemma CapIsThere(maxMini: int, market: MarketSpec, symbol: string)
    requires GetMarket(symbol) == Some(market) && maxMini > 0
    ensures Registered(symbol) && FleetCap(maxMini, symbol) == CapFor(maxMini, market) > 0
  {
    CapIsPositive(maxMini, symbol);
  }

  lemma OneSpellingIsCapped(maxMini: int, f: Fleet, moves: seq<Move>, offered: set<string>, market: MarketSpec)
    requires AllFlat(f) && maxMini > 0 && CanRun(maxMini, f, moves) && OnlyOffers(moves, offered)
    requires OneSpelling(offered, market)
    ensures Abs(MarketExposure(RunMoves(maxMini, f, moves), market)) <= CapFor(maxMini, market)
  {
    hide CanRun, RunMoves, MarketExposure, GetMarket, Exposure, Moved, AllFlat, OnlyOffers;
    var g := RunMoves(maxMini, f, moves);
    var spelled := set s | s in offered && GetMarket(s) == Some(market);
    forall s | GetMarket(s) == Some(market) && s !in spelled
      ensures Exposure(g, s) == 0
    {
      NeverOffered(maxMini, f, moves, offered, s);
    }
    MarketExposureOver(g, market, spelled);
    if spelled != {} {
      var s :| s in spelled;
      TakeInt(spelled, Exposures(g), s);
      assert spelled - {s} == {};
      CapIsThere(maxMini, market, s);
      FlatIsCapped(maxMini, f);
      RunKeepsCap(maxMini, f, moves);
      assert WithinFleetCap(maxMini, g, s);
    }
  }

  /** An order for a whole cap. */
  function WholeCap(maxMini: int, symbol: string, market: MarketSpec): OrderIntent {
    OrderIntent(symbol, BUY, CapFor(maxMini, market), MARKET, OrderId("example", 0, 0, ""), Timestamp(0, 0), None,
        None, None)
  }

  /** One bot buys a cap under one spelling, and then under the other. */
  function BothSpellings(maxMini: int, bot: string, s: string, t: string, market: MarketSpec, price: real): seq<Move> {
    [Offer(bot, WholeCap(maxMini, s, market)), FillAndSettle(bot, price), Offer(bot, WholeCap(maxMini, t, market))]
  }

  /** Under two spellings a market takes two caps. */
  lemma TwoSpellingsTwoCaps(maxMini: int, f: Fleet, bot: string, s: string, t: string, market: MarketSpec, price: real)
    requires AllFlat(f) && maxMini > 0 && bot in f.bots && s != t
    requires GetMarket(s) == Some(market) && GetMarket(t) == Some(market)
    ensures CanRun(maxMini, f, BothSpellings(maxMini, bot, s, t, market, price))
    ensures MarketExposure(RunMoves(maxMini, f, BothSpellings(maxMini, bot, s, t, market, price)), market)
         == 2 * CapFor(maxMini, market)
  {
    hide MarketExposure, GetMarket, Exposure, CanRun, RunMoves, CapFor, Moved;
    var moves := BothSpellings(maxMini, bot, s, t, market, price);
    CapIsThere(maxMini, market, s);
    CapIsThere(maxMini, market, t);
    BothAreBought(maxMini, f, bot, s, t, market, price);
    var g := RunMoves(maxMini, f, moves);
    forall u | GetMarket(u) == Some(market) && u !in {s, t}
      ensures Exposure(g, u) == 0
    {
      NeverOffered(maxMini, f, moves, {s, t}, u);
    }
    MarketExposureOver(g, market, {s, t});
    TakeInt({s, t}, Exposures(g), s);
    TakeInt({s, t} - {s}, Exposures(g), t);
    assert {s, t} - {s} - {t} == {};
  }

  lemma BothAreBought(maxMini: int, f: Fleet, bot: string, s: string, t: string, market: MarketSpec, price: real)
    requires AllFlat(f) && maxMini > 0 && bot in f.bots && s != t
    requires Registered(s) && FleetCap(maxMini, s) == CapFor(maxMini, market) > 0
    requires Registered(t) && FleetCap(maxMini, t) == CapFor(maxMini, market)
    ensures var moves := BothSpellings(maxMini, bot, s, t, market, price);
            && CanRun(maxMini, f, moves)
            && Exposure(RunMoves(maxMini, f, moves), s) == CapFor(maxMini, market)
            && Exposure(RunMoves(maxMini, f, moves), t) == CapFor(maxMini, market)
  {
    hide Total, GetMarket, Moved, CanRun, RunMoves, CapFor, Registered, FleetCap, ReservesMatch;
    var cap := CapFor(maxMini, market);
    var first, second := WholeCap(maxMini, s, market), WholeCap(maxMini, t, market);
    FlatTotals(f, s);
    FlatTotals(f, t);
    FlatMatches(maxMini, f);
    OfferThatFits(maxMini, f, bot, first);
    OfferKeepsReserves(maxMini, f, bot, first);
    var f1 := Moved(maxMini, f, Offer(bot, first));
    SettleKeepsExposure(maxMini, f1, bot, price);
    SettleIsIdle(maxMini, f1, bot, price);
    var f2 := Moved(maxMini, f1, FillAndSettle(bot, price));
    assert Exposure(f1, s) == cap && Exposure(f1, t) == 0;
    assert Exposure(f2, s) == cap && Exposure(f2, t) == 0;
    OfferThatFits(maxMini, f2, bot, second);
    assert Exposure(Moved(maxMini, f2, Offer(bot, second)), s) == cap;
    OneMove(maxMini, f, Offer(bot, first));
    OneMoreMove(maxMini, f, [Offer(bot, first)], FillAndSettle(bot, price));
    assert [Offer(bot, first)] + [FillAndSettle(bot, price)] == [Offer(bot, first), FillAndSettle(bot, price)];
    OneMoreMove(maxMini, f, [Offer(bot, first), FillAndSettle(bot, price)], Offer(bot, second));
    assert [Offer(bot, first), FillAndSettle(bot, price)] + [Offer(bot, second)]
        == BothSpellings(maxMini, bot, s, t, market, price);
  }

  lemma FlatMatches(maxMini: int, f: Fleet)
    requires AllFlat(f) && maxMini > 0
    ensures ReservesMatch(f)
  {
    FlatIsCapped(maxMini, f);
  }

  lemma SettleIsIdle(maxMini: int, f: Fleet, bot: string, price: real)
    requires CanMove(f, FillAndSettle(bot, price))
    ensures CanMove(Moved(maxMini, f, FillAndSettle(bot, price)), Offer(bot, f.bots[bot].phase.intent))
    ensures var after := Moved(maxMini, f, FillAndSettle(bot, price)); bot in after.bots && after.bots[bot].phase.Idle?
  {
    hide Filled, Released;
  }
}
