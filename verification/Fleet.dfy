/** One account shared by many bots: the allocator's cap protocol, over every interleaving of
    the bots' steps. */
module Fleet {
  import opened Types
  import opened Markets
  import opened Sums
  import opened Ledger
  import opened Allocator

  // ---- The fleet as interleaved steps -------------------------------------------

  /** A bot between two of its suspension points. A bot that died keeps its tracker, and
      whatever it had reserved. */
  datatype Phase = Idle | InFlight(intent: OrderIntent) | Crashed(stuck: Option<OrderIntent>)

  datatype Bot = Bot(account: Account, phase: Phase)

  datatype Fleet = Fleet(bots: map<string, Bot>, pending: Books)

  /** Steps between suspension points: a mark; the position snapshot with the allocator's
      answer, one step because the registry lookup does not suspend; the broker's answer
      with the fill and the settlement; or a bot failing. Which orders are offered, and
      when, is arbitrary. */
  datatype Move =
    | MarkBar(bot: string, symbol: string, close: real)
    | Offer(bot: string, intent: OrderIntent)
    | FillAndSettle(bot: string, price: real)
    | Fail(bot: string)

  function Positions(f: Fleet): Books {
    map b | b in f.bots :: f.bots[b].account.positions
  }

  predicate CanMove(f: Fleet, m: Move) {
    && m.bot in f.bots
    && match m
       case MarkBar(_, _, _) => f.bots[m.bot].phase.Idle?
       case Offer(_, _) => f.bots[m.bot].phase.Idle?
       case FillAndSettle(_, _) => f.bots[m.bot].phase.InFlight?
       case Fail(_) => !f.bots[m.bot].phase.Crashed?
  }

  ghost function Moved(maxMini: int, f: Fleet, m: Move): Fleet
    requires CanMove(f, m)
  {
    var b := f.bots[m.bot];
    match m
    case MarkBar(_, symbol, close) =>
      f.(bots := f.bots[m.bot := b.(account := Marked(b.account, symbol, close))])
    case Offer(_, intent) =>
      (var (pending, verdict) := Approval(maxMini, f.pending, m.bot, intent, Positions(f));
       match verdict
       case FleetApproved => Fleet(f.bots[m.bot := b.(phase := InFlight(intent))], pending)
       case FleetDenied => f
       case FleetRaised => f.(bots := f.bots[m.bot := b.(phase := Crashed(None))]))
    case FillAndSettle(_, price) =>
      var intent := b.phase.intent;
      Fleet(f.bots[m.bot := Bot(Filled(b.account, intent.symbol, intent.SignedQty(), price), Idle)],
            Released(f.pending, m.bot, intent.symbol, intent.SignedQty()))
    case Fail(_) =>
      f.(bots := f.bots[m.bot := b.(phase := Crashed(if b.phase.InFlight? then Some(b.phase.intent) else None))])
  }

  ghost predicate CanRun(maxMini: int, f: Fleet, moves: seq<Move>)
    decreases |moves|
  {
    moves == [] || (CanMove(f, moves[0]) && CanRun(maxMini, Moved(maxMini, f, moves[0]), moves[1..]))
  }

  ghost function RunMoves(maxMini: int, f: Fleet, moves: seq<Move>): Fleet
    requires CanRun(maxMini, f, moves)
    decreases |moves|
  {
    if moves == [] then f else RunMoves(maxMini, Moved(maxMini, f, moves[0]), moves[1..])
  }

  // ---- The cap ------------------------------------------------------------------

  /** The order a bot has reserved room for and not yet filled. */
  function Reserving(f: Fleet, bot: string): Option<OrderIntent> {
    if bot !in f.bots then None
    else match f.bots[bot].phase
      case Idle => None
      case InFlight(intent) => Some(intent)
      case Crashed(stuck) => stuck
  }

  /** What the bot's own phase says it should have reserved. */
  function OwnReserve(f: Fleet, bot: string, symbol: string): int {
    var intent := Reserving(f, bot);
    if intent.Some? && intent.value.symbol == symbol then intent.value.SignedQty() else 0
  }

  ghost function Exposure(f: Fleet, symbol: string): int {
    Committed(f.pending, Positions(f), symbol)
  }

  ghost predicate WithinFleetCap(maxMini: int, f: Fleet, symbol: string) {
    if Registered(symbol) then Abs(Exposure(f, symbol)) <= FleetCap(maxMini, symbol) else Exposure(f, symbol) == 0
  }

  /** The table holds an entry for exactly the bots with an order in flight. */
  ghost predicate EntriesMatch(f: Fleet) {
    && (forall bot :: Reserving(f, bot).Some? <==> bot in f.pending)
    && (forall bot :: bot in f.pending ==> f.pending[bot].Keys == {Reserving(f, bot).value.symbol})
  }

  /** Reservations are exactly the orders in flight. */
  ghost predicate ReservesMatch(f: Fleet) {
    EntriesMatch(f) && forall bot, s :: Net(f.pending, bot, s) == OwnReserve(f, bot, s)
  }

  /** And settled plus reserved contracts stay within the cap in every symbol. */
  ghost predicate Capped(maxMini: int, f: Fleet) {
    ReservesMatch(f) && forall s :: WithinFleetCap(maxMini, f, s)
  }

  lemma PositionsMove(f: Fleet, after: Fleet, bot: string, symbol: string)
    requires bot in f.bots && after.bots.Keys == f.bots.Keys
    requires forall b :: b in f.bots && b != bot ==> after.bots[b] == f.bots[b]
    ensures Total(Positions(after), symbol)
         == Total(Positions(f), symbol)
             + Held(after.bots[bot].account.positions, symbol) - Held(f.bots[bot].account.positions, symbol)
  {
    assert Positions(f).Keys == f.bots.Keys && Positions(after).Keys == f.bots.Keys;
    TotalMoves(Positions(f), Positions(after), bot, symbol);
  }

  /** The account position moves by what the bot's own position moves by. */
  lemma OnlyOneMoves(f: Fleet, after: Fleet, bot: string)
    requires bot in f.bots && after.bots.Keys == f.bots.Keys
    requires forall b :: b in f.bots && b != bot ==> after.bots[b] == f.bots[b]
    ensures forall s :: Total(Positions(after), s)
                     == Total(Positions(f), s)
                         + Held(after.bots[bot].account.positions, s) - Held(f.bots[bot].account.positions, s)
  {
    forall s { PositionsMove(f, after, bot, s); }
  }

  lemma OfferFits(maxMini: int, f: Fleet, bot: string, intent: OrderIntent, s: string)
    requires CanMove(f, Offer(bot, intent)) && WithinFleetCap(maxMini, f, s)
    ensures WithinFleetCap(maxMini, Moved(maxMini, f, Offer(bot, intent)), s)
  {
    hide Total, Registered, FleetCap;
    OnlyOneMoves(f, Moved(maxMini, f, Offer(bot, intent)), bot);
    ReserveMoves(f.pending, bot, intent.symbol, intent.SignedQty());
  }

  lemma OfferKeepsEntries(maxMini: int, f: Fleet, bot: string, intent: OrderIntent)
    requires CanMove(f, Offer(bot, intent)) && EntriesMatch(f)
    ensures EntriesMatch(Moved(maxMini, f, Offer(bot, intent)))
  {
    hide Total, Registered, FleetCap, Reserved, EntriesMatch;
    NoEntryWhenIdle(f, bot);
    var after := Moved(maxMini, f, Offer(bot, intent));
    ReservedAfresh(f.pending, bot, intent.symbol, intent.SignedQty());
    EntriesFollow(f, after, bot, intent);
  }

  lemma NoEntryWhenIdle(f: Fleet, bot: string)
    requires EntriesMatch(f) && bot in f.bots && f.bots[bot].phase.Idle?
    ensures bot !in f.pending && Reserving(f, bot).None?
  {
    assert Reserving(f, bot).None?;
  }

  lemma EntriesFollow(f: Fleet, after: Fleet, bot: string, intent: OrderIntent)
    requires EntriesMatch(f) && Reserving(f, bot).None?
    requires forall b :: b != bot ==> Reserving(after, b) == Reserving(f, b)
    requires || (Reserving(after, bot).None? && after.pending == f.pending)
             || (Reserving(after, bot) == Some(intent)
                 && after.pending == f.pending[bot := map[intent.symbol := intent.SignedQty()]])
    ensures EntriesMatch(after)
  {
    hide Reserving;
  }

  lemma ReservedAfresh(pending: Books, bot: string, symbol: string, signed: int)
    requires bot !in pending
    ensures Reserved(pending, bot, symbol, signed) == pending[bot := map[symbol := signed]]
  {
  }

  lemma OfferKeepsReserves(maxMini: int, f: Fleet, bot: string, intent: OrderIntent)
    requires CanMove(f, Offer(bot, intent)) && ReservesMatch(f)
    ensures ReservesMatch(Moved(maxMini, f, Offer(bot, intent)))
  {
    hide Total, Registered, FleetCap, EntriesMatch, Reserved;
    OfferKeepsEntries(maxMini, f, bot, intent);
    var after := Moved(maxMini, f, Offer(bot, intent));
    ReserveMoves(f.pending, bot, intent.symbol, intent.SignedQty());
    forall b, s
      ensures Net(after.pending, b, s) == OwnReserve(after, b, s)
    {
      assert Net(f.pending, b, s) == OwnReserve(f, b, s);
    }
  }

  lemma OfferKeepsCap(maxMini: int, f: Fleet, bot: string, intent: OrderIntent)
    requires Capped(maxMini, f) && CanMove(f, Offer(bot, intent))
    ensures Capped(maxMini, Moved(maxMini, f, Offer(bot, intent)))
  {
    hide Moved, WithinFleetCap, ReservesMatch;
    OfferKeepsReserves(maxMini, f, bot, intent);
    forall s { OfferFits(maxMini, f, bot, intent, s); }
  }

  /** Fill and settlement together leave settled plus reserved where it was, in every symbol. */
  lemma SettleKeepsExposure(maxMini: int, f: Fleet, bot: string, price: real)
    requires CanMove(f, FillAndSettle(bot, price)) && bot in f.pending
    ensures forall s :: Exposure(Moved(maxMini, f, FillAndSettle(bot, price)), s) == Exposure(f, s)
  {
    hide Total, Filled;
    var after := Moved(maxMini, f, FillAndSettle(bot, price));
    var intent := f.bots[bot].phase.intent;
    OnlyOneMoves(f, after, bot);
    ReleaseMoves(f.pending, bot, intent.symbol, intent.SignedQty());
    forall s {
      FillMovesQuantity(f.bots[bot].account, intent.symbol, intent.SignedQty(), price, s);
    }
  }

  /** Taking back exactly what a bot had reserved drops its entry and touches no other. */
  lemma ReleaseDropsEntry(f: Fleet, bot: string)
    requires ReservesMatch(f) && Reserving(f, bot).Some?
    ensures bot in f.pending
    ensures var intent := Reserving(f, bot).value;
            Released(f.pending, bot, intent.symbol, intent.SignedQty()) == f.pending - {bot}
  {
    var intent := Reserving(f, bot).value;
    assert bot in f.pending && f.pending[bot].Keys == {intent.symbol};
    assert Net(f.pending, bot, intent.symbol) == OwnReserve(f, bot, intent.symbol);
    assert f.pending[bot] - {intent.symbol} == map[];
  }

  lemma SettleKeepsReserves(maxMini: int, f: Fleet, bot: string, price: real)
    requires ReservesMatch(f) && CanMove(f, FillAndSettle(bot, price))
    ensures bot in f.pending && ReservesMatch(Moved(maxMini, f, FillAndSettle(bot, price)))
  {
    hide Total, Filled, Released;
    ReleaseDropsEntry(f, bot);
    DroppedEntryMatches(f, Moved(maxMini, f, FillAndSettle(bot, price)), bot);
  }

  lemma DroppedEntryMatches(f: Fleet, after: Fleet, bot: string)
    requires ReservesMatch(f) && Reserving(after, bot).None? && after.pending == f.pending - {bot}
    requires forall b :: b != bot ==> Reserving(after, b) == Reserving(f, b)
    ensures ReservesMatch(after)
  {
    hide Reserving;
    forall b, s
      ensures Net(after.pending, b, s) == OwnReserve(after, b, s)
    {
      assert Net(f.pending, b, s) == OwnReserve(f, b, s);
    }
  }

  lemma SettleKeepsCap(maxMini: int, f: Fleet, bot: string, price: real)
    requires Capped(maxMini, f) && CanMove(f, FillAndSettle(bot, price))
    ensures Capped(maxMini, Moved(maxMini, f, FillAndSettle(bot, price)))
  {
    hide Moved, ReservesMatch, Registered, FleetCap, Exposure;
    SettleKeepsReserves(maxMini, f, bot, price);
    SettleKeepsExposure(maxMini, f, bot, price);
    forall s
      ensures WithinFleetCap(maxMini, Moved(maxMini, f, FillAndSettle(bot, price)), s)
    {
      assert WithinFleetCap(maxMini, f, s);
    }
  }

  /** Marks and failures move no contract and no reservation. */
  lemma OthersMoveNothing(maxMini: int, f: Fleet, m: Move)
    requires CanMove(f, m) && (m.MarkBar? || m.Fail?)
    ensures var after := Moved(maxMini, f, m);
            && after.pending == f.pending && (forall b :: Reserving(after, b) == Reserving(f, b))
            && (forall s :: Total(Positions(after), s) == Total(Positions(f), s))
  {
    hide Total, TotalOpenPnl;
    OnlyOneMoves(f, Moved(maxMini, f, m), m.bot);
  }

  lemma OtherMovesKeepCap(maxMini: int, f: Fleet, m: Move)
    requires Capped(maxMini, f) && CanMove(f, m) && (m.MarkBar? || m.Fail?)
    ensures Capped(maxMini, Moved(maxMini, f, m))
  {
    hide Moved, Registered, FleetCap, Total;
    OthersMoveNothing(maxMini, f, m);
    forall s
      ensures WithinFleetCap(maxMini, Moved(maxMini, f, m), s)
    {
      assert WithinFleetCap(maxMini, f, s);
    }
  }

  lemma MoveKeepsCap(maxMini: int, f: Fleet, m: Move)
    requires Capped(maxMini, f) && CanMove(f, m)
    ensures Capped(maxMini, Moved(maxMini, f, m))
  {
    hide Capped, Moved;
    match m
    case MarkBar(_, _, _) => OtherMovesKeepCap(maxMini, f, m);
    case Offer(bot, intent) => OfferKeepsCap(maxMini, f, bot, intent);
    case FillAndSettle(bot, price) => SettleKeepsCap(maxMini, f, bot, price);
    case Fail(_) => OtherMovesKeepCap(maxMini, f, m);
  }

  /** Bots that have not traded. */
  predicate AllFlat(f: Fleet) {
    && (forall b :: b in f.bots ==> f.bots[b].phase.Idle? && f.bots[b].account.positions == map[])
    && f.pending == map[]
  }

  lemma FlatIsCapped(maxMini: int, f: Fleet)
    requires AllFlat(f) && maxMini > 0
    ensures Capped(maxMini, f)
  {
    hide GetMarket, Total;
    forall s
      ensures WithinFleetCap(maxMini, f, s)
    {
      NothingTotal(Positions(f), s);
      NothingTotal(f.pending, s);
    }
  }

  /** However the bots' steps interleave, whatever they offer, whoever fails: settled plus
      reserved contracts stay within the account cap, each bot's reservation is exactly its
      order in flight, and settled contracts alone are within the cap when none is. */
  lemma {:induction false} EveryInterleavingKeepsCap(maxMini: int, f: Fleet, moves: seq<Move>)
    requires AllFlat(f) && maxMini > 0 && CanRun(maxMini, f, moves)
    ensures var g := RunMoves(maxMini, f, moves);
            && Capped(maxMini, g)
            && forall s :: (forall b :: OwnReserve(g, b, s) == 0) && Registered(s)
                           ==> Abs(Total(Positions(g), s)) <= FleetCap(maxMini, s)
  {
    hide Capped, Moved, Total, Registered, FleetCap;
    FlatIsCapped(maxMini, f);
    RunKeepsCap(maxMini, f, moves);
    var g := RunMoves(maxMini, f, moves);
    forall s | (forall b :: OwnReserve(g, b, s) == 0) && Registered(s)
      ensures Abs(Total(Positions(g), s)) <= FleetCap(maxMini, s)
    {
      SettledAloneIsCapped(maxMini, g, s);
    }
  }

  lemma SettledAloneIsCapped(maxMini: int, f: Fleet, s: string)
    requires Capped(maxMini, f) && Registered(s)
    requires forall b :: OwnReserve(f, b, s) == 0
    ensures Abs(Total(Positions(f), s)) <= FleetCap(maxMini, s)
  {
    hide Total, Registered, FleetCap, Reserving;
    NothingTotal(f.pending, s);
    assert WithinFleetCap(maxMini, f, s);
  }

  lemma {:induction false} RunKeepsCap(maxMini: int, f: Fleet, moves: seq<Move>)
    requires Capped(maxMini, f) && CanRun(maxMini, f, moves)
    ensures Capped(maxMini, RunMoves(maxMini, f, moves))
    decreases |moves|
  {
    hide Capped, Moved;
    if moves != [] {
      MoveKeepsCap(maxMini, f, moves[0]);
      RunKeepsCap(maxMini, Moved(maxMini, f, moves[0]), moves[1..]);
    }
  }

  // ---- Steps put together ---------------------------------------------------------

  /** An offer that fits is approved, and its contracts are reserved. */
  lemma OfferThatFits(maxMini: int, f: Fleet, bot: string, intent: OrderIntent)
    requires CanMove(f, Offer(bot, intent)) && Registered(intent.symbol)
    requires Abs(Exposure(f, intent.symbol) + intent.SignedQty()) <= FleetCap(maxMini, intent.symbol)
    ensures var after := Moved(maxMini, f, Offer(bot, intent));
            && after == Fleet(f.bots[bot := f.bots[bot].(phase := InFlight(intent))], after.pending)
            && bot in after.pending
            && (forall s :: Total(Positions(after), s) == Total(Positions(f), s))
            && (forall s :: Total(after.pending, s)
                         == Total(f.pending, s) + (if s == intent.symbol then intent.SignedQty() else 0))
  {
    hide Total, Registered, FleetCap;
    OnlyOneMoves(f, Moved(maxMini, f, Offer(bot, intent)), bot);
    ReserveMoves(f.pending, bot, intent.symbol, intent.SignedQty());
  }

  /** What an offer comes to: within the cap the bot's order is in flight and reserved; over it
      nothing happens; in an unregistered contract the bot dies with nothing reserved. Its
      positions and the other bots are left alone. */
  lemma OfferOutcome(maxMini: int, f: Fleet, bot: string, intent: OrderIntent)
    requires CanMove(f, Offer(bot, intent))
    ensures var after := Moved(maxMini, f, Offer(bot, intent));
            && after.bots == f.bots[bot := f.bots[bot].(phase := after.bots[bot].phase)]
            && (after.bots[bot].phase == InFlight(intent) <==>
                  && Registered(intent.symbol)
                  && Abs(Exposure(f, intent.symbol) + intent.SignedQty()) <= FleetCap(maxMini, intent.symbol))
            && (after.bots[bot].phase == Crashed(None) <==> !Registered(intent.symbol))
            && (after.bots[bot].phase == Idle ==> after == f)
            && (after.bots[bot].phase != InFlight(intent) ==> after.pending == f.pending)
  {
    hide Registered, FleetCap, Total;
  }

  lemma CapIsPositive(maxMini: int, symbol: string)
    requires maxMini > 0 && Registered(symbol)
    ensures FleetCap(maxMini, symbol) > 0
  {
    ValuesArePositive(symbol);
    assert forall i :: 0 <= i < |MARKETS| ==> MARKETS[i].microToFullRatio > 0;
  }

  lemma FlatTotals(f: Fleet, s: string)
    requires AllFlat(f)
    ensures Total(Positions(f), s) == 0 && Total(f.pending, s) == 0
  {
    NothingTotal(Positions(f), s);
    NothingTotal(f.pending, s);
  }

  /** A fill moves the settled total by the order's quantity. */
  lemma FillMovesTotal(maxMini: int, f: Fleet, bot: string, price: real, s: string)
    requires CanMove(f, FillAndSettle(bot, price)) && f.bots[bot].phase.intent.symbol == s
    ensures Total(Positions(Moved(maxMini, f, FillAndSettle(bot, price))), s)
         == Total(Positions(f), s) + f.bots[bot].phase.intent.SignedQty()
  {
    hide Total, Filled, Released;
    OnlyOneMoves(f, Moved(maxMini, f, FillAndSettle(bot, price)), bot);
    FillMovesQuantity(f.bots[bot].account, s, f.bots[bot].phase.intent.SignedQty(), price, s);
  }

  /** Three idle bots and a buy and a sell of a whole cap. */
  predicate Staged(maxMini: int, f: Fleet, up: OrderIntent, down: OrderIntent) {
    && {"a", "b", "c"} <= f.bots.Keys && AllFlat(f) && maxMini > 0
    && up.symbol == down.symbol && Registered(up.symbol)
    && up.SignedQty() == FleetCap(maxMini, up.symbol) && down.SignedQty() == -up.SignedQty()
  }

  lemma OneMove(maxMini: int, f: Fleet, m: Move)
    requires CanMove(f, m)
    ensures CanRun(maxMini, f, [m]) && RunMoves(maxMini, f, [m]) == Moved(maxMini, f, m)
  {
    hide Moved, CanMove;
    assert [m][1..] == [];
    assert CanRun(maxMini, Moved(maxMini, f, m), []);
  }

  lemma {:induction false} OneMoreMove(maxMini: int, f: Fleet, moves: seq<Move>, m: Move)
    requires CanRun(maxMini, f, moves) && CanMove(RunMoves(maxMini, f, moves), m)
    ensures CanRun(maxMini, f, moves + [m])
    ensures RunMoves(maxMini, f, moves + [m]) == Moved(maxMini, RunMoves(maxMini, f, moves), m)
    decreases |moves|
  {
    hide Moved, CanMove;
    if moves == [] {
      assert [] + [m] == [m];
      OneMove(maxMini, f, m);
    } else {
      assert (moves + [m])[0] == moves[0] && (moves + [m])[1..] == moves[1..] + [m];
      OneMoreMove(maxMini, Moved(maxMini, f, moves[0]), moves[1..], m);
    }
  }
}
