/** The fleet allocator: one account-wide cap in front of many bots, and the table of what
    they have been promised. */
module Allocator {
  import opened Types
  import opened Markets
  import opened Sums

  /** Signed contracts by bot, then by symbol: what trackers hold, or what is reserved. */
  type Books = map<string, map<string, int>>

  function Net(books: Books, bot: string, symbol: string): int {
    if bot in books then Held(books[bot], symbol) else 0
  }

  ghost function Nets(books: Books, symbol: string): string -> int {
    bot => Net(books, bot, symbol)
  }

  /** All bots' contracts in one symbol. */
  ghost function Total(books: Books, symbol: string): int {
    SumInt(books.Keys, Nets(books, symbol))
  }

  /** A change confined to one bot moves the total by that bot's change. */
  lemma TotalMoves(before: Books, after: Books, bot: string, symbol: string)
    requires before.Keys + {bot} == after.Keys + {bot}
    requires forall b :: b != bot ==> Net(before, b, symbol) == Net(after, b, symbol)
    ensures Total(after, symbol) - Net(after, bot, symbol) == Total(before, symbol) - Net(before, bot, symbol)
  {
    ChangeInt(before.Keys, Nets(before, symbol), after.Keys, Nets(after, symbol), bot);
  }

  lemma NothingTotal(books: Books, symbol: string)
    requires forall b :: Net(books, b, symbol) == 0
    ensures Total(books, symbol) == 0
  {
    SameInt(books.Keys, Nets(books, symbol), _ => 0);
    ZeroSum(books.Keys);
  }

  lemma {:induction false} ZeroSum(keys: set<string>)
    ensures SumInt(keys, _ => 0) == 0
    decreases keys
  {
    if keys != {} {
      var k :| k in keys;
      TakeInt(keys, _ => 0, k);
      ZeroSum(keys - {k});
    }
  }

  // ---- The allocator's bookkeeping --------------------------------------------

  /** The account cap in contracts. Unlike the gate, the allocator tells a micro by its
      having no smaller variant, whatever its name. */
  function CapFor(maxMini: int, market: MarketSpec): int {
    if market.microRoot.None? then maxMini * market.microToFullRatio else maxMini
  }

  function FleetCap(maxMini: int, symbol: string): int
    requires Registered(symbol)
  {
    CapFor(maxMini, GetMarket(symbol).value)
  }

  /** On the registry the two ways of telling a micro, and so the two caps, agree. */
  lemma GateAndFleetCapsAgree(maxMini: int, symbol: string)
    requires Registered(symbol)
    ensures FleetCap(maxMini, symbol) == ContractCap(maxMini, GetMarket(symbol).value)
  {
    ValuesArePositive(symbol);
    assert forall i :: 0 <= i < |MARKETS| ==> (MARKETS[i].microRoot.None? <==> IsMicro(MARKETS[i]));
  }

  function Reserved(pending: Books, bot: string, symbol: string, signed: int): Books {
    var book := if bot in pending then pending[bot] else map[];
    pending[bot := book[symbol := Held(book, symbol) + signed]]
  }

  /** Nothing for a bot never seen; otherwise the entry moves back, and empty entries and
      empty books are dropped. */
  function Released(pending: Books, bot: string, symbol: string, signed: int): Books {
    if bot !in pending then pending
    else
      var left := Held(pending[bot], symbol) - signed;
      var book := if left == 0 then pending[bot] - {symbol} else pending[bot][symbol := left];
      if book == map[] then pending - {bot} else pending[bot := book]
  }

  datatype FleetVerdict = FleetApproved | FleetDenied | FleetRaised

  ghost function Approval(maxMini: int, pending: Books, bot: string, intent: OrderIntent, positions: Books): (Books,
                          FleetVerdict) {
    if !Registered(intent.symbol) then (pending, FleetRaised)
    else if Abs(Total(positions, intent.symbol) + Total(pending, intent.symbol) + intent.SignedQty())
            > FleetCap(maxMini, intent.symbol) then (pending, FleetDenied)
    else (Reserved(pending, bot, intent.symbol, intent.SignedQty()), FleetApproved)
  }

  /** Settled and reserved contracts of a symbol together, over all bots. */
  ghost function Committed(pending: Books, positions: Books, symbol: string): int {
    Total(positions, symbol) + Total(pending, symbol)
  }

  /** The allocator lets an order through exactly when its symbol is registered and the
      projection stays within the cap, and raises exactly when it is not registered; only an
      approval reserves anything. */
  lemma ApprovalIsRoom(maxMini: int, pending: Books, bot: string, intent: OrderIntent, positions: Books)
    ensures var (after, verdict) := Approval(maxMini, pending, bot, intent, positions);
            && (verdict == FleetApproved <==>
                  Registered(intent.symbol)
                  && Abs(Committed(pending, positions, intent.symbol) + intent.SignedQty())
                     <= FleetCap(maxMini, intent.symbol))
            && (verdict == FleetRaised <==> !Registered(intent.symbol))
            && (verdict != FleetApproved ==> after == pending)
  {
    hide Total, Registered, FleetCap;
  }

  lemma ReserveMoves(pending: Books, bot: string, symbol: string, signed: int)
    ensures var after := Reserved(pending, bot, symbol, signed);
            && (forall b, s :: Net(after, b, s) == Net(pending, b, s) + (if b == bot && s == symbol then signed else 0))
            && (forall s :: Total(after, s) == Total(pending, s) + (if s == symbol then signed else 0))
  {
    var after := Reserved(pending, bot, symbol, signed);
    forall s
      ensures Total(after, s) == Total(pending, s) + (if s == symbol then signed else 0)
    {
      TotalMoves(pending, after, bot, s);
    }
  }

  /** Releasing what was reserved takes exactly that quantity back. */
  lemma ReleaseMoves(pending: Books, bot: string, symbol: string, signed: int)
    requires bot in pending
    ensures var after := Released(pending, bot, symbol, signed);
            && (forall b, s :: Net(after, b, s) == Net(pending, b, s) - (if b == bot && s == symbol then signed else 0))
            && (forall s :: Total(after, s) == Total(pending, s) - (if s == symbol then signed else 0))
  {
    var after := Released(pending, bot, symbol, signed);
    var left := Held(pending[bot], symbol) - signed;
    var book := if left == 0 then pending[bot] - {symbol} else pending[bot][symbol := left];
    assert forall s :: Held(book, s) == Held(pending[bot], s) - (if s == symbol then signed else 0);
    forall s
      ensures Total(after, s) == Total(pending, s) - (if s == symbol then signed else 0)
    {
      assert forall b :: b != bot ==> Net(pending, b, s) == Net(after, b, s);
      TotalMoves(pending, after, bot, s);
    }
  }

  /** An approval followed by its release leaves every reserved quantity as it was. */
  lemma ReleaseUndoesReserve(pending: Books, bot: string, symbol: string, signed: int)
    ensures var after := Released(Reserved(pending, bot, symbol, signed), bot, symbol, signed);
            forall b, s :: Net(after, b, s) == Net(pending, b, s)
  {
    ReserveMoves(pending, bot, symbol, signed);
    ReleaseMoves(Reserved(pending, bot, symbol, signed), bot, symbol, signed);
  }

  class FleetAllocator {
    const maxMini: int
    var pending: Books

    constructor (accountMaxMini: int)
      requires accountMaxMini > 0
      ensures maxMini == accountMaxMini && pending == map[]
    {
      maxMini := accountMaxMini;
      pending := map[];
    }

    method ApproveIntent(botName: string, intent: OrderIntent, fleetPositions: Books) returns (verdict: FleetVerdict)
      modifies this
      ensures (pending, verdict) == Approval(maxMini, old(pending), botName, intent, fleetPositions)
    {
      hide Registered, GetMarket, Total;
      if GetMarket(intent.symbol).None? {
        assert !Registered(intent.symbol) by { LookupIsRegistration(intent.symbol); }
        return FleetRaised;
      }
      LookupIsRegistration(intent.symbol);
      var cap := CapFor(maxMini, GetMarket(intent.symbol).value);
      var signed := intent.SignedQty();
      var settled := SumFor(fleetPositions, intent.symbol);
      var reserved := SumFor(pending, intent.symbol);
      var projected := settled + reserved + signed;
      if Abs(projected) > cap {
        return FleetDenied;
      }
      var book := if botName in pending then pending[botName] else map[];
      pending := pending[botName := book[intent.symbol := Held(book, intent.symbol) + signed]];
      return FleetApproved;
    }

    /** The sum of one symbol over every bot's book. */
    static method SumFor(books: Books, symbol: string) returns (total: int)
      ensures total == Total(books, symbol)
    {
      total := 0;
      var rest := books.Keys;
      while rest != {}
        invariant rest <= books.Keys
        invariant total + SumInt(rest, Nets(books, symbol)) == Total(books, symbol)
        decreases rest
      {
        var bot :| bot in rest;
        TakeInt(rest, Nets(books, symbol), bot);
        total := total + Held(books[bot], symbol);
        rest := rest - {bot};
      }
    }

    method ReleaseIntent(botName: string, intent: OrderIntent)
      modifies this
      ensures pending == Released(old(pending), botName, intent.symbol, intent.SignedQty())
    {
      if botName !in pending {
        return;
      }
      var book := pending[botName];
      book := book[intent.symbol := Held(book, intent.symbol) - intent.SignedQty()];
      if book[intent.symbol] == 0 {
        assert book - {intent.symbol} == pending[botName] - {intent.symbol};
        book := book - {intent.symbol};
      }
      pending := pending[botName := book];
      if book == map[] {
        assert pending - {botName} == old(pending) - {botName};
        pending := pending - {botName};
      }
    }

    method SettleIntent(botName: string, intent: OrderIntent)
      modifies this
      ensures pending == Released(old(pending), botName, intent.symbol, intent.SignedQty())
    {
      ReleaseIntent(botName, intent);
    }
  }

  lemma LookupIsRegistration(symbol: string)
    ensures Registered(symbol) <==> GetMarket(symbol).Some?
  {
    hide GetMarket;
  }
}
