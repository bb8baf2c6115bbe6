/** The registry of the six supported futures markets. */
module Markets {
  import opened Types

  datatype MarketSpec = MarketSpec(
    root: string, tickSize: real, tickValue: real, multiplier: real,
    microRoot: Option<string>, microToFullRatio: nat)

  /** The registry in lookup order: three-character roots before the two-character ones
      they end in, so that "MNQH26" is not taken for an NQ contract. */
  const MARKETS: seq<MarketSpec> := [
    MarketSpec("MNQ", 0.25, 0.5, 2.0, None, 10),
    MarketSpec("MES", 0.25, 1.25, 5.0, None, 10),
    MarketSpec("MGC", 0.1, 1.0, 10.0, None, 10),
    MarketSpec("NQ", 0.25, 5.0, 20.0, Some("MNQ"), 10),
    MarketSpec("ES", 0.25, 12.5, 50.0, Some("MES"), 10),
    MarketSpec("GC", 0.1, 10.0, 100.0, Some("MGC"), 10)]

  /** The first market whose root is a prefix of `symbol`. */
  function FindPrefix(symbol: string, markets: seq<MarketSpec>): Option<MarketSpec> {
    if markets == [] then None
    else if markets[0].root <= symbol then Some(markets[0])
    else FindPrefix(symbol, markets[1..])
  }

  /** The market with exactly this root. */
  function FindRoot(root: string, markets: seq<MarketSpec>): Option<MarketSpec> {
    if markets == [] then None
    else if markets[0].root == root then Some(markets[0])
    else FindRoot(root, markets[1..])
  }

  /** Bare roots and root+contract codes both resolve; None is the source's KeyError. */
  function GetMarket(symbol: string): Option<MarketSpec> {
    FindPrefix(symbol, MARKETS)
  }

  predicate IsRoot(symbol: string) {
    FindRoot(symbol, MARKETS).Some?
  }

  predicate Registered(symbol: string) {
    GetMarket(symbol).Some?
  }

  predicate IsMicro(market: MarketSpec) {
    market.microRoot.None? && "M" <= market.root
  }

  /** Dollars per point. Zero stands for "not registered": the source raises there. */
  function PointValue(symbol: string): real {
    if GetMarket(symbol).Some? then GetMarket(symbol).value.multiplier else 0.0
  }

  function TickValue(symbol: string): real {
    if GetMarket(symbol).Some? then GetMarket(symbol).value.tickValue else 0.0
  }

  /** Registered markets have positive values. */
  lemma ValuesArePositive(symbol: string)
    requires Registered(symbol)
    ensures PointValue(symbol) > 0.0 && TickValue(symbol) > 0.0
    ensures GetMarket(symbol).value in MARKETS
  {
    FoundPrefix(symbol, MARKETS);
  }

  lemma {:induction false} FoundPrefix(symbol: string, markets: seq<MarketSpec>)
    requires FindPrefix(symbol, markets).Some?
    ensures FindPrefix(symbol, markets).value in markets && FindPrefix(symbol, markets).value.root <= symbol
    decreases |markets|
  {
    if !(markets[0].root <= symbol) {
      FoundPrefix(symbol, markets[1..]);
    }
  }

  /** The account cap in contracts: micros count `ratio` to the mini. */
  function ContractCap(maxMini: int, market: MarketSpec): int {
    if IsMicro(market) then maxMini * market.microToFullRatio else maxMini
  }

  /** The simulator, the report and the proof walker key their point values by bare root
      only and compute them as tick value over tick size; zero again stands for raising. */
  function TickRatio(symbol: string): real {
    if IsRoot(symbol) && FindRoot(symbol, MARKETS).value.tickSize != 0.0
    then FindRoot(symbol, MARKETS).value.tickValue / FindRoot(symbol, MARKETS).value.tickSize
    else 0.0
  }

  /** The two ways of looking a point value up agree on every bare root. */
  lemma TickRatioIsPointValue(symbol: string)
    requires IsRoot(symbol)
    ensures Registered(symbol) && TickRatio(symbol) == PointValue(symbol)
  {
    RootIsItsOwnPrefix(symbol);
    FoundPrefix(symbol, MARKETS);
    assert forall i :: 0 <= i < |MARKETS| ==> MARKETS[i].tickValue / MARKETS[i].tickSize == MARKETS[i].multiplier;
  }

  /** Micro roots have three characters starting with M, full roots two that do not. */
  predicate RootShape(root: string) {
    if |root| == 3 then root[0] == 'M' else |root| == 2 && root[0] != 'M'
  }

  /** So no root is a proper prefix of another, and prefix search finds a root itself. */
  lemma RootIsItsOwnPrefix(symbol: string)
    requires IsRoot(symbol)
    ensures GetMarket(symbol) == FindRoot(symbol, MARKETS)
  {
    assert forall i :: 0 <= i < |MARKETS| ==> RootShape(MARKETS[i].root);
    RootFoundByPrefix(symbol, MARKETS);
  }

  lemma {:induction false} RootFoundByPrefix(symbol: string, markets: seq<MarketSpec>)
    requires forall i :: 0 <= i < |markets| ==> RootShape(markets[i].root)
    requires FindRoot(symbol, markets).Some?
    ensures RootShape(symbol)
    ensures FindPrefix(symbol, markets) == FindRoot(symbol, markets)
    decreases |markets|
  {
    if markets[0].root != symbol {
      RootFoundByPrefix(symbol, markets[1..]);
    }
  }

  // ---- The registry in numbers ------------------------------------------------

  /** Dollars a tick, contract by contract. */
  function TickDollars(symbol: string): real {
    if "MNQ" <= symbol then 0.5
    else if "MES" <= symbol then 1.25
    else if "MGC" <= symbol then 1.0
    else if "NQ" <= symbol then 5.0
    else if "ES" <= symbol then 12.5
    else 10.0
  }

  /** A quarter of a point on the index futures, a tenth on gold. */
  function TickPoints(symbol: string): real {
    if "MGC" <= symbol || "GC" <= symbol then 0.1 else 0.25
  }

  /** Contracts that count as one mini. */
  function PerMini(symbol: string): int {
    if "M" <= symbol then 10 else 1
  }

  /** Prefix search, with its micros-first order, finds exactly these figures. */
  lemma RegistryInNumbers(symbol: string)
    requires Registered(symbol)
    ensures TickValue(symbol) == TickDollars(symbol)
    ensures GetMarket(symbol).value.tickSize == TickPoints(symbol)
    ensures PointValue(symbol) == TickDollars(symbol) / TickPoints(symbol)
    ensures forall maxMini :: ContractCap(maxMini, GetMarket(symbol).value) == maxMini * PerMini(symbol)
  {
    ValuesArePositive(symbol);
    FoundPrefix(symbol, MARKETS);
    var root := GetMarket(symbol).value.root;
    assert root <= symbol;
    assert forall i :: 0 <= i < |MARKETS| ==> MARKETS[i].root in {"MNQ", "MES", "MGC", "NQ", "ES", "GC"};
    assert symbol[0] == root[0] && symbol[1] == root[1];
  }

  /** A micro contract moves in the ticks of its full contract, at a tenth of the dollars,
      and ten of it fill the cap one of the full contract does. */
  lemma MicroIsATenth(full: string)
    requires full in {"NQ", "ES", "GC"}
    ensures Registered(full) && Registered("M" + full)
    ensures GetMarket("M" + full).value.tickSize == GetMarket(full).value.tickSize
    ensures TickValue("M" + full) * 10.0 == TickValue(full) && PointValue("M" + full) * 10.0 == PointValue(full)
    ensures forall maxMini :: ContractCap(maxMini, GetMarket("M" + full).value)
                           == 10 * ContractCap(maxMini, GetMarket(full).value)
  {
    assert "M" + "NQ" == "MNQ" && "M" + "ES" == "MES" && "M" + "GC" == "MGC";
    var micro := "M" + full;
    assert IsRoot(full) && IsRoot(micro);
    RootIsItsOwnPrefix(full);
    RootIsItsOwnPrefix(micro);
  }

  /** A longer code of a registered symbol is in the same market. */
  lemma LongerCodeSameMarket(symbol: string, longer: string)
    requires Registered(symbol) && symbol <= longer
    ensures GetMarket(longer) == GetMarket(symbol)
  {
    assert forall i :: 0 <= i < |MARKETS| ==> RootShape(MARKETS[i].root);
    SamePrefixMarket(symbol, longer, MARKETS);
  }

  lemma {:induction false} SamePrefixMarket(symbol: string, longer: string, markets: seq<MarketSpec>)
    requires forall i :: 0 <= i < |markets| ==> RootShape(markets[i].root)
    requires FindPrefix(symbol, markets).Some? && symbol <= longer
    ensures FindPrefix(longer, markets) == FindPrefix(symbol, markets)
    decreases |markets|
  {
    var root := markets[0].root;
    if !(root <= symbol) {
      SamePrefixMarket(symbol, longer, markets[1..]);
      FoundPrefix(symbol, markets[1..]);
    }
  }
}
