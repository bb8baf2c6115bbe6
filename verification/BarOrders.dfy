/** What the orders of one bar add up to, all of them judged against the same snapshot. */
module BarOrders {
  import opened Types
  import opened Markets
  import opened Drawdown
  import opened CancelTracker
  import opened GateRules
  import opened Gate
  import opened Ledger
  import opened LiveLoop

  /** Contracts of a symbol in the orders that get through, each judged on its own at the
      snapshot; the first that raises ends the bar. */
  ghost function Added(rules: Rules, disabled: bool, ratio: Ratio, state: AccountState, proposals: seq<Proposal>,
                       symbol: string): int
    decreases |proposals|
  {
    if proposals == [] then 0
    else
      var p := proposals[0];
      var decision := Decide(rules, disabled, ratio, p.around.journal, p.intent, state);
      var sent := decision.Approved? && HasRoom(p.around.fleet, p.intent.symbol, p.intent.SignedQty());
      if decision.Raised? || (sent && !p.around.brokerTakes) then 0
      else (if sent && p.intent.symbol == symbol then p.intent.SignedQty() else 0)
           + Added(rules, disabled, ratio, state, proposals[1..], symbol)
  }

  /** Asking prunes the cancel history to the window once; asking again at the same time sees
      the same ratio. */
  lemma AskKeepsRatio(rules: Rules, g: GateState, journal: JournalView, intent: OrderIntent, state: AccountState)
    ensures var after := Ask(rules, g, journal, intent, state).0;
            RatioNow(after, state) == RatioNow(g, state) && after.disabled == g.disabled
  {
    hide FirstSix, Decide, RatioOf;
    var cutoff := state.timestamp.instant - WINDOW;
    KeptTwice(g.history.cancels, cutoff, cutoff);
    KeptTwice(g.history.fills, cutoff, cutoff);
  }

  lemma ApprovedSameSize(rules: Rules, disabled: bool, ratio: Ratio, journal: JournalView, intent: OrderIntent,
                         state: AccountState)
    requires Decide(rules, disabled, ratio, journal, intent, state).Approved?
    ensures var order := Decide(rules, disabled, ratio, journal, intent, state).intent;
            order.symbol == intent.symbol && order.SignedQty() == intent.SignedQty()
  {
    hide FirstSix, RoomTicks;
  }

  /** For any orders, journals and fleets: after the bar each symbol holds what it held plus
      the orders that get through when judged one by one at the snapshot, as if none of the
      others were there. */
  lemma {:induction false} BarMovesByAdded(rules: Rules, d: Desk, state: AccountState, close: real,
                                           proposals: seq<Proposal>, symbol: string)
    ensures Held(Pump(rules, d, state, close, proposals).desk.account.positions, symbol)
         == Held(d.account.positions, symbol)
            + Added(rules, d.gate.disabled, RatioNow(d.gate, state), state, proposals, symbol)
    decreases |proposals|
  {
    hide Placed, Decide, HasRoom, RatioNow;
    if proposals != [] {
      var p := proposals[0];
      var first := Placed(rules, d, state, close, p);
      PlacedMoves(rules, d, state, close, p, symbol);
      if !first.raised {
        BarMovesByAdded(rules, first.desk, state, close, proposals[1..], symbol);
      }
    }
  }

  /** One order of the bar. */
  lemma PlacedMoves(rules: Rules, d: Desk, state: AccountState, close: real, p: Proposal, symbol: string)
    ensures var first := Placed(rules, d, state, close, p);
            var decision := Decide(rules, d.gate.disabled, RatioNow(d.gate, state), p.around.journal, p.intent, state);
            var sent := decision.Approved? && HasRoom(p.around.fleet, p.intent.symbol, p.intent.SignedQty());
            && first.decision == decision
            && first.desk.gate.disabled == d.gate.disabled
                && RatioNow(first.desk.gate, state) == RatioNow(d.gate, state)
            && (first.raised <==> decision.Raised? || (sent && !p.around.brokerTakes))
            && Held(first.desk.account.positions, symbol)
               == Held(d.account.positions, symbol)
                  + (if sent && p.around.brokerTakes && p.intent.symbol == symbol then p.intent.SignedQty() else 0)
  {
    hide Filled, Decide, FirstSix, HasRoom, RatioNow;
    AskKeepsRatio(rules, d.gate, p.around.journal, p.intent, state);
    var decision := Decide(rules, d.gate.disabled, RatioNow(d.gate, state), p.around.journal, p.intent, state);
    if decision.Approved? {
      ApprovedSameSize(rules, d.gate.disabled, RatioNow(d.gate, state), p.around.journal, p.intent, state);
      FillMovesQuantity(d.account, decision.intent.symbol, decision.intent.SignedQty(), close, symbol);
    }
  }

  // ---- The cap ------------------------------------------------------------------

  /** A quantity of a symbol the Combine cap allows. */
  predicate FitsCap(policy: Policy, symbol: string, quantity: int)
    requires policy.Combine?
  {
    quantity != 0 ==>
      Registered(symbol) && Abs(quantity) <= ContractCap(policy.maxMini, GetMarket(symbol).value)
  }

  /** No symbol holds more contracts than the Combine cap. */
  ghost predicate WithinCap(policy: Policy, positions: map<string, int>)
    requires policy.Combine?
  {
    forall s :: FitsCap(policy, s, Held(positions, s))
  }

  /** What is held and what the orders add, each judged alone, fit the cap in every symbol. */
  ghost predicate OrdersFit(rules: Rules, g: GateState, state: AccountState, positions: map<string, int>,
                            proposals: seq<Proposal>)
    requires rules.policy.Combine?
  {
    forall s :: FitsCap(rules.policy, s,
                        Held(positions, s) + Added(rules, g.disabled, RatioNow(g, state), state, proposals, s))
  }

  /** The cap holds after a bar if and only if its orders fit together. */
  lemma CapHoldsExactly(rules: Rules, d: Desk, state: AccountState, close: real, proposals: seq<Proposal>)
    requires rules.policy.Combine?
    ensures WithinCap(rules.policy, Pump(rules, d, state, close, proposals).desk.account.positions)
       <==> OrdersFit(rules, d.gate, state, d.account.positions, proposals)
  {
    hide Pump, Added, FitsCap, RatioNow;
    var after := Pump(rules, d, state, close, proposals).desk.account.positions;
    forall s
      ensures Held(after, s)
           == Held(d.account.positions, s) + Added(rules, d.gate.disabled, RatioNow(d.gate, state), state, proposals, s)
    {
      BarMovesByAdded(rules, d, state, close, proposals, s);
    }
  }

  /** A single order that is approved at the true positions fits. */
  lemma OneOrderFitsCap(rules: Rules, g: GateState, state: AccountState, positions: map<string, int>,
                        proposals: seq<Proposal>)
    requires rules.policy.Combine? && WithinCap(rules.policy, positions)
    requires |proposals| <= 1 && state.openPositions == positions
    ensures OrdersFit(rules, g, state, positions, proposals)
  {
    hide Decide, RatioNow, HasRoom, GetMarket;
    var ratio := RatioNow(g, state);
    forall s
      ensures FitsCap(rules.policy, s, Held(positions, s) + Added(rules, g.disabled, ratio, state, proposals, s))
    {
      assert FitsCap(rules.policy, s, Held(positions, s));
      if proposals != [] {
        var p := proposals[0];
        assert proposals[1..] == [];
        if Decide(rules, g.disabled, ratio, p.around.journal, p.intent, state).Approved? {
          ApprovedFitsCap(rules, g.disabled, ratio, p.around.journal, p.intent, state);
        }
      }
    }
  }

  lemma ApprovedFitsCap(rules: Rules, disabled: bool, ratio: Ratio, journal: JournalView, intent: OrderIntent,
                        state: AccountState)
    requires rules.policy.Combine? && Decide(rules, disabled, ratio, journal, intent, state).Approved?
    ensures FitsCap(rules.policy, intent.symbol, Held(state.openPositions, intent.symbol) + intent.SignedQty())
  {
    if !disabled {
      ApprovalPassedEveryRule(rules, ratio, journal, intent, state);
    }
    hide FirstSix, RoomTicks;
  }

  // ---- Two orders that pass the cap together --------------------------------------

  const EXAMPLE := Rules(Combine(50000.0, 2000.0, 5), NewsCalendar([], 0, 0, 0), Config(false, 10.0, 2), "NQ")

  const MORNING := Timestamp(0, 10 * 60)

  /** Buy `quantity` NQ with a ten-tick stop and target. */
  function Buy(quantity: int): OrderIntent {
    OrderIntent("NQ", BUY, quantity, BRACKET, OrderId("example", 0, 0, ""), MORNING, None, None, Some(Bracket(10, 10)))
  }

  /** A morning state of an untouched fifty-thousand account. */
  function Untouched(positions: map<string, int>): AccountState {
    AccountState(50000.0, 0.0, 0.0, positions, 50000.0, true, MORNING, false, None, 50000.0)
  }

  lemma UntouchedTick(g: GateState, held: map<string, int>)
    ensures Ticked(EXAMPLE, g, Untouched(held)) == (g, Untouched(held))
  {
  }

  lemma BuyIsApproved(quantity: int, held: map<string, int>)
    requires 1 <= quantity <= 3 && 0 <= Held(held, "NQ") && Held(held, "NQ") + quantity <= 5
    ensures Decide(EXAMPLE, false, Finite(0.0), NO_JOURNAL, Buy(quantity), Untouched(held))
         == Approved(Buy(quantity), Untouched(held))
    ensures Registered("NQ") && ContractCap(5, GetMarket("NQ").value) == 5
  {
    NqIsRegistered();
    hide GetMarket;
    var state := Untouched(held);
    assert PerTick(Buy(quantity)) == 5.0 * quantity as real;
    assert EXAMPLE.policy.PhantomMll(state) == 48000.0;
    BuyHasRoom(quantity, held);
  }

  lemma NqIsRegistered()
    ensures GetMarket("NQ") == Some(MarketSpec("NQ", 0.25, 5.0, 20.0, Some("MNQ"), 10))
  {
    assert MARKETS[0].root == "MNQ" && !("MNQ" <= "NQ");
    assert MARKETS[1].root == "MES" && !("MES" <= "NQ");
    assert MARKETS[2].root == "MGC" && !("MGC" <= "NQ");
    assert MARKETS[3].root == "NQ" && "NQ" <= "NQ";
    assert FindPrefix("NQ", MARKETS[1..][1..][1..]) == Some(MARKETS[3]);
    assert FindPrefix("NQ", MARKETS[1..]) == FindPrefix("NQ", MARKETS[1..][1..]);
  }

  lemma BuyHasRoom(quantity: int, held: map<string, int>)
    requires 1 <= quantity <= 3 && PerTick(Buy(quantity)) == 5.0 * quantity as real
    requires EXAMPLE.policy.PhantomMll(Untouched(held)) == 48000.0
    ensures RoomTicks(EXAMPLE, Buy(quantity), Untouched(held)) >= 10
  {
    RoomIsExact(EXAMPLE, Buy(quantity), Untouched(held), 10);
  }

  /** The state is not refreshed between orders, so an order approved once is approved as
      often as it is offered: twice in one bar it adds its quantity twice. */
  lemma StaleStateDoubles(rules: Rules, d: Desk, state: AccountState, close: real, p: Proposal, symbol: string)
    requires p.around.fleet.None? && p.around.brokerTakes && p.intent.symbol == symbol
    requires Decide(rules, d.gate.disabled, RatioNow(d.gate, state), p.around.journal, p.intent, state).Approved?
    ensures Held(Pump(rules, d, state, close, [p, p]).desk.account.positions, symbol)
         == Held(d.account.positions, symbol) + 2 * p.intent.SignedQty()
  {
    hide Decide, Pump, RatioNow;
    var disabled, ratio := d.gate.disabled, RatioNow(d.gate, state);
    assert [p, p][1..] == [p] && [p][1..] == [];
    assert Added(rules, disabled, ratio, state, [p], symbol) == p.intent.SignedQty();
    BarMovesByAdded(rules, d, state, close, [p, p], symbol);
  }
}
