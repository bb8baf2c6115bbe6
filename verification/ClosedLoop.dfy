/** A strategy, a gate and a ledger run as one machine: what keeps the position the ledger
    holds and the position the strategy believes in from drifting apart. */
module ClosedLoop {
  import opened Types
  import opened Markets
  import opened Drawdown
  import opened CancelTracker
  import opened GateRules
  import opened Gate
  import opened Ledger
  import opened Allocator
  import opened Strategies
  import opened LiveLoop
  import opened SimAccount
  import opened Parity

  datatype Loop = Loop(desk: Desk, strategy: Strategy)

  /** A bar with the indicators' values and what surrounds each order of it. */
  datatype ClosedBar = ClosedBar(live: LiveBar, signals: Signals, around: nat -> Surroundings)

  /** The strategy is asked only on bars that get past the drain, inside its schedule. */
  predicate Reached(d: Desk, b: LiveBar) {
    !b.stop && b.trading && !DrainFails(d.gate, None, b.brokerOk)
  }

  function Proposals(intents: seq<OrderIntent>, cb: ClosedBar): seq<Proposal> {
    seq(|intents|, i requires 0 <= i < |intents| => Proposal(intents[i], cb.around(i)))
  }

  ghost function ClosedStep(rules: Rules, x: Loop, cb: ClosedBar): (r: (Loop, BarOutcome))
    requires x.strategy.Valid()
    ensures r.0.strategy.Valid()
    ensures r.0.strategy.Symbol() == x.strategy.Symbol() && r.0.strategy.Quantity() == x.strategy.Quantity()
  {
    if Reached(x.desk, cb.live) then
      EveryBarIsATurn(x.strategy, cb.live.bar, cb.signals);
      var (next, intents) := x.strategy.OnBar(cb.live.bar, cb.signals);
      var o := BarStep(rules, x.desk, cb.live, Proposals(intents, cb));
      (Loop(o.desk, next), o)
    else
      var o := BarStep(rules, x.desk, cb.live, []);
      (Loop(o.desk, x.strategy), o)
  }

  /** The strategy moves on exactly the bars the loop trades on, and there by its own bar and
      signals, whatever becomes of its orders. */
  lemma StrategyMovesWhenTrading(rules: Rules, x: Loop, cb: ClosedBar)
    requires x.strategy.Valid()
    ensures var next := ClosedStep(rules, x, cb).0.strategy;
            if cb.live.stop || !cb.live.trading || (x.desk.gate.pending.Some? && !cb.live.brokerOk)
            then next == x.strategy
            else next == x.strategy.OnBar(cb.live.bar, cb.signals).0
  {
    hide BarStep, MrOnBar, TfOnBar;
    EveryBarIsATurn(x.strategy, cb.live.bar, cb.signals);
  }

  // ---- What every bar keeps -------------------------------------------------

  function Signed(side: Side, quantity: int): int {
    if side == BUY then quantity else -quantity
  }

  function Position(x: Loop): int {
    Held(x.desk.account.positions, x.strategy.Symbol())
  }

  /** The gate can still approve: not disabled, nothing waiting to be drained, and the day's
      realized loss short of the limit. */
  predicate Alive(x: Loop) {
    && !x.desk.gate.disabled
    && x.desk.gate.pending.None?
    && x.desk.account.realized > -DLL_AMOUNT
  }

  predicate CapIsPossible(policy: Policy) {
    policy.Combine? ==> policy.maxMini >= 0
  }

  ghost predicate Inv(rules: Rules, x: Loop) {
    var q := x.strategy.Quantity();
    && x.strategy.Valid() && q >= 1
    && Latch(x.desk.gate)
    && x.desk.gate.history == History([], [])
    && Position(x) in {-q, 0, q}
    && (Alive(x) ==> Position(x) == 0
                     || (x.strategy.Holding().Some? && Position(x) == Signed(x.strategy.Holding().value, q)))
    && (Position(x) != 0 ==> CapIsPossible(rules.policy))
  }

  predicate Soft(rules: Rules) {
    rules.config.Valid() && !rules.config.hardConsistency
  }

  // ---- The one decision of a bar --------------------------------------------

  /** A market or limit order without a bracket that adds exposure is never approved. */
  lemma BareOpenIsDenied(rules: Rules, disabled: bool, ratio: Ratio, journal: JournalView,
                         intent: OrderIntent, state: AccountState)
    requires intent.MarketOrLimitOpen() && intent.bracket.None?
    requires intent.IncreasesExposure(state.openPositions)
    ensures !Decide(rules, disabled, ratio, journal, intent, state).Approved?
  {
    hide GetMarket, RoomTicks, PerTick;
  }

  /** Once realized loss has reached the daily limit nothing with a non-negative stop gets through. */
  lemma DailyLimitDenies(rules: Rules, disabled: bool, ratio: Ratio, journal: JournalView,
                         intent: OrderIntent, state: AccountState)
    requires state.realizedToday <= -DLL_AMOUNT
    requires intent.bracket.Some? ==> intent.bracket.value.stopLossTicks >= 0
    ensures !Decide(rules, disabled, ratio, journal, intent, state).Approved?
  {
    hide GetMarket, RoomTicks, PerTick;
    if intent.bracket.Some? {
      ScaleLe(0.0, intent.bracket.value.stopLossTicks as real, PerTick(intent));
      assert WorstCaseLoss(intent) >= 0.0;
    }
  }

  /** An exact close of the whole position, with no cancels on record and soft consistency,
      is denied only by a disabled gate, the daily limit, or equity below the floor. */
  lemma CloseIsApproved(rules: Rules, journal: JournalView, intent: OrderIntent, state: AccountState)
    requires Soft(rules) && CapIsPossible(rules.policy) && Registered(intent.symbol)
    requires intent.bracket.None? && Projected(intent, state) == 0
    requires state.realizedToday > -DLL_AMOUNT && !Touches(rules, state)
    ensures Decide(rules, false, Finite(0.0), journal, intent, state) == Approved(intent, state)
  {
    hide GetMarket;
    CapIsThere(rules.policy, intent.symbol, state);
    assert !intent.IncreasesExposure(state.openPositions);
  }

  lemma CapIsThere(policy: Policy, symbol: string, state: AccountState)
    requires CapIsPossible(policy) && Registered(symbol)
    ensures policy.MaxPosition(symbol, state).Some? && policy.MaxPosition(symbol, state).value >= 0
  {
    hide GetMarket;
  }

  /** An approved open shows that the cap leaves room. */
  lemma OpenShowsCap(rules: Rules, disabled: bool, ratio: Ratio, journal: JournalView, intent: OrderIntent,
                     state: AccountState)
    requires Decide(rules, disabled, ratio, journal, intent, state).Approved?
    requires Projected(intent, state) != 0
    ensures CapIsPossible(rules.policy)
  {
    ApprovalPassedEveryRule(rules, ratio, journal, intent, state);
    hide Decide, GetMarket;
  }

  lemma ApprovedKeepsSize(rules: Rules, disabled: bool, ratio: Ratio, journal: JournalView, intent: OrderIntent,
                          state: AccountState)
    requires Decide(rules, disabled, ratio, journal, intent, state).Approved?
    ensures var order := Decide(rules, disabled, ratio, journal, intent, state).intent;
            && order.symbol == intent.symbol && order.SignedQty() == intent.SignedQty()
            && Registered(order.symbol)
  {
    if !disabled {
      ApprovalPassedEveryRule(rules, ratio, journal, intent, state);
      hide FirstSix, RoomTicks;
    }
  }

  // ---- One bar --------------------------------------------------------------

  /** The bar after its mark and tick, before any order. */
  ghost function Shown(rules: Rules, d: Desk, b: LiveBar): (Desk, AccountState) {
    var account := Marked(d.account, b.bar.symbol, b.bar.close);
    var (gate, state) := Ticked(rules, Flattened(d.gate, None), SnapshotOf(account, b.bar.timestamp));
    (Desk(gate, account), state)
  }

  lemma ShownKeepsBooks(rules: Rules, d: Desk, b: LiveBar)
    requires Latch(d.gate) && d.gate.history == History([], [])
    ensures var (shown, state) := Shown(rules, d, b);
            && shown.account.positions == d.account.positions && shown.account.realized == d.account.realized
            && state.openPositions == d.account.positions && state.realizedToday == d.account.realized
            && shown.gate.history == History([], [])
            && Latch(shown.gate)
            && (shown.gate.disabled <==> d.gate.disabled || d.gate.pending.Some?)
            && (shown.gate.pending.Some? <==> !shown.gate.disabled && Touches(rules, state))
  {
    hide TotalOpenPnl;
  }

  /** The gate's answer to a bar's one order. */
  ghost function Answer(rules: Rules, d: Desk, cb: ClosedBar, intent: OrderIntent): Decision {
    var (shown, state) := Shown(rules, d, cb.live);
    Decide(rules, shown.gate.disabled, Finite(0.0), cb.around(0).journal, intent, state)
  }

  /** Approved by the gate and let through by the fleet. */
  ghost predicate Sent(cb: ClosedBar, decision: Decision) {
    decision.Approved? && HasRoom(cb.around(0).fleet, decision.intent.symbol, decision.intent.SignedQty())
  }

  /** A bar that is reached with one order comes down to that order's decision, the fleet's
      room, and the broker. */
  lemma OneOrderBar(rules: Rules, d: Desk, cb: ClosedBar, intent: OrderIntent)
    requires Reached(d, cb.live) && Latch(d.gate) && d.gate.history == History([], [])
    ensures var (shown, state) := Shown(rules, d, cb.live);
            var decision := Answer(rules, d, cb, intent);
            var o := BarStep(rules, d, cb.live, Proposals([intent], cb));
            var mark := Mark(cb.live.bar.symbol, cb.live.bar.close);
            && o.state == Some(state) && o.decisions == [decision] && o.desk.gate == shown.gate
            && (o.status == RUNNING <==> !decision.Raised? && (Sent(cb, decision) ==> cb.around(0).brokerTakes))
            && (if Sent(cb, decision) && cb.around(0).brokerTakes then
                  var fill := Fill(decision.intent.symbol, decision.intent.SignedQty(), cb.live.bar.close);
                  && o.events == [mark, fill]
                  && o.desk.account == Filled(shown.account, fill.symbol, fill.signedQty, fill.price)
                else o.events == [mark] && o.desk.account == shown.account)
  {
    hide Marked, Filled, Decide, FirstSix, Ticked, Pump, Latch, HasRoom;
    ShownKeepsBooks(rules, d, cb.live);
    var (shown, state) := Shown(rules, d, cb.live);
    var p := Proposal(intent, cb.around(0));
    assert Proposals([intent], cb) == [p];
    OneOrderPump(rules, shown, state, cb.live.bar.close, p);
    var o := BarStep(rules, d, cb.live, [p]);
    assert o.desk == Pump(rules, shown, state, cb.live.bar.close, [p]).desk;
  }

  lemma OneOrderPump(rules: Rules, d: Desk, state: AccountState, close: real, p: Proposal)
    requires d.gate.history == History([], [])
    ensures var pumped := Pump(rules, d, state, close, [p]);
            var decision := Decide(rules, d.gate.disabled, Finite(0.0), p.around.journal, p.intent, state);
            var sent := decision.Approved?
                && HasRoom(p.around.fleet, decision.intent.symbol, decision.intent.SignedQty());
            && pumped.decisions == [decision] && pumped.desk.gate == d.gate
            && (pumped.raised <==> decision.Raised? || (sent && !p.around.brokerTakes))
            && (if sent && p.around.brokerTakes then
                  var fill := Fill(decision.intent.symbol, decision.intent.SignedQty(), close);
                  pumped.fills == [fill] && pumped.desk.account == Filled(d.account, fill.symbol, fill.signedQty, close)
                else pumped.fills == [] && pumped.desk.account == d.account)
  {
    hide Filled, Decide, FirstSix, HasRoom;
    assert Pruned(History([], []), state.timestamp.instant - WINDOW) == History([], []);
    assert [p][1..] == [];
  }

  lemma NoOrderBar(rules: Rules, d: Desk, b: LiveBar)
    requires !b.stop && !DrainFails(d.gate, None, b.brokerOk)
    ensures var (shown, state) := Shown(rules, d, b);
            BarStep(rules, d, b, []) == BarOutcome(shown, RUNNING, Some(state), [], [Mark(b.bar.symbol, b.bar.close)])
  {
    hide Marked, Ticked;
    var (shown, state) := Shown(rules, d, b);
    assert [Mark(b.bar.symbol, b.bar.close)] + [] == [Mark(b.bar.symbol, b.bar.close)];
  }

  /** What a bar did: at most the mark and one fill of the strategy's own quantity, opening
      from flat or closing exactly. */
  ghost predicate CleanEvents(x: Loop, b: LiveBar, events: seq<Event>) {
    var mark := Mark(b.bar.symbol, b.bar.close);
    || events == []
    || events == [mark]
    || exists signedQty :: signedQty != 0 && (Position(x) == 0 || Position(x) + signedQty == 0)
         && events == [mark, Fill(x.strategy.Symbol(), signedQty, b.bar.close)]
  }

  ghost predicate BarSafe(rules: Rules, x: Loop, cb: ClosedBar, x': Loop, o: BarOutcome) {
    && CleanEvents(x, cb.live, o.events)
    // the close of an open that never filled is not approved either
    && (x.strategy.Holding().Some? && Position(x) == 0 ==> forall d :: d in o.decisions ==> !d.Approved?)
    // an order against a real position fails only when the gate can no longer approve, or the floor was touched
    && (Position(x) != 0 ==> forall d :: d in o.decisions && !d.Approved? ==> !Alive(x) || Touched(rules, o))
    // a gate that can no longer approve never recovers, and nothing fills
    && (!Alive(x) ==> !Alive(x') && |o.events| <= 1)
  }

  /** A position the strategy's quantity accounts for. */
  predicate KeepsQuantity(x: Loop) {
    Position(x) in {-x.strategy.Quantity(), 0, x.strategy.Quantity()}
  }

  /** After the bar the loop is where it should be: the whole invariant if it goes on, the
      bare quantity if a broker that raised has ended it. */
  ghost predicate EndsWell(rules: Rules, x': Loop, o: BarOutcome) {
    KeepsQuantity(x') && (o.status != CRASHED ==> Inv(rules, x'))
  }

  /** What the strategy asks for on a bar that is reached. */
  function Orders(x: Loop, cb: ClosedBar): seq<OrderIntent>
    requires x.strategy.Valid()
  {
    x.strategy.OnBar(cb.live.bar, cb.signals).1
  }

  /** The close of a position by a bot that can still trade, on a bar above the floor, finds
      room in the fleet. All of it can be looked up before the order is sent. */
  ghost predicate CloseFindsRoom(rules: Rules, x: Loop, cb: ClosedBar)
    requires x.strategy.Valid()
  {
    Alive(x) && Position(x) != 0 && Reached(x.desk, cb.live) && Orders(x, cb) != []
    && !Touches(rules, Shown(rules, x.desk, cb.live).1)
    ==> HasRoom(cb.around(0).fleet, x.strategy.Symbol(), -Position(x))
  }

  /** A bar that stops or crashes before its mark only moves the latches, to disabled. */
  lemma EndedBarIsSafe(rules: Rules, x: Loop, cb: ClosedBar)
    requires Inv(rules, x)
    requires cb.live.stop || DrainFails(x.desk.gate, None, cb.live.brokerOk)
    ensures var (x', o) := ClosedStep(rules, x, cb);
            Inv(rules, x') && BarSafe(rules, x, cb, x', o) && o.status != RUNNING
  {
    hide Ticked, Marked, Registered, Pump;
  }

  /** A bar without an order. */
  lemma QuietBarIsSafe(rules: Rules, x: Loop, cb: ClosedBar)
    requires Inv(rules, x) && !cb.live.stop && !DrainFails(x.desk.gate, None, cb.live.brokerOk)
    requires cb.live.trading ==> Orders(x, cb) == []
    ensures var (x', o) := ClosedStep(rules, x, cb);
            Inv(rules, x') && BarSafe(rules, x, cb, x', o)
  {
    hide Ticked, Marked, Registered, BarStep, Shown;
    EveryBarIsATurn(x.strategy, cb.live.bar, cb.signals);
    ShownKeepsBooks(rules, x.desk, cb.live);
    NoOrderBar(rules, x.desk, cb.live);
    assert Proposals([], cb) == [];
  }

  /** A bar on which the strategy opens: it was flat, and so, while alive, was the ledger. */
  lemma OpenBarIsSafe(rules: Rules, x: Loop, cb: ClosedBar)
    requires Inv(rules, x) && Reached(x.desk, cb.live)
    requires x.strategy.Holding().None? && |Orders(x, cb)| == 1
    ensures var (x', o) := ClosedStep(rules, x, cb);
            Inv(rules, x') && BarSafe(rules, x, cb, x', o)
  {
    hide Ticked, Marked, BarStep, Shown, Decide, Touches, Registered, Filled, HasRoom;
    var intent := Orders(x, cb)[0];
    OneOrderStep(rules, x, cb, intent);
    var (shown, state) := Shown(rules, x.desk, cb.live);
    ShownKeepsBooks(rules, x.desk, cb.live);
    var decision := Answer(rules, x.desk, cb, intent);
    if decision.Approved? {
      ApprovedKeepsSize(rules, shown.gate.disabled, Finite(0.0), cb.around(0).journal, intent, state);
      ApprovedMeansAlive(rules, x, shown, cb.around(0).journal, intent, state);
      OpenShowsCap(rules, shown.gate.disabled, Finite(0.0), cb.around(0).journal, intent, state);
      FillTouchesOneLeg(shown.account, decision.intent.symbol, decision.intent.SignedQty(), cb.live.bar.close);
    }
  }

  /** The step of a bar with one order. */
  lemma OneOrderStep(rules: Rules, x: Loop, cb: ClosedBar, intent: OrderIntent)
    requires x.strategy.Valid() && Reached(x.desk, cb.live) && Orders(x, cb) == [intent]
    requires Latch(x.desk.gate) && x.desk.gate.history == History([], [])
    ensures var (x', o) := ClosedStep(rules, x, cb);
            var (shown, state) := Shown(rules, x.desk, cb.live);
            var decision := Answer(rules, x.desk, cb, intent);
            var mark := Mark(cb.live.bar.symbol, cb.live.bar.close);
            && x'.desk == o.desk && Turn(x.strategy, x'.strategy, [intent]) && x'.strategy.Valid()
            && o.state == Some(state) && o.decisions == [decision] && o.desk.gate == shown.gate
            && (o.status == RUNNING <==> !decision.Raised? && (Sent(cb, decision) ==> cb.around(0).brokerTakes))
            && (o.status == RUNNING || o.status == CRASHED)
            && (if Sent(cb, decision) && cb.around(0).brokerTakes then
                  var fill := Fill(decision.intent.symbol, decision.intent.SignedQty(), cb.live.bar.close);
                  && o.events == [mark, fill]
                  && o.desk.account == Filled(shown.account, fill.symbol, fill.signedQty, fill.price)
                else o.events == [mark] && o.desk.account == shown.account)
  {
    hide Ticked, Marked, Pump, Decide, Filled, HasRoom, Latch, Turn, MrOnBar, TfOnBar;
    EveryBarIsATurn(x.strategy, cb.live.bar, cb.signals);
    OneOrderBar(rules, x.desk, cb, intent);
  }

  /** An approval shows that the gate was not disabled and the daily limit not reached. */
  lemma ApprovedMeansAlive(rules: Rules, x: Loop, shown: Desk, journal: JournalView, intent: OrderIntent,
                           state: AccountState)
    requires Decide(rules, shown.gate.disabled, Finite(0.0), journal, intent, state).Approved?
    requires shown.gate.disabled <==> x.desk.gate.disabled || x.desk.gate.pending.Some?
    requires state.realizedToday == x.desk.account.realized
    requires intent.bracket.Some? ==> intent.bracket.value.stopLossTicks >= 0
    ensures Alive(x)
  {
    if state.realizedToday <= -DLL_AMOUNT {
      DailyLimitDenies(rules, shown.gate.disabled, Finite(0.0), journal, intent, state);
    }
  }

  /** A bar on which the strategy closes. */
  lemma CloseBarIsSafe(rules: Rules, x: Loop, cb: ClosedBar)
    requires Inv(rules, x) && Soft(rules) && Reached(x.desk, cb.live) && CloseFindsRoom(rules, x, cb)
    requires x.strategy.Holding().Some? && |Orders(x, cb)| == 1
    ensures var (x', o) := ClosedStep(rules, x, cb);
            EndsWell(rules, x', o) && BarSafe(rules, x, cb, x', o)
  {
    hide Ticked, Marked, BarStep, Shown, Decide, Touches, Registered, Filled, HasRoom;
    var intent := Orders(x, cb)[0];
    OneOrderStep(rules, x, cb, intent);
    var (shown, state) := Shown(rules, x.desk, cb.live);
    ShownKeepsBooks(rules, x.desk, cb.live);
    StrategySymbolIsRegistered(x.strategy);
    var journal := cb.around(0).journal;
    var decision := Answer(rules, x.desk, cb, intent);
    if Position(x) == 0 {
      assert intent.IncreasesExposure(state.openPositions);
      BareOpenIsDenied(rules, shown.gate.disabled, Finite(0.0), journal, intent, state);
    } else if decision.Approved? {
      ApprovedKeepsSize(rules, shown.gate.disabled, Finite(0.0), journal, intent, state);
      ApprovedMeansAlive(rules, x, shown, journal, intent, state);
      FillTouchesOneLeg(shown.account, decision.intent.symbol, decision.intent.SignedQty(), cb.live.bar.close);
    } else if Alive(x) && !Touches(rules, state) {
      CloseIsApproved(rules, journal, intent, state);
    }
  }

  lemma StrategySymbolIsRegistered(strategy: Strategy)
    requires strategy.Valid()
    ensures Registered(strategy.Symbol())
  {
    hide Registered;
  }

  lemma StepIsSafe(rules: Rules, x: Loop, cb: ClosedBar)
    requires Inv(rules, x) && Soft(rules) && CloseFindsRoom(rules, x, cb)
    ensures var (x', o) := ClosedStep(rules, x, cb);
            EndsWell(rules, x', o) && BarSafe(rules, x, cb, x', o)
  {
    hide BarStep, Registered, MrOnBar, TfOnBar, BarSafe, IsOpen, IsBareClose, Latch, CloseFindsRoom;
    if cb.live.stop || DrainFails(x.desk.gate, None, cb.live.brokerOk) {
      EndedBarIsSafe(rules, x, cb);
    } else if !cb.live.trading || Orders(x, cb) == [] {
      QuietBarIsSafe(rules, x, cb);
    } else {
      EveryBarIsATurn(x.strategy, cb.live.bar, cb.signals);
      if x.strategy.Holding().None? {
        OpenBarIsSafe(rules, x, cb);
      } else {
        CloseBarIsSafe(rules, x, cb);
      }
    }
  }

  /** A bot whose strategy has forgotten the contracts on its books. */
  ghost predicate Stranded(x: Loop) {
    && x.strategy.Valid() && x.strategy.Holding().None? && Position(x) != 0
    && Latch(x.desk.gate) && x.desk.gate.history == History([], [])
  }

  /** Without room the close is vetoed and strands its contracts: the loop goes on, still able
      to trade, with the position on the books and a strategy that believes it is flat. */
  lemma VetoedCloseStrands(rules: Rules, x: Loop, cb: ClosedBar)
    requires Inv(rules, x) && Soft(rules) && !CloseFindsRoom(rules, x, cb)
    ensures var (x', o) := ClosedStep(rules, x, cb);
            && o.status == RUNNING && o.events == [Mark(cb.live.bar.symbol, cb.live.bar.close)]
            && Alive(x') && Position(x') == Position(x) && x'.strategy.Holding().None? && x'.strategy.Valid()
            && x'.strategy.Quantity() == x.strategy.Quantity() >= 1
            && Stranded(x') && !Inv(rules, x')
  {
    hide Ticked, Marked, BarStep, Shown, Decide, Touches, Registered, HasRoom;
    EveryBarIsATurn(x.strategy, cb.live.bar, cb.signals);
    var intent := Orders(x, cb)[0];
    assert Orders(x, cb) == [intent];
    OneOrderStep(rules, x, cb, intent);
    var (shown, state) := Shown(rules, x.desk, cb.live);
    ShownKeepsBooks(rules, x.desk, cb.live);
    StrategySymbolIsRegistered(x.strategy);
    CloseIsApproved(rules, cb.around(0).journal, intent, state);
  }

  /** So room at the close is exactly what a bar needs to keep the invariant. */
  lemma StepIsSafeExactly(rules: Rules, x: Loop, cb: ClosedBar)
    requires Inv(rules, x) && Soft(rules) && x.strategy.Valid()
    ensures var (x', o) := ClosedStep(rules, x, cb);
            EndsWell(rules, x', o) <==> CloseFindsRoom(rules, x, cb)
  {
    hide ClosedStep, BarSafe, Inv, CloseFindsRoom;
    if CloseFindsRoom(rules, x, cb) {
      StepIsSafe(rules, x, cb);
    } else {
      VetoedCloseStrands(rules, x, cb);
    }
  }

  // ---- Whole runs -----------------------------------------------------------

  datatype Trace = Trace(loop: Loop, status: Status, decisions: seq<Decision>, events: seq<Event>)

  ghost function ClosedRun(rules: Rules, x: Loop, bars: seq<ClosedBar>): Trace
    requires x.strategy.Valid()
    decreases |bars|
  {
    if bars == [] then Trace(x, RUNNING, [], [])
    else
      var (next, o) := ClosedStep(rules, x, bars[0]);
      if o.status != RUNNING then Trace(next, o.status, o.decisions, o.events)
      else
        var rest := ClosedRun(rules, next, bars[1..]);
        Trace(rest.loop, rest.status, o.decisions + rest.decisions, o.events + rest.events)
  }

  /** Every close of the run finds room in the fleet. */
  ghost predicate ClosesFindRoom(rules: Rules, x: Loop, bars: seq<ClosedBar>)
    requires x.strategy.Valid()
    decreases |bars|
  {
    bars != [] ==>
      && CloseFindsRoom(rules, x, bars[0])
      && var (next, o) := ClosedStep(rules, x, bars[0]);
         (o.status == RUNNING ==> ClosesFindRoom(rules, next, bars[1..]))
  }

  /** The invariant and the bar's guarantees at every bar of the run. */
  ghost predicate EveryBarSafe(rules: Rules, x: Loop, bars: seq<ClosedBar>)
    requires x.strategy.Valid()
    decreases |bars|
  {
    && Inv(rules, x)
    && (bars != [] ==>
              var (next, o) := ClosedStep(rules, x, bars[0]);
          && BarSafe(rules, x, bars[0], next, o)
          && EndsWell(rules, next, o)
          && (o.status == RUNNING ==> EveryBarSafe(rules, next, bars[1..])))
  }

  lemma StartIsInv(rules: Rules, start: real, isCombine: bool, strategy: Strategy)
    requires strategy.Valid() && strategy.Holding().None?
    ensures Inv(rules, Loop(Desk(FRESH, Opened(start, isCombine)), strategy))
  {
    hide Registered;
  }

  /** A run is safe at every bar if and only if every close of it finds room in the fleet: the
      ledger holds nothing, or exactly what the strategy believes in, for as long as the gate
      can approve; every fill opens from flat or closes exactly; and a gate that has died
      lets nothing through again. */
  lemma {:induction false} ClosedLoopIsSafe(rules: Rules, x: Loop, bars: seq<ClosedBar>)
    requires Inv(rules, x) && Soft(rules) && x.strategy.Valid()
    ensures EveryBarSafe(rules, x, bars) <==> ClosesFindRoom(rules, x, bars)
    decreases |bars|
  {
    hide Inv, BarSafe, ClosedStep, CloseFindsRoom;
    if bars != [] {
      var (next, o) := ClosedStep(rules, x, bars[0]);
      StepIsSafeExactly(rules, x, bars[0]);
      if CloseFindsRoom(rules, x, bars[0]) {
        StepIsSafe(rules, x, bars[0]);
        if o.status == RUNNING {
          ClosedLoopIsSafe(rules, next, bars[1..]);
        }
      }
    }
  }

  /** A bot that runs alone never looks for room. */
  lemma {:induction false} AloneFindsRoom(rules: Rules, x: Loop, bars: seq<ClosedBar>)
    requires x.strategy.Valid()
    requires forall i :: 0 <= i < |bars| ==> bars[i].around(0).fleet.None?
    ensures ClosesFindRoom(rules, x, bars)
    decreases |bars|
  {
    hide ClosedStep, Shown;
    if bars != [] {
      assert bars[0].around(0).fleet.None?;
      assert forall i :: 0 <= i < |bars[1..]| ==> bars[1..][i] == bars[i + 1];
      AloneFindsRoom(rules, ClosedStep(rules, x, bars[0]).0, bars[1..]);
    }
  }

  lemma InvIsValid(rules: Rules, x: Loop)
    requires Inv(rules, x)
    ensures x.strategy.Valid()
  {
  }

  // ---- After a strand ---------------------------------------------------------

  /** The bar's one order is filled. */
  ghost predicate FillsOrder(rules: Rules, x: Loop, cb: ClosedBar)
    requires x.strategy.Valid()
  {
    && Reached(x.desk, cb.live) && |Orders(x, cb)| == 1
    && Sent(cb, Answer(rules, x.desk, cb, Orders(x, cb)[0])) && cb.around(0).brokerTakes
  }

  /** The strategy opens on this bar, for these signed contracts. */
  predicate OpensOn(x: Loop, cb: ClosedBar, signedQty: int)
    requires x.strategy.Valid()
  {
    |Orders(x, cb)| == 1 && Orders(x, cb)[0].SignedQty() == signedQty
  }

  /** The next open that fills doubles a stranded position on the same side, and flattens it
      on the other, while the strategy believes in the open alone. */
  lemma OpenOntoStranded(rules: Rules, x: Loop, cb: ClosedBar)
    requires Stranded(x) && FillsOrder(rules, x, cb)
    ensures var (x', o) := ClosedStep(rules, x, cb);
            && o.status == RUNNING && x'.strategy.Holding().Some?
            && Latch(x'.desk.gate) && x'.desk.gate.history == History([], [])
            && x'.strategy.Quantity() == x.strategy.Quantity()
            && Position(x') == Position(x) + Signed(x'.strategy.Holding().value, x.strategy.Quantity())
            && OpensOn(x, cb, Signed(x'.strategy.Holding().value, x.strategy.Quantity()))
  {
    hide ClosedStep, Sent, Reached, Answer, Latch;
    FilledOrderMoves(rules, x, cb);
  }

  /** A filled order moves the position by its own quantity, and the strategy its turn. */
  lemma FilledOrderMoves(rules: Rules, x: Loop, cb: ClosedBar)
    requires x.strategy.Valid() && FillsOrder(rules, x, cb)
    requires Latch(x.desk.gate) && x.desk.gate.history == History([], [])
    ensures var (x', o) := ClosedStep(rules, x, cb);
            var intent := Orders(x, cb)[0];
            && o.status == RUNNING && Turn(x.strategy, x'.strategy, [intent])
            && o.events == [Mark(cb.live.bar.symbol, cb.live.bar.close),
                            Fill(intent.symbol, intent.SignedQty(), cb.live.bar.close)]
            && Position(x') == Position(x) + (if intent.symbol == x.strategy.Symbol() then intent.SignedQty() else 0)
            && Latch(x'.desk.gate) && x'.desk.gate.history == History([], [])
  {
    hide Ticked, Marked, BarStep, Shown, Decide, Touches, Registered, Filled, HasRoom, Turn, MrOnBar, TfOnBar, Latch;
    var intent := Orders(x, cb)[0];
    assert Orders(x, cb) == [intent];
    OneOrderStep(rules, x, cb, intent);
    var (shown, state) := Shown(rules, x.desk, cb.live);
    ShownKeepsBooks(rules, x.desk, cb.live);
    ApprovedKeepsSize(rules, shown.gate.disabled, Finite(0.0), cb.around(0).journal, intent, state);
    TurnKeepsSymbol(x.strategy, ClosedStep(rules, x, cb).0.strategy, [intent]);
    FillMovesQuantity(shown.account, intent.symbol, intent.SignedQty(), cb.live.bar.close, x.strategy.Symbol());
  }

  lemma TurnKeepsSymbol(before: Strategy, after: Strategy, intents: seq<OrderIntent>)
    requires Turn(before, after, intents)
    ensures after.Symbol() == before.Symbol() && after.Quantity() == before.Quantity()
  {
  }

  /** What the stranding leads to: after a vetoed close, an open on the same side and its own
      close, the run holds the partial reduction that never happens in a safe one. */
  lemma StrandedRunReduces(rules: Rules, x: Loop, veto: ClosedBar, open: ClosedBar, close: ClosedBar)
    requires Inv(rules, x) && Soft(rules) && x.strategy.Valid() && !CloseFindsRoom(rules, x, veto)
    requires var x1 := ClosedStep(rules, x, veto).0;
             && FillsOrder(rules, x1, open) && OpensOn(x1, open, Position(x))
             && FillsOrder(rules, ClosedStep(rules, x1, open).0, close)
    ensures var t := ClosedRun(rules, x, [veto, open, close]);
            && t.status == RUNNING && Position(t.loop) == Position(x) && t.loop.strategy.Holding().None?
            && !NoPartialReduction(x.desk.account, t.events)
  {
    hide ClosedStep, FillsOrder, Inv, Latch, NoPartialReduction, ClosedRun, CloseFindsRoom, Orders;
    VetoedCloseStrands(rules, x, veto);
    var (x1, o1) := ClosedStep(rules, x, veto);
    OpenOntoStranded(rules, x1, open);
    var (x2, o2) := ClosedStep(rules, x1, open);
    CloseOfDoubled(rules, x2, close);
    var (x3, o3) := ClosedStep(rules, x2, close);
    StepRunsLedger(rules, x, veto);
    StepRunsLedger(rules, x1, open);
    ThreeBars(rules, x, veto, open, close);
    if NoPartialReduction(x.desk.account, ClosedRun(rules, x, [veto, open, close]).events) {
      NoPartialSplit(x.desk.account, o1.events, o2.events + o3.events);
      NoPartialSplit(x1.desk.account, o2.events, o3.events);
    }
  }

  /** The close of a doubled position takes off one half of it. */
  lemma CloseOfDoubled(rules: Rules, x: Loop, cb: ClosedBar)
    requires x.strategy.Valid() && FillsOrder(rules, x, cb) && x.strategy.Holding().Some?
    requires Latch(x.desk.gate) && x.desk.gate.history == History([], [])
    requires x.strategy.Quantity() >= 1
    requires Position(x) == 2 * Signed(x.strategy.Holding().value, x.strategy.Quantity())
    ensures var (x', o) := ClosedStep(rules, x, cb);
            && o.status == RUNNING && x'.strategy.Holding().None?
            && 2 * Position(x') == Position(x) && !NoPartialReduction(x.desk.account, o.events)
  {
    hide ClosedStep, Sent, Reached, NoPartialReduction, Latch, Answer;
    FilledOrderMoves(rules, x, cb);
    var (x', o) := ClosedStep(rules, x, cb);
    assert PartialReduction(Position(x), Orders(x, cb)[0].SignedQty());
    ReducingBar(x.desk.account, o.events);
  }

  lemma ThreeBars(rules: Rules, x: Loop, first: ClosedBar, second: ClosedBar, third: ClosedBar)
    requires x.strategy.Valid()
    requires var (x1, o1) := ClosedStep(rules, x, first);
             var (x2, o2) := ClosedStep(rules, x1, second);
             o1.status == RUNNING && o2.status == RUNNING && ClosedStep(rules, x2, third).1.status == RUNNING
    ensures var (x1, o1) := ClosedStep(rules, x, first);
            var (x2, o2) := ClosedStep(rules, x1, second);
            var (x3, o3) := ClosedStep(rules, x2, third);
            var t := ClosedRun(rules, x, [first, second, third]);
            t.loop == x3 && t.status == RUNNING && t.events == o1.events + (o2.events + o3.events)
  {
    hide ClosedStep;
    var (x1, o1) := ClosedStep(rules, x, first);
    var (x2, o2) := ClosedStep(rules, x1, second);
    var (x3, o3) := ClosedStep(rules, x2, third);
    assert [first, second, third][1..] == [second, third] && [second, third][1..] == [third] && [third][1..] == [];
    assert ClosedRun(rules, x3, []).events == [];
    assert ClosedRun(rules, x2, [third]).events == o3.events && ClosedRun(rules, x2, [third]).loop == x3;
    assert ClosedRun(rules, x1, [second, third]).events == o2.events + o3.events;
  }

  /** A mark and a fill of the opposite side, smaller than the position. */
  lemma ReducingBar(a: Account, events: seq<Event>)
    requires |events| == 2 && events[0].Mark? && events[1].Fill?
    requires PartialReduction(Held(a.positions, events[1].symbol), events[1].signedQty)
    ensures !NoPartialReduction(a, events)
  {
    hide TotalOpenPnl;
    var marked := Step(a, events[0]);
    assert marked.positions == a.positions;
    assert events[1..][0] == events[1];
  }

  lemma {:induction false} NoPartialSplit(a: Account, xs: seq<Event>, ys: seq<Event>)
    requires NoPartialReduction(a, xs + ys)
    ensures NoPartialReduction(a, xs) && NoPartialReduction(Run(a, xs), ys)
    decreases |xs|
  {
    hide Filled, Marked, PartialReduction;
    if xs == [] {
      assert xs + ys == ys;
    } else {
      assert (xs + ys)[0] == xs[0] && (xs + ys)[1..] == xs[1..] + ys;
      NoPartialSplit(Step(a, xs[0]), xs[1..], ys);
    }
  }

  // ---- What follows for the books -------------------------------------------

  lemma {:induction false} NoPartialConcat(a: Account, xs: seq<Event>, ys: seq<Event>)
    requires NoPartialReduction(a, xs) && NoPartialReduction(Run(a, xs), ys)
    ensures NoPartialReduction(a, xs + ys)
    decreases |xs|
  {
    hide Filled, Marked, PartialReduction;
    if xs == [] {
      assert xs + ys == ys;
    } else {
      assert (xs + ys)[0] == xs[0] && (xs + ys)[1..] == xs[1..] + ys;
      NoPartialConcat(Step(a, xs[0]), xs[1..], ys);
    }
  }

  lemma CleanEventsNeverReduce(x: Loop, b: LiveBar, events: seq<Event>)
    requires CleanEvents(x, b, events)
    ensures NoPartialReduction(x.desk.account, events)
  {
    hide TotalOpenPnl, Filled;
    if |events| == 1 {
      assert events[1..] == [];
    } else if |events| == 2 {
      assert events[1..] == [events[1]] && events[1..][1..] == [];
      var marked := Step(x.desk.account, events[0]);
      assert marked.positions == x.desk.account.positions;
      assert !PartialReduction(Held(marked.positions, events[1].symbol), events[1].signedQty);
      assert NoPartialReduction(marked, [events[1]]);
    }
  }

  /** The partial-reduction branch of the ledger is never reached, so cash is conserved over
      every run: realized P&L less open cost moves by exactly the cash of the fills. */
  lemma {:induction false} ClosedLoopConservesCash(rules: Rules, x: Loop, bars: seq<ClosedBar>)
    requires Inv(rules, x) && Soft(rules) && ClosesFindRoom(rules, x, bars)
    ensures var trace := ClosedRun(rules, x, bars);
            && trace.loop.desk.account == Run(x.desk.account, trace.events)
            && NoPartialReduction(x.desk.account, trace.events)
            && Basis(trace.loop.desk.account) == Basis(x.desk.account) + CashFlow(trace.events)
  {
    hide Inv, ClosesFindRoom, ClosedRun, Run, NoPartialReduction, Basis, CashFlow, Drift;
    InvIsValid(rules, x);
    RunIsClean(rules, x, bars);
    var trace := ClosedRun(rules, x, bars);
    CashIsConserved(x.desk.account, trace.events);
    NoPartialNoDrift(x.desk.account, trace.events);
  }

  lemma {:induction false} RunIsClean(rules: Rules, x: Loop, bars: seq<ClosedBar>)
    requires Inv(rules, x) && Soft(rules) && ClosesFindRoom(rules, x, bars)
    ensures var trace := ClosedRun(rules, x, bars);
            && trace.loop.desk.account == Run(x.desk.account, trace.events)
            && NoPartialReduction(x.desk.account, trace.events)
    decreases |bars|
  {
    hide Inv, BarSafe, ClosedStep, NoPartialReduction, Run, CleanEvents, CloseFindsRoom;
    InvIsValid(rules, x);
    if bars == [] {
      EmptyTrace(x.desk.account);
    } else {
      StepIsSafe(rules, x, bars[0]);
      var (next, o) := ClosedStep(rules, x, bars[0]);
      StepRunsLedger(rules, x, bars[0]);
      BarSafeIsClean(rules, x, bars[0], next, o);
      CleanEventsNeverReduce(x, bars[0].live, o.events);
      if o.status == RUNNING {
        RunIsClean(rules, next, bars[1..]);
        var rest := ClosedRun(rules, next, bars[1..]);
        RunConcat(x.desk.account, o.events, rest.events);
        NoPartialConcat(x.desk.account, o.events, rest.events);
      }
    }
  }

  lemma EmptyTrace(a: Account)
    ensures Run(a, []) == a && NoPartialReduction(a, [])
  {
  }

  lemma BarSafeIsClean(rules: Rules, x: Loop, cb: ClosedBar, x': Loop, o: BarOutcome)
    requires BarSafe(rules, x, cb, x', o)
    ensures CleanEvents(x, cb.live, o.events)
  {
    hide CleanEvents;
  }

  lemma StepRunsLedger(rules: Rules, x: Loop, cb: ClosedBar)
    requires x.strategy.Valid()
    ensures var (next, o) := ClosedStep(rules, x, cb);
            next.desk == o.desk && o.desk.account == Run(x.desk.account, o.events)
  {
    hide BarStep, Run, MrOnBar, TfOnBar;
    if Reached(x.desk, cb.live) {
      var (next, intents) := x.strategy.OnBar(cb.live.bar, cb.signals);
      BarRunsLedger(rules, x.desk, cb.live, Proposals(intents, cb));
    } else {
      BarRunsLedger(rules, x.desk, cb.live, []);
    }
  }

  // ---- The simulated broker sees the same account ---------------------------

  predicate OnOwnSymbol(x: Loop, bars: seq<ClosedBar>) {
    forall i :: 0 <= i < |bars| ==> bars[i].live.bar.symbol == x.strategy.Symbol()
  }

  /** The trace of every run is a stream the two ledgers agree on throughout: a broker
      account fed the same marks and fills shows the same positions, averages, realized and
      unrealized P&L, equity and high-water after every event. */
  lemma {:induction false} BrokerAccountAgrees(rules: Rules, start: real, isCombine: bool, strategy: Strategy,
                                               bars: seq<ClosedBar>, stage: Stage)
    requires strategy.Valid() && strategy.Holding().None? && IsRoot(strategy.Symbol()) && Soft(rules)
    requires var x := Loop(Desk(FRESH, Opened(start, isCombine)), strategy);
             ClosesFindRoom(rules, x, bars) && OnOwnSymbol(x, bars)
    ensures var x := Loop(Desk(FRESH, Opened(start, isCombine)), strategy);
            AlwaysSame(x.desk.account, NewAccount(start, stage), ClosedRun(rules, x, bars).events)
  {
    hide Inv, ClosesFindRoom, ClosedRun, AlwaysSame, AllInStep, Same, IsRoot, Tradable, OnOwnSymbol;
    var x := Loop(Desk(FRESH, Opened(start, isCombine)), strategy);
    StartIsInv(rules, start, isCombine, strategy);
    TraceIsInStep(rules, x, bars);
    FreshIsSame(start, isCombine, stage);
    LedgersAgree(x.desk.account, NewAccount(start, stage), ClosedRun(rules, x, bars).events);
  }

  ghost predicate AllTradable(events: seq<Event>) {
    forall i :: 0 <= i < |events| ==> Tradable(events[i])
  }

  lemma {:induction false} TraceIsInStep(rules: Rules, x: Loop, bars: seq<ClosedBar>)
    requires Inv(rules, x) && Soft(rules) && ClosesFindRoom(rules, x, bars)
    requires IsRoot(x.strategy.Symbol()) && OnOwnSymbol(x, bars)
    ensures var events := ClosedRun(rules, x, bars).events;
            AllInStep(x.desk.account, events) && AllTradable(events)
    decreases |bars|
  {
    hide Inv, BarSafe, ClosedStep, AllInStep, Run, CleanEvents, IsRoot, Tradable, CloseFindsRoom;
    InvIsValid(rules, x);
    if bars == [] {
      EmptyInStep(x.desk.account);
    } else {
      StepIsSafe(rules, x, bars[0]);
      var (next, o) := ClosedStep(rules, x, bars[0]);
      StepRunsLedger(rules, x, bars[0]);
      BarSafeIsClean(rules, x, bars[0], next, o);
      CleanEventsAreInStep(x, bars[0].live, o.events);
      if o.status == RUNNING {
        OwnSymbolTail(x, next, bars);
        TraceIsInStep(rules, next, bars[1..]);
        InStepConcat(x.desk.account, o.events, ClosedRun(rules, next, bars[1..]).events);
      }
    }
  }

  lemma OwnSymbolTail(x: Loop, next: Loop, bars: seq<ClosedBar>)
    requires bars != [] && OnOwnSymbol(x, bars) && next.strategy.Symbol() == x.strategy.Symbol()
    ensures OnOwnSymbol(next, bars[1..])
  {
    forall i | 0 <= i < |bars[1..]|
      ensures bars[1..][i].live.bar.symbol == next.strategy.Symbol()
    {
      assert bars[1..][i] == bars[i + 1];
    }
  }

  lemma EmptyInStep(a: Account)
    ensures AllInStep(a, [])
  {
  }

  lemma {:induction false} InStepConcat(a: Account, xs: seq<Event>, ys: seq<Event>)
    requires AllInStep(a, xs) && AllInStep(Run(a, xs), ys)
    ensures AllInStep(a, xs + ys)
    decreases |xs|
  {
    hide Filled, Marked, InStep;
    if xs == [] {
      assert xs + ys == ys;
    } else {
      assert (xs + ys)[0] == xs[0] && (xs + ys)[1..] == xs[1..] + ys;
      InStepConcat(Step(a, xs[0]), xs[1..], ys);
    }
  }

  lemma CleanEventsAreInStep(x: Loop, b: LiveBar, events: seq<Event>)
    requires CleanEvents(x, b, events) && b.bar.symbol == x.strategy.Symbol() && IsRoot(x.strategy.Symbol())
    ensures AllInStep(x.desk.account, events) && AllTradable(events)
  {
    hide TotalOpenPnl, Filled, IsRoot;
    if |events| == 1 {
      assert events[1..] == [];
    } else if |events| == 2 {
      assert events[1..] == [events[1]] && events[1..][1..] == [];
      var marked := Step(x.desk.account, events[0]);
      assert marked.positions == x.desk.account.positions && marked.lastClose[b.bar.symbol] == b.bar.close;
      assert InStep(marked, events[1].symbol, events[1].signedQty, events[1].price);
      assert AllInStep(marked, [events[1]]);
    }
  }
}
