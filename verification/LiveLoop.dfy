/** The bar-by-bar order path: drain, mark, snapshot, tick, then every proposed order through
    the gate, the fleet allocator's verdict, and the fill. */
module LiveLoop {
  import opened Types
  import opened Markets
  import opened Drawdown
  import opened CancelTracker
  import opened GateRules
  import opened Gate
  import opened Ledger
  import opened Allocator

  /** What one bot owns: its gate's latches and its ledger. */
  datatype Desk = Desk(gate: GateState, account: Account)

  /** The allocator's table and the bots' positions as they stand when one order reaches the
      allocator, whatever the other bots have done since this one's last order. */
  datatype FleetView = FleetView(bot: string, maxMini: int, pending: Books, positions: Books)

  /** What surrounds one order: the journal's answer, the fleet if the bot belongs to one, and
      whether the broker takes the order or raises. */
  datatype Surroundings = Surroundings(journal: JournalView, fleet: Option<FleetView>, brokerTakes: bool)

  /** An order the strategy proposes. */
  datatype Proposal = Proposal(intent: OrderIntent, around: Surroundings)

  /** The allocator lets these contracts through; always so without an allocator. */
  ghost predicate HasRoom(fleet: Option<FleetView>, symbol: string, signedQty: int) {
    fleet.Some? ==>
      && Registered(symbol)
      && Abs(Committed(fleet.value.pending, fleet.value.positions, symbol) + signedQty)
         <= FleetCap(fleet.value.maxMini, symbol)
  }

  /** What one order came to. */
  datatype Placing = Placing(desk: Desk, decision: Decision, fills: seq<Event>, raised: bool)

  /** One order: the gate, then the fleet, then the broker, then the ledger. A lookup or a
      broker that raises ends the loop. */
  ghost function Placed(rules: Rules, d: Desk, state: AccountState, close: real, p: Proposal): Placing {
    var (gate, decision) := Ask(rules, d.gate, p.around.journal, p.intent, state);
    var asked := d.(gate := gate);
    if !decision.Approved? then Placing(asked, decision, [], decision.Raised?)
    else
      var order := decision.intent;
      if !HasRoom(p.around.fleet, order.symbol, order.SignedQty()) then Placing(asked, decision, [], false)
      else if !p.around.brokerTakes then Placing(asked, decision, [], true)
      else Placing(Desk(gate, Filled(d.account, order.symbol, order.SignedQty(), close)), decision,
                   [Fill(order.symbol, order.SignedQty(), close)], false)
  }

  datatype Pumped = Pumped(desk: Desk, decisions: seq<Decision>, fills: seq<Event>, raised: bool)

  /** Every order of the bar is judged against the same state, however many have filled. */
  ghost function Pump(rules: Rules, d: Desk, state: AccountState, close: real, proposals: seq<Proposal>): Pumped
    decreases |proposals|
  {
    if proposals == [] then Pumped(d, [], [], false)
    else
      var first := Placed(rules, d, state, close, proposals[0]);
      if first.raised then Pumped(first.desk, [first.decision], first.fills, true)
      else Then([first.decision], first.fills, Pump(rules, first.desk, state, close, proposals[1..]))
  }

  function Then(decisions: seq<Decision>, fills: seq<Event>, rest: Pumped): Pumped {
    Pumped(rest.desk, decisions + rest.decisions, fills + rest.fills, rest.raised)
  }

  /** A bar with what surrounds it: a shutdown request, whether broker calls succeed,
      whether the schedule lets the bot trade. */
  datatype LiveBar = LiveBar(bar: Bar, stop: bool, brokerOk: bool, trading: bool)

  datatype Status = RUNNING | STOPPED | CRASHED

  /** What a bar did. `state` is what the gate saw, absent when the bar was not reached. */
  datatype BarOutcome = BarOutcome(
    desk: Desk, status: Status, state: Option<AccountState>, decisions: seq<Decision>, events: seq<Event>)

  predicate DrainFails(g: GateState, reason: Option<string>, brokerOk: bool) {
    !brokerOk && Flattened(g, reason).cancelAlls > g.cancelAlls
  }

  ghost function BarStep(rules: Rules, d: Desk, b: LiveBar, proposals: seq<Proposal>): BarOutcome {
    var reason := if b.stop then Some("SHUTDOWN") else None;
    var drained := Flattened(d.gate, reason);
    if DrainFails(d.gate, reason, b.brokerOk) then BarOutcome(d.(gate := drained), CRASHED, None, [], [])
    else if b.stop then BarOutcome(d.(gate := drained), STOPPED, None, [], [])
    else
      var account := Marked(d.account, b.bar.symbol, b.bar.close);
      var mark := Mark(b.bar.symbol, b.bar.close);
      var (gate, state) := Ticked(rules, drained, SnapshotOf(account, b.bar.timestamp));
      if !b.trading then BarOutcome(Desk(gate, account), RUNNING, Some(state), [], [mark])
      else
        var p := Pump(rules, Desk(gate, account), state, b.bar.close, proposals);
        BarOutcome(p.desk, if p.raised then CRASHED else RUNNING, Some(state), p.decisions, [mark] + p.fills)
  }

  ghost function LiveRun(rules: Rules, d: Desk, bars: seq<(LiveBar, seq<Proposal>)>): seq<BarOutcome>
    decreases |bars|
  {
    if bars == [] then []
    else
      var o := BarStep(rules, d, bars[0].0, bars[0].1);
      [o] + (if o.status == RUNNING then LiveRun(rules, o.desk, bars[1..]) else [])
  }

  // ---- One order at a time ---------------------------------------------------

  lemma NothingToPump(rules: Rules, d: Desk, state: AccountState, close: real)
    ensures Pump(rules, d, state, close, []) == Pumped(d, [], [], false)
  {
  }

  lemma PumpUnfoldsAfter(rules: Rules, d: Desk, state: AccountState, close: real, proposals: seq<Proposal>,
                         decisions: seq<Decision>, fills: seq<Event>)
    requires proposals != []
    ensures var first := Placed(rules, d, state, close, proposals[0]);
            Then(decisions, fills, Pump(rules, d, state, close, proposals))
            == if first.raised then Pumped(first.desk, decisions + [first.decision], fills + first.fills, true)
               else Then(decisions + [first.decision], fills + first.fills,
                         Pump(rules, first.desk, state, close, proposals[1..]))
  {
    hide Placed;
    var first := Placed(rules, d, state, close, proposals[0]);
    if !first.raised {
      var rest := Pump(rules, first.desk, state, close, proposals[1..]);
      assert decisions + ([first.decision] + rest.decisions) == decisions + [first.decision] + rest.decisions;
      assert fills + (first.fills + rest.fills) == fills + first.fills + rest.fills;
    }
  }

  lemma ApprovedIsRegistered(rules: Rules, g: GateState, journal: JournalView, intent: OrderIntent, state: AccountState)
    requires Ask(rules, g, journal, intent, state).1.Approved?
    ensures Registered(Ask(rules, g, journal, intent, state).1.intent.symbol)
  {
    if !g.disabled {
      ApprovalPassedEveryRule(rules, RatioNow(g, state), journal, intent, state);
    }
    hide FirstSix, RoomTicks, Registered;
  }

  // ---- The ledger only ever sees the bar's events ---------------------------

  lemma {:induction false} PumpRunsLedger(rules: Rules, d: Desk, state: AccountState, close: real,
                                          proposals: seq<Proposal>)
    ensures var p := Pump(rules, d, state, close, proposals);
            && p.desk.account == Run(d.account, p.fills)
            && (forall e :: e in p.fills ==> e.Fill?)
    decreases |proposals|
  {
    hide Placed, Step;
    if proposals != [] {
      var first := Placed(rules, d, state, close, proposals[0]);
      PlacedRunsLedger(rules, d, state, close, proposals[0]);
      if !first.raised {
        PumpRunsLedger(rules, first.desk, state, close, proposals[1..]);
        RunConcat(d.account, first.fills, Pump(rules, first.desk, state, close, proposals[1..]).fills);
      }
    }
  }

  lemma PlacedRunsLedger(rules: Rules, d: Desk, state: AccountState, close: real, p: Proposal)
    ensures var first := Placed(rules, d, state, close, p);
            && first.desk.account == Run(d.account, first.fills)
            && (forall e :: e in first.fills ==> e.Fill?)
            && (first.raised ==> first.fills == [])
            && (first.fills != [] ==> first.decision.Approved?)
            && |first.fills| <= 1
  {
    hide Filled, Ask, HasRoom;
    var first := Placed(rules, d, state, close, p);
    if first.fills != [] {
      assert first.fills[1..] == [];
      assert Run(d.account, first.fills) == Step(d.account, first.fills[0]);
    }
  }

  lemma BarRunsLedger(rules: Rules, d: Desk, b: LiveBar, proposals: seq<Proposal>)
    ensures var o := BarStep(rules, d, b, proposals);
            o.desk.account == Run(d.account, o.events)
  {
    hide Pump, Ticked, Flattened, Filled, Refreshed;
    var o := BarStep(rules, d, b, proposals);
    if o.state.Some? {
      var account := Marked(d.account, b.bar.symbol, b.bar.close);
      var mark := Mark(b.bar.symbol, b.bar.close);
      assert o.events[0] == mark;
      assert Run(d.account, o.events) == Run(account, o.events[1..]);
      if b.trading {
        var gate := Ticked(rules, Flattened(d.gate, None), SnapshotOf(account, b.bar.timestamp));
        PumpRunsLedger(rules, Desk(gate.0, account), gate.1, b.bar.close, proposals);
        assert o.events[1..] == Pump(rules, Desk(gate.0, account), gate.1, b.bar.close, proposals).fills;
      }
    }
  }

  // ---- What a bar shows the gate --------------------------------------------

  /** The state a bar shows for a ledger, field by field: the ledger's own figures, and for a
      Combine account the lock its high-water has earned. */
  function StateOf(policy: Policy, a: Account, at: Timestamp): AccountState {
    var locked := policy.Combine? && a.highWater >= policy.startBalance + policy.mllAmount;
    AccountState(a.startBalance + a.realized + a.unrealized, a.realized, a.unrealized, a.positions, a.highWater,
                 a.isCombine, at, locked, if locked then Some(policy.startBalance) else None, a.startBalance)
  }

  /** The floor of a ledger in closed form, whatever the policy: the high-water less the loss
      limit, and never above the start. An EFA account counts from its own start balance, and
      from no less. */
  function FloorOf(policy: Policy, a: Account): real {
    match policy
    case Combine(start, mll, _) => CombineFloor(start, mll, a.highWater)
    case Efa(mll) => CombineFloor(a.startBalance, mll, Max(a.highWater, a.startBalance))
  }

  lemma LedgerIsShown(rules: Rules, g: GateState, a: Account, at: Timestamp)
    requires a.highWater >= a.Equity()
    ensures var (gate, state) := Ticked(rules, g, SnapshotOf(a, at));
            && state == StateOf(rules.policy, a, at)
            && rules.policy.PhantomMll(state) == FloorOf(rules.policy, a)
            && gate == (if a.Equity() <= FloorOf(rules.policy, a) then Scheduled(g, "MLL_EQUITY_TOUCH") else g)
  {
  }

  lemma MarkSeesHighWater(a: Account, symbol: string, close: real)
    ensures Marked(a, symbol, close).highWater >= Marked(a, symbol, close).Equity()
    ensures Marked(a, symbol, close).highWater >= a.highWater
    ensures Marked(a, symbol, close).startBalance == a.startBalance
  {
    hide TotalOpenPnl;
  }

  /** Every bar that is reached shows the gate exactly its marked ledger, judges it by the
      closed-form floor, and schedules a flatten if and only if equity is at or below it. */
  lemma BarShowsLedger(rules: Rules, d: Desk, b: LiveBar, proposals: seq<Proposal>)
    requires BarStep(rules, d, b, proposals).state.Some?
    ensures var o := BarStep(rules, d, b, proposals);
            var a := Marked(d.account, b.bar.symbol, b.bar.close);
            && o.state == Some(StateOf(rules.policy, a, b.bar.timestamp))
            && rules.policy.PhantomMll(o.state.value) == FloorOf(rules.policy, a)
            && (a.Equity() <= FloorOf(rules.policy, a) ==> o.desk.gate.flattening)
            && (a.Equity() > FloorOf(rules.policy, a) ==> o.desk.gate.flattening == d.gate.flattening)
  {
    hide Pump, Marked, Ticked, StateOf, FloorOf;
    var a := Marked(d.account, b.bar.symbol, b.bar.close);
    MarkSeesHighWater(d.account, b.bar.symbol, b.bar.close);
    LedgerIsShown(rules, Flattened(d.gate, None), a, b.bar.timestamp);
    var ticked := Ticked(rules, Flattened(d.gate, None), SnapshotOf(a, b.bar.timestamp));
    if b.trading {
      PumpKeepsLatches(rules, Desk(ticked.0, a), ticked.1, b.bar.close, proposals);
    }
  }

  /** A flatten is pending, or the stop request starts one. */
  predicate Drains(d: Desk, b: LiveBar) {
    d.gate.pending.Some? || (b.stop && !d.gate.flattening)
  }

  /** How a bar that decides nothing ends. A drain the broker refuses crashes the loop, a stop
      request stops it, and neither touches the ledger; a bar outside the bot's schedule marks
      and goes on. A drain disables the gate whether or not the broker takes it. */
  lemma QuietBar(rules: Rules, d: Desk, b: LiveBar, proposals: seq<Proposal>)
    requires b.stop || !b.trading || (Drains(d, b) && !b.brokerOk)
    ensures var o := BarStep(rules, d, b, proposals);
            && o.decisions == []
            && (Drains(d, b) ==> o.desk.gate.disabled && o.desk.gate.cancelAlls == d.gate.cancelAlls + 1)
            && (!Drains(d, b) ==>
                  o.desk.gate.disabled == d.gate.disabled && o.desk.gate.cancelAlls == d.gate.cancelAlls)
            && (if Drains(d, b) && !b.brokerOk then
                  o.status == CRASHED && o.state.None? && o.events == [] && o.desk.account == d.account
                else if b.stop then
                  o.status == STOPPED && o.state.None? && o.events == [] && o.desk.account == d.account
                else
                  && o.status == RUNNING && o.events == [Mark(b.bar.symbol, b.bar.close)]
                  && o.desk.account == Marked(d.account, b.bar.symbol, b.bar.close))
  {
    hide Pump, Marked;
  }

  /** The decision is about this order: it carries it, with no more than the stop changed. */
  predicate Answers(decision: Decision, intent: OrderIntent) {
    match decision
    case Approved(order, _) =>
      order == intent || (intent.bracket.Some? && order.bracket.Some?
                          && order == intent.WithStop(order.bracket.value.stopLossTicks)
                          && order.bracket.value.stopLossTicks <= intent.bracket.value.stopLossTicks)
    case Denied(order, _, _) => order == intent
    case Raised(_) => true
  }

  /** A bar answers its proposals one by one, in order, and all of them unless it raises. */
  lemma {:induction false} EveryProposalIsAnswered(rules: Rules, d: Desk, state: AccountState, close: real,
                                                   proposals: seq<Proposal>, i: nat)
    ensures var p := Pump(rules, d, state, close, proposals);
            && |p.decisions| <= |proposals| && (!p.raised ==> |p.decisions| == |proposals|)
            && (i < |p.decisions| ==> Answers(p.decisions[i], proposals[i].intent))
    decreases |proposals|
  {
    hide FirstSix, RoomTicks, HasRoom, Filled;
    if proposals != [] {
      var first := Placed(rules, d, state, close, proposals[0]);
      assert Answers(first.decision, proposals[0].intent);
      if !first.raised {
        var rest := Pump(rules, first.desk, state, close, proposals[1..]);
        assert Pump(rules, d, state, close, proposals).decisions == [first.decision] + rest.decisions;
        EveryProposalIsAnswered(rules, first.desk, state, close, proposals[1..], if i == 0 then 0 else i - 1);
      }
    }
  }

  ghost predicate IsApprovedFill(e: Event, decisions: seq<Decision>, close: real) {
    exists decision :: decision in decisions && decision.Approved?
                       && e == Fill(decision.intent.symbol, decision.intent.SignedQty(), close)
  }

  /** Every fill of a bar is at its close, and is one of the bar's approved orders. */
  lemma {:induction false} FillsAreApprovals(rules: Rules, d: Desk, state: AccountState, close: real,
                                             proposals: seq<Proposal>, e: Event)
    requires e in Pump(rules, d, state, close, proposals).fills
    ensures IsApprovedFill(e, Pump(rules, d, state, close, proposals).decisions, close)
    decreases |proposals|
  {
    hide Ask, HasRoom, Filled;
    var first := Placed(rules, d, state, close, proposals[0]);
    var p := Pump(rules, d, state, close, proposals);
    assert p.decisions[0] == first.decision;
    if e !in first.fills {
      var rest := Pump(rules, first.desk, state, close, proposals[1..]);
      FillsAreApprovals(rules, first.desk, state, close, proposals[1..], e);
      var decision :| decision in rest.decisions && decision.Approved?
                      && e == Fill(decision.intent.symbol, decision.intent.SignedQty(), close);
      assert decision in p.decisions;
    }
  }

  lemma BarKeepsHighWater(rules: Rules, d: Desk, b: LiveBar, proposals: seq<Proposal>)
    ensures var o := BarStep(rules, d, b, proposals);
            && o.desk.account.highWater >= d.account.highWater
            && o.desk.account.startBalance == d.account.startBalance
  {
    hide Run, BarStep;
    var o := BarStep(rules, d, b, proposals);
    BarRunsLedger(rules, d, b, proposals);
    RunKeepsHighWater(d.account, o.events);
    RunKeepsStart(d.account, o.events);
  }

  lemma {:induction false} RunKeepsHighWater(a: Account, events: seq<Event>)
    ensures Run(a, events).highWater >= a.highWater
    decreases |events|
  {
    hide TotalOpenPnl, Average, ClosedQty, PointValue;
    if events != [] {
      RunKeepsHighWater(Step(a, events[0]), events[1..]);
    }
  }

  lemma FloorRises(policy: Policy, a: Account, b: Account)
    requires a.highWater <= b.highWater && a.startBalance == b.startBalance
    ensures FloorOf(policy, a) <= FloorOf(policy, b)
  {
  }

  /** Over every run and under either policy the floor the bars are judged by never falls. */
  lemma {:induction false} FloorNeverFalls(rules: Rules, d: Desk, bars: seq<(LiveBar, seq<Proposal>)>, k: nat)
    requires k < |LiveRun(rules, d, bars)| && LiveRun(rules, d, bars)[k].state.Some?
    ensures FloorOf(rules.policy, d.account) <= rules.policy.PhantomMll(LiveRun(rules, d, bars)[k].state.value)
    ensures k > 0 && LiveRun(rules, d, bars)[0].state.Some? ==>
              rules.policy.PhantomMll(LiveRun(rules, d, bars)[0].state.value)
              <= rules.policy.PhantomMll(LiveRun(rules, d, bars)[k].state.value)
    decreases |bars|
  {
    hide BarStep, FloorOf;
    var (b, proposals) := bars[0];
    var o := BarStep(rules, d, b, proposals);
    var outs := LiveRun(rules, d, bars);
    if o.state.Some? {
      BarShowsLedger(rules, d, b, proposals);
      MarkSeesHighWater(d.account, b.bar.symbol, b.bar.close);
      FloorRises(rules.policy, d.account, Marked(d.account, b.bar.symbol, b.bar.close));
      ShownFloorIsBehind(rules, d, b, proposals);
    }
    if k > 0 {
      BarKeepsHighWater(rules, d, b, proposals);
      FloorRises(rules.policy, d.account, o.desk.account);
      assert outs[k] == LiveRun(rules, o.desk, bars[1..])[k - 1];
      FloorNeverFalls(rules, o.desk, bars[1..], k - 1);
    }
  }

  /** The floor a bar was judged by is no higher than that of the ledger it leaves. */
  lemma ShownFloorIsBehind(rules: Rules, d: Desk, b: LiveBar, proposals: seq<Proposal>)
    requires BarStep(rules, d, b, proposals).state.Some?
    ensures var o := BarStep(rules, d, b, proposals);
            rules.policy.PhantomMll(o.state.value) <= FloorOf(rules.policy, o.desk.account)
  {
    hide Pump, Ticked, FloorOf, Run, Marked, SnapshotOf, StateOf;
    var o := BarStep(rules, d, b, proposals);
    var a := Marked(d.account, b.bar.symbol, b.bar.close);
    BarShowsLedger(rules, d, b, proposals);
    if b.trading {
      var ticked := Ticked(rules, Flattened(d.gate, None), SnapshotOf(a, b.bar.timestamp));
      var p := Pump(rules, Desk(ticked.0, a), ticked.1, b.bar.close, proposals);
      PumpRunsLedger(rules, Desk(ticked.0, a), ticked.1, b.bar.close, proposals);
      RunKeepsHighWater(a, p.fills);
      RunKeepsStart(a, p.fills);
    }
    FloorRises(rules.policy, a, o.desk.account);
  }

  // ---- Safety after a floor touch -------------------------------------------

  predicate IsDisabledDenial(decision: Decision) {
    decision.Denied? && decision.rule == STRATEGY_DISABLED
  }

  /** Decisions of a disabled gate, and no fill. */
  ghost predicate NoTrades(o: BarOutcome) {
    && (forall decision :: decision in o.decisions ==> IsDisabledDenial(decision))
    && (forall e :: e in o.events ==> e.Mark?)
  }

  /** A market, limit or bracket order of at least one contract that adds to the position. */
  predicate AddsExposure(intent: OrderIntent, state: AccountState) {
    intent.MarketOrLimitOpen() && intent.quantity >= 1 && intent.IncreasesExposure(state.openPositions)
  }

  predicate Touched(rules: Rules, o: BarOutcome) {
    o.state.Some? && Touches(rules, o.state.value)
  }

  lemma {:induction false} DisabledPump(rules: Rules, d: Desk, state: AccountState, close: real,
                                        proposals: seq<Proposal>)
    requires d.gate.disabled
    ensures var p := Pump(rules, d, state, close, proposals);
            && p.desk == d && p.fills == [] && !p.raised
            && forall decision :: decision in p.decisions ==> IsDisabledDenial(decision)
    decreases |proposals|
  {
    hide FirstSix, Filled, HasRoom;
    if proposals != [] {
      DisabledPump(rules, d, state, close, proposals[1..]);
    }
  }

  /** Pumping never moves the latches. */
  lemma {:induction false} PumpKeepsLatches(rules: Rules, d: Desk, state: AccountState, close: real,
                                            proposals: seq<Proposal>)
    ensures var p := Pump(rules, d, state, close, proposals);
            p.desk.gate == d.gate.(history := p.desk.gate.history)
    decreases |proposals|
  {
    hide Decide, FirstSix, Filled, HasRoom;
    if proposals != [] {
      var first := Placed(rules, d, state, close, proposals[0]);
      if !first.raised {
        PumpKeepsLatches(rules, first.desk, state, close, proposals[1..]);
      }
    }
  }

  /** At or below the floor no order that adds exposure against the snapshot is approved. */
  lemma {:induction false} TouchedPump(rules: Rules, d: Desk, state: AccountState, close: real,
                                       proposals: seq<Proposal>)
    requires rules.config.Valid() && Touches(rules, state)
    ensures var p := Pump(rules, d, state, close, proposals);
            forall decision :: decision in p.decisions && decision.Approved? ==> !AddsExposure(decision.intent, state)
    decreases |proposals|
  {
    hide Placed, AddsExposure;
    if proposals != [] {
      var first := Placed(rules, d, state, close, proposals[0]);
      TouchedRequest(rules, d, state, close, proposals[0]);
      if !first.raised {
        TouchedPump(rules, first.desk, state, close, proposals[1..]);
      }
    }
  }

  lemma TouchedRequest(rules: Rules, d: Desk, state: AccountState, close: real, p: Proposal)
    requires rules.config.Valid() && Touches(rules, state)
    ensures var decision := Placed(rules, d, state, close, p).decision;
            decision.Approved? ==> !AddsExposure(decision.intent, state)
  {
    if AddsExposure(p.intent, state) {
      TouchBlocksExposure(rules, d.gate.disabled, RatioNow(d.gate, state), p.around.journal, p.intent, state);
    }
    hide FirstSix, RoomTicks, Filled, HasRoom;
    var decision := Placed(rules, d, state, close, p).decision;
    assert decision == Ask(rules, d.gate, p.around.journal, p.intent, state).1;
    if decision.Approved? {
      assert decision.intent.SignedQty() == p.intent.SignedQty() && decision.intent.symbol == p.intent.symbol;
    }
  }

  lemma BarKeepsLatch(rules: Rules, d: Desk, b: LiveBar, proposals: seq<Proposal>)
    requires Latch(d.gate)
    ensures var o := BarStep(rules, d, b, proposals);
            && Latch(o.desk.gate) && Later(d.gate, o.desk.gate)
            && (Touched(rules, o) ==> o.desk.gate.flattening)
  {
    hide Pump, Marked;
    var o := BarStep(rules, d, b, proposals);
    if o.state.Some? && b.trading {
      var account := Marked(d.account, b.bar.symbol, b.bar.close);
      var ticked := Ticked(rules, Flattened(d.gate, None), SnapshotOf(account, b.bar.timestamp));
      PumpKeepsLatches(rules, Desk(ticked.0, account), ticked.1, b.bar.close, proposals);
    }
  }

  lemma DisabledBar(rules: Rules, d: Desk, b: LiveBar, proposals: seq<Proposal>)
    requires Latch(d.gate) && d.gate.flattening
    ensures NoTrades(BarStep(rules, d, b, proposals))
  {
    hide Pump, Marked;
    var o := BarStep(rules, d, b, proposals);
    if o.state.Some? && b.trading {
      var account := Marked(d.account, b.bar.symbol, b.bar.close);
      var ticked := Ticked(rules, Flattened(d.gate, None), SnapshotOf(account, b.bar.timestamp));
      DisabledPump(rules, Desk(ticked.0, account), ticked.1, b.bar.close, proposals);
    }
  }

  lemma {:induction false} FlatteningRunTradesNothing(rules: Rules, d: Desk, bars: seq<(LiveBar, seq<Proposal>)>)
    requires Latch(d.gate) && d.gate.flattening
    ensures forall o :: o in LiveRun(rules, d, bars) ==> NoTrades(o)
    decreases |bars|
  {
    hide BarStep, Latch, NoTrades;
    if bars != [] {
      var o := BarStep(rules, d, bars[0].0, bars[0].1);
      DisabledBar(rules, d, bars[0].0, bars[0].1);
      BarKeepsLatch(rules, d, bars[0].0, bars[0].1);
      FlatteningRunTradesNothing(rules, o.desk, bars[1..]);
    }
  }

  /** In every run, for any strategies and journals: a bar whose equity is at or below the
      floor approves nothing that adds exposure, and no later bar trades at all. */
  lemma {:induction false} TouchEndsTrading(rules: Rules, d: Desk, bars: seq<(LiveBar, seq<Proposal>)>, j: nat)
    requires rules.config.Valid() && Latch(d.gate)
    requires j < |LiveRun(rules, d, bars)| && Touched(rules, LiveRun(rules, d, bars)[j])
    ensures var outs := LiveRun(rules, d, bars);
            && (forall decision :: decision in outs[j].decisions && decision.Approved?
                                   ==> !AddsExposure(decision.intent, outs[j].state.value))
            && (forall k :: j < k < |outs| ==> NoTrades(outs[k]))
    decreases |bars|
  {
    hide BarStep, Latch, NoTrades, AddsExposure, Touched;
    var o := BarStep(rules, d, bars[0].0, bars[0].1);
    BarKeepsLatch(rules, d, bars[0].0, bars[0].1);
    var rest := if o.status == RUNNING then LiveRun(rules, o.desk, bars[1..]) else [];
    assert LiveRun(rules, d, bars) == [o] + rest;
    if j == 0 {
      TouchedBar(rules, d, bars[0].0, bars[0].1);
      FlatteningRunTradesNothing(rules, o.desk, bars[1..]);
      forall k | 0 < k < 1 + |rest|
        ensures NoTrades(([o] + rest)[k])
      {
        assert rest[k - 1] in rest;
      }
    } else {
      assert rest[j - 1] == LiveRun(rules, d, bars)[j];
      TouchEndsTrading(rules, o.desk, bars[1..], j - 1);
    }
  }

  lemma TouchedBar(rules: Rules, d: Desk, b: LiveBar, proposals: seq<Proposal>)
    requires rules.config.Valid() && Touched(rules, BarStep(rules, d, b, proposals))
    ensures var o := BarStep(rules, d, b, proposals);
            forall decision :: decision in o.decisions && decision.Approved?
                ==> !AddsExposure(decision.intent, o.state.value)
  {
    hide Pump, Marked, Ticked, Touches, Flattened, AddsExposure;
    if b.trading {
      var account := Marked(d.account, b.bar.symbol, b.bar.close);
      var ticked := Ticked(rules, Flattened(d.gate, None), SnapshotOf(account, b.bar.timestamp));
      TouchedPump(rules, Desk(ticked.0, account), ticked.1, b.bar.close, proposals);
    }
  }
}
