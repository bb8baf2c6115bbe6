/** The loop that runs one bot: its gate, its tracker, its strategy and the fleet's allocator,
    bar after bar. */
module LiveTradingLoop {
  import opened Types
  import opened Markets
  import opened CancelTracker
  import opened GateRules
  import opened Gate
  import opened Ledger
  import opened Allocator
  import opened Tracker
  import opened Strategies
  import opened LiveLoop
  import opened ClosedLoop

  /** One of the two strategies, as the object that runs. */
  datatype Runner = RunsMeanReversion(mr: MeanReversionStrategy) | RunsTrendFollowing(tf: TrendFollowingStrategy)
  {
    function Objects(): set<object> {
      match this
      case RunsMeanReversion(mr) => {mr}
      case RunsTrendFollowing(tf) => {tf}
    }

    function State(): Strategy
      reads Objects()
    {
      match this
      case RunsMeanReversion(mr) => MeanReversion(mr.cfg, mr.State())
      case RunsTrendFollowing(tf) => TrendFollowing(tf.cfg, tf.State())
    }

    method OnBar(bar: Bar, signals: Signals) returns (intents: seq<OrderIntent>)
      requires State().Valid()
      modifies Objects()
      ensures (State(), intents) == old(State()).OnBar(bar, signals)
    {
      hide MrOnBar, TfOnBar;
      match this
      case RunsMeanReversion(mr) => intents := mr.OnBar(bar, signals);
      case RunsTrendFollowing(tf) => intents := tf.OnBar(bar, signals);
    }
  }

  /** Bars the loop takes before `max_bars` stops it; the count is looked at after a bar, so
      even a limit of zero lets one through. */
  function Taken(maxBars: Option<int>, available: nat): (n: nat)
    ensures n <= available && (available > 0 ==> n > 0)
    ensures maxBars.None? ==> n == available
    ensures maxBars.Some? && maxBars.value >= 1 ==> n <= maxBars.value && (n == maxBars.value || n == available)
    ensures maxBars.Some? && maxBars.value < 1 ==> n <= 1
  {
    if maxBars.None? || maxBars.value >= available then available
    else if maxBars.value < 1 then (if available == 0 then 0 else 1)
    else maxBars.value
  }

  class LiveTradingLoop {
    const gate: TopstepRiskGate
    const tracker: AccountStateTracker
    const strategy: Runner
    const allocator: FleetAllocator?
    const botName: string

    constructor (gate: TopstepRiskGate, tracker: AccountStateTracker, strategy: Runner,
                 allocator: FleetAllocator?, botName: string)
      ensures this.gate == gate && this.tracker == tracker && this.strategy == strategy
      ensures this.allocator == allocator && this.botName == botName
    {
      this.gate, this.tracker, this.strategy := gate, tracker, strategy;
      this.allocator, this.botName := allocator, botName;
    }

    function Shared(): set<object> {
      if allocator == null then {} else {allocator}
    }

    /** The surroundings speak of this loop's own fleet, or of none if it has none. */
    predicate Belongs(around: Surroundings) {
      if allocator == null then around.fleet.None?
      else around.fleet.Some? && around.fleet.value.bot == botName && around.fleet.value.maxMini == allocator.maxMini
    }

    ghost predicate AllBelong(cb: ClosedBar) {
      forall i: nat :: Belongs(cb.around(i))
    }

    function State(): Desk
      reads gate, gate.cancelTracker, tracker
    {
      Desk(gate.State(), tracker.Value())
    }

    function Value(): Loop
      reads gate, gate.cancelTracker, tracker, strategy.Objects()
    {
      Loop(State(), strategy.State())
    }

    ghost predicate Valid()
      reads gate, gate.cancelTracker, tracker, strategy.Objects()
    {
      tracker.AllPriced() && gate.cancelTracker.window == WINDOW && strategy.State().Valid()
    }

    /** The whole run: the state machine of the closed loop over the bars that are taken. */
    method Run(bars: seq<ClosedBar>, maxBars: Option<int>)
      returns (status: Status, decisions: seq<Decision>, events: seq<Event>)
      requires Valid() && forall i :: 0 <= i < |bars| ==> AllBelong(bars[i])
      modifies gate, gate.cancelTracker, tracker, strategy.Objects(), Shared()
      ensures Valid()
      ensures Trace(Value(), status, decisions, events)
           == ClosedRun(gate.rules, old(Value()), bars[..Taken(maxBars, |bars|)])
    {
      hide ClosedRun, ClosedStep, Priced;
      var barsSeen := 0;
      decisions, events := [], [];
      ghost var n := Taken(maxBars, |bars|);
      ghost var whole := ClosedRun(gate.rules, Value(), bars[..n]);
      assert bars[0..n] == bars[..n];
      JoinedToNothing(whole);
      while barsSeen < |bars|
        invariant 0 <= barsSeen <= n
        invariant maxBars.Some? && 0 < barsSeen < |bars| ==> barsSeen < maxBars.value
        invariant Valid()
        invariant whole == After(decisions, events, ClosedRun(gate.rules, Value(), bars[barsSeen..n]))
      {
        ghost var x := Value();
        assert bars[barsSeen..n][0] == bars[barsSeen] && bars[barsSeen..n][1..] == bars[barsSeen + 1..n];
        var stepStatus, more, moreEvents := RunBar(bars[barsSeen]);
        RunUnfolds(gate.rules, x, bars[barsSeen..n], decisions, events);
        decisions, events := decisions + more, events + moreEvents;
        if stepStatus != RUNNING {
          return stepStatus, decisions, events;
        }
        barsSeen := barsSeen + 1;
        if maxBars.Some? && barsSeen >= maxBars.value {
          break;
        }
      }
      status := RUNNING;
      EmptyRest(gate.rules, Value(), bars[barsSeen..n], decisions, events);
    }

    /** One bar. */
    method RunBar(cb: ClosedBar) returns (status: Status, decisions: seq<Decision>, events: seq<Event>)
      requires Valid() && AllBelong(cb)
      modifies gate, gate.cancelTracker, tracker, strategy.Objects(), Shared()
      ensures Valid()
      ensures var (next, o) := ClosedStep(gate.rules, old(Value()), cb);
              Value() == next && status == o.status && decisions == o.decisions && events == o.events
      ensures allocator != null ==>
                allocator.pending == TableAfterBar(old(allocator.pending), cb, decisions, status == CRASHED)
    {
      hide Ticked, Marked, Pump, Flattened, Priced, ClosedStep, Refreshed, SnapshotOf;
      ghost var x := Value();
      var b := cb.live;
      decisions, events := [], [];
      if b.stop {
        EndedStep(gate.rules, x, cb);
        var failed := gate.ForceFlattenNow(Some("SHUTDOWN"), b.brokerOk);
        return if failed then CRASHED else STOPPED, [], [];
      }
      var raised := gate.ForceFlattenNow(None, b.brokerOk);
      if raised {
        EndedStep(gate.rules, x, cb);
        return CRASHED, [], [];
      }
      status, decisions, events := ProcessBar(cb, x);
    }

    /** What follows the drain; `x` is the loop as it stood before it. */
    method ProcessBar(cb: ClosedBar, ghost x: Loop) returns (status: Status, decisions: seq<Decision>,
                      events: seq<Event>)
      requires Valid() && AllBelong(cb) && !cb.live.stop && !DrainFails(x.desk.gate, None, cb.live.brokerOk)
      requires Value() == x.(desk := x.desk.(gate := Flattened(x.desk.gate, None)))
      modifies gate, gate.cancelTracker, tracker, strategy.Objects(), Shared()
      ensures Valid()
      ensures var (next, o) := ClosedStep(gate.rules, x, cb);
              Value() == next && status == o.status && decisions == o.decisions && events == o.events
      ensures allocator != null ==>
                allocator.pending == TableAfterBar(old(allocator.pending), cb, decisions, status == CRASHED)
    {
      hide Ticked, Marked, Pump, Flattened, Priced, ClosedStep, Refreshed, SnapshotOf, DrainFails, Turn, MrOnBar,
           TfOnBar, AllBelong, Proposals;
      var b := cb.live;
      decisions := [];
      var state := Show(b.bar);
      events := [Mark(b.bar.symbol, b.bar.close)];
      if !b.trading {
        IdleStep(gate.rules, x, cb);
        return RUNNING, [], events;
      }
      ReachedStep(gate.rules, x, cb);
      var intents := strategy.OnBar(b.bar, cb.signals);
      var raised, fills;
      raised, decisions, fills := PumpIntents(intents, cb, state);
      events := events + fills;
      status := if raised then CRASHED else RUNNING;
    }

    /** Mark to market, snapshot, tick. */
    method Show(bar: Bar) returns (state: AccountState)
      requires tracker.AllPriced()
      modifies gate, tracker
      ensures tracker.AllPriced() && tracker.Value() == Marked(old(tracker.Value()), bar.symbol, bar.close)
      ensures (gate.State(), state) == Ticked(gate.rules, old(gate.State()), SnapshotOf(tracker.Value(), bar.timestamp))
    {
      hide Ticked, Marked, Priced, SnapshotOf, RefreshRaises;
      PricedNeverRaisesAtMark(tracker.Value(), bar.symbol, bar.close);
      var failed := tracker.MarkToMarket(bar);
      assert !failed;
      state := tracker.Snapshot(bar.timestamp);
      state := gate.OnTick(state);
    }

    /** The orders of one bar, each against the same state. */
    method PumpIntents(intents: seq<OrderIntent>, cb: ClosedBar, state: AccountState)
      returns (raised: bool, decisions: seq<Decision>, fills: seq<Event>)
      requires tracker.AllPriced() && gate.cancelTracker.window == WINDOW && AllBelong(cb)
      modifies gate.cancelTracker, tracker, Shared()
      ensures tracker.AllPriced()
      ensures Pumped(State(), decisions, fills, raised)
           == Pump(gate.rules, old(State()), state, cb.live.bar.close, Proposals(intents, cb))
      ensures allocator != null ==> allocator.pending == TableAfterBar(old(allocator.pending), cb, decisions, raised)
    {
      hide Pump, Placed, Priced, TableAfter, TableAfterBar;
      var close := cb.live.bar.close;
      raised, decisions, fills := false, [], [];
      ghost var whole := Pump(gate.rules, State(), state, close, Proposals(intents, cb));
      ghost var proposals := Proposals(intents, cb);
      assert proposals[0..] == proposals;
      if allocator != null {
        EmptyTable(allocator.pending, cb);
      }
      assert [] + whole.decisions == whole.decisions && [] + whole.fills == whole.fills;
      var i := 0;
      while i < |intents|
        invariant 0 <= i <= |intents|
        invariant tracker.AllPriced()
        invariant whole == Then(decisions, fills, Pump(gate.rules, State(), state, close, proposals[i..]))
        invariant |decisions| == i
        invariant allocator != null ==> allocator.pending == TableAfterBar(old(allocator.pending), cb, decisions, false)
      {
        ghost var d := State();
        assert proposals[i..][0] == Proposal(intents[i], cb.around(i)) && proposals[i..][1..] == proposals[i + 1..];
        var decision, filled;
        raised, decision, filled := Place(intents[i], cb.around(i), state, close);
        PumpUnfoldsAfter(gate.rules, d, state, close, proposals[i..], decisions, fills);
        if allocator != null {
          TableSnoc(old(allocator.pending), cb, decisions, decision, raised);
        }
        decisions, fills := decisions + [decision], fills + filled;
        if raised {
          return;
        }
        i := i + 1;
      }
      assert proposals[i..] == [];
      NothingToPump(gate.rules, State(), state, close);
      assert decisions + [] == decisions && fills + [] == fills;
    }

    /** One order: the gate, then the fleet, then the broker and the ledger. The other bots'
        steps reach the allocator's table while this one is suspended, so the table is found as
        its surroundings say. */
    method Place(intent: OrderIntent, around: Surroundings, state: AccountState, close: real)
      returns (raised: bool, decision: Decision, filled: seq<Event>)
      requires tracker.AllPriced() && gate.cancelTracker.window == WINDOW && Belongs(around)
      modifies gate.cancelTracker, tracker, Shared()
      ensures tracker.AllPriced()
      ensures Placing(State(), decision, filled, raised)
           == Placed(gate.rules, old(State()), state, close, Proposal(intent, around))
      ensures allocator != null && decision.Approved? ==>
                allocator.pending == TableAfter(around.fleet.value, decision.intent, raised)
      ensures allocator != null && !decision.Approved? ==> allocator.pending == old(allocator.pending)
    {
      hide Ask, Filled, Registered, Priced, FillRaises, FillStopped, Total, FleetCap, Committed;
      ghost var d := State();
      decision := gate.ApproveOrDeny(around.journal, intent, state);
      raised, filled := decision.Raised?, [];
      if decision.Approved? {
        var approved := decision.intent;
        ApprovedIsRegistered(gate.rules, d.gate, around.journal, intent, state);
        if allocator != null {
          var view := around.fleet.value;
          allocator.pending := view.pending;
          ApprovalIsRoom(view.maxMini, view.pending, botName, approved, view.positions);
          var verdict := allocator.ApproveIntent(botName, approved, view.positions);
          if verdict != FleetApproved {
            return;
          }
        }
        if !around.brokerTakes {
          raised := true;
          return;
        }
        filled := [Fill(approved.symbol, approved.SignedQty(), close)];
        PricedNeverRaises(tracker.Value(), approved.symbol, approved.SignedQty(), close);
        var failed := tracker.RecordFill(approved.symbol, approved.SignedQty(), close);
        assert !failed;
        if allocator != null {
          allocator.SettleIntent(botName, approved);
        }
      }
    }
  }

  /** The allocator's table once an approved order has been dealt with: as it was found if it
      found no room, still reserved if the broker raised, and otherwise settled. */
  ghost function TableAfter(view: FleetView, order: OrderIntent, raised: bool): Books {
    var (reserved, verdict) := Approval(view.maxMini, view.pending, view.bot, order, view.positions);
    if verdict != FleetApproved || raised then reserved
    else Released(reserved, view.bot, order.symbol, order.SignedQty())
  }

  /** The table after a bar is the one its last approved order leaves, and untouched without one. */
  ghost function TableAfterBar(before: Books, cb: ClosedBar, decisions: seq<Decision>, raised: bool): Books
    decreases |decisions|
  {
    if decisions == [] then before
    else
      var n := |decisions| - 1;
      if decisions[n].Approved? && cb.around(n).fleet.Some? then
        TableAfter(cb.around(n).fleet.value, decisions[n].intent, raised)
      else TableAfterBar(before, cb, decisions[..n], false)
  }

  lemma EmptyTable(before: Books, cb: ClosedBar)
    ensures TableAfterBar(before, cb, [], false) == before
  {
  }

  lemma TableSnoc(before: Books, cb: ClosedBar, decisions: seq<Decision>, decision: Decision, raised: bool)
    ensures TableAfterBar(before, cb, decisions + [decision], raised)
         == if decision.Approved? && cb.around(|decisions|).fleet.Some?
            then TableAfter(cb.around(|decisions|).fleet.value, decision.intent, raised)
            else TableAfterBar(before, cb, decisions, false)
  {
    assert (decisions + [decision])[..|decisions|] == decisions;
  }

  /** A table is left as it was found, quantity by quantity, except when the broker raised on an
      order that had found room: that order stays reserved for its bot. */
  lemma TableIsSettled(view: FleetView, order: OrderIntent, raised: bool, bot: string, symbol: string)
    ensures var room := HasRoom(Some(view), order.symbol, order.SignedQty());
            Net(TableAfter(view, order, raised), bot, symbol)
            == Net(view.pending, bot, symbol)
               + (if room && raised && bot == view.bot && symbol == order.symbol then order.SignedQty() else 0)
  {
    hide Registered, FleetCap, Total, Released, Reserved;
    ApprovalIsRoom(view.maxMini, view.pending, view.bot, order, view.positions);
    ReserveMoves(view.pending, view.bot, order.symbol, order.SignedQty());
    ReleaseUndoesReserve(view.pending, view.bot, order.symbol, order.SignedQty());
  }

  // ---- One bar, case by case ---------------------------------------------------

  lemma EndedStep(rules: Rules, x: Loop, cb: ClosedBar)
    requires x.strategy.Valid()
    requires cb.live.stop || DrainFails(x.desk.gate, None, cb.live.brokerOk)
    ensures var reason := if cb.live.stop then Some("SHUTDOWN") else None;
            var drained := x.desk.(gate := Flattened(x.desk.gate, reason));
            var status := if DrainFails(x.desk.gate, reason, cb.live.brokerOk) then CRASHED else STOPPED;
            ClosedStep(rules, x, cb) == (x.(desk := drained), BarOutcome(drained, status, None, [], []))
  {
    hide Ticked, Marked, Pump, Flattened, MrOnBar, TfOnBar, Registered;
  }

  lemma IdleStep(rules: Rules, x: Loop, cb: ClosedBar)
    requires x.strategy.Valid() && !cb.live.stop && !cb.live.trading
    requires !DrainFails(x.desk.gate, None, cb.live.brokerOk)
    ensures var (shown, state) := Shown(rules, x.desk, cb.live);
            ClosedStep(rules, x, cb)
            == (x.(desk := shown),
                BarOutcome(shown, RUNNING, Some(state), [], [Mark(cb.live.bar.symbol, cb.live.bar.close)]))
  {
    hide Ticked, Marked, Pump, Flattened, MrOnBar, TfOnBar, Registered;
  }

  lemma ReachedStep(rules: Rules, x: Loop, cb: ClosedBar)
    requires x.strategy.Valid() && Reached(x.desk, cb.live)
    ensures var (shown, state) := Shown(rules, x.desk, cb.live);
            var (next, intents) := x.strategy.OnBar(cb.live.bar, cb.signals);
            var p := Pump(rules, shown, state, cb.live.bar.close, Proposals(intents, cb));
            && next.Valid()
            && ClosedStep(rules, x, cb)
               == (Loop(p.desk, next),
                   BarOutcome(p.desk, if p.raised then CRASHED else RUNNING, Some(state), p.decisions,
                              [Mark(cb.live.bar.symbol, cb.live.bar.close)] + p.fills))
  {
    hide Ticked, Marked, Pump, Flattened, MrOnBar, TfOnBar, Registered;
    EveryBarIsATurn(x.strategy, cb.live.bar, cb.signals);
  }

  // ---- How the rest of a run joins what is done -------------------------------

  function After(decisions: seq<Decision>, events: seq<Event>, rest: Trace): Trace {
    rest.(decisions := decisions + rest.decisions, events := events + rest.events)
  }

  lemma JoinedToNothing(t: Trace)
    ensures After([], [], t) == t
  {
    assert [] + t.decisions == t.decisions && [] + t.events == t.events;
  }

  lemma EmptyRest(rules: Rules, x: Loop, bars: seq<ClosedBar>, decisions: seq<Decision>, events: seq<Event>)
    requires x.strategy.Valid() && bars == []
    ensures After(decisions, events, ClosedRun(rules, x, bars)) == Trace(x, RUNNING, decisions, events)
  {
    assert decisions + [] == decisions && events + [] == events;
  }

  lemma RunUnfolds(rules: Rules, x: Loop, bars: seq<ClosedBar>, decisions: seq<Decision>, events: seq<Event>)
    requires x.strategy.Valid() && bars != []
    ensures var (next, o) := ClosedStep(rules, x, bars[0]);
            After(decisions, events, ClosedRun(rules, x, bars))
            == if o.status != RUNNING then Trace(next, o.status, decisions + o.decisions, events + o.events)
               else After(decisions + o.decisions, events + o.events, ClosedRun(rules, next, bars[1..]))
  {
    hide ClosedStep;
    var (next, o) := ClosedStep(rules, x, bars[0]);
    if o.status == RUNNING {
      var rest := ClosedRun(rules, next, bars[1..]);
      assert decisions + (o.decisions + rest.decisions) == decisions + o.decisions + rest.decisions;
      assert events + (o.events + rest.events) == events + o.events + rest.events;
    }
  }
}
