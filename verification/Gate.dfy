/** The risk gate as a state machine: its decisions, its flatten latch, and replaying a
    run of approvals through a fresh gate. */
module Gate {
  import opened Types
  import opened Markets
  import opened Drawdown
  import opened CancelTracker
  import opened GateRules

  /** Sixty minutes, in microseconds. */
  const WINDOW := 60 * 60 * 1_000_000

  /** `cancelAlls` counts the cancel-all requests sent to the execution client. */
  datatype GateState = GateState(
    flattening: bool, pending: Option<string>, disabled: bool, cancelAlls: nat, history: History)

  const FRESH := GateState(false, None, false, 0, History([], []))

  // ---- Specification --------------------------------------------------------

  function RatioNow(g: GateState, state: AccountState): Ratio {
    RatioOf(Pruned(g.history, state.timestamp.instant - WINDOW))
  }

  /** The cancel tracker is only consulted, and so only pruned, once rules 1-6 have passed. */
  function Ask(rules: Rules, g: GateState, journal: JournalView, intent: OrderIntent, state: AccountState)
    : (GateState, Decision)
  {
    var pruned :=
      if g.disabled || !FirstSix(rules, journal, intent, state).Pass? then g.history
      else Pruned(g.history, state.timestamp.instant - WINDOW);
    (g.(history := pruned), Decide(rules, g.disabled, RatioNow(g, state), journal, intent, state))
  }

  /** Latches a request; a second one while the first is in flight changes nothing. */
  function Scheduled(g: GateState, reason: string): GateState {
    if g.flattening then g else g.(flattening := true, pending := Some(reason))
  }

  predicate Touches(rules: Rules, state: AccountState) {
    state.equity <= rules.policy.PhantomMll(state)
  }

  function Ticked(rules: Rules, g: GateState, state: AccountState): (GateState, AccountState) {
    var after := rules.policy.UpdateOnTick(state);
    (if Touches(rules, after) then Scheduled(g, "MLL_EQUITY_TOUCH") else g, after)
  }

  /** Drains a pending request. The strategy is disabled even when the broker call fails. */
  function Flattened(g: GateState, reason: Option<string>): GateState {
    var asked := if reason.Some? then Scheduled(g, reason.value) else g;
    if asked.pending.None? then asked
    else asked.(pending := None, disabled := true, cancelAlls := asked.cancelAlls + 1)
  }

  // ---- Laws of the latch over whole runs ------------------------------------

  datatype Op =
    | Tick(state: AccountState)
    | Flatten(reason: Option<string>)
    | Request(journal: JournalView, intent: OrderIntent, state: AccountState)
    | CancelRecorded(at: int)
    | FillRecorded(at: int)

  function Apply(rules: Rules, g: GateState, op: Op): GateState {
    match op
    case Tick(state) => Ticked(rules, g, state).0
    case Flatten(reason) => Flattened(g, reason)
    case Request(journal, intent, state) => Ask(rules, g, journal, intent, state).0
    case CancelRecorded(at) => g.(history := g.history.(cancels := g.history.cancels + [at]))
    case FillRecorded(at) => g.(history := g.history.(fills := g.history.fills + [at]))
  }

  function RunOps(rules: Rules, g: GateState, ops: seq<Op>): GateState
    decreases |ops|
  {
    if ops == [] then g else RunOps(rules, Apply(rules, g, ops[0]), ops[1..])
  }

  /** The latch is in one of three phases: idle, requested, drained. */
  ghost predicate Latch(g: GateState) {
    || (!g.flattening && g.pending.None? && !g.disabled && g.cancelAlls == 0)
    || (g.flattening && g.pending.Some? && !g.disabled && g.cancelAlls == 0)
    || (g.flattening && g.pending.None? && g.disabled && g.cancelAlls == 1)
  }

  /** Phases only advance. */
  ghost predicate Later(g: GateState, h: GateState) {
    (g.flattening ==> h.flattening) && (g.disabled ==> h.disabled) && g.cancelAlls <= h.cancelAlls
  }

  /** In every run of ticks, drains, requests and recordings the latch stays in one of its
      phases and never moves back: cancel-all is sent at most once, and a disabled gate
      stays disabled. */
  lemma {:induction false} LatchOverRuns(rules: Rules, g: GateState, ops: seq<Op>)
    requires Latch(g)
    ensures Latch(RunOps(rules, g, ops)) && Later(g, RunOps(rules, g, ops))
    ensures RunOps(rules, g, ops).cancelAlls <= 1
    decreases |ops|
  {
    if ops != [] {
      LatchOverRuns(rules, Apply(rules, g, ops[0]), ops[1..]);
    }
  }

  /** An idle latch takes the reason it is given: that of a touched floor from a tick, the
      caller's from a request. */
  lemma ReasonIsLatched(rules: Rules, g: GateState, state: AccountState, reason: string)
    requires !g.flattening
    ensures Scheduled(g, reason).flattening && Scheduled(g, reason).pending == Some(reason)
    ensures Touches(rules, rules.policy.UpdateOnTick(state)) ==>
              Ticked(rules, g, state).0.pending == Some("MLL_EQUITY_TOUCH")
    ensures !Touches(rules, rules.policy.UpdateOnTick(state)) ==> Ticked(rules, g, state).0 == g
  {
  }

  /** A request moves nothing of the gate but the cancel lists, and those only if it gets as far
      as rule 7: they are then down to the last sixty minutes. */
  lemma RequestPrunesAtRuleSeven(rules: Rules, g: GateState, journal: JournalView, intent: OrderIntent,
                                 state: AccountState)
    ensures var (after, decision) := Ask(rules, g, journal, intent, state);
            var since := state.timestamp.instant - 3_600_000_000;
            var reached := decision.Approved? || (decision.Denied? && decision.rule in {HFT_DEFENSIVE, MLL_PROXIMITY});
            && after == g.(history := after.history)
            && (!reached ==> after == g)
            && (reached ==>
                  && |after.history.cancels| == CountSince(g.history.cancels, since)
                  && |after.history.fills| == CountSince(g.history.fills, since))
  {
    hide RoomTicks, Kept, CountSince, WorstCaseLoss, Held;
    KeptCounts(g.history.cancels, state.timestamp.instant - WINDOW);
    KeptCounts(g.history.fills, state.timestamp.instant - WINDOW);
    if FirstSix(rules, journal, intent, state).Pass? {
      ReachedIsRegistered(rules, journal, intent, state);
    }
  }

  lemma ReachedIsRegistered(rules: Rules, journal: JournalView, intent: OrderIntent, state: AccountState)
    requires FirstSix(rules, journal, intent, state).Pass?
    ensures intent.bracket.Some? ==> Registered(intent.symbol)
  {
  }

  /** The reason first latched stands until it is drained; no later request replaces it, and
      none is latched again. */
  lemma {:induction false} FirstReasonStands(rules: Rules, g: GateState, ops: seq<Op>)
    requires Latch(g) && g.flattening
    ensures var after := RunOps(rules, g, ops);
            after.pending == g.pending || after.pending.None?
    ensures g.disabled ==> RunOps(rules, g, ops).pending.None?
    decreases |ops|
  {
    if ops != [] {
      LatchOverRuns(rules, g, [ops[0]]);
      assert [ops[0]][1..] == [];
      FirstReasonStands(rules, Apply(rules, g, ops[0]), ops[1..]);
    }
  }

  lemma {:induction false} RunOpsConcat(rules: Rules, g: GateState, a: seq<Op>, b: seq<Op>)
    ensures RunOps(rules, g, a + b) == RunOps(rules, RunOps(rules, g, a), b)
    decreases |a|
  {
    if a == [] {
      assert a + b == b;
    } else {
      assert (a + b)[1..] == a[1..] + b;
      RunOpsConcat(rules, Apply(rules, g, a[0]), a[1..], b);
    }
  }

  /** Once a tick has touched the floor and the next drain has run, whatever happened
      around them, every request is turned away. */
  lemma {:induction false} NothingAfterDrainedTouch(rules: Rules, before: seq<Op>, touched: AccountState,
                                                    between: seq<Op>,
                                 reason: Option<string>, after: seq<Op>,
                                 journal: JournalView, intent: OrderIntent, state: AccountState)
    requires Touches(rules, rules.policy.UpdateOnTick(touched))
    ensures var g := RunOps(rules, FRESH, before + [Tick(touched)] + between + [Flatten(reason)] + after);
            Ask(rules, g, journal, intent, state) == (g, Denied(intent, STRATEGY_DISABLED, state))
  {
    var g0 := RunOps(rules, FRESH, before);
    LatchOverRuns(rules, FRESH, before);
    var g1 := Apply(rules, g0, Tick(touched));
    assert RunOps(rules, g0, [Tick(touched)]) == g1 && g1.flattening;
    var g2 := RunOps(rules, g1, between);
    LatchOverRuns(rules, g1, between);
    var g3 := Apply(rules, g2, Flatten(reason));
    assert RunOps(rules, g2, [Flatten(reason)]) == g3 && g3.disabled;
    LatchOverRuns(rules, g3, after);
    RunOpsConcat(rules, FRESH, before, [Tick(touched)]);
    RunOpsConcat(rules, FRESH, before + [Tick(touched)], between);
    RunOpsConcat(rules, FRESH, before + [Tick(touched)] + between, [Flatten(reason)]);
    RunOpsConcat(rules, FRESH, before + [Tick(touched)] + between + [Flatten(reason)], after);
  }

  // ---- The class ------------------------------------------------------------

  class TopstepRiskGate {
    const rules: Rules
    const cancelTracker: RollingRatioTracker
    var flattening: bool
    var pendingFlattenReason: Option<string>
    var strategyDisabled: bool
    var cancelAlls: nat

    function State(): GateState
      reads this, cancelTracker
    {
      GateState(flattening, pendingFlattenReason, strategyDisabled, cancelAlls, cancelTracker.Lists())
    }

    constructor (rules: Rules)
      ensures this.rules == rules && State() == FRESH && fresh(cancelTracker)
      ensures cancelTracker.Valid() && cancelTracker.window == WINDOW && cancelTracker.horizon == None
    {
      this.rules := rules;
      cancelTracker := new RollingRatioTracker(WINDOW);
      flattening, pendingFlattenReason, strategyDisabled, cancelAlls := false, None, false, 0;
    }

    /** The decision of the specification; and, as long as requests do not go back in time,
        the decision a gate that remembers every cancel and fill would have made. */
    method ApproveOrDeny(journal: JournalView, intent: OrderIntent, state: AccountState) returns (decision: Decision)
      requires cancelTracker.window == WINDOW
      modifies cancelTracker
      ensures (State(), decision) == Ask(rules, old(State()), journal, intent, state)
      ensures cancelTracker.full == old(cancelTracker.full)
      ensures var cutoff := state.timestamp.instant - WINDOW;
              old(cancelTracker.Valid()) && Forward(old(cancelTracker.horizon), cutoff) ==>
              && cancelTracker.Valid()
              && Forward(cancelTracker.horizon, cutoff)
              && decision == Decide(rules, strategyDisabled, RatioOf(Pruned(cancelTracker.full, cutoff)), journal,
                  intent, state)
    {
      if strategyDisabled {
        return Denied(intent, STRATEGY_DISABLED, state);
      }
      var verdict := CheckHardFlat(rules, intent, state);
      if !verdict.Pass? { return Settle(verdict, intent, state); }
      verdict := CheckDll(intent, state);
      if !verdict.Pass? { return Settle(verdict, intent, state); }
      verdict := CheckMll(rules, intent, state);
      if !verdict.Pass? { return Settle(verdict, intent, state); }
      verdict := CheckMaxPosition(rules, intent, state);
      if !verdict.Pass? { return Settle(verdict, intent, state); }
      verdict := CheckNewsThrottle(rules, intent, state);
      if !verdict.Pass? { return Settle(verdict, intent, state); }
      verdict := CheckConsistency(rules, journal, state);
      if !verdict.Pass? { return Settle(verdict, intent, state); }
      var ratio := cancelTracker.RatioAt(state.timestamp.instant);
      verdict := CheckHftRatio(rules, ratio);
      if !verdict.Pass? { return Settle(verdict, intent, state); }
      decision := AugmentWithSafetyBuffer(rules, intent, state);
    }

    method OnTick(state: AccountState) returns (after: AccountState)
      modifies this
      ensures (State(), after) == Ticked(rules, old(State()), state)
    {
      after := rules.policy.UpdateOnTick(state);
      if after.equity <= rules.policy.PhantomMll(after) {
        ScheduleForceFlatten("MLL_EQUITY_TOUCH");
      }
    }

    method ScheduleForceFlatten(reason: string)
      modifies this
      ensures State() == Scheduled(old(State()), reason)
    {
      if flattening {
        return;
      }
      flattening := true;
      pendingFlattenReason := Some(reason);
    }

    /** `brokerOk` is whether the execution client's calls succeed; a failure propagates to
        the caller after the latches have been set. */
    method ForceFlattenNow(reason: Option<string>, brokerOk: bool) returns (raised: bool)
      modifies this
      ensures State() == Flattened(old(State()), reason)
      ensures raised <==> !brokerOk && State().cancelAlls > old(State()).cancelAlls
    {
      if reason.Some? {
        ScheduleForceFlatten(reason.value);
      }
      if pendingFlattenReason.None? {
        return false;
      }
      cancelAlls := cancelAlls + 1;
      raised := !brokerOk;
      pendingFlattenReason := None;
      strategyDisabled := true;
    }
  }

  // ---- Replay ---------------------------------------------------------------

  /** A request some gate once answered, with what that gate knew at the time. */
  datatype Asked = Asked(ratio: Ratio, journal: JournalView, intent: OrderIntent, state: AccountState)
  {
    function Answer(rules: Rules): Decision {
      Decide(rules, false, ratio, journal, intent, state)
    }
  }

  /** Decisions of one gate over a list of requests, without a journal. */
  function Replayed(rules: Rules, g: GateState, items: seq<(OrderIntent, AccountState)>): seq<Decision>
    decreases |items|
  {
    if items == [] then []
    else
      var (next, decision) := Ask(rules, g, NO_JOURNAL, items[0].0, items[0].1);
      [decision] + Replayed(rules, next, items[1..])
  }

  predicate AllApproved(rules: Rules, asked: seq<Asked>) {
    asked == [] || (asked[0].Answer(rules).Approved? && AllApproved(rules, asked[1..]))
  }

  /** The post-adjustment orders of a run of approvals, with the states they were judged at. */
  function Outputs(rules: Rules, asked: seq<Asked>): seq<(OrderIntent, AccountState)>
    requires AllApproved(rules, asked)
  {
    if asked == [] then []
    else [(asked[0].Answer(rules).intent, asked[0].state)] + Outputs(rules, asked[1..])
  }

  function Approvals(items: seq<(OrderIntent, AccountState)>): seq<Decision> {
    if items == [] then [] else [Approved(items[0].0, items[0].1)] + Approvals(items[1..])
  }

  /** Replaying any run of approvals through a fresh gate gives back every order unchanged,
      whatever journal and cancel history the original gates had. */
  lemma {:induction false} ReplayIsClean(rules: Rules, asked: seq<Asked>)
    requires rules.config.Valid() && AllApproved(rules, asked)
    ensures Replayed(rules, FRESH, Outputs(rules, asked)) == Approvals(Outputs(rules, asked))
    ensures Violations(Replayed(rules, FRESH, Outputs(rules, asked))) == []
    ensures !AnyRaised(Replayed(rules, FRESH, Outputs(rules, asked)))
    decreases |asked|
  {
    hide Ask, Decide;
    if asked != [] {
      var items := Outputs(rules, asked);
      ReplayStepIsClean(rules, asked[0]);
      assert items[1..] == Outputs(rules, asked[1..]);
      ReplayIsClean(rules, asked[1..]);
      assert Replayed(rules, FRESH, items) == [Approved(items[0].0, items[0].1)] + Replayed(rules, FRESH, items[1..]);
    }
  }

  lemma ReplayStepIsClean(rules: Rules, first: Asked)
    requires rules.config.Valid() && first.Answer(rules).Approved?
    ensures Ask(rules, FRESH, NO_JOURNAL, first.Answer(rules).intent, first.state)
         == (FRESH, Approved(first.Answer(rules).intent, first.state))
  {
    ApprovedIsStable(rules, first.ratio, first.journal, first.intent, first.state);
  }

  /** The denials among the decisions, in order. */
  function Violations(decisions: seq<Decision>): seq<Decision> {
    if decisions == [] then []
    else (if decisions[0].Denied? then [decisions[0]] else []) + Violations(decisions[1..])
  }

  predicate AnyRaised(decisions: seq<Decision>) {
    exists i :: 0 <= i < |decisions| && decisions[i].Raised?
  }

  lemma {:induction false} ViolationsConcat(a: seq<Decision>, b: seq<Decision>)
    ensures Violations(a + b) == Violations(a) + Violations(b)
    decreases |a|
  {
    if a == [] {
      assert a + b == b;
    } else {
      assert (a + b)[0] == a[0] && (a + b)[1..] == a[1..] + b;
      ViolationsConcat(a[1..], b);
      var first := if a[0].Denied? then [a[0]] else [];
      assert first + (Violations(a[1..]) + Violations(b)) == (first + Violations(a[1..])) + Violations(b);
    }
  }

  lemma OneViolation(decision: Decision)
    ensures Violations([decision]) == if decision.Denied? then [decision] else []
  {
    assert [decision][1..] == [];
  }

  /** The violations are the denials and nothing else; there are none exactly when nothing was
      denied. */
  lemma {:induction false} ViolationsAreDenials(decisions: seq<Decision>)
    ensures forall decision :: decision in Violations(decisions) <==> decision in decisions && decision.Denied?
    ensures Violations(decisions) == [] <==> forall decision :: decision in decisions ==> !decision.Denied?
    decreases |decisions|
  {
    if decisions != [] {
      ViolationsAreDenials(decisions[1..]);
      assert decisions == [decisions[0]] + decisions[1..];
      assert decisions[0].Denied? ==> decisions[0] in Violations(decisions);
      if Violations(decisions) == [] {
        assert Violations(decisions[1..]) == [];
      }
    }
  }

  datatype ReplayResult = Replay(total: nat, violations: seq<Decision>) | LookupRaised(error: LookupError)

  /** Builds a fresh gate and replays the items through it, collecting the denials. */
  method ReplayThroughFreshGate(rules: Rules, items: seq<(OrderIntent, AccountState)>) returns (result: ReplayResult)
    ensures var decisions := Replayed(rules, FRESH, items);
            && (result.LookupRaised? <==> AnyRaised(decisions))
            && (result.Replay? ==> result == Replay(|items|, Violations(decisions)))
  {
    hide Ask;
    var gate := new TopstepRiskGate(rules);
    var violations: seq<Decision> := [];
    var count := 0;
    ghost var made: seq<Decision> := [];
    while count < |items|
      invariant 0 <= count <= |items|
      invariant fresh(gate) && fresh(gate.cancelTracker) && gate.rules == rules && gate.cancelTracker.window == WINDOW
      invariant Replayed(rules, FRESH, items) == made + Replayed(rules, gate.State(), items[count..])
      invariant violations == Violations(made) && !AnyRaised(made)
    {
      var decision := gate.ApproveOrDeny(NO_JOURNAL, items[count].0, items[count].1);
      assert items[count..][1..] == items[count + 1..];
      made := made + [decision];
      assert Replayed(rules, FRESH, items) == made + Replayed(rules, gate.State(), items[count + 1..]);
      if decision.Raised? {
        assert Replayed(rules, FRESH, items)[|made| - 1].Raised?;
        return LookupRaised(decision.error);
      }
      ViolationsConcat(made[..|made| - 1], [decision]);
      count := count + 1;
      if decision.Denied? {
        violations := violations + [decision];
      }
    }
    assert made == Replayed(rules, FRESH, items);
    result := Replay(count, violations);
  }
}
