/** What the live gate lets through against what the simulated broker accepts. */
module Admission {
  import opened Types
  import opened Markets
  import opened Drawdown
  import opened CancelTracker
  import opened GateRules
  import opened Ledger
  import opened Parity
  import opened SimAccount
  import Sim = SimEngine

  /** The gate runs the engine's own Combine policy on the engine's own account. */
  predicate Shared(rules: Rules, cfg: Sim.EngineConfig, account: SimAccount) {
    cfg.Valid() && rules.policy == cfg.combine && Sim.ActivePolicy(cfg, account) == cfg.combine
  }

  lemma SameExposure(account: SimAccount, intent: OrderIntent, now: Timestamp)
    ensures intent.IncreasesExposure(Sim.AsState(account, now).openPositions) <==> Sim.OpensExposure(account, intent)
    ensures Projected(intent, Sim.AsState(account, now)) == QtyOf(account, intent.symbol) + intent.SignedQty()
  {
  }

  /** While the two ledgers agree, and know alike whether the account is in a Combine, the gate
      is shown the very same state from either: so it decides alike on both. */
  lemma SnapshotsAgree(t: Account, s: SimAccount, at: Timestamp)
    requires Same(t, s)
    requires t.isCombine <==> s.stage == COMBINE_ACTIVE || s.stage == COMBINE_PASSED || s.stage == COMBINE_FAILED
    ensures Sim.AsState(s, at) == SnapshotOf(t, at)
  {
    hide TotalSimPnl, IsRoot;
    assert Sim.AsState(s, at).openPositions == t.positions by {
      forall k | k in t.positions
        ensures t.positions[k] == s.openPositions[k].qty
      {
        assert LegOf(t, k) == s.openPositions[k];
      }
    }
  }

  /** An order the gate approves on the simulated account, in a bare root, is filled there,
      with one exception: the engine's own clock, if it is set earlier than the gate's, may
      still reject an order that adds exposure. */
  lemma ApprovedIsFilledExactly(rules: Rules, ratio: Ratio, journal: JournalView, intent: OrderIntent,
                                cfg: Sim.EngineConfig, e: Sim.EngineState, mid: real, now: Timestamp)
    requires Shared(rules, cfg, e.account) && IsRoot(intent.symbol)
    requires Decide(rules, false, ratio, journal, intent, Sim.AsState(e.account, now)).Approved?
    ensures var order := Decide(rules, false, ratio, journal, intent, Sim.AsState(e.account, now)).intent;
            var outcome := Sim.Submitted(cfg, e, order, mid, now).1;
            && !outcome.RAISED?
            && (outcome.REJECTED? <==> Sim.AfterHardFlat(cfg, now) && Sim.OpensExposure(e.account, order))
            && (outcome.REJECTED? ==> cfg.hardFlatMinute <= now.ctMinute < PREEMPT_MINUTE)
            && (outcome.FILLED? ==> outcome.quantity == order.quantity)
  {
    var state := Sim.AsState(e.account, now);
    ApprovalPassedEveryRule(rules, ratio, journal, intent, state);
    SameExposure(e.account, intent, now);
    ApprovedSides(rules, ratio, journal, intent, state);
    hide Decide, GetMarket, IsRoot, SimFilled, SimMarked, FirstSix, RoomTicks;
    var order := Decide(rules, false, ratio, journal, intent, state).intent;
    SameExposure(e.account, order, now);
    assert rules.policy.MaxPosition(order.symbol, Sim.AsState(e.account, order.timestamp))
        == rules.policy.MaxPosition(intent.symbol, state);
  }

  lemma ApprovedSides(rules: Rules, ratio: Ratio, journal: JournalView, intent: OrderIntent, state: AccountState)
    requires Decide(rules, false, ratio, journal, intent, state).Approved?
    ensures var order := Decide(rules, false, ratio, journal, intent, state).intent;
            && order.symbol == intent.symbol && order.SignedQty() == intent.SignedQty()
            && order.timestamp == intent.timestamp && order.quantity == intent.quantity
  {
    hide FirstSix, RoomTicks;
  }

  /** So with the engine's clock no earlier than the gate's pre-emption (it is set to 15:10),
      nothing the gate approves is rejected. */
  lemma ApprovedIsNeverRejected(rules: Rules, ratio: Ratio, journal: JournalView, intent: OrderIntent,
                                cfg: Sim.EngineConfig, e: Sim.EngineState, mid: real, now: Timestamp)
    requires Shared(rules, cfg, e.account) && IsRoot(intent.symbol) && cfg.hardFlatMinute >= PREEMPT_MINUTE
    requires Decide(rules, false, ratio, journal, intent, Sim.AsState(e.account, now)).Approved?
    ensures var order := Decide(rules, false, ratio, journal, intent, Sim.AsState(e.account, now)).intent;
            Sim.Submitted(cfg, e, order, mid, now).1.FILLED?
  {
    hide Decide, Sim.Submitted, IsRoot, Shared;
    ApprovedIsFilledExactly(rules, ratio, journal, intent, cfg, e, mid, now);
  }

  /** Where the clocks differ: from 15:00 until the engine's own hard-flat minute the gate
      turns every added exposure away, and the engine still fills what its cap allows. */
  lemma ClocksDiffer(rules: Rules, ratio: Ratio, journal: JournalView, intent: OrderIntent,
                     cfg: Sim.EngineConfig, e: Sim.EngineState, mid: real, now: Timestamp)
    requires Shared(rules, cfg, e.account) && IsRoot(intent.symbol)
    requires PREEMPT_MINUTE <= now.ctMinute < cfg.hardFlatMinute && Sim.OpensExposure(e.account, intent)
    ensures var decision := Decide(rules, false, ratio, journal, intent, Sim.AsState(e.account, now));
            decision.Denied? && decision.rule in {Rule.HARD_FLAT_CLOCK, HARD_FLAT_PREEMPT}
    ensures var cap := cfg.combine.MaxPosition(intent.symbol, Sim.AsState(e.account, intent.timestamp));
            Sim.Submitted(cfg, e, intent, mid, now).1.FILLED?
            <==> cap.Some? && Abs(QtyOf(e.account, intent.symbol) + intent.SignedQty()) <= cap.value
  {
    hide GetMarket, IsRoot, SimFilled, SimMarked, RoomTicks;
    SameExposure(e.account, intent, now);
  }
}
