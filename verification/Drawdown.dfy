/** Trailing-drawdown policies: the Combine state machine and the EFA closed form. */
module Drawdown {
  import opened Types
  import opened Markets

  datatype Policy =
    | Combine(startBalance: real, mllAmount: real, maxMini: int)
    | Efa(mllAmount: real)
  {
    /** Combine accounts obey the 15:10 CT clock; EFA accounts do not. */
    predicate EnforcesHardFlat() {
      Combine?
    }

    function UpdateOnTick(state: AccountState): AccountState {
      match this
      case Combine(start, mll, _) =>
        var highWater := Max(state.highWater, state.equity);
        if !state.isLocked && highWater >= start + mll then
          state.(highWater := highWater, isLocked := true, lockPoint := Some(start))
        else
          state.(highWater := highWater)
      case Efa(_) => state
    }

    function UpdateOnEod(state: AccountState): AccountState {
      match this
      case Combine(_, _, _) => state
      case Efa(_) => state.(highWater := Max(state.highWater, state.equity))
    }

    /** The equity floor at or below which the account is dead. */
    function PhantomMll(state: AccountState): real {
      match this
      case Combine(_, mll, _) =>
        if state.isLocked && state.lockPoint.Some? then state.lockPoint.value
        else state.highWater - mll
      case Efa(mll) =>
        var profitHighWater := state.highWater - state.startBalance;
        var floorProfit := Max(0.0, profitHighWater) - mll;
        state.startBalance + Min(floorProfit, 0.0)
    }

    predicate IsLocked(state: AccountState) {
      match this
      case Combine(_, _, _) => state.isLocked
      case Efa(mll) => state.highWater - state.startBalance >= mll
    }

    /** Position cap in contracts; None is the source's ValueError. */
    function MaxPosition(symbol: string, state: AccountState): Option<int> {
      var market := GetMarket(symbol);
      if market.None? then None
      else Some(ContractCap(MaxMini(state), market.value))
    }

    function MaxMini(state: AccountState): int {
      match this
      case Combine(_, _, maxMini) => maxMini
      case Efa(_) =>
        var profit := state.equity - state.startBalance;
        if profit < 1500.0 then 2 else if profit < 2000.0 then 3 else 5
    }
  }

  /** One tick at the given equity. */
  function TickAt(policy: Policy, state: AccountState, equity: real): AccountState {
    policy.UpdateOnTick(state.(equity := equity))
  }

  /** The ledgers hand the policy a snapshot without the lock fields. */
  function DropLock(state: AccountState): AccountState {
    state.(isLocked := false, lockPoint := None)
  }

  /** Folding the policy over an equity trace, carrying the lock along. */
  function Carry(policy: Policy, state: AccountState, trace: seq<real>): AccountState
    decreases |trace|
  {
    if trace == [] then state
    else TickAt(policy, Carry(policy, state, trace[..|trace| - 1]), trace[|trace| - 1])
  }

  /** The same fold, forgetting the lock before every tick. */
  function Forget(policy: Policy, state: AccountState, trace: seq<real>): AccountState
    decreases |trace|
  {
    if trace == [] then state
    else TickAt(policy, DropLock(Forget(policy, state, trace[..|trace| - 1])), trace[|trace| - 1])
  }

  /** Highest equity seen, the opening high-water included. */
  function Peak(highWater: real, trace: seq<real>): (r: real)
    decreases |trace|
  {
    if trace == [] then highWater
    else Max(Peak(highWater, trace[..|trace| - 1]), trace[|trace| - 1])
  }

  /** The closed form of the Combine floor. */
  function CombineFloor(start: real, mll: real, highWater: real): real {
    Min(highWater - mll, start)
  }

  predicate FreshState(state: AccountState) {
    !state.isLocked && state.lockPoint.None?
  }

  /** The Combine machine after any non-empty trace: locked exactly when the peak has
      earned the loss limit back, and the floor is the closed form of the peak. */
  lemma {:induction false} CarryIsClosedForm(policy: Policy, state: AccountState, trace: seq<real>)
    requires policy.Combine? && FreshState(state) && trace != []
    ensures var s := Carry(policy, state, trace);
            && s.highWater == Peak(state.highWater, trace)
            && (s.isLocked <==> s.highWater >= policy.startBalance + policy.mllAmount)
            && policy.PhantomMll(s) == CombineFloor(policy.startBalance, policy.mllAmount, s.highWater)
            && s.lockPoint == (if s.isLocked then Some(policy.startBalance) else None)
    decreases |trace|
  {
    var before := trace[..|trace| - 1];
    if before == [] {
      assert Carry(policy, state, before) == state;
    } else {
      CarryIsClosedForm(policy, state, before);
    }
  }

  /** Snapshots drop the lock; re-ticking them restores the same account state. */
  lemma {:induction false} ForgettingTheLockIsHarmless(policy: Policy, state: AccountState, trace: seq<real>)
    requires policy.Combine? && FreshState(state)
    ensures Forget(policy, state, trace) == Carry(policy, state, trace)
    decreases |trace|
  {
    if trace != [] {
      var before := trace[..|trace| - 1];
      ForgettingTheLockIsHarmless(policy, state, before);
      if before == [] {
        assert Carry(policy, state, before) == state;
      } else {
        CarryIsClosedForm(policy, state, before);
      }
    }
  }

  /** More ticks never lower the floor, and it never rises above the start balance. */
  lemma {:induction false} FloorRatchets(policy: Policy, state: AccountState, early: seq<real>, late: seq<real>)
    requires policy.Combine? && FreshState(state) && early != []
    ensures policy.PhantomMll(Carry(policy, state, early)) <= policy.PhantomMll(Carry(policy, state, early + late))
    ensures policy.PhantomMll(Carry(policy, state, early + late)) <= policy.startBalance
    decreases |late|
  {
    CarryIsClosedForm(policy, state, early);
    CarryIsClosedForm(policy, state, early + late);
    PeakGrows(state.highWater, early, late);
  }

  lemma {:induction false} PeakGrows(highWater: real, early: seq<real>, late: seq<real>)
    ensures Peak(highWater, early) <= Peak(highWater, early + late)
    decreases |late|
  {
    if late == [] {
      assert early + late == early;
    } else {
      var all := early + late;
      assert all[..|all| - 1] == early + late[..|late| - 1];
      PeakGrows(highWater, early, late[..|late| - 1]);
    }
  }

  /** At the same high-water and start balance the two policies put the floor, and the
      lock, in the same place, as long as the account has not been seeded below start. */
  lemma CombineAndEfaFloorsAgree(combine: Policy, efa: Policy, state: AccountState, trace: seq<real>)
    requires combine.Combine? && efa.Efa? && combine.mllAmount == efa.mllAmount
    requires FreshState(state) && trace != []
    requires combine.startBalance == state.startBalance <= state.highWater
    ensures var s := Carry(combine, state, trace);
            && combine.PhantomMll(s) == efa.PhantomMll(s)
            && (combine.IsLocked(s) <==> efa.IsLocked(s))
  {
    var s := Carry(combine, state, trace);
    assert s.startBalance == combine.startBalance && s.highWater >= state.highWater
      && (s.isLocked <==> s.highWater >= combine.startBalance + combine.mllAmount)
      && combine.PhantomMll(s) == CombineFloor(combine.startBalance, combine.mllAmount, s.highWater) by {
      CarryIsClosedForm(combine, state, trace);
      CarryKeepsStart(combine, state, trace);
      PeakAtLeastStart(state.highWater, trace);
    }
    FloorsAgreeAt(combine, efa, s);
  }

  lemma FloorsAgreeAt(combine: Policy, efa: Policy, s: AccountState)
    requires combine.Combine? && efa.Efa? && combine.mllAmount == efa.mllAmount
    requires combine.startBalance == s.startBalance <= s.highWater
    ensures CombineFloor(combine.startBalance, combine.mllAmount, s.highWater) == efa.PhantomMll(s)
    ensures efa.IsLocked(s) <==> s.highWater >= combine.startBalance + combine.mllAmount
  {
  }

  lemma {:induction false} PeakAtLeastStart(highWater: real, trace: seq<real>)
    ensures highWater <= Peak(highWater, trace)
    decreases |trace|
  {
    if trace != [] {
      PeakAtLeastStart(highWater, trace[..|trace| - 1]);
    }
  }

  lemma {:induction false} CarryKeepsStart(policy: Policy, state: AccountState, trace: seq<real>)
    ensures Carry(policy, state, trace).startBalance == state.startBalance
    decreases |trace|
  {
    if trace != [] {
      CarryKeepsStart(policy, state, trace[..|trace| - 1]);
    }
  }

  /** Room between equity and the floor, once the tick at that equity has been taken,
      only grows with equity: the ratchet never eats a dollar of gain. */
  lemma RoomGrowsWithEquity(policy: Policy, state: AccountState, low: real, high: real)
    requires low <= high
    requires state.isLocked ==> state.lockPoint.Some?
    ensures var l, h := TickAt(policy, state, low), TickAt(policy, state, high);
            l.equity - policy.PhantomMll(l) <= h.equity - policy.PhantomMll(h)
  {
  }

  // ---- Trading days -----------------------------------------------------------

  /** A trading day: the equities of its ticks, and the equity it ends at. */
  datatype TradingDay = TradingDay(ticks: seq<real>, close: real)

  function AfterDay(policy: Policy, state: AccountState, day: TradingDay): AccountState {
    policy.UpdateOnEod(Carry(policy, state, day.ticks).(equity := day.close))
  }

  function AfterDays(policy: Policy, state: AccountState, days: seq<TradingDay>): AccountState
    decreases |days|
  {
    if days == [] then state
    else AfterDay(policy, AfterDays(policy, state, days[..|days| - 1]), days[|days| - 1])
  }

  function Closes(days: seq<TradingDay>): seq<real> {
    if days == [] then [] else Closes(days[..|days| - 1]) + [days[|days| - 1].close]
  }

  /** Intraday equity never moves an EFA account's high-water, so neither its floor. */
  lemma {:induction false} EfaIgnoresTicks(policy: Policy, state: AccountState, trace: seq<real>)
    requires policy.Efa?
    ensures var s := Carry(policy, state, trace);
            && s.highWater == state.highWater && s.startBalance == state.startBalance
            && policy.PhantomMll(s) == policy.PhantomMll(state)
    decreases |trace|
  {
    if trace != [] {
      EfaIgnoresTicks(policy, state, trace[..|trace| - 1]);
    }
  }

  /** Over any days of any ticks, an EFA account's high-water is the highest equity a day has
      ended at, its floor the closed form of that, and it counts as locked exactly when that
      has earned the loss limit back; the ticks in between leave no trace. */
  lemma {:induction false} EfaRatchetsAtDayEnds(policy: Policy, state: AccountState, days: seq<TradingDay>)
    requires policy.Efa?
    ensures var s := AfterDays(policy, state, days);
            && s.highWater == Peak(state.highWater, Closes(days))
            && s.startBalance == state.startBalance
            && policy.PhantomMll(s)
               == CombineFloor(s.startBalance, policy.mllAmount, Max(s.highWater, s.startBalance))
            && (policy.IsLocked(s) <==> s.highWater >= s.startBalance + policy.mllAmount)
    decreases |days|
  {
    if days != [] {
      var n := |days| - 1;
      var before := AfterDays(policy, state, days[..n]);
      EfaRatchetsAtDayEnds(policy, state, days[..n]);
      EfaIgnoresTicks(policy, before, days[n].ticks);
      var closes := Closes(days);
      assert closes[..|closes| - 1] == Closes(days[..n]);
    }
  }

  /** A Combine account keeps its high-water over the end of a day, whatever it ends at. */
  lemma CombineIgnoresDayEnds(policy: Policy, state: AccountState, day: TradingDay)
    requires policy.Combine? && FreshState(state) && day.ticks != []
    ensures AfterDay(policy, state, day).highWater == Peak(state.highWater, day.ticks)
    ensures policy.PhantomMll(AfterDay(policy, state, day))
         == CombineFloor(policy.startBalance, policy.mllAmount, Peak(state.highWater, day.ticks))
  {
    CarryIsClosedForm(policy, state, day.ticks);
  }
}
