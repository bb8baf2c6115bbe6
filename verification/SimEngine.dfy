/** The simulated broker: order checks, immediate fills, and liquidation at the floor. */
module SimEngine {
  import opened Types
  import opened Markets
  import opened Drawdown
  import opened Ledger
  import opened Sums
  import opened SimAccount

  /** `hardFlatMinute` is a Central-time minute of the day; `efa` is absent for a
      Combine-only engine. */
  datatype EngineConfig = EngineConfig(combine: Policy, efa: Option<Policy>, slippageTicks: int, hardFlatMinute: nat)
  {
    predicate Valid() {
      combine.Combine? && (efa.Some? ==> efa.value.Efa?)
    }
  }

  datatype EngineState = EngineState(account: SimAccount, latestMid: map<string, real>, brokerIds: nat)

  datatype Reason = HARD_FLAT_CLOCK | MAX_POSITION

  datatype Outcome =
    | FILLED(brokerId: nat, quantity: int, price: real)
    | REJECTED(reason: Reason)
    | RAISED       // an unregistered symbol, or one that is not a bare root

  // ---- Specification --------------------------------------------------------

  function ActivePolicy(cfg: EngineConfig, account: SimAccount): Policy {
    if account.stage in {EFA_ACTIVE, EFA_PAYOUT, FUNDED} && cfg.efa.Some? then cfg.efa.value else cfg.combine
  }

  function AsState(account: SimAccount, at: Timestamp): AccountState {
    AccountState(
      account.equity, account.realized, account.unrealized,
      map s | s in account.openPositions :: account.openPositions[s].qty,
      account.highWater, account.stage in {COMBINE_ACTIVE, COMBINE_PASSED, COMBINE_FAILED}, at,
      false, None, account.startBalance)
  }

  predicate AfterHardFlat(cfg: EngineConfig, now: Timestamp) {
    now.ctMinute >= cfg.hardFlatMinute
  }

  predicate OpensExposure(account: SimAccount, intent: OrderIntent) {
    var current := QtyOf(account, intent.symbol);
    Abs(current + intent.SignedQty()) > Abs(current)
  }

  function Slipped(cfg: EngineConfig, intent: OrderIntent, mid: real): real
    requires IsRoot(intent.symbol)
  {
    var offset := cfg.slippageTicks as real * FindRoot(intent.symbol, MARKETS).value.tickSize;
    if intent.side == BUY then mid + offset else mid - offset
  }

  ghost function Submitted(cfg: EngineConfig, e: EngineState, intent: OrderIntent, mid: real, now: Timestamp)
    : (EngineState, Outcome)
  {
    var seen := e.(latestMid := e.latestMid[intent.symbol := mid]);
    if AfterHardFlat(cfg, now) && OpensExposure(e.account, intent) then (seen, REJECTED(HARD_FLAT_CLOCK))
    else
      var cap := ActivePolicy(cfg, e.account).MaxPosition(intent.symbol, AsState(e.account, intent.timestamp));
      if cap.None? then (seen, RAISED)
      else if Abs(QtyOf(e.account, intent.symbol) + intent.SignedQty()) > cap.value then (seen, REJECTED(MAX_POSITION))
      else if !IsRoot(intent.symbol) then (seen, RAISED)
      else
        var price := Slipped(cfg, intent, mid);
        var filled := SimFilled(e.account, intent.symbol, intent.SignedQty(), price);
        (seen.(account := SimMarked(filled, intent.symbol, mid), brokerIds := e.brokerIds + 1),
         Outcome.FILLED(e.brokerIds + 1, intent.quantity, price))
  }

  ghost function FlattenedAt(account: SimAccount, mid: real, symbol: string): SimAccount {
    var qty := QtyOf(account, symbol);
    if qty == 0 then account
    else SimMarked(SimFilled(account, symbol, -qty, mid), symbol, mid)
  }

  function MarkFailed(account: SimAccount): SimAccount {
    if account.stage == COMBINE_ACTIVE then AdvanceStage(account, COMBINE_FAILED).value
    else if account.stage == EFA_ACTIVE then AdvanceStage(account, EFA_FAILED).value
    else account
  }

  /** Equity at or below the floor the active policy shows once the tick has been taken. */
  predicate AtFloor(cfg: EngineConfig, account: SimAccount, now: Timestamp) {
    var policy := ActivePolicy(cfg, account);
    var state := policy.UpdateOnTick(AsState(account, now));
    state.equity <= policy.PhantomMll(state)
  }

  ghost function TickedTo(cfg: EngineConfig, e: EngineState, mid: real, symbol: string, now: Timestamp): EngineState {
    var marked := SimMarked(e.account, symbol, mid);
    var after := if AtFloor(cfg, marked, now) then MarkFailed(FlattenedAt(marked, mid, symbol)) else marked;
    EngineState(after, e.latestMid[symbol := mid], e.brokerIds)
  }

  ghost function EodAt(cfg: EngineConfig, e: EngineState, mid: real, symbol: string, now: Timestamp): EngineState {
    var flat := if AfterHardFlat(cfg, now) && QtyOf(e.account, symbol) != 0
                then FlattenedAt(e.account, mid, symbol) else e.account;
    var after := if cfg.efa.None? then flat
                 else flat.(highWater := cfg.efa.value.UpdateOnEod(AsState(flat, now)).highWater);
    e.(account := after)
  }

  // ---- Whole runs -----------------------------------------------------------

  datatype Op =
    | Submit(intent: OrderIntent, mid: real)
    | Tick(mid: real, symbol: string)
    | Eod(mid: real, symbol: string)

  ghost function Apply(cfg: EngineConfig, e: EngineState, op: Op, now: Timestamp): EngineState {
    match op
    case Submit(intent, mid) => Submitted(cfg, e, intent, mid, now).0
    case Tick(mid, symbol) => TickedTo(cfg, e, mid, symbol, now)
    case Eod(mid, symbol) => EodAt(cfg, e, mid, symbol, now)
  }

  ghost function RunOps(cfg: EngineConfig, e: EngineState, ops: seq<(Op, Timestamp)>): EngineState
    decreases |ops|
  {
    if ops == [] then e else RunOps(cfg, Apply(cfg, e, ops[0].0, ops[0].1), ops[1..])
  }

  /** The most minis an account in this stage can be left holding: the Combine cap under the
      Combine policy, five under the EFA one. A failed EFA is back under the Combine policy
      with what the EFA policy let it hold. */
  function MostMinis(cfg: EngineConfig, stage: Stage): int
    requires cfg.Valid()
  {
    if cfg.efa.None? || stage in {COMBINE_ACTIVE, COMBINE_PASSED, COMBINE_FAILED} then cfg.combine.maxMini
    else if stage == EFA_FAILED && cfg.combine.maxMini > 5 then cfg.combine.maxMini
    else 5
  }

  ghost predicate WithinCaps(cfg: EngineConfig, account: SimAccount)
    requires cfg.Valid()
  {
    forall s :: s in account.openPositions ==>
      IsRoot(s) && Registered(s)
          && Abs(account.openPositions[s].qty) <= ContractCap(MostMinis(cfg, account.stage), GetMarket(s).value)
  }

  ghost predicate Sound(cfg: EngineConfig, account: SimAccount)
    requires cfg.Valid()
  {
    Balanced(account) && WithinCaps(cfg, account)
  }

  /** The only stages the engine itself moves between: an active account may fail, and
      nothing moves again after that. */
  predicate StageFollows(before: Stage, after: Stage) {
    || after == before
    || (before == COMBINE_ACTIVE && after == COMBINE_FAILED)
    || (before == EFA_ACTIVE && after == EFA_FAILED)
  }

  /** What an operation, and so a run, keeps. */
  ghost predicate Follows(cfg: EngineConfig, before: SimAccount, after: SimAccount)
    requires cfg.Valid()
  {
    && Sound(cfg, after)
    && after.highWater >= before.highWater
    && after.startBalance == before.startBalance
    && StageFollows(before.stage, after.stage)
  }

  /** In every run of submissions, ticks and end-of-day passes, in whatever stage the account
      is: the books balance, every position fits the stage's cap, the high-water never falls,
      the only stage moves are an active account's failures, and a failed account stays
      failed. */
  lemma {:induction false} RunIsSound(cfg: EngineConfig, e: EngineState, ops: seq<(Op, Timestamp)>)
    requires cfg.Valid() && Sound(cfg, e.account)
    ensures Follows(cfg, e.account, RunOps(cfg, e, ops).account)
    decreases |ops|
  {
    hide Apply, Sound;
    if ops != [] {
      ApplyIsSound(cfg, e, ops[0].0, ops[0].1);
      RunIsSound(cfg, Apply(cfg, e, ops[0].0, ops[0].1), ops[1..]);
    }
  }

  lemma FreshIsSound(cfg: EngineConfig, start: real, stage: Stage)
    requires cfg.Valid()
    ensures Sound(cfg, NewAccount(start, stage))
  {
    NewIsBalanced(start, stage);
  }

  lemma ApplyIsSound(cfg: EngineConfig, e: EngineState, op: Op, now: Timestamp)
    requires cfg.Valid() && Sound(cfg, e.account)
    ensures Follows(cfg, e.account, Apply(cfg, e, op, now).account)
  {
    hide SimFilled, SimMarked, Sound, FlattenedAt, AtFloor, Slipped, MarkFailed;
    match op
    case Submit(intent, mid) =>
      SubmitIsSound(cfg, e, intent, mid, now);
    case Tick(mid, symbol) =>
      MarkIsSound(cfg, e.account, mid, symbol);
      FlattenIsSound(cfg, SimMarked(e.account, symbol, mid), mid, symbol);
      FailingMovesStageAlone(cfg, FlattenedAt(SimMarked(e.account, symbol, mid), mid, symbol));
    case Eod(mid, symbol) =>
      FlattenIsSound(cfg, e.account, mid, symbol);
      EodKeepsHighWater(cfg, e, mid, symbol, now);
  }

  lemma MarkIsSound(cfg: EngineConfig, account: SimAccount, mid: real, symbol: string)
    requires cfg.Valid() && Sound(cfg, account)
    ensures var end := SimMarked(account, symbol, mid);
            Follows(cfg, account, end) && end.stage == account.stage && end.openPositions == account.openPositions
  {
    hide TotalSimPnl, Balanced;
    MarkBalances(account, symbol, mid);
  }

  lemma FillIsSound(cfg: EngineConfig, account: SimAccount, symbol: string, signedQty: int, price: real)
    requires cfg.Valid() && Sound(cfg, account) && IsRoot(symbol) && Registered(symbol)
    requires Abs(QtyOf(account, symbol) + signedQty)
             <= ContractCap(MostMinis(cfg, account.stage), GetMarket(symbol).value)
    ensures var end := SimFilled(account, symbol, signedQty, price);
            && Follows(cfg, account, end) && end.stage == account.stage
            && QtyOf(end, symbol) == QtyOf(account, symbol) + signedQty
            && forall s :: s != symbol ==> QtyOf(end, s) == QtyOf(account, s)
  {
    hide TotalSimPnl, Balanced, Average, SimRealized, IsRoot, GetMarket, ContractCap, MostMinis;
    FillBalances(account, symbol, signedQty, price);
  }

  lemma FlattenIsSound(cfg: EngineConfig, account: SimAccount, mid: real, symbol: string)
    requires cfg.Valid() && Sound(cfg, account)
    ensures var end := FlattenedAt(account, mid, symbol);
            && Follows(cfg, account, end) && end.stage == account.stage
            && QtyOf(end, symbol) == 0
            && forall s :: s != symbol ==> QtyOf(end, s) == QtyOf(account, s)
  {
    hide SimFilled, SimMarked, Balanced, TickRatio, IsRoot, GetMarket, MostMinis;
    var qty := QtyOf(account, symbol);
    if qty != 0 {
      FillIsSound(cfg, account, symbol, -qty, mid);
      MarkIsSound(cfg, SimFilled(account, symbol, -qty, mid), mid, symbol);
    }
  }

  lemma SubmitIsSound(cfg: EngineConfig, e: EngineState, intent: OrderIntent, mid: real, now: Timestamp)
    requires cfg.Valid() && Sound(cfg, e.account)
    ensures var end := Submitted(cfg, e, intent, mid, now).0.account;
            Follows(cfg, e.account, end) && end.stage == e.account.stage
  {
    hide SimFilled, SimMarked, Balanced, WithinCaps, GetMarket, IsRoot, Slipped, ContractCap;
    var (after, outcome) := Submitted(cfg, e, intent, mid, now);
    if outcome.FILLED? {
      var price := Slipped(cfg, intent, mid);
      CapIsWithinMost(cfg, e.account, intent);
      FillIsSound(cfg, e.account, intent.symbol, intent.SignedQty(), price);
      MarkIsSound(cfg, SimFilled(e.account, intent.symbol, intent.SignedQty(), price), mid, intent.symbol);
    }
  }

  lemma CapIsWithinMost(cfg: EngineConfig, account: SimAccount, intent: OrderIntent)
    requires cfg.Valid() && Registered(intent.symbol)
    ensures var cap := ActivePolicy(cfg, account).MaxPosition(intent.symbol, AsState(account, intent.timestamp));
            cap.Some? && cap.value <= ContractCap(MostMinis(cfg, account.stage), GetMarket(intent.symbol).value)
  {
    hide GetMarket;
  }

  /** Failing is a stage move of an active account, and moves no money. */
  lemma FailingMovesStageAlone(cfg: EngineConfig, account: SimAccount)
    requires cfg.Valid() && Sound(cfg, account)
    ensures var end := MarkFailed(account);
            && Follows(cfg, account, end) && end == account.(stage := end.stage)
            && (account.stage == COMBINE_ACTIVE <==> end.stage == COMBINE_FAILED != account.stage)
            && (account.stage == EFA_ACTIVE <==> end.stage == EFA_FAILED != account.stage)
  {
    hide TotalSimPnl, GetMarket, IsRoot;
  }

  lemma EodKeepsHighWater(cfg: EngineConfig, e: EngineState, mid: real, symbol: string, now: Timestamp)
    requires cfg.Valid() && Sound(cfg, e.account) && Sound(cfg, FlattenedAt(e.account, mid, symbol))
    ensures EodAt(cfg, e, mid, symbol, now).account
         == (if AfterHardFlat(cfg, now) then FlattenedAt(e.account, mid, symbol) else e.account)
  {
    hide SimFilled, SimMarked, WithinCaps, TotalSimPnl;
  }

  // ---- What each call comes to ------------------------------------------------

  /** The floor an account is judged by, in closed form: the Combine's own start and loss
      limit, or, once in an EFA with an EFA policy, the account's start, from which an EFA
      counts and below which it does not. */
  function JudgingFloor(cfg: EngineConfig, account: SimAccount): real
    requires cfg.Valid()
  {
    if cfg.efa.Some? && account.stage in {EFA_ACTIVE, EFA_PAYOUT, FUNDED} then
      CombineFloor(account.startBalance, cfg.efa.value.mllAmount, Max(account.highWater, account.startBalance))
    else CombineFloor(cfg.combine.startBalance, cfg.combine.mllAmount, account.highWater)
  }

  /** What one tick does, in every stage. Above the closed-form floor it is just the mark; at
      or below it the ticked symbol ends flat, the other symbols are left alone, an active
      account ends failed and any other keeps its stage. Either way liquidation leaves equity
      where the mark put it. */
  lemma {:induction false} TickOutcome(cfg: EngineConfig, e: EngineState, mid: real, symbol: string, now: Timestamp)
    requires cfg.Valid() && Sound(cfg, e.account)
    ensures var end := TickedTo(cfg, e, mid, symbol, now).account;
            var marked := SimMarked(e.account, symbol, mid);
            var floor := JudgingFloor(cfg, marked);
            && TickedTo(cfg, e, mid, symbol, now)
               == EngineState(end, e.latestMid[symbol := mid], e.brokerIds)
            && end.equity == marked.equity && end.highWater == marked.highWater
            && (marked.equity > floor ==> end == marked)
            && (marked.equity <= floor ==>
                  QtyOf(end, symbol) == 0 && forall s :: s != symbol ==> QtyOf(end, s) == QtyOf(e.account, s))
            && (e.account.stage == COMBINE_ACTIVE ==> (end.stage == COMBINE_FAILED <==> marked.equity <= floor))
            && (e.account.stage == EFA_ACTIVE ==> (end.stage == EFA_FAILED <==> marked.equity <= floor))
            && (e.account.stage !in {COMBINE_ACTIVE, EFA_ACTIVE} ==> end.stage == e.account.stage)
  {
    hide SimFilled, SimMarked, Balanced, WithinCaps, FlattenedAt, AtFloor, MarkFailed, JudgingFloor;
    var marked := SimMarked(e.account, symbol, mid);
    MarkIsSound(cfg, e.account, mid, symbol);
    FlattenIsSound(cfg, marked, mid, symbol);
    MarkedAt(e.account, symbol, mid);
    FlattenKeepsEquity(marked, mid, symbol);
    FailingMovesStageAlone(cfg, FlattenedAt(marked, mid, symbol));
    FloorIsClosedForm(cfg, marked, now);
    var end := TickedTo(cfg, e, mid, symbol, now).account;
    if marked.equity <= JudgingFloor(cfg, marked) {
      forall s | s != symbol
        ensures QtyOf(end, s) == QtyOf(e.account, s)
      {
        assert QtyOf(FlattenedAt(marked, mid, symbol), s) == QtyOf(marked, s);
      }
    }
  }

  /** What the end-of-day pass does: nothing before the hard-flat minute; from then on the named
      symbol is closed at the given price, its open P&L at that price is realized, and the
      other symbols and the stage are left alone. */
  lemma EodOutcome(cfg: EngineConfig, e: EngineState, mid: real, symbol: string, now: Timestamp)
    requires cfg.Valid() && Sound(cfg, e.account)
    ensures var end := EodAt(cfg, e, mid, symbol, now);
            && end.latestMid == e.latestMid && end.brokerIds == e.brokerIds
            && end.account.stage == e.account.stage
            && (now.ctMinute < cfg.hardFlatMinute || QtyOf(e.account, symbol) == 0 ==> end == e)
            && (now.ctMinute >= cfg.hardFlatMinute && QtyOf(e.account, symbol) != 0 ==>
                  && QtyOf(end.account, symbol) == 0
                  && (forall s :: s != symbol ==> QtyOf(end.account, s) == QtyOf(e.account, s))
                  && end.account.realized
                     == e.account.realized + SimLegPnl(e.account.openPositions[symbol], mid, symbol))
  {
    hide TotalSimPnl, WithinCaps, TickRatio, SimBook;
    FlattenIsSound(cfg, e.account, mid, symbol);
    EodKeepsHighWater(cfg, e, mid, symbol, now);
    var qty := QtyOf(e.account, symbol);
    if qty != 0 {
      assert ClosedQty(qty, -qty) == qty;
    }
  }

  /** With an EFA policy the pass leaves no account, however it was seeded, with a high-water
      under its equity; without one it leaves the high-water alone. */
  lemma EodRatchets(cfg: EngineConfig, e: EngineState, mid: real, symbol: string, now: Timestamp)
    requires cfg.Valid()
    ensures var closes := now.ctMinute >= cfg.hardFlatMinute && QtyOf(e.account, symbol) != 0;
            var flat := if closes then FlattenedAt(e.account, mid, symbol) else e.account;
            EodAt(cfg, e, mid, symbol, now).account
            == flat.(highWater := if cfg.efa.Some? then Max(flat.highWater, flat.equity) else flat.highWater)
  {
    hide FlattenedAt;
  }

  /** Minis the account may hold right now: in an EFA the number its profit has earned. */
  function MinisNow(cfg: EngineConfig, account: SimAccount): int
    requires cfg.Valid()
  {
    if cfg.efa.None? || account.stage !in {EFA_ACTIVE, EFA_PAYOUT, FUNDED} then cfg.combine.maxMini
    else if account.equity < account.startBalance + 1500.0 then 2
    else if account.equity < account.startBalance + 2000.0 then 3
    else 5
  }

  /** Dollars the configured slippage takes off a fill of this many contracts. */
  function SlippageCost(cfg: EngineConfig, symbol: string, contracts: int): real {
    cfg.slippageTicks as real * TickDollars(symbol) * contracts as real
  }

  /** What a submission comes to. The clock turns added exposure away, then the cap turns away
      what it does not cover, and nothing of the account moves. Otherwise the order fills
      whole, a buy the configured ticks above mid and a sell as far below, and its symbol
      moves by its quantity, alone. */
  lemma SubmitOutcome(cfg: EngineConfig, e: EngineState, intent: OrderIntent, mid: real, now: Timestamp)
    requires cfg.Valid() && Sound(cfg, e.account) && IsRoot(intent.symbol)
    ensures var (after, outcome) := Submitted(cfg, e, intent, mid, now);
            var held := QtyOf(e.account, intent.symbol);
            var left := held + (if intent.side == BUY then intent.quantity else -intent.quantity);
            var late := now.ctMinute >= cfg.hardFlatMinute && Abs(left) > Abs(held);
            var fits := Abs(left) <= MinisNow(cfg, e.account) * PerMini(intent.symbol);
            var slip := cfg.slippageTicks as real * TickPoints(intent.symbol);
            && after.latestMid == e.latestMid[intent.symbol := mid]
            && (late ==> outcome == REJECTED(HARD_FLAT_CLOCK))
            && (!late && !fits ==> outcome == REJECTED(MAX_POSITION))
            && (outcome.REJECTED? ==> after.account == e.account && after.brokerIds == e.brokerIds)
            && (!late && fits ==>
                  && outcome == Outcome.FILLED(e.brokerIds + 1, intent.quantity,
                                               if intent.side == BUY then mid + slip else mid - slip)
                  && after.brokerIds == e.brokerIds + 1
                  && QtyOf(after.account, intent.symbol) == left
                  && forall s :: s != intent.symbol ==> QtyOf(after.account, s) == QtyOf(e.account, s))
  {
    hide SimFilled, SimMarked, Balanced, IsRoot, GetMarket, FindRoot, TickPoints, PerMini;
    RootInNumbers(intent.symbol);
    CapInNumbers(cfg, e.account, intent);
    CapIsWithinMost(cfg, e.account, intent);
    var (after, outcome) := Submitted(cfg, e, intent, mid, now);
    if outcome.FILLED? {
      var price := Slipped(cfg, intent, mid);
      FillIsSound(cfg, e.account, intent.symbol, intent.SignedQty(), price);
      MarkIsSound(cfg, SimFilled(e.account, intent.symbol, intent.SignedQty(), price), mid, intent.symbol);
    }
  }

  /** A symbol that is not a bare root is never filled: it is rejected by the clock, or by the
      cap if some market's root begins it, and otherwise the submission raises, with the account
      as it was. */
  lemma OnlyRootsFill(cfg: EngineConfig, e: EngineState, intent: OrderIntent, mid: real, now: Timestamp)
    requires cfg.Valid() && !IsRoot(intent.symbol)
    ensures var (after, outcome) := Submitted(cfg, e, intent, mid, now);
            var held := QtyOf(e.account, intent.symbol);
            var left := held + intent.SignedQty();
            var late := now.ctMinute >= cfg.hardFlatMinute && Abs(left) > Abs(held);
            && after == e.(latestMid := e.latestMid[intent.symbol := mid])
            && (outcome == REJECTED(HARD_FLAT_CLOCK) <==> late)
            && (outcome == REJECTED(MAX_POSITION) <==>
                  !late && Registered(intent.symbol)
                  && Abs(left) > MinisNow(cfg, e.account) * PerMini(intent.symbol))
            && (outcome.RAISED? || outcome.REJECTED?)
  {
    hide IsRoot, GetMarket, PerMini;
    if Registered(intent.symbol) {
      CapInNumbers(cfg, e.account, intent);
    }
  }

  lemma RootInNumbers(symbol: string)
    requires IsRoot(symbol)
    ensures Registered(symbol) && FindRoot(symbol, MARKETS).value.tickSize == TickPoints(symbol)
    ensures TickRatio(symbol) * TickPoints(symbol) == TickDollars(symbol)
  {
    RootIsItsOwnPrefix(symbol);
    RegistryInNumbers(symbol);
    ValuesArePositive(symbol);
  }

  lemma CapInNumbers(cfg: EngineConfig, account: SimAccount, intent: OrderIntent)
    requires cfg.Valid() && Registered(intent.symbol)
    ensures ActivePolicy(cfg, account).MaxPosition(intent.symbol, AsState(account, intent.timestamp))
         == Some(MinisNow(cfg, account) * PerMini(intent.symbol))
  {
    RegistryInNumbers(intent.symbol);
    hide GetMarket, ContractCap, PerMini;
  }

  /** A fill away from mid, re-marked at mid, costs its distance: for every fill but a partial
      reduction, which the source books at the old average without realizing anything. */
  lemma {:induction false} FillCostsItsDistance(account: SimAccount, symbol: string, signedQty: int, price: real,
                                                mid: real)
    requires Balanced(account) && !PartialReduction(QtyOf(account, symbol), signedQty)
    requires symbol in account.openPositions ==> QtyOf(account, symbol) != 0
    ensures SimMarked(SimFilled(account, symbol, signedQty, price), symbol, mid).equity
         == SimMarked(account, symbol, mid).equity - (price - mid) * signedQty as real * TickRatio(symbol)
  {
    hide TickRatio, SumReal, AfterSimFill, SimRealizes, SimLegPnl, PartialReduction;
    var filled := SimFilled(account, symbol, signedQty, price);
    var marks := account.lastMark[symbol := mid];
    var before, after := SimPnls(account.openPositions, marks), SimPnls(filled.openPositions, marks);
    ChangeReal(account.openPositions.Keys, before, filled.openPositions.Keys, after, symbol);
    if symbol in account.openPositions {
      LegCostsItsDistance(account.openPositions[symbol], symbol, signedQty, price, mid);
    } else {
      NewLegCostsItsDistance(symbol, signedQty, price, mid);
    }
  }

  /** So a filled submission costs exactly its slippage in dollars, whichever side it is on. */
  lemma SubmitCostsItsSlippage(cfg: EngineConfig, e: EngineState, intent: OrderIntent, mid: real, now: Timestamp)
    requires cfg.Valid() && Sound(cfg, e.account) && IsRoot(intent.symbol)
    requires Submitted(cfg, e, intent, mid, now).1.FILLED?
    requires !PartialReduction(QtyOf(e.account, intent.symbol), intent.SignedQty())
    requires intent.symbol in e.account.openPositions ==> QtyOf(e.account, intent.symbol) != 0
    ensures var marked := SimMarked(e.account, intent.symbol, mid);
            Submitted(cfg, e, intent, mid, now).0.account.equity
            == marked.equity - SlippageCost(cfg, intent.symbol, intent.quantity)
  {
    hide SimFilled, SimMarked, Balanced, WithinCaps, IsRoot, GetMarket, FindRoot, TickPoints, TickDollars, TickRatio;
    RootInNumbers(intent.symbol);
    var price := Slipped(cfg, intent, mid);
    FillCostsItsDistance(e.account, intent.symbol, intent.SignedQty(), price, mid);
    var slip, q, ratio := cfg.slippageTicks as real, intent.quantity as real, TickRatio(intent.symbol);
    var points := TickPoints(intent.symbol);
    assert (price - mid) * intent.SignedQty() as real == slip * points * q;
    SlippageInDollars(slip, points, q, ratio);
  }

  lemma SlippageInDollars(slip: real, points: real, q: real, ratio: real)
    ensures slip * points * q * ratio == slip * (ratio * points) * q
  {
  }

  lemma NewLegCostsItsDistance(symbol: string, signedQty: int, price: real, mid: real)
    ensures SimLegPnl(Leg(signedQty, price), mid, symbol) == -((price - mid) * signedQty as real * TickRatio(symbol))
  {
  }

  lemma LegCostsItsDistance(leg: Leg, symbol: string, signedQty: int, price: real, mid: real)
    requires leg.qty != 0 && !PartialReduction(leg.qty, signedQty)
    ensures var next := AfterSimFill(leg, signedQty, price);
            SimRealizes(leg, signedQty, price) * TickRatio(symbol) + SimLegPnl(next, mid, symbol)
            == SimLegPnl(leg, mid, symbol) - (price - mid) * signedQty as real * TickRatio(symbol)
    ensures AfterSimFill(leg, signedQty, price).qty == 0 ==>
              SimLegPnl(AfterSimFill(leg, signedQty, price), mid, symbol) == 0.0
  {
    hide TickRatio, AfterSimFill, SimRealizes, PartialReduction;
    var next := AfterSimFill(leg, signedQty, price);
    PointsCostTheirDistance(leg, signedQty, price, mid);
    PointsInDollars(SimRealizes(leg, signedQty, price), (mid - next.avg) * next.qty as real,
                    (mid - leg.avg) * leg.qty as real, (price - mid) * signedQty as real, TickRatio(symbol));
  }

  lemma PointsInDollars(realized: real, next: real, leg: real, cost: real, ratio: real)
    requires realized + next == leg - cost
    ensures realized * ratio + next * ratio == leg * ratio - cost * ratio
  {
  }

  lemma PointsCostTheirDistance(leg: Leg, signedQty: int, price: real, mid: real)
    requires leg.qty != 0 && !PartialReduction(leg.qty, signedQty)
    ensures var next := AfterSimFill(leg, signedQty, price);
            SimRealizes(leg, signedQty, price) + (mid - next.avg) * next.qty as real
            == (mid - leg.avg) * leg.qty as real - (price - mid) * signedQty as real
  {
    var next := leg.qty + signedQty;
    assert next as real == leg.qty as real + signedQty as real;
    if next == 0 || Opposed(leg.qty, next) {
      assert ClosedQty(leg.qty, signedQty) == leg.qty;
      hide ClosedQty, Average;
      FlippedValue(leg.avg, price, mid, leg.qty as real, signedQty as real);
    } else if GrowsSameSide(leg.qty, next) {
      var mean := Average(leg, signedQty, price);
      AverageOfBoth(leg, signedQty, price);
      hide Average;
      AveragedValue(mean, leg.avg, price, mid, leg.qty as real, signedQty as real);
    } else {
      assert signedQty == 0;
    }
  }

  lemma FlippedValue(avg: real, price: real, mid: real, held: real, more: real)
    ensures (price - avg) * held + (mid - price) * (held + more) == (mid - avg) * held - (price - mid) * more
  {
  }

  /** Growing a position on its own side, signs and all. */
  lemma AverageOfBoth(leg: Leg, signedQty: int, price: real)
    requires GrowsSameSide(leg.qty, leg.qty + signedQty)
    ensures Average(leg, signedQty, price) * (leg.qty as real + signedQty as real)
         == leg.avg * leg.qty as real + price * signedQty as real
  {
    var next := leg.qty + signedQty;
    var total := leg.avg * Abs(leg.qty) as real + price * Abs(signedQty) as real;
    var mean := Average(leg, signedQty, price);
    assert mean * Abs(next) as real == total;
    hide Average;
    if next < 0 {
      MirroredSum(mean, leg.avg, price, leg.qty as real, signedQty as real);
    }
  }

  lemma MirroredSum(mean: real, avg: real, price: real, held: real, more: real)
    requires mean * -(held + more) == avg * -held + price * -more
    ensures mean * (held + more) == avg * held + price * more
  {
  }

  lemma AveragedValue(mean: real, avg: real, price: real, mid: real, held: real, more: real)
    requires mean * (held + more) == avg * held + price * more
    ensures (mid - mean) * (held + more) == (mid - avg) * held - (price - mid) * more
  {
  }

  lemma MarkedAt(account: SimAccount, symbol: string, mid: real)
    requires Balanced(account)
    ensures var marked := SimMarked(account, symbol, mid);
            Balanced(marked) && symbol in marked.lastMark && marked.lastMark[symbol] == mid
  {
    hide TotalSimPnl;
  }

  lemma FlattenKeepsEquity(account: SimAccount, mid: real, symbol: string)
    requires Balanced(account) && symbol in account.lastMark && account.lastMark[symbol] == mid
    ensures var end := FlattenedAt(account, mid, symbol);
            end.equity == account.equity && end.highWater == account.highWater
  {
    hide TotalSimPnl, TickRatio, SimBook, SimRealized;
    var qty := QtyOf(account, symbol);
    if qty != 0 {
      LiquidationKeepsEquity(account, symbol, mid);
      var closed := SimFilled(account, symbol, -qty, mid);
      FillBalances(account, symbol, -qty, mid);
      assert closed.lastMark[symbol := mid] == closed.lastMark;
    }
  }

  lemma FloorIsClosedForm(cfg: EngineConfig, account: SimAccount, now: Timestamp)
    requires cfg.Valid() && Balanced(account)
    ensures AtFloor(cfg, account, now) <==> account.equity <= JudgingFloor(cfg, account)
  {
    hide TotalSimPnl;
  }

  // ---- The class ------------------------------------------------------------

  class TopstepSimEngine {
    const cfg: EngineConfig
    var account: SimAccount
    var latestMid: map<string, real>
    var brokerIds: nat

    function State(): EngineState
      reads this
    {
      EngineState(account, latestMid, brokerIds)
    }

    /** Only bare-root symbols are ever held, so every point value is found. */
    ghost predicate Valid()
      reads this
    {
      forall s :: s in account.openPositions ==> IsRoot(s)
    }

    constructor (cfg: EngineConfig, account: SimAccount)
      requires forall s :: s in account.openPositions ==> IsRoot(s)
      ensures Valid() && this.cfg == cfg && State() == EngineState(account, map[], 0)
    {
      this.cfg, this.account := cfg, account;
      latestMid, brokerIds := map[], 0;
    }

    method SubmitOrder(intent: OrderIntent, mid: real, now: Timestamp) returns (outcome: Outcome)
      requires Valid()
      modifies this
      ensures Valid() && (State(), outcome) == Submitted(cfg, old(State()), intent, mid, now)
    {
      hide TotalSimPnl, SimRealized, IsRoot, FindRoot, GetMarket;
      latestMid := latestMid[intent.symbol := mid];
      if AfterHardFlat(cfg, now) && OpensExposure(account, intent) {
        return REJECTED(HARD_FLAT_CLOCK);
      }
      var cap := ActivePolicy(cfg, account).MaxPosition(intent.symbol, AsState(account, intent.timestamp));
      if cap.None? {
        return RAISED;
      }
      if Abs(QtyOf(account, intent.symbol) + intent.SignedQty()) > cap.value {
        return REJECTED(MAX_POSITION);
      }
      if !IsRoot(intent.symbol) {
        return RAISED;
      }
      var fillPrice := Slipped(cfg, intent, mid);
      var filled := ApplyFill(account, intent.symbol, intent.SignedQty(), fillPrice);
      var marked := MarkToMarket(filled.value, mid, intent.symbol);
      account := marked.value;
      brokerIds := brokerIds + 1;
      outcome := Outcome.FILLED(brokerIds, intent.quantity, fillPrice);
    }

    method Tick(mid: real, symbol: string, now: Timestamp) returns (after: SimAccount)
      requires Valid()
      modifies this
      ensures Valid() && State() == TickedTo(cfg, old(State()), mid, symbol, now) && after == account
    {
      hide TotalSimPnl, SimFilled, IsRoot, AtFloor;
      latestMid := latestMid[symbol := mid];
      var marked := MarkToMarket(account, mid, symbol);
      account := marked.value;
      var policy := ActivePolicy(cfg, account);
      var state := policy.UpdateOnTick(AsState(account, now));
      assert AtFloor(cfg, account, now)
             == (state.equity <= policy.PhantomMll(state)) by { AtFloorMeans(cfg, account, now); }
      if state.equity <= policy.PhantomMll(state) {
        FlattenAt(mid, symbol);
        account := MarkFailed(account);
      }
      after := account;
    }

    method Eod(mid: real, symbol: string, now: Timestamp) returns (after: SimAccount)
      requires Valid()
      modifies this
      ensures Valid() && State() == EodAt(cfg, old(State()), mid, symbol, now) && after == account
    {
      hide TotalSimPnl, SimFilled, IsRoot;
      if AfterHardFlat(cfg, now) && QtyOf(account, symbol) != 0 {
        FlattenAt(mid, symbol);
      }
      if cfg.efa.Some? {
        var state := cfg.efa.value.UpdateOnEod(AsState(account, now));
        account := account.(highWater := state.highWater);
      }
      after := account;
    }

    method FlattenAt(mid: real, symbol: string)
      requires Valid()
      modifies this`account
      ensures Valid() && account == FlattenedAt(old(account), mid, symbol)
    {
      hide TotalSimPnl, SimRealized, IsRoot, TickRatio;
      var qty := QtyOf(account, symbol);
      if qty == 0 {
        return;
      }
      var filled := ApplyFill(account, symbol, -qty, mid);
      var marked := MarkToMarket(filled.value, mid, symbol);
      account := marked.value;
    }
  }

  lemma AtFloorMeans(cfg: EngineConfig, account: SimAccount, now: Timestamp)
    ensures var policy := ActivePolicy(cfg, account);
            var state := policy.UpdateOnTick(AsState(account, now));
            AtFloor(cfg, account, now) <==> state.equity <= policy.PhantomMll(state)
  {
  }
}
