/** The simulated broker account: a frozen record and its fill, mark and stage steps. */
module SimAccount {
  import opened Types
  import opened Markets
  import opened Sums
  import opened Ledger

  datatype Stage = COMBINE_ACTIVE | COMBINE_PASSED | COMBINE_FAILED | EFA_ACTIVE | EFA_PAYOUT | EFA_FAILED | FUNDED

  datatype SimAccount = SimAccount(
    balance: real, equity: real, highWater: real, realized: real, unrealized: real,
    openPositions: map<string, Leg>, lastMark: map<string, real>, stage: Stage, startBalance: real)

  function NewAccount(startBalance: real, stage: Stage): SimAccount {
    SimAccount(startBalance, startBalance, startBalance, 0.0, 0.0, map[], map[], stage, startBalance)
  }

  function LegalTargets(stage: Stage): set<Stage> {
    match stage
    case COMBINE_ACTIVE => {COMBINE_PASSED, COMBINE_FAILED}
    case COMBINE_PASSED => {EFA_ACTIVE}
    case COMBINE_FAILED => {}
    case EFA_ACTIVE => {EFA_PAYOUT, EFA_FAILED}
    case EFA_PAYOUT => {FUNDED, EFA_ACTIVE}
    case EFA_FAILED => {}
    case FUNDED => {}
  }

  /** None is the source's ValueError. */
  function AdvanceStage(account: SimAccount, target: Stage): Option<SimAccount> {
    if target in LegalTargets(account.stage) then Some(account.(stage := target)) else None
  }

  /** How far a stage is along the way from the Combine to funding. */
  function Rung(stage: Stage): nat {
    match stage
    case COMBINE_ACTIVE => 0
    case COMBINE_PASSED => 1
    case EFA_ACTIVE => 2
    case EFA_PAYOUT => 3
    case FUNDED => 4
    case _ => 5
  }

  /** An account advances one rung at a time, steps back from a payout to the active EFA, or
      fails out of one of the two active stages; nothing but the stage changes, and a failed or
      funded account stays where it is. */
  lemma AdvancesOneRung(account: SimAccount, target: Stage)
    ensures var after := AdvanceStage(account, target);
            && (after.Some? ==> after.value == account.(stage := target))
            && (after.Some? <==>
                  || Rung(account.stage) + 1 == Rung(target) <= 4
                  || (account.stage == EFA_PAYOUT && target == EFA_ACTIVE)
                  || (account.stage == COMBINE_ACTIVE && target == COMBINE_FAILED)
                  || (account.stage == EFA_ACTIVE && target == EFA_FAILED))
  {
    match account.stage {
      case COMBINE_ACTIVE => case COMBINE_PASSED => case COMBINE_FAILED => case EFA_ACTIVE =>
      case EFA_PAYOUT => case EFA_FAILED => case FUNDED =>
    }
  }

  function QtyOf(account: SimAccount, symbol: string): int {
    if symbol in account.openPositions then account.openPositions[symbol].qty else 0
  }

  // ---- Specification --------------------------------------------------------

  function SimPnl(positions: map<string, Leg>, marks: map<string, real>, symbol: string): real {
    if symbol in marks && symbol in positions then SimLegPnl(positions[symbol], marks[symbol], symbol) else 0.0
  }

  function SimLegPnl(leg: Leg, mark: real, symbol: string): real {
    (mark - leg.avg) * leg.qty as real * TickRatio(symbol)
  }

  ghost function SimPnls(positions: map<string, Leg>, marks: map<string, real>): string -> real {
    s => SimPnl(positions, marks, s)
  }

  ghost function TotalSimPnl(positions: map<string, Leg>, marks: map<string, real>): real {
    SumReal(positions.Keys, SimPnls(positions, marks))
  }

  predicate GrowsSameSide(current: int, next: int) {
    ((current > 0 && next > 0) || (current < 0 && next < 0)) && Abs(next) > Abs(current)
  }

  /** The leg after a fill on an existing leg. A fill that neither reaches or crosses zero
      nor grows the position keeps the old average. */
  function AfterSimFill(leg: Leg, signedQty: int, price: real): Leg {
    var next := leg.qty + signedQty;
    if next == 0 || Opposed(leg.qty, next) then Leg(next, price)
    else if GrowsSameSide(leg.qty, next) then Leg(next, Average(leg, signedQty, price))
    else Leg(next, leg.avg)
  }

  function SimRealizes(leg: Leg, signedQty: int, price: real): real {
    var next := leg.qty + signedQty;
    if next == 0 || Opposed(leg.qty, next) then (price - leg.avg) * ClosedQty(leg.qty, signedQty) as real else 0.0
  }

  function SimBook(account: SimAccount, symbol: string, signedQty: int, price: real): map<string, Leg> {
    if symbol !in account.openPositions then account.openPositions[symbol := Leg(signedQty, price)]
    else
      var next := AfterSimFill(account.openPositions[symbol], signedQty, price);
      if next.qty == 0 then account.openPositions - {symbol} else account.openPositions[symbol := next]
  }

  function SimRealized(account: SimAccount, symbol: string, signedQty: int, price: real): real {
    if symbol !in account.openPositions then account.realized
    else account.realized + SimRealizes(account.openPositions[symbol], signedQty, price) * TickRatio(symbol)
  }

  ghost function Settled(account: SimAccount, positions: map<string, Leg>, realized: real): SimAccount {
    var balance := account.startBalance + realized;
    var unrealized := TotalSimPnl(positions, account.lastMark);
    var equity := balance + unrealized;
    account.(balance := balance, equity := equity, highWater := Max(account.highWater, equity),
             realized := realized, unrealized := unrealized, openPositions := positions)
  }

  ghost function SimFilled(account: SimAccount, symbol: string, signedQty: int, price: real): SimAccount {
    Settled(account, SimBook(account, symbol, signedQty, price), SimRealized(account, symbol, signedQty, price))
  }

  ghost function SimMarked(account: SimAccount, symbol: string, mid: real): SimAccount {
    var marks := account.lastMark[symbol := mid];
    var unrealized := TotalSimPnl(account.openPositions, marks);
    var equity := account.balance + unrealized;
    account.(unrealized := unrealized, equity := equity, highWater := Max(account.highWater, equity), lastMark := marks)
  }

  // ---- The accounting invariant ---------------------------------------------

  /** The books add up: balance is start plus realized, equity adds the open P&L at the
      latest marks, and the high-water has seen it. */
  ghost predicate Balanced(account: SimAccount) {
    && account.balance == account.startBalance + account.realized
    && account.unrealized == TotalSimPnl(account.openPositions, account.lastMark)
    && account.equity == account.balance + account.unrealized
    && account.highWater >= account.equity
  }

  lemma NewIsBalanced(startBalance: real, stage: Stage)
    ensures Balanced(NewAccount(startBalance, stage))
  {
    EmptySum(SimPnls(map[], map[]));
  }

  lemma FillBalances(account: SimAccount, symbol: string, signedQty: int, price: real)
    ensures Balanced(SimFilled(account, symbol, signedQty, price))
    ensures SimFilled(account, symbol, signedQty, price).highWater >= account.highWater
  {
    hide TotalSimPnl, SimBook, SimRealized;
  }

  lemma MarkBalances(account: SimAccount, symbol: string, mid: real)
    requires Balanced(account)
    ensures Balanced(SimMarked(account, symbol, mid))
    ensures SimMarked(account, symbol, mid).highWater >= account.highWater
  {
    hide TotalSimPnl;
  }

  /** Closing a whole position at its own mark moves open P&L into realized, dollar for
      dollar: equity does not change. */
  lemma LiquidationKeepsEquity(account: SimAccount, symbol: string, price: real)
    requires Balanced(account)
    requires symbol in account.openPositions && symbol in account.lastMark && price == account.lastMark[symbol]
    requires account.openPositions[symbol].qty != 0
    ensures var closed := SimFilled(account, symbol, -account.openPositions[symbol].qty, price);
            && closed.equity == account.equity && closed.highWater == account.highWater
            && QtyOf(closed, symbol) == 0 && closed.openPositions == account.openPositions - {symbol}
  {
    hide SumReal, TickRatio;
    var leg := account.openPositions[symbol];
    var rest := account.openPositions - {symbol};
    assert ClosedQty(leg.qty, -leg.qty) == leg.qty;
    assert SimBook(account, symbol, -leg.qty, price) == rest;
    assert SimRealizes(leg, -leg.qty, price) * TickRatio(symbol) == SimLegPnl(leg, price, symbol);
    hide SimRealizes, SimLegPnl, AfterSimFill;
    var before, after := SimPnls(account.openPositions, account.lastMark), SimPnls(rest, account.lastMark);
    TakeReal(account.openPositions.Keys, before, symbol);
    assert rest.Keys == account.openPositions.Keys - {symbol};
    SameReal(rest.Keys, before, after);
  }

  // ---- Where a lookup raises ------------------------------------------------

  /** The open P&L cannot be computed: a marked position is not under a bare root. */
  ghost predicate PnlRaises(positions: map<string, Leg>, marks: map<string, real>) {
    exists s :: s in positions && s in marks && !IsRoot(s)
  }

  /** A fill raises when it realizes on a symbol that is not a bare root, or when the open P&L
      cannot be computed afterwards; opening or averaging an unmarked one goes through. */
  ghost predicate SimFillRaises(account: SimAccount, symbol: string, signedQty: int, price: real) {
    || (symbol in account.openPositions && !IsRoot(symbol)
        && var current := account.openPositions[symbol].qty;
           (current + signedQty == 0 || Opposed(current, current + signedQty)))
    || PnlRaises(SimBook(account, symbol, signedQty, price), account.lastMark)
  }

  /** Here too a position under anything but a bare root goes unnoticed until it is marked. */
  lemma OddSymbolRaisesAtItsMark(account: SimAccount, symbol: string, signedQty: int, price: real, marked: string,
                                 mid: real)
    requires forall s :: s in account.openPositions ==> IsRoot(s)
    requires !IsRoot(symbol) && symbol !in account.lastMark
    ensures !SimFillRaises(account, symbol, signedQty, price)
    ensures var after := SimFilled(account, symbol, signedQty, price);
            PnlRaises(after.openPositions, after.lastMark[marked := mid]) <==> marked == symbol
  {
    hide IsRoot, TotalSimPnl, SimRealized, AfterSimFill;
    var after := SimFilled(account, symbol, signedQty, price);
    assert symbol in after.openPositions;
    if marked == symbol {
      assert symbol in after.lastMark[marked := mid];
    }
  }

  // ---- Methods --------------------------------------------------------------

  /** None where the lookup raises. */
  method ComputeUnrealized(positions: map<string, Leg>, lastMark: map<string, real>) returns (total: Option<real>)
    ensures total.None? <==> PnlRaises(positions, lastMark)
    ensures total.Some? ==> total.value == TotalSimPnl(positions, lastMark)
  {
    hide SimLegPnl, SumReal, IsRoot;
    ghost var pnls := SimPnls(positions, lastMark);
    var sum := 0.0;
    var rest := positions.Keys;
    while rest != {}
      invariant rest <= positions.Keys
      invariant forall s :: s in positions.Keys - rest && s in lastMark ==> IsRoot(s)
      invariant sum + SumReal(rest, pnls) == SumReal(positions.Keys, pnls)
      decreases rest
    {
      var symbol :| symbol in rest;
      TakeReal(rest, pnls, symbol);
      assert pnls(symbol) == SimPnl(positions, lastMark, symbol);
      if symbol in lastMark {
        if !IsRoot(symbol) {
          return None;
        }
        sum := sum + SimLegPnl(positions[symbol], lastMark[symbol], symbol);
      }
      rest := rest - {symbol};
    }
    EmptySum(pnls);
    assert rest == {};
    return Some(sum);
  }

  /** The account after the fill; None, with the old account kept, where a lookup raises. */
  method ApplyFill(account: SimAccount, symbol: string, signedQty: int,
      fillPrice: real) returns (after: Option<SimAccount>)
    ensures after.None? <==> SimFillRaises(account, symbol, signedQty, fillPrice)
    ensures after.Some? ==> after.value == SimFilled(account, symbol, signedQty, fillPrice)
  {
    hide TickRatio, TotalSimPnl, Average, ClosedQty, IsRoot, PnlRaises, Opposed;
    var positions := account.openPositions;
    var realized := account.realized;
    if symbol !in positions {
      positions := positions[symbol := Leg(signedQty, fillPrice)];
    } else {
      var current := positions[symbol];
      var newQty := current.qty + signedQty;
      var crosses := current.qty * newQty < 0;
      assert crosses <==> Opposed(current.qty, newQty) by { OpposedIsNegativeProduct(current.qty, newQty); }
      if newQty == 0 || crosses {
        if !IsRoot(symbol) {
          return None;
        }
        var pnl := (fillPrice - current.avg) * ClosedQty(current.qty, signedQty) as real * TickRatio(symbol);
        realized := realized + pnl;
        if newQty == 0 {
          positions := positions - {symbol};
        } else {
          positions := positions[symbol := Leg(newQty, fillPrice)];
        }
      } else if GrowsSameSide(current.qty, newQty) {
        positions := positions[symbol := Leg(newQty, Average(current, signedQty, fillPrice))];
      } else {
        positions := positions[symbol := Leg(newQty, current.avg)];
      }
    }
    assert positions == SimBook(account, symbol, signedQty, fillPrice);
    assert realized == SimRealized(account, symbol, signedQty, fillPrice);
    var newBalance := account.startBalance + realized;
    var unrealized := ComputeUnrealized(positions, account.lastMark);
    if unrealized.None? {
      return None;
    }
    var newEquity := newBalance + unrealized.value;
    return Some(account.(balance := newBalance, equity := newEquity, highWater := Max(account.highWater, newEquity),
                         realized := realized, unrealized := unrealized.value, openPositions := positions));
  }

  method MarkToMarket(account: SimAccount, mid: real, symbol: string) returns (after: Option<SimAccount>)
    ensures after.None? <==> PnlRaises(account.openPositions, account.lastMark[symbol := mid])
    ensures after.Some? ==> after.value == SimMarked(account, symbol, mid)
  {
    hide TotalSimPnl, PnlRaises;
    var lastMark := account.lastMark[symbol := mid];
    var unrealized := ComputeUnrealized(account.openPositions, lastMark);
    if unrealized.None? {
      return None;
    }
    var newEquity := account.balance + unrealized.value;
    return Some(account.(unrealized := unrealized.value, equity := newEquity,
                         highWater := Max(account.highWater, newEquity), lastMark := lastMark));
  }
}
