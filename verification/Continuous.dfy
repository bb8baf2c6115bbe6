/** The continuous series: each expired contract's bars scaled so that prices meet at every
    roll, all contracts merged in time order. */
module Continuous {
  import opened Types

  /** One contract's bars; contracts are listed from the oldest to the newest. */
  datatype Contract = Contract(code: string, bars: seq<Bar>)

  datatype RollEvent = RollEvent(
    rollDay: int, oldContract: string, newContract: string,
    oldClose: real, newClose: real, ratio: real, cumulativeScale: real)

  const DAY := 86_400_000_000

  /** The UTC date of an instant in microseconds. */
  function DayOf(t: Timestamp): int {
    t.instant / DAY
  }

  // ---- Seam closes ----------------------------------------------------------

  /** The latest bar; the first of them on a tie. */
  function LastOf(bars: seq<Bar>): (r: Option<Bar>)
    ensures r.None? <==> bars == []
    ensures r.Some? ==> r.value in bars && forall b :: b in bars ==> b.timestamp.instant <= r.value.timestamp.instant
  {
    if bars == [] then None
    else
      var last := bars[|bars| - 1];
      var before := LastOf(bars[..|bars| - 1]);
      assert bars == bars[..|bars| - 1] + [last];
      if before.None? || last.timestamp.instant > before.value.timestamp.instant then Some(last) else before
  }

  /** The earliest bar; the first of them on a tie. */
  function FirstOf(bars: seq<Bar>): (r: Option<Bar>)
    ensures r.None? <==> bars == []
    ensures r.Some? ==> r.value in bars && forall b :: b in bars ==> b.timestamp.instant >= r.value.timestamp.instant
  {
    if bars == [] then None
    else
      var last := bars[|bars| - 1];
      var before := FirstOf(bars[..|bars| - 1]);
      assert bars == bars[..|bars| - 1] + [last];
      if before.None? || last.timestamp.instant < before.value.timestamp.instant then Some(last) else before
  }

  /** The latest bar of one day; the last of them on a tie. */
  function LastOnDay(bars: seq<Bar>, day: int): (r: Option<Bar>)
    ensures r.None? <==> forall b :: b in bars ==> DayOf(b.timestamp) != day
    ensures r.Some? ==> r.value in bars && DayOf(r.value.timestamp) == day
    ensures r.Some? ==>
              forall b :: b in bars && DayOf(b.timestamp) == day ==> b.timestamp.instant <= r.value.timestamp.instant
  {
    if bars == [] then None
    else
      var last := bars[|bars| - 1];
      var before := LastOnDay(bars[..|bars| - 1], day);
      assert bars == bars[..|bars| - 1] + [last];
      if DayOf(last.timestamp) == day && (before.None? || last.timestamp.instant >= before.value.timestamp.instant)
      then Some(last) else before
  }

  /** The new contract's price at a roll: its last close of the roll day, or failing that its
      first close. */
  function SeamBar(bars: seq<Bar>, rollDay: int): (r: Option<Bar>)
    ensures r.None? <==> bars == []
    ensures r.Some? ==> r.value in bars
  {
    var sameDay := LastOnDay(bars, rollDay);
    if sameDay.Some? then sameDay else FirstOf(bars)
  }

  // ---- Rolls ----------------------------------------------------------------

  datatype PairRoll = NoRoll | DividesByZero | Roll(event: RollEvent)

  function RollOf(older: Contract, newer: Contract): PairRoll {
    var last := LastOf(older.bars);
    if last.None? then NoRoll
    else
      var day := DayOf(last.value.timestamp);
      var seam := SeamBar(newer.bars, day);
      if seam.None? then NoRoll
      else if seam.value.close == 0.0 then DividesByZero
      else Roll(RollEvent(day, older.code, newer.code, last.value.close, seam.value.close,
                          last.value.close / seam.value.close, 1.0))
  }

  function Prepend(done: seq<RollEvent>, rest: Option<seq<RollEvent>>): Option<seq<RollEvent>> {
    if rest.None? then None else Some(done + rest.value)
  }

  /** One roll for each consecutive pair that both have bars; None where a division raises. */
  function Ratios(contracts: seq<Contract>): Option<seq<RollEvent>> {
    if |contracts| < 2 then Some([])
    else match RollOf(contracts[0], contracts[1])
      case NoRoll => Ratios(contracts[1..])
      case DividesByZero => None
      case Roll(event) => Prepend([event], Ratios(contracts[1..]))
  }

  lemma PrependNothing(rest: Option<seq<RollEvent>>)
    ensures Prepend([], rest) == rest
  {
    if rest.Some? {
      assert [] + rest.value == rest.value;
    }
  }

  lemma PrependTwice(done: seq<RollEvent>, event: RollEvent, rest: Option<seq<RollEvent>>)
    ensures Prepend(done, Prepend([event], rest)) == Prepend(done + [event], rest)
  {
    if rest.Some? {
      assert done + ([event] + rest.value) == done + [event] + rest.value;
    }
  }

  method ComputeRatios(contracts: seq<Contract>) returns (events: Option<seq<RollEvent>>)
    ensures events == Ratios(contracts)
  {
    if |contracts| < 2 {
      return Some([]);
    }
    var done: seq<RollEvent> := [];
    assert contracts[0..] == contracts;
    PrependNothing(Ratios(contracts));
    var i := 0;
    while i + 1 < |contracts|
      invariant 0 <= i < |contracts|
      invariant Ratios(contracts) == Prepend(done, Ratios(contracts[i..]))
    {
      assert contracts[i..][1..] == contracts[i + 1..];
      var roll := RollOf(contracts[i], contracts[i + 1]);
      if roll.DividesByZero? {
        return None;
      }
      if roll.Roll? {
        PrependTwice(done, roll.event, Ratios(contracts[i + 1..]));
        done := done + [roll.event];
      }
      i := i + 1;
    }
    assert done + [] == done;
    return Some(done);
  }

  // ---- Cumulative scales ----------------------------------------------------

  predicate Divisible(rolls: seq<RollEvent>) {
    forall r :: r in rolls ==> r.oldClose != 0.0
  }

  function Factor(r: RollEvent): real
    requires r.oldClose != 0.0
  {
    r.newClose / r.oldClose
  }

  /** The product of the factors of a run of rolls, the newest first. */
  function Product(rolls: seq<RollEvent>): real
    requires Divisible(rolls)
  {
    if rolls == [] then 1.0 else Times(Product(rolls[1..]), Factor(rolls[0]))
  }

  function Times(x: real, y: real): real {
    x * y
  }

  /** Each roll with the product over itself and every later roll. */
  function Cumulated(rolls: seq<RollEvent>): (r: seq<RollEvent>)
    requires Divisible(rolls)
    ensures |r| == |rolls|
  {
    if rolls == [] then []
    else [rolls[0].(cumulativeScale := Product(rolls))] + Cumulated(rolls[1..])
  }

  lemma {:induction false} CumulatedAt(rolls: seq<RollEvent>, i: nat)
    requires Divisible(rolls) && i < |rolls|
    ensures Divisible(rolls[i..]) && Cumulated(rolls)[i] == rolls[i].(cumulativeScale := Product(rolls[i..]))
  {
    if i == 0 {
      assert rolls[0..] == rolls;
    } else {
      CumulatedAt(rolls[1..], i - 1);
      assert rolls[1..][i - 1..] == rolls[i..];
    }
  }

  function Reversed<T>(s: seq<T>): seq<T> {
    if s == [] then [] else Reversed(s[1..]) + [s[0]]
  }

  lemma {:induction false} ReversedSnoc<T>(s: seq<T>, x: T)
    ensures Reversed(s + [x]) == [x] + Reversed(s)
    decreases |s|
  {
    if s == [] {
      assert [] + [x] == [x] && [x][1..] == [];
    } else {
      assert (s + [x])[0] == s[0] && (s + [x])[1..] == s[1..] + [x];
      ReversedSnoc(s[1..], x);
    }
  }

  /** The running product from the newest roll back, the list turned round at the end; None
      where a division raises. */
  method AccumulateScales(raw: seq<RollEvent>) returns (rolls: Option<seq<RollEvent>>)
    ensures rolls.Some? <==> Divisible(raw)
    ensures rolls.Some? ==> rolls.value == Cumulated(raw)
  {
    var backwards: seq<RollEvent> := [];
    var cumulative := 1.0;
    var i := |raw|;
    while i > 0
      invariant 0 <= i <= |raw|
      invariant Divisible(raw[i..])
      invariant cumulative == Product(raw[i..]) && Reversed(backwards) == Cumulated(raw[i..])
    {
      var r := raw[i - 1];
      if r.oldClose == 0.0 {
        assert r in raw;
        return None;
      }
      assert raw[i - 1..] == [r] + raw[i..];
      assert raw[i - 1..][1..] == raw[i..];
      cumulative := Times(cumulative, Factor(r));
      ReversedSnoc(backwards, r.(cumulativeScale := cumulative));
      backwards := backwards + [r.(cumulativeScale := cumulative)];
      i := i - 1;
    }
    assert raw[0..] == raw;
    return Some(Reversed(backwards));
  }

  // ---- Adjustment -----------------------------------------------------------

  /** The scale table: one for the newest contract, and each old contract's cumulative scale. */
  function Scales(contracts: seq<Contract>, rolls: seq<RollEvent>): map<string, real> {
    if rolls == [] then Ones(contracts)
    else WithOld(map[rolls[|rolls| - 1].newContract := 1.0], rolls)
  }

  function Ones(contracts: seq<Contract>): map<string, real> {
    if contracts == [] then map[] else Ones(contracts[..|contracts| - 1])[contracts[|contracts| - 1].code := 1.0]
  }

  function WithOld(scales: map<string, real>, rolls: seq<RollEvent>): map<string, real> {
    if rolls == [] then scales
    else WithOld(scales, rolls[..|rolls| - 1])[rolls[|rolls| - 1].oldContract := rolls[|rolls| - 1].cumulativeScale]
  }

  function ScaleFor(scales: map<string, real>, code: string): real {
    if code in scales then scales[code] else 1.0
  }

  function ScaledBar(b: Bar, scale: real): Bar {
    b.(open := Times(b.open, scale), high := Times(b.high, scale), low := Times(b.low, scale), close :=
        Times(b.close, scale))
  }

  function ScaledBars(bars: seq<Bar>, scale: real): (r: seq<Bar>)
    ensures |r| == |bars|
  {
    seq(|bars|, i requires 0 <= i < |bars| => ScaledBar(bars[i], scale))
  }

  /** Every contract's bars at its scale, contract after contract. */
  function AllScaled(contracts: seq<Contract>, scales: map<string, real>): seq<Bar> {
    if contracts == [] then []
    else
      var c := contracts[|contracts| - 1];
      AllScaled(contracts[..|contracts| - 1], scales) + ScaledBars(c.bars, ScaleFor(scales, c.code))
  }

  /** A bar put after every bar not later than itself. */
  function InsertByTime(sorted: seq<Bar>, b: Bar): seq<Bar> {
    if sorted == [] || sorted[|sorted| - 1].timestamp.instant <= b.timestamp.instant then sorted + [b]
    else InsertByTime(sorted[..|sorted| - 1], b) + [sorted[|sorted| - 1]]
  }

  /** The stable sort by timestamp. */
  function SortedByTime(bars: seq<Bar>): seq<Bar> {
    if bars == [] then [] else InsertByTime(SortedByTime(bars[..|bars| - 1]), bars[|bars| - 1])
  }

  predicate InTimeOrder(bars: seq<Bar>) {
    forall i, j :: 0 <= i < j < |bars| ==> bars[i].timestamp.instant <= bars[j].timestamp.instant
  }

  /** The bars of one instant, in order. */
  function AtInstant(bars: seq<Bar>, instant: int): seq<Bar> {
    if bars == [] then []
    else
      var last := bars[|bars| - 1];
      AtInstant(bars[..|bars| - 1], instant) + Here(last, instant)
  }

  function Here(b: Bar, instant: int): seq<Bar> {
    if b.timestamp.instant == instant then [b] else []
  }

  lemma SwapWithNothing(xs: seq<Bar>, ys: seq<Bar>, zs: seq<Bar>)
    requires ys == [] || zs == []
    ensures xs + ys + zs == xs + zs + ys
  {
  }

  lemma AtInstantSnoc(bars: seq<Bar>, b: Bar, instant: int)
    ensures AtInstant(bars + [b], instant) == AtInstant(bars, instant) + Here(b, instant)
  {
    assert (bars + [b])[..|bars|] == bars;
  }

  lemma {:induction false} InsertKeepsOrder(sorted: seq<Bar>, b: Bar)
    requires InTimeOrder(sorted)
    ensures var r := InsertByTime(sorted, b);
            InTimeOrder(r) && multiset(r) == multiset(sorted) + multiset{b}
    decreases |sorted|
  {
    if sorted != [] && sorted[|sorted| - 1].timestamp.instant > b.timestamp.instant {
      var front, last := sorted[..|sorted| - 1], sorted[|sorted| - 1];
      InsertKeepsOrder(front, b);
      assert sorted == front + [last];
      var r := InsertByTime(front, b);
      LaterThanAll(r, front, b, last);
    }
  }

  lemma LaterThanAll(r: seq<Bar>, front: seq<Bar>, b: Bar, last: Bar)
    requires multiset(r) == multiset(front) + multiset{b} && InTimeOrder(r) && InTimeOrder(front + [last])
    requires b.timestamp.instant <= last.timestamp.instant
    ensures InTimeOrder(r + [last])
  {
    forall x | x in r
      ensures x.timestamp.instant <= last.timestamp.instant
    {
      assert x in multiset(r);
      if x != b {
        assert x in multiset(front);
        var i :| 0 <= i < |front| && front[i] == x;
        assert (front + [last])[i] == x && (front + [last])[|front|] == last;
      }
    }
  }

  lemma {:induction false} InsertKeepsInstants(sorted: seq<Bar>, b: Bar, t: int)
    ensures AtInstant(InsertByTime(sorted, b), t) == AtInstant(sorted, t) + Here(b, t)
    decreases |sorted|
  {
    hide AtInstant;
    if sorted == [] || sorted[|sorted| - 1].timestamp.instant <= b.timestamp.instant {
      AtInstantSnoc(sorted, b, t);
    } else {
      var front, last := sorted[..|sorted| - 1], sorted[|sorted| - 1];
      InsertKeepsInstants(front, b, t);
      AtInstantSnoc(InsertByTime(front, b), last, t);
      AtInstantSnoc(front, last, t);
      assert sorted == front + [last];
      SwapWithNothing(AtInstant(front, t), Here(b, t), Here(last, t));
    }
  }

  /** The output is a time-ordered permutation of the input that keeps the order of bars with
      equal timestamps. */
  lemma {:induction false} SortIsStable(bars: seq<Bar>)
    ensures InTimeOrder(SortedByTime(bars))
    ensures multiset(SortedByTime(bars)) == multiset(bars)
    ensures forall t :: AtInstant(SortedByTime(bars), t) == AtInstant(bars, t)
    decreases |bars|
  {
    if bars != [] {
      var front, last := bars[..|bars| - 1], bars[|bars| - 1];
      SortIsStable(front);
      InsertKeepsOrder(SortedByTime(front), last);
      forall t { InsertKeepsInstants(SortedByTime(front), last, t); }
      assert bars == front + [last];
    }
  }

  method BuildScales(contracts: seq<Contract>, rolls: seq<RollEvent>) returns (contractScale: map<string, real>)
    ensures contractScale == Scales(contracts, rolls)
  {
    contractScale := map[];
    if rolls != [] {
      contractScale := contractScale[rolls[|rolls| - 1].newContract := 1.0];
      ghost var start := contractScale;
      var j := 0;
      while j < |rolls|
        invariant 0 <= j <= |rolls|
        invariant contractScale == WithOld(start, rolls[..j])
      {
        assert rolls[..j + 1][..j] == rolls[..j];
        contractScale := contractScale[rolls[j].oldContract := rolls[j].cumulativeScale];
        j := j + 1;
      }
      assert rolls[..j] == rolls;
    } else {
      var j := 0;
      while j < |contracts|
        invariant 0 <= j <= |contracts|
        invariant contractScale == Ones(contracts[..j])
      {
        assert contracts[..j + 1][..j] == contracts[..j];
        contractScale := contractScale[contracts[j].code := 1.0];
        j := j + 1;
      }
      assert contracts[..j] == contracts;
    }
  }

  /** One contract's bars appended at its scale; a scale of one passes them through. */
  method AppendScaled(before: seq<Bar>, bars: seq<Bar>, scale: real) returns (allBars: seq<Bar>)
    ensures allBars == before + ScaledBars(bars, scale)
  {
    allBars := before;
    var k := 0;
    while k < |bars|
      invariant 0 <= k <= |bars|
      invariant allBars == before + ScaledBars(bars, scale)[..k]
    {
      if scale == 1.0 {
        assert ScaledBar(bars[k], scale) == bars[k];
        allBars := allBars + [bars[k]];
      } else {
        allBars := allBars + [ScaledBar(bars[k], scale)];
      }
      assert ScaledBars(bars, scale)[..k + 1] == ScaledBars(bars, scale)[..k] + [ScaledBar(bars[k], scale)];
      k := k + 1;
    }
  }

  /** The scale table, every contract's bars at its scale, and the sort. */
  method AdjustWithRolls(contracts: seq<Contract>, rolls: seq<RollEvent>) returns (adjusted: seq<Bar>)
    ensures adjusted == SortedByTime(AllScaled(contracts, Scales(contracts, rolls)))
  {
    var contractScale := BuildScales(contracts, rolls);
    var allBars: seq<Bar> := [];
    var i := 0;
    while i < |contracts|
      invariant 0 <= i <= |contracts|
      invariant allBars == AllScaled(contracts[..i], contractScale)
    {
      assert contracts[..i + 1][..i] == contracts[..i];
      allBars := AppendScaled(allBars, contracts[i].bars, ScaleFor(contractScale, contracts[i].code));
      i := i + 1;
    }
    assert contracts[..i] == contracts;
    adjusted := SortedByTime(allBars);
  }

  /** The whole pass over one symbol's contracts; None where a close of zero raises. */
  method WriteContinuous(contracts: seq<Contract>) returns (adjusted: Option<seq<Bar>>)
    ensures adjusted == Series(contracts)
  {
    var raw := ComputeRatios(contracts);
    if raw.None? {
      return None;
    }
    var rolls := AccumulateScales(raw.value);
    if rolls.None? {
      return None;
    }
    var bars := AdjustWithRolls(contracts, rolls.value);
    return Some(bars);
  }

  function Rolls(contracts: seq<Contract>): Option<seq<RollEvent>> {
    var raw := Ratios(contracts);
    if raw.None? || !Divisible(raw.value) then None else Some(Cumulated(raw.value))
  }

  function Series(contracts: seq<Contract>): Option<seq<Bar>> {
    var rolls := Rolls(contracts);
    if rolls.None? then None else Some(SortedByTime(AllScaled(contracts, Scales(contracts, rolls.value))))
  }

  // ---- The order of the rolls -------------------------------------------------

  /** Contract codes are directory names: no two contracts share one. */
  predicate DistinctCodes(contracts: seq<Contract>) {
    forall i, j :: 0 <= i < j < |contracts| ==> contracts[i].code != contracts[j].code
  }

  predicate PositiveCloses(contracts: seq<Contract>) {
    forall c :: c in contracts ==> forall b :: b in c.bars ==> b.close > 0.0
  }

  /** Every contract has bars. */
  predicate Populated(contracts: seq<Contract>) {
    forall c :: c in contracts ==> c.bars != []
  }

  predicate HasCode(contracts: seq<Contract>, code: string) {
    exists i :: 0 <= i < |contracts| && contracts[i].code == code
  }

  /** No contract rolls away twice, and a contract rolled into rolls away, if it does, next. */
  predicate Chained(rolls: seq<RollEvent>) {
    && (forall i, j :: 0 <= i < j < |rolls| ==> rolls[i].oldContract != rolls[j].oldContract)
    && (forall i, j :: 0 <= i < |rolls| && 0 <= j < |rolls| && rolls[i].newContract == rolls[j].oldContract ==>
                         j == i + 1)
  }

  predicate PositiveRolls(rolls: seq<RollEvent>) {
    forall r :: r in rolls ==> r.oldClose > 0.0 && r.newClose > 0.0
  }

  /** Two contracts with bars always roll, at positive closes; without, never. */
  lemma RollOfPair(older: Contract, newer: Contract)
    requires forall b :: b in older.bars + newer.bars ==> b.close > 0.0
    ensures var roll := RollOf(older, newer);
            && !roll.DividesByZero? && (roll.Roll? <==> older.bars != [] && newer.bars != [])
            && (roll.Roll? ==>
                  (roll.event.oldContract == older.code && roll.event.newContract == newer.code
                   && roll.event.oldClose > 0.0 && roll.event.newClose > 0.0))
  {
    hide FirstOf, LastOnDay;
    var last := LastOf(older.bars);
    if last.Some? {
      assert last.value in older.bars + newer.bars;
      var seam := SeamBar(newer.bars, DayOf(last.value.timestamp));
      assert seam.Some? ==> seam.value in older.bars + newer.bars;
    }
  }

  lemma {:induction false} RollsAreChained(contracts: seq<Contract>)
    requires DistinctCodes(contracts) && PositiveCloses(contracts)
    ensures Ratios(contracts).Some?
    ensures var rolls := Ratios(contracts).value;
            Chained(rolls) && PositiveRolls(rolls) && RollsWithin(contracts, rolls)
    decreases |contracts|
  {
    hide RollOf;
    if |contracts| >= 2 {
      var rest := contracts[1..];
      assert forall c :: c in rest ==> c in contracts;
      RollsAreChained(rest);
      assert contracts[0] in contracts && contracts[1] in contracts;
      RollOfPair(contracts[0], contracts[1]);
      if RollOf(contracts[0], contracts[1]).Roll? {
        OneMoreRoll(contracts, RollOf(contracts[0], contracts[1]).event, Ratios(rest).value);
      } else {
        NoMoreRoll(contracts, Ratios(rest).value);
      }
    }
  }

  /** Rolls between contracts of a list, in the list's order. */
  ghost predicate RollsWithin(contracts: seq<Contract>, rolls: seq<RollEvent>) {
    && (forall j :: 0 <= j < |rolls| ==>
                      HasCode(contracts, rolls[j].oldContract) && HasCode(contracts, rolls[j].newContract))
    && (contracts != [] ==>
          ((forall j :: 0 <= j < |rolls| && rolls[j].oldContract == contracts[0].code ==> j == 0)
           && (forall j :: 0 <= j < |rolls| ==> rolls[j].newContract != contracts[0].code)))
  }

  lemma TailCodes(contracts: seq<Contract>)
    requires DistinctCodes(contracts) && contracts != []
    ensures forall code :: HasCode(contracts[1..], code) ==> HasCode(contracts, code) && code != contracts[0].code
  {
    forall code | HasCode(contracts[1..], code)
      ensures HasCode(contracts, code) && code != contracts[0].code
    {
      var i :| 0 <= i < |contracts[1..]| && contracts[1..][i].code == code;
      assert contracts[i + 1].code == code;
    }
  }

  lemma NoMoreRoll(contracts: seq<Contract>, rolls: seq<RollEvent>)
    requires DistinctCodes(contracts) && contracts != [] && RollsWithin(contracts[1..], rolls)
    ensures RollsWithin(contracts, rolls)
  {
    hide HasCode;
    TailCodes(contracts);
  }

  lemma OneMoreRoll(contracts: seq<Contract>, event: RollEvent, rolls: seq<RollEvent>)
    requires |contracts| >= 2 && DistinctCodes(contracts) && RollsWithin(contracts[1..], rolls) && Chained(rolls)
    requires event.oldContract == contracts[0].code && event.newContract == contracts[1].code
    ensures RollsWithin(contracts, [event] + rolls) && Chained([event] + rolls)
  {
    TailCodes(contracts);
    assert HasCode(contracts, contracts[0].code) && HasCode(contracts, contracts[1].code);
    hide HasCode;
    var all := [event] + rolls;
    assert contracts[1..][0] == contracts[1];
    forall j | 0 <= j < |rolls|
      ensures rolls[j].oldContract != contracts[0].code && rolls[j].newContract != contracts[0].code
      ensures rolls[j].oldContract == contracts[1].code ==> j == 0
    {
      assert HasCode(contracts[1..], rolls[j].oldContract);
    }
  }

  predicate IsRollAt(contracts: seq<Contract>, i: nat, roll: RollEvent) {
    i + 1 < |contracts| && RollOf(contracts[i], contracts[i + 1]) == Roll(roll)
  }

  /** The prices a roll records. */
  lemma RollCloses(contracts: seq<Contract>, i: nat, roll: RollEvent)
    requires IsRollAt(contracts, i, roll)
    ensures roll.oldContract == contracts[i].code && roll.newContract == contracts[i + 1].code
    ensures LastOf(contracts[i].bars).Some?
    ensures var last := LastOf(contracts[i].bars).value;
            var seam := SeamBar(contracts[i + 1].bars, DayOf(last.timestamp));
            last.close == roll.oldClose && seam.Some? && seam.value.close == roll.newClose
  {
    hide LastOf, SeamBar;
  }

  lemma {:induction false} PopulatedRolls(contracts: seq<Contract>)
    requires Populated(contracts) && PositiveCloses(contracts)
    ensures Ratios(contracts).Some?
    ensures var rolls := Ratios(contracts).value;
            && (|contracts| >= 1 ==> |rolls| == |contracts| - 1)
            && (forall i :: 0 <= i < |rolls| ==> IsRollAt(contracts, i, rolls[i]))
    decreases |contracts|
  {
    hide LastOf, SeamBar, FirstOf, LastOnDay;
    if |contracts| >= 2 {
      var rest := contracts[1..];
      assert forall c :: c in rest ==> c in contracts;
      PopulatedRolls(rest);
      assert contracts[0] in contracts && contracts[1] in contracts;
      assert forall i :: 0 <= i < |rest| ==> rest[i] == contracts[i + 1];
    }
  }

  /** The roll of this pair divides by zero: by the new close for its ratio, or by the old one
      for its scale. */
  predicate RaisesAt(contracts: seq<Contract>, i: nat)
    requires i + 1 < |contracts|
  {
    var roll := RollOf(contracts[i], contracts[i + 1]);
    roll.DividesByZero? || (roll.Roll? && roll.event.oldClose == 0.0)
  }

  /** The pass raises if and only if some pair of neighbouring contracts rolls at a close of zero. */
  lemma {:induction false} SeriesRaisesExactly(contracts: seq<Contract>)
    ensures Series(contracts).None? <==> exists i :: 0 <= i && i + 1 < |contracts| && RaisesAt(contracts, i)
    decreases |contracts|
  {
    hide RollOf, Scales, AllScaled, SortedByTime, Cumulated;
    if |contracts| >= 2 {
      var rest := contracts[1..];
      SeriesRaisesExactly(rest);
      RaisesFirstOrLater(contracts);
      if Series(contracts).None? && !RaisesAt(contracts, 0) {
        var i :| 0 <= i && i + 1 < |rest| && RaisesAt(rest, i);
        assert RaisesAt(contracts, i + 1);
      }
      if i :| 0 < i && i + 1 < |contracts| && RaisesAt(contracts, i) {
        assert RaisesAt(rest, i - 1);
      }
    } else {
      assert Ratios(contracts) == Some([]);
    }
  }

  lemma RaisesFirstOrLater(contracts: seq<Contract>)
    requires |contracts| >= 2
    ensures Series(contracts).None? <==> RaisesAt(contracts, 0) || Series(contracts[1..]).None?
  {
    hide RollOf, Scales, AllScaled, SortedByTime, Cumulated;
    var rest := Ratios(contracts[1..]);
    var roll := RollOf(contracts[0], contracts[1]);
    if roll.Roll? && rest.Some? {
      assert Ratios(contracts) == Some([roll.event] + rest.value);
      assert Divisible([roll.event] + rest.value) <==> roll.event.oldClose != 0.0 && Divisible(rest.value) by {
        DivisibleCons(roll.event, rest.value);
      }
    }
  }

  lemma DivisibleCons(r: RollEvent, rest: seq<RollEvent>)
    ensures Divisible([r] + rest) <==> r.oldClose != 0.0 && Divisible(rest)
  {
    if Divisible([r] + rest) {
      assert r in [r] + rest;
      assert forall x :: x in rest ==> x in [r] + rest;
    }
  }

  // ---- The scale table ----------------------------------------------------------

  lemma {:induction false} TableOfOld(start: map<string, real>, rolls: seq<RollEvent>, i: nat)
    requires i < |rolls| && forall j, k :: 0 <= j < k < |rolls| ==> rolls[j].oldContract != rolls[k].oldContract
    ensures rolls[i].oldContract in WithOld(start, rolls)
    ensures WithOld(start, rolls)[rolls[i].oldContract] == rolls[i].cumulativeScale
    decreases |rolls|
  {
    if i < |rolls| - 1 {
      TableOfOld(start, rolls[..|rolls| - 1], i);
    }
  }

  lemma {:induction false} TableOfOthers(start: map<string, real>, rolls: seq<RollEvent>, code: string)
    requires forall j :: 0 <= j < |rolls| ==> rolls[j].oldContract != code
    ensures code in WithOld(start, rolls) <==> code in start
    ensures code in start ==> WithOld(start, rolls)[code] == start[code]
    decreases |rolls|
  {
    if rolls != [] {
      TableOfOthers(start, rolls[..|rolls| - 1], code);
    }
  }

  /** The cumulative scale that follows roll i: that of the next roll, or one. */
  function ScaleAfter(rolls: seq<RollEvent>, i: nat): real {
    if i + 1 < |rolls| then rolls[i + 1].cumulativeScale else 1.0
  }

  /** What the table holds for the two contracts of a roll. */
  lemma TableAtRoll(contracts: seq<Contract>, rolls: seq<RollEvent>, i: nat)
    requires Chained(rolls) && i < |rolls|
    ensures ScaleFor(Scales(contracts, rolls), rolls[i].oldContract) == rolls[i].cumulativeScale
    ensures ScaleFor(Scales(contracts, rolls), rolls[i].newContract)
         == if i + 1 < |rolls| && rolls[i].newContract == rolls[i + 1].oldContract
            then rolls[i + 1].cumulativeScale else 1.0
  {
    var start := map[rolls[|rolls| - 1].newContract := 1.0];
    TableOfOld(start, rolls, i);
    if i + 1 < |rolls| && rolls[i].newContract == rolls[i + 1].oldContract {
      TableOfOld(start, rolls, i + 1);
    } else {
      TableOfOthers(start, rolls, rolls[i].newContract);
    }
  }

  lemma {:induction false} CumulatedKeepsChain(raw: seq<RollEvent>)
    requires Divisible(raw) && Chained(raw)
    ensures Chained(Cumulated(raw))
  {
    forall i | 0 <= i < |raw|
      ensures Cumulated(raw)[i].oldContract == raw[i].oldContract && Cumulated(raw)[i].newContract == raw[i].newContract
    {
      CumulatedAt(raw, i);
    }
  }

  lemma {:induction false} ProductIsPositive(rolls: seq<RollEvent>)
    requires PositiveRolls(rolls)
    ensures Divisible(rolls) && Product(rolls) > 0.0
    decreases |rolls|
  {
    if rolls != [] {
      assert rolls[0] in rolls;
      assert PositiveRolls(rolls[1..]);
      ProductIsPositive(rolls[1..]);
      TimesPositive(Product(rolls[1..]), Factor(rolls[0]));
    }
  }

  lemma TimesPositive(x: real, y: real)
    requires x > 0.0 && y > 0.0
    ensures Times(x, y) > 0.0
  {
  }

  // ---- Which closes a roll compares -------------------------------------------

  /** No bar is later, and no earlier one in the list is as late. */
  predicate IsLatest(bars: seq<Bar>, k: int) {
    && 0 <= k < |bars|
    && (forall j :: 0 <= j < |bars| ==> bars[j].timestamp.instant <= bars[k].timestamp.instant)
    && (forall j :: 0 <= j < k ==> bars[j].timestamp.instant < bars[k].timestamp.instant)
  }

  /** No bar is earlier, and no earlier one in the list is as early. */
  predicate IsEarliest(bars: seq<Bar>, k: int) {
    && 0 <= k < |bars|
    && (forall j :: 0 <= j < |bars| ==> bars[j].timestamp.instant >= bars[k].timestamp.instant)
    && (forall j :: 0 <= j < k ==> bars[j].timestamp.instant > bars[k].timestamp.instant)
  }

  /** The days since the epoch that have begun by the bar, in UTC. */
  predicate FallsOn(b: Bar, day: int) {
    day * 86_400_000_000 <= b.timestamp.instant < (day + 1) * 86_400_000_000
  }

  predicate TradesOn(bars: seq<Bar>, day: int) {
    exists j :: 0 <= j < |bars| && FallsOn(bars[j], day)
  }

  /** The last bar of the day in time, and of those at the same instant the last in the list. */
  predicate IsLastOfDay(bars: seq<Bar>, day: int, k: int) {
    && 0 <= k < |bars| && FallsOn(bars[k], day)
    && (forall j :: 0 <= j < |bars| && FallsOn(bars[j], day) ==>
                      bars[j].timestamp.instant <= bars[k].timestamp.instant)
    && (forall j :: k < j < |bars| && FallsOn(bars[j], day) ==>
                      bars[j].timestamp.instant < bars[k].timestamp.instant)
  }

  /** The bar of the new contract a roll is measured at: the last one of the roll day if it
      trades that day, and its earliest one if it does not. */
  predicate IsSeam(bars: seq<Bar>, day: int, k: int) {
    if TradesOn(bars, day) then IsLastOfDay(bars, day, k) else IsEarliest(bars, k)
  }

  lemma FallsOnItsDay(b: Bar, day: int)
    ensures FallsOn(b, day) <==> DayOf(b.timestamp) == day
  {
  }

  lemma {:induction false} LatestIsFound(bars: seq<Bar>, k: nat)
    requires IsLatest(bars, k)
    ensures LastOf(bars) == Some(bars[k])
    decreases |bars|
  {
    var n := |bars| - 1;
    if k < n {
      assert IsLatest(bars[..n], k);
      LatestIsFound(bars[..n], k);
    } else if n > 0 {
      var before := LastOf(bars[..n]).value;
      var j :| 0 <= j < n && bars[..n][j] == before;
      assert bars[j].timestamp.instant < bars[k].timestamp.instant;
    }
  }

  lemma {:induction false} EarliestIsFound(bars: seq<Bar>, k: nat)
    requires IsEarliest(bars, k)
    ensures FirstOf(bars) == Some(bars[k])
    decreases |bars|
  {
    var n := |bars| - 1;
    if k < n {
      assert IsEarliest(bars[..n], k);
      EarliestIsFound(bars[..n], k);
    } else if n > 0 {
      var before := FirstOf(bars[..n]).value;
      var j :| 0 <= j < n && bars[..n][j] == before;
      assert bars[j].timestamp.instant > bars[k].timestamp.instant;
    }
  }

  lemma {:induction false} LastOfDayIsFound(bars: seq<Bar>, day: int, k: nat)
    requires IsLastOfDay(bars, day, k)
    ensures LastOnDay(bars, day) == Some(bars[k])
    decreases |bars|
  {
    hide DayOf, FallsOn;
    var n := |bars| - 1;
    forall b { FallsOnItsDay(b, day); }
    if k < n {
      assert IsLastOfDay(bars[..n], day, k);
      LastOfDayIsFound(bars[..n], day, k);
    } else {
      var before := LastOnDay(bars[..n], day);
      if before.Some? {
        var j :| 0 <= j < n && bars[..n][j] == before.value;
        assert FallsOn(bars[j], day);
      }
    }
  }

  lemma SeamIsFound(bars: seq<Bar>, day: int, k: nat)
    requires IsSeam(bars, day, k)
    ensures SeamBar(bars, day) == Some(bars[k])
  {
    hide LastOnDay, FirstOf, DayOf, FallsOn;
    forall b { FallsOnItsDay(b, day); }
    if TradesOn(bars, day) {
      LastOfDayIsFound(bars, day, k);
    } else {
      forall b | b in bars
        ensures DayOf(b.timestamp) != day
      {
        var j :| 0 <= j < |bars| && bars[j] == b;
        assert !FallsOn(bars[j], day);
      }
      EarliestIsFound(bars, k);
    }
  }

  /** Every contract with bars has a latest one, and one a roll into it is measured at. */
  lemma {:induction false} LatestExists(bars: seq<Bar>) returns (k: nat)
    requires bars != []
    ensures IsLatest(bars, k)
    decreases |bars|
  {
    var n := |bars| - 1;
    k := n;
    if n > 0 {
      var before := LatestExists(bars[..n]);
      if bars[n].timestamp.instant <= bars[before].timestamp.instant {
        k := before;
      }
    }
  }

  lemma {:induction false} SeamExists(bars: seq<Bar>, day: int) returns (k: nat)
    requires bars != []
    ensures IsSeam(bars, day, k)
  {
    if TradesOn(bars, day) {
      k := LastOfDayExists(bars, day);
    } else {
      k := EarliestExists(bars);
    }
  }

  lemma {:induction false} EarliestExists(bars: seq<Bar>) returns (k: nat)
    requires bars != []
    ensures IsEarliest(bars, k)
    decreases |bars|
  {
    var n := |bars| - 1;
    k := n;
    if n > 0 {
      var before := EarliestExists(bars[..n]);
      if bars[n].timestamp.instant >= bars[before].timestamp.instant {
        k := before;
      }
    }
  }

  lemma {:induction false} LastOfDayExists(bars: seq<Bar>, day: int) returns (k: nat)
    requires TradesOn(bars, day)
    ensures IsLastOfDay(bars, day, k)
    decreases |bars|
  {
    hide FallsOn;
    var n := |bars| - 1;
    k := n;
    if TradesOn(bars[..n], day) {
      var before := LastOfDayExists(bars[..n], day);
      if !FallsOn(bars[n], day) || bars[n].timestamp.instant < bars[before].timestamp.instant {
        k := before;
      }
    } else {
      forall j | 0 <= j < n
        ensures !FallsOn(bars[j], day)
      {
        assert !FallsOn(bars[..n][j], day);
      }
    }
  }

  /** What a roll between two contracts with bars records: the day and close of the old
      contract's latest bar, the close of the new one's seam bar, and their ratio. It raises
      when that close is zero. */
  lemma RollIsMeasured(older: Contract, newer: Contract, k: nat, day: int, s: nat)
    requires IsLatest(older.bars, k) && FallsOn(older.bars[k], day) && IsSeam(newer.bars, day, s)
    ensures var oldClose, newClose := older.bars[k].close, newer.bars[s].close;
            var roll := RollOf(older, newer);
            && (roll.DividesByZero? <==> newClose == 0.0)
            && (newClose != 0.0 ==>
                  && roll.Roll?
                  && roll.event.rollDay == day
                  && roll.event.oldContract == older.code && roll.event.newContract == newer.code
                  && roll.event.oldClose == oldClose && roll.event.newClose == newClose
                  && Times(roll.event.ratio, newClose) == oldClose)
  {
    hide LastOf, SeamBar, IsSeam;
    FallsOnItsDay(older.bars[k], day);
    LatestIsFound(older.bars, k);
    SeamIsFound(newer.bars, day, s);
  }

  // ---- The seams ------------------------------------------------------------------

  /** At roll i the two contracts' prices meet after scaling. */
  predicate SeamMeets(contracts: seq<Contract>, rolls: seq<RollEvent>, i: nat)
    requires i < |rolls|
  {
    var scales := Scales(contracts, rolls);
    Times(rolls[i].oldClose, ScaleFor(scales, rolls[i].oldContract))
    == Times(rolls[i].newClose, ScaleFor(scales, rolls[i].newContract))
  }

  /** Scaling the old close by the cumulative scale gives the new close at what follows. */
  lemma ScaledOldClose(raw: seq<RollEvent>, i: nat)
    requires PositiveRolls(raw) && i < |raw|
    ensures Divisible(raw)
    ensures var rolls := Cumulated(raw);
            && Times(rolls[i].oldClose, rolls[i].cumulativeScale) == Times(rolls[i].newClose, ScaleAfter(rolls, i))
            && rolls[i].newClose > 0.0 && rolls[i].cumulativeScale > 0.0
  {
    ProductIsPositive(raw);
    assert PositiveRolls(raw[i..]) && raw[i..][1..] == raw[i + 1..] && raw[i] in raw;
    ProductIsPositive(raw[i..]);
    CumulatedAt(raw, i);
    if i + 1 < |raw| {
      CumulatedAt(raw, i + 1);
    }
    var later := Product(raw[i + 1..]);
    assert ScaleAfter(Cumulated(raw), i) == later;
    Telescopes(raw[i].oldClose, raw[i].newClose, later);
  }

  lemma Telescopes(oldClose: real, newClose: real, later: real)
    requires oldClose > 0.0
    ensures Times(oldClose, Times(later, newClose / oldClose)) == Times(newClose, later)
  {
    var factor := newClose / oldClose;
    assert oldClose * factor == newClose;
    assert oldClose * (later * factor) == (oldClose * factor) * later;
  }

  lemma TimesCancels(x: real, y: real, z: real)
    requires x > 0.0
    ensures Times(x, y) == Times(x, z) <==> y == z
  {
  }

  /** Exactly when a seam meets: the roll is the newest, the contract rolled into is the one
      that rolls away next, or the scale after it happens to be one. */
  lemma SeamMeetsExactly(contracts: seq<Contract>, i: nat)
    requires DistinctCodes(contracts) && PositiveCloses(contracts)
    requires Rolls(contracts).Some? ==> i < |Rolls(contracts).value|
    ensures Rolls(contracts).Some?
    ensures var rolls := Rolls(contracts).value;
            SeamMeets(contracts, rolls, i) <==>
              i + 1 == |rolls| || rolls[i].newContract == rolls[i + 1].oldContract
                  || rolls[i + 1].cumulativeScale == 1.0
  {
    hide Ratios, Times, Scales, WithOld;
    RollsAreChained(contracts);
    var raw := Ratios(contracts).value;
    ProductIsPositive(raw);
    var rolls := Cumulated(raw);
    CumulatedKeepsChain(raw);
    ScaledOldClose(raw, i);
    TableAtRoll(contracts, rolls, i);
    TimesCancels(rolls[i].newClose, ScaleAfter(rolls, i), ScaleFor(Scales(contracts, rolls), rolls[i].newContract));
  }

  /** With bars in every contract and positive closes: the close of the expiring contract's
      latest bar, scaled, equals at every roll the scaled close of the next contract's last bar
      of that day, or of its earliest bar if it did not trade that day; and the newest contract
      is not scaled. */
  lemma SeriesIsContinuous(contracts: seq<Contract>, i: nat, k: nat, day: int, s: nat)
    requires DistinctCodes(contracts) && PositiveCloses(contracts) && Populated(contracts)
    requires i + 1 < |contracts|
    requires IsLatest(contracts[i].bars, k) && FallsOn(contracts[i].bars[k], day)
    requires IsSeam(contracts[i + 1].bars, day, s)
    ensures Rolls(contracts).Some?
    ensures var scales := Scales(contracts, Rolls(contracts).value);
            && Times(contracts[i].bars[k].close, ScaleFor(scales, contracts[i].code))
               == Times(contracts[i + 1].bars[s].close, ScaleFor(scales, contracts[i + 1].code))
            && ScaleFor(scales, contracts[|contracts| - 1].code) == 1.0
  {
    hide Ratios, Times, Scales, Cumulated, Chained, LastOf, SeamBar, IsRollAt, ScaleFor, RollsWithin, Product,
      IsSeam;
    PopulatedRolls(contracts);
    RollsAreChained(contracts);
    var raw := Ratios(contracts).value;
    ProductIsPositive(raw);
    RollCloses(contracts, i, raw[i]);
    FallsOnItsDay(contracts[i].bars[k], day);
    LatestIsFound(contracts[i].bars, k);
    SeamIsFound(contracts[i + 1].bars, day, s);
    if i + 1 < |raw| {
      RollCloses(contracts, i + 1, raw[i + 1]);
    }
    CumulatedAt(raw, i);
    if i + 1 < |raw| {
      CumulatedAt(raw, i + 1);
    }
    SeamMeetsExactly(contracts, i);
    NewestIsUnscaled(contracts);
  }

  lemma NewestIsUnscaled(contracts: seq<Contract>)
    requires DistinctCodes(contracts) && PositiveCloses(contracts) && Populated(contracts) && |contracts| >= 2
    ensures Rolls(contracts).Some?
    ensures ScaleFor(Scales(contracts, Rolls(contracts).value), contracts[|contracts| - 1].code) == 1.0
  {
    hide Ratios, Times, Scales, Cumulated, Chained, LastOf, SeamBar, ScaleFor;
    PopulatedRolls(contracts);
    RollsAreChained(contracts);
    var raw := Ratios(contracts).value;
    ProductIsPositive(raw);
    CumulatedKeepsChain(raw);
    CumulatedAt(raw, |raw| - 1);
    TableAtRoll(contracts, Cumulated(raw), |raw| - 1);
  }

  /** A contract directory without bars breaks an older seam: the pairs on either side of it
      are skipped, so the contract before the gap is left unscaled while the ones before
      that are scaled by every later roll. */
  lemma GapBreaksSeam(a: Contract, b: Contract, gap: Contract, d: Contract, e: Contract)
    requires DistinctCodes([a, b, gap, d, e]) && PositiveCloses([a, b, gap, d, e])
    requires a.bars != [] && b.bars != [] && gap.bars == [] && d.bars != [] && e.bars != []
    requires RollOf(d, e).Roll? ==> RollOf(d, e).event.oldClose != RollOf(d, e).event.newClose
    ensures var contracts := [a, b, gap, d, e];
            && Rolls(contracts).Some? && |Rolls(contracts).value| == 2
            && !SeamMeets(contracts, Rolls(contracts).value, 0)
  {
    hide Times, Scales, WithOld, LastOf, SeamBar, SeamMeets, Chained;
    var contracts := [a, b, gap, d, e];
    assert a in contracts && b in contracts && d in contracts && e in contracts;
    RollsAreChained(contracts);
    GapRolls(a, b, gap, d, e);
    var raw := Ratios(contracts).value;
    ProductIsPositive(raw);
    CumulatedAt(raw, 0);
    CumulatedAt(raw, 1);
    assert raw[1..] == [raw[1]] && raw[1..][1..] == [];
    LastScale(raw[1]);
    assert contracts[1].code != contracts[3].code;
    SeamMeetsExactly(contracts, 0);
  }

  lemma LastScale(r: RollEvent)
    requires r.oldClose > 0.0 && r.newClose != r.oldClose
    ensures Divisible([r]) && Product([r]) != 1.0
  {
    assert [r][1..] == [];
    assert Factor(r) * r.oldClose == r.newClose;
  }

  lemma GapRolls(a: Contract, b: Contract, gap: Contract, d: Contract, e: Contract)
    requires PositiveCloses([a, b, gap, d, e])
    requires a.bars != [] && b.bars != [] && gap.bars == [] && d.bars != [] && e.bars != []
    ensures RollOf(a, b).Roll? && RollOf(d, e).Roll?
    ensures Ratios([a, b, gap, d, e]) == Some([RollOf(a, b).event, RollOf(d, e).event])
  {
    hide RollOf;
    var contracts := [a, b, gap, d, e];
    assert a in contracts && b in contracts && d in contracts && e in contracts;
    RollOfPair(a, b);
    RollOfPair(b, gap);
    RollOfPair(gap, d);
    RollOfPair(d, e);
    assert contracts[1..] == [b, gap, d, e] && [b, gap, d, e][1..] == [gap, d, e];
    assert [gap, d, e][1..] == [d, e] && [d, e][1..] == [e];
    assert Ratios([e]) == Some([]);
    var event := RollOf(d, e).event;
    assert [event] + [] == [event];
    assert Ratios([d, e]) == Some([event]);
    assert Ratios([b, gap, d, e]) == Ratios([gap, d, e]) == Ratios([d, e]);
    assert [RollOf(a, b).event] + [event] == [RollOf(a, b).event, event];
  }

  // ---- The bars of the series -------------------------------------------------------

  predicate Shaped(b: Bar) {
    b.low <= b.open <= b.high && b.low <= b.close <= b.high
  }

  /** Every price times the scale, and nothing else changed. */
  predicate IsScaled(source: Bar, scale: real, b: Bar) {
    && b.open == Times(source.open, scale) && b.high == Times(source.high, scale)
    && b.low == Times(source.low, scale) && b.close == Times(source.close, scale)
    && b.symbol == source.symbol && b.volume == source.volume && b.timestamp == source.timestamp
  }

  /** A bar of one of the contracts, at that contract's scale. */
  ghost predicate ComesFrom(contracts: seq<Contract>, scales: map<string, real>, b: Bar) {
    exists c, source :: c in contracts && source in c.bars && IsScaled(source, ScaleFor(scales, c.code), b)
  }

  /** Bars of all contracts together. */
  function CountBars(contracts: seq<Contract>): nat {
    if contracts == [] then 0 else |contracts[0].bars| + CountBars(contracts[1..])
  }

  lemma ScalingKeepsShape(b: Bar, scale: real, scaled: Bar)
    requires scale > 0.0 && IsScaled(b, scale, scaled)
    ensures Shaped(scaled) <==> Shaped(b)
  {
    hide Times;
    TimesOrders(b.low, b.open, scale);
    TimesOrders(b.open, b.high, scale);
    TimesOrders(b.low, b.close, scale);
    TimesOrders(b.close, b.high, scale);
  }

  lemma TimesOrders(x: real, y: real, scale: real)
    requires scale > 0.0
    ensures Times(x, scale) <= Times(y, scale) <==> x <= y
  {
  }

  lemma {:induction false} TableIsPositive(start: map<string, real>, rolls: seq<RollEvent>)
    requires forall code :: code in start ==> start[code] > 0.0
    requires forall r :: r in rolls ==> r.cumulativeScale > 0.0
    ensures forall code :: code in WithOld(start, rolls) ==> WithOld(start, rolls)[code] > 0.0
    decreases |rolls|
  {
    if rolls != [] {
      assert rolls == rolls[..|rolls| - 1] + [rolls[|rolls| - 1]];
      TableIsPositive(start, rolls[..|rolls| - 1]);
    }
  }

  lemma {:induction false} OnesAreOnes(contracts: seq<Contract>)
    ensures forall code :: code in Ones(contracts) ==> Ones(contracts)[code] == 1.0
    decreases |contracts|
  {
    if contracts != [] {
      OnesAreOnes(contracts[..|contracts| - 1]);
    }
  }

  lemma ScalesArePositive(contracts: seq<Contract>)
    requires DistinctCodes(contracts) && PositiveCloses(contracts)
    ensures Rolls(contracts).Some?
    ensures forall code :: ScaleFor(Scales(contracts, Rolls(contracts).value), code) > 0.0
  {
    hide Ratios;
    RollsAreChained(contracts);
    var raw := Ratios(contracts).value;
    ProductIsPositive(raw);
    var rolls := Cumulated(raw);
    forall r | r in rolls
      ensures r.cumulativeScale > 0.0
    {
      var i :| 0 <= i < |rolls| && rolls[i] == r;
      ScaledOldClose(raw, i);
    }
    if rolls == [] {
      OnesAreOnes(contracts);
    } else {
      TableIsPositive(map[rolls[|rolls| - 1].newContract := 1.0], rolls);
    }
  }

  lemma {:induction false} CountSnoc(contracts: seq<Contract>, c: Contract)
    ensures CountBars(contracts + [c]) == CountBars(contracts) + |c.bars|
    decreases |contracts|
  {
    if contracts == [] {
      assert [] + [c] == [c] && [c][1..] == [];
    } else {
      assert (contracts + [c])[1..] == contracts[1..] + [c];
      CountSnoc(contracts[1..], c);
    }
  }

  lemma {:induction false} AllScaledComeFrom(contracts: seq<Contract>, scales: map<string, real>)
    ensures |AllScaled(contracts, scales)| == CountBars(contracts)
    ensures forall b :: b in AllScaled(contracts, scales) ==> ComesFrom(contracts, scales, b)
    decreases |contracts|
  {
    if contracts != [] {
      var front, c := contracts[..|contracts| - 1], contracts[|contracts| - 1];
      assert contracts == front + [c];
      CountSnoc(front, c);
      AllScaledComeFrom(front, scales);
      var scale := ScaleFor(scales, c.code);
      forall b | b in AllScaled(contracts, scales)
        ensures ComesFrom(contracts, scales, b)
      {
        if b in AllScaled(front, scales) {
          assert ComesFrom(front, scales, b);
          assert forall x :: x in front ==> x in contracts;
        } else {
          var i :| 0 <= i < |c.bars| && ScaledBars(c.bars, scale)[i] == b;
          assert c in contracts && c.bars[i] in c.bars && IsScaled(c.bars[i], scale, b);
        }
      }
    }
  }

  lemma {:induction false} EveryBarIsScaled(contracts: seq<Contract>, scales: map<string, real>, c: Contract, b: Bar)
    requires c in contracts && b in c.bars
    ensures exists out :: out in AllScaled(contracts, scales) && IsScaled(b, ScaleFor(scales, c.code), out)
    decreases |contracts|
  {
    var front, last := contracts[..|contracts| - 1], contracts[|contracts| - 1];
    assert contracts == front + [last];
    if c in front {
      EveryBarIsScaled(front, scales, c, b);
      var out :| out in AllScaled(front, scales) && IsScaled(b, ScaleFor(scales, c.code), out);
      assert out in AllScaled(contracts, scales);
    } else {
      var i :| 0 <= i < |c.bars| && c.bars[i] == b;
      var out := ScaledBars(c.bars, ScaleFor(scales, c.code))[i];
      assert out in ScaledBars(c.bars, ScaleFor(scales, c.code)) && IsScaled(b, ScaleFor(scales, c.code), out);
    }
  }

  /** The series is every bar of every contract once, its prices times that contract's scale,
      in time order: volumes and times are kept, the scale is positive, so a bar keeps its
      open, high, low, close order. */
  lemma SeriesKeepsBars(contracts: seq<Contract>)
    requires DistinctCodes(contracts) && PositiveCloses(contracts)
    ensures Series(contracts).Some? && Rolls(contracts).Some?
    ensures var out := Series(contracts).value;
            var scales := Scales(contracts, Rolls(contracts).value);
            && InTimeOrder(out)
            && |out| == CountBars(contracts)
            && (forall b :: b in out ==> ComesFrom(contracts, scales, b))
            && (forall c, b :: c in contracts && b in c.bars ==>
                  exists scaled :: scaled in out && IsScaled(b, ScaleFor(scales, c.code), scaled))
            && (forall code :: ScaleFor(scales, code) > 0.0)
            && ((forall c :: c in contracts ==> forall b :: b in c.bars ==> Shaped(b)) ==>
                  forall b :: b in out ==> Shaped(b))
  {
    hide Rolls, Scales, Shaped, SortedByTime, AllScaled, IsScaled;
    ScalesArePositive(contracts);
    var scales := Scales(contracts, Rolls(contracts).value);
    var scaled := AllScaled(contracts, scales);
    AllScaledComeFrom(contracts, scales);
    SortIsStable(scaled);
    var out := SortedByTime(scaled);
    assert |multiset(out)| == |multiset(scaled)| && |out| == |scaled|;
    forall b | b in out
      ensures ComesFrom(contracts, scales, b)
      ensures (forall c :: c in contracts ==> forall x :: x in c.bars ==> Shaped(x)) ==> Shaped(b)
    {
      assert b in multiset(out) && b in scaled && ComesFrom(contracts, scales, b);
      var c, source :| c in contracts && source in c.bars && IsScaled(source, ScaleFor(scales, c.code), b);
      ScalingKeepsShape(source, ScaleFor(scales, c.code), b);
    }
    forall c, b | c in contracts && b in c.bars
      ensures exists x :: x in out && IsScaled(b, ScaleFor(scales, c.code), x)
    {
      EveryBarIsScaled(contracts, scales, c, b);
      var x :| x in scaled && IsScaled(b, ScaleFor(scales, c.code), x);
      assert x in multiset(scaled) && x in out;
    }
  }
}
