/** Bars built from ticks as they stream in, against bars built from all ticks at once. */
module Aggregator {
  import opened Types

  datatype Tick = Tick(price: real, size: int, instant: int)

  /** A bar of one interval; `start` is the interval's first instant. */
  datatype Candle = Candle(symbol: string, open: real, high: real, low: real, close: real, volume: int, start: int)

  const SECOND := 1_000_000

  datatype Interval = ONE_MINUTE | FIVE_MINUTES
  {
    function Seconds(): (s: int)
      ensures s > 0
    {
      if this == ONE_MINUTE then 60 else 300
    }

    function Micros(): (m: int)
      ensures m > 0
    {
      Seconds() * SECOND
    }
  }

  // ---- The floor --------------------------------------------------------------

  /** `int()` of the seconds since the epoch: toward zero, so up for instants before it. */
  function WholeSeconds(instant: int): int {
    if instant >= 0 then instant / SECOND else -(-instant / SECOND)
  }

  function FloorTo(instant: int, interval: Interval): int {
    WholeSeconds(instant) / interval.Seconds() * interval.Seconds() * SECOND
  }

  /** What rounding down to a boundary should be. */
  predicate IsFloor(floor: int, instant: int, interval: Interval) {
    floor % interval.Micros() == 0 && floor <= instant < floor + interval.Micros()
  }

  /** Before the epoch, within the second that precedes a boundary. */
  predicate JustBeforeOldBoundary(instant: int, interval: Interval) {
    instant < 0 && instant % SECOND != 0 && WholeSeconds(instant) % interval.Seconds() == 0
  }

  /** The code rounds down to the boundary for every instant since the epoch, and before it
      except in the last second before a boundary, where it rounds up. */
  lemma FloorIsExact(instant: int, interval: Interval)
    ensures IsFloor(FloorTo(instant, interval), instant, interval) <==> !JustBeforeOldBoundary(instant, interval)
    ensures instant >= 0 ==> IsFloor(FloorTo(instant, interval), instant, interval)
    ensures JustBeforeOldBoundary(instant, interval) ==> FloorTo(instant, interval) > instant
  {
    var whole, s := WholeSeconds(instant), interval.Seconds();
    FloorIsAligned(instant, interval);
    assert whole == whole / s * s + whole % s && 0 <= whole % s < s;
    if instant >= 0 {
      assert whole * SECOND <= instant < whole * SECOND + SECOND;
    } else {
      assert whole * SECOND - SECOND < instant <= whole * SECOND;
      assert instant == whole * SECOND <==> instant % SECOND == 0;
    }
  }

  lemma FloorIsAligned(instant: int, interval: Interval)
    ensures FloorTo(instant, interval) % interval.Micros() == 0
  {
    var k := WholeSeconds(instant) / interval.Seconds();
    if interval == ONE_MINUTE {
      assert FloorTo(instant, interval) == k * 60_000_000;
    } else {
      assert FloorTo(instant, interval) == k * 300_000_000;
    }
  }

  /** Even where it rounds up, the floor never runs backwards. */
  lemma FloorIsMonotone(a: int, b: int, interval: Interval)
    requires a <= b
    ensures FloorTo(a, interval) <= FloorTo(b, interval)
  {
    var s := interval.Seconds();
    var x, y := WholeSeconds(a), WholeSeconds(b);
    assert x <= y;
    assert x == x / s * s + x % s && y == y / s * s + y % s;
    assert x / s <= y / s;
  }

  // ---- Streaming ----------------------------------------------------------------

  datatype State = State(current: Option<Candle>, lastTick: Option<int>)

  const IDLE := State(None, None)

  datatype Fed = Closed(bar: Candle) | Open | OutOfOrder

  function Opened(symbol: string, t: Tick, start: int): Candle {
    Candle(symbol, t.price, t.price, t.price, t.price, t.size, start)
  }

  function Extended(c: Candle, t: Tick): Candle {
    c.(high := Max(c.high, t.price), low := Min(c.low, t.price), close := t.price, volume := c.volume + t.size)
  }

  predicate InOrder(st: State, t: Tick) {
    st.lastTick.Some? ==> st.lastTick.value < t.instant
  }

  function Feed(symbol: string, interval: Interval, st: State, t: Tick): (State, Fed) {
    if !InOrder(st, t) then (st, OutOfOrder)
    else
      var start := FloorTo(t.instant, interval);
      if st.current.None? then (State(Some(Opened(symbol, t, start)), Some(t.instant)), Open)
      else if start > st.current.value.start then
        (State(Some(Opened(symbol, t, start)), Some(t.instant)), Closed(st.current.value))
      else (State(Some(Extended(st.current.value, t)), Some(t.instant)), Open)
  }

  /** The bars a stream of ticks has closed, and the state it leaves; a rejected tick raises
      and is dropped. */
  function Streamed(symbol: string, interval: Interval, ticks: seq<Tick>): (seq<Candle>, State) {
    if ticks == [] then ([], IDLE)
    else
      var (bars, st) := Streamed(symbol, interval, ticks[..|ticks| - 1]);
      var (next, fed) := Feed(symbol, interval, st, ticks[|ticks| - 1]);
      (if fed.Closed? then bars + [fed.bar] else bars, next)
  }

  function WithCurrent(bars: seq<Candle>, st: State): seq<Candle> {
    if st.current.Some? then bars + [st.current.value] else bars
  }

  /** The closed bars and the one the final flush drains. */
  function StreamedBars(symbol: string, interval: Interval, ticks: seq<Tick>): seq<Candle> {
    var (bars, st) := Streamed(symbol, interval, ticks);
    WithCurrent(bars, st)
  }

  class BarAggregator {
    const symbol: string
    const interval: Interval
    var current: Option<Candle>
    var lastTickTs: Option<int>

    function Value(): State
      reads this
    {
      State(current, lastTickTs)
    }

    constructor (interval: Interval, symbol: string)
      ensures this.interval == interval && this.symbol == symbol && Value() == IDLE
    {
      this.interval, this.symbol := interval, symbol;
      current, lastTickTs := None, None;
    }

    method FeedTick(t: Tick) returns (fed: Fed)
      modifies this
      ensures (Value(), fed) == Feed(symbol, interval, old(Value()), t)
    {
      if lastTickTs.Some? && t.instant <= lastTickTs.value {
        return OutOfOrder;
      }
      lastTickTs := Some(t.instant);
      var barStart := FloorTo(t.instant, interval);
      if current.None? {
        current := Some(Opened(symbol, t, barStart));
        return Open;
      }
      if barStart > current.value.start {
        var closed := current.value;
        current := Some(Opened(symbol, t, barStart));
        return Closed(closed);
      }
      var cur := current.value;
      current := Some(Candle(cur.symbol, cur.open, Max(cur.high, t.price), Min(cur.low, t.price),
                             t.price, cur.volume + t.size, cur.start));
      return Open;
    }

    /** The last tick's time is kept: what is fed after a flush still has to be later. */
    method Flush() returns (out: Option<Candle>)
      modifies this
      ensures out == old(current) && Value() == old(Value()).(current := None)
    {
      out := current;
      current := None;
    }

    /** Feeds a whole stream through a fresh state and drains what is left. */
    method Drive(ticks: seq<Tick>) returns (bars: seq<Candle>)
      requires Value() == IDLE
      modifies this
      ensures bars == StreamedBars(symbol, interval, ticks)
    {
      hide Feed;
      bars := [];
      var i := 0;
      while i < |ticks|
        invariant 0 <= i <= |ticks|
        invariant (bars, Value()) == Streamed(symbol, interval, ticks[..i])
      {
        assert ticks[..i + 1][..i] == ticks[..i];
        var fed := FeedTick(ticks[i]);
        if fed.Closed? {
          bars := bars + [fed.bar];
        }
        i := i + 1;
      }
      assert ticks[..i] == ticks;
      var last := Flush();
      if last.Some? {
        bars := bars + [last.value];
      }
    }
  }

  // ---- Batch ----------------------------------------------------------------------

  /** The ticks a stream accepts: each later than every accepted one before it. */
  function Accepted(ticks: seq<Tick>): seq<Tick> {
    if ticks == [] then []
    else
      var before, t := Accepted(ticks[..|ticks| - 1]), ticks[|ticks| - 1];
      if before == [] || before[|before| - 1].instant < t.instant then before + [t] else before
  }

  predicate Increasing(ticks: seq<Tick>) {
    forall i, j :: 0 <= i < j < |ticks| ==> ticks[i].instant < ticks[j].instant
  }

  /** The distinct boundaries the ticks fall on, in order of appearance. */
  function Starts(ticks: seq<Tick>, interval: Interval): seq<int> {
    if ticks == [] then []
    else
      var before := Starts(ticks[..|ticks| - 1], interval);
      var start := FloorTo(ticks[|ticks| - 1].instant, interval);
      if start in before then before else before + [start]
  }

  /** The ticks of one interval, in order. */
  function Group(ticks: seq<Tick>, interval: Interval, start: int): seq<Tick> {
    if ticks == [] then []
    else
      var t := ticks[|ticks| - 1];
      Group(ticks[..|ticks| - 1], interval, start) + if FloorTo(t.instant, interval) == start then [t] else []
  }

  function Highest(group: seq<Tick>): real
    requires group != []
  {
    if |group| == 1 then group[0].price else Max(Highest(group[..|group| - 1]), group[|group| - 1].price)
  }

  function Lowest(group: seq<Tick>): real
    requires group != []
  {
    if |group| == 1 then group[0].price else Min(Lowest(group[..|group| - 1]), group[|group| - 1].price)
  }

  function Volume(group: seq<Tick>): int {
    if group == [] then 0 else Volume(group[..|group| - 1]) + group[|group| - 1].size
  }

  /** First, highest, lowest, last and total of a group. */
  function Summary(symbol: string, group: seq<Tick>, start: int): Candle
    requires group != []
  {
    Candle(symbol, group[0].price, Highest(group), Lowest(group), group[|group| - 1].price, Volume(group), start)
  }

  /** The highest and lowest prices of a group are prices of it that bound all the others. */
  lemma {:induction false} ExtremesBound(group: seq<Tick>)
    requires group != []
    ensures forall t :: t in group ==> Lowest(group) <= t.price <= Highest(group)
    ensures exists t :: t in group && t.price == Highest(group)
    ensures exists t :: t in group && t.price == Lowest(group)
    decreases |group|
  {
    var last := group[|group| - 1];
    if |group| > 1 {
      var front := group[..|group| - 1];
      ExtremesBound(front);
      assert group == front + [last];
      var h, l :| h in front && h.price == Highest(front) && l in front && l.price == Lowest(front);
      assert h in group && l in group && last in group;
    } else {
      assert group == [last] && last in group;
    }
  }

  /** `bars` is the batch grouping of `ticks`: one bar for each boundary, made of its group. */
  ghost predicate IsBatch(symbol: string, interval: Interval, ticks: seq<Tick>, bars: seq<Candle>) {
    var starts := Starts(ticks, interval);
    && |bars| == |starts|
    && forall i :: 0 <= i < |starts| ==>
         && Group(ticks, interval, starts[i]) != []
         && bars[i] == Summary(symbol, Group(ticks, interval, starts[i]), starts[i])
  }

  predicate Ascending(starts: seq<int>) {
    forall i, j :: 0 <= i < j < |starts| ==> starts[i] < starts[j]
  }

  lemma {:induction false} StartsAscend(ticks: seq<Tick>, interval: Interval)
    requires Increasing(ticks)
    ensures var starts := Starts(ticks, interval);
            && Ascending(starts)
            && (ticks != [] ==> starts != [] && starts[|starts| - 1] == FloorTo(ticks[|ticks| - 1].instant, interval))
    decreases |ticks|
  {
    hide FloorTo;
    if ticks != [] {
      var n := |ticks| - 1;
      var front, t := ticks[..n], ticks[n];
      StartsAscend(front, interval);
      if n > 0 {
        FloorIsMonotone(front[n - 1].instant, t.instant, interval);
      }
    }
  }

  lemma {:induction false} StartsAreFloors(ticks: seq<Tick>, interval: Interval, start: int)
    ensures start in Starts(ticks, interval) <==> Group(ticks, interval, start) != []
    ensures start in Starts(ticks, interval) ==> start % interval.Micros() == 0
    decreases |ticks|
  {
    hide FloorTo;
    if ticks != [] {
      var n := |ticks| - 1;
      StartsAreFloors(ticks[..n], interval, start);
      FloorIsAligned(ticks[n].instant, interval);
    }
  }

  lemma {:induction false} AcceptedIncrease(ticks: seq<Tick>)
    ensures Increasing(Accepted(ticks))
    decreases |ticks|
  {
    if ticks != [] {
      AcceptedIncrease(ticks[..|ticks| - 1]);
    }
  }

  /** Nothing is dropped from a stream that is already strictly increasing. */
  lemma {:induction false} IncreasingIsAccepted(ticks: seq<Tick>)
    requires Increasing(ticks)
    ensures Accepted(ticks) == ticks
    decreases |ticks|
  {
    if ticks != [] {
      var n := |ticks| - 1;
      IncreasingIsAccepted(ticks[..n]);
      assert ticks == ticks[..n] + [ticks[n]];
    }
  }

  // ---- Streaming equals batch -------------------------------------------------------

  lemma SummaryOfOne(symbol: string, t: Tick, start: int)
    ensures Summary(symbol, [t], start) == Opened(symbol, t, start)
  {
    assert [t][..|[t]| - 1] == [];
    assert Volume([t]) == Volume([]) + t.size;
  }

  lemma SummarySnoc(symbol: string, group: seq<Tick>, t: Tick, start: int)
    requires group != []
    ensures Summary(symbol, group + [t], start) == Extended(Summary(symbol, group, start), t)
  {
    assert (group + [t])[..|group|] == group;
  }

  lemma GroupsSnoc(ticks: seq<Tick>, t: Tick, interval: Interval)
    ensures forall s :: Group(ticks + [t], interval, s)
                     == Group(ticks, interval, s) + if FloorTo(t.instant, interval) == s then [t] else []
    ensures var starts := Starts(ticks, interval);
            var start := FloorTo(t.instant, interval);
            Starts(ticks + [t], interval) == if start in starts then starts else starts + [start]
  {
    var all := ticks + [t];
    assert all[..|all| - 1] == ticks && all[|all| - 1] == t;
  }

  /** One more tick, later than all before: either it opens a bar after the last, or it
      belongs to the last bar. */
  lemma BatchSnoc(symbol: string, interval: Interval, ticks: seq<Tick>, t: Tick, bars: seq<Candle>)
    requires Increasing(ticks + [t]) && IsBatch(symbol, interval, ticks, bars)
    ensures var start := FloorTo(t.instant, interval);
            if bars == [] || start > bars[|bars| - 1].start then
              IsBatch(symbol, interval, ticks + [t], bars + [Opened(symbol, t, start)])
            else IsBatch(symbol, interval, ticks + [t], bars[..|bars| - 1] + [Extended(bars[|bars| - 1], t)])
  {
    hide FloorTo, Summary, Opened, Extended, Group, Starts;
    var start := FloorTo(t.instant, interval);
    LaterTick(ticks, t);
    GroupsSnoc(ticks, t, interval);
    StartsAscend(ticks, interval);
    LastStart(symbol, interval, ticks, bars);
    var starts := Starts(ticks, interval);
    StartsAreFloors(ticks, interval, start);
    if start in starts {
      TickExtendsLast(symbol, interval, ticks, t, bars);
    } else {
      TickOpensNext(symbol, interval, ticks, t, bars);
      if bars != [] {
        FloorIsMonotone(ticks[|ticks| - 1].instant, t.instant, interval);
        assert starts[|starts| - 1] != start;
      }
    }
  }

  lemma TickOpensNext(symbol: string, interval: Interval, ticks: seq<Tick>, t: Tick, bars: seq<Candle>)
    requires IsBatch(symbol, interval, ticks, bars) && FloorTo(t.instant, interval) !in Starts(ticks, interval)
    ensures IsBatch(symbol, interval, ticks + [t], bars + [Opened(symbol, t, FloorTo(t.instant, interval))])
  {
    hide FloorTo, Summary, Opened, Group, Starts;
    var start, starts := FloorTo(t.instant, interval), Starts(ticks, interval);
    GroupsSnoc(ticks, t, interval);
    StartsAreFloors(ticks, interval, start);
    SummaryOfOne(symbol, t, start);
    assert Group(ticks + [t], interval, start) == [t];
    forall i | 0 <= i < |starts|
      ensures Group(ticks + [t], interval, starts[i]) == Group(ticks, interval, starts[i])
    {
      assert starts[i] != start;
    }
  }

  lemma TickExtendsLast(symbol: string, interval: Interval, ticks: seq<Tick>, t: Tick, bars: seq<Candle>)
    requires Increasing(ticks + [t])
    requires IsBatch(symbol, interval, ticks, bars) && FloorTo(t.instant, interval) in Starts(ticks, interval)
    ensures bars != [] && bars[|bars| - 1].start == FloorTo(t.instant, interval)
    ensures IsBatch(symbol, interval, ticks + [t], bars[..|bars| - 1] + [Extended(bars[|bars| - 1], t)])
  {
    hide FloorTo, Summary, Extended, Group, Starts, Increasing;
    var start, starts := FloorTo(t.instant, interval), Starts(ticks, interval);
    var last := |starts| - 1;
    GroupsSnoc(ticks, t, interval);
    OnlyLastStart(ticks, t, interval);
    SummaryStart(symbol, Group(ticks, interval, start), start);
    SummarySnoc(symbol, Group(ticks, interval, start), t, start);
    forall i | 0 <= i < last
      ensures Group(ticks + [t], interval, starts[i]) == Group(ticks, interval, starts[i])
    {
      assert Group(ticks, interval, starts[i]) + [] == Group(ticks, interval, starts[i]);
    }
    assert bars[last] == Summary(symbol, Group(ticks, interval, start), start);
  }

  /** Of the boundaries so far only the last can be a later tick's. */
  lemma OnlyLastStart(ticks: seq<Tick>, t: Tick, interval: Interval)
    requires Increasing(ticks + [t]) && FloorTo(t.instant, interval) in Starts(ticks, interval)
    ensures var starts := Starts(ticks, interval);
            && starts[|starts| - 1] == FloorTo(t.instant, interval)
            && forall i :: 0 <= i < |starts| - 1 ==> starts[i] != FloorTo(t.instant, interval)
  {
    hide FloorTo, Group, Starts;
    LaterTick(ticks, t);
    GroupsSnoc(ticks, t, interval);
    StartsAscend(ticks, interval);
    StartsAscend(ticks + [t], interval);
  }

  lemma LaterTick(ticks: seq<Tick>, t: Tick)
    requires Increasing(ticks + [t])
    ensures Increasing(ticks) && (ticks != [] ==> ticks[|ticks| - 1].instant < t.instant)
  {
    var all := ticks + [t];
    assert forall i :: 0 <= i < |ticks| ==> all[i] == ticks[i];
    assert all[|ticks|] == t;
  }

  lemma SummaryStart(symbol: string, group: seq<Tick>, start: int)
    requires group != []
    ensures Summary(symbol, group, start).start == start
  {
  }

  /** A batch's last bar starts where the last tick falls. */
  lemma LastStart(symbol: string, interval: Interval, ticks: seq<Tick>, bars: seq<Candle>)
    requires Increasing(ticks) && IsBatch(symbol, interval, ticks, bars)
    ensures bars == [] <==> ticks == []
    ensures bars != [] ==> bars[|bars| - 1].start == FloorTo(ticks[|ticks| - 1].instant, interval)
  {
    hide FloorTo, Group;
    StartsAscend(ticks, interval);
  }

  /** The stream remembers the time of the last accepted tick, and is inside a bar once any
      tick has been accepted. */
  lemma {:induction false} StreamState(symbol: string, interval: Interval, ticks: seq<Tick>)
    ensures var (bars, st) := Streamed(symbol, interval, ticks);
            var accepted := Accepted(ticks);
            && st.lastTick == (if accepted == [] then None else Some(accepted[|accepted| - 1].instant))
            && (st.current.None? <==> accepted == []) && (st.current.None? ==> bars == [])
    decreases |ticks|
  {
    hide FloorTo, Opened, Extended;
    if ticks != [] {
      StreamState(symbol, interval, ticks[..|ticks| - 1]);
    }
  }

  /** For every stream, in or out of order, across or after the epoch: the bars returned one
      by one, with the final flush, are the batch grouping of the accepted ticks. */
  lemma {:induction false} StreamingIsBatch(symbol: string, interval: Interval, ticks: seq<Tick>)
    ensures IsBatch(symbol, interval, Accepted(ticks), StreamedBars(symbol, interval, ticks))
    decreases |ticks|
  {
    hide IsBatch, Feed, Increasing;
    if ticks == [] {
      EmptyBatch(symbol, interval);
    } else {
      var front, t := ticks[..|ticks| - 1], ticks[|ticks| - 1];
      StreamingIsBatch(symbol, interval, front);
      StreamState(symbol, interval, front);
      var (bars, st) := Streamed(symbol, interval, front);
      AcceptedIncrease(ticks);
      if InOrder(st, t) {
        StreamStep(symbol, interval, bars, st, Accepted(front), t);
      } else {
        RejectedTick(symbol, interval, st, t);
      }
    }
  }

  lemma RejectedTick(symbol: string, interval: Interval, st: State, t: Tick)
    requires !InOrder(st, t)
    ensures Feed(symbol, interval, st, t) == (st, OutOfOrder)
  {
  }

  lemma StreamStep(symbol: string, interval: Interval, bars: seq<Candle>, st: State, accepted: seq<Tick>, t: Tick)
    requires InOrder(st, t) && Increasing(accepted + [t]) && IsBatch(symbol, interval, accepted, WithCurrent(bars, st))
    requires st.current.None? ==> bars == []
    ensures var (next, fed) := Feed(symbol, interval, st, t);
            IsBatch(symbol, interval, accepted + [t], WithCurrent(if fed.Closed? then bars + [fed.bar] else bars, next))
  {
    hide IsBatch, FloorTo, Opened, Extended, Increasing;
    BatchSnoc(symbol, interval, accepted, t, WithCurrent(bars, st));
    if st.current.Some? {
      var whole := bars + [st.current.value];
      assert whole[..|whole| - 1] == bars;
    } else {
      assert WithCurrent(bars, st) == [];
    }
  }

  lemma EmptyBatch(symbol: string, interval: Interval)
    ensures IsBatch(symbol, interval, [], [])
  {
  }

  // ---- What a batch looks like ------------------------------------------------------

  /** Bar times are on boundaries and strictly increasing. */
  lemma BatchIsAligned(symbol: string, interval: Interval, ticks: seq<Tick>, bars: seq<Candle>)
    requires Increasing(ticks) && IsBatch(symbol, interval, ticks, bars)
    ensures forall i :: 0 <= i < |bars| ==> bars[i].start % interval.Micros() == 0
    ensures forall i, j :: 0 <= i < j < |bars| ==> bars[i].start < bars[j].start
  {
    hide FloorTo, Group;
    StartsAscend(ticks, interval);
    var starts := Starts(ticks, interval);
    forall i | 0 <= i < |bars|
      ensures bars[i].start == starts[i] && bars[i].start % interval.Micros() == 0
    {
      StartsAreFloors(ticks, interval, starts[i]);
    }
  }

  /** The length of a bar in microseconds. */
  function Width(interval: Interval): int {
    match interval
    case ONE_MINUTE => 60_000_000
    case FIVE_MINUTES => 300_000_000
  }

  /** Since the epoch a bar is made of exactly the ticks of its own minute, or five minutes,
      the first instant included and the next bar's excluded. */
  lemma {:induction false} BarIsItsInterval(symbol: string, interval: Interval, ticks: seq<Tick>, bars: seq<Candle>,
                                            i: nat, t: Tick)
    requires IsBatch(symbol, interval, ticks, bars) && i < |bars|
    requires t in ticks && t.instant >= 0
    ensures bars[i].start % Width(interval) == 0
    ensures t in Group(ticks, interval, bars[i].start)
        <==> bars[i].start <= t.instant < bars[i].start + Width(interval)
  {
    hide Group, Starts;
    var starts := Starts(ticks, interval);
    SummaryStart(symbol, Group(ticks, interval, starts[i]), starts[i]);
    StartsAreFloors(ticks, interval, starts[i]);
    assert starts[i] in starts && interval.Micros() == Width(interval);
    GroupMembers(ticks, interval, starts[i], t);
    FloorIsExact(t.instant, interval);
    OneFloor(FloorTo(t.instant, interval), starts[i], t.instant, Width(interval));
  }

  lemma {:induction false} GroupMembers(ticks: seq<Tick>, interval: Interval, start: int, t: Tick)
    ensures t in Group(ticks, interval, start) <==> t in ticks && FloorTo(t.instant, interval) == start
    decreases |ticks|
  {
    hide FloorTo;
    if ticks != [] {
      var n := |ticks| - 1;
      assert ticks == ticks[..n] + [ticks[n]];
      GroupMembers(ticks[..n], interval, start, t);
    }
  }

  lemma OneFloor(floor: int, start: int, instant: int, width: int)
    requires width == 60_000_000 || width == 300_000_000
    requires floor % width == 0 && start % width == 0 && floor <= instant < floor + width
    ensures start == floor <==> start <= instant < start + width
  {
    if width == 60_000_000 {
      assert floor % 60_000_000 == 0 && start % 60_000_000 == 0;
    } else {
      assert floor % 300_000_000 == 0 && start % 300_000_000 == 0;
    }
  }

  /** The groups of the bars, one after the other. */
  function Flattened(ticks: seq<Tick>, interval: Interval, starts: seq<int>): seq<Tick> {
    if starts == [] then []
    else Flattened(ticks, interval, starts[..|starts| - 1]) + Group(ticks, interval, starts[|starts| - 1])
  }

  lemma {:induction false} FlattenedIgnores(ticks: seq<Tick>, t: Tick, interval: Interval, starts: seq<int>)
    requires FloorTo(t.instant, interval) !in starts
    ensures Flattened(ticks + [t], interval, starts) == Flattened(ticks, interval, starts)
    decreases |starts|
  {
    hide FloorTo;
    if starts != [] {
      assert (ticks + [t])[..|ticks|] == ticks;
      FlattenedIgnores(ticks, t, interval, starts[..|starts| - 1]);
    }
  }

  /** The bars split the ticks: their groups, in order, are exactly the ticks, so every tick
      is in one bar and one only. */
  lemma {:induction false} BarsSplitTicks(ticks: seq<Tick>, interval: Interval)
    requires Increasing(ticks)
    ensures Flattened(ticks, interval, Starts(ticks, interval)) == ticks
    decreases |ticks|
  {
    hide FloorTo, Group, Starts;
    if ticks == [] {
      NoStarts(interval);
    } else {
      var n := |ticks| - 1;
      var front, t := ticks[..n], ticks[n];
      assert ticks == front + [t];
      BarsSplitTicks(front, interval);
      StartsAscend(ticks, interval);
      GroupsSnoc(front, t, interval);
      var before, starts := Starts(front, interval), Starts(ticks, interval);
      var start, last := FloorTo(t.instant, interval), |starts| - 1;
      assert starts == starts[..last] + [start];
      assert start !in starts[..last];
      FlattenedIgnores(front, t, interval, starts[..last]);
      StartsAreFloors(front, interval, start);
      SplitSnoc(Flattened(front, interval, starts[..last]), Group(front, interval, start), t);
      if start !in before {
        assert starts[..last] == before;
        assert Group(front, interval, start) == [];
      }
    }
  }

  lemma NoStarts(interval: Interval)
    ensures Starts([], interval) == []
  {
  }

  lemma SplitSnoc(xs: seq<Tick>, group: seq<Tick>, t: Tick)
    ensures xs + (group + [t]) == xs + group + [t]
  {
  }
}
