/** The 60-minute rolling cancel-to-fill ratio behind rule 7. */
module CancelTracker {
  import opened Types

  /** `Infinite` is the source's float("inf"): cancels but no fills in the window. */
  datatype Ratio = Finite(value: real) | Infinite
  {
    predicate Exceeds(threshold: real) {
      Infinite? || value > threshold
    }
  }

  datatype History = History(cancels: seq<int>, fills: seq<int>)

  /** The entries at or after `cutoff`, in order. */
  function Kept(times: seq<int>, cutoff: int): seq<int> {
    if times == [] then []
    else if times[0] >= cutoff then [times[0]] + Kept(times[1..], cutoff)
    else Kept(times[1..], cutoff)
  }

  function Pruned(h: History, cutoff: int): History {
    History(Kept(h.cancels, cutoff), Kept(h.fills, cutoff))
  }

  function RatioOf(h: History): Ratio {
    if h.fills == [] then (if h.cancels == [] then Finite(0.0) else Infinite)
    else Finite(|h.cancels| as real / |h.fills| as real)
  }

  // ---- Filtering laws -------------------------------------------------------

  lemma {:induction false} KeptTwice(times: seq<int>, early: int, late: int)
    requires early <= late
    ensures Kept(Kept(times, early), late) == Kept(times, late)
  {
    if times != [] {
      KeptTwice(times[1..], early, late);
    }
  }

  lemma {:induction false} KeptConcat(a: seq<int>, b: seq<int>, cutoff: int)
    ensures Kept(a + b, cutoff) == Kept(a, cutoff) + Kept(b, cutoff)
  {
    if a == [] {
      assert a + b == b;
    } else {
      assert (a + b)[1..] == a[1..] + b;
      KeptConcat(a[1..], b, cutoff);
    }
  }

  /** Entries at or after the cutoff. */
  function CountSince(times: seq<int>, cutoff: int): nat {
    if times == [] then 0
    else CountSince(times[..|times| - 1], cutoff) + (if times[|times| - 1] >= cutoff then 1 else 0)
  }

  lemma {:induction false} KeptCounts(times: seq<int>, cutoff: int)
    ensures |Kept(times, cutoff)| == CountSince(times, cutoff)
    decreases |times|
  {
    if times != [] {
      var front, last := times[..|times| - 1], times[|times| - 1];
      assert times == front + [last] && [last][1..] == [];
      KeptCounts(front, cutoff);
      KeptConcat(front, [last], cutoff);
    }
  }

  /** The ratio is over a threshold when the window's cancels are more than that many times its
      fills; without a fill any cancel is too many, and nothing at all never is. */
  lemma RatioInNumbers(h: History, cutoff: int, threshold: real)
    requires threshold >= 0.0
    ensures var cancels, fills := CountSince(h.cancels, cutoff), CountSince(h.fills, cutoff);
            RatioOf(Pruned(h, cutoff)).Exceeds(threshold)
            <==> if fills == 0 then cancels > 0 else cancels as real > threshold * fills as real
  {
    hide Kept, CountSince;
    KeptCounts(h.cancels, cutoff);
    KeptCounts(h.fills, cutoff);
    var cancels, fills := CountSince(h.cancels, cutoff), CountSince(h.fills, cutoff);
    if fills > 0 {
      QuotientExceeds(cancels as real, fills as real, threshold);
    }
  }

  lemma QuotientExceeds(x: real, y: real, threshold: real)
    requires y > 0.0
    ensures x / y > threshold <==> x > threshold * y
  {
    assert x / y * y == x;
    if x / y > threshold {
      assert (x / y - threshold) * y > 0.0;
    } else {
      assert (threshold - x / y) * y >= 0.0;
    }
  }

  // ---- The tracker against its full history ---------------------------------

  /** From `horizon` on, the two histories cannot be told apart. No horizon means no
      query has pruned anything yet. */
  ghost predicate Alike(pruned: History, full: History, horizon: Option<int>) {
    match horizon
    case None => pruned == full
    case Some(h) => forall c :: c >= h ==> Pruned(pruned, c) == Pruned(full, c)
  }

  lemma AlikeAfterCancel(pruned: History, full: History, horizon: Option<int>, at: int)
    requires Alike(pruned, full, horizon)
    ensures Alike(pruned.(cancels := pruned.cancels + [at]), full.(cancels := full.cancels + [at]), horizon)
  {
    if horizon.Some? {
      forall c | c >= horizon.value
        ensures Pruned(pruned.(cancels := pruned.cancels + [at]), c) == Pruned(full.(cancels := full.cancels + [at]), c)
      {
        assert Pruned(pruned, c) == Pruned(full, c);
        KeptConcat(pruned.cancels, [at], c);
        KeptConcat(full.cancels, [at], c);
      }
    }
  }

  lemma AlikeAfterFill(pruned: History, full: History, horizon: Option<int>, at: int)
    requires Alike(pruned, full, horizon)
    ensures Alike(pruned.(fills := pruned.fills + [at]), full.(fills := full.fills + [at]), horizon)
  {
    if horizon.Some? {
      forall c | c >= horizon.value
        ensures Pruned(pruned.(fills := pruned.fills + [at]), c) == Pruned(full.(fills := full.fills + [at]), c)
      {
        assert Pruned(pruned, c) == Pruned(full, c);
        KeptConcat(pruned.fills, [at], c);
        KeptConcat(full.fills, [at], c);
      }
    }
  }

  predicate Forward(horizon: Option<int>, cutoff: int) {
    horizon.Some? ==> horizon.value <= cutoff
  }

  /** A query whose cutoff does not go back prunes nothing a later query could need. */
  lemma AlikeAfterQuery(pruned: History, full: History, horizon: Option<int>, cutoff: int)
    requires Alike(pruned, full, horizon) && Forward(horizon, cutoff)
    ensures Pruned(pruned, cutoff) == Pruned(full, cutoff)
    ensures Alike(Pruned(pruned, cutoff), full, Some(cutoff))
  {
    forall c | c >= cutoff
      ensures Pruned(Pruned(pruned, cutoff), c) == Pruned(full, c)
    {
      KeptTwice(pruned.cancels, cutoff, c);
      KeptTwice(pruned.fills, cutoff, c);
    }
  }

  // ---- Whole interleavings --------------------------------------------------

  datatype Call = RecordedCancel(at: int) | RecordedFill(at: int) | Queried(now: int)

  /** Answers of the machine that throws old entries away at every query. */
  function PrunedAnswers(h: History, window: int, events: seq<Call>): seq<Ratio>
    decreases |events|
  {
    if events == [] then []
    else match events[0]
      case RecordedCancel(at) => PrunedAnswers(h.(cancels := h.cancels + [at]), window, events[1..])
      case RecordedFill(at) => PrunedAnswers(h.(fills := h.fills + [at]), window, events[1..])
      case Queried(now) =>
        var kept := Pruned(h, now - window);
        [RatioOf(kept)] + PrunedAnswers(kept, window, events[1..])
  }

  /** Answers of a machine that never forgets. */
  function FullAnswers(h: History, window: int, events: seq<Call>): seq<Ratio>
    decreases |events|
  {
    if events == [] then []
    else match events[0]
      case RecordedCancel(at) => FullAnswers(h.(cancels := h.cancels + [at]), window, events[1..])
      case RecordedFill(at) => FullAnswers(h.(fills := h.fills + [at]), window, events[1..])
      case Queried(now) => [RatioOf(Pruned(h, now - window))] + FullAnswers(h, window, events[1..])
  }

  predicate QueriesForward(horizon: Option<int>, window: int, events: seq<Call>)
    decreases |events|
  {
    if events == [] then true
    else match events[0]
      case Queried(now) =>
        Forward(horizon, now - window) && QueriesForward(Some(now - window), window, events[1..])
      case _ => QueriesForward(horizon, window, events[1..])
  }

  /** Pruning is invisible to any interleaving whose queries do not go back in time,
      however late or out of order the recorded events are. */
  lemma {:induction false} PruningIsInvisible(
    pruned: History, full: History, horizon: Option<int>, window: int, events: seq<Call>)
    requires Alike(pruned, full, horizon) && QueriesForward(horizon, window, events)
    ensures PrunedAnswers(pruned, window, events) == FullAnswers(full, window, events)
    decreases |events|
  {
    if events != [] {
      match events[0]
      case RecordedCancel(at) =>
        AlikeAfterCancel(pruned, full, horizon, at);
        PruningIsInvisible(pruned.(cancels := pruned.cancels + [at]), full.(cancels := full.cancels + [at]),
                           horizon, window, events[1..]);
      case RecordedFill(at) =>
        AlikeAfterFill(pruned, full, horizon, at);
        PruningIsInvisible(pruned.(fills := pruned.fills + [at]), full.(fills := full.fills + [at]),
                           horizon, window, events[1..]);
      case Queried(now) =>
        AlikeAfterQuery(pruned, full, horizon, now - window);
        PruningIsInvisible(Pruned(pruned, now - window), full, Some(now - window), window, events[1..]);
    }
  }

  /** And forward is exactly what it takes: two queries are answered from the full history
      whatever was recorded if and only if the second does not go back. */
  lemma ForwardIsExact(window: int, first: int, second: int)
    ensures (forall h: History :: PrunedAnswers(h, window, [Queried(first), Queried(second)])
                                  == FullAnswers(h, window, [Queried(first), Queried(second)]))
            <==> first <= second
  {
    var events := [Queried(first), Queried(second)];
    assert events[1..] == [Queried(second)];
    if first <= second {
      forall h: History
        ensures PrunedAnswers(h, window, events) == FullAnswers(h, window, events)
      {
        PruningIsInvisible(h, h, None, window, events);
      }
    } else {
      var h := History([second - window], []);
      BackwardQueryForgets(h, window, first, second);
      assert PrunedAnswers(h, window, events) != FullAnswers(h, window, events);
    }
  }

  /** A cancel the first query threw away is missed by a second query that goes back. */
  lemma BackwardQueryForgets(h: History, window: int, first: int, second: int)
    requires second < first && h == History([second - window], [])
    ensures PrunedAnswers(h, window, [Queried(first), Queried(second)]) == [Finite(0.0), Finite(0.0)]
    ensures FullAnswers(h, window, [Queried(first), Queried(second)]) == [Finite(0.0), Infinite]
  {
    var events := [Queried(first), Queried(second)];
    assert events[1..] == [Queried(second)] && events[1..][1..] == [];
    assert h.cancels[1..] == [];
    assert Pruned(h, first - window) == History([], []);
    assert Pruned(h, second - window) == h;
    assert PrunedAnswers(History([], []), window, events[1..]) == [Finite(0.0)];
    assert FullAnswers(h, window, events[1..]) == [Infinite];
  }

  // ---- The class ------------------------------------------------------------

  class RollingRatioTracker {
    const window: int
    var cancels: seq<int>
    var fills: seq<int>
    ghost var full: History          // everything ever recorded
    ghost var horizon: Option<int>   // cutoff of the latest query

    ghost predicate Valid()
      reads this
    {
      Alike(Lists(), full, horizon)
    }

    function Lists(): History
      reads this
    {
      History(cancels, fills)
    }

    constructor (window: int)
      ensures Valid() && this.window == window && Lists() == History([], []) == full && horizon == None
    {
      this.window := window;
      cancels, fills := [], [];
      full, horizon := History([], []), None;
    }

    method RecordCancel(at: int)
      modifies this
      ensures full == old(full).(cancels := old(full).cancels + [at]) && horizon == old(horizon)
      ensures Lists() == old(Lists()).(cancels := old(cancels) + [at])
      ensures old(Valid()) ==> Valid()
    {
      if Alike(Lists(), full, horizon) {
        AlikeAfterCancel(Lists(), full, horizon, at);
      }
      cancels := cancels + [at];
      full := full.(cancels := full.cancels + [at]);
    }

    method RecordFill(at: int)
      modifies this
      ensures full == old(full).(fills := old(full).fills + [at]) && horizon == old(horizon)
      ensures Lists() == old(Lists()).(fills := old(fills) + [at])
      ensures old(Valid()) ==> Valid()
    {
      if Alike(Lists(), full, horizon) {
        AlikeAfterFill(Lists(), full, horizon, at);
      }
      fills := fills + [at];
      full := full.(fills := full.fills + [at]);
    }

    /** The answer is the one the full history gives, provided time did not go back. */
    method RatioAt(now: int) returns (ratio: Ratio)
      modifies this
      ensures Lists() == Pruned(old(Lists()), now - window) && full == old(full)
      ensures ratio == RatioOf(Lists())
      ensures horizon == Some(now - window)
      ensures old(Valid()) && Forward(old(horizon), now - window)
              ==> Valid() && ratio == RatioOf(Pruned(full, now - window))
    {
      var cutoff := now - window;
      ghost var before := Lists();
      cancels := KeepFrom(cancels, cutoff);
      fills := KeepFrom(fills, cutoff);
      if Alike(before, full, horizon) && Forward(horizon, cutoff) {
        AlikeAfterQuery(before, full, horizon, cutoff);
      }
      horizon := Some(cutoff);
      if fills == [] {
        ratio := if cancels == [] then Finite(0.0) else Infinite;
      } else {
        ratio := Finite(|cancels| as real / |fills| as real);
      }
    }
  }

  method KeepFrom(times: seq<int>, cutoff: int) returns (kept: seq<int>)
    ensures kept == Kept(times, cutoff)
  {
    kept := [];
    for i := 0 to |times|
      invariant kept == Kept(times[..i], cutoff)
    {
      assert times[..i + 1] == times[..i] + [times[i]];
      KeptConcat(times[..i], [times[i]], cutoff);
      if times[i] >= cutoff {
        kept := kept + [times[i]];
      }
    }
    assert times[..|times|] == times;
  }
}
