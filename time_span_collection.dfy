/**
 * TimeSpanCollection (Core/Collections/TimeSpanCollection.cs): aggregates ticks into
 * bars, one bar per time frame, found through an index from the frame's start.
 */
module TimeSpanCollections {
  import opened Wrappers
  import opened Events
  import opened Points
  import opened Conversion
  import opened IndexCollections

  /**
   * CreateGroup: a tick with neither quote is kept as it is. Otherwise the new bar fills
   * each missing quote from the other and missing sizes with zero, opens and closes at the
   * previous bar's last price when there is one (else at the ask and at the bid), starts at
   * the beginning of the tick's frame and spans the two quotes.
   */
  function CreateGroup(next: Point, previous: Option<Point>, span: Option<int>): (g: Point)
    requires span != Some(0)
    ensures next.ask.None? && next.bid.None? ==> g == next
    ensures next.ask.Some? || next.bid.Some? ==>
      g.ask.Some? && g.bid.Some? && g.bar.low.Some? && g.bar.high.Some? && g.bar.open.Some? && g.bar.close.Some?
      && g.last.Some? && g.askSize.Some? && g.bidSize.Some?
      && g.time == Round(next.time, span) && g.timeFrame == span
  {
    if next.ask.None? && next.bid.None? then next
    else
      var ask := next.ask.Or(next.bid);
      var bid := next.bid.Or(next.ask);
      var open := next.bar.open.Or(if previous.Some? && previous.value.last.Some? then previous.value.last else ask);
      var close := next.bar.close.Or(if previous.Some? && previous.value.last.Some? then previous.value.last else bid);
      var low := next.bar.low.Or(Some(Min(bid.value, ask.value)));
      var high := next.bar.high.Or(Some(Max(ask.value, bid.value)));
      next.(
        askSize := next.askSize.Or(Some(0.0)),
        bidSize := next.bidSize.Or(Some(0.0)),
        ask := ask,
        bid := bid,
        last := next.last.Or(close),
        timeFrame := span,
        time := Round(next.time, span),
        bar := Bar(low, high, open, close))
  }

  /** A bar made from a raw tick (no bar fields of its own) spans exactly its two quotes. */
  lemma NewBarSpansQuotes(next: Point, previous: Option<Point>, span: Option<int>)
    requires span != Some(0) && next.bar == EmptyBar && next.last.None?
    requires next.ask.Some? || next.bid.Some?
    ensures var g := CreateGroup(next, previous, span);
      g.bar.low.value <= g.bid.value <= g.bar.high.value
      && g.bar.low.value <= g.ask.value <= g.bar.high.value
      && (g.bar.low.value == g.bid.value || g.bar.low.value == g.ask.value)
      && (g.bar.high.value == g.bid.value || g.bar.high.value == g.ask.value)
      && g.last == g.bar.close
      && (previous.Some? && previous.value.last.Some? ==> g.bar.open == g.bar.close == previous.value.last)
      && (previous.None? ==> g.bar.open == g.ask && g.bar.close == g.bid)
  {
  }

  /** UpdateGroup throws on `Bar.Low.Value` / `Bar.High.Value` when a two-sided tick meets a bar without a range. */
  predicate CanMerge(next: Point, group: Point)
  {
    next.ask.Some? && next.bid.Some? ==> group.bar.low.Some? && group.bar.high.Some?
  }

  /**
   * UpdateGroup: the bar takes the tick's quotes and last price and adds its sizes. With
   * both quotes present it widens its range to them, and a quote outside the old range
   * becomes the close (the high side winning when both sides break out).
   */
  function UpdateGroup(next: Point, group: Point): (g: Point)
    requires CanMerge(next, group)
    ensures g.time == group.time && g.timeFrame == group.timeFrame && g.bar.open == group.bar.open
    ensures g.ask == next.ask.Or(next.bid) && g.bid == next.bid.Or(next.ask)
    ensures g.last == g.bar.close
  {
    var lastPrice := next.last.Or(next.bar.close).Or(next.bid).Or(next.ask);
    var moved := group.(
      ask := next.ask.Or(next.bid),
      bid := next.bid.Or(next.ask),
      last := lastPrice,
      bar := group.bar.(close := lastPrice),
      askSize := AddOpt(group.askSize, Some(next.askSize.OrElse(0.0))),
      bidSize := AddOpt(group.bidSize, Some(next.bidSize.OrElse(0.0))));
    if next.ask.None? || next.bid.None? then moved
    else
      var min := Min(next.bid.value, next.ask.value);
      var max := Max(next.ask.value, next.bid.value);
      var c1 := if LeOpt(Some(min), moved.bar.low) && min != moved.bar.low.value then Some(min) else moved.bar.close;
      var c2 := if GeOpt(Some(max), moved.bar.high) && max != moved.bar.high.value then Some(max) else c1;
      moved.(
        last := c2,
        bar := Bar(Some(Min(moved.bar.low.value, min)), Some(Max(moved.bar.high.value, max)), moved.bar.open, c2))
  }

  /** Merging a two-sided tick widens the range to cover both quotes and keeps low <= high. */
  lemma MergeWidensRange(next: Point, group: Point)
    requires CanMerge(next, group) && next.ask.Some? && next.bid.Some?
    ensures var g := UpdateGroup(next, group);
      g.bar.low.value <= group.bar.low.value && g.bar.high.value >= group.bar.high.value
      && g.bar.low.value <= next.bid.value <= g.bar.high.value
      && g.bar.low.value <= next.ask.value <= g.bar.high.value
      && (group.bar.low.value <= group.bar.high.value ==> g.bar.low.value <= g.bar.high.value)
  {
  }

  /** Which price a merge closes the bar at. */
  lemma MergeClose(next: Point, group: Point)
    requires CanMerge(next, group)
    ensures var g := UpdateGroup(next, group);
      var plain := next.last.Or(next.bar.close).Or(next.bid).Or(next.ask);
      if next.ask.None? || next.bid.None? then g.bar.close == plain
      else
        var min := Min(next.bid.value, next.ask.value);
        var max := Max(next.ask.value, next.bid.value);
        if max > group.bar.high.value then g.bar.close == Some(max)
        else if min < group.bar.low.value then g.bar.close == Some(min)
        else g.bar.close == plain
  {
  }

  /** The bars and the index from frame start to bar position. */
  datatype Aggregate = Aggregate(bars: seq<Point>, indexes: map<nat, nat>)

  predicate IndexesInRange(a: Aggregate)
  {
    forall k :: k in a.indexes ==> a.indexes[k] < |a.bars|
  }

  /** What `Add(item, span)` demands of its inputs; each failure throws in the source. */
  predicate Addable(a: Aggregate, item: Point, span: Option<int>)
  {
    item.time.Some? && span.Some? && span.value != 0 && item.time.value - span.value >= 0
    && IndexesInRange(a)
    && var key := Round(item.time, span).value;
      key in a.indexes ==> CanMerge(item, a.bars[a.indexes[key]])
  }

  /** The state after TimeSpanCollection.Add. */
  function AddToFrame(a: Aggregate, item: Point, span: Option<int>): (r: Aggregate)
    requires Addable(a, item, span)
    ensures IndexesInRange(r)
  {
    var key := Round(item.time, span).value;
    var previousKey := Round(Some(item.time.value - span.value), span).value;
    if key in a.indexes then
      var i := a.indexes[key];
      Aggregate(a.bars[i := UpdateGroup(item, a.bars[i])], a.indexes)
    else
      var previous := if previousKey in a.indexes then Some(a.bars[a.indexes[previousKey]]) else None;
      Aggregate(a.bars + [CreateGroup(item, previous, span)], a.indexes[key := |a.bars|])
  }

  /**
   * A tick either merges into the bar of its frame, leaving the number of bars and the
   * index alone, or opens a new last bar indexed by its frame.
   */
  lemma AddToFrameShape(a: Aggregate, item: Point, span: Option<int>)
    requires Addable(a, item, span)
    ensures var key := Round(item.time, span).value;
      var r := AddToFrame(a, item, span);
      if key in a.indexes then
        |r.bars| == |a.bars| && r.indexes == a.indexes
        && forall i :: 0 <= i < |a.bars| && i != a.indexes[key] ==> r.bars[i] == a.bars[i]
      else
        |r.bars| == |a.bars| + 1 && r.bars[..|a.bars|] == a.bars && r.indexes == a.indexes[key := |a.bars|]
  {
  }

  /** Adds the ticks in order; `None` when one of them would make the source throw. */
  function AddEach(a: Aggregate, ticks: seq<Point>, span: Option<int>): Option<Aggregate>
    decreases |ticks|
  {
    if ticks == [] then Some(a)
    else if !Addable(a, ticks[0], span) then None
    else AddEach(AddToFrame(a, ticks[0], span), ticks[1..], span)
  }

  /** `new DateTime(2000, 1, 1).Ticks` and one second in ticks. */
  const Jan2000: nat := 630822816000000000
  const Second: nat := 10000000

  /** The six ticks of the aggregation tests (Evaluation/Collections/TimeSpanCollectionTests.cs). */
  function TestTicks(secondAsk: real): seq<Point>
  {
    [Tick(Jan2000, Some(0.0), Some(-1.0), None, None),
     Tick(Jan2000 + Second, Some(5.50), Some(secondAsk), None, None),
     Tick(Jan2000 + 2 * Second, Some(0.0), Some(0.0), None, None),
     Tick(Jan2000 + 3 * Second, Some(4.70), Some(4.75), None, None),
     Tick(Jan2000 + 4 * Second, Some(5.90), Some(6.505), None, None),
     Tick(Jan2000 + 4 * Second + 10000, Some(5.80), Some(6.00), None, None)]
  }

  predicate BarIs(b: Point, time: nat, low: real, high: real)
  {
    b.time == Some(time) && b.bar.low == Some(low) && b.bar.high == Some(high)
  }

  /** A raw two-sided tick in a frame without a bar opens a bar at the frame's start. */
  lemma OpensFrame(a: Aggregate, item: Point, span: Option<int>, key: nat)
    requires item.time.Some? && span.Some? && span.value != 0 && item.time.value - span.value >= 0
    requires IndexesInRange(a) && Round(item.time, span) == Some(key) && key !in a.indexes
    requires item.bar == EmptyBar && item.ask.Some? && item.bid.Some?
    ensures Addable(a, item, span)
    ensures var r := AddToFrame(a, item, span);
      |r.bars| == |a.bars| + 1 && r.bars[..|a.bars|] == a.bars && r.indexes == a.indexes[key := |a.bars|]
      && BarIs(r.bars[|a.bars|], key, Min(item.bid.value, item.ask.value), Max(item.ask.value, item.bid.value))
  {
  }

  /** A two-sided tick in a frame with a ranged bar widens that bar. */
  lemma MergesFrame(a: Aggregate, item: Point, span: Option<int>, key: nat)
    requires item.time.Some? && span.Some? && span.value != 0 && item.time.value - span.value >= 0
    requires IndexesInRange(a) && Round(item.time, span) == Some(key) && key in a.indexes
    requires item.ask.Some? && item.bid.Some?
    requires a.bars[a.indexes[key]].bar.low.Some? && a.bars[a.indexes[key]].bar.high.Some?
    ensures Addable(a, item, span)
    ensures var r := AddToFrame(a, item, span);
      var i, was := a.indexes[key], a.bars[a.indexes[key]];
      r.indexes == a.indexes && r.bars == a.bars[i := r.bars[i]]
      && r.bars[i].time == was.time
      && r.bars[i].bar.low == Some(Min(was.bar.low.value, Min(item.bid.value, item.ask.value)))
      && r.bars[i].bar.high == Some(Max(was.bar.high.value, Max(item.ask.value, item.bid.value)))
  {
  }

  lemma AddEachStep(a: Aggregate, ticks: seq<Point>, span: Option<int>)
    requires |ticks| > 0 && Addable(a, ticks[0], span)
    ensures AddEach(a, ticks, span) == AddEach(AddToFrame(a, ticks[0], span), ticks[1..], span)
  {
  }

  /** The first three ticks each open a one-second frame. */
  lemma OneSecondOpening() returns (a1: Aggregate, a2: Aggregate, a3: Aggregate)
    ensures var t, s, k0 := TestTicks(5.55), Some(Second), Jan2000;
      Addable(Aggregate([], map[]), t[0], s) && a1 == AddToFrame(Aggregate([], map[]), t[0], s)
      && Addable(a1, t[1], s) && a2 == AddToFrame(a1, t[1], s)
      && Addable(a2, t[2], s) && a3 == AddToFrame(a2, t[2], s)
      && |a3.bars| == 3 && a3.indexes == map[k0 := 0, k0 + Second := 1, k0 + 2 * Second := 2]
      && BarIs(a3.bars[0], k0, -1.0, 0.0) && BarIs(a3.bars[1], k0 + Second, 5.50, 5.55)
      && BarIs(a3.bars[2], k0 + 2 * Second, 0.0, 0.0)
      && a3.bars[0].bar.open == Some(-1.0) && a3.bars[0].bar.close == Some(0.0)
      && a3.bars[1].bar.open == Some(0.0) && a3.bars[1].bar.close == Some(0.0)
  {
    var t, s := TestTicks(5.55), Some(Second);
    var k0, k1, k2 := Jan2000, Jan2000 + Second, Jan2000 + 2 * Second;
    RoundUnique(k0, Second, k0);
    RoundUnique(k1, Second, k1);
    RoundUnique(k2, Second, k2);
    var a0 := Aggregate([], map[]);
    OpensFrame(a0, t[0], s, k0);
    a1 := AddToFrame(a0, t[0], s);
    assert a1.bars[0] == CreateGroup(t[0], None, s);
    NewBarSpansQuotes(t[0], None, s);
    OpensFrame(a1, t[1], s, k1);
    a2 := AddToFrame(a1, t[1], s);
    assert a2.bars[0] == a1.bars[0];
    assert a2.bars[1] == CreateGroup(t[1], Some(a1.bars[0]), s);
    NewBarSpansQuotes(t[1], Some(a1.bars[0]), s);
    OpensFrame(a2, t[2], s, k2);
    a3 := AddToFrame(a2, t[2], s);
    assert a3.bars[..2] == a2.bars;
  }

  /** The last three ticks: two more frames, the second one merging two ticks. */
  lemma OneSecondClosing(a3: Aggregate) returns (a4: Aggregate, a5: Aggregate, a6: Aggregate)
    requires var k0 := Jan2000;
      |a3.bars| == 3 && a3.indexes == map[k0 := 0, k0 + Second := 1, k0 + 2 * Second := 2]
    ensures var t, s, k0 := TestTicks(5.55), Some(Second), Jan2000;
      Addable(a3, t[3], s) && a4 == AddToFrame(a3, t[3], s)
      && Addable(a4, t[4], s) && a5 == AddToFrame(a4, t[4], s)
      && Addable(a5, t[5], s) && a6 == AddToFrame(a5, t[5], s)
      && |a6.bars| == 5 && a6.bars[..3] == a3.bars
      && BarIs(a6.bars[3], k0 + 3 * Second, 4.70, 4.75) && BarIs(a6.bars[4], k0 + 4 * Second, 5.80, 6.505)
  {
    var t, s := TestTicks(5.55), Some(Second);
    var k3, k4 := Jan2000 + 3 * Second, Jan2000 + 4 * Second;
    RoundUnique(k3, Second, k3);
    RoundUnique(k4, Second, k4);
    RoundUnique(k4 + 10000, Second, k4);
    OpensFrame(a3, t[3], s, k3);
    a4 := AddToFrame(a3, t[3], s);
    assert a4.bars[..3] == a3.bars;
    OpensFrame(a4, t[4], s, k4);
    a5 := AddToFrame(a4, t[4], s);
    assert a5.bars[..4] == a4.bars;
    assert a5.indexes[k4] == 4;
    MergesFrame(a5, t[5], s, k4);
    a6 := AddToFrame(a5, t[5], s);
    assert a6.bars[..4] == a5.bars[..4];
  }

  /**
   * The merge that throws is reachable: a tick with neither quote opens its frame's bar
   * unchanged, without a low or a high, and a two-sided tick in the same frame then
   * cannot be added.
   */
  lemma QuotelessBarBlocksMerge()
    ensures var a0, s, q := Aggregate([], map[]), Some(Second), Tick(Jan2000, None, None, None, None);
      Addable(a0, q, s)
      && var a1 := AddToFrame(a0, q, s);
      a1.bars == [q] && !Addable(a1, Tick(Jan2000, Some(1.0), Some(2.0), None, None), s)
  {
    RoundUnique(Jan2000, Second, Jan2000);
  }

  /**
   * One-second frames: five bars, one per second, the last one merging two ticks. The first
   * bar opens at the ask and closes at the bid; the second opens and closes at the first
   * bar's last price.
   */
  lemma OneSecondFrames()
    ensures var r := AddEach(Aggregate([], map[]), TestTicks(5.55), Some(Second));
      r.Some? && |r.value.bars| == 5
      && BarIs(r.value.bars[0], Jan2000, -1.0, 0.0)
      && BarIs(r.value.bars[1], Jan2000 + Second, 5.50, 5.55)
      && BarIs(r.value.bars[2], Jan2000 + 2 * Second, 0.0, 0.0)
      && BarIs(r.value.bars[3], Jan2000 + 3 * Second, 4.70, 4.75)
      && BarIs(r.value.bars[4], Jan2000 + 4 * Second, 5.80, 6.505)
      && r.value.bars[0].bar.open == Some(-1.0) && r.value.bars[0].bar.close == Some(0.0)
      && r.value.bars[1].bar.open == Some(0.0) && r.value.bars[1].bar.close == Some(0.0)
  {
    var t, s := TestTicks(5.55), Some(Second);
    var a1, a2, a3 := OneSecondOpening();
    var a4, a5, a6 := OneSecondClosing(a3);
    assert a6.bars[0] == a3.bars[0] && a6.bars[1] == a3.bars[1] && a6.bars[2] == a3.bars[2];
    OneSecondPrefix(a1, a2, a3);
    OneSecondSuffix(a3, a4, a5, a6);
  }

  lemma OneSecondPrefix(a1: Aggregate, a2: Aggregate, a3: Aggregate)
    requires var t, s := TestTicks(5.55), Some(Second);
      Addable(Aggregate([], map[]), t[0], s) && a1 == AddToFrame(Aggregate([], map[]), t[0], s)
      && Addable(a1, t[1], s) && a2 == AddToFrame(a1, t[1], s)
      && Addable(a2, t[2], s) && a3 == AddToFrame(a2, t[2], s)
    ensures AddEach(Aggregate([], map[]), TestTicks(5.55), Some(Second)) == AddEach(a3, TestTicks(5.55)[3..], Some(Second))
  {
    var t, s := TestTicks(5.55), Some(Second);
    AddEachStep(Aggregate([], map[]), t, s);
    AddEachStep(a1, t[1..], s);
    AddEachStep(a2, t[2..], s);
    assert t[1..][1..] == t[2..] && t[2..][1..] == t[3..];
  }

  lemma OneSecondSuffix(a3: Aggregate, a4: Aggregate, a5: Aggregate, a6: Aggregate)
    requires var t, s := TestTicks(5.55), Some(Second);
      Addable(a3, t[3], s) && a4 == AddToFrame(a3, t[3], s)
      && Addable(a4, t[4], s) && a5 == AddToFrame(a4, t[4], s)
      && Addable(a5, t[5], s) && a6 == AddToFrame(a5, t[5], s)
    ensures AddEach(a3, TestTicks(5.55)[3..], Some(Second)) == Some(a6)
  {
    var t, s := TestTicks(5.55), Some(Second);
    AddEachStep(a3, t[3..], s);
    AddEachStep(a4, t[4..], s);
    AddEachStep(a5, t[5..], s);
    assert t[3..][1..] == t[4..] && t[4..][1..] == t[5..] && t[5..][1..] == [];
  }

  /** Two-second frames: three bars, each merging two ticks. */
  lemma TwoSecondFrames()
    ensures var r := AddEach(Aggregate([], map[]), TestTicks(5.50), Some(2 * Second));
      r.Some? && |r.value.bars| == 3
      && BarIs(r.value.bars[0], Jan2000, -1.0, 5.50)
      && BarIs(r.value.bars[1], Jan2000 + 2 * Second, 0.0, 4.75)
      && BarIs(r.value.bars[2], Jan2000 + 4 * Second, 5.80, 6.505)
  {
    var t, s := TestTicks(5.50), Some(2 * Second);
    var k0, k2, k4 := Jan2000, Jan2000 + 2 * Second, Jan2000 + 4 * Second;
    RoundUnique(k0, 2 * Second, k0);
    RoundUnique(k0 + Second, 2 * Second, k0);
    RoundUnique(k2, 2 * Second, k2);
    RoundUnique(k2 + Second, 2 * Second, k2);
    RoundUnique(k4, 2 * Second, k4);
    RoundUnique(k4 + 10000, 2 * Second, k4);
    var a0 := Aggregate([], map[]);
    OpensFrame(a0, t[0], s, k0);
    var a1 := AddToFrame(a0, t[0], s);
    MergesFrame(a1, t[1], s, k0);
    var a2 := AddToFrame(a1, t[1], s);
    OpensFrame(a2, t[2], s, k2);
    var a3 := AddToFrame(a2, t[2], s);
    assert a3.bars[a3.indexes[k2]] == a3.bars[1];
    MergesFrame(a3, t[3], s, k2);
    var a4 := AddToFrame(a3, t[3], s);
    OpensFrame(a4, t[4], s, k4);
    var a5 := AddToFrame(a4, t[4], s);
    assert a5.bars[a5.indexes[k4]] == a5.bars[2];
    MergesFrame(a5, t[5], s, k4);
    var a6 := AddToFrame(a5, t[5], s);
    AddEachStep(a0, t, s);
    AddEachStep(a1, t[1..], s);
    AddEachStep(a2, t[2..], s);
    AddEachStep(a3, t[3..], s);
    AddEachStep(a4, t[4..], s);
    AddEachStep(a5, t[5..], s);
    assert t[1..][1..] == t[2..] && t[2..][1..] == t[3..] && t[3..][1..] == t[4..];
    assert t[4..][1..] == t[5..] && t[5..][1..] == [];
  }

  class TimeSpanCollection {
    const store: IndexCollection<Point>
    /** `_dateIndexes`: start of a frame to the position of its bar. */
    var dateIndexes: map<nat, nat>

    ghost function State(): Aggregate
      reads this, store
    {
      Aggregate(store.items, dateIndexes)
    }

    constructor ()
      ensures fresh(store) && State() == Aggregate([], map[]) && store.events == []
    {
      store := new IndexCollection<Point>();
      dateIndexes := map[];
    }

    /**
     * TimeSpanCollection.Add. A merge changes the stored bar in place and then writes it
     * back through the indexer, so the Update message names the merged bar as both its
     * Previous and its Next.
     */
    method Add(item: Point, span: Option<int>)
      requires Addable(State(), item, span)
      modifies this, store
      ensures State() == AddToFrame(old(State()), item, span)
      ensures var key := Round(item.time, span).value;
        key in old(dateIndexes) ==>
          var merged := store.items[dateIndexes[key]];
          store.events == old(store.events) + [
            OnItem(Message(Action.Update, Some(merged), Some(merged))),
            OnCollection(Message(Action.Update, None, Some(store.items)))]
      ensures var key := Round(item.time, span).value;
        key !in old(dateIndexes) ==>
          store.events == old(store.events) + CreateEvents(old(store.items), [store.items[|store.items| - 1]])
            + [OnCollection(Message(Create, None, Some(store.items)))]
    {
      var currentTime := Round(item.time, span).value;
      var previousTime := Round(Some(item.time.value - span.value), span).value;
      var previousGroup := if previousTime in dateIndexes then Some(store.At(dateIndexes[previousTime])) else None;
      if currentTime in dateIndexes {
        var currentIndex := dateIndexes[currentTime];
        var merged := UpdateGroup(item, store.At(currentIndex));
        store.Mutate(currentIndex, merged);
        store.Set(currentIndex, merged);
        return;
      }
      store.Add([CreateGroup(item, previousGroup, span)]);
      dateIndexes := dateIndexes[currentTime := store.Count() - 1];
    }
  }
}
