/**
 * Bar indicators (Core/Indicators): each indicator keeps its own raw values, one per bar of
 * the input collection, and writes its output into the `Series` entry of the last point under
 * its name. The indicators are classes whose fields `Calculate` updates; the collection of
 * points is a value and `Calculate` returns it with the last point updated. Each output is
 * specified by a function whose properties are proved as lemmas.
 */
module Indicators {
  import opened Wrappers
  import opened Points
  import Calculation

  /** Every stored indicator point carries a close. */
  predicate Closed(values: seq<SeriesPoint>)
  {
    forall i :: 0 <= i < |values| ==> values[i].close.Some?
  }

  /** The closes of the stored points, as `Values.Select(o => o.Bar.Close.Value)`. */
  function Closes(values: seq<SeriesPoint>): (r: seq<real>)
    requires Closed(values)
    ensures |r| == |values| && forall i :: 0 <= i < |values| ==> r[i] == values[i].close.value
  {
    seq(|values|, i requires 0 <= i < |values| => values[i].close.value)
  }

  /**
   * The indicator's `Values` after keeping `p` for bar `count - 1`: the slot is appended when
   * missing and then overwritten; every other slot is kept.
   */
  function Stored(values: seq<SeriesPoint>, count: int, p: SeriesPoint): (r: seq<SeriesPoint>)
    requires 1 <= count <= |values| + 1
    ensures |r| == if count <= |values| then |values| else |values| + 1
    ensures r[count - 1] == p
    ensures forall i :: 0 <= i < |values| && i != count - 1 ==> r[i] == values[i]
  {
    var grown := if count - 1 < |values| then values else values + [p];
    grown[count - 1 := p]
  }

  /** Storing a point with a close keeps every stored point closed. */
  lemma StoredClosed(values: seq<SeriesPoint>, count: int, p: SeriesPoint)
    requires 1 <= count <= |values| + 1 && Closed(values) && p.close.Some?
    ensures Closed(Stored(values, count, p))
  {
    var r := Stored(values, count, p);
    forall i | 0 <= i < |r|
      ensures r[i].close.Some?
    {
      if i != count - 1 {
        assert r[i] == values[i];
      }
    }
  }

  /** The raw point an indicator keeps for a bar: the bar's time and time frame with the value as last and close. */
  function Raw(p: Point, v: real): SeriesPoint
  {
    SeriesPoint(p.time, p.timeFrame, Some(v), Some(v))
  }

  /** The point with its series entry `name` (the existing one or a new one) stamped with its time and the value `v`. */
  function Labelled(p: Point, name: string, v: real): (q: Point)
    ensures q.series.Keys == p.series.Keys + {name}
    ensures q.series[name].time == p.time && q.series[name].last == Some(v) && q.series[name].close == Some(v)
    ensures q.series[name].timeFrame == if name in p.series then p.series[name].timeFrame else None
    ensures forall k :: k in p.series && k != name ==> q.series[k] == p.series[k]
    ensures q.(series := p.series) == p
  {
    var entry := if name in p.series then p.series[name] else EmptySeries;
    p.(series := p.series[name := entry.(time := p.time, last := Some(v), close := Some(v))])
  }

  // ---------------------------------------------------------------- MovingAverageIndicator

  /** MovingAverageEnum: the price a moving average follows. */
  datatype AverageMode = Bid | Ask | Close

  /** The price the mode selects; the bar close unless the mode is Bid or Ask. */
  function Price(p: Point, mode: AverageMode): (r: Option<real>)
    ensures mode == Bid ==> r == p.bid
    ensures mode == Ask ==> r == p.ask
    ensures mode == Close ==> r == p.bar.close
  {
    match mode
    case Bid => p.bid
    case Ask => p.ask
    case Close => p.bar.close
  }

  /** The moving average's output: the linear-weighted average of the stored closes, or the raw price when that is 0. */
  function MovingAverageValue(closes: seq<real>, interval: int, price: real): real
  {
    var average := Calculation.LinearWeightAverageOf(closes, |closes| - 1, interval);
    if Compare(average, 0.0) then price else average
  }

  /** Until `interval` values are stored the moving average is the raw price. */
  lemma MovingAverageWarmup(closes: seq<real>, interval: int, price: real)
    requires !Calculation.Enough(|closes| - 1, interval)
    ensures MovingAverageValue(closes, interval, price) == price
  {
  }

  /**
   * The moving average stays within any bounds that hold the raw price (the newest stored
   * close) and the window of `interval` closes before it.
   */
  lemma MovingAverageBetween(closes: seq<real>, interval: int, price: real, lo: real, hi: real)
    requires lo <= price <= hi
    requires forall i :: 0 <= i < |closes| && |closes| - 1 - interval < i ==> lo <= closes[i] <= hi
    ensures lo <= MovingAverageValue(closes, interval, price) <= hi
  {
    if Calculation.Enough(|closes| - 1, interval) {
      Calculation.LinearWeightAverageBetween(closes, |closes| - 1, interval, lo, hi);
    }
  }

  /** MovingAverageIndicator. */
  class MovingAverage {
    var name: string
    var interval: int
    var mode: AverageMode
    var values: seq<SeriesPoint>
    var last: Option<real>
    var close: Option<real>

    predicate Valid()
      reads this
    {
      Closed(values)
    }

    constructor (name: string, interval: int, mode: AverageMode)
      ensures this.name == name && this.interval == interval && this.mode == mode
      ensures values == [] && last == None && close == None && Valid()
    {
      this.name := name;
      this.interval := interval;
      this.mode := mode;
      values := [];
      last := None;
      close := None;
    }

    /**
     * MovingAverageIndicator.Calculate: an empty collection changes nothing; otherwise the raw
     * price of the last point is kept at its bar and the output goes to the point's series
     * entry and to the indicator's own last and close.
     */
    method Calculate(collection: seq<Point>) returns (result: seq<Point>)
      requires Valid()
      requires |collection| > 0 ==> |collection| <= |values| + 1 && Price(collection[|collection| - 1], mode).Some?
      modifies this
      ensures Valid() && name == old(name) && interval == old(interval) && mode == old(mode)
      ensures |collection| == 0 ==> result == collection && values == old(values) && last == old(last) && close == old(close)
      ensures |collection| > 0 ==>
        var p := collection[|collection| - 1];
        var price := Price(p, mode).value;
        var v := MovingAverageValue(Closes(values), interval, price);
        && values == Stored(old(values), |collection|, Raw(p, price))
        && result == collection[|collection| - 1 := Labelled(p, name, v)]
        && last == Some(v) && close == Some(v)
    {
      if |collection| == 0 {
        return collection;
      }
      var p := collection[|collection| - 1];
      var price := Price(p, mode).value;
      StoredClosed(values, |collection|, Raw(p, price));
      values := Stored(values, |collection|, Raw(p, price));
      var average := Calculation.LinearWeightAverage(Closes(values), |values| - 1, interval);
      var v := if Compare(average, 0.0) then price else average;
      result := collection[|collection| - 1 := Labelled(p, name, v)];
      last, close := Some(v), Some(v);
    }
  }

  // ---------------------------------------------------------------- RelativeStrengthIndicator

  /** The number of bar-to-bar moves the RSI loop visits: `interval` of them, or all there are. */
  function Pairs(count: int, interval: int): (n: nat)
  {
    if interval <= 0 || count < 2 then 0 else if interval < count - 1 then interval else count - 1
  }

  /** The bars from `from` to the end carry a close. */
  predicate ClosesFrom(collection: seq<Point>, from: int)
  {
    forall j :: from <= j < |collection| && 0 <= j ==> collection[j].bar.close.Some?
  }

  /** The bars read by the last n moves carry a close. */
  predicate MovesClosed(collection: seq<Point>, n: nat)
  {
    n == 0 || (n < |collection| && ClosesFrom(collection, |collection| - 1 - n))
  }

  /** Fewer moves read fewer bars. */
  lemma MovesClosedFewer(collection: seq<Point>, n: nat, m: nat)
    requires MovesClosed(collection, n) && m <= n
    ensures MovesClosed(collection, m)
  {
  }

  /** Move k, counted from the newest: the change of close from bar `count - 2 - k` to bar `count - 1 - k`. */
  function Move(collection: seq<Point>, k: int): real
    requires 0 <= k && k + 2 <= |collection| && ClosesFrom(collection, |collection| - 2 - k)
  {
    collection[|collection| - 1 - k].bar.close.value - collection[|collection| - 2 - k].bar.close.value
  }

  /** The upward parts of the last n moves, newest first. */
  function Gains(collection: seq<Point>, n: nat): (r: seq<real>)
    requires MovesClosed(collection, n)
    ensures |r| == n
    ensures forall k :: 0 <= k < n ==> r[k] >= 0.0 && r[k] >= Move(collection, k)
  {
    seq(n, k requires 0 <= k < n && MovesClosed(collection, n) => Max(Move(collection, k), 0.0))
  }

  /** The downward parts of the last n moves, newest first. */
  function Losses(collection: seq<Point>, n: nat): (r: seq<real>)
    requires MovesClosed(collection, n)
    ensures |r| == n
    ensures forall k :: 0 <= k < n ==> r[k] >= 0.0 && r[k] >= -Move(collection, k)
  {
    seq(n, k requires 0 <= k < n && MovesClosed(collection, n) => Max(-Move(collection, k), 0.0))
  }

  /** Each move splits into a gain and a loss, at most one of them non-zero, whose difference is the move. */
  lemma MoveSplits(collection: seq<Point>, n: nat, k: int)
    requires MovesClosed(collection, n) && 0 <= k < n
    ensures Gains(collection, n)[k] - Losses(collection, n)[k] == Move(collection, k)
    ensures Gains(collection, n)[k] == 0.0 || Losses(collection, n)[k] == 0.0
  {
  }

  /** `100 - 100 / (1 + up / down)`, with the ratio taken as 1 when there is no average loss. */
  function Strength(up: real, down: real): (v: real)
    requires up >= 0.0 && down >= 0.0
    ensures 0.0 <= v < 100.0
  {
    var average := if Compare(down, 0.0) then 1.0 else up / down;
    assert average >= 0.0 by {
      if !Compare(down, 0.0) {
        Calculation.DivNonnegative(up, down);
      }
    }
    InverseBetween(1.0 + average);
    100.0 - 100.0 / (1.0 + average)
  }

  /** 100 / d lies in (0, 100] for d >= 1. */
  lemma InverseBetween(d: real)
    requires d >= 1.0
    ensures 0.0 < 100.0 / d <= 100.0
  {
    Calculation.DivBetween(100.0, d, 0.0, 100.0);
  }

  /**
   * With no average loss the strength is 50; with an average loss and no average gain it is 0;
   * with more average gain than average loss it is above 50, and with less it is below.
   */
  lemma StrengthCases(up: real, down: real)
    requires up >= 0.0 && down >= 0.0
    ensures down == 0.0 ==> Strength(up, down) == 50.0
    ensures down != 0.0 && up == 0.0 ==> Strength(up, down) == 0.0
    ensures down != 0.0 && up > down ==> Strength(up, down) > 50.0
    ensures down != 0.0 && up < down ==> Strength(up, down) < 50.0
  {
    if down != 0.0 {
      var r := up / down;
      if up > down {
        assert r > 1.0 by { Calculation.DivBetween(up, down, 1.0, r); assert r != 1.0; }
        Calculation.DivBetween(100.0, 1.0 + r, 0.0, 50.0);
        assert 100.0 / (1.0 + r) != 50.0;
      } else if up < down {
        assert r < 1.0 by { Calculation.DivBetween(up, down, 0.0, 1.0); assert r != 1.0; }
        Calculation.DivBetween(100.0, 1.0 + r, 50.0, 100.0);
        assert 100.0 / (1.0 + r) != 50.0;
      }
    }
  }

  /** RelativeStrengthIndicator's value: the strength of the simple averages of the last `interval` gains and losses. */
  function RelativeStrengthValue(collection: seq<Point>, interval: int): (v: real)
    requires MovesClosed(collection, Pairs(|collection|, interval))
    ensures 0.0 <= v < 100.0
  {
    var n := Pairs(|collection|, interval);
    var positives := Gains(collection, n);
    var negatives := Losses(collection, n);
    Calculation.SimpleAverageNonnegative(positives, n - 1, interval);
    Calculation.SimpleAverageNonnegative(negatives, n - 1, interval);
    Strength(Calculation.SimpleAverageOf(positives, n - 1, interval), Calculation.SimpleAverageOf(negatives, n - 1, interval))
  }

  /** The RSI loop: the gain and the loss of each of the last `interval` moves, newest first. */
  method Moves(collection: seq<Point>, interval: int) returns (positives: seq<real>, negatives: seq<real>)
    requires MovesClosed(collection, Pairs(|collection|, interval))
    ensures positives == Gains(collection, Pairs(|collection|, interval))
    ensures negatives == Losses(collection, Pairs(|collection|, interval))
  {
    var count := |collection|;
    positives, negatives := [], [];
    var i := 1;
    while i <= interval
      invariant 1 <= i <= if interval >= 1 then interval + 1 else 1
      invariant MovesClosed(collection, Pairs(count, i - 1))
      invariant positives == Gains(collection, Pairs(count, i - 1)) && negatives == Losses(collection, Pairs(count, i - 1))
    {
      if count - i - 1 >= 0 {
        var next, previous := collection[count - i], collection[count - i - 1];
        positives := positives + [Max(next.bar.close.value - previous.bar.close.value, 0.0)];
        negatives := negatives + [Max(previous.bar.close.value - next.bar.close.value, 0.0)];
      }
      MovesClosedFewer(collection, Pairs(count, interval), Pairs(count, i));
      i := i + 1;
    }
    assert Pairs(count, i - 1) == Pairs(count, interval);
  }

  /** The RSI computed as RelativeStrengthIndicator.Calculate does, before it is stored. */
  method RelativeStrengthOf(collection: seq<Point>, interval: int) returns (v: real)
    requires MovesClosed(collection, Pairs(|collection|, interval))
    ensures v == RelativeStrengthValue(collection, interval)
  {
    var positives, negatives := Moves(collection, interval);
    var averagePositive := Calculation.SimpleAverage(positives, |positives| - 1, interval);
    var averageNegative := Calculation.SimpleAverage(negatives, |negatives| - 1, interval);
    var average := if Compare(averageNegative, 0.0) then 1.0 else averagePositive / averageNegative;
    Calculation.SimpleAverageNonnegative(positives, |positives| - 1, interval);
    Calculation.SimpleAverageNonnegative(negatives, |negatives| - 1, interval);
    InverseBetween(1.0 + average);
    v := 100.0 - 100.0 / (1.0 + average);
  }

  /** RelativeStrengthIndicator. */
  class RelativeStrength {
    var name: string
    var interval: int
    var values: seq<SeriesPoint>
    var last: Option<real>
    var close: Option<real>

    constructor (name: string, interval: int)
      ensures this.name == name && this.interval == interval && values == [] && last == None && close == None
    {
      this.name := name;
      this.interval := interval;
      values := [];
      last := None;
      close := None;
    }

    /**
     * RelativeStrengthIndicator.Calculate: an empty collection changes nothing; otherwise the
     * RSI of the last `interval` moves is kept at the last bar and written to its series entry
     * and to the indicator's own last and close.
     */
    method Calculate(collection: seq<Point>) returns (result: seq<Point>)
      requires |collection| > 0 ==> interval >= 0 && |collection| <= |values| + 1 && MovesClosed(collection, Pairs(|collection|, interval))
      modifies this
      ensures name == old(name) && interval == old(interval)
      ensures |collection| == 0 ==> result == collection && values == old(values) && last == old(last) && close == old(close)
      ensures |collection| > 0 ==>
        var p := collection[|collection| - 1];
        var v := RelativeStrengthValue(collection, interval);
        && values == Stored(old(values), |collection|, Raw(p, v))
        && result == collection[|collection| - 1 := Labelled(p, name, v)]
        && last == Some(v) && close == Some(v)
    {
      if |collection| == 0 {
        return collection;
      }
      var p := collection[|collection| - 1];
      var v := RelativeStrengthOf(collection, interval);
      values := Stored(values, |collection|, Raw(p, v));
      result := collection[|collection| - 1 := Labelled(p, name, v)];
      last, close := Some(v), Some(v);
    }
  }

  // ---------------------------------------------------------------- AverageTrueRangeIndicator

  /**
   * The true range of a bar: from the lower of its low and the previous close to the higher of
   * its high and the previous close. For a bar with low <= high it is the largest of the bar's
   * own range and the two gaps from the previous close.
   */
  function TrueRange(high: real, low: real, previousClose: real): (r: real)
    ensures r >= high - low && r >= high - previousClose && r >= previousClose - low
    ensures low <= high ==> r >= 0.0 && r == Max(high - low, Max(Abs(high - previousClose), Abs(low - previousClose)))
  {
    Max(high, previousClose) - Min(low, previousClose)
  }

  /**
   * The value kept for a bar: once more than `interval` values are stored, the last stored value
   * weighted `max(interval - 1, 0)` plus the true range, over `interval`; before that the true range.
   */
  function AverageTrueRangeValue(values: seq<SeriesPoint>, interval: int, range: real): real
    requires Closed(values) && (|values| > interval ==> interval != 0 && |values| > 0)
  {
    if |values| > interval then
      (values[|values| - 1].close.value * (if interval - 1 > 0 then interval - 1 else 0) as real + range) / (interval as real)
    else range
  }

  /**
   * For a positive interval the smoothed value lies between the last stored value and the true
   * range, so non-negative ranges keep the indicator non-negative.
   */
  lemma AverageTrueRangeBetween(values: seq<SeriesPoint>, interval: int, range: real)
    requires Closed(values) && interval > 0
    ensures |values| <= interval ==> AverageTrueRangeValue(values, interval, range) == range
    ensures |values| > interval ==>
      var previous := values[|values| - 1].close.value;
      Min(range, previous) <= AverageTrueRangeValue(values, interval, range) <= Max(range, previous)
  {
    if |values| > interval {
      var previous := values[|values| - 1].close.value;
      var n := interval as real;
      assert (previous * (n - 1.0) + range) / n == previous + (range - previous) * (1.0 / n);
      Calculation.ConvexBetween(range, previous, 1.0 / n);
    }
  }

  /** Every stored value is non-negative. */
  predicate Nonnegative(values: seq<SeriesPoint>)
    requires Closed(values)
  {
    forall i :: 0 <= i < |values| ==> values[i].close.value >= 0.0
  }

  /** With a positive interval and bars whose low is at most their high, the stored values stay non-negative. */
  lemma AverageTrueRangeNonnegative(values: seq<SeriesPoint>, interval: int, count: int, p: Point, high: real, low: real, previousClose: real)
    requires Closed(values) && Nonnegative(values) && interval > 0 && low <= high && 1 <= count <= |values| + 1
    ensures var v := AverageTrueRangeValue(values, interval, TrueRange(high, low, previousClose));
      v >= 0.0 && Closed(Stored(values, count, Raw(p, v))) && Nonnegative(Stored(values, count, Raw(p, v)))
  {
    var v := AverageTrueRangeValue(values, interval, TrueRange(high, low, previousClose));
    AverageTrueRangeBetween(values, interval, TrueRange(high, low, previousClose));
    StoredClosed(values, count, Raw(p, v));
    var r := Stored(values, count, Raw(p, v));
    forall i | 0 <= i < |r|
      ensures r[i].close.value >= 0.0
    {
      if i != count - 1 {
        assert r[i] == values[i];
      }
    }
  }

  /** AverageTrueRangeIndicator. */
  class AverageTrueRange {
    var name: string
    var interval: int
    var values: seq<SeriesPoint>
    var last: Option<real>
    var close: Option<real>

    predicate Valid()
      reads this
    {
      Closed(values)
    }

    constructor (name: string, interval: int)
      ensures this.name == name && this.interval == interval
      ensures values == [] && last == None && close == None && Valid()
    {
      this.name := name;
      this.interval := interval;
      values := [];
      last := None;
      close := None;
    }

    /**
     * AverageTrueRangeIndicator.Calculate: fewer than two bars change nothing; otherwise the
     * (smoothed) true range of the last bar is kept at that bar and written to its series entry
     * and to the indicator's own last and close.
     */
    method Calculate(collection: seq<Point>) returns (result: seq<Point>)
      requires Valid()
      requires |collection| >= 2 ==>
        && |collection| <= |values| + 1
        && collection[|collection| - 1].bar.high.Some? && collection[|collection| - 1].bar.low.Some?
        && collection[|collection| - 2].bar.close.Some?
        && (|values| > interval ==> interval != 0 && |values| > 0)
      modifies this
      ensures Valid() && name == old(name) && interval == old(interval)
      ensures |collection| < 2 ==> result == collection && values == old(values) && last == old(last) && close == old(close)
      ensures |collection| >= 2 ==>
        var p := collection[|collection| - 1];
        var range := TrueRange(p.bar.high.value, p.bar.low.value, collection[|collection| - 2].bar.close.value);
        var v := AverageTrueRangeValue(old(values), interval, range);
        && values == Stored(old(values), |collection|, Raw(p, v))
        && result == collection[|collection| - 1 := Labelled(p, name, v)]
        && last == Some(v) && close == Some(v)
    {
      if |collection| < 2 {
        return collection;
      }
      var p, previous := collection[|collection| - 1], collection[|collection| - 2];
      var variance := Max(p.bar.high.value, previous.bar.close.value) - Min(p.bar.low.value, previous.bar.close.value);
      var v := variance;
      if |values| > interval {
        v := (values[|values| - 1].close.value * (if interval - 1 > 0 then interval - 1 else 0) as real + variance) / (interval as real);
      }
      StoredClosed(values, |collection|, Raw(p, v));
      values := Stored(values, |collection|, Raw(p, v));
      result := collection[|collection| - 1 := Labelled(p, name, v)];
      last, close := Some(v), Some(v);
    }
  }

  // ---------------------------------------------------------------- ImbalanceIndicator

  /** The imbalance of a quote: ask size minus bid size for direction 0, the ask size for 1, the bid size for -1, 0 otherwise. */
  function ImbalanceValue(p: Point, direction: int): real
    requires direction == 0 ==> p.askSize.Some? && p.bidSize.Some?
    requires direction == 1 ==> p.askSize.Some?
    requires direction == -1 ==> p.bidSize.Some?
  {
    if direction == 0 then p.askSize.value - p.bidSize.value
    else if direction == 1 then p.askSize.value
    else if direction == -1 then p.bidSize.value
    else 0.0
  }

  /** The two-sided imbalance is the ask side less the bid side, positive exactly when asks outweigh bids. */
  lemma ImbalanceSides(p: Point)
    requires p.askSize.Some? && p.bidSize.Some?
    ensures ImbalanceValue(p, 0) == ImbalanceValue(p, 1) - ImbalanceValue(p, -1)
    ensures ImbalanceValue(p, 0) > 0.0 <==> p.askSize.value > p.bidSize.value
    ensures ImbalanceValue(p, 0) < 0.0 <==> p.askSize.value < p.bidSize.value
  {
  }

  /** A direction other than -1, 0 and 1 gives 0 whatever the quote. */
  lemma ImbalanceOther(p: Point, q: Point, direction: int)
    requires direction != 0 && direction != 1 && direction != -1
    ensures ImbalanceValue(p, direction) == ImbalanceValue(q, direction) == 0.0
  {
  }

  /** The point with its series entry `name` replaced by the raw value (time, time frame, last and close). */
  function Framed(p: Point, name: string, v: real): (q: Point)
    ensures q.series == p.series[name := Raw(p, v)]
    ensures q.(series := p.series) == p
  {
    var labelled := Labelled(p, name, v);
    labelled.(series := labelled.series[name := labelled.series[name].(timeFrame := p.timeFrame)])
  }

  /** ImbalanceIndicator. */
  class Imbalance {
    var name: string
    var values: seq<SeriesPoint>
    var last: Option<real>
    var close: Option<real>

    constructor (name: string)
      ensures this.name == name && values == [] && last == None && close == None
    {
      this.name := name;
      values := [];
      last := None;
      close := None;
    }

    /**
     * ImbalanceIndicator.Calculate: an empty collection changes nothing; otherwise the imbalance
     * of the last quote in the given direction becomes its series entry, the indicator's last and
     * close, and the value kept at that bar.
     */
    method Calculate(collection: seq<Point>, direction: int) returns (result: seq<Point>)
      requires |collection| > 0 ==>
        && |collection| <= |values| + 1
        && (direction == 0 ==> collection[|collection| - 1].askSize.Some? && collection[|collection| - 1].bidSize.Some?)
        && (direction == 1 ==> collection[|collection| - 1].askSize.Some?)
        && (direction == -1 ==> collection[|collection| - 1].bidSize.Some?)
      modifies this
      ensures name == old(name)
      ensures |collection| == 0 ==> result == collection && values == old(values) && last == old(last) && close == old(close)
      ensures |collection| > 0 ==>
        var p := collection[|collection| - 1];
        var v := ImbalanceValue(p, direction);
        && result == collection[|collection| - 1 := Framed(p, name, v)]
        && values == Stored(old(values), |collection|, Raw(p, v))
        && last == Some(v) && close == Some(v)
    {
      if |collection| == 0 {
        return collection;
      }
      var p := collection[|collection| - 1];
      var value := 0.0;
      if direction == 0 {
        value := p.askSize.value - p.bidSize.value;
      } else if direction == 1 {
        value := p.askSize.value;
      } else if direction == -1 {
        value := p.bidSize.value;
      }
      result := collection[|collection| - 1 := Framed(p, name, value)];
      last, close := Some(value), Some(value);
      values := Stored(values, |collection|, Raw(p, value));
    }
  }

  // ---------------------------------------------------------------- ScaleIndicator

  /** The running minimum after seeing x: x at first, then the lower of the two. */
  function Lower(bound: Option<real>, x: real): (r: real)
    ensures r <= x && (bound.Some? ==> r <= bound.value)
    ensures r == x || (bound.Some? && r == bound.value)
  {
    if bound.None? then x else Min(bound.value, x)
  }

  /** The running maximum after seeing x: x at first, then the higher of the two. */
  function Upper(bound: Option<real>, x: real): (r: real)
    ensures r >= x && (bound.Some? ==> r >= bound.value)
    ensures r == x || (bound.Some? && r == bound.value)
  {
    if bound.None? then x else Max(bound.value, x)
  }

  /** x mapped linearly from [lowest, highest] onto [min, max]; 0 when the range is a single value. */
  function ScaleValue(lowest: real, highest: real, x: real, min: real, max: real): real
  {
    if Compare(lowest, highest) then 0.0 else min + (x - lowest) * (max - min) / (highest - lowest)
  }

  /**
   * The scaled value of a point inside the running range lies between Min and Max, with the
   * range's ends going to Min and Max; a range of one value gives 0.
   */
  lemma ScaleBetween(lowest: real, highest: real, x: real, min: real, max: real)
    requires lowest <= x <= highest
    ensures lowest == highest ==> ScaleValue(lowest, highest, x, min, max) == 0.0
    ensures lowest < highest ==> Min(min, max) <= ScaleValue(lowest, highest, x, min, max) <= Max(min, max)
    ensures lowest < highest && x == lowest ==> ScaleValue(lowest, highest, x, min, max) == min
    ensures lowest < highest && x == highest ==> ScaleValue(lowest, highest, x, min, max) == max
  {
    if lowest < highest {
      ScaleAsConvex(lowest, highest, x, min, max);
      Calculation.DivBetween(x - lowest, highest - lowest, 0.0, 1.0);
      if x == highest {
        DivSelf(highest - lowest);
      }
      if x > lowest {
        Calculation.DivNonnegative(x - lowest, highest - lowest);
        assert (x - lowest) / (highest - lowest) != 0.0;
        Calculation.ConvexBetween(max, min, (x - lowest) / (highest - lowest));
      } else {
        assert (x - lowest) / (highest - lowest) == 0.0;
      }
    }
  }

  /** Scaling is the convex step from Min towards Max by the point's share of the range. */
  lemma ScaleAsConvex(lowest: real, highest: real, x: real, min: real, max: real)
    requires lowest < highest
    ensures ScaleValue(lowest, highest, x, min, max) == min + (max - min) * ((x - lowest) / (highest - lowest))
  {
    MulDiv(x - lowest, max - min, highest - lowest);
  }

  lemma MulDiv(a: real, b: real, c: real)
    requires c != 0.0
    ensures a * b / c == b * (a / c)
  {
    assert a * b / c == b * a / c;
  }

  lemma DivSelf(a: real)
    requires a != 0.0
    ensures a / a == 1.0
  {
  }

  /** The range every value of a Scale indicator lies in: [Min, Max] widened to hold 0. */
  predicate InScale(v: real, min: real, max: real)
  {
    Min(0.0, Min(min, max)) <= v <= Max(0.0, Max(min, max))
  }

  /** ScaleIndicator. */
  class Scale {
    var name: string
    var interval: int
    var min: real
    var max: real
    var values: seq<SeriesPoint>
    var lowest: Option<real>
    var highest: Option<real>
    var last: Option<real>
    var close: Option<real>

    /** The running bounds appear together and are ordered; every kept value is in scale. */
    predicate Valid()
      reads this
    {
      && Closed(values)
      && (lowest.Some? <==> highest.Some?)
      && (lowest.Some? ==> lowest.value <= highest.value)
      && forall i :: 0 <= i < |values| ==> InScale(values[i].close.value, min, max)
    }

    constructor (name: string, interval: int, min: real, max: real)
      ensures this.name == name && this.interval == interval && this.min == min && this.max == max
      ensures values == [] && lowest == None && highest == None && last == None && close == None && Valid()
    {
      this.name := name;
      this.interval := interval;
      this.min := min;
      this.max := max;
      values := [];
      lowest := None;
      highest := None;
      last := None;
      close := None;
    }

    /**
     * ScaleIndicator.Calculate: an empty collection changes nothing; otherwise the last bar's
     * close (0 when missing) widens the running range, its scaled value is kept at that bar,
     * and the linear-weighted average of the kept values, which stays in scale, is written to
     * the series entry and the indicator's own last and close.
     */
    method Calculate(collection: seq<Point>) returns (result: seq<Point>)
      requires Valid()
      requires |collection| > 0 ==> |collection| <= |values| + 1
      modifies this
      ensures Valid() && name == old(name) && interval == old(interval) && min == old(min) && max == old(max)
      ensures |collection| == 0 ==>
        result == collection && values == old(values) && lowest == old(lowest) && highest == old(highest)
        && last == old(last) && close == old(close)
      ensures |collection| > 0 ==>
        var p := collection[|collection| - 1];
        var x := p.bar.close.OrElse(0.0);
        && lowest == Some(Lower(old(lowest), x)) && highest == Some(Upper(old(highest), x))
        && values == Stored(old(values), |collection|, Raw(p, ScaleValue(lowest.value, highest.value, x, min, max)))
        && var v := Calculation.LinearWeightAverageOf(Closes(values), |values| - 1, interval);
        && result == collection[|collection| - 1 := Labelled(p, name, v)]
        && last == Some(v) && close == Some(v)
        && InScale(v, min, max)
    {
      if |collection| == 0 {
        return collection;
      }
      var p := collection[|collection| - 1];
      var x := p.bar.close.OrElse(0.0);
      lowest := Some(Lower(lowest, x));
      highest := Some(Upper(highest, x));
      var next := ScaleValue(lowest.value, highest.value, x, min, max);
      ScaleBetween(lowest.value, highest.value, x, min, max);
      ghost var kept := values;
      StoredClosed(values, |collection|, Raw(p, next));
      values := Stored(values, |collection|, Raw(p, next));
      InScaleStored(kept, |collection|, Raw(p, next), min, max);
      var v := Calculation.LinearWeightAverage(Closes(values), |values| - 1, interval);
      InScaleAverage(values, interval, min, max);
      result := collection[|collection| - 1 := Labelled(p, name, v)];
      last, close := Some(v), Some(v);
    }
  }

  /** Storing an in-scale point keeps every stored value in scale. */
  lemma InScaleStored(values: seq<SeriesPoint>, count: int, p: SeriesPoint, min: real, max: real)
    requires 1 <= count <= |values| + 1 && Closed(values) && p.close.Some? && InScale(p.close.value, min, max)
    requires forall i :: 0 <= i < |values| ==> InScale(values[i].close.value, min, max)
    ensures Closed(Stored(values, count, p))
    ensures var r := Stored(values, count, p); forall i :: 0 <= i < |r| ==> InScale(r[i].close.value, min, max)
  {
    StoredClosed(values, count, p);
    var r := Stored(values, count, p);
    forall i | 0 <= i < |r|
      ensures InScale(r[i].close.value, min, max)
    {
      if i != count - 1 {
        assert r[i] == values[i];
      }
    }
  }

  /** The linear-weighted average of in-scale values is in scale. */
  lemma InScaleAverage(values: seq<SeriesPoint>, interval: int, min: real, max: real)
    requires Closed(values) && forall i :: 0 <= i < |values| ==> InScale(values[i].close.value, min, max)
    ensures InScale(Calculation.LinearWeightAverageOf(Closes(values), |values| - 1, interval), min, max)
  {
    var closes := Closes(values);
    if Calculation.Enough(|closes| - 1, interval) {
      Calculation.LinearWeightAverageBetween(closes, |closes| - 1, interval, Min(0.0, Min(min, max)), Max(0.0, Max(min, max)));
    }
  }
}
