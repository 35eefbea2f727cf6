/**
 * CalculationManager (Core/Managers/CalculationManager.cs): moving averages over a series
 * of doubles, read at `index` over the last `interval` values. The loops of the source are
 * methods proved against the specification functions below; the averages' properties are
 * lemmas about those functions.
 */
module Calculation {
  import opened Wrappers

  /** Sum of a sequence, first element first. */
  function Sum(s: seq<real>): real
  {
    if s == [] then 0.0 else s[0] + Sum(s[1..])
  }

  /** Sum of `s[k] * (k + 1)`: the oldest value weighs 1 and the newest `|s|`. */
  function WeightedSum(s: seq<real>): real
  {
    if s == [] then 0.0 else WeightedSum(s[..|s| - 1]) + s[|s| - 1] * (|s| as real)
  }

  /** 1 + 2 + ... + n, the total weight of a window of n values. */
  function Triangle(n: nat): nat
  {
    if n == 0 then 0 else Triangle(n - 1) + n
  }

  /** There are `interval` values ending at `index`. */
  predicate Enough(index: int, interval: int)
  {
    interval > 0 && index >= interval - 1
  }

  /** The `interval` values ending at `index`, oldest first. */
  function Window(xs: seq<real>, index: int, interval: int): (w: seq<real>)
    requires Enough(index, interval) && index < |xs|
    ensures |w| == interval
  {
    xs[index - interval + 1..index + 1]
  }

  /** SimpleAverage: the mean of the window, or 0 without enough data. */
  function SimpleAverageOf(xs: seq<real>, index: int, interval: int): real
    requires Enough(index, interval) ==> index < |xs|
  {
    if Enough(index, interval) then Sum(Window(xs, index, interval)) / (interval as real) else 0.0
  }

  /** LinearWeightAverage: the window weighted 1..interval, newest heaviest, over the total weight. */
  function LinearWeightAverageOf(xs: seq<real>, index: int, interval: int): real
    requires Enough(index, interval) ==> index < |xs|
  {
    if Enough(index, interval) then WeightedSum(Window(xs, index, interval)) / (Triangle(interval) as real) else 0.0
  }

  /** SmoothAverage: the simple mean at the first full window, then `(previous * (n - 1) + x) / n`. */
  function SmoothAverageOf(xs: seq<real>, index: int, interval: int, previous: real): real
    requires interval > 0 && index >= interval - 1 ==> index < |xs|
  {
    if interval <= 0 then 0.0
    else if index == interval - 1 then Sum(Window(xs, index, interval)) / (interval as real)
    else if index >= interval then (previous * ((interval - 1) as real) + xs[index]) / (interval as real)
    else 0.0
  }

  /** The sum of the window; the loop shared by SimpleAverage and SmoothAverage. */
  method WindowSum(collection: seq<real>, index: int, interval: int) returns (v: real)
    requires Enough(index, interval) && index < |collection|
    ensures v == Sum(Window(collection, index, interval))
  {
    v := 0.0;
    var i := 0;
    while i < interval
      invariant 0 <= i <= interval
      invariant v == Sum(collection[index - i + 1..index + 1])
    {
      var s := collection[index - i..index + 1];
      assert s[0] == collection[index - i] && s[1..] == collection[index - i + 1..index + 1];
      v := v + collection[index - i];
      i := i + 1;
    }
  }

  /** CalculationManager.SimpleAverage. An index past the end of the series throws in the source. */
  method SimpleAverage(collection: seq<real>, index: int, interval: int) returns (v: real)
    requires Enough(index, interval) ==> index < |collection|
    ensures v == SimpleAverageOf(collection, index, interval)
  {
    v := 0.0;
    if interval > 0 && index >= interval - 1 {
      v := WindowSum(collection, index, interval);
      v := v / interval as real;
    }
  }

  /** CalculationManager.ExponentialAverage: a convex combination of the value at `index` and `previous`. */
  function ExponentialAverage(collection: seq<real>, index: int, interval: int, previous: real): (v: real)
    requires interval > 0 ==> 0 <= index < |collection|
    ensures interval <= 0 ==> v == 0.0
    ensures interval > 0 ==> Min(collection[index], previous) <= v <= Max(collection[index], previous)
    ensures interval > 0 && collection[index] == previous ==> v == previous
  {
    if interval > 0 then
      var pr := 2.0 / (interval as real + 1.0);
      var x := collection[index];
      assert x * pr + previous * (1.0 - pr) == previous + (x - previous) * pr;
      ConvexBetween(x, previous, pr);
      x * pr + previous * (1.0 - pr)
    else 0.0
  }

  /** CalculationManager.SmoothAverage. */
  method SmoothAverage(collection: seq<real>, index: int, interval: int, previous: real) returns (v: real)
    requires interval > 0 && index >= interval - 1 ==> index < |collection|
    ensures v == SmoothAverageOf(collection, index, interval, previous)
  {
    v := 0.0;
    if interval > 0 {
      if index == interval - 1 {
        v := WindowSum(collection, index, interval);
        v := v / interval as real;
      }
      if index >= interval {
        v := (previous * (interval - 1) as real + collection[index]) / interval as real;
      }
    }
  }

  /** CalculationManager.LinearWeightAverage: the weights run down from `interval` to 1 while the values run forward. */
  method LinearWeightAverage(collection: seq<real>, index: int, interval: int) returns (v: real)
    requires Enough(index, interval) ==> index < |collection|
    ensures v == LinearWeightAverageOf(collection, index, interval)
  {
    v := 0.0;
    var sum := 0.0;
    var wsum := 0.0;
    if interval > 0 && index >= interval - 1 {
      ghost var w := Window(collection, index, interval);
      var i := interval;
      while i > 0
        invariant 0 <= i <= interval
        invariant sum == WeightedSum(w[..interval - i])
        invariant wsum == (Triangle(interval) - Triangle(i)) as real
      {
        var j := interval - i;
        assert w[..j + 1][..j] == w[..j] && w[j] == collection[index - i + 1];
        wsum := wsum + i as real;
        sum := sum + collection[index - i + 1] * (interval - i + 1) as real;
        i := i - 1;
      }
      assert w[..interval] == w;
      TrianglePositive(interval);
      v := sum / wsum;
    }
  }

  lemma TrianglePositive(n: nat)
    requires n > 0
    ensures Triangle(n) > 0
  {
  }

  /** `y + (x - y) * p` lies between x and y for a weight p in (0, 1]. */
  lemma ConvexBetween(x: real, y: real, p: real)
    requires 0.0 < p <= 1.0
    ensures Min(x, y) <= y + (x - y) * p <= Max(x, y)
  {
    if x >= y {
      MulNonnegative(x - y, p);
      MulNonnegative(x - y, 1.0 - p);
    } else {
      MulNonnegative(y - x, p);
      MulNonnegative(y - x, 1.0 - p);
    }
  }

  lemma MulNonnegative(a: real, b: real)
    requires a >= 0.0 && b >= 0.0
    ensures a * b >= 0.0
  {
  }

  /** A quotient lies between lo and hi when the dividend lies between lo and hi times the positive divisor. */
  lemma DivBetween(a: real, b: real, lo: real, hi: real)
    requires b > 0.0 && lo * b <= a <= hi * b
    ensures lo <= a / b <= hi
  {
    assert a / b - lo == (a - lo * b) / b;
    assert hi - a / b == (hi * b - a) / b;
    DivNonnegative(a - lo * b, b);
    DivNonnegative(hi * b - a, b);
  }

  lemma DivNonnegative(a: real, b: real)
    requires a >= 0.0 && b > 0.0
    ensures a / b >= 0.0
  {
  }

  lemma MulPositive(a: real, b: real)
    requires a > 0.0 && b > 0.0
    ensures a * b > 0.0
  {
  }

  /** A sum of n values between lo and hi lies between n * lo and n * hi. */
  lemma {:induction false} SumBetween(s: seq<real>, lo: real, hi: real)
    requires forall i :: 0 <= i < |s| ==> lo <= s[i] <= hi
    ensures (|s| as real) * lo <= Sum(s) <= (|s| as real) * hi
  {
    if s != [] {
      SumBetween(s[1..], lo, hi);
      assert (|s| as real) * lo == lo + ((|s| - 1) as real) * lo;
      assert (|s| as real) * hi == hi + ((|s| - 1) as real) * hi;
    }
  }

  /** A sum of non-negative values is non-negative. */
  lemma {:induction false} SumNonnegative(s: seq<real>)
    requires forall i :: 0 <= i < |s| ==> s[i] >= 0.0
    ensures Sum(s) >= 0.0
  {
    if s != [] {
      SumNonnegative(s[1..]);
    }
  }

  /** A weighted sum of values between lo and hi lies between Triangle(n) * lo and Triangle(n) * hi. */
  lemma {:induction false} WeightedSumBetween(s: seq<real>, lo: real, hi: real)
    requires forall i :: 0 <= i < |s| ==> lo <= s[i] <= hi
    ensures (Triangle(|s|) as real) * lo <= WeightedSum(s) <= (Triangle(|s|) as real) * hi
  {
    if s != [] {
      var n := |s|;
      WeightedSumBetween(s[..n - 1], lo, hi);
      MulNonnegative(s[n - 1] - lo, n as real);
      MulNonnegative(hi - s[n - 1], n as real);
      assert (Triangle(n) as real) * lo == (Triangle(n - 1) as real) * lo + (n as real) * lo;
      assert (Triangle(n) as real) * hi == (Triangle(n - 1) as real) * hi + (n as real) * hi;
    }
  }

  /** SimpleAverage lies between the least and the greatest value of the window. */
  lemma SimpleAverageBetween(xs: seq<real>, index: int, interval: int, lo: real, hi: real)
    requires Enough(index, interval) && index < |xs|
    requires forall i :: index - interval < i <= index ==> lo <= xs[i] <= hi
    ensures lo <= SimpleAverageOf(xs, index, interval) <= hi
  {
    var w := Window(xs, index, interval);
    assert forall i :: 0 <= i < |w| ==> w[i] == xs[index - interval + 1 + i];
    SumBetween(w, lo, hi);
    DivBetween(Sum(w), interval as real, lo, hi);
  }

  /** SimpleAverage of non-negative values is non-negative. */
  lemma SimpleAverageNonnegative(xs: seq<real>, index: int, interval: int)
    requires Enough(index, interval) ==> index < |xs|
    requires forall i :: 0 <= i < |xs| ==> xs[i] >= 0.0
    ensures SimpleAverageOf(xs, index, interval) >= 0.0
  {
    if Enough(index, interval) {
      var w := Window(xs, index, interval);
      assert forall i :: 0 <= i < |w| ==> w[i] == xs[index - interval + 1 + i];
      SumNonnegative(w);
      DivNonnegative(Sum(w), interval as real);
    }
  }

  /** LinearWeightAverage lies between the least and the greatest value of the window. */
  lemma LinearWeightAverageBetween(xs: seq<real>, index: int, interval: int, lo: real, hi: real)
    requires Enough(index, interval) && index < |xs|
    requires forall i :: index - interval < i <= index ==> lo <= xs[i] <= hi
    ensures lo <= LinearWeightAverageOf(xs, index, interval) <= hi
  {
    var w := Window(xs, index, interval);
    assert forall i :: 0 <= i < |w| ==> w[i] == xs[index - interval + 1 + i];
    WeightedSumBetween(w, lo, hi);
    TrianglePositive(interval);
    DivBetween(WeightedSum(w), Triangle(interval) as real, lo, hi);
  }

  /** On a series constant over the window, SimpleAverage and LinearWeightAverage return the constant. */
  lemma ConstantWindow(xs: seq<real>, index: int, interval: int, c: real)
    requires Enough(index, interval) && index < |xs|
    requires forall i :: index - interval < i <= index ==> xs[i] == c
    ensures SimpleAverageOf(xs, index, interval) == c
    ensures LinearWeightAverageOf(xs, index, interval) == c
  {
    SimpleAverageBetween(xs, index, interval, c, c);
    LinearWeightAverageBetween(xs, index, interval, c, c);
  }

  /** At the first full window SmoothAverage is the simple mean; afterwards it lies between `previous` and the new value. */
  lemma SmoothAverageFacts(xs: seq<real>, index: int, interval: int, previous: real)
    requires interval > 0 && index >= interval - 1 && index < |xs|
    ensures index == interval - 1 ==> SmoothAverageOf(xs, index, interval, previous) == SimpleAverageOf(xs, index, interval)
    ensures index >= interval ==>
      Min(xs[index], previous) <= SmoothAverageOf(xs, index, interval, previous) <= Max(xs[index], previous)
    ensures index >= interval && xs[index] == previous ==> SmoothAverageOf(xs, index, interval, previous) == previous
  {
    if index >= interval {
      var n := interval as real;
      var v := SmoothAverageOf(xs, index, interval, previous);
      assert v == (previous * (n - 1.0) + xs[index]) / n;
      assert (previous * (n - 1.0) + xs[index]) / n == previous + (xs[index] - previous) * (1.0 / n);
      ConvexBetween(xs[index], previous, 1.0 / n);
    }
  }

  /**
   * SmoothAverage fed its own previous output from the start of the series (0 before the
   * first full window), as a caller computing it bar after bar does.
   */
  function SmoothSeries(xs: seq<real>, interval: int, k: nat): real
    requires k < |xs|
  {
    SmoothAverageOf(xs, k, interval, if k == 0 then 0.0 else SmoothSeries(xs, interval, k - 1))
  }

  /** On a constant series the smoothed series is that constant from the first full window on. */
  lemma {:induction false} SmoothSeriesConstant(xs: seq<real>, interval: int, k: nat, c: real)
    requires interval > 0 && interval - 1 <= k < |xs|
    requires forall i :: 0 <= i < |xs| ==> xs[i] == c
    ensures SmoothSeries(xs, interval, k) == c
  {
    if k == interval - 1 {
      ConstantWindow(xs, k, interval, c);
      SmoothAverageFacts(xs, k, interval, 0.0);
    } else {
      SmoothSeriesConstant(xs, interval, k - 1, c);
      SmoothAverageFacts(xs, k, interval, c);
    }
  }
}
