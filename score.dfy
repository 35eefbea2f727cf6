/**
 * Score statistics over a list of closed-position records (Score/Change.cs, Score/MAE.cs,
 * Score/MFE.cs, Score/SeriesMetrics.cs). Doubles are reals; C# `int` counters are
 * unbounded integers here.
 */
module Score {
  import opened Wrappers
  import Calculation

  /** InputData (Score/Metrics.cs): one record of the evaluated series. Times are ticks. */
  datatype InputData = InputData(direction: int, min: real, max: real, value: real, commission: real, time: int)

  /** Change.Calculate: the change from the first to the last value, absolute (option 0) or in percent of the first (option 1). */
  function Change(values: seq<InputData>, option: Option<int>): (r: real)
    ensures |values| == 0 || values[0].value == 0.0 ==> r == 0.0
    ensures option != Some(0) && option != Some(1) ==> r == 0.0
  {
    if |values| == 0 || values[0].value == 0.0 then 0.0
    else
      var input, output := values[0].value, values[|values| - 1].value;
      match option
      case Some(0) => output - input
      case Some(1) => (output - input) / Abs(input) * 100.0
      case _ => 0.0
  }

  /** The percent change is the absolute change scaled by 100 / |first|, so both have the sign of last - first. */
  lemma ChangeOptions(values: seq<InputData>)
    requires |values| > 0 && values[0].value != 0.0
    ensures Change(values, Some(1)) == Change(values, Some(0)) / Abs(values[0].value) * 100.0
    ensures Change(values, Some(0)) > 0.0 <==> values[|values| - 1].value > values[0].value
    ensures Change(values, Some(1)) > 0.0 <==> values[|values| - 1].value > values[0].value
    ensures Change(values, Some(1)) < 0.0 <==> values[|values| - 1].value < values[0].value
  {
    var d, a := values[|values| - 1].value - values[0].value, Abs(values[0].value);
    assert a > 0.0;
    QuotientSign(d, a);
  }

  /** Scaling by a positive factor and by 100 keeps the sign. */
  lemma QuotientSign(d: real, a: real)
    requires a > 0.0
    ensures d / a * 100.0 > 0.0 <==> d > 0.0
    ensures d / a * 100.0 < 0.0 <==> d < 0.0
  {
    assert d / a * a == d;
  }

  /** The adverse excursion of each record, `Value - Min`. */
  function Adverse(values: seq<InputData>): (s: seq<real>)
    ensures |s| == |values| && forall i :: 0 <= i < |s| ==> s[i] == values[i].value - values[i].min
  {
    seq(|values|, i requires 0 <= i < |values| => values[i].value - values[i].min)
  }

  /** The favourable excursion of each record, `Max - Value`. */
  function Favourable(values: seq<InputData>): (s: seq<real>)
    ensures |s| == |values| && forall i :: 0 <= i < |s| ==> s[i] == values[i].max - values[i].value
  {
    seq(|values|, i requires 0 <= i < |values| => values[i].max - values[i].value)
  }

  /** The mean of a list (LINQ Average), 0 for an empty list as MAE and MFE return. */
  function MeanOr0(s: seq<real>): real
  {
    if |s| == 0 then 0.0 else Calculation.Sum(s) / (|s| as real)
  }

  /** A mean of non-negative values is non-negative, and the mean of one value is that value. */
  lemma MeanOr0Facts(s: seq<real>)
    ensures (forall i :: 0 <= i < |s| ==> s[i] >= 0.0) ==> MeanOr0(s) >= 0.0
    ensures |s| == 1 ==> MeanOr0(s) == s[0]
    ensures |s| > 0 ==> MeanOr0(s) * (|s| as real) == Calculation.Sum(s)
  {
    if forall i :: 0 <= i < |s| ==> s[i] >= 0.0 {
      Calculation.SumNonnegative(s);
      if |s| > 0 {
        Calculation.DivNonnegative(Calculation.Sum(s), |s| as real);
      }
    }
    if |s| == 1 {
      assert s[1..] == [];
    }
  }

  /** MAE.Calculate: the mean adverse excursion. */
  function MAE(values: seq<InputData>): real
  {
    MeanOr0(Adverse(values))
  }

  /** MFE.Calculate: the mean favourable excursion. */
  function MFE(values: seq<InputData>): real
  {
    MeanOr0(Favourable(values))
  }

  /** MAE is 0 without records, `Value - Min` for one record, and not negative when no record's Min exceeds its Value. */
  lemma MAEFacts(values: seq<InputData>)
    ensures |values| == 0 ==> MAE(values) == 0.0
    ensures |values| == 1 ==> MAE(values) == values[0].value - values[0].min
    ensures (forall i :: 0 <= i < |values| ==> values[i].min <= values[i].value) ==> MAE(values) >= 0.0
    ensures |values| > 0 ==> MAE(values) * (|values| as real) == Calculation.Sum(Adverse(values))
  {
    MeanOr0Facts(Adverse(values));
  }

  /** MFE is 0 without records, `Max - Value` for one record, and not negative when no record's Max is below its Value. */
  lemma MFEFacts(values: seq<InputData>)
    ensures |values| == 0 ==> MFE(values) == 0.0
    ensures |values| == 1 ==> MFE(values) == values[0].max - values[0].value
    ensures (forall i :: 0 <= i < |values| ==> values[i].value <= values[i].max) ==> MFE(values) >= 0.0
    ensures |values| > 0 ==> MFE(values) * (|values| as real) == Calculation.Sum(Favourable(values))
  {
    MeanOr0Facts(Favourable(values));
  }

  /** SeriesData: one run of steps in the same direction. */
  datatype SeriesData = SeriesData(count: int, winCount: int, lossCount: int, direction: int, gain: real, loss: real)

  const NewSeries := SeriesData(0, 0, 0, 0, 0.0, 0.0)

  /** SeriesResponse: the number of finished runs and their largest gains, losses and counts. */
  datatype SeriesResponse = SeriesResponse(count: int, maxWinCount: int, maxLossCount: int, maxWin: real, maxLoss: real)

  /** The direction of one step: 1 up, -1 down, 0 flat. */
  function StepDirection(previous: real, current: real): (d: int)
    ensures d == 1 <==> previous < current
    ensures d == -1 <==> previous > current
    ensures d == 0 <==> previous == current
  {
    var direction := if previous < current then 1 else 0;
    if previous > current then -1 else direction
  }

  /** A run ends when the step before and this step both move and move in opposite directions. */
  predicate Inversion(direction: int, change: int)
  {
    direction != 0 && change != 0 && direction != change
  }

  /**
   * SeriesMetrics.UpdateSeries: on an inversion the current run, stamped with the previous
   * direction, is appended to `items` and a fresh run in the new direction starts.
   */
  function UpdateSeries(direction: int, change: int, series: SeriesData, items: seq<SeriesData>): (SeriesData, seq<SeriesData>)
  {
    if Inversion(direction, change) then (NewSeries.(direction := change), items + [series.(direction := direction)])
    else (series, items)
  }

  /** The loop state of SeriesMetrics.Calculate: the previous step's direction, the open run and the finished runs. */
  datatype SeriesState = SeriesState(inverse: int, item: SeriesData, items: seq<SeriesData>)

  const Start := SeriesState(0, NewSeries, [])

  /** One step of the loop, from `previous` to `current`. */
  function Step(state: SeriesState, previous: real, current: real): SeriesState
  {
    var direction := StepDirection(previous, current);
    var change := current - previous;
    var gain := Abs(Max(change, 0.0));
    var loss := Abs(Min(change, 0.0));
    var (item, items) := UpdateSeries(state.inverse, direction, state.item, state.items);
    var item' := item.(gain := item.gain + gain, loss := item.loss + loss,
                       winCount := item.winCount + (if gain > 0.0 then 1 else 0),
                       lossCount := item.lossCount + (if loss > 0.0 then 1 else 0),
                       count := item.count + 1);
    SeriesState(direction, item', items)
  }

  /** The loop state after the first n records: the steps between consecutive records 0..n-1. */
  function Run(values: seq<InputData>, n: nat): SeriesState
    requires n <= |values|
  {
    if n <= 1 then Start else Step(Run(values, n - 1), values[n - 2].value, values[n - 1].value)
  }

  /** The largest element of a non-empty list (LINQ Max). */
  function MaxReal(s: seq<real>): (m: real)
    requires |s| > 0
    ensures (forall i :: 0 <= i < |s| ==> s[i] <= m) && exists i :: 0 <= i < |s| && s[i] == m
  {
    if |s| == 1 then s[0]
    else
      var m := MaxReal(s[1..]);
      assert forall i :: 1 <= i < |s| ==> s[i] == s[1..][i - 1];
      if s[0] >= m then s[0] else m
  }

  /** The largest element of a non-empty list of counters. */
  function MaxInt(s: seq<int>): (m: int)
    requires |s| > 0
    ensures (forall i :: 0 <= i < |s| ==> s[i] <= m) && exists i :: 0 <= i < |s| && s[i] == m
  {
    if |s| == 1 then s[0]
    else
      var m := MaxInt(s[1..]);
      assert forall i :: 1 <= i < |s| ==> s[i] == s[1..][i - 1];
      if s[0] >= m then s[0] else m
  }

  /** The response built from the finished runs; all zeros when there are none. */
  function Respond(items: seq<SeriesData>): (r: SeriesResponse)
    ensures |items| == 0 ==> r == SeriesResponse(0, 0, 0, 0.0, 0.0)
    ensures |items| > 0 ==> r.count == |items|
    ensures forall i :: 0 <= i < |items| ==>
      items[i].gain <= r.maxWin && items[i].loss <= r.maxLoss && items[i].winCount <= r.maxWinCount && items[i].lossCount <= r.maxLossCount
    ensures |items| > 0 ==>
      && (exists i :: 0 <= i < |items| && items[i].gain == r.maxWin)
      && (exists i :: 0 <= i < |items| && items[i].loss == r.maxLoss)
      && (exists i :: 0 <= i < |items| && items[i].winCount == r.maxWinCount)
      && (exists i :: 0 <= i < |items| && items[i].lossCount == r.maxLossCount)
  {
    if |items| == 0 then SeriesResponse(0, 0, 0, 0.0, 0.0)
    else
      var gains := seq(|items|, i requires 0 <= i < |items| => items[i].gain);
      var losses := seq(|items|, i requires 0 <= i < |items| => items[i].loss);
      var wins := seq(|items|, i requires 0 <= i < |items| => items[i].winCount);
      var lost := seq(|items|, i requires 0 <= i < |items| => items[i].lossCount);
      assert forall i :: 0 <= i < |items| ==>
        gains[i] == items[i].gain && losses[i] == items[i].loss && wins[i] == items[i].winCount && lost[i] == items[i].lossCount;
      SeriesResponse(|items|, MaxInt(wins), MaxInt(lost), MaxReal(gains), MaxReal(losses))
  }

  /** SeriesMetrics.Calculate: the steps are folded into runs; the run still open at the end is not reported. */
  method SeriesMetrics(values: seq<InputData>) returns (response: SeriesResponse)
    ensures response == Respond(Run(values, |values|).items)
  {
    var count := |values|;
    var seriesInverse := 0;
    var seriesItem := NewSeries;
    var seriesItems: seq<SeriesData> := [];
    var i := 0;
    while i < count
      invariant 0 <= i <= count
      invariant SeriesState(seriesInverse, seriesItem, seriesItems) == Run(values, if i == 0 then 0 else i)
    {
      if i >= 1 {
        var current, previous := values[i], values[i - 1];
        var change := current.value - previous.value;
        var gain := Abs(Max(change, 0.0));
        var loss := Abs(Min(change, 0.0));
        var direction := 0;
        direction := if previous.value < current.value then 1 else direction;
        direction := if previous.value > current.value then -1 else direction;
        var (item, items) := UpdateSeries(seriesInverse, direction, seriesItem, seriesItems);
        seriesItem, seriesItems := item, items;
        seriesItem := seriesItem.(gain := seriesItem.gain + gain, loss := seriesItem.loss + loss);
        seriesItem := seriesItem.(winCount := seriesItem.winCount + if gain > 0.0 then 1 else 0);
        seriesItem := seriesItem.(lossCount := seriesItem.lossCount + if loss > 0.0 then 1 else 0);
        seriesItem := seriesItem.(count := seriesItem.count + 1);
        seriesInverse := direction;
      }
      i := i + 1;
    }
    response := SeriesResponse(0, 0, 0, 0.0, 0.0);
    if |seriesItems| > 0 {
      response := Respond(seriesItems);
    }
  }

  /** The directions of the steps between consecutive records 0..n-1. */
  function Directions(values: seq<InputData>, n: nat): (ds: seq<int>)
    requires n <= |values|
    ensures |ds| == if n == 0 then 0 else n - 1
  {
    if n <= 1 then [] else Directions(values, n - 1) + [StepDirection(values[n - 2].value, values[n - 1].value)]
  }

  /** The number of inversions between neighbouring directions. */
  function Inversions(ds: seq<int>): nat
  {
    if |ds| < 2 then 0 else Inversions(ds[..|ds| - 1]) + if Inversion(ds[|ds| - 2], ds[|ds| - 1]) then 1 else 0
  }

  /** Total number of steps in a list of runs. */
  function Steps(items: seq<SeriesData>): int
  {
    if items == [] then 0 else Steps(items[..|items| - 1]) + items[|items| - 1].count
  }

  /** A run's gains and losses are not negative and no step is both a win and a loss. */
  predicate Sound(item: SeriesData)
  {
    item.gain >= 0.0 && item.loss >= 0.0 && 0 <= item.winCount && 0 <= item.lossCount && item.winCount + item.lossCount <= item.count
  }

  /**
   * After n records: one run is finished per inversion of neighbouring step directions (a
   * flat step neither ends a run nor lets the next step end it), every step belongs to
   * exactly one run (finished or open), and every run is sound.
   */
  lemma {:induction false} RunFacts(values: seq<InputData>, n: nat)
    requires n <= |values|
    ensures var st := Run(values, n);
      && |st.items| == Inversions(Directions(values, n))
      && Steps(st.items) + st.item.count == |Directions(values, n)|
      && (n >= 2 ==> st.inverse == Directions(values, n)[n - 2])
      && (n < 2 ==> st.inverse == 0)
      && Sound(st.item) && (forall i :: 0 <= i < |st.items| ==> Sound(st.items[i]))
  {
    if n >= 2 {
      RunFacts(values, n - 1);
      var ds := Directions(values, n);
      assert ds[..|ds| - 1] == Directions(values, n - 1);
      var st := Run(values, n - 1);
      var items := st.items;
      if Inversion(st.inverse, ds[n - 2]) {
        assert (items + [st.item.(direction := st.inverse)])[..|items|] == items;
      }
    }
  }

  /** With no inversion among the step directions the response is all zeros. */
  lemma NoInversionNoSeries(values: seq<InputData>)
    requires Inversions(Directions(values, |values|)) == 0
    ensures Respond(Run(values, |values|).items) == SeriesResponse(0, 0, 0, 0.0, 0.0)
  {
    RunFacts(values, |values|);
  }

  /** Data with one value. */
  function Record(value: real): InputData
  {
    InputData(0, 0.0, 0.0, value, 0.0, 0)
  }

  /**
   * A flat step between a rise and a fall keeps them in one run: for the values 1, 2, 2, 1
   * no run is finished and the open run holds the gain and the loss.
   */
  lemma FlatStepJoinsRuns()
    ensures var st := Run([Record(1.0), Record(2.0), Record(2.0), Record(1.0)], 4);
      st.items == [] && st.item.count == 3 && st.item.gain == 1.0 && st.item.loss == 1.0
  {
  }

  /** A rise followed directly by a fall finishes the rising run: for 1, 2, 1 one run of one winning step is reported. */
  lemma RiseThenFall()
    ensures Respond(Run([Record(1.0), Record(2.0), Record(1.0)], 3).items) == SeriesResponse(1, 1, 0, 1.0, 0.0)
  {
  }
}
