/**
 * Quotes and bars (Core/Models/Points/PointModel.cs, PointBarModel.cs, TimeModel.cs):
 * one record serves as a tick, as an aggregated bar and as an indicator value.
 * Times are `DateTime.Ticks`, time frames are `TimeSpan.Ticks`.
 */
module Points {
  import opened Wrappers

  /** PointBarModel. */
  datatype Bar = Bar(low: Option<real>, high: Option<real>, open: Option<real>, close: Option<real>)

  const EmptyBar := Bar(None, None, None, None)

  /** The part of an indicator value kept in `PointModel.Series`. */
  datatype SeriesPoint = SeriesPoint(time: Option<nat>, timeFrame: Option<int>, last: Option<real>, close: Option<real>)

  const EmptySeries := SeriesPoint(None, None, None, None)

  /** PointModel (with the TimeModel and BaseModel fields it uses). */
  datatype Point = Point(
    time: Option<nat>,
    timeFrame: Option<int>,
    last: Option<real>,
    bid: Option<real>,
    ask: Option<real>,
    bidSize: Option<real>,
    askSize: Option<real>,
    bar: Bar,
    name: Option<string>,
    instrument: Option<string>,
    series: map<string, SeriesPoint>)

  /** A freshly constructed PointModel with the quote fields a data source fills in. */
  function Tick(time: nat, bid: Option<real>, ask: Option<real>, bidSize: Option<real>, askSize: Option<real>): Point
  {
    Point(Some(time), None, None, bid, ask, bidSize, askSize, EmptyBar, None, None, map[])
  }
}
