/**
 * Instruments (Core/Models/Instruments/InstrumentModel.cs): contract terms and the
 * quotes received so far, plain (`points`) and aggregated (`pointGroups`).
 */
module Instruments {
  import opened Wrappers
  import opened Points
  import opened IndexCollections

  datatype Instrument = Instrument(
    name: string,
    commission: Option<real>,
    contractSize: Option<real>,
    stepSize: Option<real>,
    stepValue: Option<real>,
    swapLong: Option<real>,
    swapShort: Option<real>,
    timeFrame: Option<int>,
    points: seq<Point>,
    pointGroups: seq<Point>)

  /** The InstrumentModel constructor's defaults: step 0.01 worth 0.01, no commission or swaps, contract size 1. */
  function NewInstrument(name: string): (i: Instrument)
    ensures InstrumentValid(i.(timeFrame := Some(1)))
    ensures i.points == [] && i.pointGroups == [] && i.stepSize == Some(0.01)
  {
    Instrument(name, Some(0.0), Some(1.0), Some(0.01), Some(0.01), Some(0.0), Some(0.0), None, [], [])
  }

  /** InstrumentValidation: every term present, and the sizes that are divided by non-zero. */
  predicate InstrumentValid(i: Instrument)
  {
    && i.swapLong.Some?
    && i.swapShort.Some?
    && i.commission.Some?
    && i.contractSize.Some? && i.contractSize.value != 0.0
    && i.stepSize.Some? && i.stepSize.value != 0.0
    && i.stepValue.Some? && i.stepValue.value != 0.0
    && i.timeFrame.Some?
  }

  /**
   * InstrumentCollectionsValidation: a valid instrument that has received quotes. A null
   * instrument makes the validator throw; the model reports it as not valid.
   */
  predicate InstrumentReady(i: Option<Instrument>)
  {
    i.Some? && InstrumentValid(i.value) && |i.value.points| > 0 && |i.value.pointGroups| > 0
  }

  /** `PointGroups.LastOrDefault()`: the latest bar, null before the first quote. */
  function LastBar(i: Instrument): (b: Option<Point>)
    ensures b.Some? <==> |i.pointGroups| > 0
  {
    LastOrNone(i.pointGroups)
  }
}
