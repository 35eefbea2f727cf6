/**
 * The estimates of TransactionPositionModel (Core/Models/Transactions/TransactionPositionModel.cs).
 * The getters compute a profit or loss against the latest bar of the position's instrument
 * and, when a reference price is given, record the running extremes in the position.
 * Each is a function of the position and returns the value with the updated position.
 */
module Positions {
  import opened Wrappers
  import opened Points
  import opened Instruments
  import opened Transactions

  /** A getter's value together with the position as the getter leaves it. */
  datatype Estimate = Estimate(value: Option<real>, position: Position)

  /** ClosePriceEstimate: the price a position would close at now, the bid for a long and the ask for a short. */
  function ClosePriceEstimate(p: Position, inst: Instrument): (r: Option<real>)
    ensures |inst.pointGroups| == 0 || SideOf(p.orderType).None? ==> r.None?
    ensures |inst.pointGroups| > 0 && SideOf(p.orderType) == Some(BuySide) ==> r == inst.pointGroups[|inst.pointGroups| - 1].bid
    ensures |inst.pointGroups| > 0 && SideOf(p.orderType) == Some(SellSide) ==> r == inst.pointGroups[|inst.pointGroups| - 1].ask
  {
    match LastBar(inst)
    case None => None
    case Some(point) =>
      match SideOf(p.orderType)
      case Some(BuySide) => point.bid
      case Some(SellSide) => point.ask
      case None => None
  }

  /** The sign applied to a price move: +1 for a long, -1 for a short, 0 without a side. */
  function Direction(side: Option<OrderSide>): real
  {
    match side
    case Some(BuySide) => 1.0
    case Some(SellSide) => -1.0
    case None => 0.0
  }

  /**
   * GetGainLossPointsEstimate: the move from `price` (or, without one, from the open price)
   * to the close estimate, signed by the side. With a price, the running minimum and
   * maximum in points take the estimate in, with 0 standing for a null one.
   */
  function PointsEstimate(p: Position, inst: Instrument, price: Option<real>): (r: Estimate)
    ensures var from := if price.Some? then price else p.openPrice;
      var close := ClosePriceEstimate(p, inst);
      && (r.value.Some? <==> close.Some? && from.Some?)
      && (r.value.Some? ==> r.value.value == (close.value - from.value) * Direction(SideOf(p.orderType)))
    ensures price.None? ==> r.position == p
    ensures price.Some? ==> r.position == p.(
      gainLossPointsMin := Some(Min(p.gainLossPointsMin.OrElse(0.0), r.value.OrElse(0.0))),
      gainLossPointsMax := Some(Max(p.gainLossPointsMax.OrElse(0.0), r.value.OrElse(0.0))))
  {
    var direction := Direction(SideOf(p.orderType));
    var close := ClosePriceEstimate(p, inst);
    if price.Some? then
      var estimate := MulOpt(SubOpt(close, price), Some(direction));
      Estimate(estimate, p.(
        gainLossPointsMin := Some(Min(p.gainLossPointsMin.OrElse(0.0), estimate.OrElse(0.0))),
        gainLossPointsMax := Some(Max(p.gainLossPointsMax.OrElse(0.0), estimate.OrElse(0.0)))))
    else
      Estimate(MulOpt(SubOpt(close, p.openPrice), Some(direction)), p)
  }

  /**
   * GetGainLossEstimate: the points estimate in the account's currency, less the commission
   * paid on opening and closing every lot, times the size. An instrument that fails
   * InstrumentCollectionsValidation gives null and leaves the position as it was; otherwise
   * the points estimate's extremes are updated as well as the currency ones.
   */
  function GainLossEstimate(p: Position, inst: Instrument, price: Option<real>): (r: Estimate)
    ensures !InstrumentReady(Some(inst)) ==> r == Estimate(None, p)
    ensures InstrumentReady(Some(inst)) ==>
      var points := PointsEstimate(p, inst, price);
      && r.value == Currency(inst, p.size, points.value, |p.openPrices|)
      && r.position.gainLossPointsMin == points.position.gainLossPointsMin
      && r.position.gainLossPointsMax == points.position.gainLossPointsMax
      && (price.None? ==> r.position == p)
      && (price.Some? ==> r.position == points.position.(
            gainLossMin := Some(Min(p.gainLossMin.OrElse(0.0), r.value.OrElse(0.0))),
            gainLossMax := Some(Max(p.gainLossMax.OrElse(0.0), r.value.OrElse(0.0)))))
  {
    if !InstrumentReady(Some(inst)) then Estimate(None, p)
    else
      var points := PointsEstimate(p, inst, price);
      var estimate := Currency(inst, p.size, points.value, |p.openPrices|);
      if price.Some? then
        Estimate(estimate, points.position.(
          gainLossMin := Some(Min(p.gainLossMin.OrElse(0.0), estimate.OrElse(0.0))),
          gainLossMax := Some(Max(p.gainLossMax.OrElse(0.0), estimate.OrElse(0.0)))))
      else
        Estimate(estimate, p)
  }

  /**
   * A move in points turned into the account's currency for a position of `size` opened
   * in `lots` lots: `size * (points * stepValue / stepSize - commission * lots * 2)`.
   */
  function Currency(inst: Instrument, size: real, points: Option<real>, lots: nat): (r: Option<real>)
    requires InstrumentValid(inst)
    ensures r.Some? <==> points.Some?
    ensures r.Some? ==> r.value == size * (points.value * inst.stepValue.value / inst.stepSize.value
                                           - inst.commission.value * lots as real * 2.0)
  {
    var delta := inst.stepValue.value / inst.stepSize.value;
    var commission := inst.commission.value * lots as real * 2.0;
    MulOpt(Some(size), SubOpt(MulOpt(points, Some(delta)), Some(commission)))
  }

  /** `GainLossEstimate`: the currency estimate against the position's own price. */
  function GainLoss(p: Position, inst: Instrument): Estimate
  {
    GainLossEstimate(p, inst, p.price)
  }

  /** `GainLossPointsEstimate`: the points estimate against the position's own price. */
  function GainLossPoints(p: Position, inst: Instrument): Estimate
  {
    PointsEstimate(p, inst, p.price)
  }

  /**
   * The running extremes in points: after an estimate against a price, the minimum is at
   * most the estimate and never rises, and the maximum is at least the estimate and never
   * falls; `min <= 0 <= max` holds afterwards whenever it held before (a null extreme
   * counts as 0).
   */
  lemma {:induction false} PointsExtremes(p: Position, inst: Instrument, price: real)
    ensures var r := PointsEstimate(p, inst, Some(price));
      && r.position.gainLossPointsMin.Some? && r.position.gainLossPointsMax.Some?
      && (p.gainLossPointsMin.OrElse(0.0) <= 0.0 ==> r.position.gainLossPointsMin.value <= 0.0)
      && (p.gainLossPointsMax.OrElse(0.0) >= 0.0 ==> r.position.gainLossPointsMax.value >= 0.0)
      && (r.value.Some? ==> r.position.gainLossPointsMin.value <= r.value.value <= r.position.gainLossPointsMax.value)
      && (p.gainLossPointsMin.Some? ==> r.position.gainLossPointsMin.value <= p.gainLossPointsMin.value)
      && (p.gainLossPointsMax.Some? ==> r.position.gainLossPointsMax.value >= p.gainLossPointsMax.value)
  {
    var r := PointsEstimate(p, inst, Some(price));
    assert r.position.gainLossPointsMin == Some(Min(p.gainLossPointsMin.OrElse(0.0), r.value.OrElse(0.0)));
    assert r.position.gainLossPointsMax == Some(Max(p.gainLossPointsMax.OrElse(0.0), r.value.OrElse(0.0)));
  }

  /** The same for the currency extremes. */
  lemma {:induction false} GainLossExtremes(p: Position, inst: Instrument, price: real)
    requires InstrumentReady(Some(inst))
    ensures var r := GainLossEstimate(p, inst, Some(price));
      && r.position.gainLossMin.Some? && r.position.gainLossMax.Some?
      && (p.gainLossMin.OrElse(0.0) <= 0.0 ==> r.position.gainLossMin.value <= 0.0)
      && (p.gainLossMax.OrElse(0.0) >= 0.0 ==> r.position.gainLossMax.value >= 0.0)
      && (r.value.Some? ==> r.position.gainLossMin.value <= r.value.value <= r.position.gainLossMax.value)
      && (p.gainLossMin.Some? ==> r.position.gainLossMin.value <= p.gainLossMin.value)
      && (p.gainLossMax.Some? ==> r.position.gainLossMax.value >= p.gainLossMax.value)
  {
    var r := GainLossEstimate(p, inst, Some(price));
    var points := PointsEstimate(p, inst, Some(price));
    assert r.position == points.position.(
      gainLossMin := Some(Min(p.gainLossMin.OrElse(0.0), r.value.OrElse(0.0))),
      gainLossMax := Some(Max(p.gainLossMax.OrElse(0.0), r.value.OrElse(0.0))));
  }

  /** Recording the same estimate twice changes nothing the second time. */
  lemma {:induction false} PointsEstimateSettles(p: Position, inst: Instrument, price: real)
    ensures var once := PointsEstimate(p, inst, Some(price));
      PointsEstimate(once.position, inst, Some(price)) == once
  {
    var once := PointsEstimate(p, inst, Some(price));
    var twice := PointsEstimate(once.position, inst, Some(price));
    assert ClosePriceEstimate(once.position, inst) == ClosePriceEstimate(p, inst);
    assert twice.value == once.value;
  }

  /**
   * What the points estimate says: a long gains when the bid is above the reference price,
   * a short when the ask is below it, and a position without a side never moves.
   */
  lemma {:induction false} PointsEstimateSign(p: Position, inst: Instrument, price: real)
    requires |inst.pointGroups| > 0
    ensures var bar := inst.pointGroups[|inst.pointGroups| - 1];
      var r := PointsEstimate(p, inst, Some(price)).value;
      && (SideOf(p.orderType) == Some(BuySide) && bar.bid.Some? ==> r.Some? && (r.value > 0.0 <==> bar.bid.value > price))
      && (SideOf(p.orderType) == Some(SellSide) && bar.ask.Some? ==> r.Some? && (r.value > 0.0 <==> bar.ask.value < price))
      && (SideOf(p.orderType).None? ==> r.None?)
  {
    var bar := inst.pointGroups[|inst.pointGroups| - 1];
    var close := ClosePriceEstimate(p, inst);
    if SideOf(p.orderType) == Some(BuySide) && bar.bid.Some? {
      assert close == bar.bid;
    }
    if SideOf(p.orderType) == Some(SellSide) && bar.ask.Some? {
      assert close == bar.ask;
    }
  }

  /**
   * A long of size `s` opened in `n` lots at `price`, valued at a bid of `price + move`:
   * its currency estimate is `s * (move * stepValue / stepSize - 2 * n * commission)`,
   * so without commission it gains exactly when the bid rose.
   */
  lemma {:induction false} LongGainLoss(p: Position, inst: Instrument, price: real, move: real)
    requires InstrumentReady(Some(inst)) && SideOf(p.orderType) == Some(BuySide)
    requires inst.pointGroups[|inst.pointGroups| - 1].bid == Some(price + move)
    ensures var r := GainLossEstimate(p, inst, Some(price)).value;
      var sv := inst.stepValue.value;
      var ss := inst.stepSize.value;
      && r.Some?
      && r.value == p.size * (move * sv / ss - inst.commission.value * |p.openPrices| as real * 2.0)
      && (inst.commission.value == 0.0 && p.size > 0.0 && sv / ss > 0.0 ==> (r.value > 0.0 <==> move > 0.0))
  {
    var sv := inst.stepValue.value;
    var ss := inst.stepSize.value;
    var points := PointsEstimate(p, inst, Some(price));
    assert ClosePriceEstimate(p, inst) == Some(price + move);
    assert points.value == Some(move);
    var r := GainLossEstimate(p, inst, Some(price)).value;
    if inst.commission.value == 0.0 && p.size > 0.0 && sv / ss > 0.0 {
      assert move * sv / ss == move * (sv / ss);
      assert r.value == p.size * (move * (sv / ss));
      if move > 0.0 {
        assert move * (sv / ss) > 0.0;
      } else {
        assert move * (sv / ss) <= 0.0;
      }
    }
  }

  /**
   * The estimates read only a position's side, size, open price and lots: the close
   * fields and the recorded extremes do not change them.
   */
  lemma EstimatesReadTerms(p: Position, q: Position, inst: Instrument, price: Option<real>)
    requires p.orderType == q.orderType && p.size == q.size && p.openPrice == q.openPrice && p.openPrices == q.openPrices
    ensures PointsEstimate(p, inst, price).value == PointsEstimate(q, inst, price).value
    ensures GainLossEstimate(p, inst, price).value == GainLossEstimate(q, inst, price).value
  {
    assert ClosePriceEstimate(p, inst) == ClosePriceEstimate(q, inst);
    if InstrumentReady(Some(inst)) {
      assert PointsEstimate(p, inst, price).value == PointsEstimate(q, inst, price).value;
    }
  }
}
