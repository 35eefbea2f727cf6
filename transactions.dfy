/**
 * Orders and positions (the transaction models under Core/Models/Transactions and the enums under Core/Enums). An order's kind and
 * side are both carried by its TransactionTypeEnum; the side and the order kind that the
 * simulation gateway and the position model read are derived from it.
 */
module Transactions {
  import opened Wrappers
  import opened Points
  import opened Instruments

  /** TransactionTypeEnum. */
  datatype TransactionType = NoneType | Buy | Sell | BuyStop | SellStop | BuyLimit | SellLimit | BuyStopLimit | SellStopLimit

  /** The byte value of each TransactionTypeEnum member; SellStopLimit shares 6 with SellLimit. */
  function TypeCode(t: TransactionType): nat
  {
    match t
    case NoneType => 0
    case Buy => 1
    case Sell => 2
    case BuyStop => 3
    case SellStop => 4
    case BuyLimit => 5
    case SellLimit => 6
    case BuyStopLimit => 7
    case SellStopLimit => 6
  }

  /** `Equals(type, member)` on a nullable enum: equal values, never for null. */
  predicate IsType(t: Option<TransactionType>, member: TransactionType)
  {
    t.Some? && TypeCode(t.value) == TypeCode(member)
  }

  /** Two members with one value are indistinguishable: a sell stop-limit is a sell limit. */
  lemma SellStopLimitIsSellLimit(t: Option<TransactionType>)
    ensures IsType(t, SellStopLimit) <==> IsType(t, SellLimit)
    ensures IsType(Some(SellStopLimit), SellLimit) && !IsType(Some(SellStopLimit), SellStop)
  {
  }

  /** OrderSideEnum. */
  datatype OrderSide = BuySide | SellSide

  /** OrderTypeEnum. */
  datatype OrderKind = Market | Stop | Limit | StopLimit

  /** The side of a transaction type; the members sharing a value share a side. */
  function SideOf(t: Option<TransactionType>): Option<OrderSide>
  {
    if t.None? then None
    else match TypeCode(t.value)
      case 1 => Some(BuySide)
      case 3 => Some(BuySide)
      case 5 => Some(BuySide)
      case 7 => Some(BuySide)
      case 2 => Some(SellSide)
      case 4 => Some(SellSide)
      case 6 => Some(SellSide)
      case _ => None
  }

  /** The order kind of a transaction type, by value. */
  function KindOf(t: Option<TransactionType>): Option<OrderKind>
  {
    if t.None? then None
    else match TypeCode(t.value)
      case 1 => Some(Market)
      case 2 => Some(Market)
      case 3 => Some(Stop)
      case 4 => Some(Stop)
      case 5 => Some(Limit)
      case 6 => Some(Limit)
      case 7 => Some(StopLimit)
      case _ => None
  }

  /**
   * The transaction type a (kind, side) pair names, as the Alpaca gateway builds it;
   * with SideOf and KindOf it round-trips up to the shared value of SellStopLimit.
   */
  function TypeFor(kind: OrderKind, side: OrderSide): (t: TransactionType)
    ensures SideOf(Some(t)) == Some(side)
    ensures kind != StopLimit || side == BuySide ==> KindOf(Some(t)) == Some(kind)
    ensures kind == StopLimit && side == SellSide ==> KindOf(Some(t)) == Some(Limit)
  {
    match (side, kind)
    case (BuySide, Market) => Buy
    case (BuySide, Stop) => BuyStop
    case (BuySide, Limit) => BuyLimit
    case (BuySide, StopLimit) => BuyStopLimit
    case (SellSide, Market) => Sell
    case (SellSide, Stop) => SellStop
    case (SellSide, Limit) => SellLimit
    case (SellSide, StopLimit) => SellStopLimit
  }

  /** Every typed order has a side and a kind, and they name its type again (by value). */
  lemma {:induction false} TypeRoundTrip(t: TransactionType)
    requires t != NoneType
    ensures SideOf(Some(t)).Some? && KindOf(Some(t)).Some?
    ensures TypeCode(TypeFor(KindOf(Some(t)).value, SideOf(Some(t)).value)) == TypeCode(t)
  {
    match t
    case Buy =>
    case Sell =>
    case BuyStop =>
    case SellStop =>
    case BuyLimit =>
    case SellLimit =>
    case BuyStopLimit =>
    case SellStopLimit =>
  }

  /** OrderStatusEnum. */
  datatype OrderStatus = NoStatus | Placed | Filled | Closed | Expired | Declined | Cancelled | Completed | PartiallyFilled

  /** Handle of an order object; the account's lists hold handles, so removal is by identity. */
  type OrderRef = nat

  /** TransactionOrderModel. `container` is the parent of a bracket leg, `children` its legs. */
  datatype Order = Order(
    id: string,
    name: string,
    orderType: Option<TransactionType>,
    size: real,
    price: Option<real>,
    status: Option<OrderStatus>,
    time: Option<nat>,
    instrument: Option<string>,
    container: Option<OrderRef>,
    children: seq<OrderRef>)

  /** The TransactionOrderModel constructor: a new order has an id, no legs and nothing else set. */
  function NewOrder(id: string): (o: Order)
    ensures o.id == id && o.children == [] && o.container.None?
    ensures o.orderType.None? && o.status.None? && o.price.None? && o.instrument.None?
  {
    Order(id, "", None, 0.0, None, None, None, None, None, [])
  }

  /** One entry of a position's OpenPrices: the price, size and time of one fill. */
  datatype Lot = Lot(price: Option<real>, size: real, time: Option<nat>)

  /** TransactionPositionModel. */
  datatype Position = Position(
    id: string,
    name: string,
    orderType: Option<TransactionType>,
    size: real,
    price: Option<real>,
    openPrice: Option<real>,
    instrument: Option<string>,
    children: seq<OrderRef>,
    time: Option<nat>,
    openPrices: seq<Lot>,
    closeTime: Option<nat>,
    closePrice: Option<real>,
    gainLoss: Option<real>,
    gainLossPoints: Option<real>,
    gainLossMin: Option<real>,
    gainLossMax: Option<real>,
    gainLossPointsMin: Option<real>,
    gainLossPointsMax: Option<real>)

  /** The TransactionPositionModel constructor: a new position has no open prices. */
  function NewPosition(): (p: Position)
    ensures p.openPrices == [] && p.children == [] && p.instrument.None?
    ensures p.gainLoss.None? && p.gainLossMin.None? && p.gainLossMax.None?
    ensures p.gainLossPoints.None? && p.gainLossPointsMin.None? && p.gainLossPointsMax.None?
  {
    Position("", "", None, 0.0, None, None, None, [], None, [], None, None, None, None, None, None, None, None)
  }

  /** TransactionOrderValidation: an instrument, a non-zero size and a type other than None. */
  predicate OrderValid(o: Order)
  {
    o.instrument.Some? && o.size != 0.0 && o.orderType.Some? && TypeCode(o.orderType.value) != 0
  }

  /** Buy and Sell execute at the market; every other type, a null one included, rests at a price. */
  predicate IsImmediate(t: Option<TransactionType>)
  {
    IsType(t, Buy) || IsType(t, Sell)
  }

  /**
   * A `GreaterThanOrEqualTo`/`LessThanOrEqualTo` rule against a field of the latest bar:
   * a null price is not compared; a missing bar or quote fails the rule.
   */
  predicate PriceAtLeast(price: Option<real>, bar: Option<Point>, quote: Point -> Option<real>)
  {
    price.None? || (bar.Some? && quote(bar.value).Some? && price.value >= quote(bar.value).value)
  }

  predicate PriceAtMost(price: Option<real>, bar: Option<Point>, quote: Point -> Option<real>)
  {
    price.None? || (bar.Some? && quote(bar.value).Some? && price.value <= quote(bar.value).value)
  }

  function Ask(p: Point): Option<real> { p.ask }

  function Bid(p: Point): Option<real> { p.bid }

  /**
   * TransactionOrderPriceValidation, for an order whose instrument (if any) is `inst`:
   * a resting order needs a non-zero price on the right side of the latest quote. An
   * order without an instrument makes the source throw; the model rejects it.
   */
  predicate OrderAccepted(o: Order, inst: Option<Instrument>)
  {
    var bar := if inst.Some? then LastBar(inst.value) else None;
    && OrderValid(o)
    && (!IsImmediate(o.orderType) ==> o.price.Some? && o.price.value != 0.0)
    && (IsType(o.orderType, BuyStop) ==> PriceAtLeast(o.price, bar, Ask))
    && (IsType(o.orderType, SellStop) ==> PriceAtMost(o.price, bar, Bid))
    && (IsType(o.orderType, BuyLimit) ==> PriceAtMost(o.price, bar, Ask))
    && (IsType(o.orderType, SellLimit) ==> PriceAtLeast(o.price, bar, Bid))
  }

  /**
   * What acceptance means for each type: the common rules, and a resting price that is
   * present, non-zero and on the side of the latest quote its type names.
   */
  lemma {:induction false} AcceptedMeans(o: Order, inst: Option<Instrument>)
    requires o.orderType.Some? && o.instrument.Some? && o.size != 0.0
    ensures var t := o.orderType.value;
      var q := if inst.Some? && |inst.value.pointGroups| > 0 then Some(inst.value.pointGroups[|inst.value.pointGroups| - 1]) else None;
      && (t == NoneType ==> !OrderAccepted(o, inst))
      && (t == Buy || t == Sell ==> OrderAccepted(o, inst))
      && (t == BuyStopLimit ==> (OrderAccepted(o, inst) <==> o.price.Some? && o.price.value != 0.0))
      && (t == BuyStop ==> (OrderAccepted(o, inst) <==>
            o.price.Some? && o.price.value != 0.0 && q.Some? && q.value.ask.Some? && o.price.value >= q.value.ask.value))
      && (t == SellStop ==> (OrderAccepted(o, inst) <==>
            o.price.Some? && o.price.value != 0.0 && q.Some? && q.value.bid.Some? && o.price.value <= q.value.bid.value))
      && (t == BuyLimit ==> (OrderAccepted(o, inst) <==>
            o.price.Some? && o.price.value != 0.0 && q.Some? && q.value.ask.Some? && o.price.value <= q.value.ask.value))
      && (t == SellLimit || t == SellStopLimit ==> (OrderAccepted(o, inst) <==>
            o.price.Some? && o.price.value != 0.0 && q.Some? && q.value.bid.Some? && o.price.value >= q.value.bid.value))
  {
    if inst.Some? {
      assert LastBar(inst.value) == (if |inst.value.pointGroups| > 0 then Some(inst.value.pointGroups[|inst.value.pointGroups| - 1]) else None);
    }
  }

  /** Orders that execute at the market are accepted whatever their price and whatever the quotes. */
  lemma MarketOrdersIgnorePrice(o: Order, inst: Option<Instrument>, price: Option<real>, other: Option<Instrument>)
    requires IsImmediate(o.orderType)
    ensures OrderAccepted(o, inst) <==> OrderAccepted(o.(price := price), other)
  {
  }
}
