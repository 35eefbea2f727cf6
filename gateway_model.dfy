/**
 * The helpers every gateway inherits from GatewayModel (Core/Models/GatewayModel.cs)
 * that do not touch the account: the order intake check and the copy of an order's
 * terms into a position.
 */
module GatewayModels {
  import opened Wrappers
  import opened Instruments
  import opened Transactions

  /** The account's instrument an order refers to by name, null when it names none. */
  function Resolve(instruments: map<string, Instrument>, name: Option<string>): (r: Option<Instrument>)
    ensures r.Some? <==> name.Some? && name.value in instruments
    ensures r.Some? ==> r.value == instruments[name.value]
  {
    if name.Some? && name.value in instruments then Some(instruments[name.value]) else None
  }

  /** No validation error for one order: its price rules pass and its instrument is ready. */
  predicate OrderClean(instruments: map<string, Instrument>, o: Order)
  {
    var inst := Resolve(instruments, o.instrument);
    OrderAccepted(o, inst) && InstrumentReady(inst)
  }

  /** Every order handle in `refs`, and every leg of theirs, names an order of the arena. */
  predicate Known(orders: map<OrderRef, Order>, refs: seq<OrderRef>)
  {
    forall i :: 0 <= i < |refs| ==> refs[i] in orders && (forall c :: c in orders[refs[i]].children ==> c in orders)
  }

  /** No validation error for any of `refs`, nor for any of their direct legs. */
  predicate OrdersClean(orders: map<OrderRef, Order>, instruments: map<string, Instrument>, refs: seq<OrderRef>)
    requires Known(orders, refs)
  {
    forall i :: 0 <= i < |refs| ==>
      OrderClean(instruments, orders[refs[i]]) &&
      forall c :: c in orders[refs[i]].children ==> OrderClean(instruments, orders[c])
  }

  /**
   * EnsureOrderProps: collects the validation errors of each order, of its instrument, of
   * each of its legs and of each leg's instrument, and answers whether there were none.
   * Legs of legs are not looked at.
   */
  method EnsureOrderProps(orders: map<OrderRef, Order>, instruments: map<string, Instrument>, models: seq<OrderRef>)
    returns (r: bool)
    requires Known(orders, models)
    ensures r <==> OrdersClean(orders, instruments, models)
    ensures r ==> forall i :: 0 <= i < |models| ==> OrderValid(orders[models[i]])
  {
    var errors := 0;
    var i := 0;
    while i < |models|
      invariant 0 <= i <= |models|
      invariant errors == 0 <==> OrdersClean(orders, instruments, models[..i])
    {
      var model := orders[models[i]];
      if !OrderClean(instruments, model) {
        errors := errors + 1;
      }
      var j := 0;
      while j < |model.children|
        invariant 0 <= j <= |model.children|
        invariant errors == 0 <==>
          OrdersClean(orders, instruments, models[..i]) && OrderClean(instruments, model) &&
          forall k :: 0 <= k < j ==> OrderClean(instruments, orders[model.children[k]])
      {
        if !OrderClean(instruments, orders[model.children[j]]) {
          errors := errors + 1;
        }
        j := j + 1;
      }
      assert models[..i + 1] == models[..i] + [models[i]];
      i := i + 1;
    }
    assert models[..i] == models;
    r := errors == 0;
  }

  /**
   * UpdatePositionParams: the position takes the order's identity, type, size, price (as
   * both its price and its open price), instrument, legs and time; its lots and its
   * profit and loss fields are left as they were. Copying the type also copies the side,
   * which is derived from it.
   */
  function UpdatePositionParams(position: Position, order: Order): (r: Position)
    ensures r.id == order.id && r.name == order.name && r.orderType == order.orderType && r.size == order.size
    ensures r.price == order.price && r.openPrice == order.price && r.instrument == order.instrument
    ensures r.children == order.children && r.time == order.time
    ensures r.openPrices == position.openPrices && r.closeTime == position.closeTime && r.closePrice == position.closePrice
    ensures r.gainLoss == position.gainLoss && r.gainLossPoints == position.gainLossPoints
    ensures r.gainLossMin == position.gainLossMin && r.gainLossMax == position.gainLossMax
    ensures r.gainLossPointsMin == position.gainLossPointsMin && r.gainLossPointsMax == position.gainLossPointsMax
  {
    position.(id := order.id, name := order.name, orderType := order.orderType, size := order.size,
              price := order.price, openPrice := order.price, instrument := order.instrument,
              children := order.children, time := order.time)
  }
}
