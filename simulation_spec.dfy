/**
 * The account as the simulation gateway (Gateway/Simulation/GatewayClient.cs) sees it,
 * and each of its operations as a function from the account before to the account
 * after. Orders and positions are objects in the source; here they live in two arenas
 * and the account's lists hold their handles, so that removal is by identity.
 */
module SimulationSpec {
  import opened Wrappers
  import opened Points
  import opened IndexCollections
  import opened Instruments
  import opened Transactions
  import opened Positions
  import opened GatewayModels
  import opened OrderTrees

  /** Handle of a position object. */
  type PositionRef = nat

  /** AccountModel, as far as the gateway reads and writes it. */
  datatype Account = Account(
    orders: map<OrderRef, Order>,
    positions: map<PositionRef, Position>,
    orderLog: seq<OrderRef>,
    active: seq<OrderRef>,
    positionLog: seq<PositionRef>,
    activePositions: seq<PositionRef>,
    instruments: map<string, Instrument>,
    balance: Option<real>,
    nextPosition: nat)

  predicate PositionsIn(positions: map<PositionRef, Position>, ks: seq<PositionRef>)
  {
    forall i :: 0 <= i < |ks| ==> ks[i] in positions
  }

  /** Netting: no two active positions are on the same instrument. */
  predicate OneActivePerInstrument(positions: map<PositionRef, Position>, ks: seq<PositionRef>)
    requires PositionsIn(positions, ks)
  {
    forall i, j :: 0 <= i < j < |ks| ==> positions[ks[i]].instrument != positions[ks[j]].instrument
  }

  /**
   * What holds of every account the gateway works on: the bracket hierarchy is ranked
   * (has no cycle), every order names an instrument of the account or none, the lists
   * hold handles of stored objects, every position is on an instrument of the account
   * and lists stored orders as legs, and netting holds.
   */
  predicate AccountValid(a: Account, rank: map<OrderRef, nat>)
  {
    && Ranked(Links(a.orders), rank)
    && (forall r :: r in a.orders ==> a.orders[r].instrument.None? || a.orders[r].instrument.value in a.instruments)
    && AllIn(Links(a.orders), a.orderLog)
    && AllIn(Links(a.orders), a.active)
    && (forall k :: k in a.positions ==>
          && k < a.nextPosition
          && a.positions[k].instrument.Some? && a.positions[k].instrument.value in a.instruments
          && forall i :: 0 <= i < |a.positions[k].children| ==> a.positions[k].children[i] in a.orders)
    && PositionsIn(a.positions, a.positionLog)
    && PositionsIn(a.positions, a.activePositions)
    && OneActivePerInstrument(a.positions, a.activePositions)
  }

  /**
   * CancelOrders: each order is marked Cancelled and taken off the active list, then its
   * legs are cancelled the same way, before the next order is looked at.
   */
  function Cancel(a: Account, rank: map<OrderRef, nat>, refs: seq<OrderRef>): (b: Account)
    requires Ranked(Links(a.orders), rank) && AllIn(Links(a.orders), refs)
    ensures b == a.(orders := b.orders, active := b.active)
    ensures KeepsTerms(a.orders, b.orders) && Links(b.orders) == Links(a.orders)
    decreases TotalWeight(Links(a.orders), rank, refs)
  {
    if refs == [] then a
    else
      var x := refs[0];
      var a1 := CancelOne(a, x);
      KeepsTermsLinks(a.orders, a1.orders);
      WeightOfLegs(Links(a.orders), rank, x);
      var a2 := Cancel(a1, rank, a.orders[x].children);
      KeepsTermsLinks(a1.orders, a2.orders);
      Cancel(a2, rank, refs[1..])
  }

  /** One order marked Cancelled and one occurrence of it taken off the active list. */
  function CancelOne(a: Account, x: OrderRef): (b: Account)
    requires x in a.orders
    ensures b == a.(orders := b.orders, active := b.active)
    ensures b.orders == MarkCancelled(a.orders, [x]) && b.active == RemoveAll(a.active, [x])
  {
    var b := a.(orders := a.orders[x := a.orders[x].(status := Some(Cancelled))], active := RemoveFirst(a.active, x));
    assert b.orders == MarkCancelled(a.orders, [x]);
    b
  }

  /** Cancelling one order and then its legs' subtrees, as one step of Cancel. */
  lemma CancelStep(a: Account, rank: map<OrderRef, nat>, refs: seq<OrderRef>)
    requires Ranked(Links(a.orders), rank) && AllIn(Links(a.orders), refs) && refs != []
    ensures Links(CancelOne(a, refs[0]).orders) == Links(a.orders)
    ensures AllIn(Links(a.orders), a.orders[refs[0]].children)
    ensures Links(Cancel(CancelOne(a, refs[0]), rank, a.orders[refs[0]].children).orders) == Links(a.orders)
    ensures Cancel(a, rank, refs) == Cancel(Cancel(CancelOne(a, refs[0]), rank, a.orders[refs[0]].children), rank, refs[1..])
    ensures Preorder(Links(a.orders), rank, refs)
         == [refs[0]] + Preorder(Links(a.orders), rank, a.orders[refs[0]].children) + Preorder(Links(a.orders), rank, refs[1..])
  {
    var x := refs[0];
    var a1 := CancelOne(a, x);
    KeepsTermsLinks(a.orders, a1.orders);
    WeightOfLegs(Links(a.orders), rank, x);
    KeepsTermsLinks(a1.orders, Cancel(a1, rank, a.orders[x].children).orders);
  }

  /** Exactly the orders of the subtrees of `refs` become Cancelled; nothing else changes status. */
  lemma {:induction false} CancelStatuses(a: Account, rank: map<OrderRef, nat>, refs: seq<OrderRef>)
    requires Ranked(Links(a.orders), rank) && AllIn(Links(a.orders), refs)
    ensures Cancel(a, rank, refs).orders == MarkCancelled(a.orders, Preorder(Links(a.orders), rank, refs))
    decreases TotalWeight(Links(a.orders), rank, refs)
  {
    if refs == [] {
      assert MarkCancelled(a.orders, []) == a.orders;
    } else {
      CancelStep(a, rank, refs);
      var links := Links(a.orders);
      var x := refs[0];
      var a1 := CancelOne(a, x);
      var legs := a.orders[x].children;
      WeightOfLegs(links, rank, x);
      CancelStatuses(a1, rank, legs);
      var a2 := Cancel(a1, rank, legs);
      CancelStatuses(a2, rank, refs[1..]);
      var pl := Preorder(links, rank, legs);
      var pr := Preorder(links, rank, refs[1..]);
      MarkCancelledTwice(a.orders, [x], pl);
      MarkCancelledTwice(a.orders, [x] + pl, pr);
    }
  }

  /** Each visit of the cancel walk takes one occurrence of the visited order off the active list. */
  lemma {:induction false} CancelActive(a: Account, rank: map<OrderRef, nat>, refs: seq<OrderRef>)
    requires Ranked(Links(a.orders), rank) && AllIn(Links(a.orders), refs)
    ensures Cancel(a, rank, refs).active == RemoveAll(a.active, Preorder(Links(a.orders), rank, refs))
    decreases TotalWeight(Links(a.orders), rank, refs)
  {
    if refs != [] {
      CancelStep(a, rank, refs);
      var links := Links(a.orders);
      var x := refs[0];
      var a1 := CancelOne(a, x);
      var legs := a.orders[x].children;
      WeightOfLegs(links, rank, x);
      CancelActive(a1, rank, legs);
      var a2 := Cancel(a1, rank, legs);
      CancelActive(a2, rank, refs[1..]);
      var pl := Preorder(links, rank, legs);
      var pr := Preorder(links, rank, refs[1..]);
      RemoveAllAppend(a.active, [x], pl);
      RemoveAllAppend(a.active, [x] + pl, pr);
    }
  }

  /** Cancelling keeps the account valid and never adds weight to the active list. */
  lemma CancelKeepsValid(a: Account, rank: map<OrderRef, nat>, refs: seq<OrderRef>)
    requires AccountValid(a, rank) && AllIn(Links(a.orders), refs)
    ensures AccountValid(Cancel(a, rank, refs), rank)
    ensures Links(Cancel(a, rank, refs).orders) == Links(a.orders)
    ensures TotalWeight(Links(a.orders), rank, Cancel(a, rank, refs).active) <= TotalWeight(Links(a.orders), rank, a.active)
  {
    var b := Cancel(a, rank, refs);
    KeepsTermsLinks(a.orders, b.orders);
    CancelActive(a, rank, refs);
    RemoveAllWeight(Links(a.orders), rank, a.active, Preorder(Links(a.orders), rank, refs));
  }

  /** The latest bar of the instrument an order names; null without an instrument or before any quote. */
  function OrderBar(a: Account, o: Order): (b: Option<Point>)
    ensures b.Some? <==> o.instrument.Some? && o.instrument.value in a.instruments && |a.instruments[o.instrument.value].pointGroups| > 0
  {
    if o.instrument.Some? && o.instrument.value in a.instruments then LastBar(a.instruments[o.instrument.value]) else None
  }

  /** An order the gateway can fill: stored, and its instrument has a latest bar. */
  predicate CanFill(a: Account, r: OrderRef)
  {
    r in a.orders && OrderBar(a, a.orders[r]).Some?
  }

  /**
   * GetOpenPrices: the one lot an order fills: its own price unless that is null or 0,
   * otherwise the ask for a buy and the bid for anything else; its size; the bar's time.
   */
  function OpenLot(o: Order, bar: Point): (lot: Lot)
    ensures lot.size == o.size && lot.time == bar.time
    ensures o.price.Some? && o.price.value != 0.0 ==> lot.price == o.price
    ensures o.price.None? || o.price.value == 0.0 ==>
      lot.price == (if SideOf(o.orderType) == Some(BuySide) then bar.ask else bar.bid)
  {
    var price := if Compare(o.price.OrElse(0.0), 0.0) then (if SideOf(o.orderType) == Some(BuySide) then bar.ask else bar.bid) else o.price;
    Lot(price, o.size, bar.time)
  }

  /** A resting order that passed intake fills at its own price, never at the market. */
  lemma RestingFillsAtOwnPrice(o: Order, inst: Option<Instrument>, bar: Point)
    requires OrderAccepted(o, inst) && !IsImmediate(o.orderType)
    ensures OpenLot(o, bar).price == o.price && o.price.Some?
  {
  }

  /** The order as a fill leaves it: the bar's time, the lot's price, Filled. */
  function FillOrder(o: Order, bar: Point): Order
  {
    o.(time := bar.time, price := OpenLot(o, bar).price, status := Some(Filled))
  }

  /** The first active position on the named instrument (`FirstOrDefault`). */
  function FindActive(positions: map<PositionRef, Position>, ks: seq<PositionRef>, name: Option<string>): (k: Option<PositionRef>)
    requires PositionsIn(positions, ks)
    ensures k.Some? ==> k.value in ks && k.value in positions && positions[k.value].instrument == name
    ensures k.None? <==> forall i :: 0 <= i < |ks| ==> positions[ks[i]].instrument != name
  {
    if ks == [] then None
    else if positions[ks[0]].instrument == name then Some(ks[0])
    else
      var k := FindActive(positions, ks[1..], name);
      assert forall i :: 1 <= i < |ks| ==> ks[i] == ks[1..][i - 1];
      k
  }

  /** Both on the buy side or both on the sell side. */
  predicate SameSide(p: Position, o: Order)
  {
    (SideOf(p.orderType) == Some(BuySide) && SideOf(o.orderType) == Some(BuySide)) ||
    (SideOf(p.orderType) == Some(SellSide) && SideOf(o.orderType) == Some(SellSide))
  }

  /** `Sum(o => o.Size * o.Price)`: lots without a price are skipped. */
  function LotsValue(lots: seq<Lot>): real
  {
    if lots == [] then 0.0
    else (if lots[0].price.Some? then lots[0].size * lots[0].price.value else 0.0) + LotsValue(lots[1..])
  }

  /** `Sum(o => o.Size)`. */
  function LotsSize(lots: seq<Lot>): real
  {
    if lots == [] then 0.0 else lots[0].size + LotsSize(lots[1..])
  }

  /** The size-weighted average price of the lots; null when the sizes add up to 0. */
  function AveragePrice(lots: seq<Lot>): Option<real>
  {
    if LotsSize(lots) == 0.0 then None else Some(LotsValue(lots) / LotsSize(lots))
  }

  lemma {:induction false} LotsBounds(lots: seq<Lot>, lo: real, hi: real)
    requires forall i :: 0 <= i < |lots| ==> lots[i].price.Some? && lots[i].size >= 0.0 && lo <= lots[i].price.value <= hi
    ensures lo * LotsSize(lots) <= LotsValue(lots) <= hi * LotsSize(lots)
  {
    if lots != [] {
      LotsBounds(lots[1..], lo, hi);
      var l := lots[0];
      assert l.size * lo <= l.size * l.price.value <= l.size * hi by {
        assert l.size * (l.price.value - lo) >= 0.0;
        assert l.size * (hi - l.price.value) >= 0.0;
      }
    }
  }

  /** The average open price of priced lots of positive size lies between the lowest and highest fill. */
  lemma AveragePriceBetween(lots: seq<Lot>, lo: real, hi: real)
    requires |lots| > 0
    requires forall i :: 0 <= i < |lots| ==> lots[i].price.Some? && lots[i].size > 0.0 && lo <= lots[i].price.value <= hi
    ensures AveragePrice(lots).Some? && lo <= AveragePrice(lots).value <= hi
  {
    LotsBounds(lots, lo, hi);
    PositiveSize(lots);
    DivBetween(LotsValue(lots), LotsSize(lots), lo, hi);
  }

  lemma DivBetween(v: real, n: real, lo: real, hi: real)
    requires n > 0.0 && lo * n <= v <= hi * n
    ensures lo <= v / n <= hi
  {
    assert (v / n) * n == v;
  }

  lemma {:induction false} PositiveSize(lots: seq<Lot>)
    requires |lots| > 0 && forall i :: 0 <= i < |lots| ==> lots[i].size > 0.0
    ensures LotsSize(lots) > 0.0
  {
    if |lots| > 1 {
      PositiveSize(lots[1..]);
    }
  }

  /**
   * The previous position as Increase and Decrease leave it: closed at the given time and
   * price, with GainLoss and GainLossPoints taken from the estimates against its own
   * price (whose running extremes they update on the way).
   */
  function ClosePosition(p: Position, inst: Instrument, closeTime: Option<nat>, closePrice: Option<real>): (q: Position)
    ensures q.closeTime == closeTime && q.closePrice == closePrice
    ensures q.gainLoss == GainLossEstimate(p, inst, p.price).value
    ensures q.gainLossPoints == PointsEstimate(p, inst, p.price).value
    ensures q.instrument == p.instrument && q.size == p.size && q.orderType == p.orderType && q.children == p.children
  {
    var p1 := p.(closeTime := closeTime, closePrice := closePrice);
    EstimatesReadTerms(p1, p, inst, p.price);
    var gl := GainLoss(p1, inst);
    var p2 := gl.position.(gainLoss := gl.value);
    var pts := GainLossPoints(p2, inst);
    EstimatesReadTerms(p2, p, inst, p.price);
    pts.position.(gainLossPoints := pts.value)
  }

  /** Taking one position off a list that satisfies netting leaves none on its instrument. */
  lemma RemoveOnlyActive(positions: map<PositionRef, Position>, ks: seq<PositionRef>, k: PositionRef)
    requires PositionsIn(positions, ks) && OneActivePerInstrument(positions, ks)
    requires k in ks
    ensures PositionsIn(positions, RemoveFirst(ks, k)) && OneActivePerInstrument(positions, RemoveFirst(ks, k))
    ensures forall i :: 0 <= i < |RemoveFirst(ks, k)| ==> positions[RemoveFirst(ks, k)[i]].instrument != positions[k].instrument
  {
    var i :| 0 <= i < |ks| && ks[i] == k && k !in ks[..i];
    RemoveFirstSplit(ks, k, i);
    var rest := RemoveFirst(ks, k);
    forall j | 0 <= j < |rest|
      ensures rest[j] in positions && positions[rest[j]].instrument != positions[k].instrument
    {
      if j < i { assert rest[j] == ks[j]; } else { assert rest[j] == ks[j + 1]; }
    }
    forall j1, j2 | 0 <= j1 < j2 < |rest|
      ensures positions[rest[j1]].instrument != positions[rest[j2]].instrument
    {
      var m1 := if j1 < i then j1 else j1 + 1;
      var m2 := if j2 < i then j2 else j2 + 1;
      assert rest[j1] == ks[m1] && rest[j2] == ks[m2];
    }
  }

  /**
   * A step of the gateway from `a` to `b` that handled order `r`: the account stays valid,
   * orders keep their terms, the instruments are untouched, and if `r` was active, the
   * active list lost at least `r`'s weight.
   */
  predicate Progress(a: Account, b: Account, rank: map<OrderRef, nat>, r: OrderRef)
    requires AccountValid(a, rank) && r in a.orders
  {
    && AccountValid(b, rank)
    && KeepsTerms(a.orders, b.orders)
    && Links(b.orders) == Links(a.orders)
    && b.instruments == a.instruments
    && (r in a.active ==>
          TotalWeight(Links(a.orders), rank, b.active) + Weight(Links(a.orders), rank, r) <= TotalWeight(Links(a.orders), rank, a.active))
  }

  /** The position an order opens: the order's terms, the bar's time and the one lot it filled. */
  function Opened(o: Order, bar: Point): (p: Position)
    ensures p.instrument == o.instrument && p.orderType == o.orderType && p.size == o.size && p.children == o.children
    ensures p.openPrices == [OpenLot(o, bar)] && p.price == OpenLot(o, bar).price && p.openPrice == p.price
    ensures p.time == bar.time && p.closeTime.None? && p.gainLoss.None?
  {
    UpdatePositionParams(NewPosition(), FillOrder(o, bar)).(time := bar.time, openPrices := [OpenLot(o, bar)])
  }

  /**
   * OpenPosition, when there is no active position on the order's instrument: the order is
   * filled and logged, leaves the active list, and a new position holding its one lot
   * becomes active.
   */
  function Open(a: Account, rank: map<OrderRef, nat>, r: OrderRef): (b: Account)
    requires AccountValid(a, rank) && CanFill(a, r)
    requires FindActive(a.positions, a.activePositions, a.orders[r].instrument).None?
  {
    var o := a.orders[r];
    var bar := OrderBar(a, o).value;
    a.(orders := a.orders[r := FillOrder(o, bar)],
       positions := a.positions[a.nextPosition := Opened(o, bar)],
       nextPosition := a.nextPosition + 1,
       orderLog := a.orderLog + [r],
       active := RemoveFirst(a.active, r),
       activePositions := a.activePositions + [a.nextPosition])
  }

  /** Orders whose terms are kept leave a valid account valid. */
  lemma ReplaceOrdersValid(a: Account, rank: map<OrderRef, nat>, orders: map<OrderRef, Order>)
    requires AccountValid(a, rank) && KeepsTerms(a.orders, orders)
    ensures AccountValid(a.(orders := orders), rank) && Links(orders) == Links(a.orders)
  {
    KeepsTermsLinks(a.orders, orders);
  }

  /** A fresh position on an instrument of the account that no active position is on can be opened. */
  lemma AddPositionValid(a: Account, rank: map<OrderRef, nat>, p: Position)
    requires AccountValid(a, rank)
    requires p.instrument.Some? && p.instrument.value in a.instruments
    requires forall c :: c in p.children ==> c in a.orders
    requires forall i :: 0 <= i < |a.activePositions| ==> a.positions[a.activePositions[i]].instrument != p.instrument
    ensures AccountValid(a.(positions := a.positions[a.nextPosition := p], nextPosition := a.nextPosition + 1,
                            activePositions := a.activePositions + [a.nextPosition]), rank)
  {
    var k := a.nextPosition;
    var b := a.(positions := a.positions[k := p], nextPosition := k + 1, activePositions := a.activePositions + [k]);
    assert k !in a.positions;
    assert PositionsIn(b.positions, b.activePositions);
    forall i, j | 0 <= i < j < |b.activePositions|
      ensures b.positions[b.activePositions[i]].instrument != b.positions[b.activePositions[j]].instrument
    {
      assert b.activePositions[i] == a.activePositions[i];
      if j < |a.activePositions| {
        assert b.activePositions[j] == a.activePositions[j];
      }
    }
  }

  /** New lists of stored handles leave a valid account valid. */
  lemma ListsValid(a: Account, rank: map<OrderRef, nat>, orderLog: seq<OrderRef>, active: seq<OrderRef>, positionLog: seq<PositionRef>)
    requires AccountValid(a, rank)
    requires AllIn(Links(a.orders), orderLog) && AllIn(Links(a.orders), active) && PositionsIn(a.positions, positionLog)
    ensures AccountValid(a.(orderLog := orderLog, active := active, positionLog := positionLog), rank)
  {
  }

  lemma AppendIn(links: map<OrderRef, seq<OrderRef>>, xs: seq<OrderRef>, r: OrderRef)
    requires AllIn(links, xs) && r in links
    ensures AllIn(links, xs + [r])
  {
    assert forall i :: 0 <= i < |xs| ==> (xs + [r])[i] == xs[i];
  }

  lemma OpenProgress(a: Account, rank: map<OrderRef, nat>, r: OrderRef)
    requires AccountValid(a, rank) && CanFill(a, r)
    requires FindActive(a.positions, a.activePositions, a.orders[r].instrument).None?
    ensures Progress(a, Open(a, rank, r), rank, r)
  {
    var o := a.orders[r];
    var bar := OrderBar(a, o).value;
    assert KeepsTerms(a.orders, a.orders[r := FillOrder(o, bar)]);
    assert forall c :: c in o.children ==> c in a.orders by {
      assert Links(a.orders)[r] == o.children;
    }
    OpenShape(a, rank, r, FillOrder(o, bar), Opened(o, bar));
  }

  /** Open with the filled order and the new position left abstract. */
  lemma OpenShape(a: Account, rank: map<OrderRef, nat>, r: OrderRef, filled: Order, next: Position)
    requires AccountValid(a, rank) && r in a.orders && KeepsTerms(a.orders, a.orders[r := filled])
    requires next.instrument.Some? && next.instrument.value in a.instruments && forall c :: c in next.children ==> c in a.orders
    requires forall i :: 0 <= i < |a.activePositions| ==> a.positions[a.activePositions[i]].instrument != next.instrument
    ensures Progress(a, a.(orders := a.orders[r := filled], positions := a.positions[a.nextPosition := next],
                           nextPosition := a.nextPosition + 1, orderLog := a.orderLog + [r], active := RemoveFirst(a.active, r),
                           activePositions := a.activePositions + [a.nextPosition]), rank, r)
  {
    var links := Links(a.orders);
    AddPositionValid(a, rank, next);
    var a1 := a.(positions := a.positions[a.nextPosition := next], nextPosition := a.nextPosition + 1,
                 activePositions := a.activePositions + [a.nextPosition]);
    ReplaceOrdersValid(a1, rank, a1.orders[r := filled]);
    var a2 := a1.(orders := a1.orders[r := filled]);
    TotalWeightRemove(links, rank, a.active, r);
    AppendIn(links, a.orderLog, r);
    ListsValid(a2, rank, a.orderLog + [r], RemoveFirst(a.active, r), a.positionLog);
  }

  /** Taking an active position off the list, replaced in the arena by its closed self, keeps the account valid. */
  lemma RetirePositionValid(a: Account, rank: map<OrderRef, nat>, k: PositionRef, q: Position)
    requires AccountValid(a, rank) && k in a.activePositions
    requires q.instrument == a.positions[k].instrument && q.children == a.positions[k].children
    ensures AccountValid(a.(positions := a.positions[k := q], activePositions := RemoveFirst(a.activePositions, k)), rank)
    ensures forall i :: 0 <= i < |RemoveFirst(a.activePositions, k)| ==>
              a.positions[k := q][RemoveFirst(a.activePositions, k)[i]].instrument != q.instrument
  {
    RemoveOnlyActive(a.positions, a.activePositions, k);
    var rest := RemoveFirst(a.activePositions, k);
    var ps := a.positions[k := q];
    assert forall i :: 0 <= i < |rest| ==> rest[i] != k && ps[rest[i]] == a.positions[rest[i]];
  }

  /**
   * The position IncreasePosition opens: the order's terms and the bar's time, the sizes
   * added, the previous lots followed by the new one, and their average as open price.
   */
  function Increased(prev: Position, o: Order, bar: Point): (p: Position)
    ensures p.instrument == o.instrument && p.orderType == o.orderType && p.children == o.children
    ensures p.size == prev.size + o.size && p.time == bar.time && p.price == OpenLot(o, bar).price
    ensures p.openPrices == prev.openPrices + [OpenLot(o, bar)] && p.openPrice == AveragePrice(p.openPrices)
  {
    var lots := prev.openPrices + [OpenLot(o, bar)];
    UpdatePositionParams(NewPosition(), FillOrder(o, bar)).(
      time := bar.time, size := o.size + prev.size, openPrices := lots, openPrice := AveragePrice(lots))
  }

  /**
   * IncreasePosition, when the active position `k` on the order's instrument is on the
   * order's side: the order is filled, the previous position is closed at the new average
   * open price and logged, and the increased position takes its place in the active list.
   */
  function Increase(a: Account, rank: map<OrderRef, nat>, r: OrderRef, k: PositionRef): (b: Account)
    requires AccountValid(a, rank) && CanFill(a, r)
    requires FindActive(a.positions, a.activePositions, a.orders[r].instrument) == Some(k)
  {
    var o := a.orders[r];
    var bar := OrderBar(a, o).value;
    var next := Increased(a.positions[k], o, bar);
    var closed := ClosePosition(a.positions[k], a.instruments[o.instrument.value], next.time, next.openPrice);
    a.(orders := a.orders[r := FillOrder(o, bar)],
       positions := a.positions[k := closed][a.nextPosition := next],
       nextPosition := a.nextPosition + 1,
       orderLog := a.orderLog + [r],
       active := RemoveFirst(a.active, r),
       positionLog := a.positionLog + [k],
       activePositions := RemoveFirst(a.activePositions, k) + [a.nextPosition])
  }

  lemma IncreaseProgress(a: Account, rank: map<OrderRef, nat>, r: OrderRef, k: PositionRef)
    requires AccountValid(a, rank) && CanFill(a, r)
    requires FindActive(a.positions, a.activePositions, a.orders[r].instrument) == Some(k)
    ensures Progress(a, Increase(a, rank, r, k), rank, r)
  {
    var o := a.orders[r];
    var bar := OrderBar(a, o).value;
    var next := Increased(a.positions[k], o, bar);
    var closed := ClosePosition(a.positions[k], a.instruments[o.instrument.value], next.time, next.openPrice);
    assert KeepsTerms(a.orders, a.orders[r := FillOrder(o, bar)]);
    assert forall c :: c in o.children ==> c in a.orders by {
      assert Links(a.orders)[r] == o.children;
    }
    IncreaseShape(a, rank, r, FillOrder(o, bar), k, closed, next);
  }

  /** Increase with the filled order, the closed position and the new one left abstract. */
  lemma IncreaseShape(a: Account, rank: map<OrderRef, nat>, r: OrderRef, filled: Order, k: PositionRef, closed: Position, next: Position)
    requires AccountValid(a, rank) && r in a.orders && KeepsTerms(a.orders, a.orders[r := filled]) && k in a.activePositions
    requires closed.instrument == a.positions[k].instrument && closed.children == a.positions[k].children
    requires next.instrument == a.positions[k].instrument && forall c :: c in next.children ==> c in a.orders
    ensures Progress(a, a.(orders := a.orders[r := filled], positions := a.positions[k := closed][a.nextPosition := next],
                           nextPosition := a.nextPosition + 1, orderLog := a.orderLog + [r], active := RemoveFirst(a.active, r),
                           positionLog := a.positionLog + [k], activePositions := RemoveFirst(a.activePositions, k) + [a.nextPosition]), rank, r)
  {
    var links := Links(a.orders);
    var a1 := a.(orders := a.orders[r := filled]);
    ReplaceOrdersValid(a, rank, a1.orders);
    var a2 := a1.(positions := a1.positions[k := closed], activePositions := RemoveFirst(a1.activePositions, k));
    RetirePositionValid(a1, rank, k, closed);
    AddPositionValid(a2, rank, next);
    var a3 := a2.(positions := a2.positions[a2.nextPosition := next], nextPosition := a2.nextPosition + 1,
                  activePositions := a2.activePositions + [a2.nextPosition]);
    TotalWeightRemove(links, rank, a.active, r);
    AppendIn(links, a.orderLog, r);
    assert PositionsIn(a3.positions, a.positionLog + [k]);
    ListsValid(a3, rank, a.orderLog + [r], RemoveFirst(a.active, r), a.positionLog + [k]);
  }

  /**
   * The position DecreasePosition opens: the order's terms, the bar's time, the order's one
   * lot, and the size by which the order exceeds or falls short of the previous position.
   */
  function Remainder(prev: Position, o: Order, bar: Point): (p: Position)
    ensures p.instrument == o.instrument && p.orderType == o.orderType && p.children == o.children
    ensures p.size == Abs(o.size - prev.size) && p.time == bar.time
    ensures p.openPrices == [OpenLot(o, bar)] && p.price == OpenLot(o, bar).price && p.openPrice == p.price
  {
    Opened(o, bar).(size := Abs(o.size - prev.size))
  }

  /**
   * The first half of DecreasePosition: the order is filled and leaves the active list, the
   * previous position is closed at the order's price, its gain or loss is added to the
   * balance (a null balance or gain stays null), and it leaves the active list.
   */
  function CloseOut(a: Account, rank: map<OrderRef, nat>, r: OrderRef, k: PositionRef): (b: Account)
    requires AccountValid(a, rank) && CanFill(a, r)
    requires FindActive(a.positions, a.activePositions, a.orders[r].instrument) == Some(k)
  {
    var o := a.orders[r];
    var bar := OrderBar(a, o).value;
    var next := Remainder(a.positions[k], o, bar);
    var closed := ClosePosition(a.positions[k], a.instruments[o.instrument.value], next.time, next.openPrice);
    a.(orders := a.orders[r := FillOrder(o, bar)],
       positions := a.positions[k := closed],
       balance := AddOpt(a.balance, closed.gainLoss),
       active := RemoveFirst(a.active, r),
       activePositions := RemoveFirst(a.activePositions, k))
  }

  lemma CloseOutValid(a: Account, rank: map<OrderRef, nat>, r: OrderRef, k: PositionRef)
    requires AccountValid(a, rank) && CanFill(a, r)
    requires FindActive(a.positions, a.activePositions, a.orders[r].instrument) == Some(k)
    ensures var b := CloseOut(a, rank, r, k);
      && AccountValid(b, rank) && KeepsTerms(a.orders, b.orders) && Links(b.orders) == Links(a.orders)
      && AllIn(Links(a.orders), a.positions[k].children)
      && (forall i :: 0 <= i < |b.activePositions| ==> b.positions[b.activePositions[i]].instrument != a.orders[r].instrument)
      && (r in a.active ==> TotalWeight(Links(a.orders), rank, b.active) + Weight(Links(a.orders), rank, r) == TotalWeight(Links(a.orders), rank, a.active))
  {
    var o := a.orders[r];
    var bar := OrderBar(a, o).value;
    var next := Remainder(a.positions[k], o, bar);
    var closed := ClosePosition(a.positions[k], a.instruments[o.instrument.value], next.time, next.openPrice);
    assert KeepsTerms(a.orders, a.orders[r := FillOrder(o, bar)]);
    CloseOutShape(a, rank, r, FillOrder(o, bar), k, closed, AddOpt(a.balance, closed.gainLoss));
  }

  /** CloseOut with the filled order, the closed position and the balance left abstract. */
  lemma CloseOutShape(a: Account, rank: map<OrderRef, nat>, r: OrderRef, filled: Order, k: PositionRef, closed: Position, balance: Option<real>)
    requires AccountValid(a, rank) && r in a.orders && KeepsTerms(a.orders, a.orders[r := filled]) && k in a.activePositions
    requires closed.instrument == a.positions[k].instrument && closed.children == a.positions[k].children
    ensures var b := a.(orders := a.orders[r := filled], positions := a.positions[k := closed], balance := balance,
                        active := RemoveFirst(a.active, r), activePositions := RemoveFirst(a.activePositions, k));
      && AccountValid(b, rank) && KeepsTerms(a.orders, b.orders) && Links(b.orders) == Links(a.orders)
      && AllIn(Links(a.orders), a.positions[k].children)
      && (forall i :: 0 <= i < |b.activePositions| ==> b.positions[b.activePositions[i]].instrument != a.positions[k].instrument)
      && (r in a.active ==> TotalWeight(Links(a.orders), rank, b.active) + Weight(Links(a.orders), rank, r) == TotalWeight(Links(a.orders), rank, a.active))
  {
    var links := Links(a.orders);
    var a1 := a.(orders := a.orders[r := filled], balance := balance);
    ReplaceOrdersValid(a, rank, a1.orders);
    var a2 := a1.(positions := a1.positions[k := closed], activePositions := RemoveFirst(a1.activePositions, k));
    RetirePositionValid(a1, rank, k, closed);
    TotalWeightRemove(links, rank, a.active, r);
    ListsValid(a2, rank, a.orderLog, RemoveFirst(a.active, r), a.positionLog);
  }

  /**
   * The middle of DecreasePosition: after CloseOut the previous position's legs are
   * cancelled, and the order and the previous position are logged.
   */
  function Settle(a: Account, rank: map<OrderRef, nat>, r: OrderRef, k: PositionRef): (b: Account)
    requires AccountValid(a, rank) && CanFill(a, r)
    requires FindActive(a.positions, a.activePositions, a.orders[r].instrument) == Some(k)
  {
    var a1 := CloseOut(a, rank, r, k);
    CloseOutValid(a, rank, r, k);
    var a2 := Cancel(a1, rank, a.positions[k].children);
    a2.(orderLog := a2.orderLog + [r], positionLog := a2.positionLog + [k])
  }

  /** Cancelling a list of legs and logging an order and a position keeps a valid account valid. */
  lemma CancelAndLog(a: Account, rank: map<OrderRef, nat>, legs: seq<OrderRef>, r: OrderRef, k: PositionRef)
    requires AccountValid(a, rank) && AllIn(Links(a.orders), legs) && r in a.orders && k in a.positions
    ensures var c := Cancel(a, rank, legs);
      var b := c.(orderLog := c.orderLog + [r], positionLog := c.positionLog + [k]);
      && AccountValid(b, rank) && KeepsTerms(a.orders, b.orders) && Links(b.orders) == Links(a.orders)
      && b.positions == a.positions && b.activePositions == a.activePositions && b.instruments == a.instruments
      && b.nextPosition == a.nextPosition
      && TotalWeight(Links(a.orders), rank, b.active) <= TotalWeight(Links(a.orders), rank, a.active)
  {
    var c := Cancel(a, rank, legs);
    CancelKeepsValid(a, rank, legs);
    AppendIn(Links(a.orders), c.orderLog, r);
    assert PositionsIn(c.positions, c.positionLog + [k]);
    ListsValid(c, rank, c.orderLog + [r], c.active, c.positionLog + [k]);
  }

  lemma SettleValid(a: Account, rank: map<OrderRef, nat>, r: OrderRef, k: PositionRef)
    requires AccountValid(a, rank) && CanFill(a, r)
    requires FindActive(a.positions, a.activePositions, a.orders[r].instrument) == Some(k)
    ensures var b := Settle(a, rank, r, k);
      && AccountValid(b, rank) && KeepsTerms(a.orders, b.orders) && Links(b.orders) == Links(a.orders)
      && b.instruments == a.instruments && b.nextPosition == a.nextPosition
      && (forall i :: 0 <= i < |b.activePositions| ==> b.positions[b.activePositions[i]].instrument != a.orders[r].instrument)
      && (r in a.active ==> TotalWeight(Links(a.orders), rank, b.active) + Weight(Links(a.orders), rank, r) <= TotalWeight(Links(a.orders), rank, a.active))
  {
    var a1 := CloseOut(a, rank, r, k);
    CloseOutValid(a, rank, r, k);
    CancelAndLog(a1, rank, a.positions[k].children, r, k);
  }

  /** After Settle, what is left of the order fits the account as a new active position. */
  lemma SettleLeavesRoom(a: Account, rank: map<OrderRef, nat>, r: OrderRef, k: PositionRef)
    requires AccountValid(a, rank) && CanFill(a, r)
    requires FindActive(a.positions, a.activePositions, a.orders[r].instrument) == Some(k)
    ensures Fits(Settle(a, rank, r, k), Remainder(a.positions[k], a.orders[r], OrderBar(a, a.orders[r]).value))
  {
    SettleValid(a, rank, r, k);
  }

  /**
   * `p` can become an active position of `a`: it is on one of the account's instruments,
   * its legs are orders of the account and no active position is on that instrument.
   */
  predicate Fits(a: Account, p: Position)
  {
    && p.instrument.Some? && p.instrument.value in a.instruments && (forall c :: c in p.children ==> c in a.orders)
    && PositionsIn(a.positions, a.activePositions)
    && (forall i :: 0 <= i < |a.activePositions| ==> a.positions[a.activePositions[i]].instrument != p.instrument)
  }

  /**
   * DecreasePosition, when the active position `k` on the order's instrument is on the
   * other side: after Settle, what remains of the order, if its size is not 0, becomes the
   * active position.
   */
  function Decrease(a: Account, rank: map<OrderRef, nat>, r: OrderRef, k: PositionRef): (b: Account)
    requires AccountValid(a, rank) && CanFill(a, r)
    requires FindActive(a.positions, a.activePositions, a.orders[r].instrument) == Some(k)
  {
    AddRemainder(Settle(a, rank, r, k), Remainder(a.positions[k], a.orders[r], OrderBar(a, a.orders[r]).value))
  }

  /** The tail of DecreasePosition: a remainder of non-zero size becomes a new active position. */
  function AddRemainder(a: Account, next: Position): (b: Account)
    ensures b == a <==> Compare(next.size, 0.0)
  {
    if Compare(next.size, 0.0) then a
    else a.(positions := a.positions[a.nextPosition := next], nextPosition := a.nextPosition + 1,
            activePositions := a.activePositions + [a.nextPosition])
  }

  lemma DecreaseProgress(a: Account, rank: map<OrderRef, nat>, r: OrderRef, k: PositionRef)
    requires AccountValid(a, rank) && CanFill(a, r)
    requires FindActive(a.positions, a.activePositions, a.orders[r].instrument) == Some(k)
    ensures Progress(a, Decrease(a, rank, r, k), rank, r)
  {
    var a3 := Settle(a, rank, r, k);
    SettleValid(a, rank, r, k);
    var next := Remainder(a.positions[k], a.orders[r], OrderBar(a, a.orders[r]).value);
    if !Compare(next.size, 0.0) {
      AddPositionValid(a3, rank, next);
    }
  }

  /** The bracket loop of CreatePosition: each leg gets the bar's time, becomes Placed and is appended to the active list. */
  function PlaceLegs(a: Account, legs: seq<OrderRef>, time: Option<nat>): (b: Account)
    requires forall i :: 0 <= i < |legs| ==> legs[i] in a.orders
    ensures b == a.(orders := b.orders, active := a.active + legs)
    ensures KeepsTerms(a.orders, b.orders)
    decreases |legs|
  {
    if legs == [] then a
    else
      var x := legs[0];
      var a1 := a.(orders := a.orders[x := a.orders[x].(time := time, status := Some(Placed))], active := a.active + [x]);
      assert a.active + legs == a1.active + legs[1..];
      PlaceLegs(a1, legs[1..], time)
  }

  /** Exactly the legs are stamped with the time and Placed; every other order is untouched. */
  lemma {:induction false} PlaceLegsStatus(a: Account, legs: seq<OrderRef>, time: Option<nat>)
    requires forall i :: 0 <= i < |legs| ==> legs[i] in a.orders
    ensures forall x :: x in a.orders ==>
      PlaceLegs(a, legs, time).orders[x] == if x in legs then a.orders[x].(time := time, status := Some(Placed)) else a.orders[x]
    decreases |legs|
  {
    if legs != [] {
      var x := legs[0];
      var a1 := a.(orders := a.orders[x := a.orders[x].(time := time, status := Some(Placed))], active := a.active + [x]);
      PlaceLegsStatus(a1, legs[1..], time);
      assert forall y :: y in legs <==> y == x || y in legs[1..];
    }
  }

  /**
   * CreatePosition: OpenPosition when no active position is on the order's instrument,
   * IncreasePosition when there is one on the same side, DecreasePosition otherwise; then
   * the order's legs are placed at the time of the instrument's latest bar.
   */
  function CreatePosition(a: Account, rank: map<OrderRef, nat>, r: OrderRef): (b: Account)
    requires AccountValid(a, rank) && CanFill(a, r)
  {
    var o := a.orders[r];
    var b := Fill(a, rank, r);
    FillKeepsOrders(a, rank, r);
    PlaceLegs(b, o.children, OrderBar(a, o).value.time)
  }

  /** The fill CreatePosition makes, before the legs are placed. */
  function Fill(a: Account, rank: map<OrderRef, nat>, r: OrderRef): (b: Account)
    requires AccountValid(a, rank) && CanFill(a, r)
  {
    var k := FindActive(a.positions, a.activePositions, a.orders[r].instrument);
    if k.None? then Open(a, rank, r)
    else if SameSide(a.positions[k.value], a.orders[r]) then Increase(a, rank, r, k.value)
    else Decrease(a, rank, r, k.value)
  }

  /** The fill keeps the arena's handles. */
  lemma FillKeepsOrders(a: Account, rank: map<OrderRef, nat>, r: OrderRef)
    requires AccountValid(a, rank) && CanFill(a, r)
    ensures Fill(a, rank, r).orders.Keys == a.orders.Keys
  {
    FillProgress(a, rank, r);
  }

  /** Whichever of the three fills CreatePosition takes makes progress. */
  lemma FillProgress(a: Account, rank: map<OrderRef, nat>, r: OrderRef)
    requires AccountValid(a, rank) && CanFill(a, r)
    ensures Progress(a, Fill(a, rank, r), rank, r)
  {
    var k := FindActive(a.positions, a.activePositions, a.orders[r].instrument);
    if k.None? {
      OpenProgress(a, rank, r);
    } else if SameSide(a.positions[k.value], a.orders[r]) {
      IncreaseProgress(a, rank, r, k.value);
    } else {
      DecreaseProgress(a, rank, r, k.value);
    }
  }

  /**
   * CreatePosition keeps the account valid (in particular netting: one active position per
   * instrument), keeps every order's terms, and, when it fills an active order, strictly
   * lowers the weight of the active list: the order leaves it and only its legs join.
   */
  lemma CreatePositionProgress(a: Account, rank: map<OrderRef, nat>, r: OrderRef)
    requires AccountValid(a, rank) && CanFill(a, r)
    ensures var b := CreatePosition(a, rank, r);
      && AccountValid(b, rank) && KeepsTerms(a.orders, b.orders) && Links(b.orders) == Links(a.orders)
      && b.instruments == a.instruments
      && (r in a.active ==> TotalWeight(Links(a.orders), rank, b.active) < TotalWeight(Links(a.orders), rank, a.active))
  {
    var o := a.orders[r];
    var links := Links(a.orders);
    var b := Fill(a, rank, r);
    FillProgress(a, rank, r);
    WeightOfLegs(links, rank, r);
    var c := PlaceLegs(b, o.children, OrderBar(a, o).value.time);
    assert c == CreatePosition(a, rank, r);
    KeepsTermsLinks(b.orders, c.orders);
    TotalWeightAppend(links, rank, b.active, o.children);
  }

  /**
   * The trigger rules of ProcessPendingOrders, for an order whose instrument has a latest
   * bar: a buy stop or a sell limit fires when the ask reaches its price, a sell stop or a
   * buy limit when the bid reaches it; a null quote or price never fires, and neither do
   * other types. An order without an instrument or without a bar is skipped.
   */
  predicate Executable(a: Account, o: Order)
  {
    var bar := OrderBar(a, o);
    var side := SideOf(o.orderType);
    var kind := KindOf(o.orderType);
    && bar.Some?
    && if (side == Some(BuySide) && kind == Some(Stop)) || (side == Some(SellSide) && kind == Some(Limit)) then GeOpt(bar.value.ask, o.price)
       else if (side == Some(SellSide) && kind == Some(Stop)) || (side == Some(BuySide) && kind == Some(Limit)) then LeOpt(bar.value.bid, o.price)
       else false
  }

  /** The trigger rules type by type, in terms of the instrument's latest bar. */
  lemma ExecutableMeans(a: Account, o: Order)
    requires o.orderType.Some?
    ensures var bar := OrderBar(a, o);
      var t := o.orderType.value;
      && (t == BuyStop || t == SellLimit || t == SellStopLimit ==>
            (Executable(a, o) <==> bar.Some? && bar.value.ask.Some? && o.price.Some? && bar.value.ask.value >= o.price.value))
      && (t == SellStop || t == BuyLimit ==>
            (Executable(a, o) <==> bar.Some? && bar.value.bid.Some? && o.price.Some? && bar.value.bid.value <= o.price.value))
      && (t == NoneType || t == Buy || t == Sell || t == BuyStopLimit ==> !Executable(a, o))
  {
  }

  /**
   * A buy stop is accepted only at or above the ask, and fires only at or below it: on the
   * bar it was accepted against, it fires exactly when its price equals the ask. The same
   * holds for a sell stop and the bid.
   */
  lemma StopFiresOnAcceptanceBarOnlyAtQuote(a: Account, o: Order)
    requires o.instrument.Some? && o.instrument.value in a.instruments
    requires OrderAccepted(o, Some(a.instruments[o.instrument.value]))
    requires o.orderType == Some(BuyStop) || o.orderType == Some(SellStop)
    ensures o.orderType == Some(BuyStop) ==> (Executable(a, o) <==> OrderBar(a, o).value.ask == o.price)
    ensures o.orderType == Some(SellStop) ==> (Executable(a, o) <==> OrderBar(a, o).value.bid == o.price)
  {
    AcceptedMeans(o, Some(a.instruments[o.instrument.value]));
  }

  /**
   * ProcessPendingOrders from position `i` of the active list on: each executable order is
   * turned into a position by CreatePosition. The index moves on after a fill although the
   * filled order has left the list, so the order behind it is not looked at in this pass.
   */
  function Process(a: Account, rank: map<OrderRef, nat>, i: nat): (b: Account)
    requires AccountValid(a, rank)
    ensures AccountValid(b, rank) && KeepsTerms(a.orders, b.orders) && Links(b.orders) == Links(a.orders)
    ensures b.instruments == a.instruments
    decreases TotalWeight(Links(a.orders), rank, a.active), |a.active| - i
  {
    if i >= |a.active| then a
    else
      var r := a.active[i];
      if Executable(a, a.orders[r]) then
        CreatePositionProgress(a, rank, r);
        var b := CreatePosition(a, rank, r);
        KeepsTermsLinks(a.orders, b.orders);
        Process(b, rank, i + 1)
      else Process(a, rank, i + 1)
  }

  /** A pass in which no order from `i` on is executable changes nothing. */
  lemma {:induction false} ProcessQuiet(a: Account, rank: map<OrderRef, nat>, i: nat)
    requires AccountValid(a, rank)
    requires forall j :: i <= j < |a.active| ==> !Executable(a, a.orders[a.active[j]])
    ensures Process(a, rank, i) == a
    decreases |a.active| - i
  {
    if i < |a.active| {
      ProcessQuiet(a, rank, i + 1);
    }
  }

  /** Every handle of `refs` names an order of the arena. */
  predicate Stored(a: Account, refs: seq<OrderRef>)
  {
    forall i :: 0 <= i < |refs| ==> refs[i] in a.orders
  }

  /**
   * The loop of CreateOrders once validation passed: a market order goes to
   * CreatePosition; a stop, limit or stop-limit order without a container becomes Placed
   * and is appended to the order log and the active list; a resting bracket leg, and an
   * order without a kind, is left alone. A market order whose instrument has no bar makes
   * the source throw; the model leaves it alone too.
   */
  function Intake(a: Account, rank: map<OrderRef, nat>, refs: seq<OrderRef>): (b: Account)
    requires AccountValid(a, rank) && Stored(a, refs)
    ensures AccountValid(b, rank) && KeepsTerms(a.orders, b.orders) && Links(b.orders) == Links(a.orders)
    ensures b.instruments == a.instruments
    decreases |refs|
  {
    if refs == [] then a
    else
      var a1 := IntakeOne(a, rank, refs[0]);
      assert Stored(a1, refs[1..]);
      Intake(a1, rank, refs[1..])
  }

  /** One turn of the CreateOrders loop. */
  function IntakeOne(a: Account, rank: map<OrderRef, nat>, r: OrderRef): (b: Account)
    requires AccountValid(a, rank) && r in a.orders
    ensures AccountValid(b, rank) && KeepsTerms(a.orders, b.orders) && Links(b.orders) == Links(a.orders)
    ensures b.instruments == a.instruments
  {
    var o := a.orders[r];
    IntakeStep(a, rank, r);
    if KindOf(o.orderType) == Some(Market) then
      if CanFill(a, r) then CreatePosition(a, rank, r) else a
    else if KindOf(o.orderType).Some? && o.container.None? then
      Rest(a, r)
    else a
  }

  /** A resting order taken in: Placed, logged and active. */
  function Rest(a: Account, r: OrderRef): (b: Account)
    requires r in a.orders
  {
    a.(orders := a.orders[r := a.orders[r].(status := Some(Placed))], orderLog := a.orderLog + [r], active := a.active + [r])
  }

  lemma IntakeStep(a: Account, rank: map<OrderRef, nat>, r: OrderRef)
    requires AccountValid(a, rank) && r in a.orders
    ensures var o := a.orders[r];
      var b :=
        if KindOf(o.orderType) == Some(Market) then
          if CanFill(a, r) then CreatePosition(a, rank, r) else a
        else if KindOf(o.orderType).Some? && o.container.None? then
          Rest(a, r)
        else a;
      AccountValid(b, rank) && KeepsTerms(a.orders, b.orders) && Links(b.orders) == Links(a.orders)
      && b.instruments == a.instruments
  {
    var o := a.orders[r];
    if KindOf(o.orderType) == Some(Market) {
      if CanFill(a, r) {
        CreatePositionProgress(a, rank, r);
      }
    } else if KindOf(o.orderType).Some? && o.container.None? {
      var b := Rest(a, r);
      assert KeepsTerms(a.orders, b.orders);
      ReplaceOrdersValid(a, rank, b.orders);
      var a1 := a.(orders := b.orders);
      AppendIn(Links(a.orders), a.orderLog, r);
      AppendIn(Links(a.orders), a.active, r);
      ListsValid(a1, rank, a.orderLog + [r], a.active + [r], a.positionLog);
      assert b == a1.(orderLog := a.orderLog + [r], active := a.active + [r], positionLog := a.positionLog);
    }
  }

  /** An order that passed validation names an instrument with a latest bar, so a market order among them is filled. */
  lemma CleanOrderCanFill(a: Account, r: OrderRef)
    requires r in a.orders && OrderClean(a.instruments, a.orders[r])
    ensures CanFill(a, r)
  {
  }

  /**
   * CreateOrders: nothing happens unless every order and every direct leg passes
   * validation (the source then answers null); otherwise the orders are taken in.
   */
  function CreateOrdersSpec(a: Account, rank: map<OrderRef, nat>, refs: seq<OrderRef>): (b: Account)
    requires AccountValid(a, rank) && Known(a.orders, refs)
    ensures !OrdersClean(a.orders, a.instruments, refs) ==> b == a
    ensures AccountValid(b, rank) && KeepsTerms(a.orders, b.orders) && Links(b.orders) == Links(a.orders)
  {
    if OrdersClean(a.orders, a.instruments, refs) then Intake(a, rank, refs) else a
  }

  /**
   * The inner loop of UpdateOrders for one amendment `n`: every order on the active list
   * whose id is `n`'s takes `n`'s type, size, price and legs; status, instrument, container
   * and every other order stay as they were.
   */
  function Amend(orders: map<OrderRef, Order>, active: seq<OrderRef>, n: Order): (r: map<OrderRef, Order>)
    ensures r.Keys == orders.Keys
  {
    map x | x in orders :: if x in active && orders[x].id == n.id then
      orders[x].(orderType := n.orderType, size := n.size, price := n.price, children := n.children) else orders[x]
  }

  /** UpdateOrders: the amendments applied in order. */
  function AmendAll(orders: map<OrderRef, Order>, active: seq<OrderRef>, nexts: seq<Order>): (r: map<OrderRef, Order>)
    ensures r.Keys == orders.Keys
    decreases |nexts|
  {
    if nexts == [] then orders else AmendAll(Amend(orders, active, nexts[0]), active, nexts[1..])
  }

  /**
   * What UpdateOrders leaves of each order: an order off the active list is untouched; an
   * active one takes the terms of the last amendment carrying its id, or keeps its own if
   * none does; identity, status, instrument and container never change.
   */
  lemma {:induction false} AmendAllMeans(orders: map<OrderRef, Order>, active: seq<OrderRef>, nexts: seq<Order>, x: OrderRef)
    requires x in orders
    ensures var o := AmendAll(orders, active, nexts)[x];
      && o.id == orders[x].id && o.status == orders[x].status && o.instrument == orders[x].instrument
      && o.container == orders[x].container && o.name == orders[x].name && o.time == orders[x].time
      && (x !in active || LastWithId(nexts, orders[x].id).None? ==> o == orders[x])
      && (x in active && LastWithId(nexts, orders[x].id).Some? ==>
            var n := LastWithId(nexts, orders[x].id).value;
            o.orderType == n.orderType && o.size == n.size && o.price == n.price && o.children == n.children)
    decreases |nexts|
  {
    if nexts != [] {
      var o1 := Amend(orders, active, nexts[0]);
      AmendAllMeans(o1, active, nexts[1..], x);
      LastWithIdStep(nexts, orders[x].id);
    }
  }

  /** The last amendment in `nexts` with the given id. */
  function LastWithId(nexts: seq<Order>, id: string): (n: Option<Order>)
    ensures n.Some? ==> n.value in nexts && n.value.id == id
    ensures n.None? <==> forall i :: 0 <= i < |nexts| ==> nexts[i].id != id
    decreases |nexts|
  {
    if nexts == [] then None
    else if nexts[|nexts| - 1].id == id then Some(nexts[|nexts| - 1])
    else
      var n := LastWithId(nexts[..|nexts| - 1], id);
      assert forall i :: 0 <= i < |nexts| - 1 ==> nexts[i] == nexts[..|nexts| - 1][i];
      n
  }

  lemma LastWithIdStep(nexts: seq<Order>, id: string)
    requires nexts != []
    ensures LastWithId(nexts, id) == if LastWithId(nexts[1..], id).Some? then LastWithId(nexts[1..], id)
                                      else if nexts[0].id == id then Some(nexts[0]) else None
    decreases |nexts|
  {
    if |nexts| > 1 && nexts[|nexts| - 1].id != id {
      LastWithIdStep(nexts[..|nexts| - 1], id);
      assert nexts[..|nexts| - 1][1..] == nexts[1..][..|nexts[1..]| - 1];
    }
  }

  /** The resting orders without a container among `refs`, in order: those CreateOrders tracks. */
  function Resting(orders: map<OrderRef, Order>, refs: seq<OrderRef>): (rs: seq<OrderRef>)
    requires forall i :: 0 <= i < |refs| ==> refs[i] in orders
    ensures forall x :: x in rs ==> x in refs && x in orders
    decreases |refs|
  {
    if refs == [] then []
    else
      var o := orders[refs[0]];
      (if KindOf(o.orderType).Some? && KindOf(o.orderType) != Some(Market) && o.container.None? then [refs[0]] else [])
        + Resting(orders, refs[1..])
  }

  lemma {:induction false} RestingFrame(o1: map<OrderRef, Order>, o2: map<OrderRef, Order>, refs: seq<OrderRef>)
    requires KeepsTerms(o1, o2) && forall i :: 0 <= i < |refs| ==> refs[i] in o1
    ensures Resting(o1, refs) == Resting(o2, refs)
    decreases |refs|
  {
    if refs != [] {
      RestingFrame(o1, o2, refs[1..]);
    }
  }

  /** The intake of an order that is not a market order only rests it, or leaves it alone. */
  lemma IntakeNonMarket(a: Account, rank: map<OrderRef, nat>, refs: seq<OrderRef>)
    requires AccountValid(a, rank) && Stored(a, refs) && refs != []
    requires forall i :: 0 <= i < |refs| ==> KindOf(a.orders[refs[i]].orderType) != Some(Market)
    ensures var o := a.orders[refs[0]];
      var a1 := if KindOf(o.orderType).Some? && o.container.None? then Rest(a, refs[0]) else a;
      && AccountValid(a1, rank) && KeepsTerms(a.orders, a1.orders) && Stored(a1, refs[1..])
      && (forall i :: 0 <= i < |refs[1..]| ==> KindOf(a1.orders[refs[1..][i]].orderType) != Some(Market))
      && Intake(a, rank, refs) == Intake(a1, rank, refs[1..])
  {
    var a1 := IntakeOne(a, rank, refs[0]);
    assert Stored(a1, refs[1..]);
  }

  lemma AppendAssoc<T>(x: seq<T>, y: seq<T>, z: seq<T>)
    ensures x + y + z == x + (y + z)
  {
  }

  /**
   * Taking in orders none of which is a market order fills nothing: exactly the resting
   * orders without a container are appended, in order, to the order log and to the active
   * list; positions and balance stay as they were.
   */
  lemma {:induction false} IntakeResting(a: Account, rank: map<OrderRef, nat>, refs: seq<OrderRef>)
    requires AccountValid(a, rank) && Stored(a, refs)
    requires forall i :: 0 <= i < |refs| ==> KindOf(a.orders[refs[i]].orderType) != Some(Market)
    ensures var b := Intake(a, rank, refs);
      && b.orderLog == a.orderLog + Resting(a.orders, refs)
      && b.active == a.active + Resting(a.orders, refs)
      && b.positions == a.positions && b.activePositions == a.activePositions && b.positionLog == a.positionLog
      && b.balance == a.balance
    decreases |refs|
  {
    if refs != [] {
      var r := refs[0];
      var o := a.orders[r];
      var a1 := if KindOf(o.orderType).Some? && o.container.None? then Rest(a, r) else a;
      IntakeNonMarket(a, rank, refs);
      IntakeResting(a1, rank, refs[1..]);
      RestingFrame(a.orders, a1.orders, refs[1..]);
      var rest := Resting(a.orders, refs[1..]);
      if KindOf(o.orderType).Some? && o.container.None? {
        assert Resting(a.orders, refs) == [r] + rest;
        AppendAssoc(a.orderLog, [r], rest);
        AppendAssoc(a.active, [r], rest);
      } else {
        assert Resting(a.orders, refs) == rest;
      }
    }
  }

  /** The orders of `xs` marked Placed. */
  function MarkPlaced(orders: map<OrderRef, Order>, xs: seq<OrderRef>): (r: map<OrderRef, Order>)
    ensures r.Keys == orders.Keys
  {
    map x | x in orders :: if x in xs then orders[x].(status := Some(Placed)) else orders[x]
  }

  /** ... and every one of them, and nothing else, becomes Placed. */
  lemma {:induction false} IntakeRestingPlaced(a: Account, rank: map<OrderRef, nat>, refs: seq<OrderRef>)
    requires AccountValid(a, rank) && Stored(a, refs)
    requires forall i :: 0 <= i < |refs| ==> KindOf(a.orders[refs[i]].orderType) != Some(Market)
    ensures Intake(a, rank, refs).orders == MarkPlaced(a.orders, Resting(a.orders, refs))
    decreases |refs|
  {
    if refs == [] {
      MarkPlacedNone(a.orders);
    } else {
      var r := refs[0];
      var o := a.orders[r];
      var a1 := if KindOf(o.orderType).Some? && o.container.None? then Rest(a, r) else a;
      IntakeNonMarket(a, rank, refs);
      IntakeRestingPlaced(a1, rank, refs[1..]);
      RestingFrame(a.orders, a1.orders, refs[1..]);
      var head := if KindOf(o.orderType).Some? && o.container.None? then [r] else [];
      var rest := Resting(a.orders, refs[1..]);
      assert Resting(a.orders, refs) == head + rest;
      MarkPlacedOne(a.orders, r);
      MarkPlacedNone(a.orders);
      MarkPlacedTwice(a.orders, head, rest);
    }
  }

  lemma MarkPlacedOne(orders: map<OrderRef, Order>, r: OrderRef)
    requires r in orders
    ensures MarkPlaced(orders, [r]) == orders[r := orders[r].(status := Some(Placed))]
  {
  }

  lemma MarkPlacedNone(orders: map<OrderRef, Order>)
    ensures MarkPlaced(orders, []) == orders
  {
  }

  lemma MarkPlacedTwice(orders: map<OrderRef, Order>, xs: seq<OrderRef>, ys: seq<OrderRef>)
    ensures MarkPlaced(MarkPlaced(orders, xs), ys) == MarkPlaced(orders, xs + ys)
  {
    var m1 := MarkPlaced(MarkPlaced(orders, xs), ys);
    var m2 := MarkPlaced(orders, xs + ys);
    forall x | x in orders
      ensures m1[x] == m2[x]
    {
      assert x in xs + ys <==> x in xs || x in ys;
    }
  }


  /** UpdatePointProps: the quote is stamped with its instrument's name and time frame. */
  function Stamp(p: Point, inst: Instrument): (q: Point)
    ensures q.instrument == Some(inst.name) && q.name == Some(inst.name) && q.timeFrame == inst.timeFrame
    ensures q.time == p.time && q.bid == p.bid && q.ask == p.ask && q.bar == p.bar
  {
    p.(instrument := Some(inst.name), name := Some(inst.name), timeFrame := inst.timeFrame)
  }

  /** UpdatePoints: the quote appended once to the instrument's points and once to its bars. */
  function Appended(inst: Instrument, q: Point): (i: Instrument)
    ensures i.points == inst.points + [q] && i.pointGroups == inst.pointGroups + [q]
    ensures i == inst.(points := i.points, pointGroups := i.pointGroups)
  {
    inst.(points := inst.points + [q], pointGroups := inst.pointGroups + [q])
  }

  /**
   * A quote arriving for the named instrument: stamped and appended, after which the bars'
   * item stream runs a ProcessPendingOrders pass against it.
   */
  function Receive(a: Account, rank: map<OrderRef, nat>, name: string, p: Point): (b: Account)
    requires AccountValid(a, rank) && name in a.instruments
    ensures AccountValid(b, rank) && KeepsTerms(a.orders, b.orders)
    ensures b.instruments == a.instruments[name := Appended(a.instruments[name], Stamp(p, a.instruments[name]))]
  {
    var inst := a.instruments[name];
    var a1 := a.(instruments := a.instruments[name := Appended(inst, Stamp(p, inst))]);
    Process(a1, rank, 0)
  }

  /** After a quote arrives, it is its instrument's latest bar, so the message published next carries it. */
  lemma ReceivedIsLatest(a: Account, rank: map<OrderRef, nat>, name: string, p: Point)
    requires AccountValid(a, rank) && name in a.instruments
    ensures var b := Receive(a, rank, name, p);
      name in b.instruments && LastBar(b.instruments[name]) == Some(Stamp(p, a.instruments[name]))
  {
  }

  /** One line of a quote file: empty, or parsed by `Evaluate` into a point or null. */
  datatype Line = Blank | Quote(point: Option<Point>)

  /** A slot of the replay buffer with nothing to offer: absent or null. */
  predicate Vacant(buffer: map<nat, Option<Point>>, i: nat)
  {
    i !in buffer || buffer[i].None?
  }

  /** A slot holding a point with a time. */
  predicate Timed(buffer: map<nat, Option<Point>>, i: nat)
  {
    i in buffer && buffer[i].Some? && buffer[i].value.time.Some?
  }

  function TimeAt(buffer: map<nat, Option<Point>>, i: nat): nat
    requires Timed(buffer, i)
  {
    buffer[i].value.time.value
  }

  /** `x.Time <= y.Time` on two slots: false when either slot or either time is null. */
  predicate NoLater(buffer: map<nat, Option<Point>>, i: nat, j: nat)
  {
    Timed(buffer, i) && Timed(buffer, j) && TimeAt(buffer, i) <= TimeAt(buffer, j)
  }

  /**
   * The slot GeneratePoints picks among the first `n`: slot 0 is the first candidate, and a
   * later slot replaces the candidate when its time is no later than the candidate's.
   */
  function Select(buffer: map<nat, Option<Point>>, n: nat): (index: int)
    ensures -1 <= index < n && (index == -1 <==> n == 0)
  {
    if n == 0 then -1
    else
      var index := Select(buffer, n - 1);
      if index == -1 || NoLater(buffer, n - 1, index) then n - 1 else index
  }

  /**
   * The merge step: if slot 0 has no timed point, it is picked; otherwise the pick is a
   * timed point no later than any other timed point, and every timed point after it is
   * strictly later, so ties go to the last slot.
   */
  lemma {:induction false} SelectEarliest(buffer: map<nat, Option<Point>>, n: nat)
    requires n > 0
    ensures !Timed(buffer, 0) ==> Select(buffer, n) == 0
    ensures Timed(buffer, 0) ==>
      var k := Select(buffer, n);
      && Timed(buffer, k)
      && (forall j :: 0 <= j < n && Timed(buffer, j) ==> TimeAt(buffer, k) <= TimeAt(buffer, j))
      && (forall j :: k < j < n && Timed(buffer, j) ==> TimeAt(buffer, k) < TimeAt(buffer, j))
  {
    if n > 1 {
      SelectEarliest(buffer, n - 1);
    }
  }

  /** Select looks at the first `n` slots only. */
  lemma {:induction false} SelectFrame(b1: map<nat, Option<Point>>, b2: map<nat, Option<Point>>, n: nat)
    requires forall i :: 0 <= i < n ==> (i in b1 <==> i in b2) && (i in b1 ==> b1[i] == b2[i])
    ensures Select(b1, n) == Select(b2, n)
  {
    if n > 0 {
      SelectFrame(b1, b2, n - 1);
      assert Timed(b1, n - 1) == Timed(b2, n - 1);
    }
  }

  /** Slot `i` reads a line on this pass: it holds no quote and its reader is not at the end of its file. */
  predicate ReadsLine(buffer: map<nat, Option<Point>>, files: seq<seq<Line>>, cursors: seq<nat>, i: nat)
    requires |cursors| == |files|
  {
    i < |files| && Vacant(buffer, i) && cursors[i] < |files[i]|
  }

  /** Whether the line slot `i` reads puts a value in it. */
  predicate Refills(buffer: map<nat, Option<Point>>, files: seq<seq<Line>>, cursors: seq<nat>, i: nat)
    requires |cursors| == |files|
  {
    ReadsLine(buffer, files, cursors, i) && files[i][cursors[i]].Quote?
  }

  /**
   * The buffer after the first `n` slots were looked at: a vacant slot whose reader's next
   * line is not empty takes that line's value; every other slot keeps its own.
   */
  function Refilled(buffer: map<nat, Option<Point>>, files: seq<seq<Line>>, cursors: seq<nat>, n: nat): (b: map<nat, Option<Point>>)
    requires |cursors| == |files| && n <= |files|
  {
    if n == 0 then buffer
    else
      var b := Refilled(buffer, files, cursors, n - 1);
      if Refills(buffer, files, cursors, n - 1) then b[n - 1 := files[n - 1][cursors[n - 1]].point] else b
  }

  /**
   * Each of the first `n` slots whose reader's next line is a quote holds that quote after
   * the pass; every other slot is as it was.
   */
  lemma {:induction false} RefilledMeans(buffer: map<nat, Option<Point>>, files: seq<seq<Line>>, cursors: seq<nat>, n: nat)
    requires |cursors| == |files| && n <= |files|
    ensures var b := Refilled(buffer, files, cursors, n);
      && (forall i: nat :: i < n && Refills(buffer, files, cursors, i) ==> i in b && b[i] == files[i][cursors[i]].point)
      && (forall i: nat :: !(i < n && Refills(buffer, files, cursors, i)) ==> (i in b <==> i in buffer) && (i in buffer ==> b[i] == buffer[i]))
  {
    if n > 0 {
      RefilledMeans(buffer, files, cursors, n - 1);
    }
  }

  /** One more slot looked at: it is refilled exactly when it was vacant before the pass, and its reader has not moved yet. */
  lemma RefillStep(buffer: map<nat, Option<Point>>, files: seq<seq<Line>>, cursors: seq<nat>, i: nat)
    requires |cursors| == |files| && i < |files|
    ensures Vacant(Refilled(buffer, files, cursors, i), i) == Vacant(buffer, i)
    ensures Advanced(buffer, files, cursors, i)[i] == cursors[i]
  {
    RefilledMeans(buffer, files, cursors, i);
    AdvancedMeans(buffer, files, cursors, i);
  }

  /** The readers' positions after the first `n` slots were looked at: a reader whose slot reads a line moves past it. */
  function Advanced(buffer: map<nat, Option<Point>>, files: seq<seq<Line>>, cursors: seq<nat>, n: nat): (cs: seq<nat>)
    requires |cursors| == |files| && n <= |files|
    ensures |cs| == |cursors|
  {
    if n == 0 then cursors
    else
      var cs := Advanced(buffer, files, cursors, n - 1);
      if ReadsLine(buffer, files, cursors, n - 1) then cs[n - 1 := cursors[n - 1] + 1] else cs
  }

  /** Each of the first `n` readers whose slot reads a line has moved one line on; every other reader stays. */
  lemma {:induction false} AdvancedMeans(buffer: map<nat, Option<Point>>, files: seq<seq<Line>>, cursors: seq<nat>, n: nat)
    requires |cursors| == |files| && n <= |files|
    ensures var cs := Advanced(buffer, files, cursors, n);
      forall i :: 0 <= i < |cursors| ==> cs[i] == if i < n && ReadsLine(buffer, files, cursors, i) then cursors[i] + 1 else cursors[i]
  {
    if n > 0 {
      AdvancedMeans(buffer, files, cursors, n - 1);
    }
  }

  /**
   * What holds of the gateway between operations: a valid account, handles below the next
   * one, one reader per instrument name, and every name an instrument of the account.
   */
  ghost predicate ClientValid(a: Account, rank: map<OrderRef, nat>, nextOrder: nat, readers: nat, names: seq<string>)
  {
    && AccountValid(a, rank)
    && (forall r :: r in a.orders ==> r < nextOrder)
    && readers == |names|
    && (forall i :: 0 <= i < |names| ==> names[i] in a.instruments)
  }

  /** CreatePosition keeps the gateway valid. */
  lemma CreatePositionValid(a: Account, rank: map<OrderRef, nat>, nextOrder: nat, readers: nat, names: seq<string>, r: OrderRef)
    requires ClientValid(a, rank, nextOrder, readers, names) && CanFill(a, r)
    ensures ClientValid(CreatePosition(a, rank, r), rank, nextOrder, readers, names)
  {
    CreatePositionProgress(a, rank, r);
  }

  /** Placing legs of the arena keeps the gateway valid. */
  lemma PlaceLegsValid(a: Account, rank: map<OrderRef, nat>, nextOrder: nat, readers: nat, names: seq<string>, legs: seq<OrderRef>, time: Option<nat>)
    requires ClientValid(a, rank, nextOrder, readers, names) && forall i :: 0 <= i < |legs| ==> legs[i] in a.orders
    ensures ClientValid(PlaceLegs(a, legs, time), rank, nextOrder, readers, names)
  {
    var b := PlaceLegs(a, legs, time);
    KeepsTermsLinks(a.orders, b.orders);
    assert AllIn(Links(a.orders), a.active + legs) by {
      assert forall i :: 0 <= i < |a.active + legs| ==> (a.active + legs)[i] == if i < |a.active| then a.active[i] else legs[i - |a.active|];
    }
    Preserved(a, b, rank, nextOrder, readers, names);
  }

  /** A remainder that fits the account keeps the gateway valid. */
  lemma AddRemainderValid(a: Account, rank: map<OrderRef, nat>, nextOrder: nat, readers: nat, names: seq<string>, p: Position)
    requires ClientValid(a, rank, nextOrder, readers, names)
    requires Fits(a, p)
    ensures ClientValid(AddRemainder(a, p), rank, nextOrder, readers, names)
  {
    if !Compare(p.size, 0.0) {
      AddPositionValid(a, rank, p);
    }
  }

  /** Logging an order and a position of the account keeps the gateway valid. */
  lemma LogValid(a: Account, rank: map<OrderRef, nat>, nextOrder: nat, readers: nat, names: seq<string>, r: OrderRef, k: PositionRef)
    requires ClientValid(a, rank, nextOrder, readers, names) && r in a.orders && k in a.positions
    ensures ClientValid(a.(orderLog := a.orderLog + [r], positionLog := a.positionLog + [k]), rank, nextOrder, readers, names)
  {
    AppendIn(Links(a.orders), a.orderLog, r);
    assert PositionsIn(a.positions, a.positionLog + [k]);
    ListsValid(a, rank, a.orderLog + [r], a.active, a.positionLog + [k]);
  }

  /** A step that keeps the account valid, its handles and its instruments keeps the gateway valid. */
  lemma Preserved(a: Account, b: Account, rank: map<OrderRef, nat>, nextOrder: nat, readers: nat, names: seq<string>)
    requires ClientValid(a, rank, nextOrder, readers, names)
    requires AccountValid(b, rank) && b.orders.Keys == a.orders.Keys && b.instruments == a.instruments
    ensures ClientValid(b, rank, nextOrder, readers, names)
  {
  }

  /** DecreasePosition keeps the gateway valid. */
  lemma DecreaseClientValid(a: Account, rank: map<OrderRef, nat>, nextOrder: nat, readers: nat, names: seq<string>, r: OrderRef, k: PositionRef)
    requires ClientValid(a, rank, nextOrder, readers, names) && CanFill(a, r)
    requires FindActive(a.positions, a.activePositions, a.orders[r].instrument) == Some(k)
    ensures ClientValid(Decrease(a, rank, r, k), rank, nextOrder, readers, names)
  {
    DecreaseProgress(a, rank, r, k);
    Preserved(a, Decrease(a, rank, r, k), rank, nextOrder, readers, names);
  }

  /** One turn of CreateOrders keeps the gateway valid. */
  lemma IntakeClientValid(a: Account, rank: map<OrderRef, nat>, nextOrder: nat, readers: nat, names: seq<string>, r: OrderRef)
    requires ClientValid(a, rank, nextOrder, readers, names) && r in a.orders
    ensures ClientValid(IntakeOne(a, rank, r), rank, nextOrder, readers, names)
  {
    Preserved(a, IntakeOne(a, rank, r), rank, nextOrder, readers, names);
  }
}
