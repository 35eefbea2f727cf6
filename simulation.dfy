/**
 * The simulation gateway (Gateway/Simulation/GatewayClient.cs) as an object whose
 * methods change the account step by step, each proved to leave the account exactly as
 * the matching function of SimulationSpec says, together with the quote replay that
 * drives it and the GatewayModel helpers it calls (Core/Models/GatewayModel.cs).
 */
module Simulation {
  import opened Wrappers
  import opened Events
  import opened Points
  import opened IndexCollections
  import opened Instruments
  import opened Transactions
  import opened GatewayModels
  import opened OrderTrees
  import opened SimulationSpec

  /** What one tick of the replay clock did: stopped the clock, sent the quote of a slot, or threw. */
  datatype Replay = Stopped | Emitted(slot: nat) | Fault

  /** A rank above the rank of every order of `cs`. */
  ghost function RankAbove(rank: map<OrderRef, nat>, cs: seq<OrderRef>): (h: nat)
    requires forall c :: c in cs ==> c in rank
    ensures forall c :: c in cs ==> rank[c] < h
    decreases |cs|
  {
    if cs == [] then 0
    else
      var h := RankAbove(rank, cs[1..]);
      assert forall c :: c in cs ==> c == cs[0] || c in cs[1..];
      if rank[cs[0]] + 1 > h then rank[cs[0]] + 1 else h
  }

  /** A new order whose legs are stored ranks above them and leaves a valid account valid. */
  lemma RegisterValid(a: Account, rank: map<OrderRef, nat>, o: Order, r: OrderRef)
    requires AccountValid(a, rank) && r !in a.orders
    requires forall c :: c in o.children ==> c in a.orders
    requires o.instrument.None? || o.instrument.value in a.instruments
    ensures forall c :: c in o.children ==> c in rank
    ensures AccountValid(a.(orders := a.orders[r := o]), rank[r := RankAbove(rank, o.children)])
  {
    var links := Links(a.orders);
    var orders := a.orders[r := o];
    assert Links(orders) == links[r := o.children];
    RankedAdd(links, rank, r, o.children, RankAbove(rank, o.children));
    AllInGrow(links, Links(orders), a.orderLog);
    AllInGrow(links, Links(orders), a.active);
  }

  /** Cancelling one order leaves a valid account valid, with the same hierarchy and no more weight on the active list. */
  lemma CancelOneValid(a: Account, rank: map<OrderRef, nat>, x: OrderRef)
    requires AccountValid(a, rank) && x in a.orders
    ensures var b := CancelOne(a, x);
      AccountValid(b, rank) && Links(b.orders) == Links(a.orders) && KeepsTerms(a.orders, b.orders)
  {
    var b := CancelOne(a, x);
    assert KeepsTerms(a.orders, b.orders);
    ReplaceOrdersValid(a, rank, b.orders);
    TotalWeightRemove(Links(a.orders), rank, a.active, x);
    ListsValid(a.(orders := b.orders), rank, a.orderLog, b.active, a.positionLog);
  }

  /** One turn of the CancelOrders loop, and why the recursion on the legs ends. */
  lemma CancelLoopStep(a: Account, rank: map<OrderRef, nat>, refs: seq<OrderRef>, i: nat)
    requires AccountValid(a, rank) && AllIn(Links(a.orders), refs) && i < |refs|
    ensures var x := refs[i];
      var b := CancelOne(a, x);
      var legs := b.orders[x].children;
      && AccountValid(b, rank) && Links(b.orders) == Links(a.orders)
      && legs == a.orders[x].children && AllIn(Links(a.orders), legs)
      && TotalWeight(Links(a.orders), rank, legs) < TotalWeight(Links(a.orders), rank, refs)
      && AllIn(Links(a.orders), refs[i..]) && AllIn(Links(a.orders), refs[i + 1..])
      && Cancel(a, rank, refs[i..]) == Cancel(Cancel(b, rank, legs), rank, refs[i + 1..])
      && (legs == [] ==> Cancel(b, rank, legs) == b)
  {
    var x := refs[i];
    CancelOneValid(a, rank, x);
    CancelStep(a, rank, refs[i..]);
    assert refs[i..][1..] == refs[i + 1..];
    WeightInList(Links(a.orders), rank, refs, i);
    WeightOfLegs(Links(a.orders), rank, x);
  }

  /** Replacing the instruments by ones with the same names keeps a valid account valid. */
  lemma InstrumentsValid(a: Account, rank: map<OrderRef, nat>, instruments: map<string, Instrument>)
    requires AccountValid(a, rank) && instruments.Keys == a.instruments.Keys
    ensures AccountValid(a.(instruments := instruments), rank)
  {
  }

  /** One turn of the inner loop of UpdateOrders: the amendment reaches one more entry of the active list. */
  lemma AmendStep(orders: map<OrderRef, Order>, active: seq<OrderRef>, j: nat, n: Order)
    requires j < |active| && active[j] in orders
    ensures var m := Amend(orders, active[..j], n);
      var x := active[j];
      Amend(orders, active[..j + 1], n) ==
        if m[x].id == n.id then m[x := m[x].(orderType := n.orderType, size := n.size, price := n.price, children := n.children)] else m
  {
    var m := Amend(orders, active[..j], n);
    var x := active[j];
    assert active[..j + 1] == active[..j] + [x];
    assert forall y :: y in active[..j + 1] <==> y in active[..j] || y == x;
  }

  /** Amendments whose legs form a ranked hierarchy keep a valid account valid. */
  lemma AmendValid(a: Account, rank: map<OrderRef, nat>, nexts: seq<Order>, rank': map<OrderRef, nat>)
    requires AccountValid(a, rank)
    requires Ranked(Links(AmendAll(a.orders, a.active, nexts)), rank')
    ensures AccountValid(a.(orders := AmendAll(a.orders, a.active, nexts)), rank')
  {
    var orders := AmendAll(a.orders, a.active, nexts);
    forall x | x in orders
      ensures orders[x].instrument == a.orders[x].instrument
    {
      AmendAllMeans(a.orders, a.active, nexts, x);
    }
  }

  /** One turn of the GeneratePoints loop moves the buffer, the readers and the pick from `i` slots to `i + 1`. */
  lemma ScanStep(buffer: map<nat, Option<Point>>, files: seq<seq<Line>>, cursors: seq<nat>, i: nat,
                 p0: map<nat, Option<Point>>, c0: seq<nat>, k0: int, p1: map<nat, Option<Point>>, c1: seq<nat>, k1: int)
    requires |cursors| == |files| && i < |files|
    requires p0 == Refilled(buffer, files, cursors, i) && c0 == Advanced(buffer, files, cursors, i) && k0 == Select(p0, i)
    requires c1 == if Vacant(p0, i) && c0[i] < |files[i]| then c0[i := c0[i] + 1] else c0
    requires p1 == if Vacant(p0, i) && c0[i] < |files[i]| && files[i][c0[i]].Quote? then p0[i := files[i][c0[i]].point] else p0
    requires k1 == if k0 == -1 || (k0 >= 0 && NoLater(p1, i, k0)) then i else k0
    ensures p1 == Refilled(buffer, files, cursors, i + 1)
    ensures c1 == Advanced(buffer, files, cursors, i + 1)
    ensures k1 == Select(p1, i + 1)
  {
    RefillStep(buffer, files, cursors, i);
    SelectFrame(p0, p1, i);
  }

  class GatewayClient {
    /** Account: its orders and positions (by handle), their lists, its instruments and balance. */
    var account: Account
    /** The handle the next order object gets. */
    var nextOrder: nat
    /** The height of each order in its bracket tree; a witness that brackets have no cycle. */
    ghost var rank: map<OrderRef, nat>

    /** The names of Account.Instruments in enumeration order; `_documents[i]` reads the quotes of the i-th. */
    var instrumentNames: seq<string>
    /** The lines of each quote file, by index: what `_documents[i]` reads. */
    var files: seq<seq<Line>>
    /** The position of each reader: the index of the line its next ReadLine returns. */
    var cursors: seq<nat>
    /** `_points`: the next quote of each file, by index; null once it was sent. */
    var buffer: map<nat, Option<Point>>
    /** Whether the replay clock is ticking. */
    var running: bool
    /** Everything published on DataStream so far. */
    var dataStream: seq<Message<Point>>

    ghost predicate Valid()
      reads this
    {
      ClientValid(account, rank, nextOrder, |files|, instrumentNames) && |cursors| == |files|
    }

    /**
     * A gateway connected (Connect) to an account holding `instruments` and `balance` and
     * nothing else: one reader per instrument with its header line skipped, an empty
     * buffer, and the replay clock ticking (Subscribe).
     */
    constructor (instruments: map<string, Instrument>, balance: Option<real>, names: seq<string>, documents: seq<seq<Line>>)
      requires |documents| == |names| && forall i :: 0 <= i < |names| ==> names[i] in instruments
      ensures Valid() && rank == map[]
      ensures account == Account(map[], map[], [], [], [], [], instruments, balance, 0)
      ensures instrumentNames == names && buffer == map[] && running && dataStream == []
      ensures files == documents && |cursors| == |documents| &&
        forall i :: 0 <= i < |documents| ==> cursors[i] == if documents[i] == [] then 0 else 1
    {
      account := Account(map[], map[], [], [], [], [], instruments, balance, 0);
      nextOrder := 0;
      rank := map[];
      instrumentNames := names;
      files := documents;
      cursors := seq(|documents|, i requires 0 <= i < |documents| => if documents[i] == [] then 0 else 1);
      buffer := map[];
      running := true;
      dataStream := [];
      new;
      assert Links(account.orders) == map[];
    }

    /**
     * A caller building an order object: it gets a fresh handle. Its legs must already be
     * objects of the gateway, which is what keeps brackets free of cycles.
     */
    method Register(o: Order) returns (r: OrderRef)
      requires Valid()
      requires forall c :: c in o.children ==> c in account.orders
      requires o.instrument.None? || o.instrument.value in account.instruments
      modifies this`account, this`nextOrder, this`rank
      ensures r !in old(account.orders) && account == old(account).(orders := old(account.orders)[r := o])
      ensures Valid()
    {
      RegisterValid(account, rank, o, nextOrder);
      r := nextOrder;
      rank := rank[r := RankAbove(rank, o.children)];
      account := account.(orders := account.orders[r := o]);
      nextOrder := nextOrder + 1;
    }

    /** One order marked Cancelled and taken off the active list. */
    method Withdraw(x: OrderRef)
      requires Valid() && x in account.orders
      modifies this`account
      ensures account == CancelOne(old(account), x) && Links(account.orders) == Links(old(account).orders) && rank == old(rank)
      ensures Valid()
    {
      CancelOneValid(account, rank, x);
      account := account.(orders := account.orders[x := account.orders[x].(status := Some(Cancelled))]);
      account := account.(active := RemoveFirst(account.active, x));
    }

    /**
     * CancelOrders: each order is marked Cancelled and taken off the active list, then its
     * legs are cancelled the same way.
     */
    method CancelOrders(refs: seq<OrderRef>)
      requires Valid() && AllIn(Links(account.orders), refs)
      modifies this`account
      ensures account == Cancel(old(account), old(rank), refs) && Links(account.orders) == Links(old(account).orders)
      decreases TotalWeight(Links(account.orders), rank, refs), 1
      ensures Valid()
    {
      ghost var links := Links(account.orders);
      var i := 0;
      while i < |refs|
        invariant 0 <= i <= |refs|
        invariant Valid()
        invariant Links(account.orders) == links
        invariant Cancel(old(account), old(rank), refs) == Cancel(account, old(rank), refs[i..])
      {
        CancelAt(refs, i);
        i := i + 1;
      }
    }

    /** One turn of the CancelOrders loop: the i-th order and then its legs. */
    method CancelAt(refs: seq<OrderRef>, i: nat)
      requires Valid() && AllIn(Links(account.orders), refs) && i < |refs|
      modifies this`account
      ensures Links(account.orders) == Links(old(account).orders)
      ensures Cancel(old(account), old(rank), refs[i..]) == Cancel(account, old(rank), refs[i + 1..])
      decreases TotalWeight(Links(account.orders), rank, refs), 0
      ensures Valid()
    {
      var x := refs[i];
      ghost var a, rk := account, rank;
      CancelLoopStep(a, rk, refs, i);
      Withdraw(x);
      ghost var b := account;
      var legs := account.orders[x].children;
      if legs != [] {
        CancelOrders(legs);
        assert account == Cancel(b, rk, legs);
      } else {
        assert account == Cancel(b, rk, legs);
      }
    }

    /** OpenPosition: declines when there is an active position on the order's instrument; otherwise opens one. */
    method OpenPosition(r: OrderRef, prev: Option<PositionRef>) returns (done: bool)
      requires Valid() && CanFill(account, r)
      requires prev == FindActive(account.positions, account.activePositions, account.orders[r].instrument)
      modifies this`account
      ensures done <==> prev.None?
      ensures done ==> account == Open(old(account), old(rank), r)
      ensures !done ==> account == old(account)
      ensures Valid()
    {
      if prev.Some? {
        return false;
      }
      OpenProgress(account, rank, r);
      var o := account.orders[r];
      var point := OrderBar(account, o).value;
      var filled := FillOrder(o, point);
      var position := Opened(o, point);
      var k := account.nextPosition;
      account := account.(orders := account.orders[r := filled],
                          positions := account.positions[k := position],
                          nextPosition := k + 1,
                          orderLog := account.orderLog + [r],
                          active := RemoveFirst(account.active, r),
                          activePositions := account.activePositions + [k]);
      return true;
    }

    /**
     * IncreasePosition: declines without an active position on the order's instrument or
     * when it is on the other side; otherwise replaces it by a bigger one.
     */
    method IncreasePosition(r: OrderRef, prev: Option<PositionRef>) returns (done: bool)
      requires Valid() && CanFill(account, r)
      requires prev == FindActive(account.positions, account.activePositions, account.orders[r].instrument)
      modifies this`account
      ensures done <==> prev.Some? && SameSide(old(account).positions[prev.value], old(account).orders[r])
      ensures done ==> account == Increase(old(account), old(rank), r, prev.value)
      ensures !done ==> account == old(account)
      ensures Valid()
    {
      if prev.None? {
        return false;
      }
      var k := prev.value;
      var previous := account.positions[k];
      var o := account.orders[r];
      var isSameBuy := SideOf(previous.orderType) == Some(BuySide) && SideOf(o.orderType) == Some(BuySide);
      var isSameSell := SideOf(previous.orderType) == Some(SellSide) && SideOf(o.orderType) == Some(SellSide);
      if !isSameBuy && !isSameSell {
        return false;
      }
      IncreaseProgress(account, rank, r, k);
      var point := OrderBar(account, o).value;
      var filled := FillOrder(o, point);
      var position := Increased(previous, o, point);
      var closed := ClosePosition(previous, account.instruments[o.instrument.value], position.time, position.openPrice);
      var next := account.nextPosition;
      account := account.(orders := account.orders[r := filled],
                          positions := account.positions[k := closed][next := position],
                          nextPosition := next + 1,
                          orderLog := account.orderLog + [r],
                          active := RemoveFirst(account.active, r),
                          positionLog := account.positionLog + [k],
                          activePositions := RemoveFirst(account.activePositions, k) + [next]);
      return true;
    }

    /** The first half of DecreasePosition: the order is filled and the previous position closed. */
    method CloseOutPosition(r: OrderRef, k: PositionRef)
      requires Valid() && CanFill(account, r)
      requires FindActive(account.positions, account.activePositions, account.orders[r].instrument) == Some(k)
      modifies this`account
      ensures account == CloseOut(old(account), old(rank), r, k)
      ensures AllIn(Links(account.orders), old(account).positions[k].children)
      ensures Valid()
    {
      CloseOutValid(account, rank, r, k);
      var previous := account.positions[k];
      var o := account.orders[r];
      var point := OrderBar(account, o).value;
      var filled := FillOrder(o, point);
      var position := Remainder(previous, o, point);
      var closed := ClosePosition(previous, account.instruments[o.instrument.value], position.time, position.openPrice);
      account := account.(orders := account.orders[r := filled],
                          positions := account.positions[k := closed],
                          balance := AddOpt(account.balance, closed.gainLoss),
                          active := RemoveFirst(account.active, r),
                          activePositions := RemoveFirst(account.activePositions, k));
    }

    /**
     * DecreasePosition: declines without an active position on the order's instrument or
     * when it is on the same side; otherwise closes it, cancels its legs, and opens what is
     * left of the order, if anything.
     */
    method DecreasePosition(r: OrderRef, prev: Option<PositionRef>) returns (done: bool)
      requires Valid() && CanFill(account, r)
      requires prev == FindActive(account.positions, account.activePositions, account.orders[r].instrument)
      modifies this`account
      ensures done <==> prev.Some? && !SameSide(old(account).positions[prev.value], old(account).orders[r])
      ensures done ==> account == Decrease(old(account), old(rank), r, prev.value)
      ensures !done ==> account == old(account)
      ensures Valid()
    {
      if prev.None? {
        return false;
      }
      var k := prev.value;
      var previous := account.positions[k];
      var o := account.orders[r];
      var isSameBuy := SideOf(previous.orderType) == Some(BuySide) && SideOf(o.orderType) == Some(BuySide);
      var isSameSell := SideOf(previous.orderType) == Some(SellSide) && SideOf(o.orderType) == Some(SellSide);
      if isSameBuy || isSameSell {
        return false;
      }
      Reduce(r, k);
      return true;
    }

    /** DecreasePosition once it applies: Settle, then what is left of the order, if anything, becomes the active position. */
    method Reduce(r: OrderRef, k: PositionRef)
      requires Valid() && CanFill(account, r)
      requires FindActive(account.positions, account.activePositions, account.orders[r].instrument) == Some(k)
      modifies this`account
      ensures account == Decrease(old(account), old(rank), r, k)
      ensures Valid()
    {
      ghost var a := account;
      var o := account.orders[r];
      var position := Remainder(account.positions[k], o, OrderBar(account, o).value);
      SettlePosition(r, k);
      SettleLeavesRoom(a, rank, r, k);
      AddRemainder(position);
    }

    /** The tail of DecreasePosition: a remainder of non-zero size becomes the new active position. */
    method AddRemainder(position: Position)
      requires Valid() && Fits(account, position)
      modifies this`account
      ensures account == SimulationSpec.AddRemainder(old(account), position)
      ensures Valid()
    {
      AddRemainderValid(account, rank, nextOrder, |files|, instrumentNames, position);
      if !Compare(position.size, 0.0) {
        var next := account.nextPosition;
        account := account.(positions := account.positions[next := position], nextPosition := next + 1,
                            activePositions := account.activePositions + [next]);
      }
    }

    /** DecreasePosition up to the remainder: the previous position is closed out, its legs cancelled, and both logged. */
    method SettlePosition(r: OrderRef, k: PositionRef)
      requires Valid() && CanFill(account, r)
      requires FindActive(account.positions, account.activePositions, account.orders[r].instrument) == Some(k)
      modifies this`account
      ensures account == Settle(old(account), old(rank), r, k)
      ensures Valid()
    {
      var legs := account.positions[k].children;
      CloseOutPosition(r, k);
      CancelOrders(legs);
      LogValid(account, rank, nextOrder, |files|, instrumentNames, r, k);
      account := account.(orderLog := account.orderLog + [r], positionLog := account.positionLog + [k]);
    }

    /**
     * CreatePosition: the first of OpenPosition, IncreasePosition and DecreasePosition that
     * does not decline fills the order; then its legs are stamped with the time of the
     * instrument's latest bar, Placed and made active.
     */
    method CreatePosition(r: OrderRef)
      requires Valid() && CanFill(account, r)
      modifies this`account
      ensures account == SimulationSpec.CreatePosition(old(account), old(rank), r)
      ensures Valid()
    {
      var o := account.orders[r];
      var point := OrderBar(account, o);
      FillPosition(r);
      PlaceBrackets(o.children, point.value.time);
    }

    /** The fill of CreatePosition: the first of OpenPosition, IncreasePosition and DecreasePosition that does not decline. */
    method FillPosition(r: OrderRef)
      requires Valid() && CanFill(account, r)
      modifies this`account
      ensures account == Fill(old(account), old(rank), r)
      ensures forall i :: 0 <= i < |old(account).orders[r].children| ==> old(account).orders[r].children[i] in account.orders
      ensures Valid()
    {
      FillProgress(account, rank, r);
      var prev := FindActive(account.positions, account.activePositions, account.orders[r].instrument);
      var done := OpenPosition(r, prev);
      if !done {
        done := IncreasePosition(r, prev);
      }
      if !done {
        done := DecreasePosition(r, prev);
      }
    }

    /** The bracket loop of CreatePosition: each leg gets the bar's time, becomes Placed and is appended to the active list. */
    method PlaceBrackets(legs: seq<OrderRef>, time: Option<nat>)
      requires Valid() && forall i :: 0 <= i < |legs| ==> legs[i] in account.orders
      modifies this`account
      ensures account == PlaceLegs(old(account), legs, time)
      ensures Valid()
    {
      PlaceLegsValid(account, rank, nextOrder, |files|, instrumentNames, legs, time);
      account := StampLegs(account, legs, time);
    }

    /** The loop of PlaceBrackets over an account value. */
    static method StampLegs(a: Account, legs: seq<OrderRef>, time: Option<nat>) returns (placed: Account)
      requires forall i :: 0 <= i < |legs| ==> legs[i] in a.orders
      ensures placed == PlaceLegs(a, legs, time)
    {
      placed := a;
      var j := 0;
      while j < |legs|
        invariant 0 <= j <= |legs|
        invariant placed.orders.Keys == a.orders.Keys
        invariant PlaceLegs(a, legs, time) == PlaceLegs(placed, legs[j..], time)
      {
        var leg := legs[j];
        assert legs[j..][1..] == legs[j + 1..];
        placed := placed.(orders := placed.orders[leg := placed.orders[leg].(time := time, status := Some(Placed))],
                          active := placed.active + [leg]);
        j := j + 1;
      }
    }

    /** The trigger rules of ProcessPendingOrders for one order, given its instrument's latest bar. */
    method Triggered(o: Order, point: Point) returns (executable: bool)
      requires OrderBar(account, o) == Some(point)
      ensures executable <==> Executable(account, o)
    {
      executable := false;
      var side := SideOf(o.orderType);
      var kind := KindOf(o.orderType);
      var isBuyStop := side == Some(BuySide) && kind == Some(Stop);
      var isSellStop := side == Some(SellSide) && kind == Some(Stop);
      var isBuyLimit := side == Some(BuySide) && kind == Some(Limit);
      var isSellLimit := side == Some(SellSide) && kind == Some(Limit);
      if isBuyStop || isSellLimit {
        executable := GeOpt(point.ask, o.price);
      }
      if isSellStop || isBuyLimit {
        executable := LeOpt(point.bid, o.price);
      }
    }

    /** ProcessPendingOrders: one pass over the active list, filling every order that is triggered. */
    method ProcessPendingOrders()
      requires Valid()
      modifies this`account
      ensures account == Process(old(account), old(rank), 0)
      ensures Valid()
    {
      ghost var links := Links(account.orders);
      var i := 0;
      while i < |account.active|
        invariant Valid()
        invariant Links(account.orders) == links
        invariant Process(old(account), rank, 0) == Process(account, rank, i)
        decreases TotalWeight(links, rank, account.active), |account.active| - i
      {
        var r := account.active[i];
        var o := account.orders[r];
        var point := OrderBar(account, o);
        if point.Some? {
          var executable := Triggered(o, point.value);
          if executable {
            CreatePositionProgress(account, rank, r);
            CreatePosition(r);
          }
        }
        i := i + 1;
      }
    }

    /**
     * CreateOrders: nothing is taken in unless every order and every direct leg passes
     * validation, and then the answer is null; otherwise market orders are filled and
     * resting orders without a container are Placed, logged and made active.
     */
    method CreateOrders(refs: seq<OrderRef>) returns (accepted: Option<seq<OrderRef>>)
      requires Valid() && Known(account.orders, refs)
      modifies this`account
      ensures account == CreateOrdersSpec(old(account), old(rank), refs)
      ensures accepted == if OrdersClean(old(account).orders, old(account).instruments, refs) then Some(refs) else None
      ensures Valid()
    {
      var ok := EnsureOrderProps(account.orders, account.instruments, refs);
      if !ok {
        return None;
      }
      var i := 0;
      while i < |refs|
        invariant 0 <= i <= |refs|
        invariant Valid()
        invariant Stored(account, refs)
        invariant Intake(old(account), rank, refs) == Intake(account, rank, refs[i..])
      {
        TakeIn(refs[i]);
        assert refs[i..][1..] == refs[i + 1..];
        i := i + 1;
      }
      return Some(refs);
    }

    /**
     * One turn of the CreateOrders loop: a market order goes to CreatePosition; a stop,
     * limit or stop-limit order without a container is Placed, logged and made active.
     */
    method TakeIn(r: OrderRef)
      requires Valid() && r in account.orders
      modifies this`account
      ensures account == IntakeOne(old(account), old(rank), r)
      ensures Valid()
    {
      IntakeClientValid(account, rank, nextOrder, |files|, instrumentNames, r);
      var o := account.orders[r];
      var kind := KindOf(o.orderType);
      if kind == Some(Market) {
        if CanFill(account, r) {
          CreatePosition(r);
        }
      } else if kind.Some? {
        if o.container.None? {
          account := account.(orders := account.orders[r := o.(status := Some(Placed))]);
          account := account.(orderLog := account.orderLog + [r], active := account.active + [r]);
        }
      }
    }

    /**
     * UpdateOrders: every active order whose id matches an amendment takes its type, size,
     * price and legs. The new legs must be orders of the gateway ranked by `rank'`.
     */
    method UpdateOrders(nexts: seq<Order>, ghost rank': map<OrderRef, nat>)
      requires Valid()
      requires Ranked(Links(AmendAll(account.orders, account.active, nexts)), rank')
      modifies this`account, this`rank
      ensures Valid() && rank == rank'
      ensures account == old(account).(orders := AmendAll(old(account).orders, old(account).active, nexts))
    {
      ghost var a0 := account;
      ghost var rank0 := rank;
      var i := 0;
      while i < |nexts|
        invariant 0 <= i <= |nexts|
        invariant account == a0.(orders := account.orders) && account.orders.Keys == a0.orders.Keys
        invariant AmendAll(a0.orders, a0.active, nexts) == AmendAll(account.orders, a0.active, nexts[i..])
        invariant rank == rank0
      {
        AmendActive(nexts[i]);
        assert nexts[i..][1..] == nexts[i + 1..];
        i := i + 1;
      }
      AmendValid(a0, rank0, nexts, rank');
      rank := rank';
    }

    /** The inner loop of UpdateOrders: every active order with the amendment's id takes its type, size, price and legs. */
    method AmendActive(next: Order)
      requires forall j :: 0 <= j < |account.active| ==> account.active[j] in account.orders
      modifies this`account
      ensures account == old(account).(orders := Amend(old(account).orders, old(account).active, next))
    {
      ghost var o1 := account.orders;
      var j := 0;
      while j < |account.active|
        invariant 0 <= j <= |account.active|
        invariant account == old(account).(orders := account.orders)
        invariant account.orders == Amend(o1, account.active[..j], next)
      {
        var x := account.active[j];
        AmendStep(o1, account.active, j, next);
        var order := account.orders[x];
        if order.id == next.id {
          account := account.(orders := account.orders[x := order.(orderType := next.orderType, size := next.size, price := next.price, children := next.children)]);
        }
        j := j + 1;
      }
      assert account.active[..j] == old(account).active;
    }

    /**
     * UpdatePoints: the quote is appended to the instrument's points and to its bars; the
     * bars' item stream then runs a ProcessPendingOrders pass.
     */
    method UpdatePoints(q: Point, name: string)
      requires Valid() && name in account.instruments
      modifies this`account
      ensures account == Process(old(account).(instruments := old(account).instruments[name := Appended(old(account).instruments[name], q)]), old(rank), 0)
      ensures Valid()
    {
      var instrument := account.instruments[name];
      instrument := instrument.(points := instrument.points + [q]);
      instrument := instrument.(pointGroups := instrument.pointGroups + [q]);
      InstrumentsValid(account, rank, account.instruments[name := instrument]);
      account := account.(instruments := account.instruments[name := instrument]);
      ProcessPendingOrders();
    }

    /**
     * UpdatePointProps: the quote is stamped with its instrument, stored by UpdatePoints,
     * and the instrument's latest bar, which is now that quote, is published on DataStream.
     */
    method UpdatePointProps(p: Point, name: string) returns (q: Point)
      requires Valid() && name in account.instruments
      modifies this`account, this`dataStream
      ensures q == Stamp(p, old(account).instruments[name])
      ensures account == Receive(old(account), old(rank), name, p)
      ensures dataStream == old(dataStream) + [Message(Create, None, Some(q))]
      ensures Valid()
    {
      ReceivedIsLatest(account, rank, name, p);
      var instrument := account.instruments[name];
      q := p.(instrument := Some(instrument.name), name := Some(instrument.name), timeFrame := instrument.timeFrame);
      UpdatePoints(q, name);
      dataStream := dataStream + [Message(Create, None, LastBar(account.instruments[name]))];
    }

    /**
     * GeneratePoints, one tick of the replay clock: every empty slot of the buffer reads the
     * next line of its file; the slot with the earliest quote is picked, its quote is
     * stamped, stored and published, and the slot is emptied. Without any file the clock is
     * stopped; a picked slot with no quote makes the source throw.
     */
    method GeneratePoints() returns (outcome: Replay)
      requires Valid()
      modifies this`buffer, this`cursors, this`running, this`account, this`dataStream
      ensures var n := |files|;
        var b := Refilled(old(buffer), files, old(cursors), n);
        var index := Select(b, n);
        && cursors == Advanced(old(buffer), files, old(cursors), n)
        && (index == -1 ==> outcome == Stopped && !running && buffer == b && account == old(account) && dataStream == old(dataStream))
        && (index >= 0 && Vacant(b, index) ==>
              outcome == Fault && running == old(running) && buffer == b && account == old(account) && dataStream == old(dataStream))
        && (index >= 0 && !Vacant(b, index) ==>
              var p := b[index].value;
              var name := instrumentNames[index];
              && outcome == Emitted(index) && running == old(running) && buffer == b[index := None]
              && account == Receive(old(account), rank, name, p)
              && dataStream == old(dataStream) + [Message(Create, None, Some(Stamp(p, old(account).instruments[name])))])
      ensures Valid()
    {
      var index;
      buffer, cursors, index := RefillSlots(buffer, files, cursors);
      if index == -1 {
        running := false;
        return Stopped;
      }
      var slot: nat := index;
      var name := instrumentNames[slot];
      if slot !in buffer || buffer[slot].None? {
        return Fault;
      }
      var q := UpdatePointProps(buffer[slot].value, name);
      buffer := buffer[slot := None];
      return Emitted(slot);
    }

    /**
     * The loop of GeneratePoints: every empty slot reads the next line of its file, and the
     * slot with the earliest quote, the later one on a tie, is picked.
     */
    static method RefillSlots(buffer: map<nat, Option<Point>>, files: seq<seq<Line>>, cursors: seq<nat>)
      returns (points: map<nat, Option<Point>>, positions: seq<nat>, index: int)
      requires |cursors| == |files|
      ensures points == Refilled(buffer, files, cursors, |files|)
      ensures positions == Advanced(buffer, files, cursors, |files|)
      ensures index == Select(points, |files|)
    {
      points, positions := buffer, cursors;
      index := -1;
      var i := 0;
      while i < |files|
        invariant 0 <= i <= |files|
        invariant points == Refilled(buffer, files, cursors, i)
        invariant positions == Advanced(buffer, files, cursors, i)
        invariant index == Select(points, i)
      {
        ghost var p0, c0, k0 := points, positions, index;
        points, positions := ReadSlot(points, positions, files, i);
        index := Pick(points, index, i);
        ScanStep(buffer, files, cursors, i, p0, c0, k0, points, positions, index);
        i := i + 1;
      }
    }

    /** One slot of the GeneratePoints loop: a vacant slot reads the next line of its file, if there is one. */
    static method ReadSlot(points: map<nat, Option<Point>>, positions: seq<nat>, files: seq<seq<Line>>, i: nat)
      returns (points': map<nat, Option<Point>>, positions': seq<nat>)
      requires |positions| == |files| && i < |files|
      ensures positions' == if Vacant(points, i) && positions[i] < |files[i]| then positions[i := positions[i] + 1] else positions
      ensures points' ==
        if Vacant(points, i) && positions[i] < |files[i]| && files[i][positions[i]].Quote? then points[i := files[i][positions[i]].point]
        else points
    {
      points', positions' := points, positions;
      var item := if i in points then points[i] else None;
      if item.None? {
        if positions[i] < |files[i]| {
          var line := files[i][positions[i]];
          positions' := positions[i := positions[i] + 1];
          if line.Quote? {
            points' := points[i := line.point];
          }
        }
      }
    }

    /** The pick of the GeneratePoints loop: slot `i` replaces the candidate when there is none or its quote is no later. */
    static method Pick(points: map<nat, Option<Point>>, index: int, i: nat) returns (index': int)
      ensures index' == if index == -1 || (index >= 0 && NoLater(points, i, index)) then i else index
    {
      index' := index;
      var x := if i in points then points[i] else None;
      var y := if index >= 0 && index in points then points[index] else None;
      var isSingle := index == -1;
      var isMin := x.Some? && y.Some? && x.value.time.Some? && y.value.time.Some? && x.value.time.value <= y.value.time.value;
      if isSingle || isMin {
        index' := i;
      }
    }
  }
}
