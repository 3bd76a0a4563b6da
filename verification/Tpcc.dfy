/** The TPC-C tables that the consistency conditions speak of, and the three transactions that write them.  Transactions
    run one at a time; money is exact.  `oldest` and `added` are auxiliary: the oldest undelivered order of each
    district, and the order lines in the order in which new-order transactions inserted them. */
module Tpcc {
  import opened TpccKeys

  datatype District = District(w: int, d: int)
  datatype OrderId3 = OrderId3(w: int, d: int, o: int)
  datatype LineId = LineId(w: int, d: int, o: int, n: int)
  datatype StockId = StockId(w: int, i: int)

  datatype Order = Order(customer: int, lines: int, carrier: int)
  datatype Line = Line(item: int, supply: int, quantity: int)
  datatype Stock = Stock(quantity: int, ytd: int, orders: int, remotes: int)

  /** One requested item; item 0 stands for an unused number that makes the transaction roll back. */
  datatype Info = Info(item: int, supply: int, quantity: int)

  datatype Added = Added(id: LineId, line: Line)

  datatype Db = Db(warehouses: int, wYtd: map<int, real>, dYtd: map<District, real>, dNext: map<District, int>,
                   newOrders: set<OrderId3>, orders: map<OrderId3, Order>, lines: map<LineId, Line>,
                     stock: map<StockId, Stock>,
                   oldest: map<District, int>, added: seq<Added>)

  datatype Txn =
    | NewOrder(w: int, d: int, customer: int, items: seq<Info>)
    | Payment(w: int, d: int, amount: real)
    | Delivery(w: int, d: int, carrier: int)

  predicate IsDistrict(db: Db, x: District) {
    1 <= x.w <= db.warehouses && 1 <= x.d <= DISTRICTS
  }

  // ----- new order -----

  predicate InfoOk(db: Db, x: Info) {
    0 <= x.item <= STOCKS && 1 <= x.supply <= db.warehouses && 1 <= x.quantity <= 10
  }

  function Restocked(s: Stock, quantity: int, remote: bool): Stock {
    Stock(if s.quantity >= quantity + 10 then s.quantity - quantity else s.quantity - quantity + 91,
          s.ytd + quantity, s.orders + 1, if remote then s.remotes + 1 else s.remotes)
  }

  /** The stock rows are all read before the first is written; line by line they are then written back. */
  function StockAfter(read: map<StockId, Stock>, w: int, items: seq<Info>): map<StockId, Stock>
    requires forall x :: x in items ==> StockId(x.supply, x.item) in read
  {
    if items == [] then read
    else
      var x := items[|items| - 1];
      assert x in items;
      StockAfter(read, w, items[..|items| - 1])[StockId(x.supply, x.item) := Restocked(read[StockId(x.supply, x.item)],
        x.quantity, x.supply != w)]
  }

  function LinesAfter(lines: map<LineId, Line>, w: int, d: int, o: int, items: seq<Info>): map<LineId, Line> {
    if items == [] then lines
    else
      var x := items[|items| - 1];
      LinesAfter(lines, w, d, o, items[..|items| - 1])[LineId(w, d, o, |items|) := Line(x.item, x.supply, x.quantity)]
  }

  function Log(w: int, d: int, o: int, items: seq<Info>): seq<Added> {
    if items == [] then []
    else
      var x := items[|items| - 1];
      Log(w, d, o, items[..|items| - 1]) + [Added(LineId(w, d, o, |items|), Line(x.item, x.supply, x.quantity))]
  }

  predicate HasUnused(items: seq<Info>) {
    exists x :: x in items && x.item == 0
  }

  function NewOrderOf(db: Db, w: int, d: int, customer: int, items: seq<Info>): Db
    requires District(w, d) in db.dNext && forall x :: x in items ==> StockId(x.supply, x.item) in db.stock
  {
    var o := db.dNext[District(w, d)];
    db.(dNext := db.dNext[District(w, d) := o + 1], newOrders := db.newOrders + {OrderId3(w, d, o)},
        orders := db.orders[OrderId3(w, d, o) := Order(customer, |items|, 0)],
        lines := LinesAfter(db.lines, w, d, o, items), stock := StockAfter(db.stock, w, items),
        added := db.added + Log(w, d, o, items))
  }

  // ----- payment -----

  function PaymentOf(db: Db, w: int, d: int, amount: real): Db
    requires w in db.wYtd && District(w, d) in db.dYtd
  {
    db.(wYtd := db.wYtd[w := db.wYtd[w] + amount], dYtd := db.dYtd[District(w, d) := db.dYtd[District(w, d)] + amount])
  }

  // ----- delivery -----

  predicate InScan(w: int, d: int, k: OrderId3) {
    OrderKey(w, d, 0) <= OrderKey(k.w, k.d, k.o) <= OrderKey(w, d, MAX_ORDER_ID)
  }

  /** The first new-order row, in key order, of the scan for a district. */
  ghost predicate FirstInScan(db: Db, w: int, d: int, k: OrderId3) {
    k in db.newOrders && InScan(w, d, k) && forall j ::
      j in db.newOrders && InScan(w, d, j) ==> OrderKey(k.w, k.d, k.o) <= OrderKey(j.w, j.d, j.o)
  }

  function DeliveryOf(db: Db, w: int, d: int, k: OrderId3, carrier: int): Db
    requires k in db.orders
  {
    db.(newOrders := db.newOrders - {k}, orders := db.orders[k := db.orders[k].(carrier := carrier)],
        oldest := db.oldest[District(w, d) := k.o + 1])
  }

  // ----- one transaction -----

  ghost predicate Can(db: Db, t: Txn) {
    match t
    case NewOrder(w, d, _, items) =>
      && IsDistrict(db, District(w, d)) && 5 <= |items| <= LINES && (forall x :: x in items ==> InfoOk(db, x))
      && District(w, d) in db.dNext && db.dNext[District(w, d)] + 1 < MAX_ORDER_ID
    case Payment(w, d, _) => IsDistrict(db, District(w, d))
    case Delivery(w, d, _) => IsDistrict(db, District(w, d)) && exists k :: FirstInScan(db, w, d, k)
  }

  ghost predicate Step(db: Db, t: Txn, db': Db) {
    && Can(db, t)
    && match t
       case NewOrder(w, d, customer, items) =>
         if HasUnused(items) then db' == db
         else
           (forall x :: x in items ==> StockId(x.supply, x.item) in db.stock)
           && db' == NewOrderOf(db, w, d, customer, items)
       case Payment(w, d, amount) => w in db.wYtd && District(w, d) in db.dYtd && db' == PaymentOf(db, w, d, amount)
       case Delivery(w, d, carrier) =>
         exists k :: FirstInScan(db, w, d, k) && k in db.orders && db' == DeliveryOf(db, w, d, k, carrier)
  }

  // ----- the initial load -----

  ghost predicate Init(db: Db) {
    && 1 <= db.warehouses <= MAX_STOCK_WAREHOUSE && db.added == []
    && (forall w :: w in db.wYtd <==> 1 <= w <= db.warehouses) && (forall w :: w in db.wYtd ==> db.wYtd[w] == 30000.0)
    && (forall x :: x in db.dYtd <==> IsDistrict(db, x)) && (forall x :: x in db.dYtd ==> db.dYtd[x] == 3000.0)
    && (forall x :: x in db.dNext <==> IsDistrict(db, x)) && (forall x :: x in db.dNext ==> db.dNext[x] == 3001)
    && (forall x :: x in db.oldest <==> IsDistrict(db, x)) && (forall x :: x in db.oldest ==> db.oldest[x] == 2101)
    && (forall k :: k in db.newOrders <==> IsDistrict(db, District(k.w, k.d)) && 2101 <= k.o <= 3000)
    && (forall k :: k in db.orders <==> IsDistrict(db, District(k.w, k.d)) && 1 <= k.o <= 3000)
    && (forall k :: k in db.orders ==> 5 <= db.orders[k].lines <= LINES)
    && (forall k :: k in db.lines <==>
       OrderId3(k.w, k.d, k.o) in db.orders && 1 <= k.n <= db.orders[OrderId3(k.w, k.d, k.o)].lines)
    && (forall k :: k in db.stock <==> 1 <= k.w <= db.warehouses && 1 <= k.i <= STOCKS)
    && (forall k :: k in db.stock ==> 10 <= db.stock[k].quantity <= 100 && db.stock[k].ytd == 0)
  }

  // ----- the invariant -----

  /** Sum of D_YTD over the first `n` districts. */
  function DistrictSum(dYtd: map<District, real>, w: int, n: nat): real {
    if n == 0 then 0.0 else DistrictSum(dYtd, w, n - 1) + if District(w, n) in dYtd then dYtd[District(w, n)] else 0.0
  }

  ghost predicate MoneyOk(db: Db) {
    && (forall w {:trigger w in db.wYtd} :: w in db.wYtd <==> 1 <= w <= db.warehouses)
    && (forall x {:trigger x in db.dYtd} :: x in db.dYtd <==> IsDistrict(db, x))
    && (forall w {:trigger db.wYtd[w]} :: w in db.wYtd ==> db.wYtd[w] == DistrictSum(db.dYtd, w, 10))
  }

  ghost predicate OrdersOk(db: Db) {
    && (forall x {:trigger x in db.dNext} :: x in db.dNext <==> IsDistrict(db, x))
    && (forall x {:trigger db.dNext[x]} :: x in db.dNext ==> 3001 <= db.dNext[x] < MAX_ORDER_ID)
    && (forall k {:trigger k in db.orders} ::
       k in db.orders <==> District(k.w, k.d) in db.dNext && 1 <= k.o < db.dNext[District(k.w, k.d)])
    && (forall k {:trigger db.orders[k]} :: k in db.orders ==> 5 <= db.orders[k].lines <= LINES)
  }

  ghost predicate LinesOk(db: Db) {
    forall k {:trigger k in db.lines} :: k in db.lines <==>
      OrderId3(k.w, k.d, k.o) in db.orders && 1 <= k.n <= db.orders[OrderId3(k.w, k.d, k.o)].lines
  }

  /** A district's undelivered orders are an interval that ends at the next order number. */
  ghost predicate NewOrdersOk(db: Db) {
    && (forall x {:trigger x in db.oldest} :: x in db.oldest <==> x in db.dNext)
    && (forall x {:trigger db.oldest[x]} :: x in db.oldest && x in db.dNext ==> 1 <= db.oldest[x] <= db.dNext[x])
    && (forall k {:trigger k in db.newOrders} :: k in db.newOrders <==>
          District(k.w, k.d) in db.oldest && District(k.w, k.d) in db.dNext
            && db.oldest[District(k.w, k.d)] <= k.o < db.dNext[District(k.w, k.d)])
  }

  ghost predicate StockOk(db: Db) {
    && (forall k {:trigger k in db.stock} :: k in db.stock <==> 1 <= k.w <= db.warehouses && 1 <= k.i <= STOCKS)
    && (forall k {:trigger db.stock[k]} :: k in db.stock ==> 10 <= db.stock[k].quantity <= 100)
  }

  ghost predicate Good(db: Db) {
    1 <= db.warehouses <= MAX_STOCK_WAREHOUSE && MoneyOk(db) && OrdersOk(db) && LinesOk(db) && NewOrdersOk(db)
      && StockOk(db)
  }

  lemma {:induction false} InitialSum(dYtd: map<District, real>, w: int, n: nat)
    requires forall i :: 1 <= i <= n ==> District(w, i) in dYtd && dYtd[District(w, i)] == 3000.0
    ensures DistrictSum(dYtd, w, n) == 3000.0 * n as real
  {
    if n > 0 {
      InitialSum(dYtd, w, n - 1);
    }
  }

  lemma InitGood(db: Db)
    requires Init(db)
    ensures Good(db)
  {
    forall w | w in db.wYtd ensures db.wYtd[w] == DistrictSum(db.dYtd, w, 10) {
      forall i | 1 <= i <= 10 ensures District(w, i) in db.dYtd && db.dYtd[District(w, i)] == 3000.0 {
        assert IsDistrict(db, District(w, i));
      }
      InitialSum(db.dYtd, w, 10);
    }
  }

  // ----- payment keeps it -----

  lemma {:induction false} SumUpdate(dYtd: map<District, real>, x: District, a: real, w: int, n: nat)
    requires x in dYtd
    ensures DistrictSum(dYtd[x := dYtd[x] + a], w, n) == DistrictSum(dYtd, w, n) + if x.w == w && 1 <= x.d <= n then a
      else 0.0
  {
    if n > 0 {
      SumUpdate(dYtd, x, a, w, n - 1);
    }
  }

  lemma PaymentGood(db: Db, w: int, d: int, amount: real)
    requires Good(db) && IsDistrict(db, District(w, d))
    ensures w in db.wYtd && District(w, d) in db.dYtd && Good(PaymentOf(db, w, d, amount))
  {
    var t := PaymentOf(db, w, d, amount);
    forall v | v in t.wYtd ensures t.wYtd[v] == DistrictSum(t.dYtd, v, 10) {
      assert db.wYtd[v] == DistrictSum(db.dYtd, v, 10);
      SumUpdate(db.dYtd, District(w, d), amount, v, 10);
    }
  }

  // ----- new order keeps it -----

  lemma {:induction false} LinesAfterIs(lines: map<LineId, Line>, w: int, d: int, o: int, items: seq<Info>, k: LineId)
    ensures k in LinesAfter(lines, w, d, o, items) <==>
      k in lines || (k.w == w && k.d == d && k.o == o && 1 <= k.n <= |items|)
    ensures k in LinesAfter(lines, w, d, o, items) ==>
              LinesAfter(lines, w, d, o, items)[k] ==
              if k.w == w && k.d == d && k.o == o && 1 <= k.n <= |items|
              then Line(items[k.n - 1].item, items[k.n - 1].supply, items[k.n - 1].quantity)
              else lines[k]
    decreases |items|
  {
    if items != [] {
      LinesAfterIs(lines, w, d, o, items[..|items| - 1], k);
    }
  }

  lemma {:induction false} StockAfterIs(read: map<StockId, Stock>, w: int, items: seq<Info>, k: StockId)
    requires forall x :: x in items ==> StockId(x.supply, x.item) in read && 1 <= x.quantity <= 10
    ensures k in StockAfter(read, w, items) <==> k in read
    ensures k in read && 10 <= read[k].quantity <= 100 ==> 10 <= StockAfter(read, w, items)[k].quantity <= 100
    decreases |items|
  {
    if items != [] {
      var x := items[|items| - 1];
      assert x in items;
      StockAfterIs(read, w, items[..|items| - 1], k);
    }
  }

  lemma StockThere(db: Db, items: seq<Info>)
    requires Good(db) && (forall x :: x in items ==> InfoOk(db, x)) && !HasUnused(items)
    ensures forall x :: x in items ==> StockId(x.supply, x.item) in db.stock
  {
    forall x | x in items ensures StockId(x.supply, x.item) in db.stock {
      assert InfoOk(db, x) && x.item != 0;
    }
  }

  lemma NewOrderRows(db: Db, w: int, d: int, customer: int, items: seq<Info>)
    requires Good(db) && Can(db, NewOrder(w, d, customer, items)) && forall x ::
      x in items ==> StockId(x.supply, x.item) in db.stock
    ensures OrdersOk(NewOrderOf(db, w, d, customer, items)) && NewOrdersOk(NewOrderOf(db, w, d, customer, items))
  {
    var t, x := NewOrderOf(db, w, d, customer, items), District(w, d);
    assert 3001 <= db.dNext[x] && db.oldest[x] <= db.dNext[x];
  }

  lemma NewOrderLines(db: Db, w: int, d: int, customer: int, items: seq<Info>)
    requires Good(db) && Can(db, NewOrder(w, d, customer, items)) && forall x ::
      x in items ==> StockId(x.supply, x.item) in db.stock
    ensures LinesOk(NewOrderOf(db, w, d, customer, items))
  {
    var t, o := NewOrderOf(db, w, d, customer, items), db.dNext[District(w, d)];
    forall k ensures k in t.lines <==>
      OrderId3(k.w, k.d, k.o) in t.orders && 1 <= k.n <= t.orders[OrderId3(k.w, k.d, k.o)].lines
    {
      LinesAfterIs(db.lines, w, d, o, items, k);
      assert OrderId3(w, d, o) !in db.orders;
    }
  }

  lemma NewOrderGood(db: Db, w: int, d: int, customer: int, items: seq<Info>)
    requires Good(db) && Can(db, NewOrder(w, d, customer, items)) && !HasUnused(items)
    ensures (forall x :: x in items ==> StockId(x.supply, x.item) in db.stock)
      && Good(NewOrderOf(db, w, d, customer, items))
  {
    StockThere(db, items);
    var t := NewOrderOf(db, w, d, customer, items);
    NewOrderRows(db, w, d, customer, items);
    NewOrderLines(db, w, d, customer, items);
    assert forall x :: x in items ==> 1 <= x.quantity <= 10 by {
      forall x | x in items ensures 1 <= x.quantity <= 10 { assert InfoOk(db, x); }
    }
    forall k ensures (k in t.stock <==> k in db.stock) && (k in t.stock ==> 10 <= t.stock[k].quantity <= 100) {
      StockAfterIs(db.stock, w, items, k);
      assert k in db.stock ==> 10 <= db.stock[k].quantity <= 100;
    }
  }

  // ----- delivery keeps it -----

  /** The scan finds the oldest undelivered order of the district, if there is one. */
  lemma ScanFindsOldest(db: Db, w: int, d: int, k: OrderId3)
    requires Good(db) && IsDistrict(db, District(w, d))
    ensures District(w, d) in db.oldest && District(w, d) in db.dNext
    ensures FirstInScan(db, w, d, k) <==>
      db.oldest[District(w, d)] < db.dNext[District(w, d)] && k == OrderId3(w, d, db.oldest[District(w, d)])
  {
    var x := District(w, d);
    assert x in db.dNext && x in db.oldest;
    var first := OrderId3(w, d, db.oldest[x]);
    forall j | j in db.newOrders ensures InScan(w, d, j) <==> j.w == w && j.d == d {
      RowInRange(db, j);
      DistrictScan(w, d, j.w, j.d, j.o);
    }
    if db.oldest[x] < db.dNext[x] {
      assert first in db.newOrders;
      forall j | j in db.newOrders && j.w == w && j.d == d
        ensures OrderKey(first.w, first.d, first.o) <= OrderKey(j.w, j.d, j.o)
        ensures OrderKey(first.w, first.d, first.o) == OrderKey(j.w, j.d, j.o) ==> j == first
      {
        RowInRange(db, j);
        RowInRange(db, first);
        OrderKeyOrder(w, d, first.o, w, d, j.o);
      }
    }
  }

  lemma RowInRange(db: Db, j: OrderId3)
    requires Good(db) && j in db.newOrders
    ensures IsDistrict(db, District(j.w, j.d)) && InDistrict(j.w, j.d) && 1 <= j.o < MAX_ORDER_ID && j in db.orders
  {
    var x := District(j.w, j.d);
    assert 1 <= db.oldest[x] && db.dNext[x] < MAX_ORDER_ID;
  }

  lemma DeliveryRows(db: Db, w: int, d: int, k: OrderId3, carrier: int)
    requires Good(db) && k in db.orders
    ensures OrdersOk(DeliveryOf(db, w, d, k, carrier)) && LinesOk(DeliveryOf(db, w, d, k, carrier))
  {
    var t := DeliveryOf(db, w, d, k, carrier);
    assert forall j :: j in db.orders ==> t.orders[j].lines == db.orders[j].lines;
  }

  lemma DeliveryGood(db: Db, w: int, d: int, k: OrderId3, carrier: int)
    requires Good(db) && IsDistrict(db, District(w, d)) && FirstInScan(db, w, d, k)
    ensures k in db.orders && Good(DeliveryOf(db, w, d, k, carrier))
  {
    ScanFindsOldest(db, w, d, k);
    RowInRange(db, k);
    DeliveryRows(db, w, d, k, carrier);
  }

  lemma StepGood(db: Db, t: Txn, db': Db)
    requires Good(db) && Step(db, t, db')
    ensures Good(db')
  {
    match t
    case NewOrder(w, d, customer, items) =>
      if !HasUnused(items) { NewOrderGood(db, w, d, customer, items); }
    case Payment(w, d, amount) => PaymentGood(db, w, d, amount);
    case Delivery(w, d, carrier) =>
      var k :| FirstInScan(db, w, d, k) && k in db.orders && db' == DeliveryOf(db, w, d, k, carrier);
      DeliveryGood(db, w, d, k, carrier);
  }

  // ----- whole runs -----

  ghost predicate IsRun(run: seq<Db>, txns: seq<Txn>) {
    && |run| == |txns| + 1 && Init(run[0])
    && (forall i {:trigger txns[i]} :: 0 <= i < |txns| ==> Step(run[i], txns[i], run[i + 1]))
  }

  lemma {:induction false} RunGood(run: seq<Db>, txns: seq<Txn>, n: nat)
    requires IsRun(run, txns) && n < |run|
    ensures Good(run[n])
  {
    if n == 0 {
      InitGood(run[0]);
    } else {
      var i := n - 1;
      RunGood(run, txns, i);
      StepGood(run[i], txns[i], run[i + 1]);
    }
  }
}
