/** The transactions as they run on the tables. */
module TpccDatabase {
  import opened SeqOps
  import opened TpccKeys
  import opened Tpcc

  /** Each method takes the step of its transaction; the steps keep `Good`. */
  class Database {
    const warehouses: int
    var wYtd: map<int, real>
    var dYtd: map<District, real>
    var dNext: map<District, int>
    var newOrders: set<OrderId3>
    var orders: map<OrderId3, Order>
    var lines: map<LineId, Line>
    var stock: map<StockId, Stock>
    ghost var oldest: map<District, int>
    ghost var added: seq<Added>

    ghost function S(): Db
      reads this
    {
      Db(warehouses, wYtd, dYtd, dNext, newOrders, orders, lines, stock, oldest, added)
    }

    /** The stock rows of all items, read before any is written; nothing is written if one of the items is unused. */
    method ReadStock(items: seq<Info>) returns (found: bool, rows: seq<Stock>)
      requires Good(S()) && forall x :: x in items ==> InfoOk(S(), x)
      ensures found == !HasUnused(items)
      ensures found ==>
        |rows| == |items| && forall i ::
        0 <= i < |items| ==>
        StockId(items[i].supply, items[i].item) in stock && rows[i] == stock[StockId(items[i].supply, items[i].item)]
    {
      rows := [];
      for i := 0 to |items|
        invariant |rows| == i
        invariant forall k ::
          0 <= k < i ==>
            items[k].item != 0 && StockId(items[k].supply, items[k].item) in stock
            && rows[k] == stock[StockId(items[k].supply, items[k].item)]
      {
        assert items[i] in items && InfoOk(S(), items[i]);
        if items[i].item == 0 {
          return false, rows;
        }
        rows := rows + [stock[StockId(items[i].supply, items[i].item)]];
      }
      found := true;
    }

    method NewOrder(w: int, d: int, customer: int, items: seq<Info>) returns (committed: bool)
      requires Good(S()) && Can(S(), Txn.NewOrder(w, d, customer, items))
      modifies this
      ensures committed == !HasUnused(items) && Step(old(S()), Txn.NewOrder(w, d, customer, items), S())
    {
      var rows;
      committed, rows := ReadStock(items);
      if !committed {
        return;
      }
      StockThere(S(), items);
      var o := dNext[District(w, d)];
      dNext := dNext[District(w, d) := o + 1];
      newOrders := newOrders + {OrderId3(w, d, o)};
      orders := orders[OrderId3(w, d, o) := Order(customer, |items|, 0)];
      WriteLines(w, d, o, items, rows);
      assert S() == NewOrderOf(old(S()), w, d, customer, items);
    }

    /** Line by line: the stock row back, and a row into the order-line table. */
    method WriteLines(w: int, d: int, o: int, items: seq<Info>, rows: seq<Stock>)
      requires forall x :: x in items ==> StockId(x.supply, x.item) in stock
      requires |rows| == |items| && forall i ::
        0 <= i < |items| ==>
        StockId(items[i].supply, items[i].item) in stock && rows[i] == stock[StockId(items[i].supply, items[i].item)]
      modifies this`stock, this`lines, this`added
      ensures stock == StockAfter(old(stock), w, items) && lines == LinesAfter(old(lines), w, d, o, items)
      ensures added == old(added) + Log(w, d, o, items)
    {
      for i := 0 to |items|
        invariant stock == StockAfter(old(stock), w, items[..i]) && lines == LinesAfter(old(lines), w, d, o, items[..i])
        invariant added == old(added) + Log(w, d, o, items[..i])
      {
        var x := items[i];
        assert items[..i + 1][..i] == items[..i];
        stock := stock[StockId(x.supply, x.item) := Restocked(rows[i], x.quantity, x.supply != w)];
        lines := lines[LineId(w, d, o, i + 1) := Line(x.item, x.supply, x.quantity)];
        added := added + [Added(LineId(w, d, o, i + 1), Line(x.item, x.supply, x.quantity))];
      }
      assert items[..|items|] == items;
    }

    method Payment(w: int, d: int, amount: real)
      requires Good(S()) && Can(S(), Txn.Payment(w, d, amount))
      modifies this`wYtd, this`dYtd
      ensures Step(old(S()), Txn.Payment(w, d, amount), S())
    {
      wYtd := wYtd[w := wYtd[w] + amount];
      dYtd := dYtd[District(w, d) := dYtd[District(w, d)] + amount];
      assert S() == PaymentOf(old(S()), w, d, amount);
    }

    /** The first row of the scan for a district. */
    method FirstNewOrder(w: int, d: int) returns (k: Option<OrderId3>)
      requires Good(S()) && IsDistrict(S(), District(w, d))
      ensures k.Some? ==> FirstInScan(S(), w, d, k.value)
      ensures k.None? ==> !Can(S(), Txn.Delivery(w, d, 0))
    {
      if !exists j :: j in newOrders && InScan(w, d, j) {
        return None;
      }
      NonEmptyScan(S(), w, d);
      var j :| j in newOrders && InScan(w, d, j) && forall i ::
        i in newOrders && InScan(w, d, i) ==> OrderKey(j.w, j.d, j.o) <= OrderKey(i.w, i.d, i.o);
      k := Some(j);
    }

    /** Deliver the oldest order; false stands for the failed check on a district without undelivered orders. */
    method Delivery(w: int, d: int, carrier: int) returns (ok: bool)
      requires Good(S()) && IsDistrict(S(), District(w, d))
      modifies this`newOrders, this`orders, this`oldest
      ensures ok == Can(old(S()), Txn.Delivery(w, d, 0))
      ensures if ok then Step(old(S()), Txn.Delivery(w, d, carrier), S()) else S() == old(S())
    {
      var first := FirstNewOrder(w, d);
      if first.None? {
        return false;
      }
      var k := first.value;
      RowInRange(S(), k);
      newOrders := newOrders - {k};
      orders := orders[k := orders[k].(carrier := carrier)];
      oldest := oldest[District(w, d) := k.o + 1];
      assert S() == DeliveryOf(old(S()), w, d, k, carrier);
      ok := true;
    }
  }

  lemma NonEmptyScan(db: Db, w: int, d: int)
    requires Good(db) && IsDistrict(db, District(w, d)) && exists k :: k in db.newOrders && InScan(w, d, k)
    ensures District(w, d) in db.oldest && FirstInScan(db, w, d, OrderId3(w, d, db.oldest[District(w, d)]))
  {
    var k :| k in db.newOrders && InScan(w, d, k);
    RowInRange(db, k);
    DistrictScan(w, d, k.w, k.d, k.o);
    assert District(w, d) in db.dNext && District(w, d) in db.oldest;
    ScanFindsOldest(db, w, d, OrderId3(w, d, db.oldest[District(w, d)]));
  }
}
