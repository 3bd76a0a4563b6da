/** Stock levels and year-to-date quantities under new-order transactions, and the generator of their items. */
module TpccStock {
  import opened SeqOps
  import opened TpccKeys
  import opened Tpcc

  function KeyOf(x: Info): StockId {
    StockId(x.supply, x.item)
  }

  /** Quantity ordered of one stock row. */
  function Demand(items: seq<Info>, k: StockId): int {
    if items == [] then 0
      else Demand(items[..|items| - 1], k) + if KeyOf(items[|items| - 1]) == k then items[|items| - 1].quantity else 0
  }

  ghost predicate DistinctRows(items: seq<Info>) {
    forall i, j :: 0 <= i < j < |items| ==> KeyOf(items[i]) != KeyOf(items[j])
  }

  lemma {:induction false} DemandNone(items: seq<Info>, k: StockId)
    requires forall i :: 0 <= i < |items| ==> KeyOf(items[i]) != k
    ensures Demand(items, k) == 0
  {
    if items != [] {
      DemandNone(items[..|items| - 1], k);
    }
  }

  lemma {:induction false} DemandSome(items: seq<Info>, k: StockId, i: nat)
    requires i < |items| && KeyOf(items[i]) == k && forall j :: 0 <= j < |items| ==> items[j].quantity >= 1
    ensures Demand(items, k) >= 1
  {
    var rest := items[..|items| - 1];
    if i < |items| - 1 {
      DemandSome(rest, k, i);
    } else {
      DemandAtLeast(rest, k);
    }
  }

  lemma {:induction false} DemandAtLeast(items: seq<Info>, k: StockId)
    requires forall j :: 0 <= j < |items| ==> items[j].quantity >= 1
    ensures Demand(items, k) >= 0
  {
    if items != [] {
      DemandAtLeast(items[..|items| - 1], k);
    }
  }

  /** What one order adds to S_YTD of a row is the quantity of the last line for it: the rows are read before any
      write. */
  function LastDemand(items: seq<Info>, k: StockId): int {
    if items == [] then 0
    else if KeyOf(items[|items| - 1]) == k then items[|items| - 1].quantity else LastDemand(items[..|items| - 1], k)
  }

  lemma {:induction false} YtdAfter(read: map<StockId, Stock>, w: int, items: seq<Info>, k: StockId)
    requires (forall x :: x in items ==> StockId(x.supply, x.item) in read) && k in read
    ensures k in StockAfter(read, w, items) && StockAfter(read, w, items)[k].ytd == read[k].ytd + LastDemand(items, k)
    decreases |items|
  {
    if items != [] {
      assert items[|items| - 1] in items;
      YtdAfter(read, w, items[..|items| - 1], k);
    }
  }

  lemma {:induction false} DistinctDemand(items: seq<Info>, k: StockId)
    requires DistinctRows(items)
    ensures LastDemand(items, k) == Demand(items, k)
  {
    if items != [] {
      var rest := items[..|items| - 1];
      if KeyOf(items[|items| - 1]) == k {
        forall i | 0 <= i < |rest| ensures KeyOf(rest[i]) != k { assert rest[i] == items[i]; }
        DemandNone(rest, k);
      } else {
        DistinctDemand(rest, k);
      }
    }
  }

  lemma {:induction false} RepeatLoses(items: seq<Info>, i: nat, j: nat)
    requires i < j < |items| && KeyOf(items[i]) == KeyOf(items[j]) && forall n ::
      0 <= n < |items| ==> items[n].quantity >= 1
    ensures LastDemand(items, KeyOf(items[i])) < Demand(items, KeyOf(items[i]))
    decreases |items|
  {
    var k, rest := KeyOf(items[i]), items[..|items| - 1];
    if KeyOf(items[|items| - 1]) == k {
      DemandSome(rest, k, i);
    } else {
      RepeatLoses(rest, i, j);
    }
  }

  /** An order adds to every stock row exactly the quantity ordered of it if and only if no row is ordered twice. */
  lemma YtdExact(read: map<StockId, Stock>, w: int, items: seq<Info>)
    requires (forall x :: x in items ==> StockId(x.supply, x.item) in read) && forall n ::
      0 <= n < |items| ==> items[n].quantity >= 1
    ensures DistinctRows(items) <==>
      forall k :: k in read ==>
        k in StockAfter(read, w, items) && StockAfter(read, w, items)[k].ytd == read[k].ytd + Demand(items, k)
  {
    forall k | k in read
      ensures k in StockAfter(read, w, items) && StockAfter(read, w, items)[k].ytd == read[k].ytd + LastDemand(items, k)
      ensures DistinctRows(items) ==> LastDemand(items, k) == Demand(items, k)
    {
      YtdAfter(read, w, items, k);
      if DistinctRows(items) { DistinctDemand(items, k); }
    }
    if !DistinctRows(items) {
      var i, j :| 0 <= i < j < |items| && KeyOf(items[i]) == KeyOf(items[j]);
      assert items[i] in items;
      RepeatLoses(items, i, j);
    }
  }

  // ----- totals over whole runs -----

  /** Quantity of one stock row in the lines that new-order transactions have added. */
  function Ordered(added: seq<Added>, k: StockId): int {
    if added == [] then 0
    else
      var line := added[|added| - 1].line;
      Ordered(added[..|added| - 1], k) + if StockId(line.supply, line.item) == k then line.quantity else 0
  }

  function TotalQuantity(added: seq<Added>): int {
    if added == [] then 0 else TotalQuantity(added[..|added| - 1]) + added[|added| - 1].line.quantity
  }

  lemma {:induction false} OrderedJoin(a: seq<Added>, b: seq<Added>, k: StockId)
    ensures Ordered(a + b, k) == Ordered(a, k) + Ordered(b, k)
    decreases |b|
  {
    if b == [] {
      assert a + b == a;
    } else {
      OrderedJoin(a, b[..|b| - 1], k);
      assert (a + b)[..|a + b| - 1] == a + b[..|b| - 1];
    }
  }

  lemma {:induction false} OrderedLog(w: int, d: int, o: int, items: seq<Info>, k: StockId)
    ensures Ordered(Log(w, d, o, items), k) == Demand(items, k)
  {
    if items != [] {
      var l := Log(w, d, o, items);
      OrderedLog(w, d, o, items[..|items| - 1], k);
      assert l[..|l| - 1] == Log(w, d, o, items[..|items| - 1]);
    }
  }

  /** Every row's S_YTD is what has been ordered of it. */
  ghost predicate YtdOk(db: Db) {
    forall k {:trigger db.stock[k]} :: k in db.stock ==> db.stock[k].ytd == Ordered(db.added, k)
  }

  ghost predicate DistinctTxn(t: Txn) {
    t.NewOrder? ==> DistinctRows(t.items)
  }

  lemma NewOrderYtd(db: Db, w: int, d: int, customer: int, items: seq<Info>)
    requires District(w, d) in db.dNext && (forall x :: x in items ==> StockId(x.supply, x.item) in db.stock)
      && DistinctRows(items) && YtdOk(db)
    requires forall k :: k in StockAfter(db.stock, w, items) ==> k in db.stock
    ensures YtdOk(NewOrderOf(db, w, d, customer, items))
  {
    var t, o := NewOrderOf(db, w, d, customer, items), db.dNext[District(w, d)];
    forall k | k in t.stock ensures t.stock[k].ytd == Ordered(t.added, k) {
      YtdAfter(db.stock, w, items, k);
      DistinctDemand(items, k);
      OrderedJoin(db.added, Log(w, d, o, items), k);
      OrderedLog(w, d, o, items, k);
    }
  }

  lemma StepYtd(db: Db, t: Txn, db': Db)
    requires Good(db) && Step(db, t, db') && YtdOk(db) && DistinctTxn(t)
    ensures YtdOk(db')
  {
    if t.NewOrder? && !HasUnused(t.items) {
      assert forall x :: x in t.items ==> StockId(x.supply, x.item) in db.stock;
      forall k | k in StockAfter(db.stock, t.w, t.items) ensures k in db.stock {
        forall x | x in t.items ensures StockId(x.supply, x.item) in db.stock && 1 <= x.quantity <= 10 {
          assert InfoOk(db, x);
        }
        StockAfterIs(db.stock, t.w, t.items, k);
      }
      NewOrderYtd(db, t.w, t.d, t.customer, t.items);
    }
  }

  lemma {:induction false} RunYtd(run: seq<Db>, txns: seq<Txn>, n: nat)
    requires IsRun(run, txns) && n < |run| && forall i :: 0 <= i < |txns| ==> DistinctTxn(txns[i])
    ensures YtdOk(run[n])
  {
    if n > 0 {
      var i := n - 1;
      RunYtd(run, txns, i);
      RunGood(run, txns, i);
      StepYtd(run[i], txns[i], run[i + 1]);
    }
  }

  /** In every reachable state every S_QUANTITY is between 10 and 100 and, if no order named a row twice, every S_YTD is
      the quantity ordered of the row. */
  lemma StockInRange(run: seq<Db>, txns: seq<Txn>, n: nat, k: StockId)
    requires IsRun(run, txns) && n < |run| && k in run[n].stock
    ensures 10 <= run[n].stock[k].quantity <= 100
    ensures (forall i :: 0 <= i < |txns| ==> DistinctTxn(txns[i])) ==> run[n].stock[k].ytd == Ordered(run[n].added, k)
  {
    RunGood(run, txns, n);
    if forall i :: 0 <= i < |txns| ==> DistinctTxn(txns[i]) {
      RunYtd(run, txns, n);
    }
  }

  // ----- the log of added lines is the order-line table beyond the initial load -----

  ghost predicate InLog(added: seq<Added>, k: LineId) {
    exists i :: 0 <= i < |added| && added[i].id == k
  }

  ghost predicate EntryOk(db: Db, e: Added) {
    && e.id in db.lines && db.lines[e.id] == e.line && e.id.o >= 3001
    && 1 <= e.line.supply <= db.warehouses && 1 <= e.line.item <= STOCKS
  }

  ghost predicate LogOk(db: Db) {
    && (forall i {:trigger db.added[i]} :: 0 <= i < |db.added| ==> EntryOk(db, db.added[i]))
    && (forall i, j {:trigger db.added[i].id, db.added[j].id} ::
       0 <= i < j < |db.added| ==> db.added[i].id != db.added[j].id)
    && (forall k {:trigger InLog(db.added, k)} :: k in db.lines && k.o >= 3001 ==> InLog(db.added, k))
  }

  lemma {:induction false} LogIs(w: int, d: int, o: int, items: seq<Info>)
    ensures |Log(w, d, o, items)| == |items|
    ensures forall i ::
      0 <= i < |items| ==>
      Log(w, d, o, items)[i] == Added(LineId(w, d, o, i + 1), Line(items[i].item, items[i].supply, items[i].quantity))
  {
    if items != [] {
      LogIs(w, d, o, items[..|items| - 1]);
    }
  }

  lemma NewOrderEntries(db: Db, w: int, d: int, customer: int, items: seq<Info>, i: nat)
    requires Good(db) && Can(db, NewOrder(w, d, customer, items)) && !HasUnused(items) && LogOk(db)
    requires (forall x :: x in items ==> StockId(x.supply, x.item) in db.stock)
      && i < |NewOrderOf(db, w, d, customer, items).added|
    ensures EntryOk(NewOrderOf(db, w, d, customer, items), NewOrderOf(db, w, d, customer, items).added[i])
  {
    var t, o := NewOrderOf(db, w, d, customer, items), db.dNext[District(w, d)];
    LogIs(w, d, o, items);
    LinesAfterIs(db.lines, w, d, o, items, t.added[i].id);
    if i < |db.added| {
      assert EntryOk(db, db.added[i]);
      assert OrderId3(w, d, o) !in db.orders;
    } else {
      assert items[i - |db.added|] in items;
      assert InfoOk(db, items[i - |db.added|]) && items[i - |db.added|].item != 0;
    }
  }

  lemma NewOrderLog(db: Db, w: int, d: int, customer: int, items: seq<Info>)
    requires Good(db) && Can(db, NewOrder(w, d, customer, items)) && !HasUnused(items) && LogOk(db)
    requires forall x :: x in items ==> StockId(x.supply, x.item) in db.stock
    ensures LogOk(NewOrderOf(db, w, d, customer, items))
  {
    var t, o := NewOrderOf(db, w, d, customer, items), db.dNext[District(w, d)];
    LogIs(w, d, o, items);
    forall i | 0 <= i < |t.added| ensures EntryOk(t, t.added[i]) {
      NewOrderEntries(db, w, d, customer, items, i);
    }
    forall i, j | 0 <= i < j < |t.added| ensures t.added[i].id != t.added[j].id {
      if i < |db.added| {
        assert EntryOk(db, db.added[i]) && OrderId3(w, d, o) !in db.orders;
      }
    }
    forall k | k in t.lines && k.o >= 3001 ensures InLog(t.added, k) {
      LinesAfterIs(db.lines, w, d, o, items, k);
      if k in db.lines {
        assert InLog(db.added, k);
        var i :| 0 <= i < |db.added| && db.added[i].id == k;
        assert t.added[i].id == k;
      } else {
        assert t.added[|db.added| + k.n - 1].id == k;
      }
    }
  }

  lemma StepLog(db: Db, t: Txn, db': Db)
    requires Good(db) && Step(db, t, db') && LogOk(db)
    ensures LogOk(db')
  {
    if t.NewOrder? && !HasUnused(t.items) {
      NewOrderLog(db, t.w, t.d, t.customer, t.items);
    } else {
      assert db'.lines == db.lines && db'.added == db.added && db'.warehouses == db.warehouses;
      forall i | 0 <= i < |db'.added| ensures EntryOk(db', db'.added[i]) { assert EntryOk(db, db.added[i]); }
    }
  }

  lemma {:induction false} RunLog(run: seq<Db>, txns: seq<Txn>, n: nat)
    requires IsRun(run, txns) && n < |run|
    ensures LogOk(run[n])
  {
    if n > 0 {
      var i := n - 1;
      RunLog(run, txns, i);
      RunGood(run, txns, i);
      StepLog(run[i], txns[i], run[i + 1]);
    }
  }

  // ----- the sum over all rows -----

  function RowYtd(stock: map<StockId, Stock>, w: int, items: nat): int {
    if items == 0 then 0
      else RowYtd(stock, w, items - 1) + if StockId(w, items) in stock then stock[StockId(w, items)].ytd else 0
  }

  function TotalYtd(stock: map<StockId, Stock>, warehouses: nat, items: nat): int {
    if warehouses == 0 then 0 else TotalYtd(stock, warehouses - 1, items) + RowYtd(stock, warehouses, items)
  }

  function RowOrdered(added: seq<Added>, w: int, items: nat): int {
    if items == 0 then 0 else RowOrdered(added, w, items - 1) + Ordered(added, StockId(w, items))
  }

  function GridOrdered(added: seq<Added>, warehouses: nat, items: nat): int {
    if warehouses == 0 then 0 else GridOrdered(added, warehouses - 1, items) + RowOrdered(added, warehouses, items)
  }

  lemma {:induction false} RowAdd(added: seq<Added>, e: Added, w: int, items: nat)
    ensures RowOrdered(added + [e], w, items) ==
            RowOrdered(added, w, items) + if e.line.supply == w && 1 <= e.line.item <= items then e.line.quantity else 0
  {
    if items > 0 {
      RowAdd(added, e, w, items - 1);
      assert (added + [e])[..|added|] == added;
    }
  }

  lemma {:induction false} GridAdd(added: seq<Added>, e: Added, warehouses: nat, items: nat)
    ensures GridOrdered(added + [e], warehouses, items) ==
            GridOrdered(added, warehouses, items)
            + if 1 <= e.line.supply <= warehouses && 1 <= e.line.item <= items then e.line.quantity else 0
  {
    if warehouses > 0 {
      GridAdd(added, e, warehouses - 1, items);
      RowAdd(added, e, warehouses, items);
    }
  }

  lemma {:induction false} GridNone(warehouses: nat, items: nat)
    ensures GridOrdered([], warehouses, items) == 0
  {
    if warehouses > 0 {
      GridNone(warehouses - 1, items);
      RowNone(warehouses, items);
    }
  }

  lemma {:induction false} RowNone(w: int, items: nat)
    ensures RowOrdered([], w, items) == 0
  {
    if items > 0 {
      RowNone(w, items - 1);
    }
  }

  lemma {:induction false} GridTotal(added: seq<Added>, warehouses: nat, items: nat)
    requires forall i ::
      0 <= i < |added| ==> 1 <= added[i].line.supply <= warehouses && 1 <= added[i].line.item <= items
    ensures GridOrdered(added, warehouses, items) == TotalQuantity(added)
  {
    if added == [] {
      GridNone(warehouses, items);
    } else {
      var rest, e := added[..|added| - 1], added[|added| - 1];
      GridTotal(rest, warehouses, items);
      GridAdd(rest, e, warehouses, items);
      assert rest + [e] == added;
    }
  }

  lemma {:induction false} RowIs(db: Db, w: int, items: nat)
    requires YtdOk(db) && forall i :: 1 <= i <= items ==> StockId(w, i) in db.stock
    ensures RowYtd(db.stock, w, items) == RowOrdered(db.added, w, items)
  {
    if items > 0 {
      RowIs(db, w, items - 1);
      assert StockId(w, items) in db.stock;
    }
  }

  lemma {:induction false} TotalIs(db: Db, warehouses: nat, items: nat)
    requires YtdOk(db) && forall w, i :: 1 <= w <= warehouses && 1 <= i <= items ==> StockId(w, i) in db.stock
    ensures TotalYtd(db.stock, warehouses, items) == GridOrdered(db.added, warehouses, items)
  {
    if warehouses > 0 {
      TotalIs(db, warehouses - 1, items);
      RowIs(db, warehouses, items);
    }
  }

  /** Over every run without repeated items: the S_YTD of all stock rows add up to the quantities of exactly the order
      lines that new-order transactions have inserted. */
  lemma YtdConserved(run: seq<Db>, txns: seq<Txn>, n: nat)
    requires IsRun(run, txns) && n < |run| && forall i :: 0 <= i < |txns| ==> DistinctTxn(txns[i])
    ensures run[n].warehouses >= 0 && LogOk(run[n])
    ensures TotalYtd(run[n].stock, run[n].warehouses, STOCKS) == TotalQuantity(run[n].added)
  {
    YtdConservedFor(run, txns, n, STOCKS);
  }

  lemma YtdConservedFor(run: seq<Db>, txns: seq<Txn>, n: nat, items: nat)
    requires IsRun(run, txns) && n < |run| && items == STOCKS && forall i :: 0 <= i < |txns| ==> DistinctTxn(txns[i])
    ensures run[n].warehouses >= 0 && LogOk(run[n])
    ensures TotalYtd(run[n].stock, run[n].warehouses, items) == TotalQuantity(run[n].added)
  {
    var db := run[n];
    RunGood(run, txns, n);
    RunYtd(run, txns, n);
    RunLog(run, txns, n);
    forall i | 0 <= i < |db.added|
      ensures 1 <= db.added[i].line.supply <= db.warehouses && 1 <= db.added[i].line.item <= items
    {
      assert EntryOk(db, db.added[i]);
    }
    TotalIs(db, db.warehouses, items);
    GridTotal(db.added, db.warehouses, items);
  }

  // ----- the query generator -----

  /** The draws that the generator makes: item numbers until one is new, the remote-warehouse draw, and quantities. */
  datatype Draws = Draws(items: seq<int>, remote: int, quantities: seq<int>)

  /** Draw item numbers until one differs from all before; None when the draws run out. */
  method DrawItem(draws: seq<int>, at: nat, taken: seq<int>) returns (item: Option<int>, next: nat)
    requires at <= |draws| && forall i :: 0 <= i < |draws| ==> 1 <= draws[i] <= STOCKS
    ensures at <= next <= |draws|
    ensures item.Some? ==> item.value !in taken && 1 <= item.value <= STOCKS
    ensures item.None? ==> forall i :: at <= i < |draws| ==> draws[i] in taken
  {
    next := at;
    while next < |draws|
      invariant at <= next <= |draws| && forall i :: at <= i < next ==> draws[i] in taken
    {
      var candidate, retry := draws[next], false;
      var k := 0;
      while k < |taken| && !retry
        invariant 0 <= k <= |taken| && (retry <==> candidate in taken[..k])
      {
        if taken[k] == candidate {
          retry := true;
        }
        assert taken[..k + 1] == taken[..k] + [taken[k]];
        k := k + 1;
      }
      next := next + 1;
      if !retry {
        assert taken[..k] == taken;
        return Some(candidate), next;
      }
    }
    item := None;
  }

  /** The items of an order: `rbk` of 1 puts the unused number at the end, only the first item may come from
      elsewhere. */
  method MakeItems(home: int, warehouses: int, count: int, rbk: int, useRemote: bool, draws: Draws)
    returns (items: Option<seq<Info>>)
    requires 1 <= home <= warehouses && 5 <= count <= LINES
      && (useRemote ==> 1 <= draws.remote <= warehouses && draws.remote != home)
    requires |draws.quantities| >= count && (forall i :: 0 <= i < |draws.quantities| ==> 1 <= draws.quantities[i] <= 10)
    requires forall i :: 0 <= i < |draws.items| ==> 1 <= draws.items[i] <= STOCKS
    ensures items.Some? ==>
              && |items.value| == count && DistinctRows(items.value)
              && (forall i :: 0 <= i < count ==>
                    0 <= items.value[i].item <= STOCKS && 1 <= items.value[i].supply <= warehouses
                      && 1 <= items.value[i].quantity <= 10)
              && (forall i :: 0 <= i < count ==> (items.value[i].item == 0 <==> i == count - 1 && rbk == 1))
              && (forall i :: 0 < i < count ==> items.value[i].supply == home)
  {
    var taken: seq<int>, out: seq<Info>, at := [], [], 0;
    for i := 0 to count
      invariant |taken| == |out| == i && at <= |draws.items|
      invariant forall k ::
        0 <= k < i ==> 0 <= out[k].item <= STOCKS && 1 <= out[k].supply <= warehouses && 1 <= out[k].quantity <= 10
      invariant forall k ::
        0 <= k < i ==>
          (out[k].item == 0 <==> k == count - 1 && rbk == 1) && out[k].item in {0, taken[k]} && taken[k] >= 1
      invariant forall k :: 0 < k < i ==> out[k].supply == home
      invariant forall j, k :: 0 <= j < k < i ==> out[j].item != out[k].item
    {
      var item, next := DrawItem(draws.items, at, taken);
      if item.None? {
        return None;
      }
      at := next;
      var number := if i == count - 1 && rbk == 1 then 0 else item.value;
      var supply := if i == 0 && useRemote then draws.remote else home;
      assert forall k :: 0 <= k < i ==> taken[k] in taken;
      out := out + [Info(number, supply, draws.quantities[i])];
      taken := taken + [item.value];
    }
    items := Some(out);
  }
}
