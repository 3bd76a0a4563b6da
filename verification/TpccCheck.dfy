/** The program's own consistency check: it tallies the scanned rows of a warehouse per district and compares.  It is
    proved to accept exactly the tallies the conditions ask for, and on reachable databases to accept exactly those in
    which every district of the warehouse has an undelivered order. */
module TpccCheck {
  import opened TpccKeys
  import opened Tpcc
  import opened TpccConsistency

  /** A scanned row of the order, new-order or order-line table of one warehouse; the row that bounds a table from above
      has district INT32_MAX.  `n` is the line number and `cnt` O_OL_CNT, where the table has them. */
  datatype Row = Row(d: int, o: int, n: int, cnt: int)

  predicate Skipped(r: Row) {
    r.d == 0 || r.d == INT32_MAX
  }

  predicate RowOk(r: Row) {
    Skipped(r) || 1 <= r.d <= DISTRICTS
  }

  // ----- what is tallied -----

  function MaxId(rows: seq<Row>, d: int): int {
    if rows == [] then 0
    else var m, r := MaxId(rows[..|rows| - 1], d), rows[|rows| - 1]; if r.d == d && r.o > m then r.o else m
  }

  function MinId(rows: seq<Row>, d: int): int {
    if rows == [] then INT32_MAX
    else var m, r := MinId(rows[..|rows| - 1], d), rows[|rows| - 1]; if r.d == d && r.o < m then r.o else m
  }

  function SumCnt(rows: seq<Row>, d: int): int {
    if rows == [] then 0
      else SumCnt(rows[..|rows| - 1], d) + if rows[|rows| - 1].d == d then rows[|rows| - 1].cnt else 0
  }

  function NumRows(rows: seq<Row>, d: int): int {
    if rows == [] then 0 else NumRows(rows[..|rows| - 1], d) + if rows[|rows| - 1].d == d then 1 else 0
  }

  datatype Tallies = Tallies(max: seq<int>, min: seq<int>, sum: seq<int>, num: seq<int>)

  ghost predicate Tallied(rows: seq<Row>, t: Tallies) {
    && |t.max| == |t.min| == |t.sum| == |t.num| == 10
    && forall i :: 0 <= i < 10 ==>
         t.max[i] == MaxId(rows, i + 1) && t.min[i] == MinId(rows, i + 1) && t.sum[i] == SumCnt(rows, i + 1)
           && t.num[i] == NumRows(rows, i + 1)
  }

  function AddRow(t: Tallies, r: Row): Tallies
    requires |t.max| == |t.min| == |t.sum| == |t.num| == 10 && 1 <= r.d <= DISTRICTS
  {
    var i := r.d - 1;
    Tallies(if r.o > t.max[i] then t.max[i := r.o] else t.max, if r.o < t.min[i] then t.min[i := r.o] else t.min,
            t.sum[i := t.sum[i] + r.cnt], t.num[i := t.num[i] + 1])
  }

  /** One pass over the rows of a table; false stands for a failed check on a district number. */
  method Tally(rows: seq<Row>) returns (ok: bool, t: Tallies)
    ensures ok == forall i :: 0 <= i < |rows| ==> RowOk(rows[i])
    ensures ok ==> Tallied(rows, t)
  {
    t := Tallies(seq(10, _ => 0), seq(10, _ => INT32_MAX), seq(10, _ => 0), seq(10, _ => 0));
    for k := 0 to |rows|
      invariant (forall i :: 0 <= i < k ==> RowOk(rows[i])) && Tallied(rows[..k], t)
    {
      assert rows[..k + 1][..k] == rows[..k] && rows[..k + 1][k] == rows[k];
      if !Skipped(rows[k]) {
        if rows[k].d < 1 || rows[k].d > 10 {
          return false, t;
        }
        t := AddRow(t, rows[k]);
      }
    }
    assert rows[..|rows|] == rows;
    ok := true;
  }

  /** What the check asks of one district. */
  ghost predicate DistrictPasses(next: seq<int>, orders: seq<Row>, newOrders: seq<Row>, lines: seq<Row>, d: int)
    requires 1 <= d <= |next|
  {
    && next[d - 1] == MaxId(orders, d) + 1 && next[d - 1] == MaxId(newOrders, d) + 1
    && MaxId(newOrders, d) - MinId(newOrders, d) + 1 == NumRows(newOrders, d)
    && SumCnt(orders, d) == NumRows(lines, d)
  }

  ghost predicate Passes(next: seq<int>, orders: seq<Row>, newOrders: seq<Row>, lines: seq<Row>)
    requires |next| == 10
  {
    && (forall i :: 0 <= i < |orders| ==> RowOk(orders[i]))
       && (forall i :: 0 <= i < |newOrders| ==> RowOk(newOrders[i]))
    && (forall i :: 0 <= i < |lines| ==> RowOk(lines[i]))
    && (forall d :: 1 <= d <= 10 ==> DistrictPasses(next, orders, newOrders, lines, d))
  }

  method CheckConsistency(next: seq<int>, orders: seq<Row>, newOrders: seq<Row>, lines: seq<Row>) returns (ok: bool)
    requires |next| == 10
    ensures ok == Passes(next, orders, newOrders, lines)
  {
    var okO, o := Tally(orders);
    var okN, n := Tally(newOrders);
    var okL, l := Tally(lines);
    if !okO || !okN || !okL {
      return false;
    }
    for i := 0 to 10
      invariant forall d :: 1 <= d <= i ==> DistrictPasses(next, orders, newOrders, lines, d)
    {
      var pass := next[i] == o.max[i] + 1 && next[i] == n.max[i] + 1 && n.max[i] - n.min[i] + 1 == n.num[i]
        && o.sum[i] == l.num[i];
      assert DistrictPasses(next, orders, newOrders, lines, i + 1) == pass;
      if !pass {
        return false;
      }
    }
    ok := true;
  }

  // ----- scans of a database -----

  /** Every row once; the row that bounds the table aside. */
  ghost predicate Distinct(rows: seq<Row>) {
    forall i, j :: 0 <= i < j < |rows| && !Skipped(rows[i]) && !Skipped(rows[j]) ==>
      rows[i].d != rows[j].d || rows[i].o != rows[j].o || rows[i].n != rows[j].n
  }

  ghost predicate ListsOrders(db: Db, w: int, rows: seq<Row>) {
    && Distinct(rows)
    && (forall i :: 0 <= i < |rows| && !Skipped(rows[i]) ==>
          rows[i].n == 0 && OrderId3(w, rows[i].d, rows[i].o) in db.orders
            && rows[i].cnt == db.orders[OrderId3(w, rows[i].d, rows[i].o)].lines)
    && (forall k :: k in db.orders && k.w == w ==> exists i :: 0 <= i < |rows| && rows[i].d == k.d && rows[i].o == k.o)
  }

  ghost predicate ListsNew(db: Db, w: int, rows: seq<Row>) {
    && Distinct(rows)
    && (forall i :: 0 <= i < |rows| && !Skipped(rows[i]) ==>
       rows[i].n == 0 && OrderId3(w, rows[i].d, rows[i].o) in db.newOrders)
    && (forall k :: k in db.newOrders && k.w == w ==>
       exists i :: 0 <= i < |rows| && rows[i].d == k.d && rows[i].o == k.o)
  }

  ghost predicate ListsLines(db: Db, w: int, rows: seq<Row>) {
    && Distinct(rows)
    && (forall i :: 0 <= i < |rows| && !Skipped(rows[i]) ==> LineId(w, rows[i].d, rows[i].o, rows[i].n) in db.lines)
    && (forall k :: k in db.lines && k.w == w ==>
       exists i :: 0 <= i < |rows| && rows[i].d == k.d && rows[i].o == k.o && rows[i].n == k.n)
  }

  // ----- tallies of a listing -----

  lemma {:induction false} MaxIs(rows: seq<Row>, d: int, m: int)
    requires m >= 0 && (forall i :: 0 <= i < |rows| && rows[i].d == d ==> rows[i].o <= m)
    ensures MaxId(rows, d) <= m
    ensures (exists i :: 0 <= i < |rows| && rows[i].d == d && rows[i].o == m) ==> MaxId(rows, d) == m
  {
    if rows != [] {
      var rest := rows[..|rows| - 1];
      MaxIs(rest, d, m);
      if exists i :: 0 <= i < |rows| && rows[i].d == d && rows[i].o == m {
        var i :| 0 <= i < |rows| && rows[i].d == d && rows[i].o == m;
        if i < |rest| { assert rest[i].d == d && rest[i].o == m; }
      }
    }
  }

  lemma {:induction false} MinIs(rows: seq<Row>, d: int, m: int)
    requires m <= INT32_MAX && (forall i :: 0 <= i < |rows| && rows[i].d == d ==> m <= rows[i].o)
    ensures m <= MinId(rows, d)
    ensures (exists i :: 0 <= i < |rows| && rows[i].d == d && rows[i].o == m) ==> MinId(rows, d) == m
  {
    if rows != [] {
      var rest := rows[..|rows| - 1];
      MinIs(rest, d, m);
      if exists i :: 0 <= i < |rows| && rows[i].d == d && rows[i].o == m {
        var i :| 0 <= i < |rows| && rows[i].d == d && rows[i].o == m;
        if i < |rest| { assert rest[i].d == d && rest[i].o == m; }
      }
    }
  }

  /** The ids of the listed rows of a district. */
  function Ids(rows: seq<Row>, w: int, d: int): set<LineId> {
    if rows == [] then {}
    else
      Ids(rows[..|rows| - 1], w, d)
      + if rows[|rows| - 1].d == d then {LineId(w, d, rows[|rows| - 1].o, rows[|rows| - 1].n)} else {}
  }

  lemma {:induction false} IdsAre(rows: seq<Row>, w: int, d: int, k: LineId)
    ensures k in Ids(rows, w, d) <==>
      k.w == w && k.d == d && exists i :: 0 <= i < |rows| && rows[i].d == d && rows[i].o == k.o && rows[i].n == k.n
  {
    if rows != [] {
      var rest, r := rows[..|rows| - 1], rows[|rows| - 1];
      IdsAre(rest, w, d, k);
      if exists i :: 0 <= i < |rest| && rest[i].d == d && rest[i].o == k.o && rest[i].n == k.n {
        var i :| 0 <= i < |rest| && rest[i].d == d && rest[i].o == k.o && rest[i].n == k.n;
        assert rows[i] == rest[i];
      }
      if exists i :: 0 <= i < |rows| && rows[i].d == d && rows[i].o == k.o && rows[i].n == k.n {
        var i :| 0 <= i < |rows| && rows[i].d == d && rows[i].o == k.o && rows[i].n == k.n;
        if i < |rest| { assert rest[i] == rows[i]; }
      }
    }
  }

  lemma {:induction false} NumIs(rows: seq<Row>, w: int, d: int)
    requires Distinct(rows) && 1 <= d <= DISTRICTS
    ensures NumRows(rows, d) == |Ids(rows, w, d)|
  {
    if rows != [] {
      var rest, r := rows[..|rows| - 1], rows[|rows| - 1];
      NumIs(rest, w, d);
      if r.d == d {
        IdsAre(rest, w, d, LineId(w, d, r.o, r.n));
      }
    }
  }

  // ----- sums of a listing -----

  function SumAt(rows: seq<Row>, d: int, o: int): int {
    if rows == [] then 0
    else
      SumAt(rows[..|rows| - 1], d, o)
      + if rows[|rows| - 1].d == d && rows[|rows| - 1].o == o then rows[|rows| - 1].cnt else 0
  }

  function SumBelow(rows: seq<Row>, d: int, o: int): int {
    if rows == [] then 0
    else
      SumBelow(rows[..|rows| - 1], d, o)
      + if rows[|rows| - 1].d == d && rows[|rows| - 1].o < o then rows[|rows| - 1].cnt else 0
  }

  lemma {:induction false} SumStep(rows: seq<Row>, d: int, o: int)
    ensures SumBelow(rows, d, o + 1) == SumBelow(rows, d, o) + SumAt(rows, d, o)
  {
    if rows != [] {
      SumStep(rows[..|rows| - 1], d, o);
    }
  }

  lemma {:induction false} SumAll(rows: seq<Row>, d: int, o: int)
    ensures (forall i :: 0 <= i < |rows| && rows[i].d == d ==> rows[i].o < o) ==>
      SumBelow(rows, d, o) == SumCnt(rows, d)
    ensures (forall i :: 0 <= i < |rows| && rows[i].d == d ==> rows[i].o >= o) ==> SumBelow(rows, d, o) == 0
  {
    if rows != [] {
      SumAll(rows[..|rows| - 1], d, o);
    }
  }

  lemma {:induction false} SumNone(rows: seq<Row>, d: int, o: int)
    requires forall i :: 0 <= i < |rows| ==> rows[i].d != d || rows[i].o != o
    ensures SumAt(rows, d, o) == 0
  {
    if rows != [] {
      SumNone(rows[..|rows| - 1], d, o);
    }
  }

  /** A row that is listed once contributes its count. */
  lemma {:induction false} SumOne(rows: seq<Row>, d: int, o: int, i: nat)
    requires Distinct(rows) && 1 <= d <= DISTRICTS
      && (forall j :: 0 <= j < |rows| && !Skipped(rows[j]) ==> rows[j].n == 0)
    requires i < |rows| && rows[i].d == d && rows[i].o == o
    ensures SumAt(rows, d, o) == rows[i].cnt
  {
    var rest := rows[..|rows| - 1];
    if i == |rows| - 1 {
      SumNone(rest, d, o);
    } else {
      SumOne(rest, d, o, i);
    }
  }

  lemma {:induction false} SumIs(db: Db, w: int, d: int, rows: seq<Row>, o: int)
    requires Good(db) && IsDistrict(db, District(w, d)) && District(w, d) in db.dNext && ListsOrders(db, w, rows)
    requires 1 <= o <= db.dNext[District(w, d)]
    ensures SumBelow(rows, d, o) == LineSum(db.orders, w, d, o)
    decreases o
  {
    if o == 1 {
      SumAll(rows, d, 1);
    } else {
      SumIs(db, w, d, rows, o - 1);
      SumStep(rows, d, o - 1);
      var k := OrderId3(w, d, o - 1);
      assert k in db.orders && k.w == w;
      var i :| 0 <= i < |rows| && rows[i].d == k.d && rows[i].o == k.o;
      SumOne(rows, d, o - 1, i);
    }
  }

  // ----- which reachable databases the check accepts -----

  lemma OrdersPass(db: Db, w: int, d: int, rows: seq<Row>)
    requires Good(db) && IsDistrict(db, District(w, d)) && ListsOrders(db, w, rows)
    ensures District(w, d) in db.dNext && MaxId(rows, d) == db.dNext[District(w, d)] - 1
    ensures SumCnt(rows, d) == LineSum(db.orders, w, d, db.dNext[District(w, d)])
  {
    var x := District(w, d);
    assert x in db.dNext;
    var k := OrderId3(w, d, db.dNext[x] - 1);
    assert k in db.orders && k.w == w;
    forall i | 0 <= i < |rows| && rows[i].d == d ensures 1 <= rows[i].o < db.dNext[x] {
      assert OrderId3(w, rows[i].d, rows[i].o) in db.orders;
    }
    MaxIs(rows, d, db.dNext[x] - 1);
    SumIs(db, w, d, rows, db.dNext[x]);
    SumAll(rows, d, db.dNext[x]);
  }

  lemma NewPass(db: Db, w: int, d: int, rows: seq<Row>)
    requires Good(db) && IsDistrict(db, District(w, d)) && ListsNew(db, w, rows)
    requires District(w, d) in db.oldest && District(w, d) in db.dNext
      && db.oldest[District(w, d)] < db.dNext[District(w, d)]
    ensures MaxId(rows, d) == db.dNext[District(w, d)] - 1 && MinId(rows, d) == db.oldest[District(w, d)]
    ensures NumRows(rows, d) == db.dNext[District(w, d)] - db.oldest[District(w, d)]
  {
    var x := District(w, d);
    var lo, hi := db.oldest[x], db.dNext[x];
    var a, b := OrderId3(w, d, lo), OrderId3(w, d, hi - 1);
    assert a in db.newOrders && a.w == w && b in db.newOrders && b.w == w;
    forall i | 0 <= i < |rows| && rows[i].d == d ensures lo <= rows[i].o < hi {
      assert OrderId3(w, rows[i].d, rows[i].o) in db.newOrders;
    }
    MaxIs(rows, d, hi - 1);
    MinIs(rows, d, lo);
    NumIs(rows, w, d);
    NewIds(db, w, d, rows);
    SameSize(Interval(w, d, lo, hi), Ids(rows, w, d));
  }

  lemma NewId(db: Db, w: int, d: int, rows: seq<Row>, id: LineId)
    requires Good(db) && IsDistrict(db, District(w, d)) && ListsNew(db, w, rows)
    ensures id in Ids(rows, w, d) <==> id.w == w && id.d == d && id.n == 0 && OrderId3(w, d, id.o) in db.newOrders
  {
    IdsAre(rows, w, d, id);
    if id.w == w && id.d == d && OrderId3(w, d, id.o) in db.newOrders {
      var k := OrderId3(w, d, id.o);
      assert k in db.newOrders && k.w == w;
    }
  }

  lemma NewIds(db: Db, w: int, d: int, rows: seq<Row>)
    requires Good(db) && IsDistrict(db, District(w, d)) && ListsNew(db, w, rows) && District(w, d) in db.oldest
      && District(w, d) in db.dNext
    ensures Ids(rows, w, d) == set k | k in Interval(w, d, db.oldest[District(w, d)], db.dNext[District(w, d)]) ::
      LineId(k.w, k.d, k.o, 0)
  {
    var all := Interval(w, d, db.oldest[District(w, d)], db.dNext[District(w, d)]);
    var s := set k | k in all :: LineId(k.w, k.d, k.o, 0);
    forall id ensures id in Ids(rows, w, d) <==> id in s {
      NewId(db, w, d, rows, id);
      assert OrderId3(w, d, id.o) in all <==> OrderId3(w, d, id.o) in db.newOrders;
    }
  }

  lemma {:induction false} SameSize(a: set<OrderId3>, b: set<LineId>)
    requires b == set k | k in a :: LineId(k.w, k.d, k.o, 0)
    ensures |b| == |a|
    decreases |a|
  {
    if a == {} {
      assert b == {};
    } else {
      var k :| k in a;
      var a', b' := a - {k}, b - {LineId(k.w, k.d, k.o, 0)};
      assert b' == set j | j in a' :: LineId(j.w, j.d, j.o, 0);
      SameSize(a', b');
    }
  }

  lemma LinesPass(db: Db, w: int, d: int, rows: seq<Row>)
    requires Good(db) && IsDistrict(db, District(w, d)) && ListsLines(db, w, rows)
    ensures NumRows(rows, d) == |LineRows(db, w, d)|
  {
    NumIs(rows, w, d);
    forall k ensures k in Ids(rows, w, d) <==> k in LineRows(db, w, d) {
      IdsAre(rows, w, d, k);
    }
    assert Ids(rows, w, d) == LineRows(db, w, d);
  }

  lemma RowsOk(db: Db, w: int, orders: seq<Row>, newOrders: seq<Row>, lines: seq<Row>)
    requires Good(db) && ListsOrders(db, w, orders) && ListsNew(db, w, newOrders) && ListsLines(db, w, lines)
    ensures (forall i :: 0 <= i < |orders| ==> RowOk(orders[i]))
      && (forall i :: 0 <= i < |newOrders| ==> RowOk(newOrders[i]))
    ensures forall i :: 0 <= i < |lines| ==> RowOk(lines[i])
  {
    forall i | 0 <= i < |newOrders| && !Skipped(newOrders[i]) ensures RowOk(newOrders[i]) {
      RowInRange(db, OrderId3(w, newOrders[i].d, newOrders[i].o));
    }
    forall i | 0 <= i < |lines| && !Skipped(lines[i]) ensures RowOk(lines[i]) {
      assert OrderId3(w, lines[i].d, lines[i].o) in db.orders;
    }
  }

  /** The rows scanned for one warehouse. */
  ghost predicate Scanned(db: Db, w: int, next: seq<int>, orders: seq<Row>, newOrders: seq<Row>, lines: seq<Row>) {
    && 1 <= w <= db.warehouses && |next| == 10
    && ListsOrders(db, w, orders) && ListsNew(db, w, newOrders) && ListsLines(db, w, lines)
    && forall d {:trigger District(w, d)} ::
       1 <= d <= 10 ==> District(w, d) in db.dNext && next[d - 1] == db.dNext[District(w, d)]
  }

  lemma {:induction false} MaxNone(rows: seq<Row>, d: int)
    requires forall i :: 0 <= i < |rows| ==> rows[i].d != d
    ensures MaxId(rows, d) == 0
  {
    if rows != [] {
      MaxNone(rows[..|rows| - 1], d);
    }
  }

  /** A district without undelivered orders fails the check: the largest one counts as 0. */
  lemma EmptyFails(db: Db, w: int, d: int, next: seq<int>, orders: seq<Row>, newOrders: seq<Row>, lines: seq<Row>)
    requires Good(db) && 1 <= d <= 10 && Scanned(db, w, next, orders, newOrders, lines) && NewRows(db, w, d) == {}
    ensures !DistrictPasses(next, orders, newOrders, lines, d)
  {
    assert District(w, d) in db.dNext;
    forall i | 0 <= i < |newOrders| ensures newOrders[i].d != d {
      assert OrderId3(w, newOrders[i].d, newOrders[i].o) !in NewRows(db, w, d);
    }
    MaxNone(newOrders, d);
  }

  lemma DistrictIn(db: Db, w: int, d: int, next: seq<int>, orders: seq<Row>, newOrders: seq<Row>, lines: seq<Row>)
    requires Good(db) && 1 <= d <= 10 && Scanned(db, w, next, orders, newOrders, lines) && NewRows(db, w, d) != {}
    ensures DistrictPasses(next, orders, newOrders, lines, d)
  {
    var k :| k in NewRows(db, w, d);
    assert District(w, d) in db.dNext && k in db.newOrders && District(w, d) in db.oldest;
    OrdersPass(db, w, d, orders);
    NewPass(db, w, d, newOrders);
    LinesPass(db, w, d, lines);
    LineCondition(db, w, d);
  }

  lemma WarehousePasses(db: Db, w: int, next: seq<int>, orders: seq<Row>, newOrders: seq<Row>, lines: seq<Row>)
    requires Good(db) && Scanned(db, w, next, orders, newOrders, lines)
    ensures Passes(next, orders, newOrders, lines) <==>
      forall d {:trigger NewRows(db, w, d)} :: 1 <= d <= 10 ==> NewRows(db, w, d) != {}
  {
    RowsOk(db, w, orders, newOrders, lines);
    forall d | 1 <= d <= 10 ensures DistrictPasses(next, orders, newOrders, lines, d) <==> NewRows(db, w, d) != {} {
      if NewRows(db, w, d) == {} {
        EmptyFails(db, w, d, next, orders, newOrders, lines);
      } else {
        DistrictIn(db, w, d, next, orders, newOrders, lines);
      }
    }
  }

  /** The check on one warehouse of a reachable state accepts if and only if every district has an undelivered order. */
  lemma ReachablePasses(run: seq<Db>, txns: seq<Txn>, n: nat, w: int, next: seq<int>, orders: seq<Row>,
          newOrders: seq<Row>, lines: seq<Row>)
    requires IsRun(run, txns) && n < |run| && Scanned(run[n], w, next, orders, newOrders, lines)
    ensures Passes(next, orders, newOrders, lines) <==>
      forall d {:trigger NewRows(run[n], w, d)} :: 1 <= d <= 10 ==> NewRows(run[n], w, d) != {}
  {
    RunGood(run, txns, n);
    WarehousePasses(run[n], w, next, orders, newOrders, lines);
  }

  /** Deliveries alone empty a district, from any state. */
  lemma {:induction false} DeliveriesEmpty(db: Db, w: int, d: int) returns (run: seq<Db>, txns: seq<Txn>)
    requires Good(db) && IsDistrict(db, District(w, d)) && District(w, d) in db.oldest && District(w, d) in db.dNext
    ensures |run| == |txns| + 1 && run[0] == db && NewRows(run[|txns|], w, d) == {}
    ensures forall i :: 0 <= i < |txns| ==> txns[i] == Txn.Delivery(w, d, 1) && Step(run[i], txns[i], run[i + 1])
    decreases db.dNext[District(w, d)] - db.oldest[District(w, d)]
  {
    var x := District(w, d);
    if db.oldest[x] < db.dNext[x] {
      var k := OrderId3(w, d, db.oldest[x]);
      ScanFindsOldest(db, w, d, k);
      DeliveryGood(db, w, d, k, 1);
      var db' := DeliveryOf(db, w, d, k, 1);
      var rest, more := DeliveriesEmpty(db', w, d);
      run, txns := [db] + rest, [Txn.Delivery(w, d, 1)] + more;
      assert Step(db, Txn.Delivery(w, d, 1), db');
      forall i | 0 <= i < |txns| ensures txns[i] == Txn.Delivery(w, d, 1) && Step(run[i], txns[i], run[i + 1]) {
        if i > 0 { assert Step(rest[i - 1], more[i - 1], rest[i - 1 + 1]); }
      }
    } else {
      run, txns := [db], [];
    }
  }
}
