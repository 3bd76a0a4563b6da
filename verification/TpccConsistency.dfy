/** The consistency conditions of TPC-C, clauses 3.3.2.1 to 3.3.2.4, in every reachable state, and the check that the
    program makes for them. */
module TpccConsistency {
  import opened Tpcc

  // ----- counting rows -----

  function NewRows(db: Db, w: int, d: int): set<OrderId3> {
    set k | k in db.newOrders && k.w == w && k.d == d
  }

  function LineRows(db: Db, w: int, d: int): set<LineId> {
    set k | k in db.lines && k.w == w && k.d == d
  }

  /** Sum of O_OL_CNT over the orders of a district below `o`. */
  function LineSum(orders: map<OrderId3, Order>, w: int, d: int, o: int): int
    decreases o
  {
    if o <= 1 then 0
    else LineSum(orders, w, d, o - 1) + if OrderId3(w, d, o - 1) in orders then orders[OrderId3(w, d, o - 1)].lines
      else 0
  }

  function Interval(w: int, d: int, lo: int, hi: int): (s: set<OrderId3>)
    ensures |s| == if lo < hi then hi - lo else 0
    ensures forall k {:trigger k in s} :: k in s <==> k.w == w && k.d == d && lo <= k.o < hi
    decreases hi - lo
  {
    if lo >= hi then {} else Interval(w, d, lo, hi - 1) + {OrderId3(w, d, hi - 1)}
  }

  function LinesOf(w: int, d: int, o: int, n: nat): (s: set<LineId>)
    ensures |s| == n && forall k {:trigger k in s} :: k in s <==> k.w == w && k.d == d && k.o == o && 1 <= k.n <= n
  {
    if n == 0 then {} else LinesOf(w, d, o, n - 1) + {LineId(w, d, o, n)}
  }

  function LinesBelow(db: Db, w: int, d: int, o: int): set<LineId> {
    set k | k in db.lines && k.w == w && k.d == d && k.o < o
  }

  lemma LinesStep(db: Db, w: int, d: int, o: int)
    requires Good(db) && OrderId3(w, d, o) in db.orders
    ensures |LinesBelow(db, w, d, o + 1)| == |LinesBelow(db, w, d, o)| + db.orders[OrderId3(w, d, o)].lines
  {
    var below, mine := LinesBelow(db, w, d, o), LinesOf(w, d, o, db.orders[OrderId3(w, d, o)].lines);
    assert LinesBelow(db, w, d, o + 1) == below + mine;
    assert below !! mine;
  }

  lemma NoneBelow(db: Db, w: int, d: int)
    requires Good(db)
    ensures LinesBelow(db, w, d, 1) == {}
  {
    forall k | k in LinesBelow(db, w, d, 1) ensures false { }
  }

  /** The lines of the orders of a district below `o` are as many as their O_OL_CNT add up to. */
  lemma {:induction false} LineCount(db: Db, w: int, d: int, o: int)
    requires Good(db) && IsDistrict(db, District(w, d)) && District(w, d) in db.dNext
      && 1 <= o <= db.dNext[District(w, d)]
    ensures |LinesBelow(db, w, d, o)| == LineSum(db.orders, w, d, o)
    decreases o
  {
    if o == 1 {
      NoneBelow(db, w, d);
    } else {
      assert OrderId3(w, d, o - 1) in db.orders;
      LineCount(db, w, d, o - 1);
      LinesStep(db, w, d, o - 1);
    }
  }

  ghost predicate IsMax(s: set<OrderId3>, o: int) {
    (exists k :: k in s && k.o == o) && forall k :: k in s ==> k.o <= o
  }

  ghost predicate IsMin(s: set<OrderId3>, o: int) {
    (exists k :: k in s && k.o == o) && forall k :: k in s ==> o <= k.o
  }

  function OrderRows(db: Db, w: int, d: int): set<OrderId3> {
    set k | k in db.orders && k.w == w && k.d == d
  }

  /** The rows of one district in a well-formed database. */
  lemma OrderCondition(db: Db, w: int, d: int)
    requires Good(db) && IsDistrict(db, District(w, d))
    ensures District(w, d) in db.dNext && IsMax(OrderRows(db, w, d), db.dNext[District(w, d)] - 1)
    ensures District(w, d) in db.oldest
      && NewRows(db, w, d) == Interval(w, d, db.oldest[District(w, d)], db.dNext[District(w, d)])
  {
    var x := District(w, d);
    assert x in db.dNext && x in db.oldest;
    var last := OrderId3(w, d, db.dNext[x] - 1);
    assert last in db.orders && last in OrderRows(db, w, d);
  }

  lemma LineCondition(db: Db, w: int, d: int)
    requires Good(db) && IsDistrict(db, District(w, d)) && District(w, d) in db.dNext
    ensures |LineRows(db, w, d)| == LineSum(db.orders, w, d, db.dNext[District(w, d)])
  {
    var o := db.dNext[District(w, d)];
    LineCount(db, w, d, o);
    forall k | k in LineRows(db, w, d) ensures k in LinesBelow(db, w, d, o) {
      assert OrderId3(k.w, k.d, k.o) in db.orders;
    }
    assert LineRows(db, w, d) == LinesBelow(db, w, d, o);
  }

  /** In every reachable state and every district:
      W_YTD is the sum of D_YTD; the largest order number is D_NEXT_O_ID - 1; the undelivered orders are exactly the
      numbers from the oldest to D_NEXT_O_ID - 1; and there are as many order lines as O_OL_CNT add up to. */
  lemma Conditions(run: seq<Db>, txns: seq<Txn>, n: nat, w: int, d: int)
    requires IsRun(run, txns) && n < |run| && IsDistrict(run[n], District(w, d))
    ensures w in run[n].wYtd && run[n].wYtd[w] == DistrictSum(run[n].dYtd, w, 10)
    ensures District(w, d) in run[n].dNext && IsMax(OrderRows(run[n], w, d), run[n].dNext[District(w, d)] - 1)
    ensures District(w, d) in run[n].oldest
    ensures NewRows(run[n], w, d) == Interval(w, d, run[n].oldest[District(w, d)], run[n].dNext[District(w, d)])
    ensures |LineRows(run[n], w, d)| == LineSum(run[n].orders, w, d, run[n].dNext[District(w, d)])
  {
    RunGood(run, txns, n);
    OrderCondition(run[n], w, d);
    LineCondition(run[n], w, d);
  }

  /** While a district has undelivered orders, the largest is D_NEXT_O_ID - 1 and their number is max - min + 1. */
  lemma NewOrderConditions(run: seq<Db>, txns: seq<Txn>, n: nat, w: int, d: int, min: int, max: int)
    requires IsRun(run, txns) && n < |run| && IsDistrict(run[n], District(w, d))
    requires IsMin(NewRows(run[n], w, d), min) && IsMax(NewRows(run[n], w, d), max)
    ensures District(w, d) in run[n].dNext && run[n].dNext[District(w, d)] == max + 1
    ensures max - min + 1 == |NewRows(run[n], w, d)|
  {
    var db, x := run[n], District(w, d);
    Conditions(run, txns, n, w, d);
    var lo, hi := db.oldest[x], db.dNext[x];
    var s := NewRows(db, w, d);
    assert OrderId3(w, d, lo) in s && OrderId3(w, d, hi - 1) in s;
  }
}
