/** The packed integer keys of the TPC-C tables, computed as the program computes them: a 32-bit signed part, widened to
    64 bits where the multiplier is. */
module TpccKeys {
  import opened Arith

  const INT32_MAX: int := 2147483647
  const DISTRICTS: int := 10
  const CUSTOMERS: int := 3000
  const STOCKS: int := 100000
  const LINES: int := 15
  const MAX_ORDER_ID: int := 2147483647

  predicate Int32(x: int) {
    -2147483648 <= x <= 2147483647
  }

  predicate UInt64(x: int) {
    0 <= x < 0x1_0000_0000_0000_0000
  }

  /** Two's complement: what a signed 32-bit result wraps to. */
  function Wrap32(x: int): int {
    if Int32(x) then x else (x + 2147483648) % 0x1_0000_0000 - 2147483648
  }

  function Wrap64(x: int): int {
    if UInt64(x) then x else x % 0x1_0000_0000_0000_0000
  }

  // ----- the keys as the machine computes them -----

  function DistrictKey(w: int, d: int): int {
    Wrap64(Wrap32(Wrap32(w * (DISTRICTS + 1)) + d))
  }

  function CustomerKey(w: int, d: int, c: int): int {
    Wrap64(Wrap32(Wrap32(Wrap32(Wrap32(w * (DISTRICTS + 1)) + d) * (CUSTOMERS + 1)) + c))
  }

  function StockKey(w: int, i: int): int {
    Wrap64(Wrap32(Wrap32(w * (STOCKS + 1)) + i))
  }

  /** The key of an order, and of a new order. */
  function OrderKey(w: int, d: int, o: int): int {
    Wrap64(Wrap64(Wrap64(Wrap32(Wrap32(w * (DISTRICTS + 1)) + d)) * MAX_ORDER_ID) + Wrap64(o))
  }

  function OrderCustKey(w: int, d: int, c: int, o: int): int {
    Wrap64(Wrap64(Wrap64(Wrap32(Wrap32(Wrap32(Wrap32(w * (DISTRICTS + 1)) + d) * (CUSTOMERS + 1)) + c)) * MAX_ORDER_ID)
      + Wrap64(o))
  }

  function LineKey(w: int, d: int, o: int, n: int): int {
    Wrap64(Wrap64(OrderKey(w, d, o) * (LINES + 1)) + Wrap64(n))
  }

  // ----- ids in range -----

  /** Warehouses few enough for the customer key's 32-bit part; the stock key admits fewer. */
  const MAX_WAREHOUSE: int := 65052
  const MAX_STOCK_WAREHOUSE: int := 21473

  predicate InDistrict(w: int, d: int) {
    0 <= w <= MAX_WAREHOUSE && 0 <= d <= DISTRICTS
  }

  predicate OrderId(o: int) {
    0 <= o <= MAX_ORDER_ID
  }

  lemma DistrictPart(w: int, d: int)
    requires InDistrict(w, d)
    ensures Wrap32(Wrap32(w * (DISTRICTS + 1)) + d) == w * 11 + d && DistrictKey(w, d) == w * 11 + d
  {
  }

  /** No 32-bit overflow up to the limit, and there is one above it. */
  lemma CustomerKeyFits(w: int, d: int, c: int)
    requires w >= 0 && 0 <= d <= DISTRICTS && 0 <= c <= CUSTOMERS
    ensures w <= MAX_WAREHOUSE ==> Int32((w * 11 + d) * 3001 + c) && CustomerKey(w, d, c) == (w * 11 + d) * 3001 + c
    ensures w > MAX_WAREHOUSE ==> !Int32((w * 11 + DISTRICTS) * 3001 + CUSTOMERS)
  {
    if w <= MAX_WAREHOUSE {
      DistrictPart(w, d);
      assert Int32((w * 11 + d) * 3001) && Int32((w * 11 + d) * 3001 + c);
    }
  }

  lemma StockKeyFits(w: int, i: int)
    requires w >= 0 && 0 <= i <= STOCKS
    ensures w <= MAX_STOCK_WAREHOUSE ==> Int32(w * 100001 + i) && StockKey(w, i) == w * 100001 + i
    ensures w > MAX_STOCK_WAREHOUSE ==> !Int32(w * 100001 + STOCKS)
  {
    if w <= MAX_STOCK_WAREHOUSE {
      assert Int32(w * 100001) && Int32(w * 100001 + i);
    }
  }

  lemma OrderKeyFits(w: int, d: int, o: int)
    requires InDistrict(w, d) && OrderId(o)
    ensures OrderKey(w, d, o) == (w * 11 + d) * 2147483647 + o && 0 <= OrderKey(w, d, o) < 0x6_0000_0000_0000
  {
    var x := w * 11 + d;
    DistrictPart(w, d);
    assert UInt64(x) && UInt64(x * 2147483647) && UInt64(o) && UInt64(x * 2147483647 + o);
  }

  lemma OrderCustKeyFits(w: int, d: int, c: int, o: int)
    requires InDistrict(w, d) && 0 <= c <= CUSTOMERS && OrderId(o)
    ensures OrderCustKey(w, d, c, o) == ((w * 11 + d) * 3001 + c) * 2147483647 + o && UInt64(OrderCustKey(w, d, c, o))
  {
    var x := (w * 11 + d) * 3001 + c;
    DistrictPart(w, d);
    CustomerKeyFits(w, d, c);
    assert Int32((w * 11 + d) * 3001) && UInt64(x) && UInt64(x * 2147483647) && UInt64(o) && UInt64(x * 2147483647 + o);
  }

  lemma LineKeyFits(w: int, d: int, o: int, n: int)
    requires InDistrict(w, d) && OrderId(o) && 0 <= n <= LINES
    ensures LineKey(w, d, o, n) == ((w * 11 + d) * 2147483647 + o) * 16 + n && UInt64(LineKey(w, d, o, n))
  {
    OrderKeyFits(w, d, o);
    assert UInt64(OrderKey(w, d, o) * 16) && UInt64(OrderKey(w, d, o) * 16 + n);
  }

  // ----- order -----

  /** A pair of numbers packed with a multiplier above the second one follows the lexicographic order. */
  lemma PackOrder(a: int, b: int, x: int, y: int, m: nat)
    requires 0 <= b < m && 0 <= y < m
    ensures a * m + b < x * m + y <==> a < x || (a == x && b < y)
    ensures a * m + b == x * m + y <==> a == x && b == y
  {
    var e := (x - a) * m;
    assert x * m == a * m + e;
    MulSign(x - a, m);
  }

  predicate Less2(a: int, b: int, x: int, y: int) {
    a < x || (a == x && b < y)
  }

  predicate Less3(a: int, b: int, c: int, x: int, y: int, z: int) {
    a < x || (a == x && Less2(b, c, y, z))
  }

  predicate Less4(a: int, b: int, c: int, e: int, x: int, y: int, z: int, u: int) {
    a < x || (a == x && Less3(b, c, e, y, z, u))
  }

  lemma CustomerKeyOrder(w: int, d: int, c: int, w': int, d': int, c': int)
    requires InDistrict(w, d) && InDistrict(w', d') && 0 <= c <= CUSTOMERS && 0 <= c' <= CUSTOMERS
    ensures CustomerKey(w, d, c) < CustomerKey(w', d', c') <==> Less3(w, d, c, w', d', c')
    ensures CustomerKey(w, d, c) == CustomerKey(w', d', c') <==> w == w' && d == d' && c == c'
  {
    CustomerKeyFits(w, d, c);
    CustomerKeyFits(w', d', c');
    PackOrder(w * 11 + d, c, w' * 11 + d', c', 3001);
    PackOrder(w, d, w', d', 11);
  }

  lemma StockKeyOrder(w: int, i: int, w': int, i': int)
    requires 0 <= w <= MAX_STOCK_WAREHOUSE && 0 <= w' <= MAX_STOCK_WAREHOUSE && 0 <= i <= STOCKS && 0 <= i' <= STOCKS
    ensures StockKey(w, i) < StockKey(w', i') <==> Less2(w, i, w', i')
    ensures StockKey(w, i) == StockKey(w', i') <==> w == w' && i == i'
  {
    StockKeyFits(w, i);
    StockKeyFits(w', i');
    PackOrder(w, i, w', i', 100001);
  }

  /** Order keys follow (warehouse, district, order), for order ids below the multiplier. */
  lemma OrderKeyOrder(w: int, d: int, o: int, w': int, d': int, o': int)
    requires InDistrict(w, d) && InDistrict(w', d') && 0 <= o < MAX_ORDER_ID && 0 <= o' < MAX_ORDER_ID
    ensures OrderKey(w, d, o) < OrderKey(w', d', o') <==> Less3(w, d, o, w', d', o')
    ensures OrderKey(w, d, o) == OrderKey(w', d', o') <==> w == w' && d == d' && o == o'
  {
    OrderKeyFits(w, d, o);
    OrderKeyFits(w', d', o');
    PackOrder(w * 11 + d, o, w' * 11 + d', o', 2147483647);
    PackOrder(w, d, w', d', 11);
  }

  lemma LineKeyOrder(w: int, d: int, o: int, n: int, w': int, d': int, o': int, n': int)
    requires InDistrict(w, d) && InDistrict(w', d') && 0 <= o < MAX_ORDER_ID && 0 <= o' < MAX_ORDER_ID
    requires 0 <= n <= LINES && 0 <= n' <= LINES
    ensures LineKey(w, d, o, n) < LineKey(w', d', o', n') <==> Less4(w, d, o, n, w', d', o', n')
    ensures LineKey(w, d, o, n) == LineKey(w', d', o', n') <==> w == w' && d == d' && o == o' && n == n'
  {
    LineKeyFits(w, d, o, n);
    LineKeyFits(w', d', o', n');
    OrderKeyFits(w, d, o);
    OrderKeyFits(w', d', o');
    PackOrder(OrderKey(w, d, o), n, OrderKey(w', d', o'), n', 16);
    OrderKeyOrder(w, d, o, w', d', o');
  }

  lemma OrderCustKeyOrder(w: int, d: int, c: int, o: int, w': int, d': int, c': int, o': int)
    requires InDistrict(w, d) && InDistrict(w', d') && 0 <= c <= CUSTOMERS && 0 <= c' <= CUSTOMERS
    requires 0 <= o < MAX_ORDER_ID && 0 <= o' < MAX_ORDER_ID
    ensures OrderCustKey(w, d, c, o) < OrderCustKey(w', d', c', o') <==> Less4(w, d, c, o, w', d', c', o')
    ensures OrderCustKey(w, d, c, o) == OrderCustKey(w', d', c', o') <==> w == w' && d == d' && c == c' && o == o'
  {
    OrderCustKeyFits(w, d, c, o);
    OrderCustKeyFits(w', d', c', o');
    PackOrder((w * 11 + d) * 3001 + c, o, (w' * 11 + d') * 3001 + c', o', 2147483647);
    PackOrder(w * 11 + d, c, w' * 11 + d', c', 3001);
    PackOrder(w, d, w', d', 11);
  }

  // ----- scan bounds -----

  /** The multiplier is the largest order id, so the upper bound of a district's scan is the first key of the next. */
  lemma BoundsMeet(w: int, d: int)
    requires InDistrict(w, d) && d < DISTRICTS
    ensures OrderKey(w, d, MAX_ORDER_ID) == OrderKey(w, d + 1, 0)
  {
    OrderKeyFits(w, d, MAX_ORDER_ID);
    OrderKeyFits(w, d + 1, 0);
  }

  /** Still, the scan from order 0 to the largest id selects exactly the rows of the district, since order ids start at
      1. */
  lemma DistrictScan(w: int, d: int, w': int, d': int, o': int)
    requires InDistrict(w, d) && InDistrict(w', d') && 1 <= o' < MAX_ORDER_ID
    ensures OrderKey(w, d, 0) <= OrderKey(w', d', o') <= OrderKey(w, d, MAX_ORDER_ID) <==> w == w' && d == d'
  {
    OrderKeyFits(w, d, 0);
    OrderKeyFits(w, d, MAX_ORDER_ID);
    OrderKeyFits(w', d', o');
    PackOrder(w * 11 + d, 0, w' * 11 + d', o', 2147483647);
    PackOrder(w' * 11 + d', o', w * 11 + d + 1, 0, 2147483647);
    PackOrder(w, d, w', d', 11);
  }

  lemma CustomerOrdersScan(w: int, d: int, c: int, w': int, d': int, c': int, o': int)
    requires InDistrict(w, d) && InDistrict(w', d') && 0 <= c <= CUSTOMERS && 0 <= c' <= CUSTOMERS
      && 1 <= o' < MAX_ORDER_ID
    ensures OrderCustKey(w, d, c, 0) <= OrderCustKey(w', d', c', o') <= OrderCustKey(w, d, c, MAX_ORDER_ID) <==>
      w == w' && d == d' && c == c'
  {
    var x, x' := (w * 11 + d) * 3001 + c, (w' * 11 + d') * 3001 + c';
    OrderCustKeyFits(w, d, c, 0);
    OrderCustKeyFits(w, d, c, MAX_ORDER_ID);
    OrderCustKeyFits(w', d', c', o');
    PackOrder(x, 0, x', o', 2147483647);
    PackOrder(x', o', x + 1, 0, 2147483647);
    PackOrder(w * 11 + d, c, w' * 11 + d', c', 3001);
    PackOrder(w, d, w', d', 11);
  }

  /** The scan from line 1 to 15 selects exactly the lines of the order. */
  lemma OrderLinesScan(w: int, d: int, o: int, w': int, d': int, o': int, n': int)
    requires InDistrict(w, d) && InDistrict(w', d') && 0 <= o < MAX_ORDER_ID && 0 <= o' < MAX_ORDER_ID
      && 1 <= n' <= LINES
    ensures LineKey(w, d, o, 1) <= LineKey(w', d', o', n') <= LineKey(w, d, o, LINES) <==> w == w' && d == d' && o == o'
  {
    LineKeyOrder(w', d', o', n', w, d, o, 1);
    LineKeyOrder(w, d, o, LINES, w', d', o', n');
  }

  /** The row that bounds the order or new-order table from above packs, with wrap-around, to a key above every real
      one. */
  lemma SentinelIsLast(w: int, d: int, o: int)
    requires InDistrict(w, d) && OrderId(o)
    ensures OrderKey(w, d, o) < OrderKey(INT32_MAX, INT32_MAX, INT32_MAX)
  {
    OrderKeyFits(w, d, o);
    SentinelKey();
  }

  lemma SentinelKey()
    ensures OrderKey(INT32_MAX, INT32_MAX, INT32_MAX) == 18446744050087231499
  {
    assert Wrap32(INT32_MAX * 11) == 2147483637 && Wrap32(2147483637 + INT32_MAX) == -12;
    assert Wrap64(-12) == 18446744073709551604 && Wrap64(18446744073709551604 * 2147483647) == 18446744047939747852;
  }

  /** So does the one that bounds the order-line table. */
  lemma LineSentinelIsLast(w: int, d: int, o: int, n: int)
    requires InDistrict(w, d) && OrderId(o) && 0 <= n <= LINES
    ensures LineKey(w, d, o, n) < LineKey(INT32_MAX, INT32_MAX, INT32_MAX, 127)
  {
    OrderKeyFits(w, d, o);
    LineKeyFits(w, d, o, n);
    SentinelKey();
    assert Wrap64(18446744050087231499 * 16) == 18446743695752429744;
  }

  /** The row that bounds the table of orders by customer lies above a real key if and only if the key's 32-bit part
      does not exceed what the bounding row wraps to; that is so for all customers up to warehouse 65051, and not
      beyond. */
  lemma CustomerSentinel(w: int, d: int, c: int, o: int)
    requires InDistrict(w, d) && 0 <= c <= CUSTOMERS && 0 <= o < MAX_ORDER_ID
    ensures OrderCustKey(w, d, c, o) < OrderCustKey(INT32_MAX, INT32_MAX, INT32_MAX, INT32_MAX) <==>
      (w * 11 + d) * 3001 + c <= 2147447635
    ensures w <= 65051 ==> (w * 11 + d) * 3001 + c <= 2147447635
    ensures w > 65051 ==> (w * 11 + DISTRICTS) * 3001 + CUSTOMERS > 2147447635
  {
    OrderCustKeyFits(w, d, c, o);
    assert Wrap32(INT32_MAX * 11) == 2147483637 && Wrap32(2147483637 + INT32_MAX) == -12;
    assert Wrap32(-36012 + INT32_MAX) == 2147447635;
    assert OrderCustKey(INT32_MAX, INT32_MAX, INT32_MAX, INT32_MAX) == 2147447635 * 2147483647 + 2147483647;
    PackOrder((w * 11 + d) * 3001 + c, o, 2147447636, 0, 2147483647);
  }
}
