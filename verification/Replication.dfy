/** Operation replication of TPC-C: new-order and payment ship the fields they changed as bytes, and the replica decodes
    and stores them.  Numbers and floats travel as their bit patterns. */
module Replication {
  import opened ByteOrder

  const DATA_SIZE: nat := 500
  const SPACE: Byte := 32

  type Bytes = seq<Byte>

  datatype StockVal = StockVal(quantity: nat, ytd: nat, orders: nat, remotes: nat)
  datatype CustVal = CustVal(data: Bytes, balance: nat, ytd: nat, payments: nat)

  datatype DistrictId = DistrictId(w: nat, d: nat)
  datatype StockId = StockId(w: nat, i: nat)
  datatype CustomerId = CustomerId(w: nat, d: nat, c: nat)

  /** The shipped fields of a database. */
  datatype Tables = Tables(wYtd: map<nat, nat>, dYtd: map<DistrictId, nat>, dNext: map<DistrictId, nat>,
                           stock: map<StockId, StockVal>, customers: map<CustomerId, CustVal>)

  datatype StockChange = StockChange(id: StockId, val: StockVal)

  /** What a committed transaction did: the new values, and for a customer with bad credit the text put before
      C_DATA. */
  datatype Change =
    | NewOrder(district: DistrictId, next: nat, stocks: seq<StockChange>)
    | Payment(w: nat, wYtd: nat, district: DistrictId, dYtd: nat, customer: CustomerId, badCredit: bool, text: Bytes,
              balance: nat, ytd: nat, payments: nat)

  // ----- fixed-size strings -----

  ghost predicate NoNul(s: Bytes) {
    forall i :: 0 <= i < |s| ==> s[i] != 0
  }

  /** The part of a buffer that a C string covers. */
  function CStr(s: Bytes): Bytes {
    if s == [] || s[0] == 0 then [] else [s[0]] + CStr(s[1..])
  }

  /** Assigning a string pads it with spaces. */
  function Padded(s: Bytes): Bytes {
    if |s| <= DATA_SIZE then s + seq(DATA_SIZE - |s|, _ => SPACE) else s[..DATA_SIZE]
  }

  /** The text goes in front, the old content moves right and what does not fit falls off; the buffer is then assigned
      as a C string. */
  function Shifted(text: Bytes, was: Bytes): Bytes {
    if |text| <= DATA_SIZE && |was| == DATA_SIZE then Padded(CStr(text + was[..DATA_SIZE - |text|])) else was
  }

  lemma {:induction false} CStrIs(s: Bytes)
    ensures CStr(s) <= s && NoNul(CStr(s))
    ensures CStr(s) == s <==> NoNul(s)
  {
    if s != [] && s[0] != 0 {
      CStrIs(s[1..]);
      assert s == [s[0]] + s[1..];
      if NoNul(s) { assert NoNul(s[1..]); }
      if NoNul(s[1..]) { assert forall i :: 1 <= i < |s| ==> s[i] == s[1..][i - 1]; }
    }
  }

  lemma ShiftedIs(text: Bytes, was: Bytes)
    requires |text| <= DATA_SIZE == |was| && NoNul(text) && NoNul(was)
    ensures Shifted(text, was) == text + was[..DATA_SIZE - |text|] && |Shifted(text, was)| == DATA_SIZE
      && NoNul(Shifted(text, was))
  {
    CStrIs(text + was[..DATA_SIZE - |text|]);
  }

  /** Shifting nothing in leaves the content alone exactly if it holds no NUL. */
  lemma ShiftNothing(was: Bytes)
    requires |was| == DATA_SIZE
    ensures Shifted([], was) == was <==> NoNul(was)
  {
    assert [] + was[..DATA_SIZE] == was;
    CStrIs(was);
    var c := CStr(was);
    if c != was {
      CutAtNul(was);
      assert Padded(c)[|c|] == SPACE;
    }
  }

  lemma {:induction false} CutAtNul(s: Bytes)
    requires CStr(s) != s
    ensures |CStr(s)| < |s| && s[|CStr(s)|] == 0
  {
    if s[0] != 0 {
      assert s == [s[0]] + s[1..];
      CutAtNul(s[1..]);
    }
  }

  // ----- the primary -----

  function PutStocks(stock: map<StockId, StockVal>, xs: seq<StockChange>): map<StockId, StockVal>
    decreases |xs|
  {
    if xs == [] then stock else PutStocks(stock[xs[0].id := xs[0].val], xs[1..])
  }

  function PutCustomer(customers: map<CustomerId, CustVal>, id: CustomerId, text: Bytes, balance: nat, ytd: nat,
          payments: nat): map<CustomerId, CustVal> {
    if id in customers then customers[id := CustVal(Shifted(text, customers[id].data), balance, ytd, payments)]
      else customers
  }

  /** The change as the primary makes it: C_DATA is only touched for bad credit. */
  function OnPrimary(s: Tables, x: Change): Tables {
    match x
    case NewOrder(district, next, stocks) => s.(dNext := s.dNext[district := next], stock := PutStocks(s.stock, stocks))
    case Payment(w, wYtd, district, dYtd, customer, badCredit, text, balance, ytd, payments) =>
      s.(wYtd := s.wYtd[w := wYtd], dYtd := s.dYtd[district := dYtd],
         customers := if badCredit then PutCustomer(s.customers, customer, text, balance, ytd, payments)
                      else if customer in s.customers
                      then s.customers[customer := CustVal(s.customers[customer].data, balance, ytd, payments)]
                      else s.customers)
  }

  // ----- the wire -----

  function EncodeStock(x: StockChange, rest: Bytes): Bytes {
    Store(x.id.w, 4)
      + (Store(x.id.i, 4)
      + (Store(x.val.quantity, 2)
      + (Store(x.val.ytd, 4) + (Store(x.val.orders, 4) + (Store(x.val.remotes, 4) + rest)))))
  }

  function EncodeStocks(xs: seq<StockChange>): Bytes {
    if xs == [] then [] else EncodeStock(xs[0], EncodeStocks(xs[1..]))
  }

  function EncodeCustomer(c: CustomerId, text: Bytes, balance: nat, ytd: nat, payments: nat): Bytes {
    Store(c.w, 4) + (Store(c.d, 4)
      + (Store(c.c, 4) + (Store(|text|, 4) + (text + (Store(balance, 4) + (Store(ytd, 4) + Store(payments, 4)))))))
  }

  function Encode(x: Change): Bytes {
    match x
    case NewOrder(district, next, stocks) =>
      [1] + (Store(district.w, 4) + (Store(district.d, 4) + (Store(next, 4) + EncodeStocks(stocks))))
    case Payment(w, wYtd, district, dYtd, customer, badCredit, text, balance, ytd, payments) =>
      [0] + (Store(w, 4) + (Store(wYtd, 4) + (Store(district.w, 4) + (Store(district.d, 4) + (Store(dYtd, 4)
      + EncodeCustomer(customer, if badCredit then text else [], balance, ytd, payments))))))
  }

  predicate Word(v: nat) {
    v < 0x1_0000_0000
  }

  predicate StockFits(x: StockChange) {
    Word(x.id.w) && Word(x.id.i) && x.val.quantity < 0x1_0000 && Word(x.val.ytd) && Word(x.val.orders)
      && Word(x.val.remotes)
  }

  ghost predicate ChangeFits(x: Change) {
    match x
    case NewOrder(district, next, stocks) =>
      Word(district.w) && Word(district.d) && Word(next) && forall i :: 0 <= i < |stocks| ==> StockFits(stocks[i])
    case Payment(w, wYtd, district, dYtd, customer, badCredit, text, balance, ytd, payments) =>
      && Word(w) && Word(wYtd) && Word(district.w) && Word(district.d) && Word(dYtd) && Word(customer.w)
      && Word(customer.d)
      && Word(customer.c) && |text| <= DATA_SIZE && NoNul(text) && Word(balance) && Word(ytd) && Word(payments)
  }

  // ----- the replica -----

  /** Read a number of `n` bytes and move on; a decoder that has run out reads 0. */
  function Num(b: Bytes, n: nat): nat {
    if n <= |b| then Load(b[..n]) else 0
  }

  function Rest(b: Bytes, n: nat): (r: Bytes)
    ensures |r| <= |b| && (0 < n && |b| > 0 ==> |r| < |b|)
  {
    if n <= |b| then b[n..] else []
  }

  lemma ReadBack(v: nat, n: nat, rest: Bytes)
    requires v < Limit(n)
    ensures Num(Store(v, n) + rest, n) == v && Rest(Store(v, n) + rest, n) == rest
  {
    StoreLoad(v, n);
    assert (Store(v, n) + rest)[..n] == Store(v, n);
  }

  lemma ReadWord(v: nat, rest: Bytes)
    requires Word(v)
    ensures Num(Store(v, 4) + rest, 4) == v && Rest(Store(v, 4) + rest, 4) == rest
  {
    assert Limit(2) == 0x1_0000 && Limit(4) == 0x1_0000_0000;
    ReadBack(v, 4, rest);
  }

  function ApplyStocks(stock: map<StockId, StockVal>, b: Bytes): map<StockId, StockVal>
    decreases |b|
  {
    if |b| == 0 then stock
    else
      var w, b1 := Num(b, 4), Rest(b, 4);
      var i, b2 := Num(b1, 4), Rest(b1, 4);
      var quantity, b3 := Num(b2, 2), Rest(b2, 2);
      var ytd, b4 := Num(b3, 4), Rest(b3, 4);
      var orders, b5 := Num(b4, 4), Rest(b4, 4);
      ApplyStocks(stock[StockId(w, i) := StockVal(quantity, ytd, orders, Num(b5, 4))], Rest(b5, 4))
  }

  function ApplyCustomer(customers: map<CustomerId, CustVal>, b: Bytes): map<CustomerId, CustVal> {
    var w, b1 := Num(b, 4), Rest(b, 4);
    var d, b2 := Num(b1, 4), Rest(b1, 4);
    var c, b3 := Num(b2, 4), Rest(b2, 4);
    var written, b4 := Num(b3, 4), Rest(b3, 4);
    var text, b5 := if written <= |b4| then b4[..written] else b4, Rest(b4, written);
    var balance, b6 := Num(b5, 4), Rest(b5, 4);
    PutCustomer(customers, CustomerId(w, d, c), text, balance, Num(b6, 4), Num(Rest(b6, 4), 4))
  }

  /** `apply_operation` on the encoded bytes. */
  function Apply(s: Tables, b: Bytes): Tables {
    if |b| == 0 then s
    else if b[0] != 0 then
      var w, b1 := Num(b[1..], 4), Rest(b[1..], 4);
      var d, b2 := Num(b1, 4), Rest(b1, 4);
      s.(dNext := s.dNext[DistrictId(w, d) := Num(b2, 4)], stock := ApplyStocks(s.stock, Rest(b2, 4)))
    else
      var w, b1 := Num(b[1..], 4), Rest(b[1..], 4);
      var wYtd, b2 := Num(b1, 4), Rest(b1, 4);
      var dw, b3 := Num(b2, 4), Rest(b2, 4);
      var dd, b4 := Num(b3, 4), Rest(b3, 4);
      s.(wYtd := s.wYtd[w := wYtd], dYtd := s.dYtd[DistrictId(dw, dd) := Num(b4, 4)], customers :=
        ApplyCustomer(s.customers, Rest(b4, 4)))
  }

  lemma ReadStock(x: StockChange, rest: Bytes, stock: map<StockId, StockVal>)
    requires StockFits(x)
    ensures ApplyStocks(stock, EncodeStock(x, rest)) == ApplyStocks(stock[x.id := x.val], rest)
  {
    var e5 := Store(x.val.remotes, 4) + rest;
    var e4 := Store(x.val.orders, 4) + e5;
    var e3 := Store(x.val.ytd, 4) + e4;
    var e2 := Store(x.val.quantity, 2) + e3;
    var e1 := Store(x.id.i, 4) + e2;
    ReadWord(x.id.w, e1);
    ReadWord(x.id.i, e2);
    assert Limit(2) == 0x1_0000;
    ReadBack(x.val.quantity, 2, e3);
    ReadWord(x.val.ytd, e4);
    ReadWord(x.val.orders, e5);
    ReadWord(x.val.remotes, rest);
  }

  /** A stock list of any length is decoded to its last byte. */
  lemma {:induction false} ReadStocks(xs: seq<StockChange>, stock: map<StockId, StockVal>)
    requires forall i :: 0 <= i < |xs| ==> StockFits(xs[i])
    ensures ApplyStocks(stock, EncodeStocks(xs)) == PutStocks(stock, xs)
    decreases |xs|
  {
    if xs != [] {
      ReadStock(xs[0], EncodeStocks(xs[1..]), stock);
      ReadStocks(xs[1..], stock[xs[0].id := xs[0].val]);
    }
  }

  lemma ReadCustomer(customers: map<CustomerId, CustVal>, c: CustomerId, text: Bytes, balance: nat, ytd: nat,
          payments: nat)
    requires Word(c.w) && Word(c.d) && Word(c.c) && |text| <= DATA_SIZE && Word(balance) && Word(ytd) && Word(payments)
    ensures ApplyCustomer(customers, EncodeCustomer(c, text, balance, ytd, payments)) == PutCustomer(customers, c, text,
      balance, ytd, payments)
  {
    var e6 := Store(ytd, 4) + Store(payments, 4);
    var e5 := Store(balance, 4) + e6;
    var e4 := text + e5;
    var e3 := Store(|text|, 4) + e4;
    var e2 := Store(c.c, 4) + e3;
    var e1 := Store(c.d, 4) + e2;
    ReadWord(c.w, e1);
    ReadWord(c.d, e2);
    ReadWord(c.c, e3);
    ReadWord(|text|, e4);
    assert e4[..|text|] == text && e4[|text|..] == e5;
    ReadWord(balance, e6);
    ReadWord(ytd, Store(payments, 4));
    ReadWord(payments, []);
    assert Store(payments, 4) + [] == Store(payments, 4);
  }

  /** Every customer's C_DATA is 500 bytes without NUL. */
  ghost predicate Clean(s: Tables) {
    forall c {:trigger s.customers[c]} ::
      c in s.customers ==> |s.customers[c].data| == DATA_SIZE && NoNul(s.customers[c].data)
  }

  lemma PrimaryClean(s: Tables, x: Change)
    requires Clean(s) && ChangeFits(x)
    ensures Clean(OnPrimary(s, x))
  {
    if x.Payment? && x.customer in s.customers {
      ShiftedIs(x.text, s.customers[x.customer].data);
    }
  }

  /** Decoding an encoded operation does to the replica what the transaction did to the primary. */
  lemma ApplyIsPrimary(s: Tables, x: Change)
    requires Clean(s) && ChangeFits(x)
    ensures Apply(s, Encode(x)) == OnPrimary(s, x)
  {
    match x
    case NewOrder(district, next, stocks) => ApplyNewOrder(s, district, next, stocks);
    case Payment(w, wYtd, district, dYtd, customer, badCredit, text, balance, ytd, payments) => ApplyPayment(s, x);
  }

  lemma ApplyNewOrder(s: Tables, district: DistrictId, next: nat, stocks: seq<StockChange>)
    requires ChangeFits(NewOrder(district, next, stocks))
    ensures Apply(s, Encode(NewOrder(district, next, stocks))) == OnPrimary(s, NewOrder(district, next, stocks))
  {
    var e3 := EncodeStocks(stocks);
    var e2 := Store(next, 4) + e3;
    var e1 := Store(district.d, 4) + e2;
    var e0 := Store(district.w, 4) + e1;
    assert ([1] + e0)[1..] == e0;
    ReadWord(district.w, e1);
    ReadWord(district.d, e2);
    ReadWord(next, e3);
    ReadStocks(stocks, s.stock);
  }

  lemma ApplyPayment(s: Tables, x: Change)
    requires x.Payment? && Clean(s) && ChangeFits(x)
    ensures Apply(s, Encode(x)) == OnPrimary(s, x)
  {
    var sent := if x.badCredit then x.text else [];
    var e5 := EncodeCustomer(x.customer, sent, x.balance, x.ytd, x.payments);
    var e4 := Store(x.dYtd, 4) + e5;
    var e3 := Store(x.district.d, 4) + e4;
    var e2 := Store(x.district.w, 4) + e3;
    var e1 := Store(x.wYtd, 4) + e2;
    var e0 := Store(x.w, 4) + e1;
    assert ([0] + e0)[1..] == e0;
    ReadWord(x.w, e1);
    ReadWord(x.wYtd, e2);
    ReadWord(x.district.w, e3);
    ReadWord(x.district.d, e4);
    ReadWord(x.dYtd, e5);
    ReadCustomer(s.customers, x.customer, sent, x.balance, x.ytd, x.payments);
    if !x.badCredit && x.customer in s.customers {
      ShiftNothing(s.customers[x.customer].data);
    }
  }

  // ----- sequences of transactions -----

  function PrimaryAfter(s: Tables, xs: seq<Change>): Tables
    decreases |xs|
  {
    if xs == [] then s else PrimaryAfter(OnPrimary(s, xs[0]), xs[1..])
  }

  function ReplicaAfter(s: Tables, bs: seq<Bytes>): Tables
    decreases |bs|
  {
    if bs == [] then s else ReplicaAfter(Apply(s, bs[0]), bs[1..])
  }

  /** From equal tables, applying the operations of any sequence of transactions leaves the replica equal to the
      primary. */
  lemma {:induction false} ReplicaFollows(s: Tables, xs: seq<Change>, bs: seq<Bytes>)
    requires Clean(s) && |bs| == |xs| && forall i :: 0 <= i < |xs| ==> ChangeFits(xs[i]) && bs[i] == Encode(xs[i])
    ensures ReplicaAfter(s, bs) == PrimaryAfter(s, xs)
    decreases |xs|
  {
    if xs != [] {
      ApplyIsPrimary(s, xs[0]);
      PrimaryClean(s, xs[0]);
      ReplicaFollows(OnPrimary(s, xs[0]), xs[1..], bs[1..]);
    }
  }

  // ----- the replica as an object -----

  class Replica {
    var wYtd: map<nat, nat>
    var dYtd: map<DistrictId, nat>
    var dNext: map<DistrictId, nat>
    var stock: map<StockId, StockVal>
    var customers: map<CustomerId, CustVal>

    ghost function S(): Tables
      reads this
    {
      Tables(wYtd, dYtd, dNext, stock, customers)
    }

    /** Stock entries are read until the operation is used up. */
    method ApplyStockList(b: Bytes)
      modifies this`stock
      ensures stock == ApplyStocks(old(stock), b)
    {
      var dec := b;
      while |dec| > 0
        invariant ApplyStocks(stock, dec) == ApplyStocks(old(stock), b)
        decreases |dec|
      {
        var w, b1 := Num(dec, 4), Rest(dec, 4);
        var i, b2 := Num(b1, 4), Rest(b1, 4);
        var quantity, b3 := Num(b2, 2), Rest(b2, 2);
        var ytd, b4 := Num(b3, 4), Rest(b3, 4);
        var orders, b5 := Num(b4, 4), Rest(b4, 4);
        stock := stock[StockId(w, i) := StockVal(quantity, ytd, orders, Num(b5, 4))];
        dec := Rest(b5, 4);
      }
    }

    method ApplyOperation(b: Bytes)
      modifies this
      ensures S() == Apply(old(S()), b)
    {
      if |b| == 0 {
        return;
      }
      var w, b1 := Num(b[1..], 4), Rest(b[1..], 4);
      if b[0] != 0 {
        var d, b2 := Num(b1, 4), Rest(b1, 4);
        dNext := dNext[DistrictId(w, d) := Num(b2, 4)];
        ApplyStockList(Rest(b2, 4));
      } else {
        var ytd, b2 := Num(b1, 4), Rest(b1, 4);
        wYtd := wYtd[w := ytd];
        var dw, b3 := Num(b2, 4), Rest(b2, 4);
        var dd, b4 := Num(b3, 4), Rest(b3, 4);
        dYtd := dYtd[DistrictId(dw, dd) := Num(b4, 4)];
        customers := ApplyCustomer(customers, Rest(b4, 4));
      }
    }
  }
}
