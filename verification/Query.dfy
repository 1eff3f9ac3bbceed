/** The rows, the part sales, and the query as one machine would answer it. */
module Query {

  datatype Part = Part(key: int, brand: (int, int), container: string)

  datatype Order = Order(key: int, quantity: int, price: real)

  datatype Target = Target(brand: (int, int), container: string)

  datatype PartSale = PartSale(partid: int, totalSale: int, orderCount: int)

  // ---- the reference ----

  function Keys(parts: seq<Part>, t: Target): (keys: set<int>)
    ensures forall key :: key in keys <==>
      exists p :: p in parts && p.key == key && p.container == t.container && p.brand.0 == t.brand.0 && p.brand.1 == t.brand.1
  {
    set p | p in parts && p.container == t.container && p.brand == t.brand :: p.key
  }

  /** The two columns that are added up per part. */
  datatype Column = Sales | Count

  function Quantity(o: Order, key: int, f: Column): int {
    if o.key != key then 0 else if f.Sales? then o.quantity else 1
  }

  function OrderSum(orders: seq<Order>, key: int, f: Column): int {
    if orders == [] then 0
    else OrderSum(orders[1..], key, f) + Quantity(orders[0], key, f)
  }

  /** An order is small if its quantity is below 0.3 of the average quantity of the part's orders. */
  predicate IsSmall(o: Order, all: seq<Order>) {
    10 * o.quantity * OrderSum(all, o.key, Count) < 3 * OrderSum(all, o.key, Sales)
  }

  function Price(o: Order, keys: set<int>, all: seq<Order>): real {
    if o.key in keys && IsSmall(o, all) then o.price else 0.0
  }

  function Revenue(orders: seq<Order>, keys: set<int>, all: seq<Order>): real {
    if orders == [] then 0.0
    else Revenue(orders[1..], keys, all) + Price(orders[0], keys, all)
  }

  /** The Small-Quantity-Order Revenue Query of section 2.4.17 of the TPC-H specification, with 0.3 in
      place of 0.2 and without the final division by 7. */
  function Answer(parts: seq<Part>, orders: seq<Order>, t: Target): real {
    Revenue(orders, Keys(parts, t), orders)
  }

  // ---- what one process computes ----

  predicate Matches(part: Part, t: Target) {
    part.container == t.container && part.brand == t.brand
  }

  function Select(orders: seq<Order>, keys: set<int>): seq<Order> {
    if orders == [] then []
    else
      var last := orders[|orders| - 1];
      Select(orders[..|orders| - 1], keys) + if last.key in keys then [last] else []
  }

  function Amount(e: PartSale, f: Column): int {
    if f.Sales? then e.totalSale else e.orderCount
  }

  function Sum(v: seq<PartSale>, key: int, f: Column): int {
    if v == [] then 0 else Sum(v[1..], key, f) + if v[0].partid == key then Amount(v[0], f) else 0
  }

  function Ids(v: seq<PartSale>): set<int> {
    set e | e in v :: e.partid
  }

  ghost predicate Distinct(v: seq<PartSale>) {
    forall i, j :: 0 <= i < j < |v| ==> v[i].partid != v[j].partid
  }

  function Merge(a: PartSale, b: PartSale): PartSale {
    PartSale(a.partid, a.totalSale + b.totalSale, a.orderCount + b.orderCount)
  }

  /** The vector after `insertPartData`: the record is merged into the one with the same id, or
      appended. */
  function Insert(v: seq<PartSale>, d: PartSale): seq<PartSale> {
    if v == [] then [d]
    else if v[0].partid == d.partid then [Merge(v[0], d)] + v[1..]
    else [v[0]] + Insert(v[1..], d)
  }

  function Position(v: seq<PartSale>, key: int): (i: nat)
    ensures i <= |v|
    ensures i < |v| ==> v[i].partid == key
    ensures i == |v| <==> key !in Ids(v)
  {
    if v == [] then 0
    else if v[0].partid == key then 0
    else
      assert v == [v[0]] + v[1..];
      1 + Position(v[1..], key)
  }

  /** The record `partData[partidHash[key]]`; a key without a record would default to position 0. */
  function Lookup(v: seq<PartSale>, key: int): PartSale {
    var i := Position(v, key);
    if i < |v| then v[i] else if v == [] then PartSale(key, 0, 0) else v[0]
  }

  function GetAvg(e: PartSale): real
    requires e.orderCount != 0
  {
    e.totalSale as real / e.orderCount as real
  }

  /** The test of `getLocalUnderSale`.  Without orders the average is not a number and the comparison
      is false. */
  predicate BelowAverage(o: Order, e: PartSale) {
    e.orderCount != 0 && o.quantity as real < GetAvg(e) * 0.3
  }

  // ---- lemmas ----

  lemma {:induction false} InsertAdds(v: seq<PartSale>, d: PartSale, key: int, f: Column)
    ensures Sum(Insert(v, d), key, f) == Sum(v, key, f) + if d.partid == key then Amount(d, f) else 0
  {
    if v != [] && v[0].partid != d.partid {
      InsertAdds(v[1..], d, key, f);
    }
  }

  lemma IdsOfCons(e: PartSale, v: seq<PartSale>)
    ensures Ids([e] + v) == {e.partid} + Ids(v)
  {
    forall k | k in Ids(v) ensures k in Ids([e] + v) {
      var x :| x in v && x.partid == k;
      assert x in [e] + v;
    }
    assert e in [e] + v;
  }

  lemma DistinctCons(e: PartSale, v: seq<PartSale>)
    requires Distinct(v) && e.partid !in Ids(v)
    ensures Distinct([e] + v) && Ids([e] + v) == {e.partid} + Ids(v)
  {
    IdsOfCons(e, v);
    forall j | 0 <= j < |v| ensures v[j].partid != e.partid {
      assert v[j].partid in Ids(v);
    }
  }

  lemma {:induction false} InsertKeepsDistinct(v: seq<PartSale>, d: PartSale)
    requires Distinct(v)
    ensures Ids(Insert(v, d)) == Ids(v) + {d.partid}
    ensures Distinct(Insert(v, d))
  {
    if v != [] {
      IdsOfCons(v[0], v[1..]);
      assert v == [v[0]] + v[1..];
      if v[0].partid != d.partid {
        InsertKeepsDistinct(v[1..], d);
        hide Insert;
        DistinctCons(v[0], Insert(v[1..], d));
      } else {
        IdsOfCons(Insert(v, d)[0], v[1..]);
      }
    }
  }

  lemma {:induction false} SumWithout(v: seq<PartSale>, key: int, f: Column)
    requires forall e :: e in v ==> e.partid != key
    ensures Sum(v, key, f) == 0
  {
    if v != [] {
      SumWithout(v[1..], key, f);
    }
  }

  lemma {:induction false} LookupIsSum(v: seq<PartSale>, key: int, f: Column)
    requires Distinct(v) && key in Ids(v)
    ensures Lookup(v, key).partid == key
    ensures Amount(Lookup(v, key), f) == Sum(v, key, f)
  {
    assert v == [v[0]] + v[1..];
    if v[0].partid == key {
      SumWithout(v[1..], key, f);
    } else {
      LookupIsSum(v[1..], key, f);
    }
  }

  lemma {:induction false} SumAppend(v: seq<PartSale>, w: seq<PartSale>, key: int, f: Column)
    ensures Sum(v + w, key, f) == Sum(v, key, f) + Sum(w, key, f)
  {
    if v == [] {
      assert v + w == w;
    } else {
      assert (v + w)[1..] == v[1..] + w;
      SumAppend(v[1..], w, key, f);
    }
  }

  lemma {:induction false} OrderSumAppend(a: seq<Order>, b: seq<Order>, key: int, f: Column)
    ensures OrderSum(a + b, key, f) == OrderSum(a, key, f) + OrderSum(b, key, f)
  {
    if a == [] {
      assert a + b == b;
    } else {
      assert (a + b)[1..] == a[1..] + b;
      OrderSumAppend(a[1..], b, key, f);
    }
  }

  lemma {:induction false} RevenueAppend(a: seq<Order>, b: seq<Order>, keys: set<int>, all: seq<Order>)
    ensures Revenue(a + b, keys, all) == Revenue(a, keys, all) + Revenue(b, keys, all)
  {
    if a == [] {
      assert a + b == b;
    } else {
      assert (a + b)[1..] == a[1..] + b;
      RevenueAppend(a[1..], b, keys, all);
    }
  }

  /** Dropping the orders for other parts changes neither the sums of the kept parts nor the revenue. */
  lemma {:induction false} SelectKeepsSums(orders: seq<Order>, keys: set<int>, key: int, f: Column)
    ensures OrderSum(Select(orders, keys), key, f) == if key in keys then OrderSum(orders, key, f) else 0
  {
    if orders != [] {
      var init, last := orders[..|orders| - 1], orders[|orders| - 1];
      assert orders == init + [last];
      SelectKeepsSums(init, keys, key, f);
      OrderSumAppend(init, [last], key, f);
      OrderSumAppend(Select(init, keys), [last], key, f);
      assert Select(init, keys) + [] == Select(init, keys);
    }
  }

  lemma {:induction false} SelectKeepsRevenue(orders: seq<Order>, keys: set<int>, all: seq<Order>)
    ensures Revenue(Select(orders, keys), keys, all) == Revenue(orders, keys, all)
    ensures forall o :: o in Select(orders, keys) ==> o in orders && o.key in keys
  {
    if orders != [] {
      var init, last := orders[..|orders| - 1], orders[|orders| - 1];
      assert orders == init + [last];
      SelectKeepsRevenue(init, keys, all);
      RevenueAppend(init, [last], keys, all);
      RevenueAppend(Select(init, keys), [last], keys, all);
      assert Select(init, keys) + [] == Select(init, keys);
    }
  }

  /** The floating-point test of the program and the integer test of the query agree. */
  lemma BelowAverageIsSmall(o: Order, e: PartSale)
    requires 0 <= e.orderCount && (e.orderCount == 0 ==> e.totalSale == 0)
    ensures BelowAverage(o, e) <==> 10 * o.quantity * e.orderCount < 3 * e.totalSale
  {
    if e.orderCount != 0 {
      var q, c, t := o.quantity as real, e.orderCount as real, e.totalSale as real;
      assert t == GetAvg(e) * c;
      assert (q < GetAvg(e) * 0.3) <==> (q * c < GetAvg(e) * 0.3 * c) by { ScaleLess(q, GetAvg(e) * 0.3, c); }
      assert GetAvg(e) * 0.3 * c == 0.3 * t;
      assert q * c == (o.quantity * e.orderCount) as real;
      assert (q * c < 0.3 * t) <==> (10.0 * (q * c) < 3.0 * t);
      assert 10.0 * (q * c) == (10 * o.quantity * e.orderCount) as real;
    }
  }

  lemma ScaleLess(a: real, b: real, c: real)
    requires c > 0.0
    ensures a < b <==> a * c < b * c
  {
    if a < b {
      assert (b - a) * c > 0.0;
    } else {
      assert (a - b) * c >= 0.0;
    }
  }
}
