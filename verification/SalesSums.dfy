/** Sums over orders and over the sales records that are kept of them. */
module SalesSums {
  import opened Sequences
  import opened Query
  import opened BrandTables

  /** What can be added up over orders: the quantity or revenue of one part, a mark for every order of
      one part, and all quantities. */
  datatype What = Quantities(key: int) | Revenues(key: int) | Marks(key: int) | Everything

  function Worth(o: Order, w: What): real {
    match w
    case Quantities(key) => if o.key == key then o.quantity as real else 0.0
    case Revenues(key) => if o.key == key then o.quantity as real * o.price else 0.0
    case Marks(key) => if o.key == key then 1.0 else 0.0
    case Everything => o.quantity as real
  }

  function WorthAll(l: seq<Order>, w: What): real {
    if l == [] then 0.0 else Worth(l[0], w) + WorthAll(l[1..], w)
  }

  /** The same columns of a table of sales records. */
  function Entry(d: PartData, w: What): real {
    match w
    case Quantities(key) => if d.id == key then d.saleCount as real else 0.0
    case Revenues(key) => if d.id == key then d.totalSales else 0.0
    case Marks(key) => if d.id == key then 1.0 else 0.0
    case Everything => d.saleCount as real
  }

  function TableSum(v: seq<PartData>, w: What): real {
    if v == [] then 0.0 else Entry(v[0], w) + TableSum(v[1..], w)
  }

  /** The orders whose key is in `keys`. */
  function Taken(l: seq<Order>, keys: set<int>): seq<Order> {
    if l == [] then [] else (if l[0].key in keys then [l[0]] else []) + Taken(l[1..], keys)
  }

  // ---- orders ----

  lemma {:induction false} TakenConcat(a: seq<Order>, b: seq<Order>, keys: set<int>)
    ensures Taken(a + b, keys) == Taken(a, keys) + Taken(b, keys)
  {
    if a == [] {
      assert a + b == b;
    } else {
      assert (a + b)[1..] == a[1..] + b;
      TakenConcat(a[1..], b, keys);
      var first := if a[0].key in keys then [a[0]] else [];
      assert Taken(a + b, keys) == first + Taken(a[1..] + b, keys);
      ConcatAssociates(first, Taken(a[1..], keys), Taken(b, keys));
    }
  }

  lemma {:induction false} WorthConcat(a: seq<Order>, b: seq<Order>, w: What)
    ensures WorthAll(a + b, w) == WorthAll(a, w) + WorthAll(b, w)
  {
    if a == [] {
      assert a + b == b;
    } else {
      assert (a + b)[1..] == a[1..] + b;
      WorthConcat(a[1..], b, w);
    }
  }

  lemma TakenMore(l: seq<Order>, o: Order, keys: set<int>)
    ensures Taken(l + [o], keys) == if o.key in keys then Taken(l, keys) + [o] else Taken(l, keys)
  {
    TakenConcat(l, [o], keys);
    assert [o][1..] == [];
    assert Taken(l, keys) + [] == Taken(l, keys);
  }

  lemma {:induction false} WorthNonNegative(l: seq<Order>, key: int)
    ensures 0.0 <= WorthAll(l, Marks(key))
  {
    if l != [] {
      WorthNonNegative(l[1..], key);
    }
  }

  lemma {:induction false} TakenFlatten(rows: seq<seq<Order>>, keys: set<int>, w: What, k: nat)
    requires k <= |rows|
    ensures WorthAll(Taken(Flatten(rows[..k]), keys), w) == RowsWorth(rows, keys, w, k)
  {
    hide Taken, WorthAll, Flatten;
    if k == 0 {
      NothingTaken(rows[..0], keys, w);
    } else {
      TakenFlatten(rows, keys, w, k - 1);
      FlattenSnoc(rows, k);
      TakenConcat(Flatten(rows[..k - 1]), rows[k - 1], keys);
      WorthConcat(Taken(Flatten(rows[..k - 1]), keys), Taken(rows[k - 1], keys), w);
    }
  }

  lemma NothingTaken(rows: seq<seq<Order>>, keys: set<int>, w: What)
    requires rows == []
    ensures WorthAll(Taken(Flatten(rows), keys), w) == 0.0
  {
  }

  function RowsWorth(rows: seq<seq<Order>>, keys: set<int>, w: What, k: nat): real
    requires k <= |rows|
  {
    if k == 0 then 0.0 else RowsWorth(rows, keys, w, k - 1) + WorthAll(Taken(rows[k - 1], keys), w)
  }

  lemma TakenStep(l: seq<Order>, keys: set<int>, w: What)
    requires l != []
    ensures WorthAll(Taken(l, keys), w) == WorthAll(Taken(l[1..], keys), w) + if l[0].key in keys then Worth(l[0], w) else 0.0
  {
    assert Taken(l, keys) == if l[0].key in keys then [l[0]] + Taken(l[1..], keys) else Taken(l[1..], keys);
  }

  lemma {:induction false} TakenUnion(l: seq<Order>, a: set<int>, b: set<int>, w: What)
    requires a !! b
    ensures WorthAll(Taken(l, a + b), w) == WorthAll(Taken(l, a), w) + WorthAll(Taken(l, b), w)
  {
    if l != [] {
      TakenUnion(l[1..], a, b, w);
      TakenStep(l, a + b, w);
      TakenStep(l, a, w);
      TakenStep(l, b, w);
    }
  }

  lemma {:induction false} TakenAll(l: seq<Order>, keys: set<int>)
    requires forall o :: o in l ==> o.key in keys
    ensures Taken(l, keys) == l
  {
    if l != [] {
      TakenAll(l[1..], keys);
    }
  }

  function QuantitySum(l: seq<Order>): int {
    if l == [] then 0 else l[0].quantity + QuantitySum(l[1..])
  }

  lemma {:induction false} EverythingIsQuantity(l: seq<Order>)
    ensures WorthAll(l, Everything) == QuantitySum(l) as real
  {
    if l != [] {
      EverythingIsQuantity(l[1..]);
    }
  }

  lemma {:induction false} TakenNone(l: seq<Order>, w: What)
    ensures WorthAll(Taken(l, {}), w) == 0.0
  {
    if l != [] {
      TakenNone(l[1..], w);
      TakenStep(l, {}, w);
    }
  }

  // ---- tables ----

  lemma {:induction false} MergeInAdds(v: seq<PartData>, d: PartData, w: What)
    requires !w.Marks?
    ensures TableSum(MergeIn(v, d), w) == TableSum(v, w) + Entry(d, w)
  {
    if v != [] && v[0].id != d.id {
      MergeInAdds(v[1..], d, w);
    }
  }

  lemma {:induction false} MergeInLabels(v: seq<PartData>, d: PartData, parts: seq<Part>)
    requires Labelled(parts, d) && forall e :: e in v ==> Labelled(parts, e)
    ensures forall e :: e in MergeIn(v, d) ==> Labelled(parts, e)
  {
    if v != [] {
      assert v[0] in v;
      assert forall e :: e in v[1..] ==> e in v;
      if v[0].id != d.id {
        MergeInLabels(v[1..], d, parts);
      } else {
        assert Labelled(parts, MergeIn(v, d)[0]);
      }
    }
  }

  lemma {:induction false} NoRecord(v: seq<PartData>, key: int)
    requires key !in IdSet(v)
    ensures TableSum(v, Quantities(key)) == 0.0 && TableSum(v, Revenues(key)) == 0.0
  {
    if v != [] {
      assert v[0] in v;
      assert forall e :: e in v[1..] ==> e in v;
      NoRecord(v[1..], key);
    }
  }

  lemma {:induction false} OneRecord(v: seq<PartData>, d: PartData)
    requires DistinctIds(v) && d in v
    ensures TableSum(v, Quantities(d.id)) == d.saleCount as real && TableSum(v, Revenues(d.id)) == d.totalSales
  {
    assert v == [v[0]] + v[1..];
    if v[0] == d {
      NoRecord(v[1..], d.id);
    } else {
      OneRecord(v[1..], d);
    }
  }

  lemma {:induction false} TakenKeepsWorth(l: seq<Order>, keys: set<int>, key: int)
    requires key in keys
    ensures WorthAll(Taken(l, keys), Quantities(key)) == WorthAll(l, Quantities(key))
    ensures WorthAll(Taken(l, keys), Revenues(key)) == WorthAll(l, Revenues(key))
    ensures WorthAll(Taken(l, keys), Marks(key)) == WorthAll(l, Marks(key))
  {
    if l != [] {
      TakenKeepsWorth(l[1..], keys, key);
      assert Taken(l, keys) == if l[0].key in keys then [l[0]] + Taken(l[1..], keys) else Taken(l[1..], keys);
    }
  }

  lemma {:induction false} QuantityIsWorth(l: seq<Order>, key: int)
    ensures OrderSum(l, key, Sales) as real == WorthAll(l, Quantities(key))
  {
    if l != [] {
      QuantityIsWorth(l[1..], key);
    }
  }

  lemma {:induction false} MarksCount(l: seq<Order>, keys: set<int>, key: int)
    ensures 0.0 < WorthAll(Taken(l, keys), Marks(key)) <==> key in keys && exists o :: o in l && o.key == key
    ensures 0.0 <= WorthAll(Taken(l, keys), Marks(key))
  {
    if l != [] {
      MarksCount(l[1..], keys, key);
      assert l == [l[0]] + l[1..];
      assert Taken(l, keys) == if l[0].key in keys then [l[0]] + Taken(l[1..], keys) else Taken(l[1..], keys);
      assert l[0] in l;
    }
  }

  lemma {:induction false} DistinctCount(v: seq<PartData>)
    requires DistinctIds(v)
    ensures |v| == |IdSet(v)|
  {
    if v != [] {
      DistinctCount(v[1..]);
      assert v == [v[0]] + v[1..];
      assert IdSet(v) == {v[0].id} + IdSet(v[1..]);
      forall e | e in v[1..] ensures e.id != v[0].id {
      }
    }
  }

  lemma {:induction false} UnderListConcat(a: seq<PartData>, b: seq<PartData>, shared: (int, int))
    ensures UnderList(a + b, shared) == UnderList(a, shared) + UnderList(b, shared)
  {
    if a == [] {
      assert a + b == b;
    } else {
      assert (a + b)[1..] == a[1..] + b;
      UnderListConcat(a[1..], b, shared);
      ConcatAssociates(UnderList([a[0]], shared), UnderList(a[1..], shared), UnderList(b, shared));
    }
  }

  lemma {:induction false} UnderListIsDistinct(v: seq<PartData>, shared: (int, int))
    requires DistinctIds(v)
    ensures DistinctIds(UnderList(v, shared))
    ensures forall d :: d in UnderList(v, shared) <==> d in v && IsUnder(d, shared)
  {
    if v != [] {
      assert v == [v[0]] + v[1..];
      UnderListIsDistinct(v[1..], shared);
      var rest := UnderList(v[1..], shared);
      forall j | 0 <= j < |rest| ensures rest[j].id != v[0].id {
        assert rest[j] in v[1..];
      }
    }
  }

  // ---- the order of merging ----

  /** `MergeIn` for each record in turn. */
  function MergeAll(v: seq<PartData>, ds: seq<PartData>): seq<PartData> {
    if ds == [] then v else MergeIn(MergeAll(v, ds[..|ds| - 1]), ds[|ds| - 1])
  }

  /** Merging records adds their columns, part by part, and brings in exactly their ids. */
  lemma {:induction false} MergeAllAdds(v: seq<PartData>, ds: seq<PartData>, parts: seq<Part>)
    requires DistinctIds(v) && forall e :: e in v + ds ==> Labelled(parts, e)
    ensures DistinctIds(MergeAll(v, ds)) && IdSet(MergeAll(v, ds)) == IdSet(v) + IdSet(ds)
    ensures forall e :: e in MergeAll(v, ds) ==> Labelled(parts, e)
    ensures forall w: What :: !w.Marks? ==> TableSum(MergeAll(v, ds), w) == TableSum(v, w) + TableSum(ds, w)
  {
    hide MergeIn, Labelled, DistinctIds, TableSum;
    if ds == [] {
      assert v + ds == v;
      forall w: What ensures TableSum(ds, w) == 0.0 {
        NoTableSum(w);
      }
    } else {
      var init, d := ds[..|ds| - 1], ds[|ds| - 1];
      assert ds == init + [d] && v + ds == (v + init) + [d];
      MergeAllAdds(v, init, parts);
      MergeInKeepsIds(MergeAll(v, init), d);
      MergeInLabels(MergeAll(v, init), d, parts);
      assert IdSet(ds) == IdSet(init) + {d.id};
      forall w: What | !w.Marks? ensures TableSum(MergeAll(v, ds), w) == TableSum(v, w) + TableSum(ds, w) {
        MergeInAdds(MergeAll(v, init), d, w);
        TableSumConcat(init, [d], w);
        OneTableSum(d, w);
      }
    }
  }

  lemma NoTableSum(w: What)
    ensures TableSum([], w) == 0.0
  {
  }

  lemma OneTableSum(d: PartData, w: What)
    ensures TableSum([d], w) == Entry(d, w)
  {
    assert [d][1..] == [];
  }

  lemma {:induction false} TableSumConcat(a: seq<PartData>, b: seq<PartData>, w: What)
    ensures TableSum(a + b, w) == TableSum(a, w) + TableSum(b, w)
  {
    if a == [] {
      assert a + b == b;
    } else {
      assert (a + b)[1..] == a[1..] + b;
      TableSumConcat(a[1..], b, w);
    }
  }

  lemma TableSumWithout(es: seq<PartData>, i: nat, w: What)
    requires i < |es|
    ensures TableSum(es, w) == TableSum(Without(es, i), w) + Entry(es[i], w)
  {
    assert es == es[..i] + ([es[i]] + es[i + 1..]);
    TableSumConcat(es[..i], [es[i]] + es[i + 1..], w);
    TableSumConcat(es[..i], es[i + 1..], w);
  }

  lemma {:induction false} TableSumOfPermutation(ds: seq<PartData>, es: seq<PartData>, w: What)
    requires multiset(ds) == multiset(es)
    ensures TableSum(ds, w) == TableSum(es, w)
  {
    if ds == [] {
      assert |multiset(es)| == 0;
    } else {
      assert ds[0] in multiset(es);
      var i :| 0 <= i < |es| && es[i] == ds[0];
      WithoutMultiset(es, i);
      WithoutMultiset(ds, 0);
      TableSumOfPermutation(Without(ds, 0), Without(es, i), w);
      TableSumWithout(es, i, w);
      TableSumWithout(ds, 0, w);
    }
  }

  lemma SameRecords(ds: seq<PartData>, es: seq<PartData>)
    requires multiset(ds) == multiset(es)
    ensures IdSet(ds) == IdSet(es) && forall d :: d in ds <==> d in es
  {
    forall d ensures d in ds <==> d in es {
      assert d in multiset(ds) <==> d in multiset(es);
    }
  }

  /** Two tables of labelled records with the same sums hold the same records. */
  lemma SameSumsSameRecord(v: seq<PartData>, w: seq<PartData>, parts: seq<Part>, d: PartData)
    requires DistinctIds(v) && DistinctIds(w) && IdSet(v) == IdSet(w) && d in v
    requires forall e :: e in v + w ==> Labelled(parts, e)
    requires forall x: What :: !x.Marks? ==> TableSum(v, x) == TableSum(w, x)
    ensures d in w
  {
    hide DistinctIds, TableSum;
    assert d.id in IdSet(w);
    var e :| e in w && e.id == d.id;
    OneRecord(v, d);
    OneRecord(w, e);
    assert Labelled(parts, d) && Labelled(parts, e);
    assert TableSum(v, Quantities(d.id)) == TableSum(w, Quantities(d.id));
    assert TableSum(v, Revenues(d.id)) == TableSum(w, Revenues(d.id));
  }

  /** In whatever order the same labelled records arrive, the table ends up with the same records. */
  lemma MergeOrderIsIrrelevant(v: seq<PartData>, ds: seq<PartData>, es: seq<PartData>, parts: seq<Part>)
    requires DistinctIds(v) && multiset(ds) == multiset(es)
    requires forall e :: e in v + ds ==> Labelled(parts, e)
    ensures DistinctIds(MergeAll(v, ds)) && DistinctIds(MergeAll(v, es))
    ensures forall d :: d in MergeAll(v, ds) <==> d in MergeAll(v, es)
  {
    hide DistinctIds, TableSum, MergeAll, Labelled, IdSet;
    SameRecords(ds, es);
    assert forall e :: e in v + es ==> e in v + ds;
    MergeAllAdds(v, ds, parts);
    MergeAllAdds(v, es, parts);
    var a, b := MergeAll(v, ds), MergeAll(v, es);
    forall x: What | !x.Marks? ensures TableSum(a, x) == TableSum(b, x) {
      TableSumOfPermutation(ds, es, x);
    }
    forall d ensures d in a <==> d in b {
      if d in a {
        SameSumsSameRecord(a, b, parts, d);
      } else if d in b {
        SameSumsSameRecord(b, a, parts, d);
      }
    }
  }

  // ---- the result ----

  /** The sales record of a part over all orders. */
  function SalesRecord(rows: seq<Part>, all: seq<Order>, key: int): PartData {
    var row := PartRow(rows, key);
    PartData(key, row.brand, OrderSum(all, key, Sales), WorthAll(all, Revenues(key)), row.container)
  }

  /** A part is under-sold if its quantity is below 0.3 of the average quantity of `count` parts. */
  predicate UnderSold(all: seq<Order>, count: int, key: int) {
    10 * OrderSum(all, key, Sales) * count < 3 * QuantitySum(all)
  }

  lemma UnderIsUnderSold(all: seq<Order>, count: int, d: PartData)
    requires 0 < count && d.saleCount == OrderSum(all, d.id, Sales)
    ensures IsUnder(d, (QuantitySum(all), count)) <==> UnderSold(all, count, d.id)
  {
    BelowAverageIsSmall(Order(0, d.saleCount, 0.0), PartSale(0, QuantitySum(all), count));
  }

  /** A table whose sums are those of the orders holds the records of the orders. */
  lemma RecordsFromSums(v: seq<PartData>, rows: seq<Part>, all: seq<Order>, d: PartData)
    requires DistinctIds(v) && d in v && Labelled(rows, d)
    requires TableSum(v, Quantities(d.id)) == WorthAll(all, Quantities(d.id))
    requires TableSum(v, Revenues(d.id)) == WorthAll(all, Revenues(d.id))
    ensures d == SalesRecord(rows, all, d.id)
  {
    OneRecord(v, d);
    QuantityIsWorth(all, d.id);
  }
}
