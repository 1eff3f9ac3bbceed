/** `BrandData`: sales records with a hash from part id to position, and the list of under-sale parts
    with the set of their ids. */
module BrandTables {
  import opened Query

  datatype PartData = PartData(id: int, brand: (int, int), saleCount: int, totalSales: real, container: string)

  /** The vector after `mergePartData`. */
  function MergeIn(v: seq<PartData>, d: PartData): seq<PartData> {
    if v == [] then [d]
    else if v[0].id == d.id then
      [v[0].(saleCount := v[0].saleCount + d.saleCount, totalSales := v[0].totalSales + d.totalSales)] + v[1..]
    else [v[0]] + MergeIn(v[1..], d)
  }

  /** `parts[partIdHash[key]]`: the last row with the key. */
  function PartRow(parts: seq<Part>, key: int): Part {
    if parts == [] then Part(key, (0, 0), "")
    else if parts[|parts| - 1].key == key then parts[|parts| - 1]
    else PartRow(parts[..|parts| - 1], key)
  }

  /** What one order adds to the sales record of a part with this brand and container. */
  function LineOf(o: Order, brand: (int, int), container: string): PartData {
    PartData(o.key, brand, o.quantity, o.quantity as real * o.price, container)
  }

  /** The same with brand and container looked up. */
  function Line(parts: seq<Part>, o: Order): PartData {
    LineOf(o, PartRow(parts, o.key).brand, PartRow(parts, o.key).container)
  }

  /** A record carries the brand and container of its part. */
  predicate Labelled(parts: seq<Part>, d: PartData) {
    d.brand == PartRow(parts, d.id).brand && d.container == PartRow(parts, d.id).container
  }

  /** `saleCount < avg * 0.3` with `avg = totalSales / partCount`. */
  predicate IsUnder(d: PartData, shared: (int, int)) {
    shared.1 != 0 && d.saleCount as real < shared.0 as real / shared.1 as real * 0.3
  }

  function UnderList(v: seq<PartData>, shared: (int, int)): seq<PartData> {
    if v == [] then [] else (if IsUnder(v[0], shared) then [v[0]] else []) + UnderList(v[1..], shared)
  }

  function IdSet(v: seq<PartData>): set<int> {
    set e | e in v :: e.id
  }

  predicate HasId(v: seq<PartData>, id: int) {
    exists i :: 0 <= i < |v| && v[i].id == id
  }

  ghost predicate DistinctIds(v: seq<PartData>) {
    forall i, j :: 0 <= i < j < |v| ==> v[i].id != v[j].id
  }

  lemma {:induction false} MergeInKeepsIds(v: seq<PartData>, d: PartData)
    requires DistinctIds(v)
    ensures DistinctIds(MergeIn(v, d)) && IdSet(MergeIn(v, d)) == IdSet(v) + {d.id}
    ensures |MergeIn(v, d)| == if d.id in IdSet(v) then |v| else |v| + 1
  {
    if v != [] {
      var w := MergeIn(v, d);
      assert v == [v[0]] + v[1..];
      assert IdSet(v) == {v[0].id} + IdSet(v[1..]);
      if v[0].id != d.id {
        MergeInKeepsIds(v[1..], d);
        MergedTail(v, d);
      } else {
        assert IdSet(w) == {v[0].id} + IdSet(v[1..]);
      }
    }
  }

  lemma MergedTail(v: seq<PartData>, d: PartData)
    requires v != [] && v[0].id != d.id && DistinctIds(v)
    requires DistinctIds(MergeIn(v[1..], d)) && IdSet(MergeIn(v[1..], d)) == IdSet(v[1..]) + {d.id}
    ensures DistinctIds(MergeIn(v, d)) && IdSet(MergeIn(v, d)) == {v[0].id} + IdSet(v[1..]) + {d.id}
  {
    var t := MergeIn(v[1..], d);
    assert IdSet([v[0]] + t) == {v[0].id} + IdSet(t);
    forall j | 0 <= j < |t| ensures t[j].id != v[0].id {
      assert t[j].id in IdSet(t);
    }
  }

  // ---- the class ----

  /** The hash is a bijection between the ids of the records and the positions of the vector. */
  ghost predicate Indexes(hash: map<int, nat>, v: seq<PartData>) {
    && (forall id :: id in hash ==> hash[id] < |v| && v[hash[id]].id == id)
    && (forall i :: 0 <= i < |v| ==> v[i].id in hash && hash[v[i].id] == i)
  }

  lemma {:induction false} MergeInNew(v: seq<PartData>, d: PartData)
    requires forall i :: 0 <= i < |v| ==> v[i].id != d.id
    ensures MergeIn(v, d) == v + [d]
  {
    if v != [] {
      MergeInNew(v[1..], d);
      assert v == [v[0]] + v[1..];
    }
  }

  lemma {:induction false} MergeInAt(v: seq<PartData>, d: PartData, i: nat)
    requires i < |v| && v[i].id == d.id && forall j :: 0 <= j < i ==> v[j].id != d.id
    ensures MergeIn(v, d) ==
            v[i := v[i].(saleCount := v[i].saleCount + d.saleCount, totalSales := v[i].totalSales + d.totalSales)]
  {
    if i > 0 {
      MergeInAt(v[1..], d, i - 1);
      assert v == [v[0]] + v[1..];
    }
  }

  /** The two cases of `mergePartData`, position by position. */
  lemma MergedRecords(hash: map<int, nat>, v: seq<PartData>, d: PartData)
    requires Indexes(hash, v)
    ensures d.id in hash <==> d.id in IdSet(v)
    ensures d.id !in hash ==> MergeIn(v, d) == v + [d]
    ensures d.id in hash ==> |MergeIn(v, d)| == |v| && forall i :: 0 <= i < |v| ==>
      MergeIn(v, d)[i] == if v[i].id != d.id then v[i]
        else v[i].(saleCount := v[i].saleCount + d.saleCount, totalSales := v[i].totalSales + d.totalSales)
  {
    if d.id in hash {
      assert v[hash[d.id]] in v;
      MergeInAt(v, d, hash[d.id]);
    } else {
      MergeInNew(v, d);
    }
  }

  class BrandData {
    var parts: seq<PartData>
    var partIdHash: map<int, nat>
    var underSaleParts: seq<PartData>
    var underSalePartsHash: set<int>

    ghost predicate Valid()
      reads this
    {
      Indexes(partIdHash, parts) && underSalePartsHash == IdSet(underSaleParts)
    }

    constructor ()
      ensures Valid() && parts == [] && underSaleParts == []
    {
      parts, partIdHash, underSaleParts, underSalePartsHash := [], map[], [], {};
    }

    /** A new part gets an empty record first. */
    method UpdateData(order: Order, brand: (int, int), container: string)
      requires Valid()
      modifies `parts, `partIdHash
      ensures Valid()
      ensures parts == MergeIn(old(parts), LineOf(order, brand, container))
      ensures order.key !in IdSet(old(parts)) ==>
        parts == old(parts) + [PartData(order.key, brand, order.quantity, order.quantity as real * order.price, container)]
      ensures order.key in IdSet(old(parts)) ==> |parts| == |old(parts)| && forall i :: 0 <= i < |parts| ==>
        var e := old(parts)[i];
        parts[i] == if e.id != order.key then e
          else e.(saleCount := e.saleCount + order.quantity, totalSales := e.totalSales + order.quantity as real * order.price)
    {
      hide MergeIn, IdSet;
      ghost var d := LineOf(order, brand, container);
      MergedRecords(partIdHash, parts, d);
      assert d.totalSales == order.quantity as real * order.price;
      if order.key !in partIdHash {
        partIdHash := partIdHash[order.key := |parts|];
        parts := parts + [PartData(order.key, brand, 0, 0.0, container)];
      }
      var i := partIdHash[order.key];
      var target := parts[i];
      parts := parts[i := target.(saleCount := target.saleCount + order.quantity,
                                  totalSales := target.totalSales + order.quantity as real * order.price)];
    }

    method MergePartData(part: PartData)
      requires Valid()
      modifies `parts, `partIdHash
      ensures Valid() && parts == MergeIn(old(parts), part)
      ensures part.id !in IdSet(old(parts)) ==> parts == old(parts) + [part]
      ensures part.id in IdSet(old(parts)) ==> |parts| == |old(parts)| && forall i :: 0 <= i < |parts| ==>
        var e := old(parts)[i];
        parts[i] == if e.id != part.id then e
          else e.(saleCount := e.saleCount + part.saleCount, totalSales := e.totalSales + part.totalSales)
    {
      hide MergeIn, IdSet;
      MergedRecords(partIdHash, parts, part);
      if part.id !in partIdHash {
        partIdHash := partIdHash[part.id := |parts|];
        parts := parts + [part];
      } else {
        var i := partIdHash[part.id];
        parts := parts[i := parts[i].(totalSales := parts[i].totalSales + part.totalSales,
                                      saleCount := parts[i].saleCount + part.saleCount)];
      }
    }

    method InsertUnderSale(part: PartData)
      requires Valid()
      modifies `underSaleParts, `underSalePartsHash
      ensures Valid() && underSaleParts == old(underSaleParts) + [part]
    {
      underSaleParts := underSaleParts + [part];
      underSalePartsHash := underSalePartsHash + {part.id};
    }

    method ExistThisPart(part: PartData) returns (found: bool)
      requires Valid()
      ensures found <==> HasId(underSaleParts, part.id)
    {
      found := part.id in underSalePartsHash;
    }

    /** `TotalData::tryInsertUnderSale`. */
    method TryInsertUnderSale(part: PartData) returns (inserted: bool)
      requires Valid()
      modifies `underSaleParts, `underSalePartsHash
      ensures Valid() && inserted == !HasId(old(underSaleParts), part.id)
      ensures inserted <==> part.id !in IdSet(old(underSaleParts))
      ensures underSaleParts == if inserted then old(underSaleParts) + [part] else old(underSaleParts)
    {
      var found := ExistThisPart(part);
      if found {
        return false;
      }
      InsertUnderSale(part);
      return true;
    }
  }
}
