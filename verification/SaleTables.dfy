/** `FinalCompetitionData`: two tables of part sales, each a vector with a hash from part id to
    position, and the running total of under-sales. */
module SaleTables {
  import opened Sequences
  import opened Query

  /** The hash is a bijection between the ids of the records and the positions of the vector. */
  ghost predicate Indexes(hash: map<int, nat>, v: seq<PartSale>) {
    && (forall id :: id in hash ==> hash[id] < |v| && v[hash[id]].partid == id)
    && (forall i :: 0 <= i < |v| ==> v[i].partid in hash && hash[v[i].partid] == i)
  }

  /** `Insert` for each record in turn. */
  function InsertAll(v: seq<PartSale>, ds: seq<PartSale>): seq<PartSale> {
    if ds == [] then v else Insert(InsertAll(v, ds[..|ds| - 1]), ds[|ds| - 1])
  }

  lemma {:induction false} InsertNew(v: seq<PartSale>, d: PartSale)
    requires d.partid !in Ids(v)
    ensures Insert(v, d) == v + [d]
  {
    if v != [] {
      assert v == [v[0]] + v[1..];
      assert v[0] in v;
      assert forall e :: e in v[1..] ==> e in v;
      InsertNew(v[1..], d);
    }
  }

  lemma {:induction false} InsertAt(v: seq<PartSale>, d: PartSale, i: nat)
    requires Distinct(v) && i < |v| && v[i].partid == d.partid
    ensures Insert(v, d) == v[i := Merge(v[i], d)]
  {
    if i == 0 {
      assert v[0 := Merge(v[0], d)] == [Merge(v[0], d)] + v[1..];
    } else {
      InsertAt(v[1..], d, i - 1);
      assert v[i := Merge(v[i], d)] == [v[0]] + v[1..][i - 1 := Merge(v[i], d)];
    }
  }

  lemma IndexedIsDistinct(hash: map<int, nat>, v: seq<PartSale>)
    requires Indexes(hash, v)
    ensures Distinct(v)
  {
    forall i, j | 0 <= i < j < |v| ensures v[i].partid != v[j].partid {
      assert hash[v[i].partid] == i && hash[v[j].partid] == j;
    }
  }

  /** Looking the position up in the hash finds the record that a search would find. */
  lemma IndexFinds(hash: map<int, nat>, v: seq<PartSale>, key: int)
    requires Indexes(hash, v) && key in hash
    ensures v[hash[key]] == Lookup(v, key) && Distinct(v)
  {
    assert v[hash[key]] in v;
    assert key in Ids(v);
    var i := Position(v, key);
    assert hash[v[i].partid] == i;
    IndexedIsDistinct(hash, v);
  }

  class FinalCompetitionData {
    var partidHash: map<int, nat>
    var partData: seq<PartSale>
    var receiveidHash: map<int, nat>
    var receivePartData: seq<PartSale>
    var underSales: real

    ghost predicate Valid()
      reads this
    {
      Indexes(partidHash, partData) && Indexes(receiveidHash, receivePartData)
    }

    constructor ()
      ensures Valid()
      ensures partData == [] && receivePartData == [] && underSales == 0.0
    {
      partidHash, partData, receiveidHash, receivePartData, underSales := map[], [], map[], [], 0.0;
    }

    method InsertPartData(d: PartSale)
      requires Valid()
      modifies `partidHash, `partData
      ensures Valid()
      ensures partData == Insert(old(partData), d)
      ensures d.partid !in Ids(old(partData)) ==> partData == old(partData) + [d]
      ensures d.partid in Ids(old(partData)) ==> |partData| == |old(partData)|
      ensures d.partid in Ids(old(partData)) ==> forall i :: 0 <= i < |partData| ==>
        var e := old(partData)[i];
        partData[i] == if e.partid != d.partid then e
          else PartSale(e.partid, e.totalSale + d.totalSale, e.orderCount + d.orderCount)
    {
      if d.partid !in partidHash {
        InsertNew(partData, d);
        partidHash := partidHash[d.partid := |partData|];
        partData := partData + [d];
      } else {
        var id := partidHash[d.partid];
        IndexFinds(partidHash, partData, d.partid);
        InsertAt(partData, d, id);
        partData := partData[id := Merge(partData[id], d)];
      }
    }

    method SolveAnOrder(o: Order)
      requires Valid()
      modifies `partidHash, `partData
      ensures Valid()
      ensures partData == Insert(old(partData), PartSale(o.key, o.quantity, 1))
    {
      InsertPartData(PartSale(o.key, o.quantity, 1));
    }

    method InsertReceivePartData(d: PartSale)
      requires Valid()
      modifies `receiveidHash, `receivePartData
      ensures Valid()
      ensures receivePartData == Insert(old(receivePartData), d)
      ensures d.partid !in Ids(old(receivePartData)) ==> receivePartData == old(receivePartData) + [d]
      ensures d.partid in Ids(old(receivePartData)) ==> |receivePartData| == |old(receivePartData)|
      ensures d.partid in Ids(old(receivePartData)) ==> forall i :: 0 <= i < |receivePartData| ==>
        var e := old(receivePartData)[i];
        receivePartData[i] == if e.partid != d.partid then e
          else PartSale(e.partid, e.totalSale + d.totalSale, e.orderCount + d.orderCount)
    {
      if d.partid !in receiveidHash {
        InsertNew(receivePartData, d);
        receiveidHash := receiveidHash[d.partid := |receivePartData|];
        receivePartData := receivePartData + [d];
      } else {
        var id := receiveidHash[d.partid];
        IndexFinds(receiveidHash, receivePartData, d.partid);
        InsertAt(receivePartData, d, id);
        receivePartData := receivePartData[id := Merge(receivePartData[id], d)];
      }
    }

    method MergeData()
      requires Valid()
      modifies `partidHash, `partData
      ensures Valid()
      ensures partData == InsertAll(old(partData), receivePartData)
    {
      for i := 0 to |receivePartData|
        invariant Valid()
        invariant partData == InsertAll(old(partData), receivePartData[..i])
      {
        assert receivePartData[..i + 1][..i] == receivePartData[..i];
        InsertPartData(receivePartData[i]);
      }
      assert receivePartData[..|receivePartData|] == receivePartData;
    }

    method AddUnderSales(d: real)
      modifies `underSales
      ensures underSales == old(underSales) + d
    {
      underSales := underSales + d;
    }

    method SetUnderSales(d: real)
      modifies `underSales
      ensures underSales == d
    {
      underSales := d;
    }
  }

  // ---- the table as a map of sums ----

  /** Inserting records adds their columns, part by part, and brings in exactly their ids. */
  lemma {:induction false} InsertAllAdds(v: seq<PartSale>, ds: seq<PartSale>, key: int, f: Column)
    requires Distinct(v)
    ensures Distinct(InsertAll(v, ds)) && Ids(InsertAll(v, ds)) == Ids(v) + Ids(ds)
    ensures Sum(InsertAll(v, ds), key, f) == Sum(v, key, f) + Sum(ds, key, f)
  {
    if ds != [] {
      var init, d := ds[..|ds| - 1], ds[|ds| - 1];
      assert ds == init + [d];
      InsertAllAdds(v, init, key, f);
      InsertKeepsDistinct(InsertAll(v, init), d);
      InsertAdds(InsertAll(v, init), d, key, f);
      SumAppend(init, [d], key, f);
      assert Ids(ds) == Ids(init) + {d.partid};
    }
  }

  lemma WithoutSum(es: seq<PartSale>, i: nat, key: int, f: Column)
    requires i < |es|
    ensures Sum(es, key, f) == Sum(Without(es, i), key, f) + Sum([es[i]], key, f)
  {
    assert es == es[..i] + ([es[i]] + es[i + 1..]);
    SumAppend(es[..i], [es[i]] + es[i + 1..], key, f);
    SumAppend([es[i]], es[i + 1..], key, f);
    SumAppend(es[..i], es[i + 1..], key, f);
  }

  lemma {:induction false} SumOfPermutation(ds: seq<PartSale>, es: seq<PartSale>, key: int, f: Column)
    requires multiset(ds) == multiset(es)
    ensures Sum(ds, key, f) == Sum(es, key, f)
  {
    if ds == [] {
      assert |multiset(es)| == 0;
    } else {
      assert ds[0] in multiset(es);
      var i :| 0 <= i < |es| && es[i] == ds[0];
      WithoutMultiset(es, i);
      WithoutMultiset(ds, 0);
      SumOfPermutation(Without(ds, 0), Without(es, i), key, f);
      WithoutSum(es, i, key, f);
      WithoutSum(ds, 0, key, f);
    }
  }

  lemma SameIds(ds: seq<PartSale>, es: seq<PartSale>)
    requires multiset(ds) == multiset(es)
    ensures Ids(ds) == Ids(es)
  {
    forall e ensures e in ds <==> e in es {
      assert e in multiset(ds) <==> e in multiset(es);
    }
  }

  lemma SameColumn(v: seq<PartSale>, ds: seq<PartSale>, es: seq<PartSale>, key: int, f: Column)
    requires Distinct(v) && multiset(ds) == multiset(es) && Ids(ds) == Ids(es)
    ensures Ids(InsertAll(v, ds)) == Ids(InsertAll(v, es))
    ensures key in Ids(InsertAll(v, ds)) ==>
      && Lookup(InsertAll(v, ds), key).partid == Lookup(InsertAll(v, es), key).partid
      && Amount(Lookup(InsertAll(v, ds), key), f) == Amount(Lookup(InsertAll(v, es), key), f)
  {
    InsertAllAdds(v, ds, key, f);
    InsertAllAdds(v, es, key, f);
    SumOfPermutation(ds, es, key, f);
    if key in Ids(InsertAll(v, ds)) {
      LookupIsSum(InsertAll(v, ds), key, f);
      LookupIsSum(InsertAll(v, es), key, f);
    }
  }

  /** The order in which the same records are inserted does not matter to any lookup. */
  lemma InsertionOrderIsIrrelevant(v: seq<PartSale>, ds: seq<PartSale>, es: seq<PartSale>, key: int)
    requires Distinct(v) && multiset(ds) == multiset(es)
    ensures Ids(InsertAll(v, ds)) == Ids(InsertAll(v, es))
    ensures key in Ids(InsertAll(v, ds)) ==> Lookup(InsertAll(v, ds), key) == Lookup(InsertAll(v, es), key)
  {
    SameIds(ds, es);
    SameColumn(v, ds, es, key, Sales);
    SameColumn(v, ds, es, key, Count);
  }
}
