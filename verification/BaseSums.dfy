/** Sums and selections of the base calculation, one element at a time: the messages made of a list of
    orders or records weigh what the list weighs, and one order counted, one message read or one message
    sent changes the sums that the invariant speaks of by exactly its own entry. */
module BaseSums {
  import Sequences
  import opened Barrier
  import opened History
  import opened Query
  import opened BrandTables
  import opened SalesSums
  import opened BaseCalculator
  import opened BaseInvariant

  lemma {:induction false} OrderMsgsConcat(p: nat, a: seq<Order>, b: seq<Order>)
    ensures OrderMsgs(p, a + b) == OrderMsgs(p, a) + OrderMsgs(p, b)
  {
    if a == [] {
      assert a + b == b;
    } else {
      assert (a + b)[1..] == a[1..] + b;
      OrderMsgsConcat(p, a[1..], b);
    }
  }

  lemma {:induction false} UnderMsgsConcat(p: nat, a: seq<PartData>, b: seq<PartData>)
    ensures UnderMsgs(p, a + b) == UnderMsgs(p, a) + UnderMsgs(p, b)
  {
    if a == [] {
      assert a + b == b;
    } else {
      assert (a + b)[1..] == a[1..] + b;
      UnderMsgsConcat(p, a[1..], b);
    }
  }

  lemma {:induction false} RecordsConcat(a: seq<Msg<Body>>, b: seq<Msg<Body>>)
    ensures Records(a + b) == Records(a) + Records(b)
  {
    if a == [] {
      assert a + b == b;
    } else {
      assert (a + b)[1..] == a[1..] + b;
      RecordsConcat(a[1..], b);
      Sequences.ConcatAssociates(Records([a[0]]), Records(a[1..]), Records(b));
    }
  }

  lemma {:induction false} WeighOrders(p: nat, l: seq<Order>, w: What)
    ensures Weigh(OrderMsgs(p, l), OrderWorth(w)) == WorthAll(l, w)
  {
    if l != [] {
      WeighOrders(p, l[1..], w);
    }
  }

  // ---- the table ----

  /** An order's line is worth what the order is. */
  lemma LineIsWorth(parts: seq<Part>, o: Order, w: What)
    requires !w.Marks?
    ensures Entry(Line(parts, o), w) == Worth(o, w)
  {
  }

  lemma CountingKeepsIds(parts: seq<Part>, a: App, o: Order)
    requires DistinctIds(a.table)
    ensures DistinctIds(Counted(parts, a, o).table) && IdSet(Counted(parts, a, o).table) == IdSet(a.table) + {o.key}
  {
    hide MergeIn, DistinctIds, IdSet, PartRow;
    MergeInKeepsIds(a.table, Line(parts, o));
  }

  lemma CountingKeepsLabels(parts: seq<Part>, a: App, o: Order)
    requires forall d :: d in a.table ==> Labelled(parts, d)
    ensures forall d :: d in Counted(parts, a, o).table ==> Labelled(parts, d)
  {
    hide MergeIn, PartRow;
    assert Labelled(parts, Line(parts, o));
    MergeInLabels(a.table, Line(parts, o), parts);
  }

  lemma CountingAdds(parts: seq<Part>, a: App, o: Order, w: What)
    requires !w.Marks?
    ensures TableSum(Counted(parts, a, o).table, w) == TableSum(a.table, w) + Worth(o, w)
  {
    hide MergeIn, TableSum, Entry, Worth, PartRow;
    MergeInAdds(a.table, Line(parts, o), w);
    LineIsWorth(parts, o, w);
  }

  /** Counting one order adds it to the table and to the sales. */
  lemma CountOne(parts: seq<Part>, a: App, o: Order)
    requires DistinctIds(a.table) && a.localSales as real == TableSum(a.table, Everything)
    requires forall d :: d in a.table ==> Labelled(parts, d)
    ensures
      var b := Counted(parts, a, o);
      && DistinctIds(b.table) && IdSet(b.table) == IdSet(a.table) + {o.key}
      && (forall d :: d in b.table ==> Labelled(parts, d))
      && b.localSales as real == TableSum(b.table, Everything)
      && (forall w: What :: !w.Marks? ==> TableSum(b.table, w) == TableSum(a.table, w) + Worth(o, w))
  {
    hide MergeIn, TableSum, DistinctIds, IdSet, Labelled, PartRow;
    CountingKeepsIds(parts, a, o);
    CountingKeepsLabels(parts, a, o);
    forall w: What | !w.Marks?
      ensures TableSum(Counted(parts, a, o).table, w) == TableSum(a.table, w) + Worth(o, w)
    {
      CountingAdds(parts, a, o, w);
    }
    CountingAdds(parts, a, o, Everything);
  }

  // ---- the tally ----

  /** The next local order. */
  lemma TallyMain(cfg: Config, u: nat, a: App, got: seq<Msg<Body>>, w: What)
    requires u < |cfg.parts| == |cfg.orders| && a.pos < |cfg.orders[u]|
    ensures
      var o := cfg.orders[u][a.pos];
      forall b: App :: b.pos == a.pos + 1 ==>
        Tally(cfg, u, 0, b, got, w) == Tally(cfg, u, 0, a, got, w) + if o.key in OwnKeys(cfg, u) then Worth(o, w) else 0.0
  {
    var o := cfg.orders[u][a.pos];
    assert cfg.orders[u][..a.pos + 1] == cfg.orders[u][..a.pos] + [o];
    TakenMore(cfg.orders[u][..a.pos], o, OwnKeys(cfg, u));
    WorthConcat(Taken(cfg.orders[u][..a.pos], OwnKeys(cfg, u)), [o], w);
    assert WorthAll([o], w) == Worth(o, w);
  }

  /** The next message. */
  lemma TallyServe(cfg: Config, u: nat, round: nat, a: App, got: seq<Msg<Body>>, m: Msg<Body>, w: What)
    requires u < |cfg.parts| == |cfg.orders|
    ensures Tally(cfg, u, round, a, got + [m], w) == Tally(cfg, u, round, a, got, w) +
            if OrderIn(OwnKeys(cfg, u))(m) then Worth(m.body.order, w) else 0.0
  {
    WeighMore(got, m, OrderIn(OwnKeys(cfg, u)), OrderWorth(w));
  }

  lemma {:induction false} WeighNonNegative(l: seq<Msg<Body>>, key: int)
    ensures 0.0 <= Weigh(l, OrderWorth(Marks(key)))
  {
    if l != [] {
      WeighNonNegative(l[1..], key);
    }
  }

  lemma MarksNonNegative(cfg: Config, u: nat, round: nat, a: App, got: seq<Msg<Body>>, key: int)
    requires u < |cfg.parts| == |cfg.orders|
    ensures 0.0 <= Tally(cfg, u, round, a, got, Marks(key))
  {
    WorthNonNegative(Taken(Done(cfg, u, round, a), OwnKeys(cfg, u)), key);
    WeighNonNegative(Pick(got, OrderIn(OwnKeys(cfg, u))), key);
  }

  // ---- the totals ----

  lemma FromOthersMore(u: nat, got: seq<Msg<Body>>, m: Msg<Body>, w: Msg<Body> -> real)
    ensures FromOthers(u, got + [m], w) == FromOthers(u, got, w) +
            if Totals()(m) && m.origin != u then w(m) else 0.0
  {
    WeighMore(got, m, Totals(), w);
    WeighMore(got, m, From(Totals(), u), w);
  }
}
