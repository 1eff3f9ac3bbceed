/** The totals of the base calculation, for any data: the sums that arrive everywhere are those of the
    local tables, and these are the shares of module BaseRouting. */
module BaseTotals {
  import opened Sequences
  import opened Topology
  import opened Barrier
  import opened BarrierInvariant
  import opened History
  import opened Query
  import opened BrandTables
  import opened SalesSums
  import opened BaseCalculator
  import opened BaseInvariant
  import opened BaseSteps
  import opened BaseRouting

  // ---- the totals of every process arrive everywhere ----

  lemma TotalsArrive(cfg: Config, s: Sys, p: nat, q: nat)
    requires SysInv(cfg, s) && p < |s.apps| && q < |s.apps| && p != q && 2 <= s.hist.ring.procs[q].finishIndex
    ensures Pick(s.hist.got[q], From(Totals(), p)) == [Data(p, 1, TotalMsg(Port(p), |s.apps[p].table|, s.apps[p].localSales))]
  {
    hide SysInv, HistInv, MessagesOk, WellFormed, Pick, Relays;
    Basics(cfg, s);
    Notified(cfg, s, q, 1);
    TotalIsSent(cfg, s, p);
    RelaysTotals(cfg, s, p, q);
    Arrives(s.hist, p, q, q, 1, From(Totals(), p));
  }

  lemma RelaysTotals(cfg: Config, s: Sys, p: nat, q: nat)
    requires SysInv(cfg, s) && p < |s.apps| && q < |s.apps|
    ensures Relays(s.hist, p, q, From(Totals(), p))
  {
    hide SysInv, HistInv, MessagesOk, WellFormed, Pick, MainOk, TableOk, TotalsOk, UndersOk, SentOk, OrdersPassed;
    Basics(cfg, s);
    forall w: nat | w < |s.apps| && Between(|s.apps|, p, w, q)
      ensures Pick(s.hist.put[w], From(Totals(), p)) == Pick(s.hist.got[w], From(Totals(), p))
    {
      ProcessIs(cfg, s, w);
      assert PassesOn(cfg, w, p, s.hist.put[w], s.hist.got[w]);
    }
  }

  lemma TotalIsSent(cfg: Config, s: Sys, p: nat)
    requires SysInv(cfg, s) && p < |s.apps| && HasEntered(s.hist.ring.procs[p], 1)
    ensures Pick(s.hist.put[p], From(Totals(), p)) == [Data(p, 1, TotalMsg(Port(p), |s.apps[p].table|, s.apps[p].localSales))]
  {
    hide SysInv, HistInv, MessagesOk, WellFormed, Pick, TableOk, UndersOk, PassesOn, OrdersSent, KeysAt, IsUnder, FromOthers;
    Basics(cfg, s);
    ProcessIs(cfg, s, p);
  }

  lemma WeighOne(m: Msg<Body>)
    requires m.Data? && m.body.TotalMsg?
    ensures Weigh([m], CountWorth()) == m.body.count as real && Weigh([m], SalesWorth()) == m.body.sales as real
  {
    assert [m][1..] == [];
  }

  lemma AllTaken(cfg: Config)
    ensures Taken(Flatten(cfg.orders), OrderedKeys(cfg)) == Flatten(cfg.orders)
  {
    forall o | o in Flatten(cfg.orders) ensures o.key in OrderedKeys(cfg) {
    }
    TakenAll(Flatten(cfg.orders), OrderedKeys(cfg));
  }

  /** The local totals of the first `k` processes. */
  ghost function LocalSales(s: Sys, k: nat): int
    requires k <= |s.apps|
  {
    if k == 0 then 0 else LocalSales(s, k - 1) + s.apps[k - 1].localSales
  }

  ghost function LocalCounts(s: Sys, k: nat): nat
    requires k <= |s.apps|
  {
    if k == 0 then 0 else LocalCounts(s, k - 1) + |s.apps[k - 1].table|
  }

  lemma {:induction false} TotalsBelow(cfg: Config, s: Sys, q: nat, k: nat)
    requires SysInv(cfg, s) && q < |s.apps| && 2 <= s.hist.ring.procs[q].finishIndex && k <= |s.apps|
    ensures WeighOrigins(s.hist.got[q], Totals(), CountWorth(), k) == LocalCounts(s, k) as real +
            if q < k then Weigh(Pick(s.hist.got[q], From(Totals(), q)), CountWorth()) - |s.apps[q].table| as real else 0.0
    ensures WeighOrigins(s.hist.got[q], Totals(), SalesWorth(), k) == LocalSales(s, k) as real +
            if q < k then Weigh(Pick(s.hist.got[q], From(Totals(), q)), SalesWorth()) - s.apps[q].localSales as real else 0.0
  {
    hide SysInv, HistInv, MessagesOk, WellFormed, Pick, Weigh;
    Basics(cfg, s);
    if k > 0 {
      TotalsBelow(cfg, s, q, k - 1);
      if k - 1 != q {
        TotalsArrive(cfg, s, k - 1, q);
        WeighOne(Data(k - 1, 1, TotalMsg(Port(k - 1), |s.apps[k - 1].table|, s.apps[k - 1].localSales)));
      }
    }
  }

  /** After the second barrier every process holds the sums of all local totals. */
  lemma TotalsAreLocal(cfg: Config, s: Sys, q: nat)
    requires SysInv(cfg, s) && q < |s.apps| && 2 <= s.hist.ring.procs[q].finishIndex
    ensures s.apps[q].partCount == LocalCounts(s, |s.apps|) && s.apps[q].totalSales == LocalSales(s, |s.apps|)
  {
    hide SysInv, HistInv, MessagesOk, WellFormed, Pick, MainOk, TableOk, UndersOk, SentOk, PassesOn, LocalCounts, LocalSales;
    Basics(cfg, s);
    var n, got := |s.apps|, s.hist.got[q];
    ProcessIs(cfg, s, q);
    TotalsBelow(cfg, s, q, n);
    forall m | m in got ensures m.Data? && m.origin < n {
      GotMessage(cfg, s, q, m);
    }
    WeighByOrigin(got, Totals(), CountWorth(), n);
    WeighByOrigin(got, Totals(), SalesWorth(), n);
  }

  // ---- the sales ----

  lemma {:induction false} LocalSalesAreShares(cfg: Config, s: Sys, k: nat)
    requires SysInv(cfg, s) && k <= |s.apps| == |cfg.parts| && Sized(cfg)
    requires |s.hist.ring.procs| == |s.apps| && forall p :: 0 <= p < |s.apps| ==> 1 <= s.hist.ring.procs[p].finishIndex
    ensures LocalSales(s, k) as real == Shares(cfg, Everything, k)
  {
    hide SysInv, Share;
    if k > 0 {
      LocalSalesAreShares(cfg, s, k - 1);
      TableIsShare(cfg, s, k - 1);
    }
  }

  /** The tables of the first `k` processes together. */
  ghost function Together(s: Sys, w: What, k: nat): real
    requires k <= |s.apps|
  {
    if k == 0 then 0.0 else Together(s, w, k - 1) + TableSum(s.apps[k - 1].table, w)
  }

  lemma {:induction false} TablesAreShares(cfg: Config, s: Sys, w: What, k: nat)
    requires SysInv(cfg, s) && k <= |s.apps| == |cfg.parts| && Sized(cfg) && !w.Marks?
    requires |s.hist.ring.procs| == |s.apps| && forall p :: 0 <= p < |s.apps| ==> 1 <= s.hist.ring.procs[p].finishIndex
    ensures Together(s, w, k) == Shares(cfg, w, k)
  {
    hide SysInv, Share, TableSum;
    if k > 0 {
      TablesAreShares(cfg, s, w, k - 1);
      TableIsShare(cfg, s, k - 1);
    }
  }

  lemma StoredAreTaken(cfg: Config)
    ensures AllStored(cfg) ==> StoredKeys(cfg) == OrderedKeys(cfg) && Taken(Flatten(cfg.orders), StoredKeys(cfg)) == Flatten(cfg.orders)
  {
    hide Stored, OrderedKeys;
    AllTaken(cfg);
  }

  // ---- the counts ----

  /** The keys of the orders that are counted at `q`. */
  ghost function BookedKeys(cfg: Config, q: nat): set<int>
    requires Sized(cfg) && q < |cfg.parts|
  {
    set key | key in OwnKeys(cfg, q) && Booked(cfg, q, key)
  }

  /** Somebody has an order for the part that finds it at `q` first. */
  ghost predicate Booked(cfg: Config, q: nat, key: int)
    requires Sized(cfg) && q < |cfg.parts|
  {
    exists p: nat :: p < |cfg.orders| && Orders(cfg, p, key) && FirstOn(cfg, p, q, key)
  }

  predicate Orders(cfg: Config, p: nat, key: int)
    requires p < |cfg.orders|
  {
    exists o :: o in cfg.orders[p] && o.key == key
  }

  lemma {:induction false} MarksOfShare(cfg: Config, q: nat, key: int, k: nat)
    requires Sized(cfg) && q < |cfg.parts| && k <= |cfg.orders|
    ensures 0.0 <= Share(cfg, q, Marks(key), k)
    ensures 0.0 < Share(cfg, q, Marks(key), k) <==>
            exists p: nat :: p < k && Orders(cfg, p, key) && key in FirstKeys(cfg, p, q)
  {
    hide FirstKeys, Taken, WorthAll;
    if k > 0 {
      MarksOfShare(cfg, q, key, k - 1);
      MarksCount(cfg.orders[k - 1], FirstKeys(cfg, k - 1, q), key);
    }
  }

  lemma TableIsBooked(cfg: Config, s: Sys, q: nat)
    requires SysInv(cfg, s) && q < |s.apps| && 1 <= s.hist.ring.procs[q].finishIndex
    ensures Sized(cfg) && |s.apps| == |cfg.parts|
    ensures IdSet(s.apps[q].table) == BookedKeys(cfg, q) && |s.apps[q].table| == |BookedKeys(cfg, q)|
  {
    hide SysInv, HistInv, MessagesOk, WellFormed, OwnKeys, FirstOn, Share, Orders, TableSum, Labelled;
    Basics(cfg, s);
    TableIs(cfg, s, q);
    TableIsShare(cfg, s, q);
    forall key ensures key in IdSet(s.apps[q].table) <==> key in BookedKeys(cfg, q) {
      MarksOfShare(cfg, q, key, |cfg.parts|);
    }
    DistinctCount(s.apps[q].table);
  }

  /** How many parts the first `k` processes count. */
  ghost function Bookings(cfg: Config, k: nat): nat
    requires Sized(cfg) && k <= |cfg.parts|
  {
    if k == 0 then 0 else Bookings(cfg, k - 1) + |BookedKeys(cfg, k - 1)|
  }

  lemma {:induction false} CountsAreBookings(cfg: Config, s: Sys, k: nat)
    requires SysInv(cfg, s) && k <= |s.apps| == |cfg.parts| && Sized(cfg)
    requires |s.hist.ring.procs| == |s.apps| && forall p :: 0 <= p < |s.apps| ==> 1 <= s.hist.ring.procs[p].finishIndex
    ensures LocalCounts(s, k) == Bookings(cfg, k)
  {
    hide SysInv, BookedKeys;
    if k > 0 {
      CountsAreBookings(cfg, s, k - 1);
      TableIsBooked(cfg, s, k - 1);
    }
  }

  ghost function BookedBelow(cfg: Config, k: nat): set<int>
    requires Sized(cfg) && k <= |cfg.parts|
  {
    if k == 0 then {} else BookedBelow(cfg, k - 1) + BookedKeys(cfg, k - 1)
  }

  /** All orders of one part are counted at one process. */
  ghost predicate MeetOnce(cfg: Config, k: nat)
    requires Sized(cfg) && k <= |cfg.parts|
  {
    forall q: nat, q': nat, key ::
      q < k && q' < k && key in BookedKeys(cfg, q) && key in BookedKeys(cfg, q') ==> q == q'
  }

  lemma {:induction false} InBookedBelow(cfg: Config, k: nat, key: int)
    requires Sized(cfg) && k <= |cfg.parts|
    ensures key in BookedBelow(cfg, k) <==> exists q: nat :: q < k && key in BookedKeys(cfg, q)
  {
    hide BookedKeys;
    if k > 0 {
      InBookedBelow(cfg, k - 1, key);
    }
  }

  /** No part is counted twice if and only if all its orders meet at one process. */
  lemma {:induction false} BookingsCount(cfg: Config, k: nat)
    requires Sized(cfg) && k <= |cfg.parts|
    ensures |BookedBelow(cfg, k)| <= Bookings(cfg, k)
    ensures Bookings(cfg, k) == |BookedBelow(cfg, k)| <==> MeetOnce(cfg, k)
  {
    hide BookedKeys, MeetOnce;
    if k == 0 {
      NobodyMeets(cfg);
    } else {
      BookingsCount(cfg, k - 1);
      var a, b := BookedBelow(cfg, k - 1), BookedKeys(cfg, k - 1);
      UnionSize(a, b);
      MeetOnceMore(cfg, k - 1);
    }
  }

  lemma NobodyMeets(cfg: Config)
    requires Sized(cfg)
    ensures MeetOnce(cfg, 0)
  {
  }

  lemma MeetOnceMore(cfg: Config, k: nat)
    requires Sized(cfg) && k < |cfg.parts|
    ensures MeetOnce(cfg, k + 1) <==> MeetOnce(cfg, k) && BookedBelow(cfg, k) * BookedKeys(cfg, k) == {}
  {
    hide BookedKeys, BookedBelow;
    if MeetOnce(cfg, k + 1) {
      forall key | key in BookedBelow(cfg, k) ensures key !in BookedKeys(cfg, k) {
        InBookedBelow(cfg, k, key);
        var q: nat :| q < k && key in BookedKeys(cfg, q);
      }
    } else if BookedBelow(cfg, k) * BookedKeys(cfg, k) == {} {
      forall key, q: nat | q < k && key in BookedKeys(cfg, q) ensures key !in BookedKeys(cfg, k) {
        InBookedBelow(cfg, k, key);
        assert key !in BookedBelow(cfg, k) * BookedKeys(cfg, k);
      }
    }
  }

  lemma UnionSize(a: set<int>, b: set<int>)
    ensures |a + b| <= |a| + |b| && (|a + b| == |a| + |b| <==> a * b == {})
  {
    assert |a + b| == |a| + |b| - |a * b|;
  }

  lemma AllBooked(cfg: Config)
    requires Sized(cfg)
    ensures BookedBelow(cfg, |cfg.parts|) == StoredKeys(cfg)
  {
    hide KeysAt, FirstOn, OrderedKeys, Orders;
    forall key ensures key in BookedBelow(cfg, |cfg.parts|) <==> key in StoredKeys(cfg) {
      InBookedBelow(cfg, |cfg.parts|, key);
      if key in StoredKeys(cfg) {
        var p := SomebodyOrders(cfg, key);
        var w: nat :| w < |cfg.parts| && key in KeysAt(cfg, w);
        var q := SomebodyIsFirst(cfg, p, w, key);
        FirstStores(cfg, p, q, key);
        assert key in BookedKeys(cfg, q);
      }
    }
  }

  lemma SomebodyOrders(cfg: Config, key: int) returns (p: nat)
    requires key in OrderedKeys(cfg)
    ensures p < |cfg.orders| && Orders(cfg, p, key)
  {
    var o :| o in Flatten(cfg.orders) && o.key == key;
    p := FromFlatten(cfg.orders, o);
  }

  // ---- the totals ----

  /** After the second barrier: the quantity of all orders whose part is stored, and the number of parts
      counted, which is right if and only if all orders of a part are counted at one process. */
  lemma TotalsOfAnyData(cfg: Config, s: Sys, q: nat)
    requires SysInv(cfg, s) && q < |s.apps| && 2 <= s.hist.ring.procs[q].finishIndex
    ensures Sized(cfg) && |s.apps| == |cfg.parts|
    ensures s.apps[q].totalSales == QuantitySum(Taken(Flatten(cfg.orders), StoredKeys(cfg)))
    ensures s.apps[q].partCount == Bookings(cfg, |cfg.parts|) >= |StoredKeys(cfg)|
    ensures s.apps[q].partCount == |StoredKeys(cfg)| <==> MeetOnce(cfg, |cfg.parts|)
  {
    hide SysInv, HistInv, MessagesOk, WellFormed, Taken, WorthAll, StoredKeys, BookedKeys, MeetOnce, LocalCounts, LocalSales;
    Basics(cfg, s);
    Notified(cfg, s, q, 1);
    AllAreLater(cfg, s, 1);
    TotalsAreLocal(cfg, s, q);
    LocalSalesAreShares(cfg, s, |s.apps|);
    SharesAreAll(cfg, Everything);
    EverythingIsQuantity(Taken(Flatten(cfg.orders), StoredKeys(cfg)));
    CountsAreBookings(cfg, s, |s.apps|);
    BookingsCount(cfg, |cfg.parts|);
    AllBooked(cfg);
  }

  /** Who has entered a round has left the rounds before. */
  lemma AllAreLater(cfg: Config, s: Sys, r: nat)
    requires SysInv(cfg, s) && |s.hist.ring.procs| == |s.apps|
    requires forall p :: 0 <= p < |s.apps| ==> HasEntered(s.hist.ring.procs[p], r)
    ensures forall p :: 0 <= p < |s.apps| ==> r <= s.hist.ring.procs[p].finishIndex
  {
    hide SysInv;
  }
}
