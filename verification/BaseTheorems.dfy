/** What the base calculation computes, in every run. */
module BaseTheorems {
  import opened Sequences
  import opened Topology
  import opened Barrier
  import opened BarrierInvariant
  import BarrierTheorems
  import opened History
  import opened Query
  import opened BrandTables
  import opened SalesSums
  import opened BaseCalculator
  import opened BaseRuns
  import opened BaseInvariant
  import opened BaseSteps
  import opened BaseRouting
  import opened BaseTotals
  import BaseTermination

  // ---- orders arrive ----

  /** If every part has one owner, every order finds it there first. */
  lemma FirstIsOwn(cfg: Config, p: nat, q: nat)
    requires OwnedOnce(cfg) && p < |cfg.parts| && q < |cfg.parts|
    ensures FirstKeys(cfg, p, q) == OwnKeys(cfg, q)
  {
    forall key | key in OwnKeys(cfg, q) ensures FirstOn(cfg, p, q, key) {
      assert key in KeysAt(cfg, q) && key in OrderedKeys(cfg);
    }
  }

  /** All orders of `p` for parts that `q` stores have arrived at `q`, each once and in the order of the
      rows, when `q` or a process further along the ring leaves the first barrier. */
  lemma OrdersArrive(cfg: Config, s: Sys, p: nat, q: nat, x: nat)
    requires OwnedOnce(cfg) && SysInv(cfg, s) && p < |s.apps| && q < |s.apps| && p != q && x < |s.apps|
    requires 1 <= s.hist.ring.procs[x].finishIndex && (q == x || Between(|s.apps|, p, q, x))
    ensures Pick(s.hist.got[q], From(OrderIn(OwnKeys(cfg, q)), p)) == OrderMsgs(p, Taken(cfg.orders[p], OwnKeys(cfg, q)))
  {
    hide OwnedOnce, SysInv, HistInv, MessagesOk, WellFormed, OwnKeys, FirstKeys, Pick, Taken, OrderMsgs;
    Basics(cfg, s);
    FirstIsOwn(cfg, p, q);
    FirstOrdersArrive(cfg, s, p, q, x);
  }

  lemma {:induction false} ShareIsRows(cfg: Config, q: nat, w: What, k: nat)
    requires OwnedOnce(cfg) && q < |cfg.parts| && k <= |cfg.orders|
    ensures Share(cfg, q, w, k) == RowsWorth(cfg.orders, OwnKeys(cfg, q), w, k)
  {
    hide OwnedOnce, OwnKeys, FirstKeys, Taken, WorthAll;
    assert Sized(cfg) by { OwnedIsSized(cfg); }
    if k > 0 {
      ShareIsRows(cfg, q, w, k - 1);
      FirstIsOwn(cfg, k - 1, q);
    }
  }

  lemma OwnedIsSized(cfg: Config)
    requires OwnedOnce(cfg)
    ensures Sized(cfg)
  {
  }

  /** What `q` has counted when it leaves the first barrier, or when `x` does and `q` comes first: every
      order of its parts, once. */
  lemma TallyIsTotal(cfg: Config, s: Sys, q: nat, x: nat, w: What)
    requires OwnedOnce(cfg) && SysInv(cfg, s) && q < |s.apps| && x < |s.apps| && ComesFirst(|s.apps|, q, x)
    requires 1 <= s.hist.ring.procs[x].finishIndex
    ensures Tally(cfg, q, s.hist.ring.procs[q].finishIndex, s.apps[q], s.hist.got[q], w) ==
            WorthAll(Taken(Flatten(cfg.orders), OwnKeys(cfg, q)), w)
  {
    hide OwnedOnce, SysInv, HistInv, MessagesOk, WellFormed, OwnKeys, Taken, WorthAll, Tally, Share;
    Basics(cfg, s);
    TallyIsShare(cfg, s, q, x, w);
    ShareIsRows(cfg, q, w, |cfg.parts|);
    TakenFlatten(cfg.orders, OwnKeys(cfg, q), w, |cfg.parts|);
    assert cfg.orders[..|cfg.parts|] == cfg.orders;
  }

  // ---- the tables ----

  /** The sales record of a part that `p` stores, over the orders of all processes. */
  ghost function FinalRecord(cfg: Config, p: nat, key: int): PartData
    requires p < |cfg.parts|
  {
    SalesRecord(cfg.parts[p], Flatten(cfg.orders), key)
  }

  /** When a process leaves the first barrier its table, and that of every process that comes first, holds
      exactly the ordered parts it stores, each with the sums over the orders of all processes. */
  lemma TableIsComplete(cfg: Config, s: Sys, q: nat, x: nat)
    requires OwnedOnce(cfg) && SysInv(cfg, s) && q < |s.apps| && x < |s.apps| && ComesFirst(|s.apps|, q, x)
    requires 1 <= s.hist.ring.procs[x].finishIndex
    ensures DistinctIds(s.apps[q].table) && IdSet(s.apps[q].table) == OwnKeys(cfg, q)
    ensures forall d :: d in s.apps[q].table ==> d == FinalRecord(cfg, q, d.id)
    ensures s.apps[q].localSales as real == WorthAll(Taken(Flatten(cfg.orders), OwnKeys(cfg, q)), Everything)
  {
    hide OwnedOnce, SysInv, HistInv, MessagesOk, WellFormed, Taken, WorthAll, Tally, KeysAt, OrderedKeys, OwnKeys;
    Basics(cfg, s);
    TableIs(cfg, s, q);
    var v, all := s.apps[q].table, Flatten(cfg.orders);
    TallyIsTotal(cfg, s, q, x, Everything);
    forall key ensures key in IdSet(v) <==> key in OwnKeys(cfg, q) {
      TallyIsTotal(cfg, s, q, x, Marks(key));
      MarksCount(all, OwnKeys(cfg, q), key);
      OrderedKeyHasOrder(cfg, q, key);
    }
    forall d | d in v ensures d == FinalRecord(cfg, q, d.id) {
      assert d.id in IdSet(v);
      TallyIsTotal(cfg, s, q, x, Quantities(d.id));
      TallyIsTotal(cfg, s, q, x, Revenues(d.id));
      TakenKeepsWorth(all, OwnKeys(cfg, q), d.id);
      RecordsFromSums(v, cfg.parts[q], all, d);
    }
  }

  lemma OrderedKeyHasOrder(cfg: Config, q: nat, key: int)
    requires q < |cfg.parts|
    ensures key in OwnKeys(cfg, q) ==> exists o :: o in Flatten(cfg.orders) && o.key == key
  {
  }

  // ---- the totals ----

  lemma OwnedIsStored(cfg: Config)
    requires OwnedOnce(cfg)
    ensures AllStored(cfg)
  {
    forall key | key in OrderedKeys(cfg) ensures Stored(cfg, key) {
      var o :| o in Flatten(cfg.orders) && o.key == key;
      var p := FromFlatten(cfg.orders, o);
    }
  }

  lemma OwnedMeetOnce(cfg: Config)
    requires OwnedOnce(cfg)
    ensures Sized(cfg) && MeetOnce(cfg, |cfg.parts|)
  {
    hide KeysAt;
    forall q: nat, q': nat, key
      | q < |cfg.parts| && q' < |cfg.parts| && key in BookedKeys(cfg, q) && key in BookedKeys(cfg, q')
      ensures q == q'
    {
      OwnKeyIsStored(cfg, q, key);
      OwnKeyIsStored(cfg, q', key);
    }
  }

  /** After the second barrier every process holds the number of ordered parts and the quantity of all
      orders. */
  lemma TotalsAgree(cfg: Config, s: Sys, q: nat)
    requires OwnedOnce(cfg) && SysInv(cfg, s) && q < |s.apps| && 2 <= s.hist.ring.procs[q].finishIndex
    ensures s.apps[q].partCount == |OrderedKeys(cfg)|
    ensures s.apps[q].totalSales == QuantitySum(Flatten(cfg.orders))
  {
    hide OwnedOnce, SysInv, AllStored, MeetOnce, Taken, StoredKeys, OrderedKeys;
    OwnedIsStored(cfg);
    OwnedMeetOnce(cfg);
    StoredAreTaken(cfg);
    TotalsOfAnyData(cfg, s, q);
  }

  // ---- the under-sale parts ----

  /** Under-sold among the ordered parts. */
  ghost predicate IsUnderSold(cfg: Config, key: int) {
    UnderSold(Flatten(cfg.orders), |OrderedKeys(cfg)|, key)
  }

  lemma SomethingIsOrdered(cfg: Config, key: int)
    requires key in OrderedKeys(cfg)
    ensures 0 < |OrderedKeys(cfg)|
  {
    assert {key} <= OrderedKeys(cfg);
  }

  lemma UndersArrive(cfg: Config, s: Sys, p: nat, q: nat)
    requires OwnedOnce(cfg) && SysInv(cfg, s) && p < |s.apps| && q < |s.apps| && 3 <= s.hist.ring.procs[q].finishIndex
    ensures Pick(s.hist.got[q], From(Unders(), p)) == UnderMsgs(p, UnderList(s.apps[p].table, s.apps[p].shared))
  {
    hide OwnedOnce, SysInv, HistInv, MessagesOk, WellFormed, Pick, Relays, UnderMsgs, UnderList;
    Basics(cfg, s);
    Notified(cfg, s, q, 2);
    UndersAreSent(cfg, s, p);
    RelaysUnders(cfg, s, p, q);
    Arrives(s.hist, p, q, q, 2, From(Unders(), p));
  }

  /** A process that has entered the third barrier has searched its whole table. */
  lemma UndersAreSent(cfg: Config, s: Sys, p: nat)
    requires SysInv(cfg, s) && p < |s.apps| && HasEntered(s.hist.ring.procs[p], 2)
    ensures Pick(s.hist.put[p], From(Unders(), p)) == UnderMsgs(p, UnderList(s.apps[p].table, s.apps[p].shared))
    ensures s.apps[p].shared == (s.apps[p].totalSales, s.apps[p].partCount)
  {
    hide SysInv, HistInv, MessagesOk, WellFormed, Pick, TableOk, TotalsOk, PassesOn, OrdersSent, KeysAt, IsUnder, UnderMsgs, UnderList, Records;
    Basics(cfg, s);
    ProcessIs(cfg, s, p);
    assert s.apps[p].table[..|s.apps[p].table|] == s.apps[p].table;
  }

  /** The record of a part in the list of an under-sale search of the whole. */
  ghost predicate UnderRecord(cfg: Config, p: nat, d: PartData)
    requires p < |cfg.parts|
  {
    d.id in OwnKeys(cfg, p) && d == FinalRecord(cfg, p, d.id) && IsUnderSold(cfg, d.id)
  }

  /** The parts that `p` reports are the under-sold ones that it stores. */
  lemma ReportIsExact(cfg: Config, s: Sys, p: nat, d: PartData)
    requires OwnedOnce(cfg) && SysInv(cfg, s) && p < |s.apps| && HasEntered(s.hist.ring.procs[p], 2)
    ensures d in UnderList(s.apps[p].table, s.apps[p].shared) <==> UnderRecord(cfg, p, d)
  {
    hide OwnedOnce, SysInv, HistInv, MessagesOk, WellFormed, UnderList, IsUnder, KeysAt, OrderedKeys, UnderSold, Pick, UnderMsgs, OwnKeys;
    Basics(cfg, s);
    var v := s.apps[p].table;
    TableIsComplete(cfg, s, p, p);
    TotalsAgree(cfg, s, p);
    UndersAreSent(cfg, s, p);
    UnderListIsDistinct(v, s.apps[p].shared);
    if d in v {
      assert d.id in IdSet(v);
      OwnKeyIsStored(cfg, p, d.id);
      SomethingIsOrdered(cfg, d.id);
      UnderIsUnderSold(Flatten(cfg.orders), |OrderedKeys(cfg)|, d);
    } else if d.id in OwnKeys(cfg, p) {
      assert d.id in IdSet(v);
      var e :| e in v && e.id == d.id;
    }
  }

  lemma {:induction false} RecordIn(l: seq<Msg<Body>>, m: Msg<Body>)
    requires m in l && m.Data? && m.body.UnderMsg?
    ensures m.body.part in Records(l)
  {
    if l[0] != m {
      RecordIn(l[1..], m);
    }
  }

  lemma InUnderMsgs(p: nat, l: seq<PartData>, m: Msg<Body>)
    ensures m in UnderMsgs(p, l) <==> m.Data? && m.body.UnderMsg? && m.body.part in l && m == Data(p, 2, m.body)
  {
    hide UnderMsgs;
    UnderMsgsAt(p, l);
    if m.Data? && m.body.UnderMsg? && m.body.part in l && m == Data(p, 2, m.body) {
      var i :| 0 <= i < |l| && l[i] == m.body.part;
      assert UnderMsgs(p, l)[i] == m;
    }
  }

  /** A part that some process reports is in the list of every process that has left the third barrier. */
  lemma ReportedIsListed(cfg: Config, s: Sys, q: nat, p: nat, d: PartData)
    requires OwnedOnce(cfg) && SysInv(cfg, s) && q < |s.apps| && p < |s.apps| && 3 <= s.hist.ring.procs[q].finishIndex
    requires d in UnderList(s.apps[p].table, s.apps[p].shared)
    ensures d in s.apps[q].underSales
  {
    hide OwnedOnce, SysInv, HistInv, MessagesOk, WellFormed, Pick, Records, UnderMsgs, UnderList;
    Basics(cfg, s);
    UndersArrive(cfg, s, p, q);
    ListIs(cfg, s, q);
    var m: Msg<Body> := Data(p, 2, UnderMsg(d));
    InUnderMsgs(p, UnderList(s.apps[p].table, s.apps[p].shared), m);
    InPick(s.hist.got[q], From(Unders(), p), m);
    InPick(s.hist.got[q], Unders(), m);
    RecordIn(Pick(s.hist.got[q], Unders()), m);
  }

  /** ... and nothing else is. */
  lemma ListedIsReported(cfg: Config, s: Sys, q: nat, d: PartData) returns (p: nat)
    requires OwnedOnce(cfg) && SysInv(cfg, s) && q < |s.apps| && 3 <= s.hist.ring.procs[q].finishIndex && d in s.apps[q].underSales
    ensures p < |s.apps| && d in UnderList(s.apps[p].table, s.apps[p].shared)
  {
    hide OwnedOnce, SysInv, HistInv, MessagesOk, WellFormed, Pick, Records, UnderMsgs, UnderList, BodyOk;
    Basics(cfg, s);
    ListIs(cfg, s, q);
    var list := Records(Pick(s.hist.got[q], Unders()));
    var i :| 0 <= i < |list| && list[i] == d;
    var m := FromRecords(Pick(s.hist.got[q], Unders()), i);
    InPick(s.hist.got[q], Unders(), m);
    GotMessage(cfg, s, q, m);
    p := m.origin;
    InPick(s.hist.got[q], From(Unders(), p), m);
    UndersArrive(cfg, s, p, q);
    InUnderMsgs(p, UnderList(s.apps[p].table, s.apps[p].shared), m);
  }

  /** After the third barrier the list of every process holds each under-sold part exactly once, with
      its sums over all orders. */
  lemma ListsAreComplete(cfg: Config, s: Sys, q: nat)
    requires OwnedOnce(cfg) && SysInv(cfg, s) && q < |s.apps| && 3 <= s.hist.ring.procs[q].finishIndex
    ensures DistinctIds(s.apps[q].underSales)
    ensures forall d :: d in s.apps[q].underSales <==> exists p: nat :: p < |cfg.parts| && UnderRecord(cfg, p, d)
  {
    hide OwnedOnce, SysInv, HistInv, MessagesOk, WellFormed, UnderRecord, UnderList;
    Basics(cfg, s);
    ListIsDistinct(cfg, s, q);
    Notified(cfg, s, q, 2);
    forall d ensures d in s.apps[q].underSales <==> exists p: nat :: p < |cfg.parts| && UnderRecord(cfg, p, d) {
      if d in s.apps[q].underSales {
        var p := ListedIsReported(cfg, s, q, d);
        ReportIsExact(cfg, s, p, d);
      } else {
        forall p: nat | p < |cfg.parts| ensures !UnderRecord(cfg, p, d) {
          NotListed(cfg, s, q, p, d);
        }
      }
    }
  }

  lemma NotListed(cfg: Config, s: Sys, q: nat, p: nat, d: PartData)
    requires OwnedOnce(cfg) && SysInv(cfg, s) && q < |s.apps| && 3 <= s.hist.ring.procs[q].finishIndex && p < |s.apps|
    requires |s.apps| == |cfg.parts|
    ensures UnderRecord(cfg, p, d) ==> d in s.apps[q].underSales
  {
    hide OwnedOnce, SysInv, HistInv, MessagesOk, WellFormed, UnderRecord, UnderList;
    Basics(cfg, s);
    Notified(cfg, s, q, 2);
    ReportIsExact(cfg, s, p, d);
    if UnderRecord(cfg, p, d) {
      ReportedIsListed(cfg, s, q, p, d);
    }
  }

  lemma ListIsDistinct(cfg: Config, s: Sys, q: nat)
    requires SysInv(cfg, s) && q < |s.apps|
    ensures DistinctIds(s.apps[q].underSales)
  {
    hide SysInv, HistInv, MessagesOk, WellFormed, MainOk, TableOk, TotalsOk, SentOk, PassesOn, Records;
    Basics(cfg, s);
    ProcessIs(cfg, s, q);
  }

  // ---- runs ----

  lemma {:induction false} RunKeepsSysInv(cfg: Config, s: Sys, trace: seq<SysStep>)
    requires SysInv(cfg, s) && SysWellFormed(cfg, s) && IsSysRun(cfg, s, trace)
    ensures SysInv(cfg, SysExec(cfg, s, trace))
    decreases |trace|
  {
    hide SysInv, SysWellFormed, SysEnabled, SysApply;
    if trace != [] {
      SysWellFormedAfter(cfg, s, trace[0]);
      StepKeepsSysInv(cfg, s, trace[0]);
      RunKeepsSysInv(cfg, SysApply(cfg, s, trace[0]), trace[1..]);
    }
  }

  lemma ReachableInv(cfg: Config, s: Sys)
    requires Reachable(cfg, s)
    ensures SysInv(cfg, s) && SysWellFormed(cfg, s)
  {
    hide SysInv, IsSysRun;
    var init, trace :| ReachedBy(cfg, init, trace, s);
    InitSysInv(cfg, init);
    RunKeepsSysInv(cfg, init, trace);
  }

  /** Order routing for any data: once all have left the first barrier, the tables together hold every order
      whose part is stored exactly once, at the process that stores its part and lies first on its way; an
      order whose part nobody stores is in no table. */
  lemma OrdersAreBookedOnce(cfg: Config, s: Sys)
    requires Reachable(cfg, s) && SysWellFormed(cfg, s)
    requires forall p :: 0 <= p < |s.apps| ==> 1 <= s.hist.ring.procs[p].finishIndex
    ensures forall q: nat, w: What :: q < |s.apps| && !w.Marks? ==> TableSum(s.apps[q].table, w) == Share(cfg, q, w, |cfg.parts|)
    ensures forall q: nat :: q < |s.apps| ==> DistinctIds(s.apps[q].table) && IdSet(s.apps[q].table) == BookedKeys(cfg, q)
    ensures forall w: What :: !w.Marks? ==>
      Together(s, w, |s.apps|) == WorthAll(Taken(Flatten(cfg.orders), StoredKeys(cfg)), w)
  {
    ReachableInv(cfg, s);
    hide Reachable, SysInv, TableSum, Share, Together, BookedKeys, DistinctIds, Taken, WorthAll, StoredKeys, Shares;
    forall q: nat | q < |s.apps|
      ensures forall w: What :: !w.Marks? ==> TableSum(s.apps[q].table, w) == Share(cfg, q, w, |cfg.parts|)
      ensures DistinctIds(s.apps[q].table) && IdSet(s.apps[q].table) == BookedKeys(cfg, q)
    {
      TableIsShare(cfg, s, q);
      TableIsBooked(cfg, s, q);
    }
    forall w: What | !w.Marks?
      ensures Together(s, w, |s.apps|) == WorthAll(Taken(Flatten(cfg.orders), StoredKeys(cfg)), w)
    {
      TablesAreShares(cfg, s, w, |s.apps|);
      SharesAreAll(cfg, w);
    }
  }

  /** The totals for any data: the sales are those of all orders if every ordered part is stored, by
      however many processes; the part count is right if and only if, besides, all orders of a part meet
      at one process. */
  lemma TotalsForAnyData(cfg: Config, s: Sys, q: nat)
    requires Reachable(cfg, s) && SysWellFormed(cfg, s) && q < |s.apps| && 2 <= s.hist.ring.procs[q].finishIndex
    ensures s.apps[q].totalSales == QuantitySum(Taken(Flatten(cfg.orders), StoredKeys(cfg)))
    ensures AllStored(cfg) ==> s.apps[q].totalSales == QuantitySum(Flatten(cfg.orders))
    ensures AllStored(cfg) ==> (s.apps[q].partCount == |OrderedKeys(cfg)| <==> MeetOnce(cfg, |cfg.parts|))
    ensures s.apps[q].partCount == Bookings(cfg, |cfg.parts|)
  {
    ReachableInv(cfg, s);
    hide Reachable, SysInv, AllStored, MeetOnce, Taken, StoredKeys, OrderedKeys;
    StoredAreTaken(cfg);
    TotalsOfAnyData(cfg, s, q);
  }

  /** Order routing: an order on its way is still short of the process that stores its part, and a
      process that has left the first barrier holds the sums over all orders of its parts. */
  lemma OrdersAreCountedOnce(cfg: Config, s: Sys, q: nat)
    requires OwnedOnce(cfg) && Reachable(cfg, s) && SysWellFormed(cfg, s) && q < |s.apps|
    ensures
      forall c, m: Msg<Body> :: InChan(s.hist.ring, c, m) && m.Data? && m.body.OrderMsg? && m.body.order.key in KeysAt(cfg, q)
        ==> c < |s.apps| && m.origin < |s.apps| && Dist(|s.apps|, m.origin, c) < Dist(|s.apps|, m.origin, q)
    ensures 1 <= s.hist.ring.procs[q].finishIndex ==>
      && DistinctIds(s.apps[q].table) && IdSet(s.apps[q].table) == OwnKeys(cfg, q)
      && forall d :: d in s.apps[q].table ==> d == FinalRecord(cfg, q, d.id)
  {
    ReachableInv(cfg, s);
    hide Reachable, SysInv, OwnedOnce, KeysAt, OwnKeys, OrderedKeys;
    Basics(cfg, s);
    forall c, m: Msg<Body> | InChan(s.hist.ring, c, m) && m.Data? && m.body.OrderMsg? && m.body.order.key in KeysAt(cfg, q)
      ensures c < |s.apps| && m.origin < |s.apps| && Dist(|s.apps|, m.origin, c) < Dist(|s.apps|, m.origin, q)
    {
      OrderIsShortOfOwner(cfg, s, c, m, q);
    }
    if 1 <= s.hist.ring.procs[q].finishIndex {
      TableIsComplete(cfg, s, q, q);
    }
  }

  /** Totals and under-sale parts: all processes agree, and on the right values. */
  lemma ReportsAgree(cfg: Config, s: Sys, q: nat)
    requires OwnedOnce(cfg) && Reachable(cfg, s) && SysWellFormed(cfg, s) && q < |s.apps|
    ensures 2 <= s.hist.ring.procs[q].finishIndex ==>
      s.apps[q].partCount == |OrderedKeys(cfg)| && s.apps[q].totalSales == QuantitySum(Flatten(cfg.orders))
    ensures 3 <= s.hist.ring.procs[q].finishIndex ==>
      && DistinctIds(s.apps[q].underSales)
      && forall d :: d in s.apps[q].underSales <==> exists p: nat :: p < |cfg.parts| && UnderRecord(cfg, p, d)
  {
    ReachableInv(cfg, s);
    hide Reachable, SysInv, OwnedOnce, UnderRecord, OrderedKeys;
    if 2 <= s.hist.ring.procs[q].finishIndex {
      TotalsAgree(cfg, s, q);
    }
    if 3 <= s.hist.ring.procs[q].finishIndex {
      ListsAreComplete(cfg, s, q);
    }
  }

  // ---- the whole calculation ----

  /** Total correctness: every run is finite, and one that cannot be continued has let every process
      through all barriers, with the ring empty and the right totals and the right list everywhere. */
  lemma MaximalRunReports(cfg: Config, s: Sys, q: nat)
    requires OwnedOnce(cfg) && Reachable(cfg, s) && SysWellFormed(cfg, s) && q < |s.apps|
    ensures forall init, trace :: ReachedBy(cfg, init, trace, s) ==> |trace| <= BaseTermination.StepBound(cfg)
    ensures BaseTermination.Stuck(cfg, s) ==>
      && |s.hist.ring.chans| == |s.apps| && s.hist.ring.procs[q].finishIndex == 3 && s.hist.ring.chans[q] == []
      && s.apps[q].partCount == |OrderedKeys(cfg)| && s.apps[q].totalSales == QuantitySum(Flatten(cfg.orders))
      && DistinctIds(s.apps[q].underSales)
      && forall d :: d in s.apps[q].underSales <==> exists p: nat :: p < |cfg.parts| && UnderRecord(cfg, p, d)
  {
    hide OwnedOnce, SysEnabled, UnderRecord, OrderedKeys, IsSysRun, AllStored, BaseTermination.StepBound;
    OwnedIsStored(cfg);
    forall init, trace | ReachedBy(cfg, init, trace, s) ensures |trace| <= BaseTermination.StepBound(cfg) {
      BaseTermination.EveryRunEnds(cfg, init, trace);
    }
    if BaseTermination.Stuck(cfg, s) {
      BaseTermination.StuckIsFinished(cfg, s, q);
      ReportsAgree(cfg, s, q);
    }
  }

  /** The same for the sales, for data in which every ordered part is stored by at least one process. */
  lemma MaximalRunTotals(cfg: Config, s: Sys, q: nat)
    requires AllStored(cfg) && Reachable(cfg, s) && SysWellFormed(cfg, s) && q < |s.apps|
    ensures forall init, trace :: ReachedBy(cfg, init, trace, s) ==> |trace| <= BaseTermination.StepBound(cfg)
    ensures BaseTermination.Stuck(cfg, s) ==>
      && s.apps[q].totalSales == QuantitySum(Flatten(cfg.orders))
      && (s.apps[q].partCount == |OrderedKeys(cfg)| <==> MeetOnce(cfg, |cfg.parts|))
  {
    hide AllStored, SysEnabled, OrderedKeys, IsSysRun, MeetOnce, BaseTermination.StepBound;
    forall init, trace | ReachedBy(cfg, init, trace, s) ensures |trace| <= BaseTermination.StepBound(cfg) {
      BaseTermination.EveryRunEnds(cfg, init, trace);
    }
    if BaseTermination.Stuck(cfg, s) {
      BaseTermination.StuckIsFinished(cfg, s, q);
      TotalsForAnyData(cfg, s, q);
    }
  }

  // ---- closing the connection ----

  /** What the last round means for the barrier. */
  lemma LastRound(cfg: Config, s: Sys)
    requires SysInv(cfg, s)
    ensures Inv(s.hist.ring) && |s.hist.ring.chans| == |s.hist.ring.procs| == |s.apps|
    ensures forall p :: 0 <= p < |s.apps| ==>
      s.hist.ring.procs[p].finishIndex <= 3 && (s.hist.ring.procs[p].finishIndex == 3 ==> !Inside(s.hist.ring.procs[p]))
  {
    hide SysInv, MessagesOk, IsUnder, WellFormed, KeysAt;
    Basics(cfg, s);
    forall p: nat | p < |s.apps|
      ensures s.hist.ring.procs[p].finishIndex <= 3 && (s.hist.ring.procs[p].finishIndex == 3 ==> !Inside(s.hist.ring.procs[p]))
    {
      ProcessIs(cfg, s, p);
    }
  }

  /** What a process that has left the last barrier does with the message it reads. */
  lemma LateMessage(cfg: Config, s: Sys, id: nat, m: Msg<Body>)
    requires m.Data? && SysWellFormed(cfg, s) && SysEnabled(cfg, s, Serve(id)) && m == Head(s.hist.ring, id)
    requires 3 <= s.hist.ring.procs[id].finishIndex && SysInv(cfg, s)
    ensures Handled(cfg, s, id, m.body).1 <==> m.body.OrderMsg?
    ensures m.body.OrderMsg? ==> !AllStored(cfg)
  {
    hide SysInv, HistInv, MessagesOk, WellFormed, KeysAt, MergeIn, Trail, Stored;
    Basics(cfg, s);
    ReadMessage(cfg, s, id);
    ReadsLate(cfg, s, id);
    HeadIsReadable(cfg, s, id);
  }

  /** What a step puts into the channel of its process. */
  ghost function Added(cfg: Config, s: Sys, step: SysStep): seq<Msg<Body>>
    requires SysWellFormed(cfg, s) && SysEnabled(cfg, s, step)
  {
    if MovesRing(cfg, s, step) then Joins(s.hist.ring, RingStep(cfg, s, step)) else []
  }

  lemma ChannelGrows(cfg: Config, s: Sys, step: SysStep)
    requires SysWellFormed(cfg, s) && SysEnabled(cfg, s, step) && |s.hist.ring.chans| == |s.apps|
    ensures |SysApply(cfg, s, step).hist.ring.chans| == |s.apps|
    ensures SysApply(cfg, s, step).hist.ring.chans[step.id] == s.hist.ring.chans[step.id] <==> Added(cfg, s, step) == []
  {
    hide Apply, Joins, WellFormed, MainAction, OnBody, Enabled;
    if MovesRing(cfg, s, step) {
      OwnChannelAfter(s.hist.ring, RingStep(cfg, s, step));
    }
  }

  lemma LateSteps(cfg: Config, s: Sys, step: SysStep)
    requires SysInv(cfg, s) && SysWellFormed(cfg, s) && SysEnabled(cfg, s, step)
    requires 3 <= s.hist.ring.procs[step.id].finishIndex
    ensures Added(cfg, s, step) == []
            <==> !(step.Serve? && Head(s.hist.ring, step.id).Data? && Head(s.hist.ring, step.id).body.OrderMsg?)
  {
    hide SysInv, WellFormed, Inv, KeysAt, OnBody, IsUnder, MergeIn;
    LastRound(cfg, s);
    if step.Serve? {
      if Head(s.hist.ring, step.id).Token? {
        BarrierTheorems.LateTokensAreIgnored(s.hist.ring, 3, step.id);
      } else {
        LateMessage(cfg, s, step.id, Head(s.hist.ring, step.id));
      }
    }
  }

  /** A process that has left the last barrier puts nothing more into its channel, so closing it loses
      nothing, except for orders whose part nobody stores: these it still sends on. */
  lemma ClosedProcessIsSilent(cfg: Config, s: Sys, step: SysStep)
    requires Reachable(cfg, s) && SysWellFormed(cfg, s) && SysEnabled(cfg, s, step)
    requires 3 <= s.hist.ring.procs[step.id].finishIndex
    ensures |SysApply(cfg, s, step).hist.ring.chans| == |s.hist.ring.chans| == |s.apps|
    ensures SysApply(cfg, s, step).hist.ring.chans[step.id] == s.hist.ring.chans[step.id]
            <==> !(step.Serve? && Head(s.hist.ring, step.id).Data? && Head(s.hist.ring, step.id).body.OrderMsg?)
    ensures AllStored(cfg) ==> SysApply(cfg, s, step).hist.ring.chans[step.id] == s.hist.ring.chans[step.id]
  {
    hide Reachable, SysInv, AllStored, WellFormed, Inv, SysApply, Added, Enabled, Handled, MainAction;
    ReachableInv(cfg, s);
    LastRound(cfg, s);
    ChannelGrows(cfg, s, step);
    LateSteps(cfg, s, step);
    if step.Serve? && Head(s.hist.ring, step.id).Data? {
      LateMessage(cfg, s, step.id, Head(s.hist.ring, step.id));
    }
  }
}
