/** What the advanced calculation computes, in every run. */
module AdvancedTheorems {
  import opened Sequences
  import opened Topology
  import opened Barrier
  import BarrierInvariant
  import BarrierTheorems
  import opened History
  import opened Query
  import opened BrandTables
  import opened SalesSums
  import opened AdvancedCalculator
  import opened AdvancedRuns
  import opened AdvancedInvariant
  import opened AdvancedSteps
  import AdvancedTermination

  // ---- the part table ----

  lemma {:induction false} KeyCount(parts: seq<Part>)
    requires DistinctKeys(parts)
    ensures |KeySet(parts)| == |parts|
  {
    if parts != [] {
      KeyCount(parts[1..]);
      assert parts == [parts[0]] + parts[1..];
      assert KeySet(parts) == {parts[0].key} + KeySet(parts[1..]);
      forall e | e in parts[1..] ensures e.key != parts[0].key {
      }
    }
  }

  /** `setPartCount(reader.parts.size())` counts the rows of the whole part table. */
  lemma PartCountIsGlobal(cfg: Config, s: Sys, q: nat)
    requires ValidData(cfg) && SysInv(cfg, s) && q < |s.apps| && 2 <= s.hist.ring.procs[q].finishIndex
    ensures s.apps[q].partCount == |AllParts(cfg)|
  {
    hide SysInv, HistInv, MessagesOk, WellFormed, MainOk, PartsOk, FloodOk, TableOk, SentOk, FinalOk, KeySet, DistinctKeys;
    Basics(cfg, s);
    ProcessIs(cfg, s, q);
    KnowsLoaded(cfg, s, q);
    EveryPartIsKnown(cfg, s, q);
    KeyCount(s.apps[q].parts);
    KeyCount(AllParts(cfg));
  }

  // ---- the chain ----

  /** The worth of the orders of the first `k` processes after `selectIdx` in ring order. */
  ghost function ChainWorth(cfg: Config, k: nat, w: What): real
    requires Sized(cfg) && k <= |cfg.parts|
  {
    if k == 0 then 0.0 else ChainWorth(cfg, k - 1, w) + WorthAll(cfg.orders[After(|cfg.parts|, cfg.selectIdx, k)], w)
  }

  lemma {:induction false} WeighRecords(u: nat, stamp: nat, v: seq<PartData>, w: What)
    ensures Weigh(DataMsgs(u, stamp, v), RecordWorth(w)) == TableSum(v, w)
  {
    if v != [] {
      WeighRecords(u, stamp, v[1..], w);
    }
  }

  /** What `u` sends by the end of its turn is its whole table. */
  lemma SendsTable(cfg: Config, s: Sys, u: nat)
    requires SysInv(cfg, s) && u < |s.apps| && u != cfg.selectIdx && BarrierInvariant.HasEntered(s.hist.ring.procs[u], Turn(cfg, u))
    ensures Pick(s.hist.put[u], Records()) == DataMsgs(u, Turn(cfg, u), s.apps[u].table)
  {
    hide SysInv, HistInv, MessagesOk, WellFormed, Pick, PartsOk, FloodOk, TableOk, CountOk, FinalOk, DataMsgs, IsUnder;
    Basics(cfg, s);
    ProcessIs(cfg, s, u);
    TurnIsAfter(cfg, u);
    assert s.apps[u].table[..|s.apps[u].table|] == s.apps[u].table;
  }

  lemma TurnIsAfter(cfg: Config, u: nat)
    requires Sized(cfg) && u < |cfg.parts| && u != cfg.selectIdx
    ensures 2 <= Turn(cfg, u) <= |cfg.parts| && After(|cfg.parts|, cfg.selectIdx, Turn(cfg, u) - 1) == u
  {
  }

  /** The process after `selectIdx` receives no records. */
  lemma SelectSendsNothing(cfg: Config, s: Sys)
    requires SysInv(cfg, s)
    ensures cfg.selectIdx < |s.apps| && Pick(s.hist.put[cfg.selectIdx], Records()) == []
  {
    hide SysInv, HistInv, MessagesOk, WellFormed, Pick, PartsOk, FloodOk, TableOk, CountOk, FinalOk, MainOk;
    Basics(cfg, s);
    ProcessIs(cfg, s, cfg.selectIdx);
  }

  lemma ConcernsRecords(cfg: Config, s: Sys, u: nat)
    requires SysInv(cfg, s) && u < |s.apps|
    ensures Pick(s.hist.got[Succ(|s.apps|, u)], Records()) <= Pick(s.hist.put[u], Records())
  {
    hide SysInv, MessagesOk, WellFormed, Pick;
    Basics(cfg, s);
    ReceivedSoFar(s.hist, u, Records());
  }

  function StampedRecords(u: nat, r: nat): Msg<Body> -> bool {
    (m: Msg<Body>) => m.Data? && m.body.DataMsg? && m.origin == u && m.stamp <= r
  }

  lemma StampedAlike(cfg: Config, s: Sys, u: nat)
    requires SysInv(cfg, s) && u < |s.apps|
    ensures Pick(s.hist.put[u], StampedRecords(u, Turn(cfg, u))) == Pick(s.hist.put[u], Records())
    ensures Pick(s.hist.got[Succ(|s.apps|, u)], StampedRecords(u, Turn(cfg, u))) == Pick(s.hist.got[Succ(|s.apps|, u)], Records())
  {
    hide SysInv, HistInv, MessagesOk, WellFormed, Pick, Labelled, KeySet, AllParts, Turn;
    Basics(cfg, s);
    var v, keep := Succ(|s.apps|, u), StampedRecords(u, Turn(cfg, u));
    assert Pred(|s.apps|, v) == u;
    forall m | m in s.hist.put[u] ensures keep(m) <==> Records()(m) {
      SentMessage(cfg, s, u, m);
    }
    forall m | m in s.hist.got[v] ensures keep(m) <==> Records()(m) {
      GotMessage(cfg, s, v, m);
    }
    PickAlike(s.hist.put[u], keep, Records());
    PickAlike(s.hist.got[v], keep, Records());
  }

  /** When the successor of `u` has left the round of `u`'s turn it has merged the whole table of `u`. */
  lemma TableArrives(cfg: Config, s: Sys, u: nat)
    requires SysInv(cfg, s) && u < |s.apps| && u != cfg.selectIdx
    requires Turn(cfg, u) < s.hist.ring.procs[Succ(|s.apps|, u)].finishIndex
    ensures Pick(s.hist.got[Succ(|s.apps|, u)], Records()) == DataMsgs(u, Turn(cfg, u), s.apps[u].table)
  {
    hide SysInv, HistInv, MessagesOk, WellFormed, Pick, Turn, DataMsgs;
    Basics(cfg, s);
    var v := Succ(|s.apps|, u);
    NotifiedIs(cfg, s, v, Turn(cfg, u));
    SendsTable(cfg, s, u);
    StampedAlike(cfg, s, u);
    Delivered(s.hist, v, Turn(cfg, u), u, u, StampedRecords(u, Turn(cfg, u)));
  }

  /** The tally of a process whose predecessor's turn is over: the orders of all processes up to it. */
  lemma {:induction false} ChainIs(cfg: Config, s: Sys, u: nat, w: What)
    requires SysInv(cfg, s) && u < |s.apps| && Turn(cfg, u) <= s.hist.ring.procs[u].finishIndex
    ensures !w.Marks? ==> TableSum(s.apps[u].table, w) == ChainWorth(cfg, Place(cfg, u), w)
    ensures w.Marks? ==> (w.key in IdSet(s.apps[u].table) <==> 0.0 < ChainWorth(cfg, Place(cfg, u), w))
    ensures w.Marks? ==> 0.0 <= ChainWorth(cfg, Place(cfg, u), w)
    decreases if cfg.selectIdx < |cfg.parts| && u < |cfg.parts| then Place(cfg, u) else 0
  {
    hide SysInv, HistInv, MessagesOk, WellFormed, Pick, DataMsgs, Turn, WorthAll, Weigh, MainAction;
    Basics(cfg, s);
    PlaceBefore(cfg, u);
    TallyIs(cfg, s, u, w);
    var v := Pred(|s.apps|, u);
    if w.Marks? {
      WorthNonNegative(cfg.orders[u], w.key);
    }
    if Place(cfg, u) == 1 {
      SelectSendsNothing(cfg, s);
      ConcernsRecords(cfg, s, cfg.selectIdx);
      assert ChainWorth(cfg, 0, w) == 0.0;
      NoWeight(w);
    } else {
      NotifiedIs(cfg, s, u, Turn(cfg, v));
      TableArrives(cfg, s, v);
      Caught(cfg, s, v);
      ChainIs(cfg, s, v, w);
      WeighRecords(v, Turn(cfg, v), s.apps[v].table, w);
      MarksOfTable(s.apps[v].table, w);
    }
  }

  lemma NoWeight(w: What)
    ensures Weigh([], RecordWorth(w)) == 0.0
  {
  }

  /** A process that has entered the barrier of a round has left the rounds before. */
  lemma Caught(cfg: Config, s: Sys, v: nat)
    requires SysInv(cfg, s) && v < |s.apps|
    ensures forall r: nat :: BarrierInvariant.HasEntered(s.hist.ring.procs[v], r) ==> r <= s.hist.ring.procs[v].finishIndex
  {
  }

  lemma {:induction false} MarksOfTable(v: seq<PartData>, w: What)
    ensures w.Marks? ==> 0.0 <= TableSum(v, w) && (0.0 < TableSum(v, w) <==> w.key in IdSet(v))
  {
    if v != [] {
      MarksOfTable(v[1..], w);
      assert v == [v[0]] + v[1..];
      assert IdSet(v) == {v[0].id} + IdSet(v[1..]);
    }
  }

  lemma PlaceBefore(cfg: Config, u: nat)
    requires Sized(cfg) && u < |cfg.parts|
    ensures
      var v := Pred(|cfg.parts|, u);
      && Succ(|cfg.parts|, v) == u && 1 <= Place(cfg, u) <= |cfg.parts| && After(|cfg.parts|, cfg.selectIdx, Place(cfg, u)) == u
      && Turn(cfg, u) == Place(cfg, u) + 1 && (Place(cfg, u) == 1 ==> v == cfg.selectIdx)
      && (Place(cfg, u) > 1 ==> v != cfg.selectIdx && Place(cfg, v) == Place(cfg, u) - 1 && Turn(cfg, v) == Turn(cfg, u) - 1)
  {
  }

  /** After round 1 a table holds the process's own orders and what it has merged. */
  lemma TallyIs(cfg: Config, s: Sys, u: nat, w: What)
    requires SysInv(cfg, s) && u < |s.apps| && 2 <= s.hist.ring.procs[u].finishIndex
    ensures
      var tally := WorthAll(cfg.orders[u], w) + Weigh(Pick(s.hist.got[u], Records()), RecordWorth(w));
      && (!w.Marks? ==> TableSum(s.apps[u].table, w) == tally)
      && (w.Marks? ==> (w.key in IdSet(s.apps[u].table) <==> 0.0 < tally))
  {
    hide SysInv, HistInv, MessagesOk, WellFormed, Pick, PartsOk, FloodOk, SentOk, CountOk, FinalOk, MainOk, WorthAll, Weigh, Labelled;
    Basics(cfg, s);
    ProcessIs(cfg, s, u);
    TallyOf(cfg, u, s.hist.ring.procs[u].finishIndex, s.apps[u], s.hist.got[u], w);
  }

  lemma TallyOf(cfg: Config, u: nat, round: nat, a: App, got: seq<Msg<Body>>, w: What)
    requires u < |cfg.parts| == |cfg.orders| && TableOk(cfg, u, round, a, got) && 2 <= round
    ensures
      var tally := WorthAll(cfg.orders[u], w) + Weigh(Pick(got, Records()), RecordWorth(w));
      && (!w.Marks? ==> TableSum(a.table, w) == tally)
      && (w.Marks? ==> (w.key in IdSet(a.table) <==> 0.0 < tally))
  {
    hide WorthAll, Weigh, Labelled, Pick;
    assert w.Marks? ==> w == Marks(w.key);
  }

  // ---- the sum around the ring ----

  ghost function RowsBetween(cfg: Config, lo: nat, hi: nat, w: What): real
    requires lo <= hi <= |cfg.orders|
    decreases hi - lo
  {
    if lo == hi then 0.0 else WorthAll(cfg.orders[lo], w) + RowsBetween(cfg, lo + 1, hi, w)
  }

  lemma {:induction false} RowsBetweenSplit(cfg: Config, lo: nat, mid: nat, hi: nat, w: What)
    requires lo <= mid <= hi <= |cfg.orders|
    ensures RowsBetween(cfg, lo, hi, w) == RowsBetween(cfg, lo, mid, w) + RowsBetween(cfg, mid, hi, w)
    decreases mid - lo
  {
    if lo < mid {
      RowsBetweenSplit(cfg, lo + 1, mid, hi, w);
    }
  }

  lemma {:induction false} ChainIsRange(cfg: Config, k: nat, w: What)
    requires Sized(cfg) && k <= |cfg.parts|
    ensures
      var n, z := |cfg.parts|, cfg.selectIdx;
      ChainWorth(cfg, k, w) == if k <= z then RowsBetween(cfg, z - k, z, w)
                               else RowsBetween(cfg, 0, z, w) + RowsBetween(cfg, n + z - k, n, w)
  {
    if k > 0 {
      ChainIsRange(cfg, k - 1, w);
    }
  }

  lemma {:induction false} RowsAreAll(cfg: Config, k: nat, w: What)
    requires k <= |cfg.orders|
    ensures RowsBetween(cfg, 0, k, w) == WorthAll(Flatten(cfg.orders[..k]), w)
  {
    if k > 0 {
      RowsAreAll(cfg, k - 1, w);
      RowsBetweenSplit(cfg, 0, k - 1, k, w);
      assert RowsBetween(cfg, k - 1, k, w) == WorthAll(cfg.orders[k - 1], w) + RowsBetween(cfg, k, k, w);
      FlattenSnoc(cfg.orders, k);
      WorthConcat(Flatten(cfg.orders[..k - 1]), cfg.orders[k - 1], w);
    }
  }

  lemma ChainIsAll(cfg: Config, w: What)
    requires Sized(cfg)
    ensures ChainWorth(cfg, |cfg.parts|, w) == WorthAll(Flatten(cfg.orders), w)
  {
    hide WorthAll;
    var n, z := |cfg.parts|, cfg.selectIdx;
    ChainIsRange(cfg, n, w);
    RowsBetweenSplit(cfg, 0, z, n, w);
    RowsAreAll(cfg, n, w);
    assert cfg.orders[..n] == cfg.orders;
  }

  // ---- the result ----

  ghost predicate IsOrdered(cfg: Config, key: int) {
    exists o :: o in Flatten(cfg.orders) && o.key == key
  }

  lemma {:induction false} MarksOfOrders(l: seq<Order>, key: int)
    ensures 0.0 < WorthAll(l, Marks(key)) <==> exists o :: o in l && o.key == key
    ensures 0.0 <= WorthAll(l, Marks(key))
  {
    if l != [] {
      MarksOfOrders(l[1..], key);
      assert l == [l[0]] + l[1..];
      assert l[0] in l;
    }
  }

  /** The sums of the whole are in the table of the selected process when it has left the last round of
      the chain. */
  lemma SelectedTable(cfg: Config, s: Sys)
    requires ValidData(cfg) && SysInv(cfg, s) && cfg.selectIdx < |s.hist.ring.procs|
    requires |cfg.parts| < s.hist.ring.procs[cfg.selectIdx].finishIndex
    ensures cfg.selectIdx < |s.apps| && DistinctIds(s.apps[cfg.selectIdx].table)
    ensures forall key :: key in IdSet(s.apps[cfg.selectIdx].table) <==> IsOrdered(cfg, key)
    ensures forall d :: d in s.apps[cfg.selectIdx].table ==> d == SalesRecord(AllParts(cfg), Flatten(cfg.orders), d.id)
    ensures TableSum(s.apps[cfg.selectIdx].table, Everything) == WorthAll(Flatten(cfg.orders), Everything)
  {
    hide ValidData, SysInv, HistInv, MessagesOk, WellFormed, AllParts, WorthAll, TableSum, ChainWorth;
    Basics(cfg, s);
    var z, v, all := cfg.selectIdx, s.apps[cfg.selectIdx].table, Flatten(cfg.orders);
    TableFacts(cfg, s, z);
    ChainIs(cfg, s, z, Everything);
    ChainIsAll(cfg, Everything);
    forall key ensures key in IdSet(v) <==> IsOrdered(cfg, key) {
      ChainIs(cfg, s, z, Marks(key));
      ChainIsAll(cfg, Marks(key));
      MarksOfOrders(all, key);
    }
    forall d | d in v ensures d == SalesRecord(AllParts(cfg), all, d.id) {
      ChainIs(cfg, s, z, Quantities(d.id));
      ChainIs(cfg, s, z, Revenues(d.id));
      ChainIsAll(cfg, Quantities(d.id));
      ChainIsAll(cfg, Revenues(d.id));
      RecordsFromSums(v, AllParts(cfg), all, d);
    }
  }

  lemma TableFacts(cfg: Config, s: Sys, u: nat)
    requires SysInv(cfg, s) && u < |s.apps|
    ensures DistinctIds(s.apps[u].table) && forall d :: d in s.apps[u].table ==> Labelled(AllParts(cfg), d)
  {
    hide SysInv, HistInv, MessagesOk, WellFormed, PartsOk, FloodOk, SentOk, CountOk, FinalOk, MainOk, Tally, AllParts, Labelled;
    Basics(cfg, s);
    ProcessIs(cfg, s, u);
  }

  lemma {:induction false} SaleSumIsTableSum(v: seq<PartData>)
    ensures SaleSum(v) as real == TableSum(v, Everything)
  {
    if v != [] {
      var init, last := v[..|v| - 1], v[|v| - 1];
      SaleSumIsTableSum(init);
      TableSumConcat(init, [last], Everything);
      OneTableSum(last, Everything);
      assert v == init + [last];
    }
  }

  lemma FinalLoops(cfg: Config, s: Sys)
    requires SysInv(cfg, s) && cfg.selectIdx < |s.apps|
    requires s.hist.ring.procs[cfg.selectIdx].finishIndex == |cfg.parts| + 2
    ensures s.apps[cfg.selectIdx].pos <= |s.apps[cfg.selectIdx].table| && Summed(s.apps[cfg.selectIdx])
  {
    hide SysInv, HistInv, MessagesOk, WellFormed, PartsOk, FloodOk, SentOk, CountOk, TableOk, IsUnder, Summed;
    Basics(cfg, s);
    ProcessIs(cfg, s, cfg.selectIdx);
  }

  /** The under-sale list of the result. */
  ghost predicate UnderRecord(cfg: Config, d: PartData) {
    && IsOrdered(cfg, d.id) && d == SalesRecord(AllParts(cfg), Flatten(cfg.orders), d.id)
    && UnderSold(Flatten(cfg.orders), |AllParts(cfg)|, d.id)
  }

  lemma ResultIsExact(cfg: Config, s: Sys)
    requires ValidData(cfg) && SysInv(cfg, s) && cfg.selectIdx < |s.apps|
    requires s.hist.ring.procs[cfg.selectIdx].finishIndex == |cfg.parts| + 2 && s.apps[cfg.selectIdx].sub == 2
    requires s.apps[cfg.selectIdx].pos == |s.apps[cfg.selectIdx].table|
    ensures s.apps[cfg.selectIdx].totalSales == QuantitySum(Flatten(cfg.orders))
    ensures DistinctIds(s.apps[cfg.selectIdx].underSales)
    ensures forall d :: d in s.apps[cfg.selectIdx].underSales <==> UnderRecord(cfg, d)
  {
    hide ValidData, SysInv, HistInv, MessagesOk, WellFormed, AllParts, WorthAll, TableSum, IsUnder, UnderSold, IsOrdered, UnderList;
    Basics(cfg, s);
    var a, all := s.apps[cfg.selectIdx], Flatten(cfg.orders);
    SelectedTable(cfg, s);
    PartCountIsGlobal(cfg, s, cfg.selectIdx);
    FinalLoops(cfg, s);
    SaleSumIsTableSum(a.table);
    EverythingIsQuantity(all);
    assert a.table[..a.pos] == a.table;
    UnderListIsDistinct(a.table, (a.totalSales, a.partCount));
    forall d ensures d in a.underSales <==> UnderRecord(cfg, d) {
      if d in a.table {
        assert d.id in IdSet(a.table);
        OrderedIsPart(cfg, d.id);
        UnderIsUnderSold(all, |AllParts(cfg)|, d);
      } else if IsOrdered(cfg, d.id) {
        assert d.id in IdSet(a.table);
        var e :| e in a.table && e.id == d.id;
      }
    }
  }

  lemma OrderedIsPart(cfg: Config, key: int)
    requires ValidData(cfg) && IsOrdered(cfg, key)
    ensures 0 < |AllParts(cfg)|
  {
    var o :| o in Flatten(cfg.orders) && o.key == key;
    assert o.key in KeySet(AllParts(cfg));
  }

  // ---- runs ----

  lemma {:induction false} RunKeepsSysInv(cfg: Config, s: Sys, trace: seq<SysStep>)
    requires ValidData(cfg) && SysInv(cfg, s) && SysWellFormed(cfg, s) && IsSysRun(cfg, s, trace)
    ensures SysInv(cfg, SysExec(cfg, s, trace))
    decreases |trace|
  {
    hide ValidData, SysInv, SysWellFormed, SysEnabled, SysApply;
    if trace != [] {
      SysWellFormedAfter(cfg, s, trace[0]);
      StepKeepsSysInv(cfg, s, trace[0]);
      RunKeepsSysInv(cfg, SysApply(cfg, s, trace[0]), trace[1..]);
    }
  }

  lemma ReachableInv(cfg: Config, s: Sys)
    requires ValidData(cfg) && Reachable(cfg, s)
    ensures SysInv(cfg, s) && SysWellFormed(cfg, s)
  {
    hide ValidData, SysInv, IsSysRun;
    var init, trace :| ReachedBy(cfg, init, trace, s);
    InitSysInv(cfg, init);
    RunKeepsSysInv(cfg, init, trace);
  }

  /** The part table is everywhere when a process has left the first barrier. */
  lemma PartsAreEverywhere(cfg: Config, s: Sys, q: nat)
    requires ValidData(cfg) && Reachable(cfg, s) && SysWellFormed(cfg, s) && q < |s.apps|
    requires 1 <= s.hist.ring.procs[q].finishIndex
    ensures KeySet(s.apps[q].parts) == KeySet(AllParts(cfg)) && DistinctKeys(s.apps[q].parts)
    ensures forall part :: part in s.apps[q].parts ==> part in AllParts(cfg)
    ensures 2 <= s.hist.ring.procs[q].finishIndex ==> s.apps[q].partCount == |AllParts(cfg)|
  {
    ReachableInv(cfg, s);
    hide Reachable, SysInv, ValidData, KeySet, DistinctKeys, AllParts;
    EveryPartIsKnown(cfg, s, q);
    KnowsLoaded(cfg, s, q);
    if 2 <= s.hist.ring.procs[q].finishIndex {
      PartCountIsGlobal(cfg, s, q);
    }
  }

  /** Advanced calculator correctness: behind the last barrier the selected process has the sums over all
      orders of every ordered part, and at its end it lists exactly the parts below 0.3 of the average. */
  lemma SelectedProcessReports(cfg: Config, s: Sys)
    requires ValidData(cfg) && Reachable(cfg, s) && SysWellFormed(cfg, s)
    requires s.hist.ring.procs[cfg.selectIdx].finishIndex == |cfg.parts| + 2
    ensures
      var a := s.apps[cfg.selectIdx];
      && DistinctIds(a.table) && (forall key :: key in IdSet(a.table) <==> IsOrdered(cfg, key))
      && (forall d :: d in a.table ==> d == SalesRecord(AllParts(cfg), Flatten(cfg.orders), d.id))
      && (MainAction(cfg, cfg.selectIdx, |cfg.parts| + 2, a).Finished? ==>
            && a.totalSales == QuantitySum(Flatten(cfg.orders)) && DistinctIds(a.underSales)
            && forall d :: d in a.underSales <==> UnderRecord(cfg, d))
  {
    ReachableInv(cfg, s);
    hide Reachable, SysInv, ValidData, AllParts, UnderRecord, IsOrdered, IsUnder, MergeIn, Booking;
    SelectedTable(cfg, s);
    FinalLoops(cfg, s);
    if MainAction(cfg, cfg.selectIdx, |cfg.parts| + 2, s.apps[cfg.selectIdx]).Finished? {
      ResultIsExact(cfg, s);
    }
  }

  /** Total correctness: every run is finite, and one that cannot be continued has let every process
      through all barriers, with the ring empty and the exact result at the selected process. */
  lemma MaximalRunReports(cfg: Config, s: Sys, q: nat)
    requires ValidData(cfg) && Reachable(cfg, s) && SysWellFormed(cfg, s) && q < |s.apps|
    ensures forall init, trace :: ReachedBy(cfg, init, trace, s) ==> |trace| <= AdvancedTermination.StepBound(cfg)
    ensures AdvancedTermination.Stuck(cfg, s) ==>
      var a := s.apps[cfg.selectIdx];
      && |s.hist.ring.chans| == |s.apps| && s.hist.ring.procs[q].finishIndex == |cfg.parts| + 2 && s.hist.ring.chans[q] == []
      && a.totalSales == QuantitySum(Flatten(cfg.orders)) && DistinctIds(a.underSales)
      && forall d :: d in a.underSales <==> UnderRecord(cfg, d)
  {
    hide ValidData, SysEnabled, UnderRecord, IsSysRun, AllParts, IsUnder, AdvancedTermination.StepBound;
    forall init, trace | ReachedBy(cfg, init, trace, s) ensures |trace| <= AdvancedTermination.StepBound(cfg) {
      AdvancedTermination.EveryRunEnds(cfg, init, trace);
    }
    if AdvancedTermination.Stuck(cfg, s) {
      AdvancedTermination.StuckIsFinished(cfg, s, q);
      AdvancedTermination.StuckIsFinished(cfg, s, cfg.selectIdx);
      SelectedProcessReports(cfg, s);
    }
  }

  // ---- closing the connection ----

  lemma LastRound(cfg: Config, s: Sys)
    requires SysInv(cfg, s)
    ensures BarrierInvariant.Inv(s.hist.ring) && |s.hist.ring.chans| == |s.hist.ring.procs| == |s.apps| == |cfg.parts|
    ensures forall p :: 0 <= p < |s.apps| ==>
      && s.hist.ring.procs[p].finishIndex <= |cfg.parts| + 2
      && (s.hist.ring.procs[p].finishIndex == |cfg.parts| + 2 ==> !Inside(s.hist.ring.procs[p]))
  {
    hide SysInv, MessagesOk, IsUnder, WellFormed, KeySet;
    Basics(cfg, s);
    RingInv(s.hist);
    forall p: nat | p < |s.apps|
      ensures s.hist.ring.procs[p].finishIndex <= |cfg.parts| + 2
      ensures s.hist.ring.procs[p].finishIndex == |cfg.parts| + 2 ==> !Inside(s.hist.ring.procs[p])
    {
      ProcessIs(cfg, s, p);
    }
  }

  lemma LateMessage(cfg: Config, s: Sys, id: nat)
    requires SysInv(cfg, s) && SysEnabled(cfg, s, Serve(id)) && |cfg.parts| + 2 <= s.hist.ring.procs[id].finishIndex
    requires Head(s.hist.ring, id).Data?
    ensures !OnBody(s.apps[id], Head(s.hist.ring, id).body).1
  {
    hide SysInv, HistInv, MessagesOk, WellFormed, MergeIn, KeySet, AllParts, Labelled;
    Basics(cfg, s);
    HeadIsReadable(cfg, s, id);
  }

  /** A process that has left the last barrier puts nothing more into its channel, so closing it loses
      nothing. */
  lemma ClosedProcessIsSilent(cfg: Config, s: Sys, step: SysStep)
    requires ValidData(cfg) && Reachable(cfg, s) && SysWellFormed(cfg, s) && SysEnabled(cfg, s, step)
    requires |cfg.parts| + 2 <= s.hist.ring.procs[step.id].finishIndex
    ensures |SysApply(cfg, s, step).hist.ring.chans| == |s.hist.ring.chans| == |s.apps|
    ensures SysApply(cfg, s, step).hist.ring.chans[step.id] == s.hist.ring.chans[step.id]
  {
    hide Reachable, ValidData, SysInv, WellFormed, BarrierInvariant.Inv, Apply, OnBody, IsUnder, Joins;
    ReachableInv(cfg, s);
    LastRound(cfg, s);
    if MovesRing(cfg, s, step) {
      OwnChannelAfter(s.hist.ring, RingStep(cfg, s, step));
      NothingJoins(cfg, s, step);
    }
  }

  lemma NothingJoins(cfg: Config, s: Sys, step: SysStep)
    requires SysInv(cfg, s) && SysWellFormed(cfg, s) && SysEnabled(cfg, s, step) && MovesRing(cfg, s, step)
    requires |cfg.parts| + 2 <= s.hist.ring.procs[step.id].finishIndex
    ensures Joins(s.hist.ring, RingStep(cfg, s, step)) == []
  {
    hide SysInv, WellFormed, BarrierInvariant.Inv, OnBody, IsUnder, KeySet, Booked;
    LastRound(cfg, s);
    if step.Serve? {
      if Head(s.hist.ring, step.id).Token? {
        BarrierTheorems.LateTokensAreIgnored(s.hist.ring, |cfg.parts| + 2, step.id);
      } else {
        LateMessage(cfg, s, step.id);
      }
    }
  }
}
