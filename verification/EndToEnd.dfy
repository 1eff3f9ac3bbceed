/** The promises of the whole program. */
module EndToEnd {
  import opened Sequences
  import opened Barrier
  import BarrierInvariant
  import BarrierTermination
  import opened Query
  import opened FinalCompetition
  import opened FinalInvariant
  import FinalKeys
  import FinalAnswers
  import FinalRecords
  import opened FinalTermination

  // ---- runs ----

  ghost predicate IsSysRun(cfg: Config, s: Sys, trace: seq<SysStep>)
    requires SysInv(cfg, s)
    decreases |trace|
  {
    trace == [] || (SysEnabled(cfg, s, trace[0]) && (
      FinalAnswers.StepKeepsSysInv(cfg, s, trace[0]);
      IsSysRun(cfg, SysApply(cfg, s, trace[0]), trace[1..])))
  }

  ghost function SysExec(cfg: Config, s: Sys, trace: seq<SysStep>): (s': Sys)
    requires SysInv(cfg, s) && IsSysRun(cfg, s, trace)
    ensures SysInv(cfg, s')
    decreases |trace|
  {
    if trace == [] then s
    else
      FinalAnswers.StepKeepsSysInv(cfg, s, trace[0]);
      SysExec(cfg, SysApply(cfg, s, trace[0]), trace[1..])
  }

  /** `s` can be reached from the start of the program. */
  ghost predicate Reachable(cfg: Config, s: Sys) {
    exists init: Sys, trace: seq<SysStep> :: ReachedBy(cfg, init, trace, s)
  }

  ghost predicate ReachedBy(cfg: Config, init: Sys, trace: seq<SysStep>, s: Sys) {
    SysInit(cfg, init) && (InitSysInv(cfg, init); IsSysRun(cfg, init, trace) && s == SysExec(cfg, init, trace))
  }

  lemma ReachableInv(cfg: Config, s: Sys)
    requires Reachable(cfg, s)
    ensures SysInv(cfg, s)
  {
    var init, trace :| ReachedBy(cfg, init, trace, s);
    InitSysInv(cfg, init);
  }

  lemma {:induction false} RunKeepsRecords(cfg: Config, s: Sys, trace: seq<SysStep>)
    requires SysInv(cfg, s) && IsSysRun(cfg, s, trace) && FinalRecords.AllRecordsOk(cfg, s)
    ensures FinalRecords.AllRecordsOk(cfg, SysExec(cfg, s, trace))
    decreases |trace|
  {
    hide SysInv, SysEnabled, SysApply, FinalRecords.AllRecordsOk;
    if trace != [] {
      Basics(cfg, s);
      FinalAnswers.StepKeepsSysInv(cfg, s, trace[0]);
      FinalRecords.StepKeepsRecords(cfg, s, trace[0]);
      RunKeepsRecords(cfg, SysApply(cfg, s, trace[0]), trace[1..]);
    }
  }

  lemma ReachableRecords(cfg: Config, s: Sys)
    requires Reachable(cfg, s)
    ensures FinalRecords.AllRecordsOk(cfg, s)
  {
    hide SysInv, IsSysRun, SysExec, FinalRecords.AllRecordsOk, SysInit;
    var init, trace :| ReachedBy(cfg, init, trace, s);
    InitSysInv(cfg, init);
    Basics(cfg, init);
    FinalRecords.InitRecords(cfg, init);
    RunKeepsRecords(cfg, init, trace);
  }

  // ---- the sum around the ring is the sum over all ----

  ghost function OwnBetween(cfg: Config, lo: nat, hi: nat): real
    requires ValidConfig(cfg) && lo <= hi <= |cfg.parts|
    decreases hi - lo
  {
    if lo == hi then 0.0 else Own(cfg, lo) + OwnBetween(cfg, lo + 1, hi)
  }

  lemma {:induction false} OwnBetweenSplit(cfg: Config, lo: nat, mid: nat, hi: nat)
    requires ValidConfig(cfg) && lo <= mid <= hi <= |cfg.parts|
    ensures OwnBetween(cfg, lo, hi) == OwnBetween(cfg, lo, mid) + OwnBetween(cfg, mid, hi)
    decreases mid - lo
  {
    if lo < mid {
      OwnBetweenSplit(cfg, lo + 1, mid, hi);
    }
  }

  /** The first `d` processes after `selectIdx` are those below it and then, from the top, the others. */
  lemma {:induction false} ChainIsRange(cfg: Config, d: nat)
    requires ValidConfig(cfg) && d <= |cfg.parts|
    ensures
      var n, z := |cfg.parts|, cfg.selectIdx;
      Chain(cfg, d) == if d <= z then OwnBetween(cfg, z - d, z)
                       else OwnBetween(cfg, 0, z) + OwnBetween(cfg, n + z - d, n)
  {
    if d > 0 {
      ChainIsRange(cfg, d - 1);
    }
  }

  lemma {:induction false} OwnIsRevenue(cfg: Config, k: nat)
    requires ValidConfig(cfg) && k <= |cfg.parts|
    ensures OwnBetween(cfg, 0, k) == Revenue(Flatten(cfg.orders[..k]), AllKeys(cfg), AllOrders(cfg))
  {
    if k > 0 {
      OwnIsRevenue(cfg, k - 1);
      OwnBetweenSplit(cfg, 0, k - 1, k);
      assert OwnBetween(cfg, k - 1, k) == Own(cfg, k - 1) + OwnBetween(cfg, k, k);
      FlattenSnoc(cfg.orders, k);
      RevenueAppend(Flatten(cfg.orders[..k - 1]), cfg.orders[k - 1], AllKeys(cfg), AllOrders(cfg));
      SelectKeepsRevenue(cfg.orders[k - 1], AllKeys(cfg), AllOrders(cfg));
    }
  }

  /** The answers of all processes, summed in ring order, are the answer of one machine. */
  lemma ChainIsAnswer(cfg: Config)
    requires ValidConfig(cfg)
    ensures Chain(cfg, |cfg.parts|) == Answer(Flatten(cfg.parts), Flatten(cfg.orders), cfg.target)
  {
    var n, z := |cfg.parts|, cfg.selectIdx;
    ChainIsRange(cfg, n);
    OwnBetweenSplit(cfg, 0, z, n);
    OwnIsRevenue(cfg, n);
    assert cfg.orders[..n] == cfg.orders;
  }

  // ---- the theorems ----

  /** End-to-end refinement: when the selected process has left the last barrier its `underSales` is
      the answer that one machine holding all parts and all orders would give. */
  lemma SelectedProcessHasAnswer(cfg: Config, s: Sys)
    requires Reachable(cfg, s) && ValidConfig(cfg)
    requires |s.ring.procs| == |s.apps| == |cfg.parts|
    requires s.ring.procs[cfg.selectIdx].finishIndex == |cfg.parts| + 4
    ensures s.apps[cfg.selectIdx].underSales == Answer(Flatten(cfg.parts), Flatten(cfg.orders), cfg.target)
  {
    ReachableInv(cfg, s);
    var z := cfg.selectIdx;
    FinalKeys.AnswerArrives(cfg, s, z);
    assert AnswerOk(cfg, s, z);
    ChainIsAnswer(cfg);
  }

  /** The fall-through of `finalPart` never reaches the answer: from the end of round 3 until
      the predecessor's answer is read, `underSales` is exactly the revenue of the process's own orders;
      the process after `selectIdx`, to which nobody sends an answer, keeps it for good. */
  lemma PollutionIsErased(cfg: Config, s: Sys, q: nat)
    requires Reachable(cfg, s)
    requires SysWellFormed(cfg, s) && q < |s.apps| && BarrierInvariant.HasEntered(s.ring.procs[q], 3) && !AnswerMerged(cfg, s, q)
    ensures s.apps[q].underSales == Own(cfg, q)
  {
    ReachableInv(cfg, s);
    assert AnswerOk(cfg, s, q);
  }

  /** After `mergeData` every process has the same table, up to the order of its records: one record for
      each matching part of all processes, with the totals over the orders of all processes. */
  lemma AllTablesAgree(cfg: Config, s: Sys, q: nat)
    requires Reachable(cfg, s) && ValidConfig(cfg)
    requires |s.ring.procs| == |s.apps| && q < |s.apps| && s.ring.procs[q].finishIndex > 3
    ensures Distinct(s.apps[q].partData) && Ids(s.apps[q].partData) == AllKeys(cfg)
    ensures forall e :: e in s.apps[q].partData ==>
      && e.totalSale == OrderSum(AllOrders(cfg), e.partid, Sales)
      && e.orderCount == OrderSum(AllOrders(cfg), e.partid, Count)
  {
    hide SysInv, FinalRecords.AllRecordsOk, Reachable, Distinct;
    ReachableInv(cfg, s);
    ReachableRecords(cfg, s);
    FinalRecords.TablesHoldAllKeys(cfg, s, q);
    forall e | e in s.apps[q].partData
      ensures e.totalSale == OrderSum(AllOrders(cfg), e.partid, Sales)
      ensures e.orderCount == OrderSum(AllOrders(cfg), e.partid, Count)
    {
      assert e.partid in Ids(s.apps[q].partData);
      RecordIsSum(s.apps[q].partData, e, Sales);
      RecordIsSum(s.apps[q].partData, e, Count);
      FinalAnswers.MergedTablesAreTotals(cfg, s, q, e.partid, Sales);
      FinalAnswers.MergedTablesAreTotals(cfg, s, q, e.partid, Count);
    }
  }

  lemma RecordIsSum(v: seq<PartSale>, e: PartSale, f: Column)
    requires Distinct(v) && e in v
    ensures Amount(e, f) == Sum(v, e.partid, f)
  {
    LookupIsSum(v, e.partid, f);
    assert Position(v, e.partid) < |v|;
  }

  /** A process that is through its parts has a record of each matching one; until it merges, its table holds
      those, whether ordered or not, and the parts of the orders it has kept. */
  lemma OwnPartsAreRecorded(cfg: Config, s: Sys, u: nat)
    requires Reachable(cfg, s) && SysWellFormed(cfg, s) && u < |s.apps| && s.ring.procs[u].finishIndex >= 1
    ensures Keys(cfg.parts[u], cfg.target) <= Ids(s.apps[u].partData)
    ensures s.ring.procs[u].finishIndex <= 2 ==>
      Ids(s.apps[u].partData) == Keys(cfg.parts[u], cfg.target) + (set o | o in s.apps[u].orders :: o.key)
  {
    hide SysInv, Reachable;
    ReachableRecords(cfg, s);
    assert FinalRecords.RecordsOk(cfg, u, s.ring.procs[u].finishIndex, s.apps[u], s.ledger[u]);
  }

  /** The fall-through of `finalPart`: until the main thread resets it, `underSales` is the sum of the part
      ids of all records received from the other processes; at the reset, of all that these have sent. */
  lemma FallThroughPollutes(cfg: Config, s: Sys, q: nat)
    requires Reachable(cfg, s) && SysWellFormed(cfg, s) && q < |s.apps|
    requires s.ring.procs[q].finishIndex < 3 || (s.ring.procs[q].finishIndex == 3 && s.apps[q].sub == 0)
    ensures s.apps[q].underSales == FinalRecords.ReceivedIdSum(s.ledger[q], q, |s.apps|)
    ensures s.ring.procs[q].finishIndex == 3 ==> s.apps[q].underSales == FinalRecords.SentIdSum(s.ledger, q, |s.apps|)
  {
    hide SysInv, Reachable;
    ReachableInv(cfg, s);
    ReachableRecords(cfg, s);
    if s.ring.procs[q].finishIndex == 3 {
      FinalRecords.PollutionIsWhatWasSent(cfg, s, q, |s.apps|);
    }
  }

  lemma {:induction false} RunIsShort(cfg: Config, s: Sys, trace: seq<SysStep>)
    requires SysInv(cfg, s) && IsSysRun(cfg, s, trace)
    ensures |trace| <= StepsAhead(cfg, s)
    decreases |trace|
  {
    hide SysInv, SysEnabled, SysApply, StepsAhead;
    if trace == [] {
      StepsAheadBounds(cfg, s);
    } else {
      Basics(cfg, s);
      FinalAnswers.StepKeepsSysInv(cfg, s, trace[0]);
      StepsAheadDecrease(cfg, s, trace[0], SysApply(cfg, s, trace[0]));
      RunIsShort(cfg, SysApply(cfg, s, trace[0]), trace[1..]);
    }
  }

  /** Termination: no schedule runs for more than `StepBound` steps. */
  lemma EveryRunEnds(cfg: Config, init: Sys, trace: seq<SysStep>, s: Sys)
    requires ReachedBy(cfg, init, trace, s)
    ensures |trace| <= StepBound(cfg)
  {
    hide SysInv, SysEnabled, SysApply, StepsAhead, StepBound;
    InitSysInv(cfg, init);
    RunIsShort(cfg, init, trace);
    StepsAheadBounds(cfg, init);
    BarrierTermination.InitialWork(init.ring, |init.ring.chans|, Weight(|init.apps|));
  }

  /** Total correctness: a run that cannot be continued has let every process through all barriers,
      has emptied the ring, and leaves the answer at the selected process. */
  lemma MaximalRunAnswers(cfg: Config, s: Sys)
    requires Reachable(cfg, s) && SysWellFormed(cfg, s) && Stuck(cfg, s)
    ensures forall i :: 0 <= i < |s.apps| ==> s.ring.procs[i].finishIndex == |cfg.parts| + 4 && s.ring.chans[i] == []
    ensures s.apps[cfg.selectIdx].underSales == Answer(Flatten(cfg.parts), Flatten(cfg.orders), cfg.target)
  {
    ReachableInv(cfg, s);
    forall i | 0 <= i < |s.apps|
      ensures s.ring.procs[i].finishIndex == |cfg.parts| + 4 && s.ring.chans[i] == []
    {
      StuckIsFinished(cfg, s, i);
    }
    SelectedProcessHasAnswer(cfg, s);
  }
}
