/** What holds in every run of the advanced calculation, whatever the data: the part tables hold loaded
    parts, and the sales tables ordered parts, each once. */
module AdvancedFlow {
  import Sequences
  import opened Topology
  import opened Barrier
  import opened BarrierInvariant
  import opened BarrierSteps
  import opened History
  import opened Query
  import opened BrandTables
  import opened AdvancedCalculator
  import opened AdvancedRuns

  // ---- the invariant ----

  ghost function OrderKeys(cfg: Config): set<int> {
    set o | o in Sequences.Flatten(cfg.orders) :: o.key
  }

  function PartKeys(cfg: Config): set<int> {
    KeySet(Sequences.Flatten(cfg.parts))
  }

  ghost predicate SalesOk(cfg: Config, v: seq<PartData>) {
    DistinctIds(v) && IdSet(v) <= OrderKeys(cfg)
  }

  /** A received row has a key of its own. */
  ghost predicate RowsOk(cfg: Config, loaded: nat, parts: seq<Part>) {
    |parts| <= loaded + |KeySet(parts)| && KeySet(parts) <= PartKeys(cfg)
  }

  ghost predicate LoopsOk(cfg: Config, id: nat, p: Proc, a: App)
    requires Sized(cfg) && id < |cfg.parts|
  {
    var n, round := |cfg.parts|, p.finishIndex;
    && round <= n + 2 && (Inside(p) ==> round <= n + 1) && a.sub <= 2
    && (round == 0 ==> a.sub <= 1 && a.pos <= (if a.sub == 0 then 0 else a.size) && (a.sub == 1 ==> a.size <= |a.parts|))
    && (round == 1 ==> a.sub <= 1 && a.pos <= |cfg.orders[id]|)
    && (2 <= round <= n || round == n + 2 ==> a.pos <= |a.table|)
    && SalesOk(cfg, a.table) && RowsOk(cfg, |cfg.parts[id]|, a.parts)
  }

  /** A payload message. */
  ghost predicate Travels(cfg: Config, m: Msg<Body>)
    requires m.Data?
  {
    match m.body
    case PartMsg(part) => part.key in PartKeys(cfg)
    case DataMsg(d) => d.id in OrderKeys(cfg)
  }

  ghost predicate AllLoopsOk(cfg: Config, s: Sys)
    requires SysWellFormed(cfg, s)
  {
    forall i: nat :: i < |s.apps| ==> LoopsOk(cfg, i, s.hist.ring.procs[i], s.apps[i])
  }

  ghost predicate AllTravel(cfg: Config, s: Sys) {
    forall c: nat, m :: InChan(s.hist.ring, c, m) && m.Data? ==> Travels(cfg, m)
  }

  ghost predicate FlowInv(cfg: Config, s: Sys) {
    SysWellFormed(cfg, s) && Inv(s.hist.ring) && AllLoopsOk(cfg, s) && AllTravel(cfg, s)
  }

  lemma FlowBasics(cfg: Config, s: Sys)
    requires FlowInv(cfg, s)
    ensures SysWellFormed(cfg, s) && Inv(s.hist.ring) && |s.hist.ring.chans| == |s.apps|
  {
    hide AllLoopsOk, AllTravel;
    assert Sized(cfg) && WellFormed(s.hist.ring);
  }

  lemma FlowOf(cfg: Config, s: Sys, i: nat)
    requires FlowInv(cfg, s) && i < |s.apps|
    ensures SysWellFormed(cfg, s) && LoopsOk(cfg, i, s.hist.ring.procs[i], s.apps[i])
  {
    hide Inv, WellFormed, AllTravel, LoopsOk;
  }

  lemma TravelOf(cfg: Config, s: Sys, c: nat, m: Msg<Body>)
    requires FlowInv(cfg, s) && InChan(s.hist.ring, c, m) && m.Data?
    ensures Travels(cfg, m)
  {
    hide Inv, WellFormed, AllLoopsOk, Travels;
  }

  lemma LoadedRowsOk(cfg: Config, i: nat)
    requires i < |cfg.parts|
    ensures RowsOk(cfg, |cfg.parts[i]|, cfg.parts[i])
  {
    forall key | key in KeySet(cfg.parts[i]) ensures key in PartKeys(cfg) {
      var part :| part in cfg.parts[i] && part.key == key;
      Sequences.InFlatten(cfg.parts, i, part);
    }
  }

  lemma InitFlow(cfg: Config, s: Sys)
    requires SysInit(cfg, s)
    ensures FlowInv(cfg, s)
  {
    hide RowsOk, OrderKeys;
    InitInv(s.hist.ring);
    assert SysWellFormed(cfg, s);
    forall i: nat | i < |s.apps| ensures LoopsOk(cfg, i, s.hist.ring.procs[i], s.apps[i]) {
      assert s.apps[i] == InitApp(cfg, i) && s.hist.ring.procs[i] == INIT_PROC;
      LoadedRowsOk(cfg, i);
    }
  }

  // ---- every step keeps it ----

  lemma MergingKeepsSales(cfg: Config, v: seq<PartData>, d: PartData)
    requires SalesOk(cfg, v) && d.id in OrderKeys(cfg)
    ensures SalesOk(cfg, MergeIn(v, d)) && |v| <= |MergeIn(v, d)|
  {
    MergeInKeepsIds(v, d);
  }

  lemma ReceivingKeepsRows(cfg: Config, loaded: nat, parts: seq<Part>, part: Part)
    requires RowsOk(cfg, loaded, parts) && part.key in PartKeys(cfg) && part.key !in KeySet(parts)
    ensures RowsOk(cfg, loaded, parts + [part]) && KeySet(parts + [part]) == KeySet(parts) + {part.key}
  {
    var more := parts + [part];
    assert more[|parts|] == part && part in more;
    forall q | q in parts ensures q in more {
    }
    assert KeySet(more) == KeySet(parts) + {part.key};
  }

  lemma MainKeepsLoops(cfg: Config, id: nat, p: Proc, a: App)
    requires Sized(cfg) && id < |cfg.parts| && LoopsOk(cfg, id, p, a) && p.pc == Working
    ensures
      var action := MainAction(cfg, id, p.finishIndex, a);
      && (action.Compute? || action.SendBody? ==> LoopsOk(cfg, id, p, action.app))
      && (action.EnterBarrier? ==> LoopsOk(cfg, id, Entering(p), a))
  {
    hide SalesOk, RowsOk, Booking, MergeIn, IsUnder, After;
    if p.finishIndex == 1 && a.pos < |cfg.orders[id]| {
      var o := cfg.orders[id][a.pos];
      Sequences.InFlatten(cfg.orders, id, o);
      BookingKey(a.parts, o);
      MergingKeepsSales(cfg, a.table, Booking(a.parts, o));
    }
  }

  lemma BookingKey(parts: seq<Part>, o: Order)
    ensures Booking(parts, o).id == o.key
  {
  }

  lemma ServingKeepsLoops(cfg: Config, id: nat, p: Proc, a: App, m: Msg<Body>)
    requires Sized(cfg) && id < |cfg.parts| && LoopsOk(cfg, id, p, a) && m.Data? && Travels(cfg, m)
    ensures LoopsOk(cfg, id, p, OnBody(a, m.body).0)
  {
    hide SalesOk, RowsOk, MergeIn, KeySet, OrderKeys, PartKeys;
    match m.body
    case PartMsg(part) =>
      if part.key !in KeySet(a.parts) {
        ReceivingKeepsRows(cfg, |cfg.parts[id]|, a.parts, part);
      }
    case DataMsg(d) => MergingKeepsSales(cfg, a.table, d);
  }

  lemma StepKeepsLoops(cfg: Config, s: Sys, step: SysStep, s': Sys)
    requires FlowInv(cfg, s) && SysEnabled(cfg, s, step) && s' == SysApply(cfg, s, step) && SysWellFormed(cfg, s')
    ensures AllLoopsOk(cfg, s')
  {
    hide FlowInv, Inv, WellFormed, SalesOk, RowsOk, Travels, MainAction, OnBody, Added;
    FlowBasics(cfg, s);
    var id := step.id;
    var p, a := s.hist.ring.procs[id], s.apps[id];
    FlowOf(cfg, s, id);
    if step.Main? {
      MainKeepsLoops(cfg, id, p, a);
    } else if step.Serve? && Head(s.hist.ring, id).Data? {
      var u, m := Pred(|s.apps|, id), Head(s.hist.ring, id);
      assert InChan(s.hist.ring, u, m);
      TravelOf(cfg, s, u, m);
      ServingKeepsLoops(cfg, id, p, a, m);
    }
    forall i: nat | i < |s'.apps| ensures LoopsOk(cfg, i, s'.hist.ring.procs[i], s'.apps[i]) {
      FlowOf(cfg, s, i);
    }
  }

  lemma SentTravels(cfg: Config, id: nat, p: Proc, a: App)
    requires Sized(cfg) && id < |cfg.parts| && LoopsOk(cfg, id, p, a)
    requires MainAction(cfg, id, p.finishIndex, a).SendBody?
    ensures Travels(cfg, Data(id, p.finishIndex, MainAction(cfg, id, p.finishIndex, a).body))
  {
    hide DistinctIds, OrderKeys, PartKeys, After;
    if p.finishIndex == 0 {
      assert a.parts[a.pos] in a.parts && a.parts[a.pos].key in KeySet(a.parts);
    } else {
      assert a.table[a.pos] in a.table && a.table[a.pos].id in IdSet(a.table);
    }
  }

  lemma StepKeepsTravels(cfg: Config, s: Sys, step: SysStep, s': Sys)
    requires FlowInv(cfg, s) && SysEnabled(cfg, s, step) && s' == SysApply(cfg, s, step) && SysWellFormed(cfg, s')
    ensures AllTravel(cfg, s')
  {
    hide FlowInv, Inv, WellFormed, LoopsOk, MainAction, OnBody, Apply, OrderKeys, PartKeys;
    FlowBasics(cfg, s);
    var id := step.id;
    FlowOf(cfg, s, id);
    forall c: nat, m | InChan(s'.hist.ring, c, m) && m.Data? ensures Travels(cfg, m) {
      if InChan(s.hist.ring, c, m) {
        TravelOf(cfg, s, c, m);
      } else {
        MessagesAfter(s.hist.ring, RingStep(cfg, s, step), s'.hist.ring, c, m);
        if step.Main? {
          SentTravels(cfg, id, s.hist.ring.procs[id], s.apps[id]);
        } else {
          TravelOf(cfg, s, Pred(|s.apps|, id), Head(s.hist.ring, id));
        }
      }
    }
  }

  lemma StepKeepsRing(cfg: Config, s: Sys, step: SysStep)
    requires SysWellFormed(cfg, s) && Inv(s.hist.ring) && SysEnabled(cfg, s, step)
    ensures Inv(SysApply(cfg, s, step).hist.ring)
  {
    hide Inv, WellFormed, Apply;
    if MovesRing(cfg, s, step) {
      StepKeepsInv(s.hist.ring, RingStep(cfg, s, step));
    }
  }

  lemma StepKeepsFlow(cfg: Config, s: Sys, step: SysStep)
    requires FlowInv(cfg, s) && SysWellFormed(cfg, s) && SysEnabled(cfg, s, step)
    ensures FlowInv(cfg, SysApply(cfg, s, step))
  {
    hide SysEnabled, SysApply, Inv, AllLoopsOk, AllTravel;
    SysWellFormedAfter(cfg, s, step);
    StepKeepsRing(cfg, s, step);
    StepKeepsLoops(cfg, s, step, SysApply(cfg, s, step));
    StepKeepsTravels(cfg, s, step, SysApply(cfg, s, step));
  }

  lemma {:induction false} RunKeepsFlow(cfg: Config, s: Sys, trace: seq<SysStep>)
    requires FlowInv(cfg, s) && SysWellFormed(cfg, s) && IsSysRun(cfg, s, trace)
    ensures FlowInv(cfg, SysExec(cfg, s, trace))
    decreases |trace|
  {
    hide SysEnabled, SysApply, SysWellFormed, FlowInv;
    if trace != [] {
      StepKeepsFlow(cfg, s, trace[0]);
      SysWellFormedAfter(cfg, s, trace[0]);
      RunKeepsFlow(cfg, SysApply(cfg, s, trace[0]), trace[1..]);
    }
  }

  lemma ReachableFlow(cfg: Config, s: Sys)
    requires Reachable(cfg, s)
    ensures FlowInv(cfg, s)
  {
    hide FlowInv, SysWellFormed;
    var init, trace :| ReachedBy(cfg, init, trace, s);
    InitFlow(cfg, init);
    RunKeepsFlow(cfg, init, trace);
  }
}
