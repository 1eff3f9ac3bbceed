/** What holds in every run of the base calculation, whatever the data: an order on its way has met only
    processes that do not store its part, and the tables and lists hold ordered parts, each once. */
module BaseFlow {
  import Sequences
  import opened Topology
  import opened Barrier
  import opened BarrierInvariant
  import opened BarrierSteps
  import opened History
  import opened Query
  import opened BrandTables
  import opened BaseCalculator
  import opened BaseRuns

  // ---- the invariant ----

  ghost predicate HoldsOrdered(cfg: Config, v: seq<PartData>) {
    DistinctIds(v) && IdSet(v) <= OrderedKeys(cfg)
  }

  ghost predicate LoopsOk(cfg: Config, id: nat, p: Proc, a: App)
    requires Sized(cfg) && id < |cfg.parts|
  {
    && p.finishIndex <= 3 && (Inside(p) ==> p.finishIndex <= 2)
    && (p.finishIndex == 0 ==> a.pos <= |cfg.orders[id]|)
    && (p.finishIndex == 1 ==> a.pos <= 4)
    && (p.finishIndex == 2 ==> a.sub <= 1 && a.pos <= |a.table|)
    && HoldsOrdered(cfg, a.table) && HoldsOrdered(cfg, a.underSales)
  }

  /** A payload message in channel `c`. */
  ghost predicate Travels(cfg: Config, c: nat, m: Msg<Body>)
    requires Sized(cfg) && m.Data?
  {
    var n := |cfg.parts|;
    && c < n && m.origin < n
    && match m.body
       case OrderMsg(o) =>
         && o.key in OrderedKeys(cfg)
         && forall w: nat :: w < n && Dist(n, m.origin, w) <= Dist(n, m.origin, c) ==> o.key !in KeysAt(cfg, w)
       case TotalMsg(from, _, _) => from == Port(m.origin)
       case UnderMsg(part) => part.id in OrderedKeys(cfg)
  }

  ghost predicate AllLoopsOk(cfg: Config, s: Sys)
    requires SysWellFormed(cfg, s)
  {
    forall i: nat :: i < |s.apps| ==> LoopsOk(cfg, i, s.hist.ring.procs[i], s.apps[i])
  }

  ghost predicate AllTravel(cfg: Config, s: Sys)
    requires SysWellFormed(cfg, s)
  {
    forall c: nat, m :: InChan(s.hist.ring, c, m) && m.Data? ==> Travels(cfg, c, m)
  }

  ghost predicate FlowInv(cfg: Config, s: Sys) {
    SysWellFormed(cfg, s) && Inv(s.hist.ring) && AllLoopsOk(cfg, s) && AllTravel(cfg, s)
  }

  lemma FlowBasics(cfg: Config, s: Sys)
    requires FlowInv(cfg, s)
    ensures SysWellFormed(cfg, s) && Inv(s.hist.ring) && |s.hist.ring.chans| == |s.apps|
  {
    hide AllLoopsOk, AllTravel;
    assert Sized(cfg) && WellFormed(s.hist.ring);
  }

  lemma FlowOf(cfg: Config, s: Sys, i: nat)
    requires FlowInv(cfg, s) && i < |s.apps|
    ensures SysWellFormed(cfg, s) && LoopsOk(cfg, i, s.hist.ring.procs[i], s.apps[i])
  {
    hide Inv, WellFormed, AllTravel, LoopsOk;
  }

  lemma TravelOf(cfg: Config, s: Sys, c: nat, m: Msg<Body>)
    requires FlowInv(cfg, s) && InChan(s.hist.ring, c, m) && m.Data?
    ensures SysWellFormed(cfg, s) && Travels(cfg, c, m)
  {
    hide Inv, WellFormed, AllLoopsOk, Travels;
  }

  lemma InitFlow(cfg: Config, s: Sys)
    requires SysInit(cfg, s)
    ensures FlowInv(cfg, s)
  {
    InitInv(s.hist.ring);
    assert SysWellFormed(cfg, s);
    forall i: nat | i < |s.apps| ensures LoopsOk(cfg, i, s.hist.ring.procs[i], s.apps[i]) {
      assert s.apps[i] == INIT_APP && s.hist.ring.procs[i] == INIT_PROC;
    }
  }

  // ---- every step keeps it ----

  lemma OrdersAreOrdered(cfg: Config, p: nat, o: Order)
    requires p < |cfg.orders| && o in cfg.orders[p]
    ensures o.key in OrderedKeys(cfg)
  {
    Sequences.InFlatten(cfg.orders, p, o);
  }

  lemma CountingKeepsOrdered(cfg: Config, parts: seq<Part>, a: App, o: Order)
    requires HoldsOrdered(cfg, a.table) && o.key in OrderedKeys(cfg)
    ensures HoldsOrdered(cfg, Counted(parts, a, o).table) && |a.table| <= |Counted(parts, a, o).table|
  {
    MergeInKeepsIds(a.table, Line(parts, o));
  }

  lemma ListingKeepsOrdered(cfg: Config, v: seq<PartData>, d: PartData)
    requires HoldsOrdered(cfg, v) && d.id in OrderedKeys(cfg) && !HasId(v, d.id)
    ensures HoldsOrdered(cfg, v + [d])
  {
    forall key | key in IdSet(v + [d]) ensures key in OrderedKeys(cfg) {
      var e :| e in v + [d] && e.id == key;
      assert e in v || e == d;
    }
  }

  lemma MainKeepsLoops(cfg: Config, id: nat, p: Proc, a: App)
    requires Sized(cfg) && id < |cfg.parts| && LoopsOk(cfg, id, p, a) && p.pc == Working
    ensures
      var action := MainAction(cfg, id, p.finishIndex, a);
      && (action.Compute? || action.SendBody? ==> LoopsOk(cfg, id, p, action.app))
      && (action.EnterBarrier? ==> LoopsOk(cfg, id, Entering(p), a))
  {
    hide HoldsOrdered, Line, MergeIn, IsUnder, KeysAt;
    if p.finishIndex == 0 && a.pos < |cfg.orders[id]| {
      var o := cfg.orders[id][a.pos];
      OrdersAreOrdered(cfg, id, o);
      CountingKeepsOrdered(cfg, cfg.parts[id], a, o);
    }
  }

  lemma ServingKeepsLoops(cfg: Config, id: nat, c: nat, p: Proc, a: App, m: Msg<Body>)
    requires Sized(cfg) && id < |cfg.parts| && LoopsOk(cfg, id, p, a) && m.Data? && Travels(cfg, c, m)
    ensures LoopsOk(cfg, id, p, OnBody(cfg.parts[id], KeysAt(cfg, id), Port(id), a, m.body).0)
  {
    hide HoldsOrdered, Line, MergeIn, KeysAt, HasId;
    match m.body
    case OrderMsg(o) => CountingKeepsOrdered(cfg, cfg.parts[id], a, o);
    case TotalMsg(_, _, _) =>
    case UnderMsg(part) =>
      if !HasId(a.underSales, part.id) {
        ListingKeepsOrdered(cfg, a.underSales, part);
      }
  }

  lemma StepKeepsLoops(cfg: Config, s: Sys, step: SysStep, s': Sys)
    requires FlowInv(cfg, s) && SysEnabled(cfg, s, step) && s' == SysApply(cfg, s, step) && SysWellFormed(cfg, s')
    ensures AllLoopsOk(cfg, s')
  {
    hide FlowInv, Inv, WellFormed, HoldsOrdered, Travels, MainAction, OnBody, Added;
    FlowBasics(cfg, s);
    var id := step.id;
    var p, a := s.hist.ring.procs[id], s.apps[id];
    FlowOf(cfg, s, id);
    if step.Main? {
      MainKeepsLoops(cfg, id, p, a);
    } else if step.Serve? && Head(s.hist.ring, id).Data? {
      var u, m := Pred(|s.apps|, id), Head(s.hist.ring, id);
      assert InChan(s.hist.ring, u, m);
      TravelOf(cfg, s, u, m);
      ServingKeepsLoops(cfg, id, u, p, a, m);
    }
    forall i: nat | i < |s'.apps| ensures LoopsOk(cfg, i, s'.hist.ring.procs[i], s'.apps[i]) {
      FlowOf(cfg, s, i);
    }
  }

  lemma SentTravels(cfg: Config, id: nat, p: Proc, a: App)
    requires Sized(cfg) && id < |cfg.parts| && LoopsOk(cfg, id, p, a)
    requires MainAction(cfg, id, p.finishIndex, a).SendBody?
    ensures Travels(cfg, id, Data(id, p.finishIndex, MainAction(cfg, id, p.finishIndex, a).body))
  {
    hide IsUnder, DistinctIds, KeysAt, OrderedKeys;
    if p.finishIndex == 0 {
      OrdersAreOrdered(cfg, id, cfg.orders[id][a.pos]);
    } else if p.finishIndex == 2 {
      assert a.table[a.pos] in a.table && a.table[a.pos].id in IdSet(a.table);
    }
  }

  lemma PassedTravels(cfg: Config, id: nat, p: Proc, a: App, m: Msg<Body>)
    requires Sized(cfg) && id < |cfg.parts| && m.Data? && Travels(cfg, Pred(|cfg.parts|, id), m)
    requires OnBody(cfg.parts[id], KeysAt(cfg, id), Port(id), a, m.body).1
    ensures Travels(cfg, id, SentOn(p, id, m))
  {
    hide KeysAt, OrderedKeys, HasId, Counted;
  }

  lemma StepKeepsTravels(cfg: Config, s: Sys, step: SysStep, s': Sys)
    requires FlowInv(cfg, s) && SysEnabled(cfg, s, step) && s' == SysApply(cfg, s, step) && SysWellFormed(cfg, s')
    ensures AllTravel(cfg, s')
  {
    hide FlowInv, Inv, WellFormed, LoopsOk, Travels, MainAction, OnBody, Apply;
    FlowBasics(cfg, s);
    var id := step.id;
    FlowOf(cfg, s, id);
    forall c: nat, m | InChan(s'.hist.ring, c, m) && m.Data? ensures Travels(cfg, c, m) {
      if InChan(s.hist.ring, c, m) {
        TravelOf(cfg, s, c, m);
      } else {
        MessagesAfter(s.hist.ring, RingStep(cfg, s, step), s'.hist.ring, c, m);
        if step.Main? {
          SentTravels(cfg, id, s.hist.ring.procs[id], s.apps[id]);
        } else {
          var h := Head(s.hist.ring, id);
          TravelOf(cfg, s, Pred(|s.apps|, id), h);
          PassedTravels(cfg, id, s.hist.ring.procs[id], s.apps[id], h);
        }
      }
    }
  }

  lemma StepKeepsRing(cfg: Config, s: Sys, step: SysStep)
    requires SysWellFormed(cfg, s) && Inv(s.hist.ring) && SysEnabled(cfg, s, step)
    ensures Inv(SysApply(cfg, s, step).hist.ring)
  {
    hide Inv, WellFormed, Apply;
    if MovesRing(cfg, s, step) {
      StepKeepsInv(s.hist.ring, RingStep(cfg, s, step));
    }
  }

  lemma StepKeepsFlow(cfg: Config, s: Sys, step: SysStep)
    requires FlowInv(cfg, s) && SysWellFormed(cfg, s) && SysEnabled(cfg, s, step)
    ensures FlowInv(cfg, SysApply(cfg, s, step))
  {
    hide SysEnabled, SysApply, Inv, AllLoopsOk, AllTravel;
    SysWellFormedAfter(cfg, s, step);
    StepKeepsRing(cfg, s, step);
    StepKeepsLoops(cfg, s, step, SysApply(cfg, s, step));
    StepKeepsTravels(cfg, s, step, SysApply(cfg, s, step));
  }

  lemma {:induction false} RunKeepsFlow(cfg: Config, s: Sys, trace: seq<SysStep>)
    requires FlowInv(cfg, s) && SysWellFormed(cfg, s) && IsSysRun(cfg, s, trace)
    ensures FlowInv(cfg, SysExec(cfg, s, trace))
    decreases |trace|
  {
    hide SysEnabled, SysApply, SysWellFormed, FlowInv;
    if trace != [] {
      StepKeepsFlow(cfg, s, trace[0]);
      SysWellFormedAfter(cfg, s, trace[0]);
      RunKeepsFlow(cfg, SysApply(cfg, s, trace[0]), trace[1..]);
    }
  }

  lemma ReachableFlow(cfg: Config, s: Sys)
    requires Reachable(cfg, s)
    ensures FlowInv(cfg, s)
  {
    hide FlowInv, SysWellFormed;
    var init, trace :| ReachedBy(cfg, init, trace, s);
    InitFlow(cfg, init);
    RunKeepsFlow(cfg, init, trace);
  }
}
