/** When the runs of the base calculation end. */
module BaseTermination {
  import opened Sequences
  import opened Topology
  import opened Barrier
  import opened BarrierInvariant
  import BarrierTheorems
  import opened BarrierTermination
  import opened History
  import opened RunMeasure
  import opened Query
  import opened BrandTables
  import opened SalesSums
  import opened BaseCalculator
  import opened BaseRuns
  import opened BaseFlow

  // ---- what is left of one process ----

  ghost function LoopLeft(cfg: Config, id: nat, round: nat, a: App): int
    requires Sized(cfg) && id < |cfg.parts|
  {
    if round == 0 then |cfg.orders[id]| - a.pos
    else if round == 1 then 4 - a.pos
    else if round == 2 then |OrderedKeys(cfg)| + 1 - a.pos - a.sub
    else 0
  }

  ghost function RoundBound(cfg: Config): nat {
    |Flatten(cfg.orders)| + |OrderedKeys(cfg)| + 10
  }

  /** A bound on the steps of the main thread and on the under-sale messages that can still be accepted. */
  ghost function MainLeft(cfg: Config, id: nat, p: Proc, a: App): int
    requires Sized(cfg) && id < |cfg.parts|
  {
    StepsLeft(3, RoundBound(cfg), p, LoopLeft(cfg, id, p.finishIndex, a)) + |OrderedKeys(cfg)| - |a.underSales|
  }

  lemma OrderedSize(cfg: Config, v: seq<PartData>)
    requires HoldsOrdered(cfg, v)
    ensures |v| <= |OrderedKeys(cfg)|
  {
    DistinctCount(v);
    SubsetSize(IdSet(v), OrderedKeys(cfg));
  }

  lemma LoopIsBounded(cfg: Config, id: nat, p: Proc, a: App)
    requires Sized(cfg) && id < |cfg.parts| && LoopsOk(cfg, id, p, a)
    ensures 0 <= LoopLeft(cfg, id, p.finishIndex, a) && LoopLeft(cfg, id, p.finishIndex, a) + 5 <= RoundBound(cfg)
    ensures |a.underSales| <= |OrderedKeys(cfg)|
  {
    OrderedSize(cfg, a.table);
    OrderedSize(cfg, a.underSales);
    FlattenLength(cfg.orders, id);
  }

  lemma MainLeftBounds(cfg: Config, id: nat, p: Proc, a: App)
    requires Sized(cfg) && id < |cfg.parts| && LoopsOk(cfg, id, p, a)
    ensures 0 <= MainLeft(cfg, id, p, a) <= 4 * RoundBound(cfg) + |OrderedKeys(cfg)|
  {
    LoopIsBounded(cfg, id, p, a);
    StepsLeftBounds(3, RoundBound(cfg), p, LoopLeft(cfg, id, p.finishIndex, a));
  }

  /** A statement that is not the barrier shortens the loops of its round. */
  lemma ActionShortens(cfg: Config, id: nat, p: Proc, a: App)
    requires Sized(cfg) && id < |cfg.parts| && LoopsOk(cfg, id, p, a) && p.pc == Working
    ensures
      var action := MainAction(cfg, id, p.finishIndex, a);
      action.Compute? || action.SendBody? ==> MainLeft(cfg, id, p, action.app) <= MainLeft(cfg, id, p, a) - 1
  {
    hide HoldsOrdered, IsUnder, KeysAt, OrderedKeys, MergeIn, Line, RoundBound;
  }

  /** What a server does with a message, to its process and to the work. */
  ghost predicate Shortens(n: nat, left: int, left': int, read: int, sent: int) {
    (left' <= left - 1 && sent - read <= 2 * n) || (left' <= left && sent - read <= -1)
  }

  // ---- the work in the channels ----

  function HopsOf(n: nat, c: nat, m: Msg<Body>): int {
    if m.Data? && m.body.UnderMsg? then 1 else HopsLeft(n, c, m)
  }

  function Weight(n: nat): (nat, Msg<Body>) -> int {
    (c: nat, m: Msg<Body>) => HopsOf(n, c, m)
  }

  lemma WeightIsPositive(cfg: Config, s: Sys, c: nat, m: Msg<Body>)
    requires FlowInv(cfg, s) && InChan(s.hist.ring, c, m)
    ensures 1 <= Weight(|s.apps|)(c, m)
  {
    hide FlowInv, Inv;
    FlowBasics(cfg, s);
    HopsLeftIsPositive(s.hist.ring, c, m);
  }

  /** An order does not come back to its creator. */
  lemma OrderDoesNotReturn(cfg: Config, id: nat, m: Msg<Body>)
    requires AllStored(cfg) && Sized(cfg) && id < |cfg.parts| && m.Data? && m.body.OrderMsg?
    requires Travels(cfg, Pred(|cfg.parts|, id), m)
    ensures m.origin != id
  {
    hide KeysAt, OrderedKeys;
    var i: nat :| i < |cfg.parts| && m.body.order.key in KeysAt(cfg, i);
    assert Dist(|cfg.parts|, id, i) <= Dist(|cfg.parts|, id, Pred(|cfg.parts|, id));
  }

  lemma ServingShortens(cfg: Config, id: nat, p: Proc, a: App, m: Msg<Body>)
    requires AllStored(cfg) && Sized(cfg) && id < |cfg.parts| && LoopsOk(cfg, id, p, a) && m.Data?
    requires Travels(cfg, Pred(|cfg.parts|, id), m)
    ensures
      var n, r := |cfg.parts|, OnBody(cfg.parts[id], KeysAt(cfg, id), Port(id), a, m.body);
      Shortens(n, MainLeft(cfg, id, p, a), MainLeft(cfg, id, p, r.0),
               HopsOf(n, Pred(n, id), m), if r.1 then HopsOf(n, id, SentOn(p, id, m)) else 0)
  {
    hide AllStored, HoldsOrdered, KeysAt, OrderedKeys, MergeIn, Line, HasId, StepsLeft, RoundBound;
    if m.body.OrderMsg? {
      OrderDoesNotReturn(cfg, id, m);
    }
    LoopIgnores(cfg, id, p, a, OnBody(cfg.parts[id], KeysAt(cfg, id), Port(id), a, m.body).0);
  }

  /** The server does not touch the loop counters. */
  lemma LoopIgnores(cfg: Config, id: nat, p: Proc, a: App, b: App)
    requires Sized(cfg) && id < |cfg.parts|
    ensures a.pos == b.pos && a.sub == b.sub ==> LoopLeft(cfg, id, p.finishIndex, b) == LoopLeft(cfg, id, p.finishIndex, a)
  {
  }

  // ---- every step shortens what is left ----

  ghost function MainsLeft(cfg: Config, s: Sys): seq<int>
    requires SysWellFormed(cfg, s)
  {
    seq(|s.apps|, i requires 0 <= i < |s.apps| => MainLeft(cfg, i, s.hist.ring.procs[i], s.apps[i]))
  }

  ghost function RingWork(s: Sys): int {
    Work(s.hist.ring, Weight(|s.apps|))
  }

  ghost function StepsAhead(cfg: Config, s: Sys): int
    requires SysWellFormed(cfg, s)
  {
    Potential(MainsLeft(cfg, s), RingWork(s))
  }

  lemma MainStepShortens(cfg: Config, s: Sys, step: SysStep, s': Sys)
    requires FlowInv(cfg, s) && SysWellFormed(cfg, s) && SysEnabled(cfg, s, step) && !step.Serve?
    requires s' == SysApply(cfg, s, step) && FlowInv(cfg, s') && SysWellFormed(cfg, s')
    ensures MainLeft(cfg, step.id, s'.hist.ring.procs[step.id], s'.apps[step.id]) <=
            MainLeft(cfg, step.id, s.hist.ring.procs[step.id], s.apps[step.id]) - 1
  {
    hide FlowInv, WellFormed, LoopsOk, LoopLeft, RoundBound, OrderedKeys, MainAction;
    var id := step.id;
    var p, a, p', a' := s.hist.ring.procs[id], s.apps[id], s'.hist.ring.procs[id], s'.apps[id];
    FlowOf(cfg, s, id);
    FlowOf(cfg, s', id);
    LoopIsBounded(cfg, id, p, a);
    LoopIsBounded(cfg, id, p', a');
    if step.Main? && !NextAction(cfg, s, id).EnterBarrier? {
      ActionShortens(cfg, id, p, a);
    } else {
      BarrierStepShortens(3, RoundBound(cfg), p, p', LoopLeft(cfg, id, p.finishIndex, a), LoopLeft(cfg, id, p'.finishIndex, a'));
    }
  }

  lemma MainStepWork(cfg: Config, s: Sys, step: SysStep, s': Sys)
    requires SysWellFormed(cfg, s) && Inv(s.hist.ring) && SysEnabled(cfg, s, step) && !step.Serve?
    requires s' == SysApply(cfg, s, step)
    ensures RingWork(s') <= RingWork(s) + 2 * |s.apps|
  {
    hide Inv, WellFormed, Work, MainAction, Apply;
    if MovesRing(cfg, s, step) {
      WorkAfter(s.hist.ring, RingStep(cfg, s, step), Weight(|s.apps|));
      if step.SendFinish? {
        SumZero(|s.apps|);
        SumUpdate(ZeroDigits(|s.apps|), step.id);
      }
    }
  }

  lemma TokenStepWork(cfg: Config, s: Sys, step: SysStep, s': Sys)
    requires SysWellFormed(cfg, s) && Inv(s.hist.ring) && SysEnabled(cfg, s, step) && step.Serve?
    requires Head(s.hist.ring, step.id).Token? && s' == SysApply(cfg, s, step)
    ensures RingWork(s') <= RingWork(s) - 1
    ensures MainLeft(cfg, step.id, s'.hist.ring.procs[step.id], s'.apps[step.id]) ==
            MainLeft(cfg, step.id, s.hist.ring.procs[step.id], s.apps[step.id])
  {
    hide Inv, Work, MainAction, RoundBound, OrderedKeys, LoopLeft;
    var n, id := |s.apps|, step.id;
    var u, h := Pred(n, id), Head(s.hist.ring, id);
    assert InChan(s.hist.ring, u, h) && WellFormedMsg(n, h);
    WorkAfter(s.hist.ring, RecvToken(id), Weight(n));
    HopsLeftIsPositive(s.hist.ring, u, h);
    SumUpdate(h.digits, id);
  }

  lemma DataStepShortens(cfg: Config, s: Sys, step: SysStep, s': Sys)
    requires AllStored(cfg) && FlowInv(cfg, s) && SysWellFormed(cfg, s) && SysEnabled(cfg, s, step) && step.Serve?
    requires Head(s.hist.ring, step.id).Data? && s' == SysApply(cfg, s, step)
    requires |s'.apps| == |s.apps| == |s'.hist.ring.procs|
    ensures
      Shortens(|s.apps|, MainLeft(cfg, step.id, s.hist.ring.procs[step.id], s.apps[step.id]),
               MainLeft(cfg, step.id, s'.hist.ring.procs[step.id], s'.apps[step.id]), RingWork(s), RingWork(s'))
  {
    hide AllStored, FlowInv, Inv, WellFormed, Work, HopsOf, MainLeft, OnBody, LoopsOk, Travels;
    var n, id := |s.apps|, step.id;
    var u, h := Pred(n, id), Head(s.hist.ring, id);
    assert InChan(s.hist.ring, u, h);
    FlowOf(cfg, s, id);
    TravelOf(cfg, s, u, h);
    ServingShortens(cfg, id, s.hist.ring.procs[id], s.apps[id], h);
    WorkAfter(s.hist.ring, RingStep(cfg, s, step), Weight(n));
  }

  lemma StepsAheadDecrease(cfg: Config, s: Sys, step: SysStep)
    requires AllStored(cfg) && FlowInv(cfg, s) && SysWellFormed(cfg, s) && SysEnabled(cfg, s, step)
    requires SysWellFormed(cfg, SysApply(cfg, s, step))
    ensures StepsAhead(cfg, SysApply(cfg, s, step)) <= StepsAhead(cfg, s) - 1
  {
    hide AllStored, FlowInv, Inv, MainLeft, RingWork;
    var s', id := SysApply(cfg, s, step), step.id;
    StepKeepsFlow(cfg, s, step);
    FlowBasics(cfg, s);
    if !step.Serve? {
      MainStepShortens(cfg, s, step, s');
      MainStepWork(cfg, s, step, s');
    } else if Head(s.hist.ring, id).Token? {
      TokenStepWork(cfg, s, step, s');
    } else {
      DataStepShortens(cfg, s, step, s');
    }
    OthersKeepLeft(cfg, s, step, s');
    PotentialDecreases(MainsLeft(cfg, s), id, MainLeft(cfg, id, s'.hist.ring.procs[id], s'.apps[id]), RingWork(s), RingWork(s'));
  }

  lemma OthersKeepLeft(cfg: Config, s: Sys, step: SysStep, s': Sys)
    requires SysWellFormed(cfg, s) && SysEnabled(cfg, s, step) && s' == SysApply(cfg, s, step) && SysWellFormed(cfg, s')
    ensures MainsLeft(cfg, s') == MainsLeft(cfg, s)[step.id := MainLeft(cfg, step.id, s'.hist.ring.procs[step.id], s'.apps[step.id])]
  {
    hide MainLeft, WellFormed, MainAction;
  }

  ghost function StepBound(cfg: Config): int
    requires Sized(cfg)
  {
    (2 * |cfg.parts| + 1) * (|cfg.parts| * (4 * RoundBound(cfg) + |OrderedKeys(cfg)|))
  }

  lemma StepsAheadBounds(cfg: Config, s: Sys)
    requires FlowInv(cfg, s) && SysWellFormed(cfg, s)
    ensures 0 <= RingWork(s) <= StepsAhead(cfg, s) <= StepBound(cfg) + RingWork(s)
  {
    hide FlowInv, Inv, WellFormed, WorkBelow, MainLeft, RoundBound, OrderedKeys, LoopsOk;
    var lefts, b := MainsLeft(cfg, s), 4 * RoundBound(cfg) + |OrderedKeys(cfg)|;
    forall i: nat | i < |lefts| ensures 0 <= lefts[i] <= b {
      FlowOf(cfg, s, i);
      MainLeftBounds(cfg, i, s.hist.ring.procs[i], s.apps[i]);
    }
    PotentialBounds(lefts, RingWork(s), b);
    forall c: nat, m | InChan(s.hist.ring, c, m) ensures 0 <= Weight(|s.apps|)(c, m) {
      WeightIsPositive(cfg, s, c, m);
    }
    WorkIsNonNegative(s.hist.ring, |s.hist.ring.chans|, Weight(|s.apps|));
  }

  lemma {:induction false} RunIsShort(cfg: Config, s: Sys, trace: seq<SysStep>)
    requires AllStored(cfg) && FlowInv(cfg, s) && SysWellFormed(cfg, s) && IsSysRun(cfg, s, trace)
    ensures |trace| <= StepsAhead(cfg, s)
    decreases |trace|
  {
    hide AllStored, FlowInv, SysWellFormed, SysEnabled, SysApply, StepsAhead;
    if trace == [] {
      StepsAheadBounds(cfg, s);
    } else {
      SysWellFormedAfter(cfg, s, trace[0]);
      StepKeepsFlow(cfg, s, trace[0]);
      StepsAheadDecrease(cfg, s, trace[0]);
      RunIsShort(cfg, SysApply(cfg, s, trace[0]), trace[1..]);
    }
  }

  /** If every ordered part is stored somewhere, no schedule runs for more than `StepBound` steps. */
  lemma EveryRunEnds(cfg: Config, init: Sys, trace: seq<SysStep>)
    requires AllStored(cfg) && SysInit(cfg, init) && SysWellFormed(cfg, init) && IsSysRun(cfg, init, trace)
    ensures |trace| <= StepBound(cfg)
  {
    hide AllStored, FlowInv, IsSysRun, StepsAhead, StepBound;
    InitFlow(cfg, init);
    RunIsShort(cfg, init, trace);
    StepsAheadBounds(cfg, init);
    InitialWork(init.hist.ring, |init.hist.ring.chans|, Weight(|init.apps|));
  }

  // ---- an order that nobody stores goes round for ever ----

  ghost predicate Homeless(cfg: Config, o: Order) {
    forall i: nat :: i < |cfg.parts| ==> o.key !in KeysAt(cfg, i)
  }

  ghost predicate Circulates(cfg: Config, s: Sys, c: nat) {
    exists m :: InChan(s.hist.ring, c, m) && m.Data? && m.body.OrderMsg? && Homeless(cfg, m.body.order)
  }

  /** The next process reads a message, and afterwards the order is still on its way. */
  lemma StillCirculates(cfg: Config, s: Sys, c: nat) returns (c': nat)
    requires SysWellFormed(cfg, s) && c < |s.apps| && Circulates(cfg, s, c)
    ensures SysEnabled(cfg, s, Serve(Succ(|s.apps|, c)))
    ensures c' < |s.apps| && Circulates(cfg, SysApply(cfg, s, Serve(Succ(|s.apps|, c))), c')
  {
    var n, id := |s.apps|, Succ(|s.apps|, c);
    var m :| InChan(s.hist.ring, c, m) && m.Data? && m.body.OrderMsg? && Homeless(cfg, m.body.order);
    hide KeysAt;
    var h, s' := Head(s.hist.ring, id), SysApply(cfg, s, Serve(id));
    assert Pred(n, id) == c && s.hist.ring.chans[c] == [h] + s.hist.ring.chans[c][1..];
    if h == m {
      c' := id;
      var m' := SentOn(s.hist.ring.procs[id], id, m);
      assert s'.hist.ring.chans[id] == s.hist.ring.chans[id] + [m'];
      assert InChan(s'.hist.ring, c', m') && m'.body == m.body;
    } else {
      c' := c;
      assert s'.hist.ring.chans[c] == s.hist.ring.chans[c][1..];
      assert InChan(s'.hist.ring, c', m);
    }
  }

  lemma {:induction false} RunsOn(cfg: Config, s: Sys, c: nat, k: nat) returns (trace: seq<SysStep>)
    requires SysWellFormed(cfg, s) && c < |s.apps| && Circulates(cfg, s, c)
    ensures IsSysRun(cfg, s, trace) && |trace| == k
    decreases k
  {
    hide SysEnabled, SysApply, WellFormed, Circulates;
    if k == 0 {
      trace := [];
    } else {
      var step := Serve(Succ(|s.apps|, c));
      var c' := StillCirculates(cfg, s, c);
      SysWellFormedAfter(cfg, s, step);
      var rest := RunsOn(cfg, SysApply(cfg, s, step), c', k - 1);
      trace := [step] + rest;
    }
  }

  /** The main thread of `p` deals with its rows up to the `j`-th. */
  lemma {:induction false} SetsOut(cfg: Config, s: Sys, p: nat, j: nat) returns (trace: seq<SysStep>)
    requires SysWellFormed(cfg, s) && p < |s.apps| && s.hist.ring.procs[p].pc == Working
    requires s.hist.ring.procs[p].finishIndex == 0 && s.apps[p].pos <= j < |cfg.orders[p]|
    requires Homeless(cfg, cfg.orders[p][j])
    ensures IsSysRun(cfg, s, trace) && p < |SysExec(cfg, s, trace).apps| && Circulates(cfg, SysExec(cfg, s, trace), p)
    decreases j - s.apps[p].pos
  {
    hide KeysAt, Counted, WellFormed;
    var s', pos := SysApply(cfg, s, Main(p)), s.apps[p].pos;
    SysWellFormedAfter(cfg, s, Main(p));
    trace := [Main(p)];
    assert trace[1..] == [] && IsSysRun(cfg, s', []);
    if pos == j {
      var m: Msg<Body> := Data(p, 0, OrderMsg(cfg.orders[p][j]));
      assert s'.hist.ring.chans[p] == s.hist.ring.chans[p] + [m];
      assert InChan(s'.hist.ring, p, m);
    } else {
      assert s'.apps[p].pos == pos + 1;
      var rest := SetsOut(cfg, s', p, j);
      assert ([Main(p)] + rest)[1..] == rest;
      trace := [Main(p)] + rest;
    }
  }

  /** If some ordered part is stored nowhere, there are runs of any length. */
  lemma EndlessRun(cfg: Config, k: nat)
    requires Sized(cfg) && !AllStored(cfg)
    ensures SysInit(cfg, Start(cfg)) && SysWellFormed(cfg, Start(cfg))
    ensures exists trace: seq<SysStep> :: IsSysRun(cfg, Start(cfg), trace) && k <= |trace|
  {
    hide SysEnabled, SysApply, WellFormed, KeysAt, Circulates;
    var key :| key in OrderedKeys(cfg) && !exists i: nat :: i < |cfg.parts| && key in KeysAt(cfg, i);
    var o :| o in Flatten(cfg.orders) && o.key == key;
    var p := FromFlatten(cfg.orders, o);
    var j: nat :| j < |cfg.orders[p]| && cfg.orders[p][j] == o;
    StartIsInitial(cfg);
    var out := SetsOut(cfg, Start(cfg), p, j);
    var on := RunsOn(cfg, SysExec(cfg, Start(cfg), out), p, k);
    RunConcat(cfg, Start(cfg), out, on);
    assert IsSysRun(cfg, Start(cfg), out + on) && k <= |out + on|;
  }

  ghost predicate BoundedBy(cfg: Config, b: nat) {
    forall init: Sys, trace: seq<SysStep> ::
      SysInit(cfg, init) && SysWellFormed(cfg, init) && IsSysRun(cfg, init, trace) ==> |trace| <= b
  }

  /** The runs of the base calculation are bounded if and only if every ordered part is stored by some
      process. */
  lemma RunsEndExactlyIfStored(cfg: Config)
    requires Sized(cfg)
    ensures (exists b: nat :: BoundedBy(cfg, b)) <==> AllStored(cfg)
  {
    hide AllStored, StepBound, SysInit, SysWellFormed;
    if AllStored(cfg) {
      forall init: Sys, trace: seq<SysStep> | SysInit(cfg, init) && SysWellFormed(cfg, init) && IsSysRun(cfg, init, trace)
        ensures |trace| <= StepBound(cfg)
      {
        EveryRunEnds(cfg, init, trace);
      }
      StartIsInitial(cfg);
      EveryRunEnds(cfg, Start(cfg), []);
      assert BoundedBy(cfg, StepBound(cfg));
    } else {
      forall b: nat ensures !BoundedBy(cfg, b) {
        EndlessRun(cfg, b + 1);
      }
    }
  }

  // ---- nothing is stuck ----

  ghost predicate Stuck(cfg: Config, s: Sys)
    requires SysWellFormed(cfg, s)
  {
    forall step :: !SysEnabled(cfg, s, step)
  }

  lemma StuckIsQuiet(cfg: Config, s: Sys)
    requires SysWellFormed(cfg, s) && Stuck(cfg, s)
    ensures BarrierTheorems.Quiet(s.hist.ring)
  {
    forall step: Step<Body> | BarrierTheorems.Internal(step) ensures !Enabled(s.hist.ring, step) {
      if step.id < |s.apps| {
        assert !SysEnabled(cfg, s, Serve(step.id)) && !SysEnabled(cfg, s, SendFinish(step.id));
        assert !SysEnabled(cfg, s, WakeUp(step.id)) && !SysEnabled(cfg, s, LeaveBarrier(step.id));
        assert !SysEnabled(cfg, s, MarkRound(step.id));
      }
    }
  }

  /** Whatever the data: a run that cannot be continued has let every process through all barriers and
      has emptied the ring. */
  lemma StuckIsFinished(cfg: Config, s: Sys, i: nat)
    requires Reachable(cfg, s) && SysWellFormed(cfg, s) && Stuck(cfg, s) && i < |s.apps|
    ensures |s.hist.ring.chans| == |s.apps| && s.hist.ring.procs[i].finishIndex == 3 && s.hist.ring.chans[i] == []
  {
    hide Reachable, FlowInv, Inv, WellFormed, HoldsOrdered;
    ReachableFlow(cfg, s);
    FlowBasics(cfg, s);
    StuckIsQuiet(cfg, s);
    forall j: nat | j < |s.apps|
      ensures s.hist.ring.procs[j].finishIndex <= 3
      ensures s.hist.ring.procs[j].pc == Working ==> s.hist.ring.procs[j].finishIndex == 3
      ensures Inside(s.hist.ring.procs[j]) ==> s.hist.ring.procs[j].finishIndex < 3
    {
      assert !SysEnabled(cfg, s, Main(j));
      FlowOf(cfg, s, j);
    }
    QuietIsFinished(s.hist.ring, 3, i);
  }
}
