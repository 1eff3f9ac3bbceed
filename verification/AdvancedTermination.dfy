/** Every run of the advanced calculation ends. */
module AdvancedTermination {
  import opened Sequences
  import opened Topology
  import opened Barrier
  import opened BarrierInvariant
  import BarrierTheorems
  import opened BarrierTermination
  import opened History
  import opened RunMeasure
  import opened Query
  import opened BrandTables
  import opened SalesSums
  import opened AdvancedCalculator
  import opened AdvancedRuns
  import opened AdvancedFlow

  // ---- what is left of one process ----

  /** No part table gets longer. */
  ghost function RowBound(cfg: Config): nat {
    |Flatten(cfg.parts)| + |PartKeys(cfg)|
  }

  ghost function LoopLeft(cfg: Config, id: nat, round: nat, a: App): int
    requires Sized(cfg) && id < |cfg.parts|
  {
    var n, k := |cfg.parts|, |OrderKeys(cfg)|;
    if round == 0 then RowBound(cfg) + 1 - a.pos - a.sub
    else if round == 1 then |cfg.orders[id]| + 1 - a.pos - a.sub
    else if round <= n then k - a.pos
    else if round == n + 1 then 0
    else if a.sub == 0 then 2 * k + 2
    else if a.sub == 1 then 2 * k + 1 - a.pos
    else k - a.pos
  }

  ghost function RoundBound(cfg: Config): nat {
    RowBound(cfg) + |Flatten(cfg.orders)| + 2 * |OrderKeys(cfg)| + 10
  }

  ghost function Rounds(cfg: Config): nat {
    |cfg.parts| + 2
  }

  /** A bound on the steps of the main thread and on the parts that can still be accepted. */
  ghost function MainLeft(cfg: Config, id: nat, p: Proc, a: App): int
    requires Sized(cfg) && id < |cfg.parts|
  {
    StepsLeft(Rounds(cfg), RoundBound(cfg), p, LoopLeft(cfg, id, p.finishIndex, a)) + |PartKeys(cfg)| - |KeySet(a.parts)|
  }

  lemma LoopIsBounded(cfg: Config, id: nat, p: Proc, a: App)
    requires Sized(cfg) && id < |cfg.parts| && LoopsOk(cfg, id, p, a)
    ensures 0 <= LoopLeft(cfg, id, p.finishIndex, a) && LoopLeft(cfg, id, p.finishIndex, a) + 5 <= RoundBound(cfg)
    ensures |KeySet(a.parts)| <= |PartKeys(cfg)| && |a.table| <= |OrderKeys(cfg)|
  {
    hide PartKeys, OrderKeys, KeySet;
    DistinctCount(a.table);
    SubsetSize(IdSet(a.table), OrderKeys(cfg));
    SubsetSize(KeySet(a.parts), PartKeys(cfg));
    FlattenLength(cfg.parts, id);
    FlattenLength(cfg.orders, id);
  }

  lemma MainLeftBounds(cfg: Config, id: nat, p: Proc, a: App)
    requires Sized(cfg) && id < |cfg.parts| && LoopsOk(cfg, id, p, a)
    ensures 0 <= MainLeft(cfg, id, p, a) <= (Rounds(cfg) + 1) * RoundBound(cfg) + |PartKeys(cfg)|
  {
    LoopIsBounded(cfg, id, p, a);
    hide PartKeys, KeySet, RoundBound, StepsLeft, LoopLeft;
    StepsLeftBounds(Rounds(cfg), RoundBound(cfg), p, LoopLeft(cfg, id, p.finishIndex, a));
  }

  /** A statement that is not the barrier shortens the loops of its round. */
  lemma ActionShortensLoop(cfg: Config, id: nat, p: Proc, a: App)
    requires Sized(cfg) && id < |cfg.parts| && LoopsOk(cfg, id, p, a)
    ensures
      var action := MainAction(cfg, id, p.finishIndex, a);
      action.Compute? || action.SendBody? ==>
        LoopLeft(cfg, id, p.finishIndex, action.app) <= LoopLeft(cfg, id, p.finishIndex, a) - 1 && action.app.parts == a.parts
  {
    LoopIsBounded(cfg, id, p, a);
    hide IsUnder, PartKeys, OrderKeys, KeySet, MergeIn, Booking, After, RowBound, DistinctIds, RoundBound;
  }

  lemma ActionShortens(cfg: Config, id: nat, p: Proc, a: App)
    requires Sized(cfg) && id < |cfg.parts| && LoopsOk(cfg, id, p, a) && p.pc == Working
    ensures
      var action := MainAction(cfg, id, p.finishIndex, a);
      action.Compute? || action.SendBody? ==> MainLeft(cfg, id, p, action.app) <= MainLeft(cfg, id, p, a) - 1
  {
    hide MainAction, LoopLeft, LoopsOk, PartKeys, KeySet, RoundBound;
    ActionShortensLoop(cfg, id, p, a);
  }

  // ---- the work in the channels ----

  ghost predicate Shortens(n: nat, left: int, left': int, read: int, sent: int) {
    (left' <= left - 1 && sent - read <= 2 * n) || (left' <= left && sent - read <= -1)
  }

  function HopsOf(n: nat, c: nat, m: Msg<Body>): int {
    if m.Data? then 1 else HopsLeft(n, c, m)
  }

  function Weight(n: nat): (nat, Msg<Body>) -> int {
    (c: nat, m: Msg<Body>) => HopsOf(n, c, m)
  }

  lemma WeightIsPositive(cfg: Config, s: Sys, c: nat, m: Msg<Body>)
    requires FlowInv(cfg, s) && InChan(s.hist.ring, c, m)
    ensures 1 <= Weight(|s.apps|)(c, m)
  {
    hide FlowInv, Inv;
    FlowBasics(cfg, s);
    HopsLeftIsPositive(s.hist.ring, c, m);
  }

  lemma ServingShortens(cfg: Config, id: nat, p: Proc, a: App, m: Msg<Body>)
    requires Sized(cfg) && id < |cfg.parts| && LoopsOk(cfg, id, p, a) && m.Data? && Travels(cfg, m)
    ensures
      var n, r := |cfg.parts|, OnBody(a, m.body);
      Shortens(n, MainLeft(cfg, id, p, a), MainLeft(cfg, id, p, r.0),
               HopsOf(n, Pred(n, id), m), if r.1 then HopsOf(n, id, SentOn(p, id, m)) else 0)
  {
    hide SalesOk, PartKeys, OrderKeys, MergeIn, KeySet, StepsLeft, RoundBound;
    LoopIgnores(cfg, id, p, a, OnBody(a, m.body).0);
    if m.body.PartMsg? && m.body.part.key !in KeySet(a.parts) {
      ReceivingKeepsRows(cfg, |cfg.parts[id]|, a.parts, m.body.part);
    }
  }

  /** The server does not touch the loop counters. */
  lemma LoopIgnores(cfg: Config, id: nat, p: Proc, a: App, b: App)
    requires Sized(cfg) && id < |cfg.parts|
    ensures a.pos == b.pos && a.sub == b.sub ==> LoopLeft(cfg, id, p.finishIndex, b) == LoopLeft(cfg, id, p.finishIndex, a)
  {
  }

  // ---- every step shortens what is left ----

  ghost function MainsLeft(cfg: Config, s: Sys): seq<int>
    requires SysWellFormed(cfg, s)
  {
    seq(|s.apps|, i requires 0 <= i < |s.apps| => MainLeft(cfg, i, s.hist.ring.procs[i], s.apps[i]))
  }

  ghost function RingWork(s: Sys): int {
    Work(s.hist.ring, Weight(|s.apps|))
  }

  ghost function StepsAhead(cfg: Config, s: Sys): int
    requires SysWellFormed(cfg, s)
  {
    Potential(MainsLeft(cfg, s), RingWork(s))
  }

  lemma MainStepShortens(cfg: Config, s: Sys, step: SysStep, s': Sys)
    requires FlowInv(cfg, s) && SysWellFormed(cfg, s) && SysEnabled(cfg, s, step) && !step.Serve?
    requires s' == SysApply(cfg, s, step) && FlowInv(cfg, s') && SysWellFormed(cfg, s')
    ensures MainLeft(cfg, step.id, s'.hist.ring.procs[step.id], s'.apps[step.id]) <=
            MainLeft(cfg, step.id, s.hist.ring.procs[step.id], s.apps[step.id]) - 1
  {
    hide FlowInv, WellFormed, LoopsOk, LoopLeft, RoundBound, PartKeys, KeySet, MainAction;
    var id := step.id;
    var p, a, p', a' := s.hist.ring.procs[id], s.apps[id], s'.hist.ring.procs[id], s'.apps[id];
    FlowOf(cfg, s, id);
    FlowOf(cfg, s', id);
    LoopIsBounded(cfg, id, p, a);
    LoopIsBounded(cfg, id, p', a');
    if step.Main? && !NextAction(cfg, s, id).EnterBarrier? {
      ActionShortens(cfg, id, p, a);
    } else {
      BarrierStepShortens(Rounds(cfg), RoundBound(cfg), p, p', LoopLeft(cfg, id, p.finishIndex, a),
                          LoopLeft(cfg, id, p'.finishIndex, a'));
    }
  }

  lemma MainStepWork(cfg: Config, s: Sys, step: SysStep, s': Sys)
    requires SysWellFormed(cfg, s) && Inv(s.hist.ring) && SysEnabled(cfg, s, step) && !step.Serve?
    requires s' == SysApply(cfg, s, step)
    ensures RingWork(s') <= RingWork(s) + 2 * |s.apps|
  {
    hide Inv, WellFormed, Work, MainAction, Apply;
    if MovesRing(cfg, s, step) {
      WorkAfter(s.hist.ring, RingStep(cfg, s, step), Weight(|s.apps|));
      if step.SendFinish? {
        SumZero(|s.apps|);
        SumUpdate(ZeroDigits(|s.apps|), step.id);
      }
    }
  }

  lemma TokenStepWork(cfg: Config, s: Sys, step: SysStep, s': Sys)
    requires SysWellFormed(cfg, s) && Inv(s.hist.ring) && SysEnabled(cfg, s, step) && step.Serve?
    requires Head(s.hist.ring, step.id).Token? && s' == SysApply(cfg, s, step)
    ensures RingWork(s') <= RingWork(s) - 1
    ensures MainLeft(cfg, step.id, s'.hist.ring.procs[step.id], s'.apps[step.id]) ==
            MainLeft(cfg, step.id, s.hist.ring.procs[step.id], s.apps[step.id])
  {
    hide Inv, Work, MainAction, RoundBound, PartKeys, KeySet, LoopLeft;
    var n, id := |s.apps|, step.id;
    var u, h := Pred(n, id), Head(s.hist.ring, id);
    assert InChan(s.hist.ring, u, h) && WellFormedMsg(n, h);
    WorkAfter(s.hist.ring, RecvToken(id), Weight(n));
    HopsLeftIsPositive(s.hist.ring, u, h);
    SumUpdate(h.digits, id);
  }

  lemma DataStepShortens(cfg: Config, s: Sys, step: SysStep, s': Sys)
    requires FlowInv(cfg, s) && SysWellFormed(cfg, s) && SysEnabled(cfg, s, step) && step.Serve?
    requires Head(s.hist.ring, step.id).Data? && s' == SysApply(cfg, s, step)
    requires |s'.apps| == |s.apps| == |s'.hist.ring.procs|
    ensures
      Shortens(|s.apps|, MainLeft(cfg, step.id, s.hist.ring.procs[step.id], s.apps[step.id]),
               MainLeft(cfg, step.id, s'.hist.ring.procs[step.id], s'.apps[step.id]), RingWork(s), RingWork(s'))
  {
    hide FlowInv, Inv, WellFormed, Work, HopsOf, MainLeft, OnBody, LoopsOk, Travels;
    var n, id := |s.apps|, step.id;
    var u, h := Pred(n, id), Head(s.hist.ring, id);
    assert InChan(s.hist.ring, u, h);
    FlowOf(cfg, s, id);
    TravelOf(cfg, s, u, h);
    ServingShortens(cfg, id, s.hist.ring.procs[id], s.apps[id], h);
    WorkAfter(s.hist.ring, RingStep(cfg, s, step), Weight(n));
  }

  lemma StepsAheadDecrease(cfg: Config, s: Sys, step: SysStep)
    requires FlowInv(cfg, s) && SysWellFormed(cfg, s) && SysEnabled(cfg, s, step)
    requires SysWellFormed(cfg, SysApply(cfg, s, step))
    ensures StepsAhead(cfg, SysApply(cfg, s, step)) <= StepsAhead(cfg, s) - 1
  {
    hide FlowInv, Inv, MainLeft, RingWork;
    var s', id := SysApply(cfg, s, step), step.id;
    StepKeepsFlow(cfg, s, step);
    FlowBasics(cfg, s);
    if !step.Serve? {
      MainStepShortens(cfg, s, step, s');
      MainStepWork(cfg, s, step, s');
    } else if Head(s.hist.ring, id).Token? {
      TokenStepWork(cfg, s, step, s');
    } else {
      DataStepShortens(cfg, s, step, s');
    }
    OthersKeepLeft(cfg, s, step, s');
    PotentialDecreases(MainsLeft(cfg, s), id, MainLeft(cfg, id, s'.hist.ring.procs[id], s'.apps[id]), RingWork(s), RingWork(s'));
  }

  lemma OthersKeepLeft(cfg: Config, s: Sys, step: SysStep, s': Sys)
    requires SysWellFormed(cfg, s) && SysEnabled(cfg, s, step) && s' == SysApply(cfg, s, step) && SysWellFormed(cfg, s')
    ensures MainsLeft(cfg, s') == MainsLeft(cfg, s)[step.id := MainLeft(cfg, step.id, s'.hist.ring.procs[step.id], s'.apps[step.id])]
  {
    hide MainLeft, WellFormed, MainAction;
  }

  ghost function StepBound(cfg: Config): int
    requires Sized(cfg)
  {
    (2 * |cfg.parts| + 1) * (|cfg.parts| * ((Rounds(cfg) + 1) * RoundBound(cfg) + |PartKeys(cfg)|))
  }

  lemma StepsAheadBounds(cfg: Config, s: Sys)
    requires FlowInv(cfg, s) && SysWellFormed(cfg, s)
    ensures 0 <= RingWork(s) <= StepsAhead(cfg, s) <= StepBound(cfg) + RingWork(s)
  {
    hide FlowInv, Inv, WellFormed, WorkBelow, MainLeft, RoundBound, PartKeys, LoopsOk, Rounds;
    var lefts, b := MainsLeft(cfg, s), (Rounds(cfg) + 1) * RoundBound(cfg) + |PartKeys(cfg)|;
    forall i: nat | i < |lefts| ensures 0 <= lefts[i] <= b {
      FlowOf(cfg, s, i);
      MainLeftBounds(cfg, i, s.hist.ring.procs[i], s.apps[i]);
    }
    PotentialBounds(lefts, RingWork(s), b);
    forall c: nat, m | InChan(s.hist.ring, c, m) ensures 0 <= Weight(|s.apps|)(c, m) {
      WeightIsPositive(cfg, s, c, m);
    }
    WorkIsNonNegative(s.hist.ring, |s.hist.ring.chans|, Weight(|s.apps|));
  }

  lemma {:induction false} RunIsShort(cfg: Config, s: Sys, trace: seq<SysStep>)
    requires FlowInv(cfg, s) && SysWellFormed(cfg, s) && IsSysRun(cfg, s, trace)
    ensures |trace| <= StepsAhead(cfg, s)
    decreases |trace|
  {
    hide FlowInv, SysWellFormed, SysEnabled, SysApply, StepsAhead;
    if trace == [] {
      StepsAheadBounds(cfg, s);
    } else {
      SysWellFormedAfter(cfg, s, trace[0]);
      StepKeepsFlow(cfg, s, trace[0]);
      StepsAheadDecrease(cfg, s, trace[0]);
      RunIsShort(cfg, SysApply(cfg, s, trace[0]), trace[1..]);
    }
  }

  /** Whatever the data, no schedule runs for more than `StepBound` steps. */
  lemma EveryRunEnds(cfg: Config, init: Sys, trace: seq<SysStep>)
    requires SysInit(cfg, init) && SysWellFormed(cfg, init) && IsSysRun(cfg, init, trace)
    ensures |trace| <= StepBound(cfg)
  {
    hide FlowInv, IsSysRun, StepsAhead, StepBound;
    InitFlow(cfg, init);
    RunIsShort(cfg, init, trace);
    StepsAheadBounds(cfg, init);
    InitialWork(init.hist.ring, |init.hist.ring.chans|, Weight(|init.apps|));
  }

  // ---- nothing is stuck ----

  ghost predicate Stuck(cfg: Config, s: Sys)
    requires SysWellFormed(cfg, s)
  {
    forall step :: !SysEnabled(cfg, s, step)
  }

  lemma StuckIsQuiet(cfg: Config, s: Sys)
    requires SysWellFormed(cfg, s) && Stuck(cfg, s)
    ensures BarrierTheorems.Quiet(s.hist.ring)
  {
    forall step: Step<Body> | BarrierTheorems.Internal(step) ensures !Enabled(s.hist.ring, step) {
      if step.id < |s.apps| {
        assert !SysEnabled(cfg, s, Serve(step.id)) && !SysEnabled(cfg, s, SendFinish(step.id));
        assert !SysEnabled(cfg, s, WakeUp(step.id)) && !SysEnabled(cfg, s, LeaveBarrier(step.id));
        assert !SysEnabled(cfg, s, MarkRound(step.id));
      }
    }
  }

  /** Whatever the data: a run that cannot be continued has let every process through all barriers to the
      end of its main thread, and has emptied the ring. */
  lemma StuckIsFinished(cfg: Config, s: Sys, i: nat)
    requires Reachable(cfg, s) && SysWellFormed(cfg, s) && Stuck(cfg, s) && i < |s.apps|
    ensures |s.hist.ring.chans| == |s.apps| && s.hist.ring.procs[i].finishIndex == |cfg.parts| + 2 && s.hist.ring.chans[i] == []
    ensures MainAction(cfg, i, |cfg.parts| + 2, s.apps[i]).Finished?
  {
    hide Reachable, FlowInv, Inv, WellFormed, SalesOk, RowsOk, IsUnder;
    ReachableFlow(cfg, s);
    FlowBasics(cfg, s);
    StuckIsQuiet(cfg, s);
    forall j: nat | j < |s.apps|
      ensures s.hist.ring.procs[j].finishIndex <= |cfg.parts| + 2
      ensures s.hist.ring.procs[j].pc == Working ==> s.hist.ring.procs[j].finishIndex == |cfg.parts| + 2
      ensures Inside(s.hist.ring.procs[j]) ==> s.hist.ring.procs[j].finishIndex < |cfg.parts| + 2
    {
      assert !SysEnabled(cfg, s, Main(j));
      FlowOf(cfg, s, j);
    }
    QuietIsFinished(s.hist.ring, |cfg.parts| + 2, i);
    BarrierTheorems.QuietMeans(s.hist.ring, i);
    assert !SysEnabled(cfg, s, Main(i));
    FlowOf(cfg, s, i);
  }
}
