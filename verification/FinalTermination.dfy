/** Every run of the query is finite, and one that cannot go on has finished everywhere. */
module FinalTermination {
  import Sequences
  import opened Barrier
  import opened BarrierInvariant
  import BarrierTheorems
  import opened BarrierTermination
  import opened RunMeasure
  import opened Query
  import opened FinalCompetition
  import opened FinalInvariant
  import FinalSteps
  import FinalTables

  // ---- how long one process can go on ----

  /** An upper bound on the length of any loop round, including the four steps of the barrier. */
  ghost function RoundBound(cfg: Config): nat {
    2 * |Sequences.Flatten(cfg.parts)| + |Sequences.Flatten(cfg.orders)| + |AllKeys(cfg)| + 6
  }

  /** The statements left in the current loops of a main thread. */
  ghost function LoopLeft(cfg: Config, id: nat, round: nat, a: App): int
    requires ValidConfig(cfg) && id < |cfg.parts|
  {
    if round == 0 then 2 * (|cfg.parts[id]| - a.pos) - a.sub
    else if round == 1 then |cfg.orders[id]| - a.pos
    else if round == 2 then |a.partData| - a.pos
    else if round == 3 then
      if a.sub == 0 then |a.receivePartData| - a.pos + 1 + |a.orders| else |a.orders| - a.pos
    else 1 - a.pos
  }

  /** A bound on the steps the main thread of a process has left. */
  ghost function MainLeft(cfg: Config, id: nat, p: Proc, a: App): int
    requires ValidConfig(cfg) && id < |cfg.parts|
  {
    StepsLeft(Rounds(cfg), RoundBound(cfg), p, LoopLeft(cfg, id, p.finishIndex, a))
  }

  lemma {:induction false} DistinctLength(v: seq<PartSale>, keys: set<int>)
    requires Distinct(v) && Ids(v) <= keys
    ensures |v| <= |keys|
  {
    if v != [] {
      var e, rest := v[0], v[1..];
      assert v == [e] + rest;
      forall k | k in Ids(rest) ensures k in keys - {e.partid} {
        var x :| x in rest && x.partid == k;
      }
      DistinctLength(rest, keys - {e.partid});
      assert e.partid in Ids(v);
    }
  }

  lemma {:induction false} SelectLength(orders: seq<Order>, keys: set<int>)
    ensures |Select(orders, keys)| <= |orders|
  {
    if orders != [] {
      SelectLength(orders[..|orders| - 1], keys);
    }
  }

  lemma LoopIsBounded(cfg: Config, s: Sys, i: nat)
    requires SysInv(cfg, s) && i < |s.apps|
    ensures 0 <= LoopLeft(cfg, i, s.ring.procs[i].finishIndex, s.apps[i]) + 5 <= RoundBound(cfg)
    ensures 0 <= LoopLeft(cfg, i, s.ring.procs[i].finishIndex, s.apps[i])
  {
    var a, round := s.apps[i], s.ring.procs[i].finishIndex;
    assert MainOk(cfg, i, s.ring.procs[i], a) && LocalOk(cfg, i, round, a);
    Sequences.FlattenLength(cfg.parts, i);
    Sequences.FlattenLength(cfg.orders, i);
    DistinctLength(a.partData, AllKeys(cfg));
    DistinctLength(a.receivePartData, AllKeys(cfg));
    SelectLength(cfg.orders[i], AllKeys(cfg));
  }

  /** A statement that is not the barrier shortens the loops of its round. */
  lemma ActionShortensLoop(cfg: Config, id: nat, p: Proc, a: App)
    requires ValidConfig(cfg) && id < |cfg.parts| && MainOk(cfg, id, p, a)
    ensures
      var action := MainAction(cfg, id, p.finishIndex, a);
      action.Compute? || action.SendBody? ==>
        LoopLeft(cfg, id, p.finishIndex, action.app) <= LoopLeft(cfg, id, p.finishIndex, a) - 1
  {
  }

  /** Every step of a main thread brings it closer to its end; the server does not set it back. */
  lemma MainLeftDecreases(cfg: Config, s: Sys, step: SysStep, s': Sys)
    requires SysInv(cfg, s) && SysEnabled(cfg, s, step) && s' == SysApply(cfg, s, step) && SysInv(cfg, s')
    ensures
      var id := step.id;
      var old_, new_ := MainLeft(cfg, id, s.ring.procs[id], s.apps[id]), MainLeft(cfg, id, s'.ring.procs[id], s'.apps[id]);
      if step.Serve? then new_ == old_ else new_ <= old_ - 1
  {
    hide SysInv, SysApply, Rounds, RoundBound, LocalOk, MainAction;
    Basics(cfg, s);
    Basics(cfg, s');
    FinalSteps.OwnAfter(cfg, s, step, s');
    if step.Serve? {
      ServeKeepsMainLeft(cfg, s, s', step.id);
    } else {
      var id := step.id;
      var p, a := s.ring.procs[id], s.apps[id];
      ProcessIs(cfg, s, id);
      LoopIsBounded(cfg, s, id);
      LoopIsBounded(cfg, s', id);
      if step.Main? && !NextAction(cfg, s, id).EnterBarrier? {
        ActionShortensLoop(cfg, id, p, a);
      } else {
        BarrierStepShortens(Rounds(cfg), RoundBound(cfg), p, s'.ring.procs[id],
                            LoopLeft(cfg, id, p.finishIndex, a),
                            LoopLeft(cfg, id, s'.ring.procs[id].finishIndex, s'.apps[id]));
      }
    }
  }

  lemma ServeKeepsMainLeft(cfg: Config, s: Sys, s': Sys, id: nat)
    requires SysInv(cfg, s) && SysEnabled(cfg, s, Serve(id)) && s' == SysApply(cfg, s, Serve(id))
    ensures |s'.apps| == |s.apps| == |s'.ring.procs|
    ensures s'.ring.procs[id].pc == s.ring.procs[id].pc
    ensures s'.ring.procs[id].finishIndex == s.ring.procs[id].finishIndex
    ensures LoopLeft(cfg, id, s.ring.procs[id].finishIndex, s'.apps[id]) ==
            LoopLeft(cfg, id, s.ring.procs[id].finishIndex, s.apps[id])
  {
    if Head(s.ring, id).Data? && s.ring.procs[id].finishIndex == 3 {
      FinalTables.NoLateSales(cfg, s, id);
    }
  }

  // ---- the whole system ----

  ghost function MainsLeft(cfg: Config, s: Sys): seq<int>
    requires SysWellFormed(cfg, s)
  {
    seq(|s.apps|, i requires 0 <= i < |s.apps| => MainLeft(cfg, i, s.ring.procs[i], s.apps[i]))
  }

  function Weight(n: nat): (nat, Msg<Body>) -> int {
    Weights(n, AllMessages)
  }

  /** A bound on the number of steps from a state on. */
  ghost function StepsAhead(cfg: Config, s: Sys): int
    requires SysWellFormed(cfg, s)
  {
    Potential(MainsLeft(cfg, s), Work(s.ring, Weight(|s.apps|)))
  }

  lemma StepsAheadDecrease(cfg: Config, s: Sys, step: SysStep, s': Sys)
    requires SysInv(cfg, s) && SysEnabled(cfg, s, step) && s' == SysApply(cfg, s, step) && SysInv(cfg, s')
    ensures StepsAhead(cfg, s') <= StepsAhead(cfg, s) - 1
  {
    hide SysInv, SysApply, MainLeft, Inv, Work, MovesRing, NextApp;
    var id := step.id;
    Basics(cfg, s);
    Basics(cfg, s');
    FinalSteps.RingAfter(cfg, s, step, s');
    MainLeftDecreases(cfg, s, step, s');
    RingWork(cfg, s, step, s');
    var left := MainLeft(cfg, id, s'.ring.procs[id], s'.apps[id]);
    assert MainsLeft(cfg, s') == MainsLeft(cfg, s)[id := left];
    PotentialDecreases(MainsLeft(cfg, s), id, left, Work(s.ring, Weight(|s.apps|)), Work(s'.ring, Weight(|s.apps|)));
  }

  lemma RingWork(cfg: Config, s: Sys, step: SysStep, s': Sys)
    requires SysInv(cfg, s) && SysEnabled(cfg, s, step) && s' == SysApply(cfg, s, step) && SysInv(cfg, s')
    ensures Work(s'.ring, Weight(|s.apps|)) <= Work(s.ring, Weight(|s.apps|)) + if step.Serve? then -1 else 2 * |s.apps|
  {
    hide Work, Weights;
    if MovesRing(cfg, s, step) {
      FinalSteps.StepsMakeOneLap(cfg, s, step);
      StepWork(s.ring, RingStep(cfg, s, step), AllMessages);
    }
  }

  lemma StepsAheadBounds(cfg: Config, s: Sys)
    requires SysInv(cfg, s)
    ensures 0 <= Work(s.ring, Weight(|s.apps|)) <= StepsAhead(cfg, s)
    ensures StepsAhead(cfg, s) <= StepBound(cfg) + Work(s.ring, Weight(|s.apps|))
  {
    hide SysInv, Inv, Work, LoopLeft, RoundBound, Rounds;
    Basics(cfg, s);
    var lefts, b := MainsLeft(cfg, s), (Rounds(cfg) + 1) * RoundBound(cfg);
    forall i: nat | i < |lefts| ensures 0 <= lefts[i] <= b {
      ProcessIs(cfg, s, i);
      LoopIsBounded(cfg, s, i);
      RoundIsBounded(cfg, i, s.ring.procs[i], s.apps[i]);
      StepsLeftBounds(Rounds(cfg), RoundBound(cfg), s.ring.procs[i], LoopLeft(cfg, i, s.ring.procs[i].finishIndex, s.apps[i]));
    }
    PotentialBounds(lefts, Work(s.ring, Weight(|s.apps|)), b);
    forall c: nat, m | InChan(s.ring, c, m) ensures 0 <= Weight(|s.apps|)(c, m) {
      HopsLeftIsPositive(s.ring, c, m);
    }
    WorkIsBounded(s);
  }

  lemma WorkIsBounded(s: Sys)
    requires forall c: nat, m :: InChan(s.ring, c, m) ==> 0 <= Weight(|s.apps|)(c, m)
    ensures 0 <= Work(s.ring, Weight(|s.apps|))
  {
    WorkIsNonNegative(s.ring, |s.ring.chans|, Weight(|s.apps|));
  }

  lemma RoundIsBounded(cfg: Config, id: nat, p: Proc, a: App)
    requires ValidConfig(cfg) && id < |cfg.parts| && MainOk(cfg, id, p, a)
    ensures p.finishIndex <= Rounds(cfg)
  {
  }

  /** An explicit bound on the number of steps of any run. */
  ghost function StepBound(cfg: Config): int {
    (2 * |cfg.parts| + 1) * (|cfg.parts| * ((Rounds(cfg) + 1) * RoundBound(cfg)))
  }

  // ---- nothing is stuck ----

  ghost predicate Stuck(cfg: Config, s: Sys)
    requires SysWellFormed(cfg, s)
  {
    forall step :: !SysEnabled(cfg, s, step)
  }

  /** A state without an enabled step is one in which every process has finished. */
  lemma StuckIsFinished(cfg: Config, s: Sys, i: nat)
    requires SysInv(cfg, s) && Stuck(cfg, s) && i < |s.apps|
    ensures s.ring.procs[i].finishIndex == Rounds(cfg) && s.ring.chans[i] == []
  {
    hide SysInv, Inv, MainAction;
    Basics(cfg, s);
    StuckIsQuiet(cfg, s);
    forall j: nat | j < |s.apps|
      ensures s.ring.procs[j].finishIndex <= Rounds(cfg)
      ensures s.ring.procs[j].pc == Working ==> s.ring.procs[j].finishIndex == Rounds(cfg)
      ensures Inside(s.ring.procs[j]) ==> s.ring.procs[j].finishIndex < Rounds(cfg)
    {
      assert !SysEnabled(cfg, s, Main(j));
      ProcessIs(cfg, s, j);
      OnlyTheEndIsFinished(cfg, j, s.ring.procs[j], s.apps[j]);
    }
    QuietIsFinished(s.ring, Rounds(cfg), i);
  }

  lemma OnlyTheEndIsFinished(cfg: Config, id: nat, p: Proc, a: App)
    requires ValidConfig(cfg) && id < |cfg.parts| && MainOk(cfg, id, p, a)
    ensures p.finishIndex <= Rounds(cfg) && (Inside(p) ==> p.finishIndex < Rounds(cfg))
    ensures MainAction(cfg, id, p.finishIndex, a).Finished? ==> p.finishIndex == Rounds(cfg)
  {
  }

  lemma StuckIsQuiet(cfg: Config, s: Sys)
    requires SysInv(cfg, s) && Stuck(cfg, s)
    ensures BarrierTheorems.Quiet(s.ring)
  {
    forall step: Step<Body> | BarrierTheorems.Internal(step) ensures !Enabled(s.ring, step) {
      if step.id < |s.apps| {
        assert !SysEnabled(cfg, s, Serve(step.id)) && !SysEnabled(cfg, s, SendFinish(step.id));
        assert !SysEnabled(cfg, s, WakeUp(step.id)) && !SysEnabled(cfg, s, LeaveBarrier(step.id));
        assert !SysEnabled(cfg, s, MarkRound(step.id));
      }
    }
  }
}
