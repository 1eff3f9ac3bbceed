/** The loops of module Processes are schedules of the transition system. */
module Undisturbed {
  import opened Barrier
  import opened Query
  import opened FinalCompetition
  import opened FinalInvariant
  import FinalAnswers
  import opened EndToEnd
  import opened Processes

  /** `s1` is `s` after the main thread of `id` has run `RunRound` to its end. */
  ghost predicate RoundIsRun(cfg: Config, s: Sys, id: nat, out: seq<Body>, s1: Sys)
    requires SysInv(cfg, s) && SysInv(cfg, s1) && id < |s.apps|
  {
    var round := s.ring.procs[id].finishIndex;
    var (app, all) := RunRound(cfg, id, round, s.apps[id], out);
    && s1.ring.procs[id] == s.ring.procs[id] && s1.apps[id] == app
    && out <= all && s1.ring.chans[id] == s.ring.chans[id] + Wrap(id, round, all[|out|..])
    && (NextAction(cfg, s1, id).EnterBarrier? || NextAction(cfg, s1, id).Finished?)
  }

  lemma MeasureDecreases(cfg: Config, id: nat, round: nat, a: App)
    requires |cfg.parts| == |cfg.orders| && cfg.selectIdx < |cfg.parts| && id < |cfg.parts|
    ensures
      var action := MainAction(cfg, id, round, a);
      action.Compute? || action.SendBody? ==> LoopMeasure(cfg, id, round, action.app) < LoopMeasure(cfg, id, round, a)
  {
    hide BelowAverage, Lookup, Insert, Matches;
  }

  /** If only the main thread of `id` is scheduled, it runs through `RunRound` and then stands before
      the barrier: its tables are those `RunRound` computes and its channel has grown by the messages
      `RunRound` sends. */
  lemma {:induction false} RunsItsRound(cfg: Config, s: Sys, id: nat, out: seq<Body>) returns (trace: seq<SysStep>)
    requires SysInv(cfg, s) && id < |s.apps| && s.ring.procs[id].pc == Working
    ensures IsSysRun(cfg, s, trace) && forall step :: step in trace ==> step == Main(id)
    ensures RoundIsRun(cfg, s, id, out, SysExec(cfg, s, trace))
    decreases LoopMeasure(cfg, id, s.ring.procs[id].finishIndex, s.apps[id])
  {
    hide SysInv, SysApply, MainAction;
    Basics(cfg, s);
    var action := NextAction(cfg, s, id);
    if action.EnterBarrier? || action.Finished? {
      trace := [];
      assert s.ring.chans[id] + [] == s.ring.chans[id];
    } else {
      var s1 := SysApply(cfg, s, Main(id));
      FinalAnswers.StepKeepsSysInv(cfg, s, Main(id));
      FirstStatement(cfg, s, id, s1);
      MeasureDecreases(cfg, id, s.ring.procs[id].finishIndex, s.apps[id]);
      var rest := RunsItsRound(cfg, s1, id, if action.SendBody? then out + [action.body] else out);
      trace := [Main(id)] + rest;
      RunCons(cfg, s, Main(id), rest);
      RoundCons(cfg, s, id, out, s1, SysExec(cfg, s1, rest));
    }
  }

  lemma RunCons(cfg: Config, s: Sys, step: SysStep, rest: seq<SysStep>)
    requires SysInv(cfg, s) && SysEnabled(cfg, s, step) && SysInv(cfg, SysApply(cfg, s, step))
    requires IsSysRun(cfg, SysApply(cfg, s, step), rest)
    ensures IsSysRun(cfg, s, [step] + rest)
    ensures SysExec(cfg, s, [step] + rest) == SysExec(cfg, SysApply(cfg, s, step), rest)
  {
    assert ([step] + rest)[1..] == rest && ([step] + rest)[0] == step;
  }

  lemma RoundCons(cfg: Config, s: Sys, id: nat, out: seq<Body>, s1: Sys, s2: Sys)
    requires SysInv(cfg, s) && SysEnabled(cfg, s, Main(id)) && s1 == SysApply(cfg, s, Main(id))
    requires !NextAction(cfg, s, id).EnterBarrier? && SysInv(cfg, s1) && SysInv(cfg, s2)
    requires
      var action := NextAction(cfg, s, id);
      RoundIsRun(cfg, s1, id, if action.SendBody? then out + [action.body] else out, s2)
    ensures RoundIsRun(cfg, s, id, out, s2)
  {
    var action := NextAction(cfg, s, id);
    var round := s.ring.procs[id].finishIndex;
    FirstStatement(cfg, s, id, s1);
    if action.SendBody? {
      var out1 := out + [action.body];
      var all := RunRound(cfg, id, round, s1.apps[id], out1).1;
      assert all[|out|..] == [action.body] + all[|out1|..];
      WrapSplit(id, round, [action.body], all[|out1|..]);
    }
  }

  lemma FirstStatement(cfg: Config, s: Sys, id: nat, s1: Sys)
    requires SysInv(cfg, s) && SysEnabled(cfg, s, Main(id)) && s1 == SysApply(cfg, s, Main(id))
    requires !NextAction(cfg, s, id).EnterBarrier?
    ensures |s1.apps| == |s.apps| == |s1.ring.procs| == |s1.ring.chans|
    ensures s1.ring.procs[id] == s.ring.procs[id] && s1.apps[id] == NextAction(cfg, s, id).app
    ensures
      var sends := if NextAction(cfg, s, id).SendBody? then [NextAction(cfg, s, id).body] else [];
      s1.ring.chans[id] == s.ring.chans[id] + Wrap(id, s.ring.procs[id].finishIndex, sends)
  {
    assert s.ring.chans[id] + [] == s.ring.chans[id];
  }

  lemma WrapSplit(id: nat, round: nat, a: seq<Body>, b: seq<Body>)
    ensures Wrap(id, round, a + b) == Wrap(id, round, a) + Wrap(id, round, b)
  {
  }
}
