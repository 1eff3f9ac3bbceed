/** The runs of the base calculation, for any data. */
module BaseRuns {
  import opened Barrier
  import BarrierSteps
  import opened History
  import opened BaseCalculator

  lemma SysWellFormedAfter(cfg: Config, s: Sys, step: SysStep)
    requires SysWellFormed(cfg, s) && SysEnabled(cfg, s, step)
    ensures SysWellFormed(cfg, SysApply(cfg, s, step))
  {
    if MovesRing(cfg, s, step) {
      BarrierSteps.WellFormedAfter(s.hist.ring, RingStep(cfg, s, step), Apply(s.hist.ring, RingStep(cfg, s, step)));
    }
  }

  ghost predicate IsSysRun(cfg: Config, s: Sys, trace: seq<SysStep>)
    requires SysWellFormed(cfg, s)
    decreases |trace|
  {
    trace == [] || (SysEnabled(cfg, s, trace[0]) && (
      SysWellFormedAfter(cfg, s, trace[0]);
      IsSysRun(cfg, SysApply(cfg, s, trace[0]), trace[1..])))
  }

  ghost function SysExec(cfg: Config, s: Sys, trace: seq<SysStep>): (s': Sys)
    requires SysWellFormed(cfg, s) && IsSysRun(cfg, s, trace)
    ensures SysWellFormed(cfg, s')
    decreases |trace|
  {
    if trace == [] then s
    else
      SysWellFormedAfter(cfg, s, trace[0]);
      SysExec(cfg, SysApply(cfg, s, trace[0]), trace[1..])
  }

  /** `trace` leads from the start of the program to `s`. */
  ghost predicate ReachedBy(cfg: Config, init: Sys, trace: seq<SysStep>, s: Sys) {
    SysInit(cfg, init) && SysWellFormed(cfg, init) && IsSysRun(cfg, init, trace) && s == SysExec(cfg, init, trace)
  }

  /** `s` can be reached from the start of the program. */
  ghost predicate Reachable(cfg: Config, s: Sys) {
    exists init: Sys, trace: seq<SysStep> :: ReachedBy(cfg, init, trace, s)
  }

  lemma {:induction false} OneMoreStep(cfg: Config, s: Sys, trace: seq<SysStep>, step: SysStep)
    requires SysWellFormed(cfg, s) && IsSysRun(cfg, s, trace) && SysEnabled(cfg, SysExec(cfg, s, trace), step)
    ensures IsSysRun(cfg, s, trace + [step])
    ensures SysExec(cfg, s, trace + [step]) == SysApply(cfg, SysExec(cfg, s, trace), step)
    decreases |trace|
  {
    hide SysEnabled, SysApply, SysWellFormed;
    if trace == [] {
      assert trace + [step] == [step] && [step][1..] == [];
      SysWellFormedAfter(cfg, s, step);
    } else {
      assert (trace + [step])[1..] == trace[1..] + [step];
      SysWellFormedAfter(cfg, s, trace[0]);
      OneMoreStep(cfg, SysApply(cfg, s, trace[0]), trace[1..], step);
    }
  }

  lemma ReachableStep(cfg: Config, s: Sys, step: SysStep)
    requires Reachable(cfg, s) && SysWellFormed(cfg, s) && SysEnabled(cfg, s, step)
    ensures Reachable(cfg, SysApply(cfg, s, step))
  {
    hide SysEnabled, SysApply, SysWellFormed, SysInit;
    var init, trace :| ReachedBy(cfg, init, trace, s);
    OneMoreStep(cfg, init, trace, step);
    assert ReachedBy(cfg, init, trace + [step], SysApply(cfg, s, step));
  }

  lemma {:induction false} RunConcat(cfg: Config, s: Sys, a: seq<SysStep>, b: seq<SysStep>)
    requires SysWellFormed(cfg, s) && IsSysRun(cfg, s, a) && IsSysRun(cfg, SysExec(cfg, s, a), b)
    ensures IsSysRun(cfg, s, a + b)
    decreases |a|
  {
    hide SysEnabled, SysApply, SysWellFormed;
    if a == [] {
      assert a + b == b;
    } else {
      assert (a + b)[1..] == a[1..] + b;
      SysWellFormedAfter(cfg, s, a[0]);
      RunConcat(cfg, SysApply(cfg, s, a[0]), a[1..], b);
    }
  }

  function StartHist(n: nat): Hist<Body> {
    Hist(Ring(seq(n, _ => INIT_PROC), seq(n, _ => [])), seq(n, _ => []), seq(n, _ => []))
  }

  /** The start of the program. */
  function Start(cfg: Config): Sys {
    Sys(StartHist(|cfg.parts|), seq(|cfg.parts|, _ => INIT_APP))
  }

  lemma StartIsInitial(cfg: Config)
    requires Sized(cfg)
    ensures SysInit(cfg, Start(cfg)) && SysWellFormed(cfg, Start(cfg))
  {
  }
}
