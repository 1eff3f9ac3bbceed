/** The runs of the advanced calculation, for any data. */
module AdvancedRuns {
  import opened Barrier
  import BarrierSteps
  import opened History
  import opened AdvancedCalculator

  lemma SysWellFormedAfter(cfg: Config, s: Sys, step: SysStep)
    requires SysWellFormed(cfg, s) && SysEnabled(cfg, s, step)
    ensures SysWellFormed(cfg, SysApply(cfg, s, step))
  {
    if MovesRing(cfg, s, step) {
      BarrierSteps.WellFormedAfter(s.hist.ring, RingStep(cfg, s, step), Apply(s.hist.ring, RingStep(cfg, s, step)));
    }
  }

  ghost predicate IsSysRun(cfg: Config, s: Sys, trace: seq<SysStep>)
    requires SysWellFormed(cfg, s)
    decreases |trace|
  {
    trace == [] || (SysEnabled(cfg, s, trace[0]) && (
      SysWellFormedAfter(cfg, s, trace[0]);
      IsSysRun(cfg, SysApply(cfg, s, trace[0]), trace[1..])))
  }

  ghost function SysExec(cfg: Config, s: Sys, trace: seq<SysStep>): (s': Sys)
    requires SysWellFormed(cfg, s) && IsSysRun(cfg, s, trace)
    ensures SysWellFormed(cfg, s')
    decreases |trace|
  {
    if trace == [] then s
    else
      SysWellFormedAfter(cfg, s, trace[0]);
      SysExec(cfg, SysApply(cfg, s, trace[0]), trace[1..])
  }

  /** `trace` leads from the start of the program to `s`. */
  ghost predicate ReachedBy(cfg: Config, init: Sys, trace: seq<SysStep>, s: Sys) {
    SysInit(cfg, init) && SysWellFormed(cfg, init) && IsSysRun(cfg, init, trace) && s == SysExec(cfg, init, trace)
  }

  /** `s` can be reached from the start of the program. */
  ghost predicate Reachable(cfg: Config, s: Sys) {
    exists init: Sys, trace: seq<SysStep> :: ReachedBy(cfg, init, trace, s)
  }
}
