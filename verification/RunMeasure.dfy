/** How long the processes of a system on the ring can go on, and that they do not get stuck. */
module RunMeasure {
  import opened Barrier
  import BarrierInvariant
  import BarrierTheorems

  // ---- one process ----

  /** The steps of the barrier that are ahead of a main thread in its round. */
  function BarrierLeft(p: Proc): nat {
    match p.pc
    case Stepped(_) => 5
    case Working => 4
    case Entered => 3
    case Waiting => 2
    case Woken => 1
  }

  /** A bound on the steps that a main thread has left: `rounds` is the number of its rounds, `bound` more
      than the steps of any of them, `loop` what is left of the loops of the current one. */
  function StepsLeft(rounds: nat, bound: nat, p: Proc, loop: int): int {
    (rounds - p.finishIndex) * bound + BarrierLeft(p) + if Inside(p) then 0 else loop
  }

  lemma StepsLeftBounds(rounds: nat, bound: nat, p: Proc, loop: int)
    requires p.finishIndex <= rounds && 0 <= loop && loop + 5 <= bound
    ensures 0 <= StepsLeft(rounds, bound, p, loop) <= (rounds + 1) * bound
  {
    assert (rounds - p.finishIndex) * bound + p.finishIndex * bound == rounds * bound;
    assert (rounds + 1) * bound == rounds * bound + bound;
    assert 0 <= (rounds - p.finishIndex) * bound && 0 <= p.finishIndex * bound;
  }

  /** The step of the barrier that a main thread takes. */
  predicate BarrierStep(p: Proc, p': Proc) {
    || (p.pc == Working && p' == Entering(p))
    || (p.pc == Entered && p' == p.(pc := Waiting))
    || (p.pc == Waiting && p' == p.(pc := Woken, latch := false))
    || (p.pc == Woken && p' == Leaving(p))
    || (p.pc.Stepped? && p' == Marking(p))
  }

  lemma BarrierStepShortens(rounds: nat, bound: nat, p: Proc, p': Proc, loop: int, loop': int)
    requires BarrierStep(p, p') && 0 <= loop && loop' + 5 <= bound && (p.pc != Woken ==> loop' == loop)
    ensures StepsLeft(rounds, bound, p', loop') <= StepsLeft(rounds, bound, p, loop) - 1
  {
    assert (rounds - p.finishIndex) * bound == (rounds - (p.finishIndex + 1)) * bound + bound;
  }

  // ---- all processes ----

  function Total(v: seq<int>): int {
    if v == [] then 0 else v[0] + Total(v[1..])
  }

  lemma {:induction false} TotalUpdate(v: seq<int>, i: nat, x: int)
    requires i < |v|
    ensures Total(v[i := x]) == Total(v) + x - v[i]
  {
    if i == 0 {
      assert v[0 := x][1..] == v[1..];
    } else {
      assert v[i := x][1..] == v[1..][i - 1 := x];
      TotalUpdate(v[1..], i - 1, x);
    }
  }

  lemma {:induction false} TotalBounds(v: seq<int>, b: nat)
    requires forall i :: 0 <= i < |v| ==> 0 <= v[i] <= b
    ensures 0 <= Total(v) <= |v| * b
  {
    if v != [] {
      TotalBounds(v[1..], b);
      assert |v| * b == |v[1..]| * b + b;
    }
  }

  /** The steps of all threads: a step of a main thread outweighs the receptions that it can cause. */
  function Potential(lefts: seq<int>, work: int): int {
    (2 * |lefts| + 1) * Total(lefts) + work
  }

  lemma PotentialDecreases(lefts: seq<int>, i: nat, x: int, work: int, work': int)
    requires i < |lefts|
    requires (x <= lefts[i] - 1 && work' <= work + 2 * |lefts|) || (x <= lefts[i] && work' <= work - 1)
    ensures Potential(lefts[i := x], work') <= Potential(lefts, work) - 1
  {
    var n, d := |lefts|, x - lefts[i];
    TotalUpdate(lefts, i, x);
    assert (2 * n + 1) * (Total(lefts) + d) == (2 * n + 1) * Total(lefts) + (2 * n + 1) * d;
    if d <= -1 {
      ScaleDown(2 * n + 1, d + 1);
      assert (2 * n + 1) * (d + 1) == (2 * n + 1) * d + 2 * n + 1;
    }
  }

  lemma ScaleDown(c: nat, d: int)
    requires d <= 0
    ensures c * d <= 0
  {
  }

  lemma PotentialBounds(lefts: seq<int>, work: int, b: nat)
    requires forall i :: 0 <= i < |lefts| ==> 0 <= lefts[i] <= b
    ensures work <= Potential(lefts, work) <= (2 * |lefts| + 1) * (|lefts| * b) + work
  {
    TotalBounds(lefts, b);
    var c, t := 2 * |lefts| + 1, Total(lefts);
    assert 0 <= c * t && 0 <= c * (|lefts| * b - t);
    assert c * (|lefts| * b - t) == c * (|lefts| * b) - c * t;
  }

  // ---- nothing is stuck ----

  lemma {:induction false} Earliest(procs: seq<Proc>) returns (i: nat)
    requires procs != []
    ensures i < |procs| && forall j :: 0 <= j < |procs| ==> procs[i].finishIndex <= procs[j].finishIndex
  {
    i := 0;
    for k := 1 to |procs|
      invariant i < |procs|
      invariant forall j :: 0 <= j < k ==> procs[i].finishIndex <= procs[j].finishIndex
    {
      if procs[k].finishIndex < procs[i].finishIndex {
        i := k;
      }
    }
  }

  /** If no internal step is enabled and a process outside of the barrier has finished, all have. */
  lemma QuietIsFinished<P(!new)>(s: Ring<P>, rounds: nat, i: nat)
    requires BarrierInvariant.Inv(s) && BarrierTheorems.Quiet(s) && i < |s.procs|
    requires
      forall j :: 0 <= j < |s.procs| ==>
        s.procs[j].finishIndex <= rounds && (s.procs[j].pc == Working ==> s.procs[j].finishIndex == rounds)
    requires forall j :: 0 <= j < |s.procs| ==> (Inside(s.procs[j]) ==> s.procs[j].finishIndex < rounds)
    ensures s.procs[i].finishIndex == rounds && s.chans[i] == []
  {
    var first := Earliest(s.procs);
    var r := s.procs[first].finishIndex;
    BarrierTheorems.QuietMeans(s, i);
    if r < rounds {
      forall j | 0 <= j < |s.procs| ensures BarrierInvariant.HasEntered(s.procs[j], r) {
        BarrierTheorems.QuietMeans(s, j);
      }
      BarrierTheorems.QuietRoundIsOver(s, r, first);
    }
  }
}
