/** What one step of the query changes and what it leaves alone: the ring, the flags and tables of the
    process that moves, the messages on their way.  No server sends a message on to the process after
    the message's creator, so the ring's invariant and its bound on the traffic carry over; and the
    main threads keep to their loops.  Modules FinalKeys, FinalTables and FinalAnswers build on this. */
module FinalSteps {
  import opened Topology
  import opened Barrier
  import BarrierInvariant
  import BarrierSteps
  import opened Query
  import opened FinalCompetition
  import opened FinalInvariant

  /** No server sends a message on to the process after its own creator. */
  lemma StepsMakeOneLap(cfg: Config, s: Sys, step: SysStep)
    requires SysInv(cfg, s) && SysEnabled(cfg, s, step) && MovesRing(cfg, s, step)
    ensures OneLap(s.ring, RingStep(cfg, s, step))
  {
    if step.Serve? {
      var n, id := |s.apps|, step.id;
      var m := Head(s.ring, id);
      assert InChan(s.ring, Pred(n, id), m);
      if m.Data? {
        assert MessageOk(cfg, s, Pred(n, id), m);
      }
    }
  }

  lemma RingAfter(cfg: Config, s: Sys, step: SysStep, s': Sys)
    requires SysInv(cfg, s) && SysEnabled(cfg, s, step) && s' == SysApply(cfg, s, step)
    ensures SysWellFormed(cfg, s') && BarrierInvariant.Inv(s'.ring)
    ensures forall i :: 0 <= i < |s.apps| && i != step.id ==>
      s'.ring.procs[i] == s.ring.procs[i] && s'.apps[i] == s.apps[i]
  {
    if MovesRing(cfg, s, step) {
      StepsMakeOneLap(cfg, s, step);
      BarrierSteps.StepKeepsInv(s.ring, RingStep(cfg, s, step));
    }
  }

  /** What a step does to the flags of its process. */
  ghost function NextProc(cfg: Config, s: Sys, step: SysStep): Proc
    requires SysWellFormed(cfg, s) && SysEnabled(cfg, s, step)
  {
    var p := s.ring.procs[step.id];
    match step
    case Main(id) => if NextAction(cfg, s, id).EnterBarrier? then Entering(p) else p
    case SendFinish(_) => p.(pc := Waiting)
    case WakeUp(_) => p.(pc := Woken, latch := false)
    case LeaveBarrier(_) => Leaving(p)
    case MarkRound(_) => Marking(p)
    case Serve(id) => if Head(s.ring, id).Token? then AfterFinish(p, Head(s.ring, id).round, Head(s.ring, id).digits) else p
  }

  lemma OwnAfter(cfg: Config, s: Sys, step: SysStep, s': Sys)
    requires SysWellFormed(cfg, s) && SysEnabled(cfg, s, step) && s' == SysApply(cfg, s, step)
    ensures |s'.apps| == |s.apps| == |s'.ring.procs|
    ensures s'.apps[step.id] == NextApp(cfg, s, step) && s'.ring.procs[step.id] == NextProc(cfg, s, step)
  {
  }

  /** The payload message that a step adds to the channel of its process. */
  ghost predicate AddedData(cfg: Config, s: Sys, step: SysStep, m: Msg<Body>)
    requires SysWellFormed(cfg, s) && SysEnabled(cfg, s, step)
  {
    var id := step.id;
    match step
    case Main(_) =>
      && NextAction(cfg, s, id).SendBody?
      && m == Data(id, s.ring.procs[id].finishIndex, NextAction(cfg, s, id).body)
    case Serve(_) =>
      && m.Data? && m == Head(s.ring, id) && InChan(s.ring, Pred(|s.apps|, id), m)
      && OnBody(Port(id), s.apps[id], m.body).1
    case _ => false
  }

  lemma DataAfter(cfg: Config, s: Sys, step: SysStep, s': Sys, c: int, m: Msg<Body>)
    requires SysInv(cfg, s) && SysEnabled(cfg, s, step) && s' == SysApply(cfg, s, step)
    requires InChan(s'.ring, c, m) && m.Data?
    ensures InChan(s.ring, c, m) || (c == step.id && AddedData(cfg, s, step, m))
  {
    if MovesRing(cfg, s, step) {
      StepsMakeOneLap(cfg, s, step);
      BarrierSteps.MessagesAfter(s.ring, RingStep(cfg, s, step), s'.ring, c, m);
    }
  }

  lemma DataStays(cfg: Config, s: Sys, step: SysStep, s': Sys, c: nat, m: Msg<Body>)
    requires SysWellFormed(cfg, s) && SysEnabled(cfg, s, step) && s' == SysApply(cfg, s, step)
    requires InChan(s.ring, c, m) && m.Data?
    ensures InChan(s'.ring, c, m) || (step.Serve? && c == Pred(|s.apps|, step.id) && m == Head(s.ring, step.id))
  {
    if MovesRing(cfg, s, step) {
      BarrierSteps.MessageStays(s.ring, RingStep(cfg, s, step), s'.ring, c, m);
    }
  }

  lemma DataIsAdded(cfg: Config, s: Sys, step: SysStep, s': Sys, m: Msg<Body>)
    requires SysInv(cfg, s) && SysEnabled(cfg, s, step) && s' == SysApply(cfg, s, step)
    requires AddedData(cfg, s, step, m)
    ensures InChan(s'.ring, step.id, m)
  {
    StepsMakeOneLap(cfg, s, step);
    var ch := s'.ring.chans[step.id];
    assert ch == s.ring.chans[step.id] + [m];
    assert ch[|ch| - 1] == m;
  }

  // ---- the main thread ----

  lemma {:induction false} InsertGrows(v: seq<PartSale>, d: PartSale)
    ensures |v| <= |Insert(v, d)| <= |v| + 1
  {
    if v != [] && v[0].partid != d.partid {
      InsertGrows(v[1..], d);
    }
  }

  /** A statement outside of the barrier keeps the counters of its loop in range. */
  lemma ActionKeepsMainOk(cfg: Config, id: nat, p: Proc, a: App)
    requires ValidConfig(cfg) && id < |cfg.parts| && MainOk(cfg, id, p, a) && p.pc == Working
    ensures
      var action := MainAction(cfg, id, p.finishIndex, a);
      (action.Compute? || action.SendBody? ==> MainOk(cfg, id, p, action.app)) &&
      (action.EnterBarrier? ==> MainOk(cfg, id, Entering(p), a))
  {
    InsertGrows(a.partData, PartSale(0, 0, 0));
  }

  lemma ServeKeepsMainOk(cfg: Config, id: nat, p: Proc, a: App, b: Body)
    requires ValidConfig(cfg) && id < |cfg.parts| && MainOk(cfg, id, p, a)
    ensures MainOk(cfg, id, p, OnBody(Port(id), a, b).0)
  {
    if b.FinalPart? {
      InsertGrows(a.receivePartData, b.sale);
    }
  }

  lemma MainsAfter(cfg: Config, s: Sys, step: SysStep, s': Sys)
    requires SysInv(cfg, s) && SysEnabled(cfg, s, step) && s' == SysApply(cfg, s, step)
    requires SysWellFormed(cfg, s')
    ensures MainsOk(cfg, s')
  {
    RingAfter(cfg, s, step, s');
    OwnAfter(cfg, s, step, s');
    assert MainsOk(cfg, s);
    hide SysInv, SysApply;
    var id := step.id;
    var p, a := s.ring.procs[id], s.apps[id];
    assert MainOk(cfg, id, p, a);
    assert MainOk(cfg, id, s'.ring.procs[id], s'.apps[id]) by {
      if step.Main? {
        ActionKeepsMainOk(cfg, id, p, a);
      } else if step.Serve? && Head(s.ring, id).Data? {
        ServeKeepsMainOk(cfg, id, p, a, Head(s.ring, id).body);
      }
    }
    forall i | 0 <= i < |s.apps| ensures MainOk(cfg, i, s'.ring.procs[i], s'.apps[i]) {
      assert MainOk(cfg, i, s.ring.procs[i], s.apps[i]);
    }
  }
}
