/** Every step of the advanced calculation keeps its invariant.  Module AdvancedProcess shows it for the
    process that moves; here the messages and the flood of the part table join in. */
module AdvancedSteps {
  import Sequences
  import opened Topology
  import opened Barrier
  import opened BarrierInvariant
  import BarrierTheorems
  import opened History
  import opened Query
  import opened BrandTables
  import opened AdvancedCalculator
  import opened AdvancedInvariant
  import opened AdvancedProcess

  // ---- what a step changes ----

  ghost function NewPut(cfg: Config, s: Sys, step: SysStep): seq<Msg<Body>>
    requires SysWellFormed(cfg, s) && SysEnabled(cfg, s, step)
  {
    var id, p := step.id, s.hist.ring.procs[step.id];
    if step.Main? then Sends(NextAction(cfg, s, id), id, p.finishIndex)
    else if step.Serve? && Head(s.hist.ring, id).Data? then SendsOn(id, p, s.apps[id], Head(s.hist.ring, id))
    else []
  }

  ghost function NewGot(cfg: Config, s: Sys, step: SysStep): seq<Msg<Body>>
    requires SysWellFormed(cfg, s) && SysEnabled(cfg, s, step)
  {
    if step.Serve? && Head(s.hist.ring, step.id).Data? then [Head(s.hist.ring, step.id)] else []
  }

  ghost function NextProc(cfg: Config, s: Sys, step: SysStep): Proc
    requires SysWellFormed(cfg, s) && SysEnabled(cfg, s, step)
  {
    var p := s.hist.ring.procs[step.id];
    match step
    case Main(id) => if NextAction(cfg, s, id).EnterBarrier? then Entering(p) else p
    case SendFinish(_) => p.(pc := Waiting)
    case WakeUp(_) => p.(pc := Woken, latch := false)
    case LeaveBarrier(_) => Leaving(p)
    case MarkRound(_) => Marking(p)
    case Serve(id) =>
      var m := Head(s.hist.ring, id);
      if m.Token? then AfterFinish(p, m.round, m.digits) else p
  }

  lemma LogsAfter(cfg: Config, s: Sys, step: SysStep, s': Sys)
    requires SysWellFormed(cfg, s) && SysEnabled(cfg, s, step) && s' == SysApply(cfg, s, step)
    ensures s'.hist.put == s.hist.put[step.id := s.hist.put[step.id] + NewPut(cfg, s, step)]
    ensures s'.hist.got == s.hist.got[step.id := s.hist.got[step.id] + NewGot(cfg, s, step)]
  {
    hide OnBody, MainAction, Apply, NextApp;
    var id := step.id;
    assert s.hist.put[id] + [] == s.hist.put[id] && s.hist.got[id] + [] == s.hist.got[id];
    if MovesRing(cfg, s, step) {
      PayloadsOfOne(Joins(s.hist.ring, RingStep(cfg, s, step)));
      PayloadsOfOne(Leaves(s.hist.ring, RingStep(cfg, s, step)));
    }
  }

  lemma ProcsAfter(cfg: Config, s: Sys, step: SysStep, s': Sys)
    requires SysWellFormed(cfg, s) && SysEnabled(cfg, s, step) && s' == SysApply(cfg, s, step)
    ensures s'.hist.ring.procs == s.hist.ring.procs[step.id := NextProc(cfg, s, step)]
    ensures s'.apps == s.apps[step.id := NextApp(cfg, s, step)]
  {
    hide OnBody, MainAction;
  }

  lemma HistAfter(cfg: Config, s: Sys, step: SysStep, s': Sys)
    requires SysInv(cfg, s) && SysEnabled(cfg, s, step) && s' == SysApply(cfg, s, step)
    ensures SysWellFormed(cfg, s') && HistInv(s'.hist)
  {
    hide SysInv, MessagesOk, OnBody, MainAction, Inv;
    Basics(cfg, s);
    ProcsAfter(cfg, s, step, s');
    LogsAfter(cfg, s, step, s');
    if MovesRing(cfg, s, step) {
      RecordKeepsInv(s.hist, RingStep(cfg, s, step));
    }
    InvMeansWellFormed(s'.hist);
  }

  lemma InvMeansWellFormed(h: Hist<Body>)
    ensures HistInv(h) ==> WellFormed(h.ring)
  {
  }

  // ---- the message that is read ----

  lemma SentMessage(cfg: Config, s: Sys, u: nat, m: Msg<Body>)
    requires SysWellFormed(cfg, s) && MessagesOk(cfg, s) && u < |s.apps|
    ensures m in s.hist.put[u] ==> MessageOk(cfg, s, u, m)
  {
    hide MessageOk;
  }

  lemma GotMessage(cfg: Config, s: Sys, id: nat, m: Msg<Body>)
    requires SysInv(cfg, s) && id < |s.apps| && m in s.hist.got[id]
    ensures m in s.hist.put[Pred(|s.apps|, id)] && MessageOk(cfg, s, Pred(|s.apps|, id), m)
  {
    hide SysInv, HistInv, MessagesOk, MessageOk, Payloads;
    Basics(cfg, s);
    var u := Pred(|s.apps|, id);
    assert Succ(|s.apps|, u) == id;
    QueueOf(s.hist, u);
    assert m in s.hist.put[u];
    SentMessage(cfg, s, u, m);
  }

  lemma ReadMessage(cfg: Config, s: Sys, id: nat)
    requires SysInv(cfg, s) && SysEnabled(cfg, s, Serve(id)) && Head(s.hist.ring, id).Data?
    ensures
      var m := Head(s.hist.ring, id);
      MessageOk(cfg, s, Pred(|s.apps|, id), m) && s.hist.ring.procs[id].finishIndex <= m.stamp
  {
    hide SysInv, HistInv, MessagesOk, MessageOk, OnBody, MainAction;
    Basics(cfg, s);
    var u, m, round := Pred(|s.apps|, id), Head(s.hist.ring, id), s.hist.ring.procs[id].finishIndex;
    assert InChan(s.hist.ring, u, m);
    TrailOf(s.hist, u, m);
    assert m in s.hist.put[u];
    SentMessage(cfg, s, u, m);
    if round > 0 {
      RingInv(s.hist);
      LeftNotified(s.hist.ring, id, round - 1);
      BarrierTheorems.ReadsLaterRounds(s.hist.ring, id, round - 1, m);
    }
  }

  lemma RingInv(h: Hist<Body>)
    requires HistInv(h)
    ensures Inv(h.ring)
  {
    hide Inv;
  }

  lemma HeadIsReadable(cfg: Config, s: Sys, id: nat)
    requires SysInv(cfg, s) && SysEnabled(cfg, s, Serve(id)) && Head(s.hist.ring, id).Data?
    ensures Readable(cfg, id, s.hist.ring.procs[id], s.apps[id], Head(s.hist.ring, id))
  {
    hide SysInv, HistInv, MessagesOk, WellFormed, OnBody, MainAction, Labelled, KeySet, AllParts;
    Basics(cfg, s);
    ReadMessage(cfg, s, id);
  }

  // ---- the flood of parts ----

  lemma NotifiedIs(cfg: Config, s: Sys, q: nat, r: nat)
    requires SysInv(cfg, s) && q < |s.apps| && r < s.hist.ring.procs[q].finishIndex
    ensures r in s.hist.ring.procs[q].hasNotify
    ensures forall p :: 0 <= p < |s.apps| ==> HasEntered(s.hist.ring.procs[p], r)
  {
    hide SysInv, MessagesOk;
    Basics(cfg, s);
    LeftNotified(s.hist.ring, q, r);
  }

  /** What `u` has sent its successor knows, or it is past `q`, which therefore knows it. */
  lemma PartArrives(cfg: Config, s: Sys, u: nat, q: nat, m: Msg<Body>)
    requires SysInv(cfg, s) && u < |s.apps| && q < |s.apps| && 0 in s.hist.ring.procs[q].hasNotify
    requires m in s.hist.put[u] && m.Data? && m.body.PartMsg?
    ensures m in s.hist.got[Succ(|s.apps|, u)] || m in s.hist.got[q]
  {
    hide SysInv, MessagesOk, Payloads;
    Basics(cfg, s);
    SentMessage(cfg, s, u, m);
    assert m.stamp == 0;
    QueueOf(s.hist, u);
    if m in Payloads(s.hist.ring.chans[u]) {
      InPayloads(s.hist.ring.chans[u], m);
      assert InChan(s.hist.ring, u, m);
      TrailOf(s.hist, u, m);
      assert Passed(|s.apps|, m.origin, q, u);
    }
  }

  lemma KnowsReceived(cfg: Config, s: Sys, u: nat, m: Msg<Body>)
    requires SysInv(cfg, s) && u < |s.apps| && m in s.hist.got[u] && m.Data? && m.body.PartMsg?
    ensures m.body.part.key in KeySet(s.apps[u].parts)
  {
    hide SysInv, MainOk, FloodOk, TableOk, CountOk, SentOk, FinalOk, KeySet;
    ProcessIs(cfg, s, u);
  }

  /** In the first round over, a process has announced all that it knows. */
  lemma HasAnnounced(cfg: Config, s: Sys, u: nat, key: int) returns (m: Msg<Body>)
    requires SysInv(cfg, s) && u < |s.apps| && key in KeySet(s.apps[u].parts) && HasEntered(s.hist.ring.procs[u], 0)
    ensures m in s.hist.put[u] && m.Data? && m.body.PartMsg? && m.body.part.key == key
  {
    hide SysInv, PartsOk, TableOk, CountOk, SentOk, FinalOk, IsUnder, MergeIn, Booking, HistInv, MessagesOk;
    Basics(cfg, s);
    ProcessIs(cfg, s, u);
    var a := s.apps[u];
    var i :| 0 <= i < |a.parts| && a.parts[i].key == key;
    assert Announced(s.hist.put[u], a.parts[i]);
    m :| m in s.hist.put[u] && m.Data? && m.body == PartMsg(a.parts[i]);
  }

  lemma {:induction false} KeyReaches(cfg: Config, s: Sys, u: nat, q: nat, key: int)
    requires SysInv(cfg, s) && u < |s.apps| && q < |s.apps| && 1 <= s.hist.ring.procs[q].finishIndex
    requires key in KeySet(s.apps[u].parts)
    ensures key in KeySet(s.apps[q].parts)
    decreases if u < |s.apps| && q < |s.apps| then Dist(|s.apps|, u, q) else 0
  {
    hide SysInv, KeySet, MessagesOk, HistInv, WellFormed;
    Basics(cfg, s);
    if u != q {
      NotifiedIs(cfg, s, q, 0);
      var m := HasAnnounced(cfg, s, u, key);
      PartArrives(cfg, s, u, q, m);
      if m in s.hist.got[q] {
        KnowsReceived(cfg, s, q, m);
      } else {
        KnowsReceived(cfg, s, Succ(|s.apps|, u), m);
        KeyReaches(cfg, s, Succ(|s.apps|, u), q, key);
      }
    }
  }

  lemma KnowsLoaded(cfg: Config, s: Sys, u: nat)
    requires SysInv(cfg, s) && u < |s.apps|
    ensures forall part :: part in cfg.parts[u] ==> part.key in KeySet(s.apps[u].parts)
    ensures forall part :: part in s.apps[u].parts ==> part in AllParts(cfg)
    ensures DistinctKeys(s.apps[u].parts)
  {
    hide SysInv, MainOk, FloodOk, TableOk, CountOk, SentOk, FinalOk, AllParts, DistinctKeys, HistInv, MessagesOk;
    Basics(cfg, s);
    ProcessIs(cfg, s, u);
    forall part | part in cfg.parts[u] ensures part.key in KeySet(s.apps[u].parts) {
      assert part in s.apps[u].parts;
    }
  }

  /** Part table flood: behind the first barrier every process knows every part. */
  lemma EveryPartIsKnown(cfg: Config, s: Sys, q: nat)
    requires SysInv(cfg, s) && q < |s.apps| && 1 <= s.hist.ring.procs[q].finishIndex
    ensures KeySet(s.apps[q].parts) == KeySet(AllParts(cfg))
  {
    hide SysInv, MessagesOk, HistInv, WellFormed, DistinctKeys;
    Basics(cfg, s);
    KnowsLoaded(cfg, s, q);
    forall key | key in KeySet(AllParts(cfg)) ensures key in KeySet(s.apps[q].parts) {
      var part :| part in AllParts(cfg) && part.key == key;
      var p := Sequences.FromFlatten(cfg.parts, part);
      KnowsLoaded(cfg, s, p);
      KeyReaches(cfg, s, p, q, key);
    }
  }

  // ---- the invariant ----

  ghost predicate NextOk(cfg: Config, s: Sys, step: SysStep)
    requires SysWellFormed(cfg, s) && SysEnabled(cfg, s, step)
  {
    ProcessOk(cfg, step.id, NextProc(cfg, s, step), NextApp(cfg, s, step),
              s.hist.put[step.id] + NewPut(cfg, s, step), s.hist.got[step.id] + NewGot(cfg, s, step))
  }

  lemma MainAfter(cfg: Config, s: Sys, id: nat)
    requires ValidData(cfg) && SysInv(cfg, s) && SysEnabled(cfg, s, Main(id))
    ensures NextOk(cfg, s, Main(id))
  {
    hide ValidData, SysInv, ProcessOk, MainOk, MainAction, WellFormed, HistInv, MessagesOk, KeySet, AllParts;
    Basics(cfg, s);
    var p, a, put, got := s.hist.ring.procs[id], s.apps[id], s.hist.put[id], s.hist.got[id];
    ProcessIs(cfg, s, id);
    assert put + [] == put && got + [] == got;
    if NextAction(cfg, s, id).EnterBarrier? {
      BarrierKeepsProcess(cfg, id, p, Entering(p), a, put, got);
    } else {
      if p.finishIndex == 1 {
        EveryPartIsKnown(cfg, s, id);
      }
      ActionKeepsProcess(cfg, id, p, a, put, got);
    }
  }

  lemma ServeAfter(cfg: Config, s: Sys, id: nat)
    requires SysInv(cfg, s) && SysEnabled(cfg, s, Serve(id))
    ensures NextOk(cfg, s, Serve(id))
  {
    hide SysInv, ProcessOk, OnBody, WellFormed, HistInv, MessagesOk, MainAction;
    Basics(cfg, s);
    var p, a, put, got, m := s.hist.ring.procs[id], s.apps[id], s.hist.put[id], s.hist.got[id], Head(s.hist.ring, id);
    ProcessIs(cfg, s, id);
    assert put + [] == put && got + [] == got;
    if m.Data? {
      HeadIsReadable(cfg, s, id);
      ServeKeepsProcess(cfg, id, p, a, put, got, m);
    } else {
      BarrierKeepsProcess(cfg, id, p, NextProc(cfg, s, Serve(id)), a, put, got);
    }
  }

  lemma BarrierAfter(cfg: Config, s: Sys, step: SysStep)
    requires SysInv(cfg, s) && SysEnabled(cfg, s, step) && !step.Main? && !step.Serve?
    ensures NextOk(cfg, s, step)
  {
    hide SysInv, ProcessOk, MainAction, WellFormed, HistInv, MessagesOk;
    Basics(cfg, s);
    var id := step.id;
    var p, a, put, got := s.hist.ring.procs[id], s.apps[id], s.hist.put[id], s.hist.got[id];
    ProcessIs(cfg, s, id);
    assert put + [] == put && got + [] == got;
    if step.LeaveBarrier? {
      LeavingKeepsProcess(cfg, id, p, a, put, got);
    } else {
      BarrierKeepsProcess(cfg, id, p, NextProc(cfg, s, step), a, put, got);
    }
  }

  lemma ProcessesAfter(cfg: Config, s: Sys, step: SysStep, s': Sys)
    requires ValidData(cfg) && SysInv(cfg, s) && SysEnabled(cfg, s, step) && s' == SysApply(cfg, s, step)
    requires SysWellFormed(cfg, s')
    ensures ProcessesOk(cfg, s')
  {
    hide ValidData, SysInv, SysApply, ProcessOk, NextProc, NextApp, NewPut, NewGot, HistInv, MessagesOk, WellFormed;
    Basics(cfg, s);
    ProcsAfter(cfg, s, step, s');
    LogsAfter(cfg, s, step, s');
    if step.Main? {
      MainAfter(cfg, s, step.id);
    } else if step.Serve? {
      ServeAfter(cfg, s, step.id);
    } else {
      BarrierAfter(cfg, s, step);
    }
    assert NextOk(cfg, s, step);
    forall u: nat | u < |s.apps| && u != step.id
      ensures ProcessOk(cfg, u, s'.hist.ring.procs[u], s'.apps[u], s'.hist.put[u], s'.hist.got[u])
    {
      ProcessIs(cfg, s, u);
    }
  }

  lemma PartsGrow(cfg: Config, s: Sys, step: SysStep)
    requires SysWellFormed(cfg, s) && SysEnabled(cfg, s, step)
    ensures s.apps[step.id].parts <= NextApp(cfg, s, step).parts
  {
    hide IsUnder, MergeIn, Booking;
  }

  lemma KeysGrow(a: seq<Part>, b: seq<Part>)
    requires a <= b
    ensures KeySet(a) <= KeySet(b)
  {
    assert forall part :: part in a ==> part in b;
  }

  lemma KnownAfter(cfg: Config, s: Sys, step: SysStep, s': Sys, u: nat)
    requires SysWellFormed(cfg, s) && SysEnabled(cfg, s, step) && s' == SysApply(cfg, s, step) && u < |s.apps|
    ensures |s'.apps| == |s.apps| && KeySet(s.apps[u].parts) <= KeySet(s'.apps[u].parts)
  {
    hide SysApply, NextApp, NextProc, WellFormed, KeySet;
    ProcsAfter(cfg, s, step, s');
    PartsGrow(cfg, s, step);
    KeysGrow(s.apps[u].parts, s'.apps[u].parts);
  }

  lemma SentBodyOk(cfg: Config, id: nat, p: Proc, a: App, got: seq<Msg<Body>>, known: seq<Part>)
    requires Sized(cfg) && id < |cfg.parts| && MainOk(cfg, id, p, a) && PartsOk(cfg, id, a, got)
    requires TableOk(cfg, id, p.finishIndex, a, got)
    requires MainAction(cfg, id, p.finishIndex, a).SendBody? && KeySet(a.parts) <= KeySet(known)
    ensures BodyOk(cfg, id, Data(id, p.finishIndex, MainAction(cfg, id, p.finishIndex, a).body), known)
  {
    hide IsUnder, MergeIn, Booking, AllParts, DistinctKeys, Tally;
    if p.finishIndex == 0 {
      assert a.parts[a.pos] in a.parts;
      assert a.parts[a.pos].key in KeySet(a.parts);
    } else {
      assert a.table[a.pos] in a.table;
    }
  }

  lemma PassedBodyOk(cfg: Config, id: nat, p: Proc, a: App, h: Msg<Body>, u: nat, known: seq<Part>)
    requires Sized(cfg) && id < |cfg.parts| && u < |cfg.parts| && h.Data? && BodyOk(cfg, u, h, known)
    requires Readable(cfg, id, p, a, h) && OnBody(a, h.body).1
    ensures BodyOk(cfg, id, SentOn(p, id, h), known) && SentOn(p, id, h) == h
  {
    hide MergeIn, AllParts, KeySet;
  }

  lemma NewMessageOk(cfg: Config, s: Sys, step: SysStep, s': Sys, m: Msg<Body>)
    requires SysInv(cfg, s) && SysEnabled(cfg, s, step) && s' == SysApply(cfg, s, step) && SysWellFormed(cfg, s')
    requires m in NewPut(cfg, s, step)
    ensures MessageOk(cfg, s', step.id, m)
  {
    hide SysInv, SysApply, MainAction, BodyOk, OnBody, Readable, HistInv, MessagesOk, WellFormed, KeySet,
         PartsOk, TableOk, MainOk, SentOk, FloodOk, CountOk, FinalOk;
    Basics(cfg, s);
    var id := step.id;
    var p, a := s.hist.ring.procs[id], s.apps[id];
    if step.Main? {
      ProcessIs(cfg, s, id);
      KnownAfter(cfg, s, step, s', id);
      SentBodyOk(cfg, id, p, a, s.hist.got[id], s'.apps[id].parts);
    } else {
      var h := Head(s.hist.ring, id);
      ReadMessage(cfg, s, id);
      HeadIsReadable(cfg, s, id);
      PassedBodyOk(cfg, id, p, a, h, Pred(|s.apps|, id), s.apps[h.origin].parts);
      KnownAfter(cfg, s, step, s', h.origin);
      BodyStaysOk(cfg, id, h, s.apps[h.origin].parts, s'.apps[h.origin].parts);
    }
  }

  lemma BodyStaysOk(cfg: Config, u: nat, m: Msg<Body>, known: seq<Part>, known': seq<Part>)
    requires Sized(cfg) && u < |cfg.parts| && m.Data? && BodyOk(cfg, u, m, known) && KeySet(known) <= KeySet(known')
    ensures BodyOk(cfg, u, m, known')
  {
    hide KeySet, AllParts;
  }

  lemma MessagesAfter(cfg: Config, s: Sys, step: SysStep, s': Sys)
    requires SysInv(cfg, s) && SysEnabled(cfg, s, step) && s' == SysApply(cfg, s, step) && SysWellFormed(cfg, s')
    ensures MessagesOk(cfg, s')
  {
    hide SysInv, SysApply, BodyOk, NextApp, NewPut, HistInv, WellFormed, KeySet, MessagesOk;
    Basics(cfg, s);
    LogsAfter(cfg, s, step, s');
    forall u: nat, m | u < |s'.apps| && m in s'.hist.put[u] ensures MessageOk(cfg, s', u, m) {
      if m in s.hist.put[u] {
        SentMessage(cfg, s, u, m);
        KnownAfter(cfg, s, step, s', m.origin);
        BodyStaysOk(cfg, u, m, s.apps[m.origin].parts, s'.apps[m.origin].parts);
      } else {
        NewMessageOk(cfg, s, step, s', m);
      }
    }
    AllMessages(cfg, s');
  }

  lemma AllMessages(cfg: Config, s: Sys)
    requires SysWellFormed(cfg, s)
    requires forall u: nat, m :: u < |s.apps| && m in s.hist.put[u] ==> MessageOk(cfg, s, u, m)
    ensures MessagesOk(cfg, s)
  {
    hide MessageOk;
  }

  /** Every step of every thread keeps the invariant of the advanced calculation. */
  lemma StepKeepsSysInv(cfg: Config, s: Sys, step: SysStep)
    requires ValidData(cfg) && SysInv(cfg, s) && SysEnabled(cfg, s, step)
    ensures SysInv(cfg, SysApply(cfg, s, step))
  {
    hide ValidData, SysApply, ProcessesOk, MessagesOk, HistInv, WellFormed;
    var s' := SysApply(cfg, s, step);
    HistAfter(cfg, s, step, s');
    ProcessesAfter(cfg, s, step, s');
    MessagesAfter(cfg, s, step, s');
  }
}
