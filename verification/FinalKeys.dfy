/** The key flood of `preprocess` and the messages in general. */
module FinalKeys {
  import Sequences
  import opened Topology
  import opened Barrier
  import opened BarrierInvariant
  import BarrierTheorems
  import opened Query
  import opened FinalCompetition
  import opened FinalInvariant
  import opened FinalSteps

  lemma MatchingKey(cfg: Config, u: nat, j: nat)
    requires u < |cfg.parts| && j < |cfg.parts[u]| && Matches(cfg.parts[u][j], cfg.target)
    ensures cfg.parts[u][j].key in AllKeys(cfg)
  {
    Sequences.InFlatten(cfg.parts, u, cfg.parts[u][j]);
  }

  /** A process that has left the barrier of round `r` was notified of it. */
  lemma LeftIsNotified(cfg: Config, s: Sys, q: nat, r: nat)
    requires SysInv(cfg, s) && q < |s.apps| && r < s.ring.procs[q].finishIndex
    ensures r in s.ring.procs[q].hasNotify
  {
    assert FlagsAgree(s.ring.procs[q]);
  }

  /** The answer of the predecessor has arrived by the time a process is to send its own. */
  lemma AnswerArrives(cfg: Config, s: Sys, q: nat)
    requires SysInv(cfg, s) && q < |s.apps|
    requires s.ring.procs[q].finishIndex >= 3 + Place(cfg, q) && Place(cfg, q) >= 2
    ensures AnswerMerged(cfg, s, q)
  {
    var n := |s.apps|;
    var p, r := Pred(n, q), 2 + Place(cfg, q);
    LeftIsNotified(cfg, s, q, r);
    assert HasEntered(s.ring.procs[p], r);
    assert MainOk(cfg, p, s.ring.procs[p], s.apps[p]);
    assert Dist(n, cfg.selectIdx, p) == Place(cfg, q) - 1;
    assert AnswerSent(cfg, s, p);
    forall m | m in s.ring.chans[p] ensures m.Data? ==> !m.body.FinalAns? {
      assert InChan(s.ring, p, m);
      if m.Data? && m.body.FinalAns? {
        assert MessageOk(cfg, s, p, m);
        BarrierTheorems.ReadsLaterRounds(s.ring, q, r, m);
      }
    }
    NoAnswers(s.ring.chans[p]);
  }

  lemma {:induction false} NoAnswers(ch: seq<Msg<Body>>)
    requires forall m :: m in ch && m.Data? ==> !m.body.FinalAns?
    ensures AnswersIn(ch) == 0
  {
    if ch != [] {
      NoAnswers(ch[1..]);
    }
  }

  /** What a process sends as its answer is the revenue of all processes up to itself. */
  lemma SentAnswer(cfg: Config, s: Sys, id: nat)
    requires SysInv(cfg, s) && SysEnabled(cfg, s, Main(id))
    requires NextAction(cfg, s, id).SendBody? && NextAction(cfg, s, id).body.FinalAns?
    ensures id != cfg.selectIdx
    ensures s.ring.procs[id].finishIndex == 3 + Dist(|s.apps|, cfg.selectIdx, id)
    ensures NextAction(cfg, s, id).body.answer == Chain(cfg, Dist(|s.apps|, cfg.selectIdx, id))
  {
    var round := s.ring.procs[id].finishIndex;
    assert 4 <= round < |s.apps| + 3 && id == NowAt(cfg, round - 4);
    assert id != cfg.selectIdx && Place(cfg, id) == round - 3;
    assert AnswerOk(cfg, s, id) && HasEntered(s.ring.procs[id], 3);
    if Place(cfg, id) >= 2 {
      AnswerArrives(cfg, s, id);
    } else {
      assert Chain(cfg, 1) == Chain(cfg, 0) + Own(cfg, After(|cfg.parts|, cfg.selectIdx, 1));
    }
  }

  lemma KnowledgeGrows(cfg: Config, s: Sys, step: SysStep, s': Sys, u: nat)
    requires SysInv(cfg, s) && SysEnabled(cfg, s, step) && s' == SysApply(cfg, s, step) && u < |s.apps|
    ensures |s'.apps| == |s.apps| == |s'.ring.procs|
    ensures s.apps[u].partKeyMap <= s'.apps[u].partKeyMap
    ensures s.ring.procs[u].finishIndex <= s'.ring.procs[u].finishIndex
  {
    RingAfter(cfg, s, step, s');
    OwnAfter(cfg, s, step, s');
    hide SysInv, SysApply;
  }

  lemma MessagesOkAfter(cfg: Config, s: Sys, step: SysStep, s': Sys)
    requires SysInv(cfg, s) && SysEnabled(cfg, s, step) && s' == SysApply(cfg, s, step)
    requires SysWellFormed(cfg, s')
    ensures MessagesOk(cfg, s')
  {
    forall u: nat | u < |s.apps| { KnowledgeGrows(cfg, s, step, s', u); }
    forall c, m | InChan(s'.ring, c, m) && m.Data? ensures MessageOk(cfg, s', c, m) {
      DataAfter(cfg, s, step, s', c, m);
      if InChan(s.ring, c, m) {
        assert MessageOk(cfg, s, c, m);
      } else if step.Main? {
        SentMessageOk(cfg, s, step, s', m);
      } else {
        ForwardedMessageOk(cfg, s, step, s', m);
      }
    }
  }

  lemma SentMessageOk(cfg: Config, s: Sys, step: SysStep, s': Sys, m: Msg<Body>)
    requires SysInv(cfg, s) && SysEnabled(cfg, s, step) && s' == SysApply(cfg, s, step)
    requires SysWellFormed(cfg, s') && step.Main? && AddedData(cfg, s, step, m)
    ensures MessageOk(cfg, s', step.id, m)
  {
    var id := step.id;
    KnowledgeGrows(cfg, s, step, s', id);
    assert MainOk(cfg, id, s.ring.procs[id], s.apps[id]);
    match m.body
    case PartKey(key) =>
      assert KeysOk(cfg, s, id);
      MatchingKey(cfg, id, s.apps[id].pos);
    case FinalPart(_, _) => assert LocalOk(cfg, id, 2, s.apps[id]);
    case FinalAns(_) => SentAnswer(cfg, s, id);
  }

  lemma ForwardedMessageOk(cfg: Config, s: Sys, step: SysStep, s': Sys, m: Msg<Body>)
    requires SysInv(cfg, s) && SysEnabled(cfg, s, step) && s' == SysApply(cfg, s, step)
    requires SysWellFormed(cfg, s') && step.Serve? && AddedData(cfg, s, step, m)
    ensures MessageOk(cfg, s', step.id, m)
  {
    var n, id := |s.apps|, step.id;
    assert MessageOk(cfg, s, Pred(n, id), m);
    forall u: nat | u < n { KnowledgeGrows(cfg, s, step, s', u); }
    StepsMakeOneLap(cfg, s, step);
    assert m.origin != id;
    if m.body.PartKey? {
      forall w: nat | w < n && Dist(n, m.origin, w) <= Dist(n, m.origin, id)
        ensures m.body.key in s'.apps[w].partKeyMap
      {
        assert w == id || Dist(n, m.origin, w) <= Dist(n, m.origin, Pred(n, id));
      }
    }
  }

  // ---- the flood ----

  lemma AllKeysOkAfter(cfg: Config, s: Sys, step: SysStep, s': Sys)
    requires SysInv(cfg, s) && SysEnabled(cfg, s, step) && s' == SysApply(cfg, s, step)
    requires SysWellFormed(cfg, s')
    ensures AllKeysOk(cfg, s')
  {
    RingAfter(cfg, s, step, s');
    forall u: nat | u < |s.apps| ensures KeysOk(cfg, s', u) {
      KnownKeysAfter(cfg, s, step, s', u);
      forall key | key in s'.apps[u].partKeyMap
        ensures key in s'.apps[Succ(|s.apps|, u)].partKeyMap || KeyIn(s', u, key) || StillToSend(cfg, s', u, key)
      {
        KeyMovesOn(cfg, s, step, s', u, key);
      }
    }
  }

  lemma KnownKeysAfter(cfg: Config, s: Sys, step: SysStep, s': Sys, u: nat)
    requires SysInv(cfg, s) && SysEnabled(cfg, s, step) && s' == SysApply(cfg, s, step)
    requires SysWellFormed(cfg, s') && u < |s.apps|
    ensures KnowsOwn(cfg, u, s'.ring.procs[u].finishIndex, s'.apps[u])
  {
    RingAfter(cfg, s, step, s');
    OwnAfter(cfg, s, step, s');
    assert KeysOk(cfg, s, u) && MainOk(cfg, u, s.ring.procs[u], s.apps[u]) && MessagesOk(cfg, s);
    hide SysInv, SysApply;
    if u == step.id {
      if step.Main? {
        MainKnowsOwn(cfg, u, s.ring.procs[u], s.apps[u]);
      } else if step.Serve? {
        var m := Head(s.ring, u);
        assert InChan(s.ring, Pred(|s.apps|, u), m);
        assert m.Data? ==> MessageOk(cfg, s, Pred(|s.apps|, u), m);
      }
    }
  }

  lemma MainKnowsOwn(cfg: Config, u: nat, p: Proc, a: App)
    requires ValidConfig(cfg) && u < |cfg.parts| && MainOk(cfg, u, p, a) && KnowsOwn(cfg, u, p.finishIndex, a)
    ensures
      var action := MainAction(cfg, u, p.finishIndex, a);
      action.Compute? || action.SendBody? ==> KnowsOwn(cfg, u, p.finishIndex, action.app)
  {
    if p.finishIndex == 0 && a.pos < |cfg.parts[u]| && Matches(cfg.parts[u][a.pos], cfg.target) {
      MatchingKey(cfg, u, a.pos);
    }
  }

  /** A key that `u` knows is known to, on its way to, or about to be sent to its successor. */
  lemma KeyMovesOn(cfg: Config, s: Sys, step: SysStep, s': Sys, u: nat, key: int)
    requires SysInv(cfg, s) && SysEnabled(cfg, s, step) && s' == SysApply(cfg, s, step)
    requires SysWellFormed(cfg, s') && u < |s.apps| && key in s'.apps[u].partKeyMap
    ensures key in s'.apps[Succ(|s.apps|, u)].partKeyMap || KeyIn(s', u, key) || StillToSend(cfg, s', u, key)
  {
    var n := |s.apps|;
    var v := Succ(n, u);
    RingAfter(cfg, s, step, s');
    KnowledgeGrows(cfg, s, step, s', v);
    assert KeysOk(cfg, s, u) && MainOk(cfg, u, s.ring.procs[u], s.apps[u]);
    if key !in s.apps[u].partKeyMap {
      NewKey(cfg, s, step, s', key);
    } else if key in s.apps[v].partKeyMap {
    } else if KeyIn(s, u, key) {
      var m :| InChan(s.ring, u, m) && m.Data? && m.body == PartKey(key);
      DataStays(cfg, s, step, s', u, m);
    } else {
      KeyIsSent(cfg, s, step, s', u, key);
    }
  }

  lemma NewKey(cfg: Config, s: Sys, step: SysStep, s': Sys, key: int)
    requires SysInv(cfg, s) && SysEnabled(cfg, s, step) && s' == SysApply(cfg, s, step)
    requires SysWellFormed(cfg, s')
    requires key !in s.apps[step.id].partKeyMap && key in s'.apps[step.id].partKeyMap
    ensures KeyIn(s', step.id, key) || StillToSend(cfg, s', step.id, key)
  {
    var id := step.id;
    if step.Serve? {
      var m := Head(s.ring, id);
      assert InChan(s.ring, Pred(|s.apps|, id), m);
      DataIsAdded(cfg, s, step, s', m);
    }
  }

  lemma KeyIsSent(cfg: Config, s: Sys, step: SysStep, s': Sys, u: nat, key: int)
    requires SysInv(cfg, s) && SysEnabled(cfg, s, step) && s' == SysApply(cfg, s, step)
    requires SysWellFormed(cfg, s') && u < |s.apps| && StillToSend(cfg, s, u, key)
    ensures KeyIn(s', u, key) || StillToSend(cfg, s', u, key)
  {
    RingAfter(cfg, s, step, s');
    assert MainOk(cfg, u, s.ring.procs[u], s.apps[u]);
    var parts := cfg.parts[u];
    var j :| s.apps[u].pos <= j < |parts| && Matches(parts[j], cfg.target) && parts[j].key == key;
    if s'.ring.procs[u].finishIndex == 0 && s'.apps[u].pos <= j {
      assert StillToSend(cfg, s', u, key);
    } else {
      assert u == step.id;
      assert step.Main? && j == s.apps[u].pos && NextAction(cfg, s, u).SendBody?;
      var m: Msg<Body> := Data(u, 0, PartKey(key));
      DataIsAdded(cfg, s, step, s', m);
    }
  }

  /** Once a process is notified of the first barrier it knows every key that any process before it
      on the ring knows. */
  lemma {:induction false} KeyReaches(cfg: Config, s: Sys, u: nat, q: nat, key: int)
    requires SysInv(cfg, s) && u < |s.apps| && q < |s.apps|
    requires 0 in s.ring.procs[q].hasNotify && key in s.apps[u].partKeyMap
    ensures key in s.apps[q].partKeyMap
    decreases Dist(|s.apps|, u, q)
  {
    var n := |s.apps|;
    if u != q {
      assert KeysOk(cfg, s, u) && HasEntered(s.ring.procs[u], 0);
      assert MainOk(cfg, u, s.ring.procs[u], s.apps[u]);
      if key in s.apps[Succ(n, u)].partKeyMap {
        KeyReaches(cfg, s, Succ(n, u), q, key);
      } else {
        var m :| InChan(s.ring, u, m) && m.Data? && m.body == PartKey(key);
        assert MessageOk(cfg, s, u, m);
        assert Passed(n, m.origin, q, u);
      }
    }
  }

  /** Key flood agreement: behind the first barrier every process knows exactly the keys of the
      matching parts of all processes. */
  lemma KeyFloodAgrees(cfg: Config, s: Sys, q: nat)
    requires SysInv(cfg, s) && q < |s.apps| && s.ring.procs[q].finishIndex >= 1
    ensures s.apps[q].partKeyMap == AllKeys(cfg)
    ensures forall key :: key in s.apps[q].partKeyMap <==>
      exists p :: p in Sequences.Flatten(cfg.parts) && p.key == key && p.container == cfg.target.container
        && p.brand.0 == cfg.target.brand.0 && p.brand.1 == cfg.target.brand.1
  {
    LeftIsNotified(cfg, s, q, 0);
    assert KeysOk(cfg, s, q);
    forall key | key in AllKeys(cfg) ensures key in s.apps[q].partKeyMap {
      var part :| part in Sequences.Flatten(cfg.parts) && Matches(part, cfg.target) && part.key == key;
      var p := Sequences.FromFlatten(cfg.parts, part);
      var j :| 0 <= j < |cfg.parts[p]| && cfg.parts[p][j] == part;
      assert KeysOk(cfg, s, p) && HasEntered(s.ring.procs[p], 0);
      assert MainOk(cfg, p, s.ring.procs[p], s.apps[p]);
      KeyReaches(cfg, s, p, q, key);
    }
  }
}
