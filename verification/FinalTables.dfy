/** The tables of the query: collecting the orders, exchanging the part sales, merging them. */
module FinalTables {
  import Sequences
  import opened Topology
  import opened Barrier
  import opened BarrierInvariant
  import BarrierTheorems
  import opened Query
  import opened FinalCompetition
  import opened FinalInvariant
  import opened FinalSteps
  import FinalKeys

  /** No part sale of another process arrives after the barrier of round 2. */
  lemma NoLateSales(cfg: Config, s: Sys, q: nat)
    requires SysInv(cfg, s) && q < |s.apps| && s.ring.procs[q].finishIndex >= 3
    requires s.ring.chans[Pred(|s.apps|, q)] != [] && Head(s.ring, q).Data?
    ensures !Head(s.ring, q).body.FinalPart?
  {
    var m := Head(s.ring, q);
    FinalKeys.LeftIsNotified(cfg, s, q, 2);
    assert InChan(s.ring, Pred(|s.apps|, q), m);
    assert MessageOk(cfg, s, Pred(|s.apps|, q), m);
    BarrierTheorems.ReadsLaterRounds(s.ring, q, 2, m);
  }

  // ---- the local tables ----

  lemma LocalsAfter(cfg: Config, s: Sys, step: SysStep, s': Sys)
    requires SysInv(cfg, s) && SysEnabled(cfg, s, step) && s' == SysApply(cfg, s, step)
    requires SysWellFormed(cfg, s')
    ensures LocalsOk(cfg, s')
  {
    RingAfter(cfg, s, step, s');
    OwnAfter(cfg, s, step, s');
    LocalAfter(cfg, s, step);
    assert LocalsOk(cfg, s);
    hide SysInv, SysApply, LocalOk;
    forall i | 0 <= i < |s.apps| ensures LocalOk(cfg, i, s'.ring.procs[i].finishIndex, s'.apps[i]) {
      assert LocalOk(cfg, i, s.ring.procs[i].finishIndex, s.apps[i]);
    }
  }

  lemma LocalAfter(cfg: Config, s: Sys, step: SysStep)
    requires SysInv(cfg, s) && SysEnabled(cfg, s, step)
    ensures LocalOk(cfg, step.id, NextProc(cfg, s, step).finishIndex, NextApp(cfg, s, step))
  {
    var id := step.id;
    var p, a := s.ring.procs[id], s.apps[id];
    assert LocalOk(cfg, id, p.finishIndex, a) && MainOk(cfg, id, p, a);
    if step.Main? {
      if p.finishIndex == 1 {
        FinalKeys.KeyFloodAgrees(cfg, s, id);
      }
      hide SysInv;
      LocalMain(cfg, id, p, a);
    } else if step.LeaveBarrier? {
      hide SysInv;
      LocalLeave(cfg, id, p, a);
    } else if step.Serve? && Head(s.ring, id).Data? {
      var m := Head(s.ring, id);
      assert InChan(s.ring, Pred(|s.apps|, id), m);
      assert MessageOk(cfg, s, Pred(|s.apps|, id), m);
      if p.finishIndex >= 3 {
        NoLateSales(cfg, s, id);
      }
      hide SysInv;
      LocalServe(cfg, id, p.finishIndex, a, m.body);
    }
  }

  lemma LocalLeave(cfg: Config, id: nat, p: Proc, a: App)
    requires ValidConfig(cfg) && id < |cfg.parts| && MainOk(cfg, id, p, a) && p.pc == Woken
    requires LocalOk(cfg, id, p.finishIndex, a)
    ensures LocalOk(cfg, id, p.finishIndex + 1, a.(pos := 0, sub := 0))
  {
    if p.finishIndex == 1 {
      assert cfg.orders[id][..a.pos] == cfg.orders[id];
    }
    assert Merged(p.finishIndex + 1, a.(pos := 0, sub := 0)) == Merged(p.finishIndex, a);
  }

  lemma LocalServe(cfg: Config, id: nat, round: nat, a: App, b: Body)
    requires ValidConfig(cfg) && id < |cfg.parts| && LocalOk(cfg, id, round, a)
    requires b.FinalPart? ==> round < 3 && b.sale.partid in AllKeys(cfg)
    ensures LocalOk(cfg, id, round, OnBody(Port(id), a, b).0)
  {
    if b.FinalPart? {
      InsertKeepsDistinct(a.receivePartData, b.sale);
    }
    assert Merged(round, OnBody(Port(id), a, b).0) == Merged(round, a);
  }

  /** Round 0: the next part is announced if it matches. */
  lemma LocalAnnounce(cfg: Config, id: nat, p: Proc, a: App)
    requires ValidConfig(cfg) && id < |cfg.parts| && MainOk(cfg, id, p, a) && LocalOk(cfg, id, 0, a)
    requires p.finishIndex == 0
    ensures
      var action := MainAction(cfg, id, 0, a);
      action.Compute? || action.SendBody? ==> LocalOk(cfg, id, 0, action.app)
  {
    hide Insert, Sum, Ids, Distinct, AllKeys;
    if MainAction(cfg, id, 0, a).SendBody? {
      FinalKeys.MatchingKey(cfg, id, a.pos);
      InsertInto(a.partData, PartSale(cfg.parts[id][a.pos].key, 0, 0));
    }
  }

  /** Round 1: the next order is kept if its part matches. */
  lemma LocalCollect(cfg: Config, id: nat, p: Proc, a: App)
    requires ValidConfig(cfg) && id < |cfg.parts| && MainOk(cfg, id, p, a) && LocalOk(cfg, id, 1, a)
    requires p.finishIndex == 1 && a.partKeyMap == AllKeys(cfg)
    ensures
      var action := MainAction(cfg, id, 1, a);
      action.Compute? || action.SendBody? ==> LocalOk(cfg, id, 1, action.app)
  {
    if a.pos < |cfg.orders[id]| {
      CollectOne(cfg.orders[id], AllKeys(cfg), a);
    }
  }

  /** Round 3, first loop: the next received record is merged. */
  lemma LocalMerge(cfg: Config, id: nat, p: Proc, a: App)
    requires ValidConfig(cfg) && id < |cfg.parts| && MainOk(cfg, id, p, a) && LocalOk(cfg, id, 3, a)
    requires p.finishIndex == 3 && a.sub == 0
    ensures
      var action := MainAction(cfg, id, 3, a);
      action.Compute? || action.SendBody? ==> LocalOk(cfg, id, 3, action.app)
  {
    if a.pos < |a.receivePartData| {
      MergeOne(a, MainAction(cfg, id, 3, a).app);
    } else {
      assert a.receivePartData[..a.pos] == a.receivePartData;
    }
  }

  lemma LocalMain(cfg: Config, id: nat, p: Proc, a: App)
    requires ValidConfig(cfg) && id < |cfg.parts| && MainOk(cfg, id, p, a) && LocalOk(cfg, id, p.finishIndex, a)
    requires p.finishIndex == 1 ==> a.partKeyMap == AllKeys(cfg)
    ensures
      var action := MainAction(cfg, id, p.finishIndex, a);
      action.Compute? || action.SendBody? ==> LocalOk(cfg, id, p.finishIndex, action.app)
  {
    var round := p.finishIndex;
    if round == 0 {
      LocalAnnounce(cfg, id, p, a);
    } else if round == 1 {
      LocalCollect(cfg, id, p, a);
    } else if round == 3 && a.sub == 0 {
      LocalMerge(cfg, id, p, a);
    }
  }

  lemma InsertInto(v: seq<PartSale>, d: PartSale)
    requires Distinct(v)
    ensures Distinct(Insert(v, d)) && Ids(Insert(v, d)) == Ids(v) + {d.partid}
    ensures forall key, f :: Sum(Insert(v, d), key, f) == Sum(v, key, f) + if d.partid == key then Amount(d, f) else 0
  {
    InsertKeepsDistinct(v, d);
    forall key, f
      ensures Sum(Insert(v, d), key, f) == Sum(v, key, f) + if d.partid == key then Amount(d, f) else 0
    {
      InsertAdds(v, d, key, f);
    }
  }

  /** One iteration over the orders keeps the selection and its sums. */
  lemma CollectOne(orders: seq<Order>, keys: set<int>, a: App)
    requires a.pos < |orders| && a.partKeyMap == keys && Distinct(a.partData) && Ids(a.partData) <= keys
    requires forall o :: o in a.orders ==> o.key in Ids(a.partData)
    requires a.orders == Select(orders[..a.pos], keys)
    requires forall key, f :: Sum(a.partData, key, f) == OrderSum(a.orders, key, f)
    ensures CollectOrders(orders, a).Compute?
    ensures var b := CollectOrders(orders, a).app;
      && b.orders == Select(orders[..b.pos], keys) && Distinct(b.partData) && Ids(b.partData) <= keys
      && (forall o :: o in b.orders ==> o.key in Ids(b.partData))
      && (forall key, f :: Sum(b.partData, key, f) == OrderSum(b.orders, key, f))
  {
    var o, b := orders[a.pos], CollectOrders(orders, a).app;
    assert orders[..a.pos + 1][..a.pos] == orders[..a.pos];
    assert Select(orders[..a.pos], keys) + [] == Select(orders[..a.pos], keys);
    if o.key in keys {
      InsertInto(a.partData, PartSale(o.key, o.quantity, 1));
      forall key, f ensures Sum(b.partData, key, f) == OrderSum(b.orders, key, f) {
        OrderSumAppend(a.orders, [o], key, f);
        assert OrderSum([o], key, f) == Quantity(o, key, f);
      }
    }
  }

  /** One iteration of `mergeData`. */
  lemma MergeOne(a: App, a': App)
    requires a.sub == 0 && a.pos < |a.receivePartData| && Distinct(a.partData)
    requires GetLocalUnderSale(a) == Compute(a')
    requires
      forall key, f ::
        Sum(a.partData, key, f) == OrderSum(a.orders, key, f) + Sum(a.receivePartData[..a.pos], key, f)
    ensures Distinct(a'.partData)
    ensures Ids(a.partData) <= Ids(a'.partData) <= Ids(a.partData) + Ids(a.receivePartData)
    ensures
      forall key, f ::
        Sum(a'.partData, key, f) == OrderSum(a'.orders, key, f) + Sum(a'.receivePartData[..a'.pos], key, f)
  {
    var d := a.receivePartData[a.pos];
    InsertInto(a.partData, d);
    assert a.receivePartData[..a.pos + 1] == a.receivePartData[..a.pos] + [d];
    forall key, f
      ensures Sum(a'.partData, key, f) == OrderSum(a'.orders, key, f) + Sum(a'.receivePartData[..a'.pos], key, f)
    {
      SumAppend(a.receivePartData[..a.pos], [d], key, f);
    }
  }

  // ---- the exchange ----

  /** The message a step puts into the channel of its process, if any. */
  ghost function Put(cfg: Config, s: Sys, step: SysStep): seq<Msg<Body>>
    requires SysWellFormed(cfg, s) && SysEnabled(cfg, s, step)
  {
    var n, id := |s.apps|, step.id;
    var p := s.ring.procs[id];
    match step
    case Main(_) =>
      if NextAction(cfg, s, id).SendBody? then [Data(id, p.finishIndex, NextAction(cfg, s, id).body)] else []
    case SendFinish(_) => [Token(p.finishIndex, Stamped(id, ZeroDigits(n)))]
    case WakeUp(_) => []
    case LeaveBarrier(_) => []
    case MarkRound(_) => []
    case Serve(_) =>
      var m := Head(s.ring, id);
      assert InChan(s.ring, Pred(n, id), m) && WellFormedMsg(n, m);
      if m.Data? then (if OnBody(Port(id), s.apps[id], m.body).1 then [m] else [])
      else if FinishVerdict(p, m.round, m.digits).Ignore? then []
      else [Token(m.round, Stamped(id, m.digits))]
  }

  /** What joins the channel of `u`, and what its reader `v` takes out of its inbound channel. */
  ghost function PutBy(cfg: Config, s: Sys, step: SysStep, u: nat): seq<Msg<Body>>
    requires SysWellFormed(cfg, s) && SysEnabled(cfg, s, step)
  {
    if u == step.id then Put(cfg, s, step) else []
  }

  ghost function TakenBy(cfg: Config, s: Sys, step: SysStep, v: nat): seq<Msg<Body>>
    requires SysWellFormed(cfg, s) && SysEnabled(cfg, s, step)
  {
    if step.Serve? && v == step.id then [Head(s.ring, v)] else []
  }

  /** A channel is a queue: what was in it and what joins is what is taken and what is left. */
  lemma ChannelAfter(cfg: Config, s: Sys, step: SysStep, s': Sys, u: nat)
    requires SysInv(cfg, s) && SysEnabled(cfg, s, step) && s' == SysApply(cfg, s, step)
    requires SysWellFormed(cfg, s') && u < |s.apps|
    ensures s.ring.chans[u] + PutBy(cfg, s, step, u) ==
            TakenBy(cfg, s, step, Succ(|s.apps|, u)) + s'.ring.chans[u]
  {
    assert SysWellFormed(cfg, s);
    if step.Serve? {
      StepsMakeOneLap(cfg, s, step);
      hide SysInv;
      ServedChannel(cfg, s, step, s', u);
    } else {
      hide SysInv;
      assert s.ring.chans[u] + [] == s.ring.chans[u];
    }
  }

  lemma ServedChannel(cfg: Config, s: Sys, step: SysStep, s': Sys, u: nat)
    requires SysWellFormed(cfg, s) && SysEnabled(cfg, s, step) && s' == SysApply(cfg, s, step)
    requires step.Serve? && OneLap(s.ring, RingStep(cfg, s, step)) && u < |s.apps|
    ensures |s'.ring.chans| == |s.apps|
    ensures s.ring.chans[u] + PutBy(cfg, s, step, u) ==
            TakenBy(cfg, s, step, Succ(|s.apps|, u)) + s'.ring.chans[u]
  {
    var w := Pred(|s.apps|, step.id);
    var h := Head(s.ring, step.id);
    assert Succ(|s.apps|, u) == step.id <==> u == w;
    assert InChan(s.ring, w, h) && WellFormedMsg(|s.apps|, h);
    assert s.ring.chans[w] == [h] + s.ring.chans[w][1..];
    assert s.ring.chans[u] + [] == s.ring.chans[u];
  }

  lemma LedgerAfter(cfg: Config, s: Sys, step: SysStep, s': Sys)
    requires SysWellFormed(cfg, s) && SysEnabled(cfg, s, step) && s' == SysApply(cfg, s, step)
    ensures s'.ledger == NextLedger(cfg, s, step)
  {
    hide NextLedger, NextApp, MainAction;
  }

  /** A part sale comes from the process it names. */
  lemma HeadSale(cfg: Config, s: Sys, id: nat)
    requires SysInv(cfg, s) && SysEnabled(cfg, s, Serve(id))
    ensures
      var m := Head(s.ring, id);
      m.Data? && m.body.FinalPart? ==> m.origin < |s.apps| && m.body.from == Port(m.origin)
  {
    hide SysInv, Inv;
    Basics(cfg, s);
    HeadIs(cfg, s, id);
  }

  /** What a process books of `p` is what it puts into its channel of `p`. */
  lemma LedgerAtSender(cfg: Config, s: Sys, step: SysStep, s': Sys, u: nat, p: nat)
    requires SysInv(cfg, s) && SysEnabled(cfg, s, step) && s' == SysApply(cfg, s, step)
    requires SysWellFormed(cfg, s') && u < |s.apps| && p < |s.apps|
    ensures s'.ledger[u][p] == s.ledger[u][p] + SalesIn(PutBy(cfg, s, step, u), p)
  {
    hide SysInv, Inv, MessageOk, MainAction, SysApply, NextApp, MovesRing;
    Basics(cfg, s);
    LedgerAfter(cfg, s, step, s');
    if step.Serve? {
      HeadIs(cfg, s, step.id);
      HeadSale(cfg, s, step.id);
    }
    assert s.ledger[u][p] + [] == s.ledger[u][p];
  }

  /** What a process books of another process is what it takes out of its inbound channel. */
  lemma LedgerAtReader(cfg: Config, s: Sys, step: SysStep, s': Sys, v: nat, p: nat)
    requires SysInv(cfg, s) && SysEnabled(cfg, s, step) && s' == SysApply(cfg, s, step)
    requires SysWellFormed(cfg, s') && v < |s.apps| && p < |s.apps| && v != p
    ensures s'.ledger[v][p] == s.ledger[v][p] + SalesIn(TakenBy(cfg, s, step, v), p)
  {
    hide SysInv, Inv, MessageOk, MainAction, SysApply, NextApp, MovesRing;
    Basics(cfg, s);
    LedgerAfter(cfg, s, step, s');
    if step.Serve? {
      HeadIs(cfg, s, step.id);
      HeadSale(cfg, s, step.id);
    }
    assert s.ledger[v][p] + [] == s.ledger[v][p];
  }

  lemma {:induction false} SalesInConcat(ch: seq<Msg<Body>>, more: seq<Msg<Body>>, p: nat)
    ensures SalesIn(ch + more, p) == SalesIn(ch, p) + SalesIn(more, p)
  {
    if ch == [] {
      assert ch + more == more;
    } else {
      assert (ch + more)[1..] == ch[1..] + more;
      SalesInConcat(ch[1..], more, p);
    }
  }

  /** Conservation along a queue. */
  lemma QueueConserves(booked: seq<PartSale>, merged: seq<PartSale>, ch: seq<Msg<Body>>, put: seq<Msg<Body>>,
                       taken: seq<Msg<Body>>, ch': seq<Msg<Body>>, p: nat)
    requires booked == merged + SalesIn(ch, p) && ch + put == taken + ch'
    ensures booked + SalesIn(put, p) == merged + SalesIn(taken, p) + SalesIn(ch', p)
  {
    SalesInConcat(ch, put, p);
    SalesInConcat(taken, ch', p);
    Sequences.ConcatAssociates(merged, SalesIn(ch, p), SalesIn(put, p));
    Sequences.ConcatAssociates(merged, SalesIn(taken, p), SalesIn(ch', p));
  }

  lemma EdgeAfter(cfg: Config, s: Sys, step: SysStep, s': Sys, u: nat, p: nat)
    requires SysInv(cfg, s) && SysEnabled(cfg, s, step) && s' == SysApply(cfg, s, step)
    requires SysWellFormed(cfg, s') && u < |s.apps| && p < |s.apps|
    ensures EdgeOk(s', u, p)
  {
    var v := Succ(|s.apps|, u);
    if v != p {
      assert EdgeOk(s, u, p);
      ChannelAfter(cfg, s, step, s', u);
      LedgerAtSender(cfg, s, step, s', u, p);
      LedgerAtReader(cfg, s, step, s', v, p);
      QueueConserves(s.ledger[u][p], s.ledger[v][p], s.ring.chans[u], PutBy(cfg, s, step, u),
                     TakenBy(cfg, s, step, v), s'.ring.chans[u], p);
    }
  }

  lemma SentAfter(cfg: Config, s: Sys, step: SysStep, s': Sys, p: nat)
    requires SysInv(cfg, s) && SysEnabled(cfg, s, step) && s' == SysApply(cfg, s, step)
    requires SysWellFormed(cfg, s') && p < |s.apps|
    ensures SentOk(cfg, s', p)
  {
    if p != step.id {
      RingAfter(cfg, s, step, s');
      LedgerAtSender(cfg, s, step, s', p, p);
      assert SentOk(cfg, s, p);
    } else if step.Main? {
      SentMain(cfg, s, step, s');
    } else if step.Serve? {
      SentServe(cfg, s, step, s');
    } else {
      SentSync(cfg, s, step, s');
    }
  }

  lemma SentMain(cfg: Config, s: Sys, step: SysStep, s': Sys)
    requires SysInv(cfg, s) && SysEnabled(cfg, s, step) && s' == SysApply(cfg, s, step)
    requires SysWellFormed(cfg, s') && step.Main?
    ensures SentOk(cfg, s', step.id)
  {
    var p := step.id;
    var a, round := s.apps[p], s.ring.procs[p].finishIndex;
    assert SentOk(cfg, s, p) && MainOk(cfg, p, s.ring.procs[p], a);
    if round == 2 && a.pos < |a.partData| {
      assert a.partData[..a.pos + 1] == a.partData[..a.pos] + [a.partData[a.pos]];
    }
  }

  lemma SentServe(cfg: Config, s: Sys, step: SysStep, s': Sys)
    requires SysInv(cfg, s) && SysEnabled(cfg, s, step) && s' == SysApply(cfg, s, step)
    requires SysWellFormed(cfg, s') && step.Serve?
    ensures SentOk(cfg, s', step.id)
  {
    var p := step.id;
    var h := Head(s.ring, p);
    assert InChan(s.ring, Pred(|s.apps|, p), h);
    if h.Data? {
      assert MessageOk(cfg, s, Pred(|s.apps|, p), h);
    }
    assert SentOk(cfg, s, p);
    assert s'.ledger[p][p] == s.ledger[p][p];
  }

  lemma SentSync(cfg: Config, s: Sys, step: SysStep, s': Sys)
    requires SysInv(cfg, s) && SysEnabled(cfg, s, step) && s' == SysApply(cfg, s, step)
    requires SysWellFormed(cfg, s') && !step.Main? && !step.Serve?
    ensures SentOk(cfg, s', step.id)
  {
    var p := step.id;
    var a, round := s.apps[p], s.ring.procs[p].finishIndex;
    assert SentOk(cfg, s, p) && MainOk(cfg, p, s.ring.procs[p], a) && LocalOk(cfg, p, round, a);
    assert s'.ledger == s.ledger;
    if step.LeaveBarrier? && round == 2 {
      assert a.partData[..a.pos] == a.partData;
    }
  }

  lemma {:induction false} LedgerSumUpdate(row: seq<seq<PartSale>>, p: nat, more: seq<PartSale>, q: nat, key: int, f: Column, k: nat)
    requires k <= |row| && p < |row|
    ensures LedgerSum(row[p := row[p] + more], q, key, f, k) ==
            LedgerSum(row, q, key, f, k) + if p < k && p != q then Sum(more, key, f) else 0
  {
    if k > 0 {
      LedgerSumUpdate(row, p, more, q, key, f, k - 1);
      SumAppend(row[p], more, key, f);
    }
  }

  lemma ReceivedAfter(cfg: Config, s: Sys, step: SysStep, s': Sys, q: nat)
    requires SysInv(cfg, s) && SysEnabled(cfg, s, step) && s' == SysApply(cfg, s, step)
    requires SysWellFormed(cfg, s') && q < |s.apps|
    ensures ReceivedOk(cfg, s', q)
  {
    RingAfter(cfg, s, step, s');
    assert ReceivedOk(cfg, s, q);
    if q == step.id && step.Main? {
      ReceivedMain(cfg, s, step, s');
    } else if q == step.id && step.Serve? {
      ReceivedServe(cfg, s, step, s');
    }
  }

  lemma ReceivedMain(cfg: Config, s: Sys, step: SysStep, s': Sys)
    requires SysInv(cfg, s) && SysEnabled(cfg, s, step) && s' == SysApply(cfg, s, step)
    requires SysWellFormed(cfg, s') && step.Main?
    ensures ReceivedOk(cfg, s', step.id)
  {
    var q := step.id;
    assert ReceivedOk(cfg, s, q);
    assert s'.apps[q].receivePartData == s.apps[q].receivePartData;
    if NextAction(cfg, s, q).SendBody? && NextAction(cfg, s, q).body.FinalPart? {
      var sale := NextAction(cfg, s, q).body.sale;
      assert s'.ledger[q] == s.ledger[q][q := s.ledger[q][q] + [sale]];
      forall key, f { LedgerSumUpdate(s.ledger[q], q, [sale], q, key, f, |s.apps|); }
    }
  }

  lemma ReceivedServe(cfg: Config, s: Sys, step: SysStep, s': Sys)
    requires SysInv(cfg, s) && SysEnabled(cfg, s, step) && s' == SysApply(cfg, s, step)
    requires SysWellFormed(cfg, s') && step.Serve?
    ensures ReceivedOk(cfg, s', step.id)
  {
    var n, q, h := |s.apps|, step.id, Head(s.ring, step.id);
    assert ReceivedOk(cfg, s, q);
    assert InChan(s.ring, Pred(n, q), h);
    if h.Data? && h.body.FinalPart? {
      assert MessageOk(cfg, s, Pred(n, q), h);
      if h.origin != q {
        var v, sale := s.apps[q].receivePartData, h.body.sale;
        assert s'.ledger[q] == s.ledger[q][h.origin := s.ledger[q][h.origin] + [sale]];
        assert s'.apps[q].receivePartData == Insert(v, sale);
        forall key, f
          ensures Sum(Insert(v, sale), key, f) == LedgerSum(s'.ledger[q], q, key, f, n)
        {
          InsertAdds(v, sale, key, f);
          LedgerSumUpdate(s.ledger[q], h.origin, [sale], q, key, f, n);
          assert Sum([sale], key, f) == if sale.partid == key then Amount(sale, f) else 0;
        }
      }
    }
  }

  lemma SalesAfter(cfg: Config, s: Sys, step: SysStep, s': Sys)
    requires SysInv(cfg, s) && SysEnabled(cfg, s, step) && s' == SysApply(cfg, s, step)
    requires SysWellFormed(cfg, s')
    ensures SalesOk(cfg, s')
  {
    RingAfter(cfg, s, step, s');
    forall u: nat, p: nat | u < |s.apps| && p < |s.apps| ensures EdgeOk(s', u, p) {
      EdgeAfter(cfg, s, step, s', u, p);
    }
    forall p: nat | p < |s.apps| ensures SentOk(cfg, s', p) {
      SentAfter(cfg, s, step, s', p);
    }
    forall q: nat | q < |s.apps| ensures ReceivedOk(cfg, s', q) {
      ReceivedAfter(cfg, s, step, s', q);
    }
  }
}
