/** From merged part sales to the answer. */
module FinalAnswers {
  import Sequences
  import opened Topology
  import opened Barrier
  import opened BarrierInvariant
  import opened Query
  import opened FinalCompetition
  import opened FinalInvariant
  import opened FinalSteps
  import opened FinalKeys
  import opened FinalTables

  // ---- exactly once ----

  lemma {:induction false} NoSales(ch: seq<Msg<Body>>, p: nat)
    requires forall m :: m in ch ==> SaleOf(m, p) == []
    ensures SalesIn(ch, p) == []
  {
    if ch != [] {
      NoSales(ch[1..], p);
    }
  }

  lemma SaleHasPassed(cfg: Config, s: Sys, q: nat, w: nat, m: Msg<Body>)
    requires SysInv(cfg, s) && q < |s.apps| && 2 in s.ring.procs[q].hasNotify
    requires InChan(s.ring, w, m) && m.Data? && m.body.FinalPart?
    ensures m.origin < |s.apps| && w < |s.apps| && Passed(|s.apps|, m.origin, q, w)
  {
    hide SysInv;
    Basics(cfg, s);
    MessageIs(cfg, s, w, m);
  }

  lemma EdgeIs(cfg: Config, s: Sys, u: nat, p: nat)
    requires SysInv(cfg, s) && u < |s.apps| && p < |s.apps|
    ensures SysWellFormed(cfg, s) && |s.ring.chans| == |s.apps| && EdgeOk(s, u, p)
  {
    hide Inv, MainsOk, MessagesOk, AllKeysOk, LocalsOk, AnswersOk, EdgeOk;
    SizesAgree(s.ring);
  }

  /** Up to `q` no part sale of `p` is left on the way once `q` is notified of round 2. */
  lemma {:induction false} SalesReach(cfg: Config, s: Sys, p: nat, u: nat, q: nat)
    requires SysInv(cfg, s) && p < |s.apps| && u < |s.apps| && q < |s.apps| && p != q
    requires 2 in s.ring.procs[q].hasNotify && Dist(|s.apps|, p, u) <= Dist(|s.apps|, p, q)
    ensures s.ledger[u][p] == s.ledger[p][p]
    decreases Dist(|s.apps|, p, u)
  {
    hide SysInv, Inv, MessageOk;
    Basics(cfg, s);
    var n := |s.apps|;
    if u != p {
      var w := Pred(n, u);
      SalesReach(cfg, s, p, w, q);
      forall m | m in s.ring.chans[w] ensures SaleOf(m, p) == [] {
        assert InChan(s.ring, w, m);
        if m.Data? && m.body.FinalPart? {
          SaleHasPassed(cfg, s, q, w, m);
        }
      }
      NoSales(s.ring.chans[w], p);
      EdgeIs(cfg, s, w, p);
      assert Succ(n, w) == u;
      assert s.ledger[u][p] + [] == s.ledger[u][p];
    }
  }

  /** Exactly-once aggregation: a process that has left the barrier of round 2 has merged the part
      sales of every other process, each once and in the order in which they were sent. */
  lemma EachSaleMergedOnce(cfg: Config, s: Sys, p: nat, q: nat)
    requires SysInv(cfg, s) && p < |s.apps| && q < |s.apps| && p != q
    requires s.ring.procs[q].finishIndex >= 3
    ensures s.ledger[q][p] == s.ledger[p][p]
    ensures HasEntered(s.ring.procs[p], 2)
  {
    LeftIsNotified(cfg, s, q, 2);
    SalesReach(cfg, s, p, q, q);
  }

  lemma OwnLedger(cfg: Config, s: Sys, p: nat, key: int, f: Column)
    requires SysInv(cfg, s) && p < |s.apps| && HasEntered(s.ring.procs[p], 2)
    ensures Sum(s.ledger[p][p], key, f) == OrderSum(Select(cfg.orders[p], AllKeys(cfg)), key, f)
  {
    var a, round := s.apps[p], s.ring.procs[p].finishIndex;
    assert SentOk(cfg, s, p) && LocalOk(cfg, p, round, a) && MainOk(cfg, p, s.ring.procs[p], a);
    if round == 2 {
      assert a.partData[..a.pos] == a.partData;
    }
  }

  // ---- the totals ----

  function TotalBelow(rows: seq<seq<Order>>, keys: set<int>, key: int, f: Column, k: nat): int
    requires k <= |rows|
  {
    if k == 0 then 0 else TotalBelow(rows, keys, key, f, k - 1) + OrderSum(Select(rows[k - 1], keys), key, f)
  }

  lemma {:induction false} TotalIsSum(rows: seq<seq<Order>>, keys: set<int>, key: int, f: Column, k: nat)
    requires k <= |rows| && key in keys
    ensures TotalBelow(rows, keys, key, f, k) == OrderSum(Sequences.Flatten(rows[..k]), key, f)
  {
    if k > 0 {
      TotalIsSum(rows, keys, key, f, k - 1);
      Sequences.FlattenSnoc(rows, k);
      OrderSumAppend(Sequences.Flatten(rows[..k - 1]), rows[k - 1], key, f);
      SelectKeepsSums(rows[k - 1], keys, key, f);
    }
  }

  lemma LedgerEntry(cfg: Config, s: Sys, q: nat, p: nat, key: int, f: Column)
    requires SysInv(cfg, s) && q < |s.apps| && p < |s.apps| && p != q && s.ring.procs[q].finishIndex >= 3
    ensures Sum(s.ledger[q][p], key, f) == OrderSum(Select(cfg.orders[p], AllKeys(cfg)), key, f)
  {
    EachSaleMergedOnce(cfg, s, p, q);
    OwnLedger(cfg, s, p, key, f);
  }

  lemma {:induction false} LedgerIsTotal(row: seq<seq<PartSale>>, rows: seq<seq<Order>>, keys: set<int>,
                                         q: nat, key: int, f: Column, k: nat)
    requires q < |rows| && k <= |row| == |rows|
    requires forall p :: 0 <= p < |row| && p != q ==> Sum(row[p], key, f) == OrderSum(Select(rows[p], keys), key, f)
    ensures LedgerSum(row, q, key, f, k) ==
            TotalBelow(rows, keys, key, f, k) - if q < k then OrderSum(Select(rows[q], keys), key, f) else 0
  {
    if k > 0 {
      LedgerIsTotal(row, rows, keys, q, key, f, k - 1);
    }
  }

  /** After `mergeData` every process holds, for every key, the sums over the orders of all processes. */
  lemma MergedTablesAreTotals(cfg: Config, s: Sys, q: nat, key: int, f: Column)
    requires SysInv(cfg, s) && q < |s.apps| && key in AllKeys(cfg)
    requires s.ring.procs[q].finishIndex > 3 || (s.ring.procs[q].finishIndex == 3 && s.apps[q].sub == 1)
    ensures Sum(s.apps[q].partData, key, f) == OrderSum(AllOrders(cfg), key, f)
  {
    var a := s.apps[q];
    assert LocalOk(cfg, q, s.ring.procs[q].finishIndex, a) && ReceivedOk(cfg, s, q);
    forall p: nat | p < |s.apps| && p != q { LedgerEntry(cfg, s, q, p, key, f); }
    LedgerIsTotal(s.ledger[q], cfg.orders, AllKeys(cfg), q, key, f, |s.apps|);
    TotalIsSum(cfg.orders, AllKeys(cfg), key, f, |s.apps|);
    assert cfg.orders[..|s.apps|] == cfg.orders;
  }

  lemma {:induction false} CountIsPositive(orders: seq<Order>, o: Order)
    ensures 0 <= OrderSum(orders, o.key, Count)
    ensures o in orders ==> 1 <= OrderSum(orders, o.key, Count)
  {
    if orders != [] {
      CountIsPositive(orders[1..], o);
    }
  }

  /** The divisor of the average is never 0, and the local test decides by the totals of all processes. */
  lemma LocalTestIsGlobal(cfg: Config, s: Sys, q: nat, o: Order)
    requires SysInv(cfg, s) && q < |s.apps| && o in s.apps[q].orders
    requires s.ring.procs[q].finishIndex > 3 || (s.ring.procs[q].finishIndex == 3 && s.apps[q].sub == 1)
    ensures o.key in AllKeys(cfg) && o.key in Ids(s.apps[q].partData)
    ensures Lookup(s.apps[q].partData, o.key).orderCount >= 1
    ensures BelowAverage(o, Lookup(s.apps[q].partData, o.key)) <==> IsSmall(o, AllOrders(cfg))
  {
    var a := s.apps[q];
    assert LocalOk(cfg, q, s.ring.procs[q].finishIndex, a);
    SelectKeepsRevenue(cfg.orders[q], AllKeys(cfg), AllOrders(cfg));
    Sequences.InFlatten(cfg.orders, q, o);
    CountIsPositive(AllOrders(cfg), o);
    var e := Lookup(a.partData, o.key);
    LookupIsSum(a.partData, o.key, Sales);
    LookupIsSum(a.partData, o.key, Count);
    MergedTablesAreTotals(cfg, s, q, o.key, Sales);
    MergedTablesAreTotals(cfg, s, q, o.key, Count);
    BelowAverageIsSmall(o, e);
  }

  // ---- the chain ----

  lemma {:induction false} AnswersInConcat(ch: seq<Msg<Body>>, more: seq<Msg<Body>>)
    ensures AnswersIn(ch + more) == AnswersIn(ch) + AnswersIn(more)
  {
    if ch == [] {
      assert ch + more == more;
    } else {
      assert (ch + more)[1..] == ch[1..] + more;
      AnswersInConcat(ch[1..], more);
    }
  }

  lemma AnswersInAfter(cfg: Config, s: Sys, step: SysStep, s': Sys, u: nat)
    requires SysInv(cfg, s) && SysEnabled(cfg, s, step) && s' == SysApply(cfg, s, step)
    requires SysWellFormed(cfg, s') && u < |s.apps|
    ensures AnswersIn(s'.ring.chans[u]) == AnswersIn(s.ring.chans[u]) + AnswersIn(PutBy(cfg, s, step, u))
              - AnswersIn(TakenBy(cfg, s, step, Succ(|s.apps|, u)))
  {
    ChannelAfter(cfg, s, step, s', u);
    AnswersInConcat(s.ring.chans[u], PutBy(cfg, s, step, u));
    AnswersInConcat(TakenBy(cfg, s, step, Succ(|s.apps|, u)), s'.ring.chans[u]);
  }

  /** The step in which `id` sends its answer. */
  ghost predicate SendsAnswer(cfg: Config, s: Sys, step: SysStep)
    requires SysWellFormed(cfg, s) && SysEnabled(cfg, s, step)
  {
    step.Main? && NextAction(cfg, s, step.id).SendBody? && NextAction(cfg, s, step.id).body.FinalAns?
  }

  ghost predicate TakesAnswer(cfg: Config, s: Sys, step: SysStep)
    requires SysWellFormed(cfg, s) && SysEnabled(cfg, s, step)
  {
    step.Serve? && Head(s.ring, step.id).Data? && Head(s.ring, step.id).body.FinalAns?
  }

  lemma AnswerTraffic(cfg: Config, s: Sys, step: SysStep, u: nat)
    requires SysInv(cfg, s) && SysEnabled(cfg, s, step) && u < |s.apps|
    ensures AnswersIn(PutBy(cfg, s, step, u)) == if u == step.id && SendsAnswer(cfg, s, step) then 1 else 0
    ensures AnswersIn(TakenBy(cfg, s, step, u)) == if u == step.id && TakesAnswer(cfg, s, step) then 1 else 0
  {
    if step.Serve? {
      var h := Head(s.ring, step.id);
      assert InChan(s.ring, Pred(|s.apps|, step.id), h) && WellFormedMsg(|s.apps|, h);
    }
    assert |Put(cfg, s, step)| <= 1;
  }

  lemma AnswerSentAfter(cfg: Config, s: Sys, step: SysStep, s': Sys, p: nat)
    requires SysInv(cfg, s) && SysEnabled(cfg, s, step) && s' == SysApply(cfg, s, step)
    requires SysWellFormed(cfg, s') && p < |s.apps|
    ensures AnswerSent(cfg, s', p) <==> AnswerSent(cfg, s, p) || (p == step.id && SendsAnswer(cfg, s, step))
    ensures p == step.id && SendsAnswer(cfg, s, step) ==> !AnswerSent(cfg, s, p)
  {
    if p != step.id {
      RingAfter(cfg, s, step, s');
    } else {
      RoundAndPosAfter(cfg, s, step, s');
      if step.Main? {
        AnswerSentByMain(cfg, s, p);
      } else if step.LeaveBarrier? {
        AnswerSentBeforeLeaving(cfg, s, p);
      }
    }
  }

  /** Only leaving the barrier changes the round, and only that and the main thread the loop counter. */
  lemma RoundAndPosAfter(cfg: Config, s: Sys, step: SysStep, s': Sys)
    requires SysInv(cfg, s) && SysEnabled(cfg, s, step) && s' == SysApply(cfg, s, step)
    ensures |s'.apps| == |s.apps| == |s'.ring.procs|
    ensures
      var id := step.id;
      var p, p', a, a' := s.ring.procs[id], s'.ring.procs[id], s.apps[id], s'.apps[id];
      && p'.finishIndex == p.finishIndex + (if step.LeaveBarrier? then 1 else 0)
      && a'.pos == (if step.LeaveBarrier? then 0
                    else if step.Main? && !NextAction(cfg, s, id).EnterBarrier? then NextAction(cfg, s, id).app.pos
                    else a.pos)
  {
    OwnAfter(cfg, s, step, s');
    hide SysInv, SysApply;
  }

  lemma AnswerSentBeforeLeaving(cfg: Config, s: Sys, p: nat)
    requires SysInv(cfg, s) && p < |s.apps| && s.ring.procs[p].pc == Woken
    ensures p != cfg.selectIdx && s.ring.procs[p].finishIndex == 3 + Dist(|s.apps|, cfg.selectIdx, p) ==> s.apps[p].pos >= 1
  {
    assert MainOk(cfg, p, s.ring.procs[p], s.apps[p]);
  }

  lemma AnswerSentByMain(cfg: Config, s: Sys, p: nat)
    requires SysInv(cfg, s) && SysEnabled(cfg, s, Main(p))
    ensures
      var round, turn := s.ring.procs[p].finishIndex, 3 + Dist(|s.apps|, cfg.selectIdx, p);
      && (SendsAnswer(cfg, s, Main(p)) ==> p != cfg.selectIdx && round == turn && s.apps[p].pos == 0)
      && (round == turn && p != cfg.selectIdx ==>
            (s.apps[p].pos >= 1 <==> NextAction(cfg, s, p).EnterBarrier?))
      && (round == turn && p != cfg.selectIdx && s.apps[p].pos == 0 ==> SendsAnswer(cfg, s, Main(p)))
      && (SendsAnswer(cfg, s, Main(p)) ==> NextAction(cfg, s, p).app.pos == 1)
  {
    if SendsAnswer(cfg, s, Main(p)) {
      SentAnswer(cfg, s, p);
    }
  }

  /** While somebody is still outside the barrier of round 3 nobody has sent an answer. */
  lemma NoEarlyAnswer(cfg: Config, s: Sys, q: nat, p: nat)
    requires SysInv(cfg, s) && q < |s.apps| && p < |s.apps| && AnswerSent(cfg, s, p)
    ensures HasEntered(s.ring.procs[q], 3)
  {
    LeftIsNotified(cfg, s, p, 3);
  }

  /** An answer that is on its way was sent by the process whose channel it is in. */
  lemma {:induction false} AnswerHasSender(cfg: Config, s: Sys, u: nat)
    requires SysInv(cfg, s) && u < |s.apps| && AnswersIn(s.ring.chans[u]) > 0
    ensures AnswerSent(cfg, s, u)
  {
    assert AnswerOk(cfg, s, u);
  }

  lemma AnswersAfter(cfg: Config, s: Sys, step: SysStep, s': Sys)
    requires SysInv(cfg, s) && SysEnabled(cfg, s, step) && s' == SysApply(cfg, s, step)
    requires SysWellFormed(cfg, s')
    ensures AnswersOk(cfg, s')
  {
    forall q: nat | q < |s.apps| ensures AnswerOk(cfg, s', q) {
      AnswerCountAfter(cfg, s, step, s', q);
      RevenueAfter(cfg, s, step, s', q);
      if HasEntered(s'.ring.procs[q], 3) {
        UnderSalesAfter(cfg, s, step, s', q);
      }
    }
  }

  lemma AnswerCountAfter(cfg: Config, s: Sys, step: SysStep, s': Sys, q: nat)
    requires SysInv(cfg, s) && SysEnabled(cfg, s, step) && s' == SysApply(cfg, s, step)
    requires SysWellFormed(cfg, s') && q < |s.apps|
    ensures AnswersIn(s'.ring.chans[q]) <= if AnswerSent(cfg, s', q) then 1 else 0
  {
    assert AnswerOk(cfg, s, q);
    AnswersInAfter(cfg, s, step, s', q);
    AnswerTraffic(cfg, s, step, q);
    AnswerTraffic(cfg, s, step, Succ(|s.apps|, q));
    AnswerSentAfter(cfg, s, step, s', q);
  }

  /** After the reset `underSales` is the revenue of the orders looked at so far: what the fall-through
      of `finalPart` added has been erased, and nothing is added any more. */
  lemma RevenueAfter(cfg: Config, s: Sys, step: SysStep, s': Sys, q: nat)
    requires SysInv(cfg, s) && SysEnabled(cfg, s, step) && s' == SysApply(cfg, s, step)
    requires SysWellFormed(cfg, s') && q < |s.apps|
    ensures
      var p, a := s'.ring.procs[q], s'.apps[q];
      p.finishIndex == 3 && a.sub == 1 && !Inside(p) ==>
        a.pos <= |a.orders| && a.underSales == Revenue(a.orders[..a.pos], AllKeys(cfg), AllOrders(cfg))
  {
    hide SysInv, SysApply, Revenue, Lookup;
    Basics(cfg, s);
    RingAfter(cfg, s, step, s');
    OwnAfter(cfg, s, step, s');
    RevenueBefore(cfg, s, q);
    NoRevenue(s.apps[q].orders, AllKeys(cfg), AllOrders(cfg));
    if q == step.id && s.ring.procs[q].finishIndex == 3 && !Inside(s.ring.procs[q]) && s.apps[q].sub == 1 {
      if step.Main? {
        if s.apps[q].pos < |s.apps[q].orders| {
          RevenueOfOne(cfg, s, q, s.apps[q].orders[s.apps[q].pos]);
        }
      } else if step.Serve? {
        HeadLeavesUnderSales(cfg, s, q);
      }
    }
  }

  lemma RevenueBefore(cfg: Config, s: Sys, q: nat)
    requires SysInv(cfg, s) && q < |s.apps|
    ensures
      var p, a := s.ring.procs[q], s.apps[q];
      p.finishIndex == 3 && a.sub == 1 && !Inside(p) ==>
        a.pos <= |a.orders| && a.underSales == Revenue(a.orders[..a.pos], AllKeys(cfg), AllOrders(cfg))
  {
    hide Revenue, MainAction;
    assert AnswerOk(cfg, s, q);
  }

  lemma NoRevenue(orders: seq<Order>, keys: set<int>, all: seq<Order>)
    ensures Revenue(orders[..0], keys, all) == 0.0
  {
  }

  lemma RevenueOfOne(cfg: Config, s: Sys, q: nat, o: Order)
    requires SysInv(cfg, s) && q < |s.apps| && s.ring.procs[q].finishIndex == 3 && s.apps[q].sub == 1
    requires s.apps[q].pos < |s.apps[q].orders| && o == s.apps[q].orders[s.apps[q].pos]
    ensures var a := s.apps[q];
      Revenue(a.orders[..a.pos + 1], AllKeys(cfg), AllOrders(cfg)) ==
      Revenue(a.orders[..a.pos], AllKeys(cfg), AllOrders(cfg)) +
      (if BelowAverage(o, Lookup(a.partData, o.key)) then o.price else 0.0)
  {
    var a := s.apps[q];
    LocalTestIsGlobal(cfg, s, q, o);
    assert a.orders[..a.pos + 1] == a.orders[..a.pos] + [o];
    RevenueAppend(a.orders[..a.pos], [o], AllKeys(cfg), AllOrders(cfg));
    assert Revenue([o], AllKeys(cfg), AllOrders(cfg)) == Price(o, AllKeys(cfg), AllOrders(cfg));
  }

  /** Between the reset and the end of round 3 the server leaves `underSales` alone. */
  lemma HeadLeavesUnderSales(cfg: Config, s: Sys, q: nat)
    requires SysInv(cfg, s) && SysEnabled(cfg, s, Serve(q))
    requires s.ring.procs[q].finishIndex == 3 && !Inside(s.ring.procs[q])
    ensures Head(s.ring, q).Data? ==>
      OnBody(Port(q), s.apps[q], Head(s.ring, q).body).0.underSales == s.apps[q].underSales
  {
    var u, h := Pred(|s.apps|, q), Head(s.ring, q);
    assert InChan(s.ring, u, h);
    if h.Data? {
      NoLateSales(cfg, s, q);
      assert MessageOk(cfg, s, u, h);
      if h.body.FinalAns? {
        assert s.ring.chans[u] == [h] + s.ring.chans[u][1..];
        AnswerHasSender(cfg, s, u);
        NoEarlyAnswer(cfg, s, q, u);
      }
    }
  }

  lemma MergedAfter(cfg: Config, s: Sys, step: SysStep, s': Sys, q: nat)
    requires SysInv(cfg, s) && SysEnabled(cfg, s, step) && s' == SysApply(cfg, s, step)
    requires SysWellFormed(cfg, s') && q < |s.apps|
    ensures AnswerMerged(cfg, s', q) <==> AnswerMerged(cfg, s, q) || (q == step.id && TakesAnswer(cfg, s, step))
    ensures q == step.id && TakesAnswer(cfg, s, step) ==> !AnswerMerged(cfg, s, q) && HasEntered(s.ring.procs[q], 3)
  {
    var n := |s.apps|;
    var p := Pred(n, q);
    assert Succ(n, p) == q;
    assert AnswerOk(cfg, s, p) && SysWellFormed(cfg, s);
    if q == step.id && TakesAnswer(cfg, s, step) {
      AnswerTaken(cfg, s, q);
    }
    hide SysInv, SysApply, AnswerSent, TakesAnswer, SendsAnswer;
    AnswersInAfter(cfg, s, step, s', p);
    AnswerTraffic(cfg, s, step, p);
    AnswerTraffic(cfg, s, step, q);
    AnswerSentAfter(cfg, s, step, s', p);
  }

  /** The answer that `q` takes is the only one in its channel and comes from a process that has sent one. */
  lemma AnswerTaken(cfg: Config, s: Sys, q: nat)
    requires SysInv(cfg, s) && SysEnabled(cfg, s, Serve(q)) && TakesAnswer(cfg, s, Serve(q))
    ensures
      var p := Pred(|s.apps|, q);
      AnswersIn(s.ring.chans[p]) > 0 && AnswerSent(cfg, s, p) && Place(cfg, q) >= 2 && HasEntered(s.ring.procs[q], 3)
  {
    var p, h := Pred(|s.apps|, q), Head(s.ring, q);
    assert InChan(s.ring, p, h) && MessageOk(cfg, s, p, h);
    assert s.ring.chans[p] == [h] + s.ring.chans[p][1..];
    AnswerHasSender(cfg, s, p);
    NoEarlyAnswer(cfg, s, q, p);
  }

  lemma UnderSalesAfter(cfg: Config, s: Sys, step: SysStep, s': Sys, q: nat)
    requires SysInv(cfg, s) && SysEnabled(cfg, s, step) && s' == SysApply(cfg, s, step)
    requires SysWellFormed(cfg, s') && q < |s.apps| && HasEntered(s'.ring.procs[q], 3)
    ensures s'.apps[q].underSales == if AnswerMerged(cfg, s', q) then Chain(cfg, Place(cfg, q)) else Own(cfg, q)
  {
    RingAfter(cfg, s, step, s');
    assert AnswerOk(cfg, s, q) && MainOk(cfg, q, s.ring.procs[q], s.apps[q]);
    OwnAfter(cfg, s, step, s');
    hide SysInv, SysApply;
    MergedAfter(cfg, s, step, s', q);
    if !HasEntered(s.ring.procs[q], 3) {
      EnteringRound3(cfg, s, step, s', q);
    } else if q == step.id && step.Serve? && Head(s.ring, q).Data? {
      ServingAfterRound3(cfg, s, q);
    }
  }

  /** Only the main thread at the end of its loop enters the barrier. */
  lemma EntersRound3(cfg: Config, s: Sys, step: SysStep, s': Sys, q: nat)
    requires SysInv(cfg, s) && SysEnabled(cfg, s, step) && s' == SysApply(cfg, s, step)
    requires SysWellFormed(cfg, s') && q < |s.apps|
    requires !HasEntered(s.ring.procs[q], 3) && HasEntered(s'.ring.procs[q], 3)
    ensures step == Main(q) && NextAction(cfg, s, q).EnterBarrier? && s.ring.procs[q].finishIndex == 3
    ensures s.apps[q].sub == 1 && s.apps[q].pos >= |s.apps[q].orders| && s'.apps[q] == s.apps[q]
    ensures s.ring.procs[q].pc == Working
  {
    hide SysInv, SysApply, Inv, LocalOk, Matches, BelowAverage, Lookup, Insert;
    Basics(cfg, s);
    RingAfter(cfg, s, step, s');
    OwnAfter(cfg, s, step, s');
    ProcessIs(cfg, s, q);
  }

  lemma KeptOrders(cfg: Config, s: Sys, q: nat)
    requires SysInv(cfg, s) && q < |s.apps| && 2 <= s.ring.procs[q].finishIndex
    ensures s.apps[q].orders == Select(cfg.orders[q], AllKeys(cfg))
  {
    hide SysInv, Inv, MainOk, AnswerOk;
    Basics(cfg, s);
    ProcessIs(cfg, s, q);
  }

  lemma EnteringRound3(cfg: Config, s: Sys, step: SysStep, s': Sys, q: nat)
    requires SysInv(cfg, s) && SysEnabled(cfg, s, step) && s' == SysApply(cfg, s, step)
    requires SysWellFormed(cfg, s') && q < |s.apps|
    requires !HasEntered(s.ring.procs[q], 3) && HasEntered(s'.ring.procs[q], 3)
    ensures s'.apps[q].underSales == Own(cfg, q) && !AnswerMerged(cfg, s, q)
  {
    hide SysInv, SysApply, Inv, LocalOk, Revenue, Chain, MainAction;
    Basics(cfg, s);
    RingAfter(cfg, s, step, s');
    OwnAfter(cfg, s, step, s');
    EntersRound3(cfg, s, step, s', q);
    ProcessIs(cfg, s, q);
    KeptOrders(cfg, s, q);
    var a := s.apps[q];
    assert a.orders[..a.pos] == a.orders;
    if AnswerMerged(cfg, s, q) {
      NoEarlyAnswer(cfg, s, q, Pred(|s.apps|, q));
    }
  }

  lemma ServingAfterRound3(cfg: Config, s: Sys, q: nat)
    requires SysInv(cfg, s) && SysEnabled(cfg, s, Serve(q)) && Head(s.ring, q).Data?
    requires HasEntered(s.ring.procs[q], 3)
    ensures var a' := OnBody(Port(q), s.apps[q], Head(s.ring, q).body).0;
      if !TakesAnswer(cfg, s, Serve(q)) then a'.underSales == s.apps[q].underSales
      else !AnswerMerged(cfg, s, q) ==> a'.underSales == Chain(cfg, Place(cfg, q))
  {
    var p, h := Pred(|s.apps|, q), Head(s.ring, q);
    assert InChan(s.ring, p, h) && MessageOk(cfg, s, p, h);
    assert AnswerOk(cfg, s, q) && SysWellFormed(cfg, s);
    hide SysInv, Chain, Own;
    if h.body.FinalPart? {
      SalesAreOver(cfg, s, q);
    } else if h.body.FinalAns? {
      ChainGrows(cfg, p, q);
    }
  }

  /** One hop further along the chain. */
  lemma ChainGrows(cfg: Config, p: nat, q: nat)
    requires ValidConfig(cfg) && q < |cfg.parts| && p == Pred(|cfg.parts|, q) && p != cfg.selectIdx
    ensures Chain(cfg, Place(cfg, q)) == Chain(cfg, Dist(|cfg.parts|, cfg.selectIdx, p)) + Own(cfg, q)
  {
    assert Place(cfg, q) == Dist(|cfg.parts|, cfg.selectIdx, p) + 1;
    assert After(|cfg.parts|, cfg.selectIdx, Place(cfg, q)) == q;
  }

  lemma SalesAreOver(cfg: Config, s: Sys, q: nat)
    requires SysInv(cfg, s) && SysEnabled(cfg, s, Serve(q)) && HasEntered(s.ring.procs[q], 3)
    ensures Head(s.ring, q).Data? ==> !Head(s.ring, q).body.FinalPart?
  {
    if Head(s.ring, q).Data? {
      NoLateSales(cfg, s, q);
    }
  }

  // ---- the invariant ----

  /** Every step of every thread keeps the invariant of the query. */
  lemma StepKeepsSysInv(cfg: Config, s: Sys, step: SysStep)
    requires SysInv(cfg, s) && SysEnabled(cfg, s, step)
    ensures SysInv(cfg, SysApply(cfg, s, step))
  {
    var s' := SysApply(cfg, s, step);
    RingAfter(cfg, s, step, s');
    MainsAfter(cfg, s, step, s');
    MessagesOkAfter(cfg, s, step, s');
    AllKeysOkAfter(cfg, s, step, s');
    LocalsAfter(cfg, s, step, s');
    SalesAfter(cfg, s, step, s');
    AnswersAfter(cfg, s, step, s');
  }
}
