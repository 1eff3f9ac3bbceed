/** How far the first barrier flushes the orders. */
module BaseReach {
  import Sequences
  import opened Topology
  import opened Barrier
  import opened BarrierInvariant
  import opened FlushReach
  import opened History
  import opened Query
  import opened BrandTables
  import opened SalesSums
  import opened BaseCalculator
  import opened BaseRuns
  import opened BaseInvariant
  import opened BaseRouting
  import opened BaseTheorems
  import BaseSteps

  /** `q` has received exactly the orders of `p` for its parts. */
  ghost predicate OrdersAreIn(cfg: Config, s: Sys, p: nat, q: nat)
    requires SysWellFormed(cfg, s) && p < |s.apps| && q < |s.apps|
  {
    Pick(s.hist.got[q], From(OrderIn(OwnKeys(cfg, q)), p)) == OrderMsgs(p, Taken(cfg.orders[p], OwnKeys(cfg, q)))
  }

  /** `s` is a state of a run, for data with one owner for each ordered part, in which `x` has left the
      first barrier. */
  ghost predicate LeftIn(n: nat, x: nat, cfg: Config, s: Sys) {
    && OwnedOnce(cfg) && |cfg.parts| == n && Reachable(cfg, s) && SysWellFormed(cfg, s)
    && |s.apps| == |s.hist.ring.procs| == n && x < n && 1 <= s.hist.ring.procs[x].finishIndex
  }

  /** In every run, when `x` has left the first barrier, the orders of `p` are in at `q`. */
  ghost predicate OrdersReach(n: nat, p: nat, x: nat, q: nat)
    requires p < n && x < n && q < n
  {
    forall cfg, s :: LeftIn(n, x, cfg, s) ==> OrdersAreIn(cfg, s, p, q)
  }

  /** The orders that are certain to be in are those for owners no further along the ring than the process
      that leaves, and no others. */
  lemma OrdersReachExactly(n: nat, p: nat, x: nat, q: nat)
    requires 2 <= n && p < n && x < n && q < n && p != q
    ensures OrdersReach(n, p, x, q) <==> Dist(n, p, q) <= Hops(n, p, x)
  {
    hide OwnedOnce, Reachable, SysWellFormed;
    if Dist(n, p, q) <= Hops(n, p, x) {
      forall cfg, s | LeftIn(n, x, cfg, s) ensures OrdersAreIn(cfg, s, p, q) {
        ReachableInv(cfg, s);
        BaseSteps.Basics(cfg, s);
        OrdersArrive(cfg, s, p, q, x);
      }
    } else {
      var s := Stray(n, p, x, q);
      NothingIsIn(n, p, q, s);
      assert LeftIn(n, x, OneOrder(n, p, q), s);
    }
  }

  /** In every run, when anybody has left the first barrier, every order has been counted. */
  ghost predicate AllAreCounted(n: nat) {
    forall cfg, s, x, q :: LeftIn(n, x, cfg, s) && 0 <= q < n ==> TableIsFinal(cfg, s, q)
  }

  /** The table of `q` holds the sums over all orders for its parts. */
  ghost predicate TableIsFinal(cfg: Config, s: Sys, q: nat)
    requires SysWellFormed(cfg, s) && q < |cfg.parts|
  {
    && DistinctIds(s.apps[q].table) && IdSet(s.apps[q].table) == OwnKeys(cfg, q)
    && forall d :: d in s.apps[q].table ==> d == FinalRecord(cfg, q, d.id)
  }

  /** "All orders are counted before anybody leaves" holds for two processes and for no other number. */
  lemma AllAreCountedExactlyForTwo(n: nat)
    requires 2 <= n
    ensures AllAreCounted(n) <==> n == 2
  {
    hide OwnedOnce, Reachable, SysWellFormed, TableIsFinal;
    if n == 2 {
      forall cfg, s, x: nat, q: nat | LeftIn(n, x, cfg, s) && q < n ensures TableIsFinal(cfg, s, q) {
        TwoAreCounted(cfg, s, x, q);
      }
    } else {
      var s := Stray(n, n - 1, n - 2, n - 3);
      NothingIsIn(n, n - 1, n - 3, s);
      assert LeftIn(n, n - 2, OneOrder(n, n - 1, n - 3), s) && !TableIsFinal(OneOrder(n, n - 1, n - 3), s, n - 3);
    }
  }

  lemma TwoAreCounted(cfg: Config, s: Sys, x: nat, q: nat)
    requires LeftIn(2, x, cfg, s) && q < 2
    ensures TableIsFinal(cfg, s, q)
  {
    hide OwnedOnce, Reachable, SysWellFormed;
    ReachableInv(cfg, s);
    BaseSteps.Basics(cfg, s);
    assert ComesFirst(2, q, x) && |s.apps| == 2;
    TableIsComplete(cfg, s, q, x);
  }

  // ---- data with one order ----

  const STRAY := Query.Order(7, 1, 1.0)
  const STRAY_MSG: Body := OrderMsg(STRAY)

  /** One order, loaded by `p`, for a part stored by `q`. */
  function OneOrder(n: nat, p: nat, q: nat): Config {
    Config(seq(n, i => if i == q then [Part(7, (1, 1), "JUMBO BOX")] else []), seq(n, i => if i == p then [STRAY] else []))
  }

  lemma KeysOfOneOrder(n: nat, p: nat, q: nat, i: nat)
    requires p < n && q < n && i < n
    ensures KeysAt(OneOrder(n, p, q), i) == if i == q then {7} else {}
  {
    var cfg := OneOrder(n, p, q);
    if i == q {
      assert cfg.parts[i] == [Part(7, (1, 1), "JUMBO BOX")];
      assert cfg.parts[i][0] in cfg.parts[i];
    }
  }

  lemma OrderedInOneOrder(n: nat, p: nat, q: nat)
    requires p < n && q < n
    ensures OrderedKeys(OneOrder(n, p, q)) == {7}
  {
    var cfg := OneOrder(n, p, q);
    assert STRAY in cfg.orders[p];
    Sequences.InFlatten(cfg.orders, p, STRAY);
    forall o | o in Sequences.Flatten(cfg.orders) ensures o == STRAY {
      var i := Sequences.FromFlatten(cfg.orders, o);
    }
  }

  lemma OneOrderIsOwned(n: nat, p: nat, q: nat)
    requires 2 <= n && p < n && q < n
    ensures OwnedOnce(OneOrder(n, p, q))
  {
    var cfg := OneOrder(n, p, q);
    hide KeysAt, OrderedKeys;
    forall i: nat | i < n ensures KeysAt(cfg, i) == if i == q then {7} else {} {
      KeysOfOneOrder(n, p, q, i);
    }
    forall j, o | 0 <= j < n && o in cfg.orders[j] ensures o.key in KeysAt(cfg, q) {
      assert o == STRAY;
    }
    OrderedInOneOrder(n, p, q);
  }

  // ---- the run ----

  /** The state of the base calculation over the ring `r`: `p` has sent its order, `q` has received
      nothing. */
  ghost predicate Stands(n: nat, p: nat, q: nat, s: Sys, r: Ring<Body>) {
    var cfg := OneOrder(n, p, q);
    && Reachable(cfg, s) && SysWellFormed(cfg, s) && |s.apps| == |s.hist.ring.procs| == |s.hist.got| == n
    && s.hist.ring == r && p < n && q < n && s.hist.got[q] == []
    && forall i :: 0 <= i < n ==> s.apps[i] == if i == p then INIT_APP.(pos := 1) else INIT_APP
  }

  lemma Follow(n: nat, p: nat, q: nat, s: Sys, r: Ring<Body>, step: SysStep) returns (s': Sys)
    requires Stands(n, p, q, s, r)
    requires
      var cfg := OneOrder(n, p, q);
      && SysEnabled(cfg, s, step) && MovesRing(cfg, s, step) && NextApp(cfg, s, step) == s.apps[step.id]
      && (step.Serve? && step.id == q ==> Head(r, q).Token?)
    ensures
      var cfg := OneOrder(n, p, q);
      Stands(n, p, q, s', Apply(r, RingStep(cfg, s, step)))
  {
    var cfg := OneOrder(n, p, q);
    s' := SysApply(cfg, s, step);
    hide Reachable, WellFormed, Apply, OneOrder, MainAction, OnBody;
    ReachableStep(cfg, s, step);
    SysWellFormedAfter(cfg, s, step);
    BaseSteps.LogsAfter(cfg, s, step, s');
  }

  lemma SendsTheOrder(n: nat, p: nat, q: nat) returns (s: Sys)
    requires 2 <= n && p < n && q < n && p != q
    ensures Stands(n, p, q, s, Gathering(n, p, 0, STRAY_MSG))
  {
    var cfg := OneOrder(n, p, q);
    var s0 := BaseRuns.Start(cfg);
    StartIsInitial(cfg);
    assert ReachedBy(cfg, s0, [], s0);
    KeysOfOneOrder(n, p, q, p);
    SendOrder(n, p, STRAY_MSG);
    assert s0.hist.ring == FlushReach.Start<Body>(n);
    s := SysApply(cfg, s0, Main(p));
    assert MainAction(cfg, p, 0, INIT_APP) == SendBody(INIT_APP.(pos := 1), STRAY_MSG);
    hide Reachable, WellFormed, Apply, OneOrder, MainAction;
    ReachableStep(cfg, s0, Main(p));
    SysWellFormedAfter(cfg, s0, Main(p));
    BaseSteps.LogsAfter(cfg, s0, Main(p), s);
  }

  lemma {:induction false} AllGather(n: nat, p: nat, q: nat, k: nat) returns (s: Sys)
    requires 2 <= n && p < n && q < n && p != q && k <= n
    ensures Stands(n, p, q, s, Gathering(n, p, k, STRAY_MSG))
  {
    if k == 0 {
      s := SendsTheOrder(n, p, q);
    } else {
      var s0 := AllGather(n, p, q, k - 1);
      s := GathersOneMore(n, p, q, k - 1, s0);
    }
  }

  lemma GathersOneMore(n: nat, p: nat, q: nat, k: nat, s: Sys) returns (s': Sys)
    requires 2 <= n && p < n && q < n && p != q && k < n && Stands(n, p, q, s, Gathering(n, p, k, STRAY_MSG))
    ensures Stands(n, p, q, s', Gathering(n, p, k + 1, STRAY_MSG))
  {
    var cfg := OneOrder(n, p, q);
    EnterOne(n, p, k, STRAY_MSG);
    assert s.hist.ring.procs[k] == Process(Working);
    assert MainAction(cfg, k, 0, s.apps[k]).EnterBarrier?;
    hide Reachable, WellFormed, Apply, OneOrder, MainAction, Gathering;
    s' := Follow(n, p, q, s, Gathering(n, p, k, STRAY_MSG), Main(k));
  }

  lemma TokenSetsOut(n: nat, p: nat, x: nat, q: nat) returns (s: Sys)
    requires 2 <= n && p < n && x < n && q < n && p != q && p != x
    ensures Stands(n, p, q, s, Chase(n, p, x, p, x, STRAY_MSG))
  {
    hide Reachable, WellFormed, Apply, OneOrder, MainAction, Gathering, Chase;
    var s0 := AllGather(n, p, q, n);
    TokenStarts(n, p, x, STRAY_MSG);
    s := Follow(n, p, q, s0, Gathering(n, p, n, STRAY_MSG), SendFinish(x));
  }

  lemma TokenGoesOn(n: nat, p: nat, x: nat, q: nat, m: nat, c: nat, s: Sys) returns (s': Sys)
    requires 2 <= n && x < n && m < n && c < n && m != c && Succ(n, c) != x
    requires Stands(n, p, q, s, Chase(n, p, x, m, c, STRAY_MSG))
    ensures Stands(n, p, q, s', Chase(n, p, x, m, Succ(n, c), STRAY_MSG))
  {
    hide Reachable, WellFormed, Apply, OneOrder, MainAction, Chase;
    TokenMoves(n, p, x, m, c, STRAY_MSG);
    s' := Follow(n, p, q, s, Chase(n, p, x, m, c, STRAY_MSG), Serve(Succ(n, c)));
  }

  lemma HeadIsOrder(n: nat, p: nat, x: nat, m: nat, c: nat)
    requires 2 <= n && p < n && x < n && m < n && c < n
    ensures var r := Chase(n, p, x, m, c, STRAY_MSG);
      |r.procs| == |r.chans| == n && Pred(n, Succ(n, m)) == m && r.chans[m] != [] && Head(r, Succ(n, m)) == Data(p, 0, STRAY_MSG)
  {
    FirstInChase(n, p, x, m, c, STRAY_MSG);
  }

  lemma OrderGoesOn(n: nat, p: nat, x: nat, q: nat, m: nat, c: nat, s: Sys) returns (s': Sys)
    requires 2 <= n && x < n && m < n && c < n && Succ(n, m) != c && Succ(n, m) != p && Succ(n, m) != q
    requires Stands(n, p, q, s, Chase(n, p, x, m, c, STRAY_MSG))
    ensures Stands(n, p, q, s', Chase(n, p, x, Succ(n, m), c, STRAY_MSG))
  {
    var cfg, v := OneOrder(n, p, q), Succ(n, m);
    KeysOfOneOrder(n, p, q, v);
    HeadIsOrder(n, p, x, m, c);
    hide Reachable, WellFormed, Apply, OneOrder, MainAction, Chase, KeysAt;
    OrderMoves(n, p, x, m, c, STRAY_MSG);
    s' := Follow(n, p, q, s, Chase(n, p, x, m, c, STRAY_MSG), Serve(v));
  }

  /** The token of `x` goes round to `c`, at most to `p`. */
  lemma {:induction false} TokenGoesTo(n: nat, p: nat, x: nat, q: nat, c: nat) returns (s: Sys)
    requires 2 <= n && p < n && x < n && q < n && p != q && p != x && c < n && Dist(n, x, c) <= Dist(n, x, p)
    ensures Stands(n, p, q, s, Chase(n, p, x, p, c, STRAY_MSG))
    decreases Dist(n, x, c)
  {
    hide Stands;
    if c == x {
      s := TokenSetsOut(n, p, x, q);
    } else {
      var s0 := TokenGoesTo(n, p, x, q, Pred(n, c));
      s := TokenGoesOn(n, p, x, q, p, Pred(n, c), s0);
    }
  }

  /** Order and token go on together, the order ahead. */
  lemma {:induction false} BothGoTo(n: nat, p: nat, x: nat, q: nat, c: nat) returns (s: Sys)
    requires 2 <= n && p < n && x < n && q < n && p != x && c < n && Dist(n, p, c) < Dist(n, p, x) < Dist(n, p, q)
    ensures Stands(n, p, q, s, Chase(n, p, x, c, c, STRAY_MSG))
    decreases Dist(n, p, c)
  {
    hide Stands;
    if c == p {
      s := TokenGoesTo(n, p, x, q, p);
    } else {
      var u := Pred(n, c);
      assert Succ(n, u) == c && u != c;
      s := BothGoTo(n, p, x, q, u);
      s := OrderGoesOn(n, p, x, q, u, u, s);
      s := TokenGoesOn(n, p, x, q, c, u, s);
    }
  }

  /** `x` reads its full token ... */
  lemma ReadsItsToken(n: nat, p: nat, x: nat, q: nat, s: Sys) returns (s': Sys, r': Ring<Body>)
    requires 2 <= n && p < n && x < n && q < n && p != x && p != q
    requires Stands(n, p, q, s, Chase(n, p, x, x, Pred(n, x), STRAY_MSG))
    ensures Stands(n, p, q, s', r') && |r'.procs| == n
    ensures r'.procs[x].latch && r'.procs[x].pc == Waiting && r'.procs[x].finishIndex == 0
  {
    var r := Chase(n, p, x, x, Pred(n, x), STRAY_MSG);
    r' := NotifiedLast(n, p, x);
    hide Reachable, WellFormed, OneOrder, MainAction, Chase, Apply, OnBody;
    s' := Follow(n, p, q, s, r, Serve(x));
  }

  /** ... wakes up and leaves. */
  lemma WakesAndLeaves(n: nat, p: nat, x: nat, q: nat, s: Sys, r: Ring<Body>) returns (s': Sys)
    requires Stands(n, p, q, s, r) && p != x && x < |r.procs| == n
    requires r.procs[x].latch && r.procs[x].pc == Waiting && r.procs[x].finishIndex == 0
    ensures Stands(n, p, q, s', s'.hist.ring) && s'.hist.ring.procs[x].finishIndex == 1
  {
    hide Reachable, WellFormed, OneOrder, MainAction, OnBody;
    var s1 := Follow(n, p, q, s, r, WakeUp(x));
    var r1 := Apply(r, Wake(x));
    assert r1.procs[x] == r.procs[x].(pc := Woken, latch := false);
    s' := Follow(n, p, q, s1, r1, LeaveBarrier(x));
  }

  lemma NotifiedLast(n: nat, p: nat, x: nat) returns (r1: Ring<Body>)
    requires 2 <= n && p < n && x < n && p != x && WellFormed(Chase(n, p, x, x, Pred(n, x), STRAY_MSG))
    ensures
      var r := Chase(n, p, x, x, Pred(n, x), STRAY_MSG);
      && Enabled(r, RecvToken(x)) && r1 == Apply(r, RecvToken(x)) && |r1.procs| == n
      && r1.procs[x].latch && r1.procs[x].pc == Waiting && r1.procs[x].finishIndex == 0
  {
    hide TokenAt, CheckFinish, Stamped;
    var r, d := Chase(n, p, x, x, Pred(n, x), STRAY_MSG), TokenAt(n, x, 0, Pred(n, x));
    FullToken(n, x);
    assert r.chans[Pred(n, x)] == [Token(0, d)] && r.procs[x] == Process(Waiting);
    assert Head(r, x) == Token(0, d) && FinishVerdict(r.procs[x], 0, d).Notify?;
    r1 := Apply(r, RecvToken(x));
  }

  /** A state of a run in which `x` has left the barrier and `q`, further along the ring, has received
      nothing. */
  lemma Stray(n: nat, p: nat, x: nat, q: nat) returns (s: Sys)
    requires 2 <= n && p < n && x < n && q < n && p != q && Hops(n, p, x) < Dist(n, p, q)
    ensures LeftIn(n, x, OneOrder(n, p, q), s) && s.hist.got[q] == [] && s.apps[q] == INIT_APP
  {
    hide Reachable, SysWellFormed, Chase, OwnedOnce, OneOrder;
    var u := Pred(n, x);
    var s0 := BothGoTo(n, p, x, q, u);
    s0 := OrderGoesOn(n, p, x, q, u, u, s0);
    var r;
    s0, r := ReadsItsToken(n, p, x, q, s0);
    s := WakesAndLeaves(n, p, x, q, s0, r);
    OneOrderIsOwned(n, p, q);
    SizeOfOneOrder(n, p, q);
  }

  lemma SizeOfOneOrder(n: nat, p: nat, q: nat)
    ensures |OneOrder(n, p, q).parts| == |OneOrder(n, p, q).orders| == n
  {
  }

  /** That `q` has received nothing means that the order is not counted. */
  lemma NothingIsIn(n: nat, p: nat, q: nat, s: Sys)
    requires 2 <= n && p < n && q < n && p != q
    requires SysWellFormed(OneOrder(n, p, q), s) && s.hist.got[q] == [] && s.apps[q] == INIT_APP
    ensures |s.apps| == n && !OrdersAreIn(OneOrder(n, p, q), s, p, q) && !TableIsFinal(OneOrder(n, p, q), s, q)
  {
    var cfg := OneOrder(n, p, q);
    KeysOfOneOrder(n, p, q, q);
    OrderedInOneOrder(n, p, q);
    assert OwnKeys(cfg, q) == {7} && cfg.orders[p] == [STRAY];
    assert Taken([STRAY], {7}) == [STRAY] by { TakenAll([STRAY], {7}); }
    assert IdSet([]) == {} && 7 in OwnKeys(cfg, q);
  }
}
