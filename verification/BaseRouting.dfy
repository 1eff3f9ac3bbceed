/** Where orders are counted, for any data. */
module BaseRouting {
  import opened Sequences
  import opened Topology
  import opened Barrier
  import opened BarrierInvariant
  import opened History
  import opened Query
  import opened BrandTables
  import opened SalesSums
  import opened BaseCalculator
  import opened BaseInvariant
  import BaseSums
  import opened BaseSteps

  // ---- the first process that stores a part ----

  /** Of the processes that store the part, `q` is the first that an order of `p` meets. */
  ghost predicate FirstOn(cfg: Config, p: nat, q: nat, key: int)
    requires p < |cfg.parts| && q < |cfg.parts|
  {
    && key in KeysAt(cfg, q)
    && forall w: nat :: w < |cfg.parts| && Dist(|cfg.parts|, p, w) < Dist(|cfg.parts|, p, q) ==> key !in KeysAt(cfg, w)
  }

  /** The ordered keys that orders of `p` find at `q` first. */
  ghost function FirstKeys(cfg: Config, p: nat, q: nat): set<int>
    requires p < |cfg.parts| && q < |cfg.parts|
  {
    set key | key in OwnKeys(cfg, q) && FirstOn(cfg, p, q, key)
  }

  lemma FirstIsUnique(cfg: Config, p: nat, q: nat, q': nat, key: int)
    requires p < |cfg.parts| && q < |cfg.parts| && q' < |cfg.parts|
    requires FirstOn(cfg, p, q, key) && FirstOn(cfg, p, q', key)
    ensures q == q'
  {
    hide KeysAt;
    assert Dist(|cfg.parts|, p, q) == Dist(|cfg.parts|, p, q');
  }

  lemma {:induction false} SomebodyIsFirst(cfg: Config, p: nat, w: nat, key: int) returns (q: nat)
    requires p < |cfg.parts| && w < |cfg.parts| && key in KeysAt(cfg, w)
    ensures q < |cfg.parts| && FirstOn(cfg, p, q, key)
    decreases Dist(|cfg.parts|, p, w)
  {
    hide KeysAt;
    if FirstOn(cfg, p, w, key) {
      q := w;
    } else {
      var v: nat :| v < |cfg.parts| && Dist(|cfg.parts|, p, v) < Dist(|cfg.parts|, p, w) && key in KeysAt(cfg, v);
      q := SomebodyIsFirst(cfg, p, v, key);
    }
  }

  lemma FirstIsForeign(cfg: Config, p: nat, q: nat, w: nat)
    requires p < |cfg.parts| && q < |cfg.parts| && w < |cfg.parts|
    requires Dist(|cfg.parts|, p, w) < Dist(|cfg.parts|, p, q)
    ensures Foreign(cfg, w, FirstKeys(cfg, p, q))
  {
    hide KeysAt, OwnKeys;
  }

  // ---- an order that arrives has passed only processes that do not store its part ----

  /** An order that `u` has passed on it has received. */
  lemma PassedWasGot(cfg: Config, s: Sys, u: nat, m: Msg<Body>)
    requires SysInv(cfg, s) && u < |s.apps| && m in s.hist.put[u]
    requires m.Data? && m.body.OrderMsg? && m.stamp == 0 && m.origin < |s.apps| && m.origin != u
    ensures m in s.hist.got[u]
  {
    hide SysInv, HistInv, MessagesOk, WellFormed, KeysAt, Pick, TableOk, TotalsOk, UndersOk, SentOk, MainOk;
    Basics(cfg, s);
    SentMessage(cfg, s, u, m);
    ProcessIs(cfg, s, u);
    var keys, p := {m.body.order.key}, m.origin;
    assert Foreign(cfg, u, keys) && PassesOn(cfg, u, p, s.hist.put[u], s.hist.got[u]);
    InPick(s.hist.put[u], From(OrderIn(keys), p), m);
    InPick(s.hist.got[u], From(OrderIn(keys), p), m);
  }

  lemma GotWasPut(cfg: Config, s: Sys, q: nat, m: Msg<Body>)
    requires SysInv(cfg, s) && q < |s.apps| && m in s.hist.got[q]
    ensures m in s.hist.put[Pred(|s.apps|, q)]
  {
    hide SysInv, HistInv, MessagesOk, Payloads;
    Basics(cfg, s);
    var u := Pred(|s.apps|, q);
    assert Succ(|s.apps|, u) == q;
    QueueOf(s.hist, u);
  }

  /** Every process on the way has sent it. */
  lemma {:induction false} SentAllTheWay(cfg: Config, s: Sys, q: nat, m: Msg<Body>, w: nat)
    requires SysInv(cfg, s) && q < |s.apps| && w < |s.apps| && m in s.hist.got[q]
    requires m.Data? && m.body.OrderMsg? && m.stamp == 0 && m.origin < |s.apps|
    requires q == m.origin || Dist(|s.apps|, m.origin, w) < Dist(|s.apps|, m.origin, q)
    ensures m in s.hist.put[w]
    decreases if q == m.origin then |s.apps| else Dist(|s.apps|, m.origin, q)
  {
    hide SysInv, HistInv, MessagesOk, WellFormed;
    Basics(cfg, s);
    var u := Pred(|s.apps|, q);
    GotWasPut(cfg, s, q, m);
    if w != u {
      PassedWasGot(cfg, s, u, m);
      SentAllTheWay(cfg, s, u, m, w);
    }
  }

  /** What `q` has received and counted of `p` is for parts that orders of `p` find at `q` first. */
  lemma CountedIsFirst(cfg: Config, s: Sys, q: nat, m: Msg<Body>)
    requires SysInv(cfg, s) && q < |s.apps| == |cfg.parts| && m in s.hist.got[q] && OrderIn(OwnKeys(cfg, q))(m)
    ensures m.origin < |s.apps| && m.origin != q && m.body.order.key in FirstKeys(cfg, m.origin, q)
  {
    hide SysInv, HistInv, MessagesOk, WellFormed, KeysAt;
    Basics(cfg, s);
    var p, key := m.origin, m.body.order.key;
    GotMessage(cfg, s, q, m);
    OwnKeyIsStored(cfg, q, key);
    if p == q {
      SentAllTheWay(cfg, s, q, m, q);
      SentMessage(cfg, s, q, m);
    }
    forall w: nat | w < |cfg.parts| && Dist(|cfg.parts|, p, w) < Dist(|cfg.parts|, p, q) ensures key !in KeysAt(cfg, w) {
      SentAllTheWay(cfg, s, q, m, w);
      SentMessage(cfg, s, w, m);
    }
  }

  lemma CountedAlike(cfg: Config, s: Sys, p: nat, q: nat)
    requires SysInv(cfg, s) && p < |s.apps| && q < |s.apps| == |cfg.parts|
    ensures Pick(s.hist.got[q], From(OrderIn(OwnKeys(cfg, q)), p)) ==
            if p == q then [] else Pick(s.hist.got[q], From(OrderIn(FirstKeys(cfg, p, q)), p))
  {
    hide SysInv, OwnKeys, Pick, FirstOn;
    Basics(cfg, s);
    var f, g := From(OrderIn(OwnKeys(cfg, q)), p), From(OrderIn(FirstKeys(cfg, p, q)), p);
    forall m | m in s.hist.got[q] ensures if p == q then !f(m) else f(m) <==> g(m) {
      if OrderIn(OwnKeys(cfg, q))(m) {
        CountedIsFirst(cfg, s, q, m);
      }
    }
    if p == q {
      PickNothing(s.hist.got[q], f);
    } else {
      PickAlike(s.hist.got[q], f, g);
    }
  }

  // ---- all of them arrive ----

  lemma RelaysFirst(cfg: Config, s: Sys, p: nat, q: nat)
    requires SysInv(cfg, s) && p < |s.apps| && q < |s.apps| == |cfg.parts| && p != q
    ensures Relays(s.hist, p, q, From(OrderIn(FirstKeys(cfg, p, q)), p))
  {
    hide SysInv, HistInv, MessagesOk, WellFormed, Foreign, FirstKeys, Pick, MainOk, TableOk, TotalsOk, UndersOk, SentOk;
    Basics(cfg, s);
    var keep := From(OrderIn(FirstKeys(cfg, p, q)), p);
    forall w: nat | w < |s.apps| && Between(|s.apps|, p, w, q)
      ensures Pick(s.hist.put[w], keep) == Pick(s.hist.got[w], keep)
    {
      ProcessIs(cfg, s, w);
      FirstIsForeign(cfg, p, q, w);
      assert PassesOn(cfg, w, p, s.hist.put[w], s.hist.got[w]);
    }
  }

  lemma ConcernsOrders(keys: set<int>, p: nat)
    ensures Concerns(From(OrderIn(keys), p), p, 0)
  {
  }

  /** A process that has entered the first barrier has dealt with all its orders. */
  lemma AllSent(cfg: Config, s: Sys, p: nat, keys: set<int>)
    requires SysInv(cfg, s) && p < |s.apps| && HasEntered(s.hist.ring.procs[p], 0) && Foreign(cfg, p, keys)
    ensures Pick(s.hist.put[p], From(OrderIn(keys), p)) == OrderMsgs(p, Taken(cfg.orders[p], keys))
  {
    hide SysInv, HistInv, MessagesOk, WellFormed, Foreign, Pick, TableOk, TotalsOk, UndersOk, PassesOn, KeysAt, IsUnder;
    Basics(cfg, s);
    ProcessIs(cfg, s, p);
    assert cfg.orders[p][..|cfg.orders[p]|] == cfg.orders[p];
  }

  lemma Notified(cfg: Config, s: Sys, q: nat, r: nat)
    requires SysInv(cfg, s) && q < |s.apps| && r < s.hist.ring.procs[q].finishIndex
    ensures r in s.hist.ring.procs[q].hasNotify
    ensures forall p :: 0 <= p < |s.apps| ==> HasEntered(s.hist.ring.procs[p], r)
  {
    hide SysInv, MessagesOk;
    Basics(cfg, s);
    LeftNotified(s.hist.ring, q, r);
  }

  /** All orders of `p` that find their part at `q` first have arrived at `q`, each once and in the order of
      the rows, and no others are counted, when `q` or a process further along the ring leaves the first
      barrier. */
  lemma FirstOrdersArrive(cfg: Config, s: Sys, p: nat, q: nat, x: nat)
    requires SysInv(cfg, s) && p < |s.apps| && q < |s.apps| == |cfg.parts| && p != q && x < |s.apps|
    requires 1 <= s.hist.ring.procs[x].finishIndex && (q == x || Between(|s.apps|, p, q, x))
    ensures Pick(s.hist.got[q], From(OrderIn(OwnKeys(cfg, q)), p)) == OrderMsgs(p, Taken(cfg.orders[p], FirstKeys(cfg, p, q)))
  {
    hide SysInv, HistInv, MessagesOk, WellFormed, Foreign, OwnKeys, FirstKeys, Pick, Taken, OrderMsgs, Relays, Concerns;
    Basics(cfg, s);
    var keys := FirstKeys(cfg, p, q);
    CountedAlike(cfg, s, p, q);
    Notified(cfg, s, x, 0);
    FirstIsForeign(cfg, p, q, p);
    AllSent(cfg, s, p, keys);
    RelaysFirst(cfg, s, p, q);
    ConcernsOrders(keys, p);
    Arrives(s.hist, p, q, x, 0, From(OrderIn(keys), p));
  }

  // ---- what a process counts ----

  /** The worth of the orders of the first `k` processes that find their part at `q` first. */
  ghost function Share(cfg: Config, q: nat, w: What, k: nat): real
    requires q < |cfg.parts| == |cfg.orders| && k <= |cfg.orders|
  {
    if k == 0 then 0.0 else Share(cfg, q, w, k - 1) + WorthAll(Taken(cfg.orders[k - 1], FirstKeys(cfg, k - 1, q)), w)
  }

  lemma NothingWeighs(w: What)
    ensures Weigh([], OrderWorth(w)) == 0.0
  {
  }

  lemma {:induction false} OriginsAreShares(cfg: Config, q: nat, got: seq<Msg<Body>>, w: What, k: nat)
    requires q < |cfg.parts| == |cfg.orders| && k <= |cfg.orders|
    requires
      forall p: nat :: p < |cfg.orders| ==>
        Pick(got, From(OrderIn(OwnKeys(cfg, q)), p)) ==
        if p == q then [] else OrderMsgs(p, Taken(cfg.orders[p], FirstKeys(cfg, p, q)))
    ensures WeighOrigins(got, OrderIn(OwnKeys(cfg, q)), OrderWorth(w), k) ==
            Share(cfg, q, w, k) - if q < k then WorthAll(Taken(cfg.orders[q], FirstKeys(cfg, q, q)), w) else 0.0
  {
    hide OwnKeys, FirstKeys, Pick, Taken, WorthAll, OrderMsgs, Weigh;
    if k > 0 {
      OriginsAreShares(cfg, q, got, w, k - 1);
      NothingWeighs(w);
      BaseSums.WeighOrders(k - 1, Taken(cfg.orders[k - 1], FirstKeys(cfg, k - 1, q)), w);
    }
  }

  /** Its own orders find every part that `q` stores at `q`. */
  lemma OwnAreFirst(cfg: Config, q: nat)
    requires q < |cfg.parts|
    ensures FirstKeys(cfg, q, q) == OwnKeys(cfg, q)
  {
    hide KeysAt, OrderedKeys;
  }

  /** A process that has entered the first barrier has been through all its rows. */
  lemma AllDone(cfg: Config, s: Sys, q: nat)
    requires SysInv(cfg, s) && q < |s.apps| && HasEntered(s.hist.ring.procs[q], 0)
    ensures Done(cfg, q, s.hist.ring.procs[q].finishIndex, s.apps[q]) == cfg.orders[q]
  {
    hide SysInv, HistInv, MessagesOk, WellFormed, ProcessOk;
    Basics(cfg, s);
    ProcessIs(cfg, s, q);
    assert cfg.orders[q][..|cfg.orders[q]|] == cfg.orders[q];
  }

  /** Whatever is sent to `q` passes `q` no later than it arrives at `x`. */
  ghost predicate ComesFirst(n: nat, q: nat, x: nat)
    requires q < n && x < n
  {
    forall p: nat :: p < n && p != q ==> q == x || Between(n, p, q, x)
  }

  /** What `q` has counted when it leaves the first barrier, or when `x` does and `q` comes first. */
  lemma TallyIsShare(cfg: Config, s: Sys, q: nat, x: nat, w: What)
    requires SysInv(cfg, s) && q < |s.apps| && x < |s.apps| && ComesFirst(|s.apps|, q, x)
    requires 1 <= s.hist.ring.procs[x].finishIndex
    ensures Sized(cfg) && |s.apps| == |cfg.parts|
    ensures Tally(cfg, q, s.hist.ring.procs[q].finishIndex, s.apps[q], s.hist.got[q], w) == Share(cfg, q, w, |cfg.parts|)
  {
    hide SysInv, HistInv, MessagesOk, WellFormed, OwnKeys, FirstKeys, Pick, Taken, OrderMsgs, WorthAll, Done;
    Basics(cfg, s);
    Notified(cfg, s, x, 0);
    AllDone(cfg, s, q);
    OwnAreFirst(cfg, q);
    var n, keys := |s.apps|, OwnKeys(cfg, q);
    forall p: nat | p < n
      ensures Pick(s.hist.got[q], From(OrderIn(keys), p)) ==
              if p == q then [] else OrderMsgs(p, Taken(cfg.orders[p], FirstKeys(cfg, p, q)))
    {
      if p == q {
        CountedAlike(cfg, s, q, q);
      } else {
        FirstOrdersArrive(cfg, s, p, q, x);
      }
    }
    OriginsAreShares(cfg, q, s.hist.got[q], w, n);
    forall m | m in s.hist.got[q] ensures m.Data? && m.origin < n {
      GotMessage(cfg, s, q, m);
    }
    WeighByOrigin(s.hist.got[q], OrderIn(keys), OrderWorth(w), n);
  }

  /** The table of a process that has left the first barrier: the sums over exactly the orders that find
      their part there first. */
  lemma TableIsShare(cfg: Config, s: Sys, q: nat)
    requires SysInv(cfg, s) && q < |s.apps| && 1 <= s.hist.ring.procs[q].finishIndex
    ensures Sized(cfg) && |s.apps| == |cfg.parts| && DistinctIds(s.apps[q].table)
    ensures forall w: What :: !w.Marks? ==> TableSum(s.apps[q].table, w) == Share(cfg, q, w, |cfg.parts|)
    ensures forall key :: key in IdSet(s.apps[q].table) <==> 0.0 < Share(cfg, q, Marks(key), |cfg.parts|)
    ensures s.apps[q].localSales as real == Share(cfg, q, Everything, |cfg.parts|)
  {
    hide SysInv, HistInv, MessagesOk, WellFormed, Tally, OwnKeys, Share, Labelled;
    Basics(cfg, s);
    TableIs(cfg, s, q);
    forall w: What
      ensures Tally(cfg, q, s.hist.ring.procs[q].finishIndex, s.apps[q], s.hist.got[q], w) == Share(cfg, q, w, |cfg.parts|)
    {
      TallyIsShare(cfg, s, q, q, w);
    }
  }

  // ---- the shares together ----

  /** The ordered keys that somebody stores. */
  ghost function StoredKeys(cfg: Config): set<int> {
    set key | key in OrderedKeys(cfg) && Stored(cfg, key)
  }

  /** The keys that orders of `p` find at one of the first `k` processes. */
  ghost function FoundBelow(cfg: Config, p: nat, k: nat): set<int>
    requires p < |cfg.parts| && k <= |cfg.parts|
  {
    if k == 0 then {} else FoundBelow(cfg, p, k - 1) + FirstKeys(cfg, p, k - 1)
  }

  lemma {:induction false} InFoundBelow(cfg: Config, p: nat, k: nat, key: int)
    requires p < |cfg.parts| && k <= |cfg.parts|
    ensures key in FoundBelow(cfg, p, k) <==> exists q: nat :: q < k && key in FirstKeys(cfg, p, q)
  {
    hide FirstKeys;
    if k > 0 {
      InFoundBelow(cfg, p, k - 1, key);
    }
  }

  lemma DisjointFound(cfg: Config, p: nat, k: nat)
    requires p < |cfg.parts| && k < |cfg.parts|
    ensures FoundBelow(cfg, p, k) !! FirstKeys(cfg, p, k)
  {
    hide FirstOn, OwnKeys;
    forall key | key in FirstKeys(cfg, p, k) ensures key !in FoundBelow(cfg, p, k) {
      InFoundBelow(cfg, p, k, key);
      if key in FoundBelow(cfg, p, k) {
        var q: nat :| q < k && key in FirstKeys(cfg, p, q);
        FirstIsUnique(cfg, p, q, k, key);
      }
    }
  }

  lemma AllFound(cfg: Config, p: nat)
    requires p < |cfg.parts|
    ensures FoundBelow(cfg, p, |cfg.parts|) == StoredKeys(cfg)
  {
    hide KeysAt, FirstOn, OrderedKeys;
    forall key ensures key in FoundBelow(cfg, p, |cfg.parts|) <==> key in StoredKeys(cfg) {
      InFoundBelow(cfg, p, |cfg.parts|, key);
      if key in StoredKeys(cfg) {
        var w: nat :| w < |cfg.parts| && key in KeysAt(cfg, w);
        var q := SomebodyIsFirst(cfg, p, w, key);
        FirstStores(cfg, p, q, key);
        assert key in FirstKeys(cfg, p, q);
      }
    }
  }

  lemma FirstStores(cfg: Config, p: nat, q: nat, key: int)
    requires p < |cfg.parts| && q < |cfg.parts| && FirstOn(cfg, p, q, key)
    ensures key in KeysAt(cfg, q)
  {
  }

  /** The worth of the orders of the first `j` processes that find their part at one of the first `k`. */
  ghost function Grid(cfg: Config, w: What, j: nat, k: nat): real
    requires Sized(cfg) && j <= |cfg.orders| && k <= |cfg.parts|
  {
    if j == 0 then 0.0 else Grid(cfg, w, j - 1, k) + WorthAll(Taken(cfg.orders[j - 1], FoundBelow(cfg, j - 1, k)), w)
  }

  lemma {:induction false} OneMoreShare(cfg: Config, w: What, j: nat, k: nat)
    requires Sized(cfg) && j <= |cfg.orders| && k < |cfg.parts|
    ensures Grid(cfg, w, j, k + 1) == Grid(cfg, w, j, k) + Share(cfg, k, w, j)
  {
    hide FirstKeys, Taken, WorthAll;
    if j > 0 {
      OneMoreShare(cfg, w, j - 1, k);
      DisjointFound(cfg, j - 1, k);
      TakenUnion(cfg.orders[j - 1], FoundBelow(cfg, j - 1, k), FirstKeys(cfg, j - 1, k), w);
    }
  }

  lemma {:induction false} NoShare(cfg: Config, w: What, j: nat)
    requires Sized(cfg) && j <= |cfg.orders|
    ensures Grid(cfg, w, j, 0) == 0.0
  {
    if j > 0 {
      NoShare(cfg, w, j - 1);
      TakenNone(cfg.orders[j - 1], w);
    }
  }

  lemma {:induction false} GridIsRows(cfg: Config, w: What, j: nat)
    requires Sized(cfg) && j <= |cfg.orders|
    ensures Grid(cfg, w, j, |cfg.parts|) == RowsWorth(cfg.orders, StoredKeys(cfg), w, j)
  {
    hide Taken, WorthAll, FoundBelow, StoredKeys;
    if j > 0 {
      GridIsRows(cfg, w, j - 1);
      AllFound(cfg, j - 1);
    }
  }

  /** The shares of the first `k` processes. */
  ghost function Shares(cfg: Config, w: What, k: nat): real
    requires Sized(cfg) && k <= |cfg.parts|
  {
    if k == 0 then 0.0 else Shares(cfg, w, k - 1) + Share(cfg, k - 1, w, |cfg.parts|)
  }

  lemma {:induction false} SharesAreGrid(cfg: Config, w: What, k: nat)
    requires Sized(cfg) && k <= |cfg.parts|
    ensures Shares(cfg, w, k) == Grid(cfg, w, |cfg.parts|, k)
  {
    hide Share, Grid;
    if k == 0 {
      NoShare(cfg, w, |cfg.parts|);
    } else {
      SharesAreGrid(cfg, w, k - 1);
      OneMoreShare(cfg, w, |cfg.parts|, k - 1);
    }
  }

  /** Every order whose part is stored belongs to exactly one share. */
  lemma SharesAreAll(cfg: Config, w: What)
    requires Sized(cfg)
    ensures Shares(cfg, w, |cfg.parts|) == WorthAll(Taken(Flatten(cfg.orders), StoredKeys(cfg)), w)
  {
    hide Shares, Grid, Taken, WorthAll, StoredKeys;
    SharesAreGrid(cfg, w, |cfg.parts|);
    GridIsRows(cfg, w, |cfg.parts|);
    TakenFlatten(cfg.orders, StoredKeys(cfg), w, |cfg.parts|);
    assert cfg.orders[..|cfg.parts|] == cfg.orders;
  }
}
