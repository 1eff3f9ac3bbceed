/** What every reachable state of the query keeps. */
module FinalInvariant {
  import Sequences
  import opened Topology
  import opened Barrier
  import opened BarrierInvariant
  import opened Query
  import opened FinalCompetition

  /** The keys of all matching parts and the orders of all processes: what one machine would hold. */
  ghost function AllKeys(cfg: Config): set<int> {
    Keys(Sequences.Flatten(cfg.parts), cfg.target)
  }

  ghost function AllOrders(cfg: Config): seq<Order> {
    Sequences.Flatten(cfg.orders)
  }

  // ---- the main thread ----

  /** Where the loop counters stand, and that a thread inside `doAsync` has run its round to the end. */
  ghost predicate MainOk(cfg: Config, id: nat, p: Proc, a: App)
    requires ValidConfig(cfg) && id < |cfg.parts|
  {
    && p.finishIndex <= Rounds(cfg)
    && (Inside(p) ==> MainAction(cfg, id, p.finishIndex, a).EnterBarrier?)
    && (p.finishIndex == 0 ==>
          && a.pos <= |cfg.parts[id]| && a.sub <= 1
          && (a.sub == 1 ==> a.pos < |cfg.parts[id]| && Matches(cfg.parts[id][a.pos], cfg.target)))
    && (p.finishIndex == 1 ==> a.pos <= |cfg.orders[id]|)
    && (p.finishIndex == 2 ==> a.pos <= |a.partData|)
    && (p.finishIndex == 3 ==> a.sub <= 1 && a.pos <= if a.sub == 0 then |a.receivePartData| else |a.orders|)
    && (p.finishIndex > 3 ==> a.pos <= 1)
  }

  ghost predicate MainsOk(cfg: Config, s: Sys)
    requires SysWellFormed(cfg, s)
  {
    forall i :: 0 <= i < |s.apps| ==> MainOk(cfg, i, s.ring.procs[i], s.apps[i])
  }

  // ---- the messages ----

  ghost predicate MessageOk(cfg: Config, s: Sys, c: nat, m: Msg<Body>)
    requires SysWellFormed(cfg, s) && c < |s.apps| && m.Data?
  {
    var n := |s.apps|;
    && m.origin < n
    && m.stamp <= s.ring.procs[m.origin].finishIndex
    && match m.body
       case PartKey(key) =>
         && m.stamp == 0
         && key in AllKeys(cfg)
         // every process the message has passed knows the key
         && (forall w: nat :: w < n && Dist(n, m.origin, w) <= Dist(n, m.origin, c) ==> key in s.apps[w].partKeyMap)
       case FinalPart(sale, from) => m.stamp == 2 && from == Port(m.origin) && sale.partid in AllKeys(cfg)
       case FinalAns(answer) =>
         && c == m.origin != cfg.selectIdx
         && m.stamp == 3 + Dist(n, cfg.selectIdx, c)
         && answer == Chain(cfg, Dist(n, cfg.selectIdx, c))
  }

  ghost predicate MessagesOk(cfg: Config, s: Sys)
    requires SysWellFormed(cfg, s)
  {
    forall c, m :: InChan(s.ring, c, m) && m.Data? ==> MessageOk(cfg, s, c, m)
  }

  // ---- the key flood ----

  ghost predicate KeyIn(s: Sys, u: nat, key: int) {
    exists m :: InChan(s.ring, u, m) && m.Data? && m.body == PartKey(key)
  }

  /** Process `u` has still to send `key`. */
  ghost predicate StillToSend(cfg: Config, s: Sys, u: nat, key: int)
    requires SysWellFormed(cfg, s) && u < |s.apps|
  {
    s.ring.procs[u].finishIndex == 0 &&
    exists j :: s.apps[u].pos <= j < |cfg.parts[u]| && Matches(cfg.parts[u][j], cfg.target) && cfg.parts[u][j].key == key
  }

  /** All known keys match, and those of the matching parts the loop has dealt with are known. */
  ghost predicate KnowsOwn(cfg: Config, u: nat, round: nat, a: App)
    requires ValidConfig(cfg) && u < |cfg.parts|
  {
    && a.partKeyMap <= AllKeys(cfg)
    && (forall j :: 0 <= j < |cfg.parts[u]| && Matches(cfg.parts[u][j], cfg.target)
          && (round > 0 || j < a.pos || (j == a.pos && a.sub == 1))
          ==> cfg.parts[u][j].key in a.partKeyMap)
  }

  ghost predicate KeysOk(cfg: Config, s: Sys, u: nat)
    requires SysWellFormed(cfg, s) && u < |s.apps|
  {
    && KnowsOwn(cfg, u, s.ring.procs[u].finishIndex, s.apps[u])
    // what u knows its successor knows, or will be told
    && (forall key :: key in s.apps[u].partKeyMap ==>
          key in s.apps[Succ(|s.apps|, u)].partKeyMap || KeyIn(s, u, key) || StillToSend(cfg, s, u, key))
  }

  ghost predicate AllKeysOk(cfg: Config, s: Sys)
    requires SysWellFormed(cfg, s)
  {
    forall u: nat :: u < |s.apps| ==> KeysOk(cfg, s, u)
  }

  // ---- the local tables ----

  ghost predicate LocalOk(cfg: Config, id: nat, round: nat, a: App)
    requires ValidConfig(cfg) && id < |cfg.parts|
  {
    var keys := AllKeys(cfg);
    && Distinct(a.partData) && Distinct(a.receivePartData)
    && Ids(a.partData) <= keys && Ids(a.receivePartData) <= keys
    && (forall o :: o in a.orders ==> o.key in Ids(a.partData))
    && (round == 0 ==> a.orders == [])
    && (round == 1 ==> a.pos <= |cfg.orders[id]| && a.orders == Select(cfg.orders[id][..a.pos], keys))
    && (round >= 2 ==> a.orders == Select(cfg.orders[id], keys))
    && (forall key, f :: Sum(a.partData, key, f) ==
          OrderSum(a.orders, key, f) + Sum(Merged(round, a), key, f))
  }

  /** The received records that `mergeData` has merged so far. */
  function Merged(round: nat, a: App): seq<PartSale> {
    if round < 3 then []
    else if round == 3 && a.sub == 0 then
      if a.pos <= |a.receivePartData| then a.receivePartData[..a.pos] else []
    else a.receivePartData
  }

  ghost predicate LocalsOk(cfg: Config, s: Sys)
    requires SysWellFormed(cfg, s)
  {
    forall i :: 0 <= i < |s.apps| ==> LocalOk(cfg, i, s.ring.procs[i].finishIndex, s.apps[i])
  }

  // ---- the exchange of part sales ----

  function SaleOf(m: Msg<Body>, p: nat): seq<PartSale> {
    if m.Data? && m.origin == p && m.body.FinalPart? then [m.body.sale] else []
  }

  /** The part sales of `p` in a channel, oldest first. */
  function SalesIn(ch: seq<Msg<Body>>, p: nat): seq<PartSale> {
    if ch == [] then [] else SaleOf(ch[0], p) + SalesIn(ch[1..], p)
  }

  /** Conservation along one channel: what `u` has passed on of `p` is what its successor has merged
      of `p`, in order, followed by what is still on its way. */
  ghost predicate EdgeOk(s: Sys, u: nat, p: nat)
    requires |s.apps| == |s.ledger| == |s.ring.chans| && u < |s.apps| && p < |s.apps|
    requires forall i :: 0 <= i < |s.ledger| ==> |s.ledger[i]| == |s.apps|
  {
    var v := Succ(|s.apps|, u);
    v != p ==> s.ledger[u][p] == s.ledger[v][p] + SalesIn(s.ring.chans[u], p)
  }

  ghost predicate EdgesOk(cfg: Config, s: Sys)
    requires SysWellFormed(cfg, s)
  {
    forall u: nat, p: nat :: u < |s.apps| && p < |s.apps| ==> EdgeOk(s, u, p)
  }

  /** What `p` has sent itself. */
  ghost predicate SentOk(cfg: Config, s: Sys, p: nat)
    requires SysWellFormed(cfg, s) && p < |s.apps|
  {
    var a, round := s.apps[p], s.ring.procs[p].finishIndex;
    && (round < 2 ==> s.ledger[p][p] == [])
    && (round == 2 ==> a.pos <= |a.partData| && s.ledger[p][p] == a.partData[..a.pos])
    && (round > 2 ==> forall key, f :: Sum(s.ledger[p][p], key, f) == OrderSum(a.orders, key, f))
  }

  /** The sum over all records in a row of the ledger except the process's own. */
  function LedgerSum(row: seq<seq<PartSale>>, q: nat, key: int, f: Column, k: nat): int
    requires k <= |row|
  {
    if k == 0 then 0
    else LedgerSum(row, q, key, f, k - 1) + if k - 1 == q then 0 else Sum(row[k - 1], key, f)
  }

  ghost predicate ReceivedOk(cfg: Config, s: Sys, q: nat)
    requires SysWellFormed(cfg, s) && q < |s.apps|
  {
    forall key, f :: Sum(s.apps[q].receivePartData, key, f) == LedgerSum(s.ledger[q], q, key, f, |s.apps|)
  }

  ghost predicate SalesOk(cfg: Config, s: Sys)
    requires SysWellFormed(cfg, s)
  {
    && EdgesOk(cfg, s)
    && (forall p: nat :: p < |s.apps| ==> SentOk(cfg, s, p))
    && (forall q: nat :: q < |s.apps| ==> ReceivedOk(cfg, s, q))
  }

  // ---- the answers ----

  /** The revenue of the orders that process `p` holds. */
  ghost function Own(cfg: Config, p: nat): real
    requires ValidConfig(cfg) && p < |cfg.parts|
  {
    Revenue(Select(cfg.orders[p], AllKeys(cfg)), AllKeys(cfg), AllOrders(cfg))
  }

  /** The revenue of the first `d` processes after `selectIdx` in ring order. */
  ghost function Chain(cfg: Config, d: nat): real
    requires ValidConfig(cfg) && d <= |cfg.parts|
  {
    if d == 0 then 0.0 else Chain(cfg, d - 1) + Own(cfg, After(|cfg.parts|, cfg.selectIdx, d))
  }

  function AnswersIn(ch: seq<Msg<Body>>): nat {
    if ch == [] then 0 else (if ch[0].Data? && ch[0].body.FinalAns? then 1 else 0) + AnswersIn(ch[1..])
  }

  /** `p` has sent its answer. */
  ghost predicate AnswerSent(cfg: Config, s: Sys, p: nat)
    requires SysWellFormed(cfg, s) && p < |s.apps|
  {
    var round, turn := s.ring.procs[p].finishIndex, 3 + Dist(|s.apps|, cfg.selectIdx, p);
    p != cfg.selectIdx && (round > turn || (round == turn && s.apps[p].pos >= 1))
  }

  /** The number of hops after `selectIdx` at which `q` is reached, with `selectIdx` itself last. */
  function Place(cfg: Config, q: nat): nat
    requires cfg.selectIdx < |cfg.parts| && q < |cfg.parts|
  {
    if q == cfg.selectIdx then |cfg.parts| else Dist(|cfg.parts|, cfg.selectIdx, q)
  }

  /** The answer of the predecessor has been added. */
  ghost predicate AnswerMerged(cfg: Config, s: Sys, q: nat)
    requires SysWellFormed(cfg, s) && q < |s.apps|
  {
    var p := Pred(|s.apps|, q);
    Place(cfg, q) >= 2 && AnswerSent(cfg, s, p) && AnswersIn(s.ring.chans[p]) == 0
  }

  ghost predicate AnswerOk(cfg: Config, s: Sys, q: nat)
    requires SysWellFormed(cfg, s) && q < |s.apps|
  {
    var p, a := s.ring.procs[q], s.apps[q];
    && AnswersIn(s.ring.chans[q]) <= (if AnswerSent(cfg, s, q) then 1 else 0)
    && (p.finishIndex == 3 && a.sub == 1 && !Inside(p) ==>
          a.pos <= |a.orders| && a.underSales == Revenue(a.orders[..a.pos], AllKeys(cfg), AllOrders(cfg)))
    && (HasEntered(p, 3) ==>
          a.underSales == if AnswerMerged(cfg, s, q) then Chain(cfg, Place(cfg, q)) else Own(cfg, q))
  }

  ghost predicate AnswersOk(cfg: Config, s: Sys)
    requires SysWellFormed(cfg, s)
  {
    forall q: nat :: q < |s.apps| ==> AnswerOk(cfg, s, q)
  }

  ghost predicate SysInv(cfg: Config, s: Sys) {
    && SysWellFormed(cfg, s) && Inv(s.ring)
    && MainsOk(cfg, s) && MessagesOk(cfg, s) && AllKeysOk(cfg, s) && LocalsOk(cfg, s)
    && SalesOk(cfg, s) && AnswersOk(cfg, s)
  }

  // ---- the parts of the invariant ----

  lemma Basics(cfg: Config, s: Sys)
    requires SysInv(cfg, s)
    ensures SysWellFormed(cfg, s) && Inv(s.ring) && |s.ring.chans| == |s.apps|
  {
    hide Inv, MainsOk, MessagesOk, AllKeysOk, LocalsOk, SalesOk, AnswersOk;
    SizesAgree(s.ring);
  }

  lemma SizesAgree(s: Ring<Body>)
    ensures WellFormed(s) ==> |s.procs| == |s.chans|
  {
  }

  lemma ProcessIs(cfg: Config, s: Sys, i: nat)
    requires SysInv(cfg, s) && i < |s.apps|
    ensures MainOk(cfg, i, s.ring.procs[i], s.apps[i])
    ensures LocalOk(cfg, i, s.ring.procs[i].finishIndex, s.apps[i])
    ensures AnswerOk(cfg, s, i)
  {
    hide Inv, MessagesOk, AllKeysOk, SalesOk, MainOk, LocalOk, AnswerOk;
  }

  lemma MessageIs(cfg: Config, s: Sys, c: nat, m: Msg<Body>)
    requires SysInv(cfg, s) && InChan(s.ring, c, m) && m.Data?
    ensures MessageOk(cfg, s, c, m)
  {
    hide Inv, MainsOk, AllKeysOk, LocalsOk, SalesOk, AnswersOk, MessageOk;
  }

  lemma HeadIs(cfg: Config, s: Sys, id: nat)
    requires SysInv(cfg, s) && id < |s.apps| && s.ring.chans[Pred(|s.apps|, id)] != []
    ensures InChan(s.ring, Pred(|s.apps|, id), Head(s.ring, id)) && WellFormedMsg(|s.apps|, Head(s.ring, id))
    ensures Head(s.ring, id).Data? ==> MessageOk(cfg, s, Pred(|s.apps|, id), Head(s.ring, id))
  {
    hide SysInv, MessageOk, Inv;
    Basics(cfg, s);
    assert InChan(s.ring, Pred(|s.apps|, id), Head(s.ring, id));
    if Head(s.ring, id).Data? {
      MessageIs(cfg, s, Pred(|s.apps|, id), Head(s.ring, id));
    }
  }

  lemma InitSysInv(cfg: Config, s: Sys)
    requires SysInit(cfg, s)
    ensures SysInv(cfg, s)
  {
    InitInv(s.ring);
    assert forall i :: 0 <= i < |s.apps| ==> s.apps[i] == INIT_APP;
    forall q: nat, key, f | q < |s.apps|
      ensures Sum(s.apps[q].receivePartData, key, f) == LedgerSum(s.ledger[q], q, key, f, |s.apps|)
    {
      EmptyLedger(s.ledger[q], q, key, f, |s.apps|);
    }
  }

  lemma {:induction false} EmptyLedger(row: seq<seq<PartSale>>, q: nat, key: int, f: Column, k: nat)
    requires k <= |row| && forall p :: 0 <= p < k ==> row[p] == []
    ensures LedgerSum(row, q, key, f, k) == 0
  {
    if k > 0 {
      EmptyLedger(row, q, key, f, k - 1);
    }
  }
}
