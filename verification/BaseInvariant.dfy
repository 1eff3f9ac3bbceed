/** What every reachable state of the base calculation keeps. */
module BaseInvariant {
  import Topology
  import opened Barrier
  import opened History
  import opened Query
  import opened BrandTables
  import opened SalesSums
  import opened BaseCalculator

  // ---- the messages of interest ----

  function OrderIn(keys: set<int>): Msg<Body> -> bool {
    (m: Msg<Body>) => m.Data? && m.stamp == 0 && m.body.OrderMsg? && m.body.order.key in keys
  }

  function Totals(): Msg<Body> -> bool {
    (m: Msg<Body>) => m.Data? && m.stamp == 1 && m.body.TotalMsg?
  }

  function Unders(): Msg<Body> -> bool {
    (m: Msg<Body>) => m.Data? && m.stamp == 2 && m.body.UnderMsg?
  }

  function OrderWorth(w: What): Msg<Body> -> real {
    (m: Msg<Body>) => if m.Data? && m.body.OrderMsg? then Worth(m.body.order, w) else 0.0
  }

  function CountWorth(): Msg<Body> -> real {
    (m: Msg<Body>) => if m.Data? && m.body.TotalMsg? then m.body.count as real else 0.0
  }

  function SalesWorth(): Msg<Body> -> real {
    (m: Msg<Body>) => if m.Data? && m.body.TotalMsg? then m.body.sales as real else 0.0
  }

  /** Messages of `p` with the given bodies. */
  function OrderMsgs(p: nat, l: seq<Order>): seq<Msg<Body>> {
    if l == [] then [] else [Data(p, 0, OrderMsg(l[0]))] + OrderMsgs(p, l[1..])
  }

  function UnderMsgs(p: nat, l: seq<PartData>): seq<Msg<Body>> {
    if l == [] then [] else [Data(p, 2, UnderMsg(l[0]))] + UnderMsgs(p, l[1..])
  }

  /** The records in under-sale messages. */
  function Records(l: seq<Msg<Body>>): seq<PartData> {
    if l == [] then [] else (if l[0].Data? && l[0].body.UnderMsg? then [l[0].body.part] else []) + Records(l[1..])
  }

  // ---- one process ----

  /** The ordered keys that process `u` stores. */
  ghost function OwnKeys(cfg: Config, u: nat): set<int>
    requires u < |cfg.parts|
  {
    KeysAt(cfg, u) * OrderedKeys(cfg)
  }

  ghost predicate MainOk(cfg: Config, id: nat, p: Proc, a: App)
    requires Sized(cfg) && id < |cfg.parts|
  {
    && p.finishIndex <= 3
    && (Inside(p) ==> MainAction(cfg, id, p.finishIndex, a).EnterBarrier?)
    && (p.finishIndex == 0 ==> a.pos <= |cfg.orders[id]|)
    && (p.finishIndex == 1 ==> a.pos <= 4)
    && (p.finishIndex == 2 ==> a.sub <= 1 && a.pos <= |a.table| && (a.sub == 0 ==> a.pos == 0))
  }

  /** The local orders that the first loop has dealt with. */
  function Done(cfg: Config, u: nat, round: nat, a: App): seq<Order>
    requires u < |cfg.orders|
  {
    if round == 0 && a.pos <= |cfg.orders[u]| then cfg.orders[u][..a.pos] else cfg.orders[u]
  }

  /** What `u` has counted: its own orders of the keys it stores, and those it was sent. */
  ghost function Tally(cfg: Config, u: nat, round: nat, a: App, got: seq<Msg<Body>>, w: What): real
    requires u < |cfg.parts| == |cfg.orders|
  {
    WorthAll(Taken(Done(cfg, u, round, a), OwnKeys(cfg, u)), w) + Weigh(Pick(got, OrderIn(OwnKeys(cfg, u))), OrderWorth(w))
  }

  ghost predicate TableOk(cfg: Config, u: nat, round: nat, a: App, got: seq<Msg<Body>>)
    requires u < |cfg.parts| == |cfg.orders|
  {
    && DistinctIds(a.table) && IdSet(a.table) <= OwnKeys(cfg, u)
    && (forall d :: d in a.table ==> Labelled(cfg.parts[u], d))
    && (forall w: What :: !w.Marks? ==> TableSum(a.table, w) == Tally(cfg, u, round, a, got, w))
    && (forall key :: key in IdSet(a.table) <==> 0.0 < Tally(cfg, u, round, a, got, Marks(key)))
    && a.localSales as real == TableSum(a.table, Everything)
  }

  /** The sum over the totals of other processes. */
  ghost function FromOthers(u: nat, got: seq<Msg<Body>>, w: Msg<Body> -> real): real {
    Weigh(Pick(got, Totals()), w) - Weigh(Pick(got, From(Totals(), u)), w)
  }

  ghost predicate TotalsOk(u: nat, round: nat, a: App, got: seq<Msg<Body>>) {
    && a.localPartCount == (if round > 1 || (round == 1 && a.pos >= 1) then |a.table| else 0)
    && a.partCount as real == FromOthers(u, got, CountWorth()) +
         (if round > 1 || (round == 1 && a.pos >= 2) then a.localPartCount as real else 0.0)
    && a.totalSales as real == FromOthers(u, got, SalesWorth()) +
         (if round > 1 || (round == 1 && a.pos >= 3) then a.localSales as real else 0.0)
  }

  /** The part of its table that `u` has searched for under-sale parts. */
  function Searched(round: nat, a: App): seq<PartData> {
    if round < 2 || (round == 2 && a.sub == 0) then []
    else if round == 2 && a.pos <= |a.table| then a.table[..a.pos] else a.table
  }

  /** The list holds every part that has been received, once.  If every part has one owner, these are the
      parts of the messages on their first lap, in the order in which they came. */
  ghost predicate UndersOk(cfg: Config, round: nat, a: App, got: seq<Msg<Body>>) {
    && DistinctIds(a.underSales)
    && (forall m :: m in got && m.Data? && m.body.UnderMsg? ==> HasId(a.underSales, m.body.part.id))
    && (OwnedOnce(cfg) ==> a.underSales == Records(Pick(got, Unders())))
    && (round > 2 || (round == 2 && a.sub == 1) ==> a.shared == (a.totalSales, a.partCount))
  }

  // ---- the messages ----

  /** A message that `u` has sent: `round` is the round of its creator, `known` the list of the successor
      of `u`. */
  ghost predicate BodyOk(cfg: Config, u: nat, m: Msg<Body>, round: nat, known: seq<PartData>)
    requires u < |cfg.parts| == |cfg.orders| && m.Data? && m.origin < |cfg.parts|
  {
    match m.body
    case OrderMsg(o) =>
      && o in cfg.orders[m.origin] && o.key !in KeysAt(cfg, u)
      && (m.stamp > 0 ==> !Stored(cfg, o.key))   // it has come back to its creator
    case TotalMsg(from, _, _) => m.stamp == 1 && from == Topology.Port(m.origin) && 1 <= round
    case UnderMsg(part) =>
      && 2 <= round && part.id in OwnKeys(cfg, m.origin) && 2 <= m.stamp
      && (m.stamp > 2 ==> u == m.origin && HasId(known, part.id))
  }

  ghost predicate MessageOk(cfg: Config, s: Sys, u: nat, m: Msg<Body>)
    requires SysWellFormed(cfg, s) && u < |s.apps|
  {
    && m.Data? && m.origin < |s.apps|
    && BodyOk(cfg, u, m, s.hist.ring.procs[m.origin].finishIndex, s.apps[Topology.Succ(|s.apps|, u)].underSales)
  }

  ghost predicate MessagesOk(cfg: Config, s: Sys)
    requires SysWellFormed(cfg, s)
  {
    forall u: nat, m :: u < |s.apps| && m in s.hist.put[u] ==> MessageOk(cfg, s, u, m)
  }

  // ---- what is sent and what is relayed ----

  /** None of the keys is stored at `u`. */
  ghost predicate Foreign(cfg: Config, u: nat, keys: set<int>)
    requires u < |cfg.parts|
  {
    keys !! KeysAt(cfg, u)
  }

  /** Of its own orders `u` has sent those it does not store the part of. */
  ghost predicate OrdersSent(cfg: Config, u: nat, done: seq<Order>, put: seq<Msg<Body>>)
    requires u < |cfg.parts|
  {
    forall keys: set<int> :: Foreign(cfg, u, keys) ==>
      Pick(put, From(OrderIn(keys), u)) == OrderMsgs(u, Taken(done, keys))
  }

  /** So does it pass on those of `p`. */
  ghost predicate OrdersPassed(cfg: Config, u: nat, p: nat, put: seq<Msg<Body>>, got: seq<Msg<Body>>)
    requires u < |cfg.parts|
  {
    forall keys: set<int> :: Foreign(cfg, u, keys) ==>
      Pick(put, From(OrderIn(keys), p)) == Pick(got, From(OrderIn(keys), p))
  }

  /** What `u` has created itself. */
  ghost predicate SentOk(cfg: Config, u: nat, round: nat, a: App, put: seq<Msg<Body>>)
    requires u < |cfg.parts| == |cfg.orders|
  {
    && OrdersSent(cfg, u, Done(cfg, u, round, a), put)
    && Pick(put, From(Totals(), u)) ==
         (if round > 1 || (round == 1 && a.pos >= 4) then [Data(u, 1, TotalMsg(Topology.Port(u), a.localPartCount, a.localSales))]
          else [])
    && Pick(put, From(Unders(), u)) == UnderMsgs(u, UnderList(Searched(round, a), a.shared))
  }

  /** What `u` passes on of another process; of several under-sale messages with the same part only the
      first. */
  ghost predicate PassesOn(cfg: Config, u: nat, p: nat, put: seq<Msg<Body>>, got: seq<Msg<Body>>)
    requires u < |cfg.parts|
  {
    && OrdersPassed(cfg, u, p, put, got)
    && Pick(put, From(Totals(), p)) == Pick(got, From(Totals(), p))
    && (OwnedOnce(cfg) ==> Pick(put, From(Unders(), p)) == Pick(got, From(Unders(), p)))
  }

  ghost predicate ProcessOk(cfg: Config, u: nat, p: Proc, a: App, put: seq<Msg<Body>>, got: seq<Msg<Body>>)
    requires Sized(cfg) && u < |cfg.parts|
  {
    && MainOk(cfg, u, p, a)
    && TableOk(cfg, u, p.finishIndex, a, got)
    && TotalsOk(u, p.finishIndex, a, got)
    && UndersOk(cfg, p.finishIndex, a, got)
    && SentOk(cfg, u, p.finishIndex, a, put)
    && (forall w: nat :: w < |cfg.parts| && w != u ==> PassesOn(cfg, u, w, put, got))
  }

  ghost predicate ProcessesOk(cfg: Config, s: Sys)
    requires SysWellFormed(cfg, s)
  {
    forall u: nat :: u < |s.apps| ==> ProcessOk(cfg, u, s.hist.ring.procs[u], s.apps[u], s.hist.put[u], s.hist.got[u])
  }

  ghost predicate SysInv(cfg: Config, s: Sys) {
    SysWellFormed(cfg, s) && HistInv(s.hist) && MessagesOk(cfg, s) && ProcessesOk(cfg, s)
  }

  lemma InitSysInv(cfg: Config, s: Sys)
    requires SysInit(cfg, s)
    ensures SysInv(cfg, s)
  {
    InitHistInv(s.hist);
    assert SysWellFormed(cfg, s);
    forall u: nat | u < |s.apps|
      ensures ProcessOk(cfg, u, s.hist.ring.procs[u], s.apps[u], s.hist.put[u], s.hist.got[u])
    {
      assert s.apps[u] == INIT_APP && s.hist.ring.procs[u] == INIT_PROC;
      assert s.hist.put[u] == [] && s.hist.got[u] == [];
      assert cfg.orders[u][..0] == [];
    }
  }
}
