/** What every reachable state of the advanced calculation keeps. */
module AdvancedInvariant {
  import opened Sequences
  import opened Barrier
  import opened History
  import opened Query
  import opened BrandTables
  import opened SalesSums
  import opened AdvancedCalculator

  // ---- the data ----

  ghost predicate DistinctKeys(parts: seq<Part>) {
    forall i, j :: 0 <= i < j < |parts| ==> parts[i].key != parts[j].key
  }

  function AllParts(cfg: Config): seq<Part> {
    Flatten(cfg.parts)
  }

  /** Part keys are unique, and every order is for a part of the table. */
  ghost predicate ValidData(cfg: Config) {
    && Sized(cfg) && DistinctKeys(AllParts(cfg))
    && (forall o :: o in Flatten(cfg.orders) ==> o.key in KeySet(AllParts(cfg)))
  }

  // ---- the messages of interest ----

  function Records(): Msg<Body> -> bool {
    (m: Msg<Body>) => m.Data? && m.body.DataMsg?
  }

  function RecordWorth(w: What): Msg<Body> -> real {
    (m: Msg<Body>) => if m.Data? && m.body.DataMsg? then Entry(m.body.data, w) else 0.0
  }

  function DataMsgs(u: nat, stamp: nat, l: seq<PartData>): seq<Msg<Body>> {
    if l == [] then [] else [Data(u, stamp, DataMsg(l[0]))] + DataMsgs(u, stamp, l[1..])
  }

  ghost predicate Announced(put: seq<Msg<Body>>, part: Part) {
    exists m :: m in put && m.Data? && m.body == PartMsg(part)
  }

  // ---- one process ----

  ghost predicate MainOk(cfg: Config, id: nat, p: Proc, a: App)
    requires Sized(cfg) && id < |cfg.parts|
  {
    var n, round := |cfg.parts|, p.finishIndex;
    && round <= n + 2 && a.sub <= 2
    && (Inside(p) ==> MainAction(cfg, id, round, a).EnterBarrier?)
    && (a.sub == 0 && (round < 2 || round == n + 2) ==> a.pos == 0)
    && (round == 0 && a.sub > 0 ==> a.pos <= a.size <= |a.parts| && |cfg.parts[id]| <= a.size)
    && (round == 1 ==> a.pos <= |cfg.orders[id]|)
    && (2 <= round <= n || round == n + 2 ==> a.pos <= |a.table|)
  }

  /** The part table: the loaded rows, then received ones, no key twice. */
  ghost predicate PartsOk(cfg: Config, u: nat, a: App, got: seq<Msg<Body>>)
    requires u < |cfg.parts|
  {
    && cfg.parts[u] <= a.parts && DistinctKeys(a.parts) && a.booked == {}
    && (forall part :: part in a.parts ==> part in AllParts(cfg))
    && (forall m :: m in got && m.Data? && m.body.PartMsg? ==> m.body.part.key in KeySet(a.parts))
  }

  /** What `u` knows it has told its successor, or will do so. */
  ghost predicate FloodOk(cfg: Config, u: nat, round: nat, a: App, put: seq<Msg<Body>>)
    requires u < |cfg.parts|
  {
    forall i :: 0 <= i < |a.parts| ==>
      Announced(put, a.parts[i]) || (round == 0 && i < |cfg.parts[u]| && (a.sub == 0 || a.pos <= i))
  }

  /** The local orders that have been counted. */
  function Done(cfg: Config, u: nat, round: nat, a: App): seq<Order>
    requires u < |cfg.orders|
  {
    if round == 0 then []
    else if round == 1 && a.pos <= |cfg.orders[u]| then cfg.orders[u][..a.pos]
    else cfg.orders[u]
  }

  /** The sum over the counted orders and the merged records. */
  ghost function Tally(cfg: Config, u: nat, round: nat, a: App, got: seq<Msg<Body>>, w: What): real
    requires u < |cfg.parts| == |cfg.orders|
  {
    WorthAll(Done(cfg, u, round, a), w) + Weigh(Pick(got, Records()), RecordWorth(w))
  }

  ghost predicate TableOk(cfg: Config, u: nat, round: nat, a: App, got: seq<Msg<Body>>)
    requires u < |cfg.parts| == |cfg.orders|
  {
    && DistinctIds(a.table)
    && (forall d :: d in a.table ==> Labelled(AllParts(cfg), d))
    && (forall w: What :: !w.Marks? ==> TableSum(a.table, w) == Tally(cfg, u, round, a, got, w))
    && (forall key :: key in IdSet(a.table) <==> 0.0 < Tally(cfg, u, round, a, got, Marks(key)))
  }

  ghost predicate CountOk(round: nat, a: App) {
    round > 1 || (round == 1 && a.sub > 0) ==> a.partCount == |a.parts|
  }

  /** The records that `u` has sent. */
  function SentPart(cfg: Config, u: nat, round: nat, a: App): seq<PartData>
    requires Sized(cfg) && u < |cfg.parts|
  {
    if u == cfg.selectIdx || round < Turn(cfg, u) then []
    else if round == Turn(cfg, u) && a.pos <= |a.table| then a.table[..a.pos]
    else a.table
  }

  ghost predicate SentOk(cfg: Config, u: nat, round: nat, a: App, put: seq<Msg<Body>>)
    requires Sized(cfg) && u < |cfg.parts|
  {
    Pick(put, Records()) == DataMsgs(u, Turn(cfg, u), SentPart(cfg, u, round, a))
  }

  function SaleSum(v: seq<PartData>): int {
    if v == [] then 0 else SaleSum(v[..|v| - 1]) + v[|v| - 1].saleCount
  }

  /** `getTotalDatas` and `calculateUnderSale`. */
  ghost predicate FinalOk(cfg: Config, u: nat, round: nat, a: App)
    requires Sized(cfg) && u < |cfg.parts|
  {
    && (round < |cfg.parts| + 2 || u != cfg.selectIdx || a.sub < 2 ==> a.underSales == [])
    && (round == |cfg.parts| + 2 && u == cfg.selectIdx && a.pos <= |a.table| ==> Summed(a))
  }

  /** How far the final loops have got. */
  ghost predicate Summed(a: App)
    requires a.pos <= |a.table|
  {
    && (a.sub == 1 ==> a.totalSales == SaleSum(a.table[..a.pos]))
    && (a.sub == 2 ==>
          a.totalSales == SaleSum(a.table) && a.underSales == UnderList(a.table[..a.pos], (a.totalSales, a.partCount)))
  }

  ghost predicate ProcessOk(cfg: Config, u: nat, p: Proc, a: App, put: seq<Msg<Body>>, got: seq<Msg<Body>>)
    requires Sized(cfg) && u < |cfg.parts|
  {
    && MainOk(cfg, u, p, a)
    && PartsOk(cfg, u, a, got)
    && FloodOk(cfg, u, p.finishIndex, a, put)
    && TableOk(cfg, u, p.finishIndex, a, got)
    && CountOk(p.finishIndex, a)
    && SentOk(cfg, u, p.finishIndex, a, put)
    && FinalOk(cfg, u, p.finishIndex, a)
  }

  // ---- the messages ----

  /** A message that `u` has sent; `known` is the part table of its creator. */
  ghost predicate BodyOk(cfg: Config, u: nat, m: Msg<Body>, known: seq<Part>)
    requires Sized(cfg) && u < |cfg.parts| && m.Data?
  {
    match m.body
    case PartMsg(part) => m.stamp == 0 && part in AllParts(cfg) && part.key in KeySet(known)
    case DataMsg(d) => m.origin == u != cfg.selectIdx && m.stamp == Turn(cfg, u) && Labelled(AllParts(cfg), d)
  }

  ghost predicate MessageOk(cfg: Config, s: Sys, u: nat, m: Msg<Body>)
    requires SysWellFormed(cfg, s) && u < |s.apps|
  {
    m.Data? && m.origin < |s.apps| && BodyOk(cfg, u, m, s.apps[m.origin].parts)
  }

  ghost predicate MessagesOk(cfg: Config, s: Sys)
    requires SysWellFormed(cfg, s)
  {
    forall u: nat, m :: u < |s.apps| && m in s.hist.put[u] ==> MessageOk(cfg, s, u, m)
  }

  ghost predicate ProcessesOk(cfg: Config, s: Sys)
    requires SysWellFormed(cfg, s)
  {
    forall u: nat :: u < |s.apps| ==> ProcessOk(cfg, u, s.hist.ring.procs[u], s.apps[u], s.hist.put[u], s.hist.got[u])
  }

  ghost predicate SysInv(cfg: Config, s: Sys) {
    SysWellFormed(cfg, s) && HistInv(s.hist) && MessagesOk(cfg, s) && ProcessesOk(cfg, s)
  }

  lemma Basics(cfg: Config, s: Sys)
    requires SysInv(cfg, s)
    ensures SysWellFormed(cfg, s) && HistInv(s.hist) && MessagesOk(cfg, s) && |s.hist.ring.chans| == |s.apps|
  {
    hide HistInv, MessagesOk, ProcessesOk;
  }

  lemma ProcessIs(cfg: Config, s: Sys, u: nat)
    requires SysInv(cfg, s) && u < |s.apps|
    ensures ProcessOk(cfg, u, s.hist.ring.procs[u], s.apps[u], s.hist.put[u], s.hist.got[u])
    ensures MainOk(cfg, u, s.hist.ring.procs[u], s.apps[u])
  {
    hide MainOk, PartsOk, FloodOk, TableOk, CountOk, SentOk, FinalOk, HistInv, MessagesOk;
  }

  lemma {:induction false} LocalRows(rows: seq<seq<Part>>, u: nat)
    requires u < |rows| && DistinctKeys(Flatten(rows))
    ensures DistinctKeys(rows[u]) && forall part :: part in rows[u] ==> part in Flatten(rows)
  {
    var all, rest := Flatten(rows), Flatten(rows[1..]);
    assert all == rows[0] + rest;
    assert forall i :: 0 <= i < |rows[0]| ==> all[i] == rows[0][i];
    if u > 0 {
      assert forall i :: 0 <= i < |rest| ==> rest[i] == all[|rows[0]| + i];
      LocalRows(rows[1..], u - 1);
    }
  }

  lemma InitSysInv(cfg: Config, s: Sys)
    requires ValidData(cfg) && SysInit(cfg, s)
    ensures SysInv(cfg, s)
  {
    InitHistInv(s.hist);
    assert SysWellFormed(cfg, s);
    forall u: nat | u < |s.apps|
      ensures ProcessOk(cfg, u, s.hist.ring.procs[u], s.apps[u], s.hist.put[u], s.hist.got[u])
    {
      assert s.apps[u] == InitApp(cfg, u) && s.hist.ring.procs[u] == INIT_PROC;
      assert s.hist.put[u] == [] && s.hist.got[u] == [];
      InitProcess(cfg, u);
    }
  }

  lemma InitProcess(cfg: Config, u: nat)
    requires ValidData(cfg) && u < |cfg.parts|
    ensures ProcessOk(cfg, u, INIT_PROC, InitApp(cfg, u), [], [])
  {
    LocalRows(cfg.parts, u);
  }
}
