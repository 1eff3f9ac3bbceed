/** The calculation of class `AdvancedCalculator` on the same barrier.  The part table is copied to
    every process, each counts its own orders, and the records are merged along the ring. */
module AdvancedCalculator {
  import Topology
  import opened Barrier
  import opened History
  import opened Query
  import opened BrandTables

  datatype Config = Config(parts: seq<seq<Part>>, orders: seq<seq<Order>>, selectIdx: nat)

  predicate Sized(cfg: Config) {
    2 <= |cfg.parts| == |cfg.orders| && cfg.selectIdx < |cfg.parts|
  }

  function KeySet(parts: seq<Part>): set<int> {
    set p | p in parts :: p.key
  }

  datatype Body = PartMsg(part: Part) | DataMsg(data: PartData)

  /** `parts` is the part table, `size` its length when the first loop starts, and `booked` the keys that
      looking up the part of an order has put into `partIdHash` although the table has no such row. */
  datatype App = App(pos: nat, sub: nat, size: nat, parts: seq<Part>, booked: set<int>, table: seq<PartData>,
                     partCount: int, totalSales: int, underSales: seq<PartData>)

  function InitApp(cfg: Config, id: nat): App
    requires id < |cfg.parts|
  {
    App(0, 0, 0, cfg.parts[id], {}, [], 0, 0, [])
  }

  /** `parts[partIdHash[key]]`: for a key that has no row the lookup inserts position 0. */
  function BookingRow(parts: seq<Part>, key: int): Part {
    if key in KeySet(parts) || parts == [] then PartRow(parts, key) else parts[0]
  }

  /** What `solveOrder` adds to the sales records. */
  function Booking(parts: seq<Part>, o: Order): PartData {
    LineOf(o, BookingRow(parts, o.key).brand, BookingRow(parts, o.key).container)
  }

  function Booked(a: App, o: Order): App {
    a.(table := MergeIn(a.table, Booking(a.parts, o)),
       booked := if o.key in KeySet(a.parts) then a.booked else a.booked + {o.key})
  }

  // ---- the server thread ----

  /** `insertPart` and `mergePartData`. */
  function OnBody(a: App, b: Body): (App, bool) {
    match b
    case PartMsg(part) =>
      if part.key in KeySet(a.parts) + a.booked then (a, false) else (a.(parts := a.parts + [part]), true)
    case DataMsg(d) => (a.(table := MergeIn(a.table, d)), false)
  }

  // ---- the main thread ----

  datatype Action =
    | Compute(app: App)
    | SendBody(app: App, body: Body)
    | EnterBarrier
    | Finished

  /** The number of hops after `selectIdx` at which `q` is reached, with `selectIdx` itself last. */
  function Place(cfg: Config, q: nat): nat
    requires cfg.selectIdx < |cfg.parts| && q < |cfg.parts|
  {
    if q == cfg.selectIdx then |cfg.parts| else Topology.Dist(|cfg.parts|, cfg.selectIdx, q)
  }

  /** The round in which `q` sends its records. */
  function Turn(cfg: Config, q: nat): nat
    requires cfg.selectIdx < |cfg.parts| && q < |cfg.parts|
  {
    1 + Place(cfg, q)
  }

  /** The next statement of the main thread of `id`, which has left `round` barriers behind. */
  function MainAction(cfg: Config, id: nat, round: nat, a: App): Action
    requires Sized(cfg) && id < |cfg.parts|
  {
    var n := |cfg.parts|;
    if round == 0 then
      if a.sub == 0 then Compute(a.(size := |a.parts|, sub := 1))
      else if a.pos < a.size && a.pos < |a.parts| then SendBody(a.(pos := a.pos + 1), PartMsg(a.parts[a.pos]))
      else EnterBarrier
    else if round == 1 then
      if a.sub == 0 then Compute(a.(partCount := |a.parts|, sub := 1))
      else if a.pos < |cfg.orders[id]| then
        Compute(Booked(a, cfg.orders[id][a.pos]).(pos := a.pos + 1))
      else EnterBarrier
    else if round <= n then
      // iteration `round - 2` of the `now` loop
      if id == Topology.After(n, cfg.selectIdx, round - 1) && a.pos < |a.table| then
        SendBody(a.(pos := a.pos + 1), DataMsg(a.table[a.pos]))
      else EnterBarrier
    else if round == n + 1 then EnterBarrier
    else if id == cfg.selectIdx then
      if a.sub == 0 then Compute(a.(totalSales := 0, sub := 1, pos := 0))
      else if a.sub == 1 then
        if a.pos < |a.table| then
          Compute(a.(totalSales := a.totalSales + a.table[a.pos].saleCount, pos := a.pos + 1))
        else Compute(a.(sub := 2, pos := 0))
      else if a.pos < |a.table| then
        var d := a.table[a.pos];
        Compute(a.(underSales := a.underSales + (if IsUnder(d, (a.totalSales, a.partCount)) then [d] else []),
                   pos := a.pos + 1))
      else Finished
    else Finished
  }

  // ---- the system ----

  datatype Sys = Sys(hist: Hist<Body>, apps: seq<App>)

  ghost predicate SysInit(cfg: Config, s: Sys) {
    && Sized(cfg) && HistInit(s.hist) && |s.apps| == |s.hist.put| == |cfg.parts|
    && (forall i :: 0 <= i < |s.apps| ==> s.apps[i] == InitApp(cfg, i))
  }

  ghost predicate SysWellFormed(cfg: Config, s: Sys) {
    && Sized(cfg) && WellFormed(s.hist.ring)
    && |s.apps| == |s.hist.put| == |s.hist.got| == |s.hist.ring.procs| == |cfg.parts|
  }

  ghost function NextAction(cfg: Config, s: Sys, id: nat): Action
    requires SysWellFormed(cfg, s) && id < |s.apps|
  {
    MainAction(cfg, id, s.hist.ring.procs[id].finishIndex, s.apps[id])
  }

  ghost predicate SysEnabled(cfg: Config, s: Sys, step: SysStep)
    requires SysWellFormed(cfg, s)
  {
    && step.id < |s.apps|
    && match step
       case Main(id) => s.hist.ring.procs[id].pc == Working && !NextAction(cfg, s, id).Finished?
       case SendFinish(id) => Enabled(s.hist.ring, SendToken(id))
       case WakeUp(id) => Enabled(s.hist.ring, Wake(id))
       case LeaveBarrier(id) => Enabled(s.hist.ring, Leave(id))
       case MarkRound(id) => Enabled(s.hist.ring, Mark(id))
       case Serve(id) => s.hist.ring.chans[Topology.Pred(|s.apps|, id)] != []
  }

  ghost predicate MovesRing(cfg: Config, s: Sys, step: SysStep)
    requires SysWellFormed(cfg, s) && SysEnabled(cfg, s, step)
  {
    !(step.Main? && NextAction(cfg, s, step.id).Compute?)
  }

  ghost function RingStep(cfg: Config, s: Sys, step: SysStep): (r: Step<Body>)
    requires SysWellFormed(cfg, s) && SysEnabled(cfg, s, step) && MovesRing(cfg, s, step)
    ensures Enabled(s.hist.ring, r) && r.id == step.id
  {
    match step
    case Main(id) =>
      if NextAction(cfg, s, id).SendBody? then Send(id, NextAction(cfg, s, id).body) else Enter(id)
    case SendFinish(id) => SendToken(id)
    case WakeUp(id) => Wake(id)
    case LeaveBarrier(id) => Leave(id)
    case MarkRound(id) => Mark(id)
    case Serve(id) =>
      var m := Head(s.hist.ring, id);
      if m.Token? then RecvToken(id) else RecvData(id, OnBody(s.apps[id], m.body).1)
  }

  ghost function NextApp(cfg: Config, s: Sys, step: SysStep): App
    requires SysWellFormed(cfg, s) && SysEnabled(cfg, s, step)
  {
    var a := s.apps[step.id];
    match step
    case Main(id) =>
      var action := NextAction(cfg, s, id);
      if action.EnterBarrier? then a else action.app
    case SendFinish(_) => a
    case WakeUp(_) => a
    case LeaveBarrier(_) => a.(pos := 0, sub := 0)
    case MarkRound(_) => a
    case Serve(id) =>
      var m := Head(s.hist.ring, id);
      if m.Token? then a else OnBody(a, m.body).0
  }

  ghost function SysApply(cfg: Config, s: Sys, step: SysStep): Sys
    requires SysWellFormed(cfg, s) && SysEnabled(cfg, s, step)
  {
    Sys(if MovesRing(cfg, s, step) then Record(s.hist, RingStep(cfg, s, step)) else s.hist,
        s.apps[step.id := NextApp(cfg, s, step)])
  }
}
