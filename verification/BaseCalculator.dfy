/** The calculation of class `Calculator` on the same barrier: orders are routed around the ring to the
    process that stores their part, totals are flooded, under-sale parts are flooded. */
module BaseCalculator {
  import Sequences
  import Topology
  import opened Barrier
  import opened History
  import opened Query
  import opened BrandTables

  datatype Config = Config(parts: seq<seq<Part>>, orders: seq<seq<Order>>)

  /** The keys in `partIdHash` of process `i`. */
  function KeysAt(cfg: Config, i: nat): set<int>
    requires i < |cfg.parts|
  {
    set p | p in cfg.parts[i] :: p.key
  }

  predicate Sized(cfg: Config) {
    2 <= |cfg.parts| == |cfg.orders|
  }

  /** Some process stores the part. */
  ghost predicate Stored(cfg: Config, key: int) {
    exists i: nat :: i < |cfg.parts| && key in KeysAt(cfg, i)
  }

  /** Every ordered part is stored by some process. */
  ghost predicate AllStored(cfg: Config) {
    forall key :: key in OrderedKeys(cfg) ==> Stored(cfg, key)
  }

  /** Every ordered part is stored by exactly one process. */
  ghost predicate OwnedOnce(cfg: Config) {
    && Sized(cfg)
    && (forall p, o :: 0 <= p < |cfg.orders| && o in cfg.orders[p] ==>
          exists i :: 0 <= i < |cfg.parts| && o.key in KeysAt(cfg, i))
    && (forall key, i, j ::
          (0 <= i < |cfg.parts| && 0 <= j < |cfg.parts| && key in OrderedKeys(cfg)
           && key in KeysAt(cfg, i) && key in KeysAt(cfg, j)) ==> i == j)
  }

  ghost function OrderedKeys(cfg: Config): set<int> {
    set o | o in Sequences.Flatten(cfg.orders) :: o.key
  }

  datatype Body =
    | OrderMsg(order: Order)
    | TotalMsg(from: int, count: int, sales: int)
    | UnderMsg(part: PartData)

  /** `table` holds the sales records of all brands, `shared` is the pair of which `avg` is computed. */
  datatype App = App(pos: nat, sub: nat, table: seq<PartData>, localSales: int, localPartCount: int,
                     partCount: int, totalSales: int, shared: (int, int), underSales: seq<PartData>)

  const INIT_APP := App(0, 0, [], 0, 0, 0, 0, (0, 0), [])

  /** `solveOrder` for a part that is stored here. */
  function Counted(parts: seq<Part>, a: App, o: Order): App {
    a.(table := MergeIn(a.table, Line(parts, o)), localSales := a.localSales + o.quantity)
  }

  // ---- the server thread ----

  function OnBody(parts: seq<Part>, keys: set<int>, port: int, a: App, b: Body): (App, bool) {
    match b
    case OrderMsg(o) => if o.key in keys then (Counted(parts, a, o), false) else (a, true)
    case TotalMsg(from, count, sales) =>
      if from == port then (a, false)
      else (a.(partCount := a.partCount + count, totalSales := a.totalSales + sales), true)
    case UnderMsg(part) =>
      if HasId(a.underSales, part.id) then (a, false) else (a.(underSales := a.underSales + [part]), true)
  }

  // ---- the main thread ----

  datatype Action =
    | Compute(app: App)
    | SendBody(app: App, body: Body)
    | EnterBarrier
    | Finished

  function MainAction(cfg: Config, id: nat, round: nat, a: App): Action
    requires |cfg.parts| == |cfg.orders| && id < |cfg.parts|
  {
    if round == 0 then
      if a.pos < |cfg.orders[id]| then
        var o := cfg.orders[id][a.pos];
        if o.key in KeysAt(cfg, id) then Compute(Counted(cfg.parts[id], a, o).(pos := a.pos + 1))
        else SendBody(a.(pos := a.pos + 1), OrderMsg(o))
      else EnterBarrier
    else if round == 1 then
      if a.pos == 0 then Compute(a.(localPartCount := a.localPartCount + |a.table|, pos := 1))
      else if a.pos == 1 then Compute(a.(partCount := a.partCount + a.localPartCount, pos := 2))
      else if a.pos == 2 then Compute(a.(totalSales := a.totalSales + a.localSales, pos := 3))
      else if a.pos == 3 then SendBody(a.(pos := 4), TotalMsg(Topology.Port(id), a.localPartCount, a.localSales))
      else EnterBarrier
    else if round == 2 then
      if a.sub == 0 then Compute(a.(shared := (a.totalSales, a.partCount), sub := 1))
      else if a.pos < |a.table| then
        if IsUnder(a.table[a.pos], a.shared) then SendBody(a.(pos := a.pos + 1), UnderMsg(a.table[a.pos]))
        else Compute(a.(pos := a.pos + 1))
      else EnterBarrier
    else Finished
  }

  // ---- the system ----

  datatype Sys = Sys(hist: Hist<Body>, apps: seq<App>)

  ghost predicate SysInit(cfg: Config, s: Sys) {
    && Sized(cfg) && HistInit(s.hist) && |s.apps| == |s.hist.put| == |cfg.parts|
    && (forall i :: 0 <= i < |s.apps| ==> s.apps[i] == INIT_APP)
  }

  ghost predicate SysWellFormed(cfg: Config, s: Sys) {
    && Sized(cfg) && WellFormed(s.hist.ring)
    && |s.apps| == |s.hist.put| == |s.hist.got| == |s.hist.ring.procs| == |cfg.parts|
  }

  ghost function NextAction(cfg: Config, s: Sys, id: nat): Action
    requires SysWellFormed(cfg, s) && id < |s.apps|
  {
    MainAction(cfg, id, s.hist.ring.procs[id].finishIndex, s.apps[id])
  }

  /** What `id` does with a payload message. */
  ghost function Handled(cfg: Config, s: Sys, id: nat, b: Body): (App, bool)
    requires SysWellFormed(cfg, s) && id < |s.apps|
  {
    OnBody(cfg.parts[id], KeysAt(cfg, id), Topology.Port(id), s.apps[id], b)
  }

  ghost predicate SysEnabled(cfg: Config, s: Sys, step: SysStep)
    requires SysWellFormed(cfg, s)
  {
    && step.id < |s.apps|
    && match step
       case Main(id) => s.hist.ring.procs[id].pc == Working && !NextAction(cfg, s, id).Finished?
       case SendFinish(id) => Enabled(s.hist.ring, SendToken(id))
       case WakeUp(id) => Enabled(s.hist.ring, Wake(id))
       case LeaveBarrier(id) => Enabled(s.hist.ring, Leave(id))
       case MarkRound(id) => Enabled(s.hist.ring, Mark(id))
       case Serve(id) => s.hist.ring.chans[Topology.Pred(|s.apps|, id)] != []
  }

  ghost predicate MovesRing(cfg: Config, s: Sys, step: SysStep)
    requires SysWellFormed(cfg, s) && SysEnabled(cfg, s, step)
  {
    !(step.Main? && NextAction(cfg, s, step.id).Compute?)
  }

  ghost function RingStep(cfg: Config, s: Sys, step: SysStep): (r: Step<Body>)
    requires SysWellFormed(cfg, s) && SysEnabled(cfg, s, step) && MovesRing(cfg, s, step)
    ensures Enabled(s.hist.ring, r) && r.id == step.id
  {
    match step
    case Main(id) =>
      if NextAction(cfg, s, id).SendBody? then Send(id, NextAction(cfg, s, id).body) else Enter(id)
    case SendFinish(id) => SendToken(id)
    case WakeUp(id) => Wake(id)
    case LeaveBarrier(id) => Leave(id)
    case MarkRound(id) => Mark(id)
    case Serve(id) =>
      var m := Head(s.hist.ring, id);
      if m.Token? then RecvToken(id) else RecvData(id, Handled(cfg, s, id, m.body).1)
  }

  ghost function NextApp(cfg: Config, s: Sys, step: SysStep): App
    requires SysWellFormed(cfg, s) && SysEnabled(cfg, s, step)
  {
    var a := s.apps[step.id];
    match step
    case Main(id) =>
      var action := NextAction(cfg, s, id);
      if action.EnterBarrier? then a else action.app
    case SendFinish(_) => a
    case WakeUp(_) => a
    case LeaveBarrier(_) => a.(pos := 0, sub := 0)
    case MarkRound(_) => a
    case Serve(id) =>
      var m := Head(s.hist.ring, id);
      if m.Token? then a else Handled(cfg, s, id, m.body).0
  }

  ghost function SysApply(cfg: Config, s: Sys, step: SysStep): Sys
    requires SysWellFormed(cfg, s) && SysEnabled(cfg, s, step)
  {
    Sys(if MovesRing(cfg, s, step) then Record(s.hist, RingStep(cfg, s, step)) else s.hist,
        s.apps[step.id := NextApp(cfg, s, step)])
  }
}
