/** The whole query as a transition system: the main thread of `FinalCompetitionCalculator` and the
    server thread of every process, one atomic step per loop iteration or message. */
module FinalCompetition {
  import opened Topology
  import opened Barrier
  import opened Query

  /** The rows each process has loaded, the query, and the process that shows the answer. */
  datatype Config = Config(parts: seq<seq<Part>>, orders: seq<seq<Order>>, target: Target, selectIdx: nat)

  ghost predicate ValidConfig(cfg: Config) {
    2 <= |cfg.parts| == |cfg.orders| && cfg.selectIdx < |cfg.parts|
  }

  /** Payload messages: `partKey`, `finalPart` and `finalAns`. */
  datatype Body =
    | PartKey(key: int)
    | FinalPart(sale: PartSale, from: int)
    | FinalAns(answer: real)

  /** The data of one process.  `pos` counts the iterations of the current loop and `sub` tells apart
      the statements of a round; both start over after every `doAsync`. */
  datatype App = App(pos: nat, sub: nat, partKeyMap: set<int>, partData: seq<PartSale>,
                     receivePartData: seq<PartSale>, orders: seq<Order>, underSales: real)

  const INIT_APP := App(0, 0, {}, [], [], [], 0.0)

  // ---- the server thread ----

  /** The effect of one payload message, and whether it is sent on. */
  function OnBody(port: int, a: App, b: Body): (App, bool) {
    match b
    case PartKey(key) =>
      if key in a.partKeyMap then (a, false)
      else (a.(partKeyMap := a.partKeyMap + {key}), true)
    case FinalPart(sale, from) =>
      if from == port then (a, false)
      else
        // The case has no break: control falls through into `finalAns`, which reads the number at the
        // front of the same body, the part id.
        (a.(receivePartData := Insert(a.receivePartData, sale),
            underSales := a.underSales + sale.partid as real), true)
    case FinalAns(answer) => (a.(underSales := a.underSales + answer), false)
  }

  // ---- the main thread ----

  datatype Action =
    | Compute(app: App)
    | SendBody(app: App, body: Body)
    | EnterBarrier
    | Finished

  /** The process that sends in iteration `k` of the `now` loop of `mergeQueryAns`. */
  function NowAt(cfg: Config, k: nat): nat
    requires cfg.selectIdx < |cfg.parts| && k + 1 <= |cfg.parts|
  {
    After(|cfg.parts|, cfg.selectIdx, k + 1)
  }

  /** The number of times `doAsync` is called. */
  function Rounds(cfg: Config): nat {
    |cfg.parts| + 4
  }

  /** The next statement of the main thread of `id`, which has left `round` barriers behind. */
  function MainAction(cfg: Config, id: nat, round: nat, a: App): Action
    requires |cfg.parts| == |cfg.orders| && cfg.selectIdx < |cfg.parts| && id < |cfg.parts|
  {
    if round == 0 then Preprocess(cfg.parts[id], cfg.target, a)
    else if round == 1 then CollectOrders(cfg.orders[id], a)
    else if round == 2 then CommunicatePartSale(id, a)
    else if round == 3 then GetLocalUnderSale(a)
    else if round < |cfg.parts| + 3 then MergeQueryAns(id, NowAt(cfg, round - 4), a)
    else if round == |cfg.parts| + 3 then EnterBarrier
    else Finished
  }

  /** First loop of `preprocess`: `addPartKey`, then `send` and `insertPartData`. */
  function Preprocess(parts: seq<Part>, target: Target, a: App): Action {
    if a.pos < |parts| then
      var part := parts[a.pos];
      if !Matches(part, target) then Compute(a.(pos := a.pos + 1))
      else if a.sub == 0 then Compute(a.(partKeyMap := a.partKeyMap + {part.key}, sub := 1))
      else SendBody(a.(partData := Insert(a.partData, PartSale(part.key, 0, 0)), pos := a.pos + 1, sub := 0),
                    PartKey(part.key))
    else EnterBarrier
  }

  /** Second loop of `preprocess`: orders of a known key are kept and counted. */
  function CollectOrders(orders: seq<Order>, a: App): Action {
    if a.pos < |orders| then
      var o := orders[a.pos];
      if o.key in a.partKeyMap then
        Compute(a.(orders := a.orders + [o], partData := Insert(a.partData, PartSale(o.key, o.quantity, 1)),
                   pos := a.pos + 1))
      else Compute(a.(pos := a.pos + 1))
    else EnterBarrier
  }

  /** The loop of `communicatePartSale`. */
  function CommunicatePartSale(id: nat, a: App): Action {
    if a.pos < |a.partData| then SendBody(a.(pos := a.pos + 1), FinalPart(a.partData[a.pos], Port(id)))
    else EnterBarrier
  }

  /** `mergeData`, then `setUnderSales(0.)`, then the loop of `getLocalUnderSale`. */
  function GetLocalUnderSale(a: App): Action {
    if a.sub == 0 then
      if a.pos < |a.receivePartData| then
        Compute(a.(partData := Insert(a.partData, a.receivePartData[a.pos]), pos := a.pos + 1))
      else Compute(a.(underSales := 0.0, sub := 1, pos := 0))
    else if a.pos < |a.orders| then
      var o := a.orders[a.pos];
      Compute(a.(underSales := a.underSales + if BelowAverage(o, Lookup(a.partData, o.key)) then o.price else 0.0,
                 pos := a.pos + 1))
    else EnterBarrier
  }

  /** One iteration of `mergeQueryAns`. */
  function MergeQueryAns(id: nat, now: nat, a: App): Action {
    if a.pos == 0 then
      if id == now then SendBody(a.(pos := 1), FinalAns(a.underSales)) else Compute(a.(pos := 1))
    else EnterBarrier
  }

  // ---- the system ----

  /** `ledger[u][p]` is a history variable: the part sales of `p` that `u` has sent (u == p) or merged,
      in order.  Nothing depends on it. */
  datatype Sys = Sys(ring: Ring<Body>, apps: seq<App>, ledger: seq<seq<seq<PartSale>>>)

  ghost predicate SysInit(cfg: Config, s: Sys) {
    && ValidConfig(cfg)
    && Init(s.ring)
    && |s.apps| == |s.ledger| == |s.ring.procs| == |cfg.parts|
    && (forall i :: 0 <= i < |s.apps| ==> s.apps[i] == INIT_APP)
    && (forall u :: 0 <= u < |s.ledger| ==> |s.ledger[u]| == |s.apps|)
    && (forall u, p :: 0 <= u < |s.ledger| && 0 <= p < |s.apps| ==> s.ledger[u][p] == [])
  }

  ghost predicate SysWellFormed(cfg: Config, s: Sys) {
    && ValidConfig(cfg)
    && WellFormed(s.ring)
    && |s.apps| == |s.ledger| == |s.ring.procs| == |cfg.parts|
    && (forall u :: 0 <= u < |s.ledger| ==> |s.ledger[u]| == |s.apps|)
  }

  /** What the main thread of `id` does next. */
  function NextAction(cfg: Config, s: Sys, id: nat): Action
    requires |cfg.parts| == |cfg.orders| && cfg.selectIdx < |cfg.parts|
    requires id < |s.apps| == |s.ring.procs| == |cfg.parts|
  {
    MainAction(cfg, id, s.ring.procs[id].finishIndex, s.apps[id])
  }

  ghost predicate SysEnabled(cfg: Config, s: Sys, step: SysStep)
    requires SysWellFormed(cfg, s)
  {
    && step.id < |s.apps|
    && match step
       case Main(id) => s.ring.procs[id].pc == Working && !NextAction(cfg, s, id).Finished?
       case SendFinish(id) => Enabled(s.ring, SendToken(id))
       case WakeUp(id) => Enabled(s.ring, Wake(id))
       case LeaveBarrier(id) => Enabled(s.ring, Leave(id))
       case MarkRound(id) => Enabled(s.ring, Mark(id))
       case Serve(id) => s.ring.chans[Pred(|s.apps|, id)] != []
  }

  /** The ring step that a system step performs, if it performs one. */
  ghost predicate MovesRing(cfg: Config, s: Sys, step: SysStep)
    requires SysWellFormed(cfg, s) && SysEnabled(cfg, s, step)
  {
    !(step.Main? && NextAction(cfg, s, step.id).Compute?)
  }

  ghost function RingStep(cfg: Config, s: Sys, step: SysStep): (r: Step<Body>)
    requires SysWellFormed(cfg, s) && SysEnabled(cfg, s, step) && MovesRing(cfg, s, step)
    ensures Enabled(s.ring, r) && r.id == step.id
  {
    match step
    case Main(id) =>
      if NextAction(cfg, s, id).SendBody? then Send(id, NextAction(cfg, s, id).body) else Enter(id)
    case SendFinish(id) => SendToken(id)
    case WakeUp(id) => Wake(id)
    case LeaveBarrier(id) => Leave(id)
    case MarkRound(id) => Mark(id)
    case Serve(id) =>
      var m := Head(s.ring, id);
      if m.Token? then RecvToken(id) else RecvData(id, OnBody(Port(id), s.apps[id], m.body).1)
  }

  ghost function NextApp(cfg: Config, s: Sys, step: SysStep): App
    requires SysWellFormed(cfg, s) && SysEnabled(cfg, s, step)
  {
    var a := s.apps[step.id];
    match step
    case Main(id) =>
      var action := NextAction(cfg, s, id);
      if action.EnterBarrier? then a else action.app
    case SendFinish(_) => a
    case WakeUp(_) => a
    case LeaveBarrier(_) => a.(pos := 0, sub := 0)
    case MarkRound(_) => a
    case Serve(id) =>
      var m := Head(s.ring, id);
      if m.Token? then a else OnBody(Port(id), a, m.body).0
  }

  ghost function NextLedger(cfg: Config, s: Sys, step: SysStep): seq<seq<seq<PartSale>>>
    requires SysWellFormed(cfg, s) && SysEnabled(cfg, s, step)
  {
    var id := step.id;
    if step.Main? && NextAction(cfg, s, id).SendBody? && NextAction(cfg, s, id).body.FinalPart? then
      Book(s.ledger, id, id, NextAction(cfg, s, id).body.sale)
    else if step.Serve? && Head(s.ring, id).Data? && Head(s.ring, id).body.FinalPart?
            && Head(s.ring, id).origin < |s.apps| && Head(s.ring, id).body.from != Port(id) then
      Book(s.ledger, id, Head(s.ring, id).origin, Head(s.ring, id).body.sale)
    else s.ledger
  }

  function Book(ledger: seq<seq<seq<PartSale>>>, u: nat, p: nat, sale: PartSale): seq<seq<seq<PartSale>>>
    requires u < |ledger| && p < |ledger[u]|
  {
    ledger[u := ledger[u][p := ledger[u][p] + [sale]]]
  }

  ghost function SysApply(cfg: Config, s: Sys, step: SysStep): Sys
    requires SysWellFormed(cfg, s) && SysEnabled(cfg, s, step)
  {
    Sys(if MovesRing(cfg, s, step) then Apply(s.ring, RingStep(cfg, s, step)) else s.ring,
        s.apps[step.id := NextApp(cfg, s, step)],
        NextLedger(cfg, s, step))
  }
}
