/** The repeated barrier of `Calculator::doAsync` and the `finish` case of the server loop, carried
    by a ring of FIFO channels.  The other messages are an arbitrary payload `P`. */
module Barrier {
  import opened Topology

  /** Where the main thread stands inside `doAsync`:
      Working = outside of it, Entered = after `is_finished[..] = 1`, Waiting = after `sendFinish()`,
      Woken = after `cv.wait`, Stepped = when `finish_index++` has yielded `round` and
      `is_notify[round] = 1` is still to come. */
  datatype Pc = Working | Entered | Waiting | Woken | Stepped(round: nat)

  /** The flags of one process.  A hash map of the program that is only ever asked for `count` is the
      set of its keys; `latch` is the condition variable. */
  datatype Proc = Proc(pc: Pc, finishIndex: nat, isFinished: set<nat>, isNotify: set<nat>,
                       hasNotify: set<nat>, latch: bool)

  /** A `finish` message carries its round and one counter per process.  Any other message carries a
      payload; `origin` (who created it) and `stamp` (the creator's round) are bookkeeping for the
      proofs and no transition decides anything by them. */
  datatype Msg<P> =
    | Token(round: nat, digits: seq<nat>)
    | Data(origin: nat, stamp: nat, body: P)

  /** `chans[i]` is the channel from process i to its successor, oldest message first. */
  datatype Ring<P> = Ring(procs: seq<Proc>, chans: seq<seq<Msg<P>>>)

  const INIT_PROC := Proc(Working, 0, {}, {}, {}, false)

  // ---- one process ----

  predicate CheckFinish(digits: seq<nat>) {
    forall i :: 0 <= i < |digits| ==> 1 <= digits[i]
  }

  datatype Verdict = Ignore | Forward | Notify

  /** What the server does with a `finish` message. */
  function FinishVerdict(p: Proc, round: nat, digits: seq<nat>): Verdict {
    if round in p.isNotify then Ignore
    else if round !in p.isFinished then Ignore
    else if p.finishIndex != round then Ignore
    else if CheckFinish(digits) then
      if round in p.hasNotify then Ignore else Notify
    else Forward
  }

  /** The counters `sendFinish` puts on the wire. */
  function Stamped(id: nat, digits: seq<nat>): seq<nat>
    requires id < |digits|
  {
    digits[id := digits[id] + 1]
  }

  function ZeroDigits(n: nat): (d: seq<nat>)
    ensures |d| == n
  {
    seq(n, _ => 0)
  }

  function AfterFinish(p: Proc, round: nat, digits: seq<nat>): Proc {
    if FinishVerdict(p, round, digits).Notify?
    then p.(latch := true, hasNotify := p.hasNotify + {round})
    else p
  }

  function Entering(p: Proc): Proc {
    p.(pc := Entered, isFinished := p.isFinished + {p.finishIndex})
  }

  function Leaving(p: Proc): Proc {
    p.(pc := Stepped(p.finishIndex), finishIndex := p.finishIndex + 1)
  }

  function Marking(p: Proc): Proc
    requires p.pc.Stepped?
  {
    p.(pc := Working, isNotify := p.isNotify + {p.pc.round})
  }

  /** The main thread is in the barrier of round `finishIndex`. */
  predicate Inside(p: Proc) {
    p.pc == Entered || p.pc == Waiting || p.pc == Woken
  }

  // ---- the ring ----

  datatype Step<P> =
    | Enter(id: nat)
    | SendToken(id: nat)
    | Wake(id: nat)
    | Leave(id: nat)
    | Mark(id: nat)
    | RecvToken(id: nat)
    | Send(id: nat, body: P)
    | RecvData(id: nat, forward: bool)

  /** Whose turn it is in a system built on the ring: the main thread outside of `doAsync`, its steps
      inside, or the server thread. */
  datatype SysStep =
    | Main(id: nat)
    | SendFinish(id: nat)
    | WakeUp(id: nat)
    | LeaveBarrier(id: nat)
    | MarkRound(id: nat)
    | Serve(id: nat)

  ghost predicate WellFormed<P(!new)>(s: Ring<P>) {
    && 2 <= |s.procs| == |s.chans|
    && (forall c, m :: InChan(s, c, m) ==> WellFormedMsg(|s.procs|, m))
  }

  /** The message `m` is on its way from process `c` to its successor. */
  ghost predicate InChan<P(!new)>(s: Ring<P>, c: int, m: Msg<P>) {
    0 <= c < |s.chans| && m in s.chans[c]
  }

  ghost predicate WellFormedMsg<P(!new)>(n: nat, m: Msg<P>) {
    match m
    case Token(_, digits) => |digits| == n
    case Data(origin, _, _) => origin < n
  }

  ghost predicate Init<P(!new)>(s: Ring<P>) {
    && 2 <= |s.procs| == |s.chans|
    && (forall i :: 0 <= i < |s.procs| ==> s.procs[i] == INIT_PROC && s.chans[i] == [])
  }

  function Push<P>(chans: seq<seq<Msg<P>>>, c: nat, m: Msg<P>): (r: seq<seq<Msg<P>>>)
    requires c < |chans|
    ensures |r| == |chans|
  {
    chans[c := chans[c] + [m]]
  }

  function Pop<P>(chans: seq<seq<Msg<P>>>, c: nat): (r: seq<seq<Msg<P>>>)
    requires c < |chans| && chans[c] != []
    ensures |r| == |chans|
  {
    chans[c := chans[c][1..]]
  }

  /** The message the server of `id` reads next. */
  function Head<P>(s: Ring<P>, id: nat): Msg<P>
    requires |s.procs| == |s.chans| && id < |s.procs| && s.chans[Pred(|s.procs|, id)] != []
  {
    s.chans[Pred(|s.procs|, id)][0]
  }

  ghost predicate Enabled<P(!new)>(s: Ring<P>, step: Step<P>)
    requires WellFormed(s)
  {
    && step.id < |s.procs|
    && var p := s.procs[step.id];
       var inbound := s.chans[Pred(|s.procs|, step.id)];
       match step
       case Enter(_) => p.pc == Working
       case SendToken(_) => p.pc == Entered
       case Wake(_) => p.pc == Waiting && p.latch
       case Leave(_) => p.pc == Woken
       case Mark(_) => p.pc.Stepped?
       case RecvToken(_) => inbound != [] && inbound[0].Token?
       case Send(_, _) => p.pc == Working
       case RecvData(_, _) => inbound != [] && inbound[0].Data?
  }

  /** A payload message sent on by `id`.  One that has come back to its creator and is sent on all the
      same starts a new life: it belongs to no round that its creator has entered. */
  function SentOn<P>(p: Proc, id: nat, m: Msg<P>): Msg<P>
    requires m.Data?
  {
    if m.origin == id then m.(stamp := p.finishIndex + 1) else m
  }

  /** Nobody sends on a message of its own that has come round. */
  ghost predicate OneLap<P(!new)>(s: Ring<P>, step: Step<P>)
    requires WellFormed(s) && Enabled(s, step)
  {
    step.RecvData? && step.forward ==> Head(s, step.id).origin != step.id
  }

  ghost function Apply<P(!new)>(s: Ring<P>, step: Step<P>): (s': Ring<P>)
    requires WellFormed(s) && Enabled(s, step)
    ensures |s'.procs| == |s.procs| == |s'.chans|
  {
    var n := |s.procs|;
    var id := step.id;
    var p := s.procs[id];
    match step
    case Enter(_) => s.(procs := s.procs[id := Entering(p)])
    case SendToken(_) =>
      s.(procs := s.procs[id := p.(pc := Waiting)],
         chans := Push(s.chans, id, Token(p.finishIndex, Stamped(id, ZeroDigits(n)))))
    case Wake(_) => s.(procs := s.procs[id := p.(pc := Woken, latch := false)])
    case Leave(_) => s.(procs := s.procs[id := Leaving(p)])
    case Mark(_) => s.(procs := s.procs[id := Marking(p)])
    case RecvToken(_) =>
      var Token(round, digits) := Head(s, id);
      assert InChan(s, Pred(n, id), Head(s, id));
      var popped := Pop(s.chans, Pred(n, id));
      Ring(s.procs[id := AfterFinish(p, round, digits)],
           if FinishVerdict(p, round, digits).Ignore? then popped
           else Push(popped, id, Token(round, Stamped(id, digits))))
    case Send(_, body) => s.(chans := Push(s.chans, id, Data(id, p.finishIndex, body)))
    case RecvData(_, forward) =>
      var popped := Pop(s.chans, Pred(n, id));
      s.(chans := if forward then Push(popped, id, SentOn(p, id, Head(s, id))) else popped)
  }
}
