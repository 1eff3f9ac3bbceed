/** How the parameters of a query reach every process. */
module StartFlood {
  import opened Topology
  import opened Query
  import opened Wire

  /** The main thread stands in front of `cv.wait`, behind it, or behind `sendStart`. */
  datatype Stage = Waits | Woken | Calculates

  /** `params` are `select_idx`, `targetContainer` and `targetBrand`, the last two chosen at random until a
      command or a message sets them; `latch` is the condition variable. */
  datatype Node = Node(stage: Stage, selectFlag: bool, latch: bool, params: Start)

  /** `chans[i]` holds the start messages on their way from `i` to its successor, oldest first. */
  datatype Net = Net(nodes: seq<Node>, chans: seq<seq<Start>>)

  /** A `select` command is typed in, the main thread takes a step, or the server reads a message.  `parsed`
      tells whether the command names a container and a brand. */
  datatype Step =
    | Select(id: nat, parsed: bool, container: string, brand: (int, int))
    | Wake(id: nat)
    | SendStart(id: nat)
    | Read(id: nat)

  predicate WellFormed(s: Net) {
    2 <= |s.nodes| == |s.chans|
  }

  predicate Init(s: Net) {
    && WellFormed(s)
    && forall i :: 0 <= i < |s.nodes| ==>
         s.nodes[i].stage == Waits && !s.nodes[i].selectFlag && !s.nodes[i].latch && s.chans[i] == []
  }

  predicate Enabled(s: Net, step: Step)
    requires WellFormed(s)
  {
    && step.id < |s.nodes|
    && var p := s.nodes[step.id];
       match step
       case Select(_, _, _, _) => !p.selectFlag
       case Wake(_) => p.stage == Waits && p.latch
       case SendStart(_) => p.stage == Woken
       case Read(_) => s.chans[Pred(|s.nodes|, step.id)] != []
  }

  /** The case `start`: only the first message counts. */
  function OnStart(p: Node, x: Start): Node {
    if p.selectFlag then p else p.(selectFlag := true, params := x, latch := true)
  }

  /** The parameters of the process after the command: one that could not be parsed leaves them alone. */
  function Typed(p: Node, step: Step): Start
    requires step.Select?
  {
    if step.parsed then p.params.(container := step.container, brand := step.brand) else p.params
  }

  /** What the command sends: the index of the process it is typed to, and the parameters there. */
  function CommandAt(s: Net, step: Step): Start
    requires WellFormed(s) && Enabled(s, step) && step.Select?
  {
    Start(step.id + 1, Typed(s.nodes[step.id], step).container, Typed(s.nodes[step.id], step).brand)
  }

  function Apply(s: Net, step: Step): (s': Net)
    requires WellFormed(s) && Enabled(s, step)
    ensures WellFormed(s') && |s'.nodes| == |s.nodes|
  {
    var id := step.id;
    var p, u := s.nodes[id], Pred(|s.nodes|, id);
    match step
    case Select(_, _, _, _) =>
      Net(s.nodes[id := p.(params := Typed(p, step))], s.chans[id := s.chans[id] + [CommandAt(s, step)]])
    case Wake(_) => s.(nodes := s.nodes[id := p.(stage := Woken, latch := false)])
    case SendStart(_) => Net(s.nodes[id := p.(stage := Calculates)], s.chans[id := s.chans[id] + [p.params]])
    case Read(_) => Net(s.nodes[id := OnStart(p, s.chans[u][0])], s.chans[u := s.chans[u][1..]])
  }

  predicate IsRun(s: Net, trace: seq<Step>)
    requires WellFormed(s)
    decreases |trace|
  {
    trace == [] || (Enabled(s, trace[0]) && IsRun(Apply(s, trace[0]), trace[1..]))
  }

  function Exec(s: Net, trace: seq<Step>): (s': Net)
    requires WellFormed(s) && IsRun(s, trace)
    ensures WellFormed(s') && |s'.nodes| == |s.nodes|
    decreases |trace|
  {
    if trace == [] then s else Exec(Apply(s, trace[0]), trace[1..])
  }

  /** The commands of a run, as the messages they send. */
  function Commands(s: Net, trace: seq<Step>): seq<Start>
    requires WellFormed(s) && IsRun(s, trace)
    decreases |trace|
  {
    if trace == [] then []
    else (if trace[0].Select? then [CommandAt(s, trace[0])] else []) + Commands(Apply(s, trace[0]), trace[1..])
  }

  // ---- what every step keeps ----

  /** After the commands `cmds`: messages and parameters stem from them, no wake-up is lost, and whoever has
      sent a start message has a successor that knows of one or will read one. */
  ghost predicate Inv(s: Net, cmds: set<Start>) {
    && WellFormed(s)
    && (forall i, x :: 0 <= i < |s.chans| && x in s.chans[i] ==> x in cmds)
    && (forall i :: 0 <= i < |s.nodes| && s.nodes[i].selectFlag ==> s.nodes[i].params in cmds)
    && (forall i :: 0 <= i < |s.nodes| ==> (s.nodes[i].selectFlag <==> s.nodes[i].latch || s.nodes[i].stage != Waits))
    && (forall i :: 0 <= i < |s.nodes| && s.nodes[i].stage != Waits ==> !s.nodes[i].latch)
    && (forall i: nat :: i < |s.nodes| && s.nodes[i].stage == Calculates ==> Told(s, i))
    && (forall x :: x in cmds ==> 1 <= x.selectIdx <= |s.nodes| && Told(s, x.selectIdx - 1))
  }

  /** The successor of `i` has read a start message, or will. */
  ghost predicate Told(s: Net, i: nat)
    requires WellFormed(s) && i < |s.nodes|
  {
    s.nodes[Succ(|s.nodes|, i)].selectFlag || s.chans[i] != []
  }

  function CommandOf(s: Net, step: Step): set<Start>
    requires WellFormed(s) && Enabled(s, step)
  {
    if step.Select? then {CommandAt(s, step)} else {}
  }

  lemma ToldAfter(s: Net, step: Step, i: nat)
    requires WellFormed(s) && Enabled(s, step) && i < |s.nodes|
    ensures Told(s, i) || (step.id == i && (step.Select? || step.SendStart?)) ==> Told(Apply(s, step), i)
  {
  }

  lemma StepKeepsInv(s: Net, step: Step, cmds: set<Start>)
    requires Inv(s, cmds) && Enabled(s, step)
    ensures Inv(Apply(s, step), cmds + CommandOf(s, step))
  {
    var s', all, u := Apply(s, step), cmds + CommandOf(s, step), Pred(|s.nodes|, step.id);
    forall i: nat | i < |s.nodes| ensures Told(s, i) || (step.id == i && (step.Select? || step.SendStart?)) ==> Told(s', i) {
      ToldAfter(s, step, i);
    }
    hide Told;
    if step.Read? {
      assert s.chans[u][0] in s.chans[u];
    }
    forall i, x | 0 <= i < |s'.chans| && x in s'.chans[i] ensures x in all {
      if x !in s.chans[i] {
        assert i == step.id && (step.Select? || step.SendStart?);
      }
    }
  }

  lemma {:induction false} RunKeepsInv(s: Net, trace: seq<Step>, cmds: set<Start>)
    requires Inv(s, cmds) && IsRun(s, trace)
    ensures Inv(Exec(s, trace), cmds + (set x | x in Commands(s, trace)))
    decreases |trace|
  {
    hide Inv, Enabled, Apply;
    assert Inv(s, cmds) ==> WellFormed(s) by { InvIsWellFormed(s, cmds); }
    var all := cmds + (set x | x in Commands(s, trace));
    if trace == [] {
      assert all == cmds;
    } else {
      StepKeepsInv(s, trace[0], cmds);
      RunKeepsInv(Apply(s, trace[0]), trace[1..], cmds + CommandOf(s, trace[0]));
      assert all == cmds + CommandOf(s, trace[0]) + (set x | x in Commands(Apply(s, trace[0]), trace[1..]));
    }
  }

  lemma InvIsWellFormed(s: Net, cmds: set<Start>)
    ensures Inv(s, cmds) ==> WellFormed(s)
  {
  }

  // ---- agreement ----

  lemma {:induction false} RunToHere(s: Net, trace: seq<Step>, k: nat)
    requires WellFormed(s) && IsRun(s, trace) && k <= |trace|
    ensures IsRun(s, trace[..k])
    ensures |Exec(s, trace[..k]).nodes| == |s.nodes|
    ensures k < |trace| ==> Enabled(Exec(s, trace[..k]), trace[k])
    decreases |trace|
  {
    hide Enabled, Apply;
    if k > 0 {
      assert trace[..k][1..] == trace[1..][..k - 1];
      RunToHere(Apply(s, trace[0]), trace[1..], k - 1);
    }
  }

  /** `x` is what step `k` of the run typed in: the index of the process, and the container and brand of the
      command, or, where these could not be parsed, those the process held at that moment. */
  ghost predicate TypedAt(init: Net, trace: seq<Step>, k: nat, x: Start)
    requires WellFormed(init) && IsRun(init, trace)
  {
    && k < |trace| && trace[k].Select? && x.selectIdx == trace[k].id + 1
    && (trace[k].parsed ==> x.container == trace[k].container && x.brand == trace[k].brand)
    && (RunToHere(init, trace, k);
        var p := Exec(init, trace[..k]).nodes[trace[k].id];
        !trace[k].parsed ==> x.container == p.params.container && x.brand == p.params.brand)
  }

  lemma {:induction false} CommandIsTyped(init: Net, trace: seq<Step>, x: Start) returns (k: nat)
    requires WellFormed(init) && IsRun(init, trace) && x in Commands(init, trace)
    ensures TypedAt(init, trace, k, x)
    decreases |trace|
  {
    if trace[0].Select? && x == CommandAt(init, trace[0]) {
      k := 0;
    } else {
      var j := CommandIsTyped(Apply(init, trace[0]), trace[1..], x);
      k := j + 1;
      RunToHere(init, trace, k);
      assert trace[..k][1..] == trace[1..][..j];
    }
  }

  /** In every run a process that has been told of a query holds what some command typed in. */
  lemma ParametersAreTyped(init: Net, trace: seq<Step>, s: Net, i: nat)
    requires Init(init) && IsRun(init, trace) && s == Exec(init, trace) && i < |s.nodes|
    ensures s.nodes[i].selectFlag ==> exists k :: TypedAt(init, trace, k, s.nodes[i].params)
    ensures s.nodes[i].stage != Waits ==> s.nodes[i].selectFlag
  {
    RunKeepsInv(init, trace, {});
    if s.nodes[i].selectFlag {
      var k := CommandIsTyped(init, trace, s.nodes[i].params);
    }
  }

  predicate TypedTo(trace: seq<Step>, z: nat) {
    forall k :: 0 <= k < |trace| && trace[k].Select? ==> trace[k].id == z
  }

  /** All that has been read of the commands typed to `z` is the first of them: a later one stays behind it
      in the channel of `z`. */
  ghost predicate FirstOnly(s: Net, z: nat, first: Start) {
    && WellFormed(s) && z < |s.nodes|
    && (forall i :: 0 <= i < |s.nodes| && s.nodes[i].selectFlag ==> s.nodes[i].params == first)
    && (forall i :: 0 <= i < |s.nodes| && s.nodes[i].stage != Waits ==> s.nodes[i].selectFlag)
    && (forall i :: 0 <= i < |s.nodes| && s.nodes[i].latch ==> s.nodes[i].selectFlag)
    && (forall i, x :: 0 <= i < |s.chans| && i != z && x in s.chans[i] ==> x == first)
    && (!s.nodes[Succ(|s.nodes|, z)].selectFlag ==> s.chans[z] != [] && s.chans[z][0] == first)
  }

  lemma StepKeepsFirst(s: Net, step: Step, z: nat, first: Start)
    requires FirstOnly(s, z, first) && Enabled(s, step) && (step.Select? ==> step.id == z)
    ensures FirstOnly(Apply(s, step), z, first)
  {
    var s', u := Apply(s, step), Pred(|s.nodes|, step.id);
    if step.Read? {
      assert s.chans[u][0] in s.chans[u] && (u == z <==> step.id == Succ(|s.nodes|, z));
    }
    forall i, x | 0 <= i < |s'.chans| && i != z && x in s'.chans[i] ensures x == first {
      if x !in s.chans[i] {
        assert i == step.id && step.SendStart?;
      }
    }
  }

  lemma {:induction false} RunKeepsFirst(s: Net, trace: seq<Step>, z: nat, first: Start)
    requires FirstOnly(s, z, first) && IsRun(s, trace) && TypedTo(trace, z)
    ensures FirstOnly(Exec(s, trace), z, first)
    decreases |trace|
  {
    hide Enabled, Apply;
    if trace != [] {
      StepKeepsFirst(s, trace[0], z, first);
      RunKeepsFirst(Apply(s, trace[0]), trace[1..], z, first);
    }
  }

  /** The first step of the run types to `z`, and `x` is its query: container and brand of the command, or
      those `z` started with where they could not be parsed. */
  ghost predicate FirstTyped(init: Net, trace: seq<Step>, z: nat, x: Start) {
    && trace != [] && trace[0].Select? && trace[0].id == z < |init.nodes| && x.selectIdx == z + 1
    && (trace[0].parsed ==> x.container == trace[0].container && x.brand == trace[0].brand)
    && (!trace[0].parsed ==>
          x.container == init.nodes[z].params.container && x.brand == init.nodes[z].params.brand)
  }

  /** In every run whose commands are all typed to one process, every process that has been told of a query
      holds the parameters of the first command, the index of that process among them. */
  lemma OneTypistAgrees(init: Net, trace: seq<Step>, s: Net, z: nat, i: nat)
    requires Init(init) && IsRun(init, trace) && s == Exec(init, trace) && i < |s.nodes| && TypedTo(trace, z)
    ensures s.nodes[i].selectFlag || s.nodes[i].stage != Waits ==> FirstTyped(init, trace, z, s.nodes[i].params)
  {
    if trace != [] {
      assert trace[0].Select?;
      var first := CommandAt(init, trace[0]);
      assert Apply(init, trace[0]).chans[z] == [] + [first];
      assert FirstOnly(Apply(init, trace[0]), z, first);
      RunKeepsFirst(Apply(init, trace[0]), trace[1..], z, first);
    }
  }

  // ---- everybody is told ----

  /** Nothing but a command can happen. */
  ghost predicate Quiet(s: Net)
    requires WellFormed(s)
  {
    forall step :: Enabled(s, step) ==> step.Select?
  }

  lemma QuietMeans(s: Net, cmds: set<Start>, i: nat)
    requires Inv(s, cmds) && Quiet(s) && i < |s.nodes|
    ensures s.chans[i] == [] && s.nodes[i].stage != Woken
    ensures s.nodes[i].selectFlag ==> s.nodes[i].stage == Calculates
    ensures s.nodes[i].stage == Calculates ==> !s.nodes[i].latch
  {
    var v := Succ(|s.nodes|, i);
    assert Pred(|s.nodes|, v) == i;
    assert !Enabled(s, Read(v)) && !Enabled(s, Wake(i)) && !Enabled(s, SendStart(i));
  }

  lemma {:induction false} TellsOn(s: Net, cmds: set<Start>, z: nat, k: nat)
    requires Inv(s, cmds) && Quiet(s) && z < |s.nodes| && Told(s, z) && 1 <= k <= |s.nodes|
    ensures s.nodes[After(|s.nodes|, z, k)].stage == Calculates
  {
    hide Quiet, Enabled;
    var i := if k == 1 then z else After(|s.nodes|, z, k - 1);
    if k > 1 {
      TellsOn(s, cmds, z, k - 1);
    }
    QuietMeans(s, cmds, i);
    QuietMeans(s, cmds, Succ(|s.nodes|, i));
    assert Told(s, i);
    assert After(|s.nodes|, z, k) == Succ(|s.nodes|, i);
  }

  lemma CommandIsTold(s: Net, cmds: set<Start>, x: Start)
    requires Inv(s, cmds) && x in cmds
    ensures WellFormed(s) && 1 <= x.selectIdx <= |s.nodes| && Told(s, x.selectIdx - 1)
  {
  }

  lemma WayFrom(n: nat, z: nat, i: nat) returns (k: nat)
    requires z < n && i < n
    ensures 1 <= k <= n && After(n, z, k) == i
  {
    k := if i == z then n else Dist(n, z, i);
  }

  /** When nothing but a further command can happen, and there has been one, every process calculates, its
      wake-up has been consumed, so that it cannot be taken for that of a barrier, and no start message is
      left. */
  lemma EverybodyStarts(init: Net, trace: seq<Step>, s: Net, i: nat)
    requires Init(init) && IsRun(init, trace) && s == Exec(init, trace) && i < |s.nodes|
    requires Quiet(s) && Commands(init, trace) != []
    ensures s.nodes[i].stage == Calculates && !s.nodes[i].latch && s.chans[i] == []
  {
    hide Quiet, Inv, Told, IsRun, Exec, After;
    assert Inv(init, {}) by { InitInv(init); }
    RunKeepsInv(init, trace, {});
    var cmds, first := {} + (set x | x in Commands(init, trace)), Commands(init, trace)[0];
    assert first in cmds;
    CommandIsTold(s, cmds, first);
    QuietMeans(s, cmds, i);
    var k := WayFrom(|s.nodes|, first.selectIdx - 1, i);
    TellsOn(s, cmds, first.selectIdx - 1, k);
  }

  lemma InitInv(s: Net)
    requires Init(s)
    ensures Inv(s, {})
  {
  }

  // ---- the flood ends ----

  /** What is left to do: waking up, sending and the reading of what is sent. */
  function Left(p: Node): nat {
    match p.stage
    case Waits => 3
    case Woken => 2
    case Calculates => 0
  }

  function Work(s: Net, k: nat): nat
    requires WellFormed(s) && k <= |s.nodes|
  {
    if k == 0 then 0 else Work(s, k - 1) + Left(s.nodes[k - 1]) + |s.chans[k - 1]|
  }

  lemma {:induction false} WorkAfter(s: Net, step: Step, k: nat)
    requires WellFormed(s) && Enabled(s, step) && k <= |s.nodes|
    ensures
      var own, u := step.id < k, Pred(|s.nodes|, step.id);
      Work(Apply(s, step), k) == Work(s, k) +
        match step
        case Select(_, _, _, _) => if own then 1 else 0
        case Read(_) => if u < k then -1 else 0
        case _ => if own then -1 else 0
  {
    if k > 0 {
      WorkAfter(s, step, k - 1);
    }
  }

  lemma {:induction false} InitialWork(s: Net, k: nat)
    requires Init(s) && k <= |s.nodes|
    ensures Work(s, k) == 3 * k
  {
    if k > 0 {
      InitialWork(s, k - 1);
    }
  }

  lemma {:induction false} RunIsShort(s: Net, trace: seq<Step>)
    requires WellFormed(s) && IsRun(s, trace)
    ensures |trace| <= Work(s, |s.nodes|) + 2 * |Commands(s, trace)|
    decreases |trace|
  {
    hide Apply;
    if trace != [] {
      WorkAfter(s, trace[0], |s.nodes|);
      RunIsShort(Apply(s, trace[0]), trace[1..]);
    }
  }

  /** With commands to one process only: no run is longer than 3n steps and two for each command, and one
      that only a further command could continue has every process calculate with the same parameters. */
  lemma MaximalFloodAgrees(init: Net, trace: seq<Step>, s: Net, z: nat, i: nat)
    requires Init(init) && IsRun(init, trace) && s == Exec(init, trace) && i < |s.nodes| && TypedTo(trace, z)
    ensures |trace| <= 3 * |s.nodes| + 2 * |Commands(init, trace)|
    ensures Quiet(s) && Commands(init, trace) != [] ==>
      s.nodes[i].stage == Calculates && FirstTyped(init, trace, z, s.nodes[i].params) && s.chans[i] == []
  {
    hide Quiet, IsRun, Exec;
    RunIsShort(init, trace);
    InitialWork(init, |init.nodes|);
    if Quiet(s) && Commands(init, trace) != [] {
      EverybodyStarts(init, trace, s, i);
      OneTypistAgrees(init, trace, s, z, i);
    }
  }

  // ---- two commands ----

  /** A process that has been told of a query keeps its parameters, whatever happens. */
  lemma {:induction false} ParametersStay(s: Net, trace: seq<Step>, i: nat)
    requires WellFormed(s) && IsRun(s, trace) && i < |s.nodes| && s.nodes[i].selectFlag
    ensures Exec(s, trace).nodes[i].selectFlag && Exec(s, trace).nodes[i].params == s.nodes[i].params
    decreases |trace|
  {
    if trace != [] {
      ParametersStay(Apply(s, trace[0]), trace[1..], i);
    }
  }

  /** Commands typed to two processes can leave the processes with different parameters for good. */
  lemma TwoCommandsDisagree(init: Net, z: nat, y: nat, q: Target, r: Target) returns (trace: seq<Step>, s: Net)
    requires Init(init) && z < |init.nodes| && y < |init.nodes| && z != y
    ensures IsRun(init, trace) && s == Exec(init, trace) && |Commands(init, trace)| == 2
    ensures
      var n := |init.nodes|;
      && s.nodes[Succ(n, z)].selectFlag && s.nodes[Succ(n, y)].selectFlag
      && s.nodes[Succ(n, z)].params == Start(z + 1, q.container, q.brand)
      && s.nodes[Succ(n, y)].params == Start(y + 1, r.container, r.brand)
  {
    var n := |init.nodes|;
    var a, b := Select(z, true, q.container, q.brand), Select(y, true, r.container, r.brand);
    var c, d := Read(Succ(n, z)), Read(Succ(n, y));
    assert Pred(n, Succ(n, z)) == z && Pred(n, Succ(n, y)) == y;
    var s1 := Apply(init, a);
    var s2 := Apply(s1, b);
    assert s2.chans[z] == [] + [Start(z + 1, q.container, q.brand)];
    assert s2.chans[y] == [] + [Start(y + 1, r.container, r.brand)];
    var s3 := Apply(s2, c);
    assert s3.chans[y] == s2.chans[y];
    s := Apply(s3, d);
    trace := [a, b, c, d];
    FourSteps(init, a, b, c, d, s1, s2, s3, s);
  }

  lemma FourSteps(s: Net, a: Step, b: Step, c: Step, d: Step, s1: Net, s2: Net, s3: Net, s4: Net)
    requires WellFormed(s) && Enabled(s, a) && s1 == Apply(s, a) && Enabled(s1, b) && s2 == Apply(s1, b)
    requires Enabled(s2, c) && s3 == Apply(s2, c) && Enabled(s3, d) && s4 == Apply(s3, d)
    requires a.Select? && b.Select? && c.Read? && d.Read?
    ensures IsRun(s, [a, b, c, d]) && Exec(s, [a, b, c, d]) == s4 && |Commands(s, [a, b, c, d])| == 2
  {
    hide Enabled, Apply;
    assert [d][1..] == [] && [c, d][1..] == [d] && [b, c, d][1..] == [c, d] && [a, b, c, d][1..] == [b, c, d];
    assert IsRun(s3, [d]) && Exec(s3, [d]) == s4 && Commands(s3, [d]) == [];
    assert IsRun(s2, [c, d]) && Exec(s2, [c, d]) == s4 && Commands(s2, [c, d]) == [];
    assert IsRun(s1, [b, c, d]) && Exec(s1, [b, c, d]) == s4 && |Commands(s1, [b, c, d])| == 1;
  }
}
