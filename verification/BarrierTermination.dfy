/** Every message dies after at most two laps. */
module BarrierTermination {
  import opened Topology
  import opened Barrier
  import opened BarrierInvariant
  import opened BarrierSteps
  import opened BarrierTheorems
  import opened History

  // ---- the counters of a token count its receptions ----

  function DigitSum(d: seq<nat>): nat {
    if d == [] then 0 else d[0] + DigitSum(d[1..])
  }

  lemma {:induction false} SumUpdate(d: seq<nat>, i: nat)
    requires i < |d|
    ensures DigitSum(d[i := d[i] + 1]) == DigitSum(d) + 1
  {
    if i > 0 {
      assert d[i := d[i] + 1][1..] == d[1..][i - 1 := d[1..][i - 1] + 1];
      SumUpdate(d[1..], i - 1);
    } else {
      assert d[i := d[i] + 1][1..] == d[1..];
    }
  }

  lemma {:induction false} SumBound(d: seq<nat>)
    requires forall i :: 0 <= i < |d| ==> d[i] <= 2
    ensures DigitSum(d) <= 2 * |d|
  {
    if d != [] {
      SumBound(d[1..]);
    }
  }

  lemma {:induction false} SumZero(n: nat)
    ensures DigitSum(ZeroDigits(n)) == 0
  {
    if n > 0 {
      assert ZeroDigits(n)[1..] == ZeroDigits(n - 1);
      SumZero(n - 1);
    }
  }

  lemma OneHop(n: nat, o: nat, lap: nat, c: nat)
    requires 2 <= n && o < n && c < n && (c == o ==> lap == 1)
    ensures |TokenAt(n, o, lap, c)| == n
    ensures TokenAt(n, o, lap, c) == Stamped(c, TokenAt(n, o, if c == o then 0 else lap, Pred(n, c)))
  {
  }

  lemma FirstHop(n: nat, o: nat)
    requires o < n
    ensures TokenAt(n, o, 0, o) == Stamped(o, ZeroDigits(n))
  {
  }

  /** The sum of the counters is one more than the hops the token has made since it was sent. */
  lemma {:induction false} HopsOfToken(n: nat, o: nat, lap: nat, c: nat)
    requires 2 <= n && o < n && c < n && lap <= 1
    ensures DigitSum(TokenAt(n, o, lap, c)) == 1 + lap * n + Dist(n, o, c)
    decreases lap, Dist(n, o, c)
  {
    hide TokenAt, ZeroDigits, DigitSum;
    if c == o && lap == 0 {
      FirstHop(n, o);
      SumZero(n);
      SumUpdate(ZeroDigits(n), c);
    } else {
      var before := if c == o then 0 else lap;
      OneHop(n, o, lap, c);
      HopsOfToken(n, o, before, Pred(n, c));
      SumUpdate(TokenAt(n, o, before, Pred(n, c)), c);
    }
  }

  lemma RunIsSized<P(!new)>(init: Ring<P>, trace: seq<Step<P>>)
    requires Init(init) && IsRun(init, trace)
    ensures 2 <= |Exec(init, trace).procs|
  {
    InitInv(init);
    RunKeepsInv(init, trace);
  }

  /** No token is received more than 2n times: one that is on its way has been received fewer times, and
      its origin and the number of its receptions determine it. */
  lemma TokenIsYoung<P(!new)>(init: Ring<P>, trace: seq<Step<P>>, s: Ring<P>, c: nat, m: Msg<P>)
    returns (o: nat, received: nat)
    requires Init(init) && IsRun(init, trace) && s == Exec(init, trace)
    requires c < |s.procs| && InChan(s, c, m) && m.Token?
    ensures o < |s.procs| && received < 2 * |s.procs| && DigitSum(m.digits) == 1 + received
    ensures m.digits == TokenAt(|s.procs|, o, if received < |s.procs| then 0 else 1, c)
    ensures received == Dist(|s.procs|, o, c) || received == Dist(|s.procs|, o, c) + |s.procs|
  {
    hide TokenAt, WellFormed, DigitSum, Init, IsRun, Exec;
    TokenTellsTheTruth(init, trace, s, c, m);
    var n := |s.procs|;
    var o': nat, lap: nat :| o' < n && lap <= 1 && m.digits == TokenAt(n, o', lap, c);
    assert 2 <= n by { RunIsSized(init, trace); }
    HopsOfToken(n, o', lap, c);
    o, received := o', lap * n + Dist(n, o', c);
  }

  // ---- the work that is left in the channels ----

  /** `left` gives the receptions that a message in a channel can still cause. */
  function LeftIn<P>(c: nat, ch: seq<Msg<P>>, left: (nat, Msg<P>) -> int): int {
    if ch == [] then 0 else left(c, ch[0]) + LeftIn(c, ch[1..], left)
  }

  lemma {:induction false} LeftInAppend<P>(c: nat, ch: seq<Msg<P>>, m: Msg<P>, left: (nat, Msg<P>) -> int)
    ensures LeftIn(c, ch + [m], left) == LeftIn(c, ch, left) + left(c, m)
  {
    if ch == [] {
      assert ch + [m] == [m];
    } else {
      assert (ch + [m])[1..] == ch[1..] + [m];
      LeftInAppend(c, ch[1..], m, left);
    }
  }

  function WorkBelow<P>(chans: seq<seq<Msg<P>>>, k: nat, left: (nat, Msg<P>) -> int): int
    requires k <= |chans|
  {
    if k == 0 then 0 else WorkBelow(chans, k - 1, left) + LeftIn(k - 1, chans[k - 1], left)
  }

  lemma {:induction false} WorkUpdate<P>(chans: seq<seq<Msg<P>>>, k: nat, c: nat, ch: seq<Msg<P>>, left: (nat, Msg<P>) -> int)
    requires k <= |chans| && c < |chans|
    ensures WorkBelow(chans[c := ch], k, left) ==
            WorkBelow(chans, k, left) + if c < k then LeftIn(c, ch, left) - LeftIn(c, chans[c], left) else 0
  {
    if k > 0 {
      WorkUpdate(chans, k - 1, c, ch, left);
    }
  }

  /** The number of receptions the messages now on their way can still cause. */
  function Work<P>(s: Ring<P>, left: (nat, Msg<P>) -> int): int {
    WorkBelow(s.chans, |s.chans|, left)
  }

  lemma PushWork<P>(chans: seq<seq<Msg<P>>>, c: nat, m: Msg<P>, left: (nat, Msg<P>) -> int)
    requires c < |chans|
    ensures WorkBelow(Push(chans, c, m), |chans|, left) == WorkBelow(chans, |chans|, left) + left(c, m)
  {
    WorkUpdate(chans, |chans|, c, chans[c] + [m], left);
    LeftInAppend(c, chans[c], m, left);
  }

  lemma PopWork<P>(chans: seq<seq<Msg<P>>>, c: nat, left: (nat, Msg<P>) -> int)
    requires c < |chans| && chans[c] != []
    ensures WorkBelow(Pop(chans, c), |chans|, left) == WorkBelow(chans, |chans|, left) - left(c, chans[c][0])
  {
    WorkUpdate(chans, |chans|, c, chans[c][1..], left);
  }

  /** What a step adds to the work and what it takes from it. */
  lemma WorkAfter<P(!new)>(s: Ring<P>, step: Step<P>, left: (nat, Msg<P>) -> int)
    requires WellFormed(s) && Enabled(s, step)
    ensures
      Work(Apply(s, step), left) == Work(s, left)
        + (if Joins(s, step) == [] then 0 else left(step.id, Joins(s, step)[0]))
        - (if Leaves(s, step) == [] then 0 else left(Pred(|s.procs|, step.id), Leaves(s, step)[0]))
  {
    var n, id := |s.procs|, step.id;
    var u := Pred(n, id);
    match step
    case Enter(_) =>
    case Wake(_) =>
    case Leave(_) =>
    case Mark(_) =>
    case SendToken(_) => PushWork(s.chans, id, Joins(s, step)[0], left);
    case Send(_, body) => PushWork(s.chans, id, Joins(s, step)[0], left);
    case RecvToken(_) =>
      var h := Head(s, id);
      assert InChan(s, u, h) && WellFormedMsg(n, h);
      PopWork(s.chans, u, left);
      PushWork(Pop(s.chans, u), id, Token(h.round, Stamped(id, h.digits)), left);
    case RecvData(_, forward) =>
      PopWork(s.chans, u, left);
      PushWork(Pop(s.chans, u), id, SentOn(s.procs[id], id, Head(s, id)), left);
  }

  lemma {:induction false} LeftInIsNonNegative<P>(c: nat, ch: seq<Msg<P>>, left: (nat, Msg<P>) -> int)
    requires forall m :: m in ch ==> 0 <= left(c, m)
    ensures 0 <= LeftIn(c, ch, left)
  {
    if ch != [] {
      LeftInIsNonNegative(c, ch[1..], left);
    }
  }

  lemma {:induction false} WorkIsNonNegative<P(!new)>(s: Ring<P>, k: nat, left: (nat, Msg<P>) -> int)
    requires k <= |s.chans| && forall c: nat, m :: InChan(s, c, m) ==> 0 <= left(c, m)
    ensures 0 <= WorkBelow(s.chans, k, left)
  {
    if k > 0 {
      WorkIsNonNegative(s, k - 1, left);
      var c, ch := k - 1, s.chans[k - 1];
      forall m | m in ch ensures 0 <= left(c, m) {
        assert InChan(s, c, m);
      }
      LeftInIsNonNegative(c, ch, left);
    }
  }

  lemma {:induction false} InitialWork<P(!new)>(s: Ring<P>, k: nat, left: (nat, Msg<P>) -> int)
    requires Init(s) && k <= |s.chans|
    ensures WorkBelow(s.chans, k, left) == 0
  {
    if k > 0 {
      InitialWork(s, k - 1, left);
    }
  }

  // ---- tokens, the tokens of a round, all messages ----

  datatype Kind = AllTokens | TokensOf(round: nat) | AllMessages

  predicate Concerned<P>(kind: Kind, m: Msg<P>) {
    if m.Data? then kind.AllMessages? else kind.TokensOf? ==> m.round == kind.round
  }

  /** How often a message in channel `c` can still be received. */
  function HopsLeft<P>(n: nat, c: nat, m: Msg<P>): int {
    match m
    case Token(_, digits) => 2 * n + 1 - DigitSum(digits)
    case Data(origin, _, _) => if origin < n && c < n then n - Dist(n, origin, c) else 0
  }

  function Weights<P>(n: nat, kind: Kind): (nat, Msg<P>) -> int {
    (c: nat, m: Msg<P>) => if Concerned(kind, m) then HopsLeft(n, c, m) else 0
  }

  lemma HopsLeftIsPositive<P(!new)>(s: Ring<P>, c: nat, m: Msg<P>)
    requires Inv(s) && InChan(s, c, m)
    ensures 1 <= HopsLeft(|s.procs|, c, m) <= 2 * |s.procs| + 1
  {
    if m.Token? {
      assert TokenOk(s, c, m.round, m.digits);
      SumBound(m.digits);
    } else {
      assert WellFormedMsg(|s.procs|, m);
    }
  }

  /** A main thread sends a message of the kind ... */
  predicate SendsOf<P>(s: Ring<P>, step: Step<P>, kind: Kind) {
    || (step.Send? && kind.AllMessages?)
    || (step.SendToken? && (kind.TokensOf? ==> step.id < |s.procs| && s.procs[step.id].finishIndex == kind.round))
  }

  /** ... and a server reads one. */
  ghost predicate ReadsOf<P(!new)>(s: Ring<P>, step: Step<P>, kind: Kind)
    requires WellFormed(s) && Enabled(s, step)
  {
    (step.RecvToken? || step.RecvData?) && Concerned(kind, Head(s, step.id))
  }

  /** A reception uses up work, only a main thread's send makes new work, and at most 2n of it.  Only
      for payload messages it matters that nobody sends on a message of its own. */
  lemma StepWork<P(!new)>(s: Ring<P>, step: Step<P>, kind: Kind)
    requires Inv(s) && Enabled(s, step) && (kind.AllMessages? ==> OneLap(s, step))
    ensures
      var w := Weights(|s.procs|, kind);
      Work(Apply(s, step), w) <= Work(s, w) + (if SendsOf(s, step, kind) then 2 * |s.procs| else 0)
                                 - (if ReadsOf(s, step, kind) then 1 else 0)
  {
    var n, id, w := |s.procs|, step.id, Weights(|s.procs|, kind);
    WorkAfter(s, step, w);
    if step.SendToken? {
      SumZero(n);
      SumUpdate(ZeroDigits(n), id);
    } else if step.RecvToken? || step.RecvData? {
      var u, h := Pred(n, id), Head(s, id);
      assert InChan(s, u, h) && WellFormedMsg(n, h);
      HopsLeftIsPositive(s, u, h);
      if h.Token? {
        SumUpdate(h.digits, id);
      }
    }
  }

  // ---- whole runs ----

  ghost function CountSends<P(!new)>(s: Ring<P>, trace: seq<Step<P>>, kind: Kind): nat
    requires WellFormed(s) && IsRun(s, trace)
    decreases |trace|
  {
    if trace == [] then 0
    else
      WellFormedAfter(s, trace[0], Apply(s, trace[0]));
      CountSends(Apply(s, trace[0]), trace[1..], kind) + if SendsOf(s, trace[0], kind) then 1 else 0
  }

  ghost function CountReads<P(!new)>(s: Ring<P>, trace: seq<Step<P>>, kind: Kind): nat
    requires WellFormed(s) && IsRun(s, trace)
    decreases |trace|
  {
    if trace == [] then 0
    else
      WellFormedAfter(s, trace[0], Apply(s, trace[0]));
      CountReads(Apply(s, trace[0]), trace[1..], kind) + if ReadsOf(s, trace[0], kind) then 1 else 0
  }

  /** In the whole run nobody sends on a message of its own. */
  ghost predicate OneLapRun<P(!new)>(s: Ring<P>, trace: seq<Step<P>>)
    requires WellFormed(s) && IsRun(s, trace)
    decreases |trace|
  {
    trace == [] || (OneLap(s, trace[0]) && (
      WellFormedAfter(s, trace[0], Apply(s, trace[0]));
      OneLapRun(Apply(s, trace[0]), trace[1..])))
  }

  lemma {:induction false} RunWork<P(!new)>(s: Ring<P>, trace: seq<Step<P>>, kind: Kind)
    requires Inv(s) && IsRun(s, trace) && (kind.AllMessages? ==> OneLapRun(s, trace))
    ensures |Exec(s, trace).procs| == |s.procs|
    ensures
      var w := Weights(|s.procs|, kind);
      CountReads(s, trace, kind) + Work(Exec(s, trace), w) <= Work(s, w) + 2 * |s.procs| * CountSends(s, trace, kind)
    decreases |trace|
  {
    hide Work, Weights, Enabled, SendsOf, ReadsOf, Concerned, OneLap;
    if trace != [] {
      StepKeepsInv(s, trace[0]);
      StepWork(s, trace[0], kind);
      RunWork(Apply(s, trace[0]), trace[1..], kind);
      OneMore(2 * |s.procs|, CountSends(Apply(s, trace[0]), trace[1..], kind));
    }
  }

  lemma OneMore(a: int, k: int)
    ensures a * (k + 1) == a * k + a
  {
  }

  lemma RunReads<P(!new)>(init: Ring<P>, trace: seq<Step<P>>, kind: Kind)
    requires Init(init) && IsRun(init, trace) && (kind.AllMessages? ==> OneLapRun(init, trace))
    ensures CountReads(init, trace, kind) <= 2 * |init.procs| * CountSends(init, trace, kind)
  {
    InitInv(init);
    RunKeepsInv(init, trace);
    RunWork(init, trace, kind);
    var s, w := Exec(init, trace), Weights<P>(|init.procs|, kind);
    forall c: nat, m | InChan(s, c, m) ensures 0 <= w(c, m) {
      HopsLeftIsPositive(s, c, m);
    }
    WorkIsNonNegative(s, |s.chans|, w);
    InitialWork(init, |init.chans|, w);
  }

  /** In every run the servers read at most 2n tokens for each token that a main thread has sent. */
  lemma TokensAreBounded<P(!new)>(init: Ring<P>, trace: seq<Step<P>>)
    requires Init(init) && IsRun(init, trace)
    ensures CountReads(init, trace, AllTokens) <= 2 * |init.procs| * CountSends(init, trace, AllTokens)
  {
    RunReads(init, trace, AllTokens);
  }

  /** The processes among the first `k` that have sent their own token of round `r`. */
  ghost function Senders<P>(s: Ring<P>, r: nat, k: nat): nat
    requires k <= |s.procs|
  {
    if k == 0 then 0 else Senders(s, r, k - 1) + if HasSent(s.procs[k - 1], r) then 1 else 0
  }

  lemma {:induction false} SendersGrow<P(!new)>(s: Ring<P>, step: Step<P>, r: nat, k: nat)
    requires Inv(s) && Enabled(s, step) && k <= |s.procs|
    ensures Senders(Apply(s, step), r, k) >=
            Senders(s, r, k) + if step.id < k && SendsOf(s, step, TokensOf(r)) then 1 else 0
  {
    if k > 0 {
      SendersGrow(s, step, r, k - 1);
      FlagsGrow(s, step, Apply(s, step), k - 1, r);
    }
  }

  lemma {:induction false} SendersAreFew<P>(s: Ring<P>, r: nat, k: nat)
    requires k <= |s.procs|
    ensures Senders(s, r, k) <= k
  {
    if k > 0 {
      SendersAreFew(s, r, k - 1);
    }
  }

  /** A main thread sends its token of a round once. */
  lemma {:induction false} RoundSends<P(!new)>(s: Ring<P>, trace: seq<Step<P>>, r: nat)
    requires Inv(s) && IsRun(s, trace)
    ensures CountSends(s, trace, TokensOf(r)) + Senders(s, r, |s.procs|) <= |s.procs|
    decreases |trace|
  {
    if trace == [] {
      SendersAreFew(s, r, |s.procs|);
    } else {
      StepKeepsInv(s, trace[0]);
      SendersGrow(s, trace[0], r, |s.procs|);
      RoundSends(Apply(s, trace[0]), trace[1..], r);
    }
  }

  /** Each round generates finitely many messages: in every run at most 2n * n tokens of it are read. */
  lemma RoundIsFinite<P(!new)>(init: Ring<P>, trace: seq<Step<P>>, r: nat)
    requires Init(init) && IsRun(init, trace)
    ensures CountReads(init, trace, TokensOf(r)) <= 2 * |init.procs| * |init.procs|
    ensures CountSends(init, trace, TokensOf(r)) <= |init.procs|
  {
    InitInv(init);
    RoundSends(init, trace, r);
    RunReads(init, trace, TokensOf(r));
    Scale(2 * |init.procs|, CountSends(init, trace, TokensOf(r)), |init.procs|);
  }

  lemma Scale(c: nat, a: int, b: int)
    requires a <= b
    ensures c * a <= c * b
  {
    assert c * (b - a) >= 0;
  }

  /** With the payload: in a run in which nobody sends on its own messages the servers read at most 2n
      messages for each message that a main thread has sent. */
  lemma TrafficIsBounded<P(!new)>(init: Ring<P>, trace: seq<Step<P>>)
    requires Init(init) && IsRun(init, trace) && OneLapRun(init, trace)
    ensures CountReads(init, trace, AllMessages) <= 2 * |init.procs| * CountSends(init, trace, AllMessages)
  {
    RunReads(init, trace, AllMessages);
  }
}
