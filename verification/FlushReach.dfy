/** How far the flush of the barrier reaches. */
module FlushReach {
  import opened Topology
  import opened Barrier
  import opened BarrierInvariant
  import opened BarrierSteps
  import opened BarrierTheorems

  /** The hops a message of `p` makes until it arrives at `q`; back to its creator it is a whole lap. */
  function Hops(n: nat, p: nat, q: nat): nat
    requires p < n && q < n
  {
    if p == q then n else Dist(n, p, q)
  }

  ghost predicate ReachedIn<P(!new)>(n: nat, init: Ring<P>, trace: seq<Step<P>>, s: Ring<P>) {
    |init.procs| == n && Init(init) && IsRun(init, trace) && s == Exec(init, trace)
  }

  /** A message that `p` created up to round `r` is in channel `c` and has not arrived at `q`. */
  ghost predicate OnItsWay<P(!new)>(n: nat, s: Ring<P>, p: nat, q: nat, r: nat, c: nat, d: Msg<P>)
    requires p < n && q < n
  {
    c < n && InChan(s, c, d) && d.Data? && d.origin == p && d.stamp <= r && Dist(n, p, c) < Hops(n, p, q)
  }

  /** In every run, when `x` has left a round of the barrier, all that `p` sent up to that round has
      arrived at `q`. */
  ghost predicate FlushesTo(n: nat, p: nat, x: nat, q: nat)
    requires p < n && x < n && q < n
  {
    forall init: Ring<int>, trace, s, r: nat, c, d ::
      ReachedIn(n, init, trace, s) && |s.procs| == n && r < s.procs[x].finishIndex ==> !OnItsWay(n, s, p, q, r, c, d)
  }

  /** The flush is exact: it covers the ways that end no later than at the process that leaves, and no
      other. */
  lemma FlushIsExact(n: nat, p: nat, x: nat, q: nat)
    requires 2 <= n && p < n && x < n && q < n
    ensures FlushesTo(n, p, x, q) <==> Hops(n, p, q) <= Hops(n, p, x)
  {
    if Hops(n, p, q) <= Hops(n, p, x) {
      forall init: Ring<int>, trace, s, r: nat, c, d
        | ReachedIn(n, init, trace, s) && |s.procs| == n && r < s.procs[x].finishIndex
        ensures !OnItsWay(n, s, p, q, r, c, d)
      {
        CoversShortWays(n, init, trace, s, p, x, q, r, c, d);
      }
    } else {
      var init, trace, s := Escapes(n, p, x, 42);
      assert ReachedIn(n, init, trace, s) && OnItsWay(n, s, p, q, 0, x, Data(p, 0, 42));
    }
  }

  lemma CoversShortWays<P(!new)>(n: nat, init: Ring<P>, trace: seq<Step<P>>, s: Ring<P>, p: nat, x: nat, q: nat, r: nat,
                                 c: nat, d: Msg<P>)
    requires ReachedIn(n, init, trace, s) && p < n && x < n && q < n && |s.procs| == n
    requires r < s.procs[x].finishIndex && Hops(n, p, q) <= Hops(n, p, x)
    ensures !OnItsWay(n, s, p, q, r, c, d)
  {
    InitInv(init);
    RunKeepsInv(init, trace);
    assert FlagsAgree(s.procs[x]);
    if InChan(s, c, d) && d.Data? && d.stamp <= r {
      BarrierFlush(init, trace, s, x, r, c, d);
    }
  }

  // ---- a run in which a message gets away behind the process that leaves ----

  lemma {:induction false} RunSnoc<P(!new)>(s: Ring<P>, trace: seq<Step<P>>, step: Step<P>)
    requires WellFormed(s) && IsRun(s, trace)
    requires WellFormed(Exec(s, trace)) && Enabled(Exec(s, trace), step)
    ensures IsRun(s, trace + [step]) && Exec(s, trace + [step]) == Apply(Exec(s, trace), step)
    decreases |trace|
  {
    if trace == [] {
      assert trace + [step] == [step];
      WellFormedAfter(s, step, Apply(s, step));
    } else {
      assert (trace + [step])[1..] == trace[1..] + [step];
      WellFormedAfter(s, trace[0], Apply(s, trace[0]));
      RunSnoc(Apply(s, trace[0]), trace[1..], step);
    }
  }

  function Order<P>(p: nat, b: P): Msg<P> {
    Data(p, 0, b)
  }

  function Process(pc: Pc): Proc {
    Proc(pc, 0, if pc == Working then {} else {0}, {}, {}, false)
  }

  /** The order is in channel `p` and the first `k` processes have entered the barrier. */
  function Gathering<P>(n: nat, p: nat, k: nat, b: P): Ring<P>
    requires p < n
  {
    Ring(seq(n, i requires 0 <= i < n => Process(if i < k then Entered else Working)),
         seq(n, i requires 0 <= i < n => if i == p then [Order(p, b)] else []))
  }

  /** `x` waits, all others have entered; the order is in channel `m` and the token of `x` in channel `c`,
      behind the order if that is the same. */
  function Chase<P>(n: nat, p: nat, x: nat, m: nat, c: nat, b: P): Ring<P>
    requires x < n && m < n && c < n
  {
    Ring(seq(n, i requires 0 <= i < n => Process(if i == x then Waiting else Entered)),
         seq(n, i requires 0 <= i < n =>
           (if i == m then [Order(p, b)] else []) + (if i == c then [Token(0, TokenAt(n, x, 0, c))] else [])))
  }

  lemma FirstInChase<P>(n: nat, p: nat, x: nat, m: nat, c: nat, b: P)
    requires x < n && m < n && c < n
    ensures Chase(n, p, x, m, c, b).chans[m] != [] && Chase(n, p, x, m, c, b).chans[m][0] == Order(p, b)
  {
    var rest: seq<Msg<P>> := if m == c then [Token(0, TokenAt(n, x, 0, c))] else [];
    assert Chase(n, p, x, m, c, b).chans[m] == [Order(p, b)] + rest;
  }

  function Start<P>(n: nat): Ring<P> {
    Ring(seq(n, _ => INIT_PROC), seq(n, _ => []))
  }

  ghost predicate Runs<P(!new)>(n: nat, trace: seq<Step<P>>, s: Ring<P>)
    requires 2 <= n
  {
    WellFormed(Start<P>(n)) && IsRun(Start<P>(n), trace) && Exec(Start<P>(n), trace) == s && WellFormed(s)
  }

  lemma OneMoreStep<P(!new)>(n: nat, trace: seq<Step<P>>, s: Ring<P>, step: Step<P>, s': Ring<P>)
    requires 2 <= n && Runs(n, trace, s) && Enabled(s, step) && s' == Apply(s, step)
    ensures Runs(n, trace + [step], s')
  {
    RunSnoc(Start<P>(n), trace, step);
    WellFormedAfter(s, step, s');
  }

  lemma SameRing<P(!new)>(a: Ring<P>, b: Ring<P>)
    requires |a.procs| == |b.procs| && |a.chans| == |b.chans|
    requires forall i :: 0 <= i < |a.procs| ==> a.procs[i] == b.procs[i]
    requires forall i :: 0 <= i < |a.chans| ==> a.chans[i] == b.chans[i]
    ensures a == b
  {
    assert a.procs == b.procs && a.chans == b.chans;
  }

  lemma StartIsWellFormed<P(!new)>(n: nat)
    requires 2 <= n
    ensures Init(Start<P>(n)) && Runs(n, [], Start<P>(n))
  {
  }

  lemma SendOrder<P(!new)>(n: nat, p: nat, b: P)
    requires 2 <= n && p < n && WellFormed(Start<P>(n))
    ensures Enabled(Start<P>(n), Send(p, b)) && Apply(Start<P>(n), Send(p, b)) == Gathering(n, p, 0, b)
  {
    assert Start<P>(n).procs[p] == INIT_PROC && Start<P>(n).chans[p] == [];
    var r, r' := Apply(Start<P>(n), Send(p, b)), Gathering(n, p, 0, b);
    assert r.chans[p] == Start<P>(n).chans[p] + [Order(p, b)] == [Order(p, b)] && INIT_PROC == Process(Working);
    forall i | 0 <= i < n ensures r.procs[i] == r'.procs[i] && r.chans[i] == r'.chans[i] {
      assert Start<P>(n).procs[i] == INIT_PROC && Start<P>(n).chans[i] == [];
    }
    SameRing(r, r');
  }

  lemma EnterOne<P(!new)>(n: nat, p: nat, k: nat, b: P)
    requires 2 <= n && p < n && k < n && WellFormed(Gathering(n, p, k, b))
    ensures Enabled(Gathering(n, p, k, b), Enter(k)) && Apply(Gathering(n, p, k, b), Enter(k)) == Gathering(n, p, k + 1, b)
  {
    var s := Gathering(n, p, k, b);
    assert s.procs[k] == Process(Working);
    assert Entering(Process(Working)) == Process(Entered) by {
      assert {} + {0 as nat} == {0};
    }
    var r, r' := Apply(s, Enter(k)), Gathering(n, p, k + 1, b);
    forall i | 0 <= i < n ensures r.procs[i] == r'.procs[i] && r.chans[i] == r'.chans[i] {
      assert s.procs[i] == Process(if i < k then Entered else Working);
    }
    SameRing(r, r');
  }

  lemma {:induction false} Gather<P(!new)>(n: nat, p: nat, k: nat, b: P) returns (trace: seq<Step<P>>)
    requires 2 <= n && p < n && k <= n
    ensures Runs(n, trace, Gathering(n, p, k, b))
  {
    hide Apply, Enabled, WellFormed, Gathering;
    if k == 0 {
      StartIsWellFormed<P>(n);
      SendOrder(n, p, b);
      OneMoreStep(n, [], Start<P>(n), Send(p, b), Gathering(n, p, 0, b));
      trace := [] + [Send(p, b)];
    } else {
      var before := Gather(n, p, k - 1, b);
      EnterOne(n, p, k - 1, b);
      OneMoreStep(n, before, Gathering(n, p, k - 1, b), Enter(k - 1), Gathering(n, p, k, b));
      trace := before + [Enter(k - 1)];
    }
  }

  lemma FirstDigits(n: nat, x: nat)
    requires x < n
    ensures Stamped(x, ZeroDigits(n)) == TokenAt(n, x, 0, x)
  {
  }

  lemma TokenStarts<P(!new)>(n: nat, p: nat, x: nat, b: P)
    requires 2 <= n && p < n && x < n && p != x && WellFormed(Gathering(n, p, n, b))
    ensures Enabled(Gathering(n, p, n, b), SendToken(x)) && Apply(Gathering(n, p, n, b), SendToken(x)) == Chase(n, p, x, p, x, b)
  {
    hide TokenAt, Stamped;
    FirstDigits(n, x);
    var s := Gathering(n, p, n, b);
    assert s.procs[x] == Process(Entered) && Process(Entered).(pc := Waiting) == Process(Waiting);
    var r, r' := Apply(s, SendToken(x)), Chase(n, p, x, p, x, b);
    assert [Order(p, b)] + [] == [Order(p, b)];
    forall i | 0 <= i < n ensures r.procs[i] == r'.procs[i] && r.chans[i] == r'.chans[i] {
      assert s.procs[i] == Process(Entered) && s.chans[i] == if i == p then [Order(p, b)] else [];
      assert r.chans[i] == if i == x then s.chans[x] + [Token(0, TokenAt(n, x, 0, x))] else s.chans[i];
    }
    SameRing(r, r');
  }

  lemma FirstToken<P(!new)>(n: nat, p: nat, x: nat, b: P) returns (trace: seq<Step<P>>)
    requires 2 <= n && p < n && x < n && p != x
    ensures Runs(n, trace, Chase(n, p, x, p, x, b))
  {
    var before := Gather(n, p, n, b);
    TokenStarts(n, p, x, b);
    OneMoreStep(n, before, Gathering(n, p, n, b), SendToken(x), Chase(n, p, x, p, x, b));
    trace := before + [SendToken(x)];
  }

  lemma TokenStep(n: nat, x: nat, c: nat)
    requires 2 <= n && x < n && c < n && Succ(n, c) != x
    ensures var v, d := Succ(n, c), TokenAt(n, x, 0, c);
      d[v] == 0 && !CheckFinish(d) && Stamped(v, d) == TokenAt(n, x, 0, v)
  {
    var v, d := Succ(n, c), TokenAt(n, x, 0, c);
    assert d[v] == 0;
    assert Stamped(v, d) == TokenAt(n, x, 0, v);
  }

  lemma TokenMoves<P(!new)>(n: nat, p: nat, x: nat, m: nat, c: nat, b: P)
    requires 2 <= n && p < n && x < n && m < n && c < n && m != c && Succ(n, c) != x
    requires WellFormed(Chase(n, p, x, m, c, b))
    ensures Enabled(Chase(n, p, x, m, c, b), RecvToken(Succ(n, c)))
    ensures Apply(Chase(n, p, x, m, c, b), RecvToken(Succ(n, c))) == Chase(n, p, x, m, Succ(n, c), b)
  {
    hide TokenAt, Stamped, CheckFinish;
    var s, v := Chase(n, p, x, m, c, b), Succ(n, c);
    var token: Msg<P> := Token(0, TokenAt(n, x, 0, c));
    TokenStep(n, x, c);
    assert Pred(n, v) == c && s.chans[c] == [token] && [token][1..] == [];
    assert [Order(p, b)] + [] == [Order(p, b)];
    assert s.procs[v] == Process(Entered);
    var r, r' := Apply(s, RecvToken(v)), Chase(n, p, x, m, v, b);
    forall i | 0 <= i < n ensures r.procs[i] == r'.procs[i] && r.chans[i] == r'.chans[i] {
    }
    SameRing(r, r');
  }

  lemma OrderMoves<P(!new)>(n: nat, p: nat, x: nat, m: nat, c: nat, b: P)
    requires 2 <= n && p < n && x < n && m < n && c < n && Succ(n, m) != c && Succ(n, m) != p
    requires WellFormed(Chase(n, p, x, m, c, b))
    ensures Enabled(Chase(n, p, x, m, c, b), RecvData(Succ(n, m), true))
    ensures Apply(Chase(n, p, x, m, c, b), RecvData(Succ(n, m), true)) == Chase(n, p, x, Succ(n, m), c, b)
  {
    hide TokenAt;
    var s, v := Chase(n, p, x, m, c, b), Succ(n, m);
    var rest: seq<Msg<P>> := if m == c then [Token(0, TokenAt(n, x, 0, c))] else [];
    assert Pred(n, v) == m && s.chans[m] == [Order(p, b)] + rest && ([Order(p, b)] + rest)[1..] == rest;
    assert s.chans[v] == [] && [] + [Order(p, b)] == [Order(p, b)] == [Order(p, b)] + [];
    SameRing(Apply(s, RecvData(v, true)), Chase(n, p, x, v, c, b));
  }

  /** The token of `x` goes round to `c`, at most to `p`. */
  lemma {:induction false} TokenRuns<P(!new)>(n: nat, p: nat, x: nat, c: nat, b: P) returns (trace: seq<Step<P>>)
    requires 2 <= n && p < n && x < n && p != x && c < n && Dist(n, x, c) <= Dist(n, x, p)
    ensures Runs(n, trace, Chase(n, p, x, p, c, b))
    decreases Dist(n, x, c)
  {
    if c == x {
      trace := FirstToken(n, p, x, b);
    } else {
      var u := Pred(n, c);
      var before := TokenRuns(n, p, x, u, b);
      TokenMoves(n, p, x, p, u, b);
      OneMoreStep(n, before, Chase(n, p, x, p, u, b), RecvToken(c), Chase(n, p, x, p, c, b));
      trace := before + [RecvToken(c)];
    }
  }

  /** Order and token go on together, the order ahead. */
  lemma {:induction false} BothRun<P(!new)>(n: nat, p: nat, x: nat, c: nat, b: P) returns (trace: seq<Step<P>>)
    requires 2 <= n && p < n && x < n && p != x && c < n && Dist(n, p, c) < Dist(n, p, x)
    ensures Runs(n, trace, Chase(n, p, x, c, c, b))
    decreases Dist(n, p, c)
  {
    if c == p {
      trace := TokenRuns(n, p, x, p, b);
    } else {
      var u := Pred(n, c);
      assert Succ(n, u) == c && u != c;
      var before := BothRun(n, p, x, u, b);
      OrderMoves(n, p, x, u, u, b);
      OneMoreStep(n, before, Chase(n, p, x, u, u, b), RecvData(c, true), Chase(n, p, x, c, u, b));
      TokenMoves(n, p, x, c, u, b);
      OneMoreStep(n, before + [RecvData(c, true)], Chase(n, p, x, c, u, b), RecvToken(c), Chase(n, p, x, c, c, b));
      trace := before + [RecvData(c, true)] + [RecvToken(c)];
    }
  }

  lemma FullToken(n: nat, x: nat)
    requires 2 <= n && x < n
    ensures CheckFinish(TokenAt(n, x, 0, Pred(n, x)))
  {
  }

  /** `x` is notified while the order is in its channel, and leaves. */
  lemma LeavesBehind<P(!new)>(n: nat, p: nat, x: nat, s: Ring<P>, b: P) returns (trace: seq<Step<P>>, s3: Ring<P>)
    requires 2 <= n && p < n && x < n && p != x && s == Chase(n, p, x, x, Pred(n, x), b) && WellFormed(s)
    ensures IsRun(s, trace) && s3 == Exec(s, trace) && WellFormed(s3)
    ensures |s3.procs| == n && s3.procs[x].finishIndex == 1 && InChan(s3, x, Order(p, b))
    ensures s3.procs == s.procs[x := Proc(Stepped(0), 1, {0}, {}, {0}, false)]
    ensures |s3.chans| == n && s3.chans[Pred(n, x)] == []
  {
    hide TokenAt, CheckFinish, Stamped;
    var d := TokenAt(n, x, 0, Pred(n, x));
    FullToken(n, x);
    assert s.chans[Pred(n, x)] == [Token(0, d)] && s.procs[x] == Process(Waiting);
    assert Head(s, x) == Token(0, d) && FinishVerdict(s.procs[x], 0, d).Notify?;
    var s1 := Apply(s, RecvToken(x));
    WellFormedAfter(s, RecvToken(x), s1);
    assert s1.procs[x].latch && s1.procs[x].pc == Waiting && s1.procs[x].finishIndex == 0;
    assert s1.chans[x][0] == Order(p, b);
    var s2 := Apply(s1, Wake(x));
    WellFormedAfter(s1, Wake(x), s2);
    s3 := Apply(s2, Leave(x));
    WellFormedAfter(s2, Leave(x), s3);
    assert s3.chans[x][0] == Order(p, b);
    assert {} + {0 as nat} == {0};
    RunOfThree(s, RecvToken(x), Wake(x), Leave(x), s1, s2, s3);
    trace := [RecvToken(x), Wake(x), Leave(x)];
  }

  lemma RunOfThree<P(!new)>(s: Ring<P>, a: Step<P>, b: Step<P>, c: Step<P>, s1: Ring<P>, s2: Ring<P>, s3: Ring<P>)
    requires WellFormed(s) && Enabled(s, a) && s1 == Apply(s, a)
    requires WellFormed(s1) && Enabled(s1, b) && s2 == Apply(s1, b)
    requires WellFormed(s2) && Enabled(s2, c) && s3 == Apply(s2, c) && WellFormed(s3)
    ensures IsRun(s, [a, b, c]) && Exec(s, [a, b, c]) == s3
  {
    hide WellFormed, Enabled, Apply;
    assert [c][1..] == [] && [b, c][1..] == [c] && [a, b, c][1..] == [b, c];
    assert IsRun(s3, []) && Exec(s3, []) == s3;
    assert IsRun(s2, [c]) && Exec(s2, [c]) == s3;
    assert IsRun(s1, [b, c]) && Exec(s1, [b, c]) == s3;
  }

  lemma {:induction false} RunConcat<P(!new)>(s: Ring<P>, a: seq<Step<P>>, b: seq<Step<P>>)
    requires WellFormed(s) && IsRun(s, a) && WellFormed(Exec(s, a)) && IsRun(Exec(s, a), b)
    ensures IsRun(s, a + b) && Exec(s, a + b) == Exec(Exec(s, a), b)
    decreases |a|
  {
    if a == [] {
      assert a + b == b;
    } else {
      assert (a + b)[1..] == a[1..] + b;
      WellFormedAfter(s, a[0], Apply(s, a[0]));
      RunConcat(Apply(s, a[0]), a[1..], b);
    }
  }

  lemma Escapes<P(!new)>(n: nat, p: nat, x: nat, b: P) returns (init: Ring<P>, trace: seq<Step<P>>, s: Ring<P>)
    requires 2 <= n && p < n && x < n && p != x
    ensures ReachedIn(n, init, trace, s)
    ensures |s.procs| == n && s.procs[x].finishIndex == 1 && InChan(s, x, Order(p, b))
  {
    trace, s := Leaves(n, p, x, b);
    init := Start<P>(n);
    StartIsWellFormed<P>(n);
  }

  /** The run ends between `finish_index++` of `x` and the insertion; the others have entered the round. */
  lemma Leaves<P(!new)>(n: nat, p: nat, x: nat, b: P) returns (trace: seq<Step<P>>, s: Ring<P>)
    requires 2 <= n && p < n && x < n && p != x
    ensures Runs(n, trace, s)
    ensures |s.procs| == n && s.procs[x] == Proc(Stepped(0), 1, {0}, {}, {0}, false) && InChan(s, x, Order(p, b))
    ensures s.procs[Pred(n, x)] == Process(Entered) && s.chans[Pred(n, x)] == []
  {
    hide Enabled, Apply, WellFormed, TokenAt, IsRun, Exec;
    var u := Pred(n, x);
    StartIsWellFormed<P>(n);
    var before := BothRun(n, p, x, u, b);
    OrderMoves(n, p, x, u, u, b);
    OneMoreStep(n, before, Chase(n, p, x, u, u, b), RecvData(x, true), Chase(n, p, x, x, u, b));
    before := before + [RecvData(x, true)];
    var after;
    after, s := LeavesBehind(n, p, x, Chase(n, p, x, x, u, b), b);
    RunConcat(Start<P>(n), before, after);
    trace := before + after;
  }

  /** The third test of the `finish` case is needed: for every `n` and `x` there is a run in which the
      server of `x` reads a token of round 0 that passes the first two tests and fails the third.  Without
      that test it would be sent on. */
  lemma ThirdTestDecides<P(!new)>(n: nat, x: nat, b: P) returns (init: Ring<P>, trace: seq<Step<P>>, s: Ring<P>)
    requires 2 <= n && x < n
    ensures ReachedIn(n, init, trace, s) && |s.procs| == |s.chans| == n && s.procs[x].pc == Stepped(0)
    ensures s.chans[Pred(n, x)] != [] && Head(s, x).Token? && Head(s, x).round == 0
    ensures 0 !in s.procs[x].isNotify && 0 in s.procs[x].isFinished && s.procs[x].finishIndex != 0
    ensures FinishVerdict(s.procs[x], 0, Head(s, x).digits).Ignore?
    ensures FinishVerdict(s.procs[x].(finishIndex := 0), 0, Head(s, x).digits).Forward?
  {
    var u := Pred(n, x);
    var before, t := Leaves(n, u, x, b);
    OneMoreStep(n, before, t, SendToken(u), Apply(t, SendToken(u)));
    s := Apply(t, SendToken(u));
    var d := Stamped(u, ZeroDigits(n));
    assert s.chans[u] == [] + [Token(0, d)] && d[x] == 0;
    init, trace := Start<P>(n), before + [SendToken(u)];
    StartIsWellFormed<P>(n);
  }
}
