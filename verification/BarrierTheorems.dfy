/** What the barrier promises its callers, in every reachable state. */
module BarrierTheorems {
  import opened Topology
  import opened Barrier
  import opened BarrierInvariant
  import BarrierSteps

  // ---- runs ----

  ghost predicate IsRun<P(!new)>(s: Ring<P>, trace: seq<Step<P>>)
    requires WellFormed(s)
    decreases |trace|
  {
    trace == [] || (Enabled(s, trace[0]) && (
      BarrierSteps.WellFormedAfter(s, trace[0], Apply(s, trace[0]));
      IsRun(Apply(s, trace[0]), trace[1..])))
  }

  ghost function Exec<P(!new)>(s: Ring<P>, trace: seq<Step<P>>): Ring<P>
    requires WellFormed(s) && IsRun(s, trace)
    decreases |trace|
  {
    if trace == [] then s
    else
      BarrierSteps.WellFormedAfter(s, trace[0], Apply(s, trace[0]));
      Exec(Apply(s, trace[0]), trace[1..])
  }

  lemma {:induction false} RunKeepsInv<P(!new)>(s: Ring<P>, trace: seq<Step<P>>)
    requires Inv(s) && IsRun(s, trace)
    ensures Inv(Exec(s, trace))
    decreases |trace|
  {
    if trace != [] {
      BarrierSteps.StepKeepsInv(s, trace[0]);
      RunKeepsInv(Apply(s, trace[0]), trace[1..]);
    }
  }

  // ---- safety ----

  /** No process leaves round `r` of the barrier before every process has entered it. */
  lemma NobodyLeavesEarly<P(!new)>(init: Ring<P>, trace: seq<Step<P>>, s: Ring<P>, q: nat, p: nat, r: nat)
    requires Init(init) && IsRun(init, trace) && s == Exec(init, trace)
    requires q < |s.procs| && p < |s.procs| && r < s.procs[q].finishIndex
    ensures HasEntered(s.procs[p], r)
    ensures s.procs[q].finishIndex <= s.procs[p].finishIndex + 1
  {
    InitInv(init);
    RunKeepsInv(init, trace);
    assert FlagsAgree(s.procs[q]);
    assert s.procs[q].finishIndex - 1 in s.procs[q].hasNotify;
  }

  /** A counter of at least 1 for `p` proves that `p` has entered the token's round, no counter
      exceeds 2, and origin, lap and place determine the whole token. */
  lemma TokenTellsTheTruth<P(!new)>(init: Ring<P>, trace: seq<Step<P>>, s: Ring<P>, c: nat, m: Msg<P>)
    requires Init(init) && IsRun(init, trace) && s == Exec(init, trace)
    requires InChan(s, c, m) && m.Token?
    ensures |m.digits| == |s.procs| == |s.chans|
    ensures forall p :: 0 <= p < |m.digits| && 1 <= m.digits[p] ==> m.round in s.procs[p].isFinished
    ensures forall p :: 0 <= p < |m.digits| ==> m.digits[p] <= 2
    ensures exists o: nat, lap: nat :: o < |s.procs| && lap <= 1 && m.digits == TokenAt(|s.procs|, o, lap, c)
  {
    InitInv(init);
    RunKeepsInv(init, trace);
    assert TokenOk(s, c, m.round, m.digits);
    forall p | 0 <= p < |m.digits| && 1 <= m.digits[p] ensures m.round in s.procs[p].isFinished {
      assert FlagsAgree(s.procs[p]);
    }
  }

  /** A round that is finished but not yet notified is the current one, except between `finish_index++`
      and the insertion into `is_notify`: exactly then the server's third guard decides.  Outside of
      `doAsync` no notification is pending. */
  lemma NotificationsDoNotLeak<P(!new)>(init: Ring<P>, trace: seq<Step<P>>, s: Ring<P>, q: nat, r: nat)
    requires Init(init) && IsRun(init, trace) && s == Exec(init, trace) && q < |s.procs|
    ensures r in s.procs[q].isFinished && r !in s.procs[q].isNotify && s.procs[q].finishIndex != r <==>
            s.procs[q].pc == Stepped(r)
    ensures s.procs[q].pc == Working ==>
      !s.procs[q].latch && (r in s.procs[q].hasNotify <==> r < s.procs[q].finishIndex)
  {
    InitInv(init);
    RunKeepsInv(init, trace);
    assert FlagsAgree(s.procs[q]);
  }

  // ---- flush ----

  /** When `q` is notified of round `r`, every message that any process sent before it finished the
      round and whose way leads through `q` has already been handled by `q`. */
  lemma BarrierFlush<P(!new)>(init: Ring<P>, trace: seq<Step<P>>, s: Ring<P>, q: nat, r: nat, c: nat, d: Msg<P>)
    requires Init(init) && IsRun(init, trace) && s == Exec(init, trace)
    requires q < |s.procs| && r in s.procs[q].hasNotify
    requires InChan(s, c, d) && d.Data? && d.stamp <= r
    ensures |s.procs| == |s.chans| && d.origin < |s.procs|
    ensures d.origin != q && Dist(|s.procs|, d.origin, q) <= Dist(|s.procs|, d.origin, c)
  {
    InitInv(init);
    RunKeepsInv(init, trace);
    assert Passed(|s.procs|, d.origin, q, c);
  }

  /** Seen from the server: after the notification of round `r` it reads only messages of later rounds. */
  lemma ReadsLaterRounds<P(!new)>(s: Ring<P>, q: nat, r: nat, d: Msg<P>)
    requires Inv(s) && q < |s.procs| && r in s.procs[q].hasNotify
    requires InChan(s, Pred(|s.procs|, q), d) && d.Data?
    ensures r < d.stamp
  {
    assert d.stamp <= r ==> Passed(|s.procs|, d.origin, q, Pred(|s.procs|, q));
  }

  // ---- progress ----

  /** Steps that no main thread has to wait with: everything but entering the barrier and sending. */
  ghost predicate Internal<P>(step: Step<P>) {
    !step.Enter? && !step.Send?
  }

  ghost predicate Quiet<P(!new)>(s: Ring<P>)
    requires WellFormed(s)
  {
    forall step :: Internal(step) ==> !Enabled(s, step)
  }

  lemma QuietMeans<P(!new)>(s: Ring<P>, i: nat)
    requires WellFormed(s) && Quiet(s) && i < |s.procs|
    ensures s.chans[i] == []
    ensures s.procs[i].pc == Working || (s.procs[i].pc == Waiting && !s.procs[i].latch)
  {
    var q := Succ(|s.procs|, i);
    assert Pred(|s.procs|, q) == i;
    var recvToken: Step<P>, recvData: Step<P> := RecvToken(q), RecvData(q, false);
    assert Internal(recvToken) && Internal(recvData) && !Enabled(s, recvToken) && !Enabled(s, recvData);
    var send: Step<P>, wake: Step<P>, leave: Step<P>, mark: Step<P> := SendToken(i), Wake(i), Leave(i), Mark(i);
    assert Internal(send) && Internal(wake) && Internal(leave) && Internal(mark);
    assert !Enabled(s, send) && !Enabled(s, wake) && !Enabled(s, leave) && !Enabled(s, mark);
  }

  /** With empty channels a notification has spread to everybody. */
  lemma {:induction false} NotifiedSpreads<P(!new)>(s: Ring<P>, q: nat, p: nat, r: nat)
    requires Inv(s) && q < |s.procs| && p < |s.procs| && r in s.procs[q].hasNotify
    requires forall i :: 0 <= i < |s.chans| ==> s.chans[i] == []
    ensures r in s.procs[p].hasNotify
    decreases Dist(|s.procs|, q, p)
  {
    if q != p {
      var v := Succ(|s.procs|, q);
      assert !FullTokenIn(s, q, r);
      NotifiedSpreads(s, v, p, r);
    }
  }

  /** No round is lost: once everybody has entered round `r`, the threads can go on until everybody
      has left it; there is no reachable state in which they are stuck before that. */
  lemma NoLostRound<P(!new)>(init: Ring<P>, trace: seq<Step<P>>, s: Ring<P>, r: nat)
    requires Init(init) && IsRun(init, trace) && s == Exec(init, trace)
    requires forall i :: 0 <= i < |s.procs| ==> HasEntered(s.procs[i], r)
    requires exists i :: 0 <= i < |s.procs| && s.procs[i].finishIndex == r
    ensures WellFormed(s) && exists step :: Internal(step) && Enabled(s, step)
  {
    InitInv(init);
    RunKeepsInv(init, trace);
    if Quiet(s) {
      var i :| 0 <= i < |s.procs| && s.procs[i].finishIndex == r;
      QuietRoundIsOver(s, r, i);
    }
  }

  lemma QuietRoundIsOver<P(!new)>(s: Ring<P>, r: nat, i: nat)
    requires Inv(s) && Quiet(s) && i < |s.procs|
    requires forall i :: 0 <= i < |s.procs| ==> HasEntered(s.procs[i], r)
    ensures s.procs[i].finishIndex != r
  {
    forall j: nat | j < |s.procs| ensures s.chans[j] == [] && HasSent(s.procs[j], r) {
      QuietMeans(s, j);
      assert HasEntered(s.procs[j], r);
    }
    assert AllSent(s, r) && forall c: nat :: !TokenIn(s, c, r);
    var q :| 0 <= q < |s.procs| && r in s.procs[q].hasNotify;
    NotifiedSpreads(s, q, i, r);
    QuietMeans(s, i);
    assert FlagsAgree(s.procs[i]);
  }

  // ---- after the last round ----

  /** A process that has left the last round ignores every token. */
  lemma LateTokensAreIgnored<P(!new)>(s: Ring<P>, rounds: nat, x: nat)
    requires Inv(s) && x < |s.procs| && s.procs[x].finishIndex == rounds
    requires forall p :: 0 <= p < |s.procs| ==> s.procs[p].finishIndex <= rounds
    requires forall p :: 0 <= p < |s.procs| && s.procs[p].finishIndex == rounds ==> !Inside(s.procs[p])
    requires s.chans[Pred(|s.procs|, x)] != [] && Head(s, x).Token?
    ensures FinishVerdict(s.procs[x], Head(s, x).round, Head(s, x).digits).Ignore?
  {
    var n, u, m := |s.procs|, Pred(|s.procs|, x), Head(s, x);
    assert InChan(s, u, m) && TokenOk(s, u, m.round, m.digits);
    var o: nat, lap: nat :| o < n && lap <= 1 && m.digits == TokenAt(n, o, lap, u);
    assert m.digits[o] >= 1 && HasEntered(s.procs[o], m.round);
  }
}
