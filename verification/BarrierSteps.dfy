/** Every step of the ring keeps the invariant. */
module BarrierSteps {
  import opened Topology
  import opened Barrier
  import opened BarrierInvariant

  /** The only message a step can add is `m` at the end of the stepping process's own channel;
      everything else in the channels was there before. */
  lemma MessagesAfter<P(!new)>(s: Ring<P>, step: Step<P>, s': Ring<P>, c: int, m: Msg<P>)
    requires WellFormed(s) && Enabled(s, step) && s' == Apply(s, step)
    requires InChan(s', c, m)
    ensures InChan(s, c, m) || (c == step.id && Added(s, step, m))
  {
    var n, id := |s.procs|, step.id;
    if step.RecvToken? || step.RecvData? {
      var u := Pred(n, id);
      var h := Head(s, id);
      assert u != id;
      assert InChan(s, u, h) && WellFormedMsg(n, h);
      assert s'.chans[u] == s.chans[u][1..];
      if c != id {
        assert m in s.chans[c];
      }
    }
  }

  ghost predicate Added<P(!new)>(s: Ring<P>, step: Step<P>, m: Msg<P>)
    requires WellFormed(s) && Enabled(s, step)
  {
    var n := |s.procs|;
    var p := s.procs[step.id];
    match step
    case SendToken(id) => m == Token(p.finishIndex, Stamped(id, ZeroDigits(n)))
    case RecvToken(id) =>
      var h := Head(s, id);
      && InChan(s, Pred(n, id), h)
      && |h.digits| == n
      && !FinishVerdict(p, h.round, h.digits).Ignore?
      && m == Token(h.round, Stamped(id, h.digits))
    case Send(id, body) => m == Data(id, p.finishIndex, body)
    case RecvData(id, forward) =>
      forward && InChan(s, Pred(n, id), Head(s, id)) && m == SentOn(p, id, Head(s, id))
    case _ => false
  }

  lemma WellFormedAfter<P(!new)>(s: Ring<P>, step: Step<P>, s': Ring<P>)
    requires WellFormed(s) && Enabled(s, step) && s' == Apply(s, step)
    ensures WellFormed(s')
  {
    forall c, m | InChan(s', c, m) ensures WellFormedMsg(|s'.procs|, m) {
      MessagesAfter(s, step, s', c, m);
    }
  }

  lemma FlagsAfter<P(!new)>(s: Ring<P>, step: Step<P>, s': Ring<P>)
    requires Inv(s) && Enabled(s, step) && s' == Apply(s, step)
    ensures Flags(s')
  {
    assert FlagsAgree(s.procs[step.id]);
    assert FlagsAgree(s'.procs[step.id]);
  }

  /** Rounds only grow: what has been entered, sent or notified stays so. */
  lemma FlagsGrow<P(!new)>(s: Ring<P>, step: Step<P>, s': Ring<P>, i: nat, r: nat)
    requires Inv(s) && Enabled(s, step) && s' == Apply(s, step) && i < |s.procs|
    ensures HasEntered(s.procs[i], r) ==> HasEntered(s'.procs[i], r)
    ensures HasSent(s.procs[i], r) ==> HasSent(s'.procs[i], r)
    ensures r in s.procs[i].hasNotify ==> r in s'.procs[i].hasNotify
    ensures s.procs[i].finishIndex <= s'.procs[i].finishIndex
  {
    assert FlagsAgree(s.procs[i]);
  }

  /** A token that reaches `q` is full exactly if it has passed `q` before or has been stamped by all
      the others and by `q` itself; stamping keeps the shape. */
  lemma StampKeepsShape(n: nat, q: nat, d: seq<nat>)
    requires 2 <= n && q < n && |d| == n && TokenShape(n, Pred(n, q), d) && d[q] < 2
    ensures TokenShape(n, q, Stamped(q, d))
    ensures d[q] == 1 ==> CheckFinish(d)
  {
    var c := Pred(n, q);
    var o: nat, lap: nat :| o < n && lap <= 1 && d == TokenAt(n, o, lap, c);
    if o == q {
      assert forall w :: 0 <= w < n ==> Dist(n, o, w) <= Dist(n, o, c);
      assert Stamped(q, d) == TokenAt(n, o, lap + 1, q);
      assert lap + 1 <= 1;
    } else {
      assert Stamped(q, d) == TokenAt(n, o, lap, q);
    }
  }

  lemma NotifiedLateAfter<P(!new)>(s: Ring<P>, step: Step<P>, s': Ring<P>)
    requires Inv(s) && Enabled(s, step) && s' == Apply(s, step)
    ensures NotifiedLate(s')
  {
    forall q, p, r: nat | 0 <= q < |s.procs| && 0 <= p < |s.procs| && r in s'.procs[q].hasNotify
      ensures HasEntered(s'.procs[p], r)
    {
      FlagsGrow(s, step, s', p, r);
      if r !in s.procs[q].hasNotify {
        var h := Head(s, q);
        assert InChan(s, Pred(|s.procs|, q), h);
        assert h.digits[p] >= 1;
      }
    }
  }

  lemma TokensAfter<P(!new)>(s: Ring<P>, step: Step<P>, s': Ring<P>)
    requires Inv(s) && Enabled(s, step) && s' == Apply(s, step)
    ensures Tokens(s')
  {
    var n, id := |s.procs|, step.id;
    assert FlagsAgree(s.procs[id]);
    forall c, m | InChan(s', c, m) && m.Token? ensures TokenOk(s', c, m.round, m.digits) {
      forall i: nat | i < n { FlagsGrow(s, step, s', i, m.round); }
      MessagesAfter(s, step, s', c, m);
      if InChan(s, c, m) {
        assert TokenOk(s, c, m.round, m.digits);
      } else if step.SendToken? {
        assert m.digits == TokenAt(n, id, 0, id);
      } else {
        ForwardedToken(s, step, s', m);
      }
    }
  }

  lemma ForwardedToken<P(!new)>(s: Ring<P>, step: Step<P>, s': Ring<P>, m: Msg<P>)
    requires Inv(s) && Enabled(s, step) && s' == Apply(s, step)
    requires step.RecvToken? && m.Token? && Added(s, step, m)
    ensures TokenOk(s', step.id, m.round, m.digits)
  {
    var n, q := |s.procs|, step.id;
    var h := Head(s, q);
    var d := h.digits;
    assert TokenOk(s, Pred(n, q), h.round, d);
    assert FlagsAgree(s.procs[q]);
    StampKeepsShape(n, q, d);
    forall p: nat | p < n { FlagsGrow(s, step, s', p, h.round); }
  }

  // ---- first in, first out ----

  lemma OrderedAfter<P(!new)>(s: Ring<P>, step: Step<P>, s': Ring<P>, c: nat)
    requires Inv(s) && Enabled(s, step) && s' == Apply(s, step) && c < |s.procs|
    ensures Ordered(s'.chans[c])
  {
    var n, id := |s.procs|, step.id;
    assert Ordered(s.chans[c]);
    if c == id && s'.chans[c] != s.chans[c] {
      var old_, new_ := s.chans[c], s'.chans[c];
      var m := new_[|new_| - 1];
      assert new_ == old_ + [m];
      MessagesAfter(s, step, s', c, m);
      assert InChan(s', c, m);
      if m.Data? {
        forall y | 0 <= y < |old_| ensures !Covers(old_[y], m) {
          NewDataUncovered(s, step, m, old_[y]);
        }
      }
    }
  }

  /** What a main thread sends now belongs to a later round than any token that has passed it. */
  lemma SentDataUncovered<P(!new)>(s: Ring<P>, step: Step<P>, m: Msg<P>, c: nat, t: Msg<P>)
    requires Inv(s) && Enabled(s, step) && step.Send? && Added(s, step, m)
    requires InChan(s, c, t)
    ensures !Covers(t, m)
  {
    assert FlagsAgree(s.procs[step.id]);
    if t.Token? {
      assert TokenOk(s, c, t.round, t.digits);
    }
  }

  lemma NewDataUncovered<P(!new)>(s: Ring<P>, step: Step<P>, m: Msg<P>, t: Msg<P>)
    requires Inv(s) && Enabled(s, step) && m.Data? && Added(s, step, m)
    requires InChan(s, step.id, t)
    ensures !Covers(t, m)
  {
    if step.Send? {
      SentDataUncovered(s, step, m, step.id, t);
    }
  }

  lemma BehindIsUncovered<P(!new)>(s: Ring<P>, step: Step<P>, s': Ring<P>, d: Msg<P>)
    requires Inv(s) && Enabled(s, step) && s' == Apply(s, step) && step.RecvToken?
    requires InChan(s', Pred(|s.procs|, step.id), d)
    ensures !Covers(Head(s, step.id), d)
  {
    var u := Pred(|s.procs|, step.id);
    assert Ordered(s.chans[u]);
    assert s'.chans[u] == s.chans[u][1..];
    var x :| 0 <= x < |s'.chans[u]| && s'.chans[u][x] == d;
    assert !Covers(s.chans[u][0], s.chans[u][x + 1]);
  }

  /** When the server of `id` takes a token out of a channel, the data the token covers is strictly
      further along the ring than the token was. */
  lemma CoveredIsFurther<P(!new)>(s: Ring<P>, step: Step<P>, s': Ring<P>, c: nat, d: Msg<P>)
    requires Inv(s) && Enabled(s, step) && s' == Apply(s, step) && step.RecvToken?
    requires c < |s.procs| && InChan(s', c, d) && d.Data? && Covers(Head(s, step.id), d)
    ensures d.origin < |s.procs| && Head(s, step.id).digits[d.origin] == 1
    ensures Dist(|s.procs|, d.origin, Pred(|s.procs|, step.id)) < Dist(|s.procs|, d.origin, c)
    ensures d.origin != step.id
  {
    var n := |s.procs|;
    var u, h := Pred(n, step.id), Head(s, step.id);
    MessagesAfter(s, step, s', c, d);
    assert InChan(s, u, h) && Ahead(n, u, h, c, d);
    if c == u {
      BehindIsUncovered(s, step, s', d);
    }
  }

  lemma FifoAfter<P(!new)>(s: Ring<P>, step: Step<P>, s': Ring<P>)
    requires Inv(s) && Enabled(s, step) && s' == Apply(s, step) && WellFormed(s')
    ensures Fifo(s')
  {
    var n, id := |s.procs|, step.id;
    forall c | 0 <= c < n ensures Ordered(s'.chans[c]) {
      OrderedAfter(s, step, s', c);
    }
    forall c, t, c', d | InChan(s', c, t) && InChan(s', c', d) && Covers(t, d)
      ensures d.origin < n && Ahead(n, c, t, c', d)
    {
      MessagesAfter(s, step, s', c, t);
      MessagesAfter(s, step, s', c', d);
      assert WellFormedMsg(n, d);
      if !InChan(s, c, t) {
        if step.RecvToken? && Head(s, id).digits[d.origin] >= 1 {
          CoveredIsFurther(s, step, s', c', d);
        }
      } else if !InChan(s, c', d) {
        if step.Send? {
          SentDataUncovered(s, step, d, c, t);
        } else {
          ForwardedDataAhead(s, step, c, t, d);
        }
      }
    }
  }

  lemma ForwardedDataAhead<P(!new)>(s: Ring<P>, step: Step<P>, c: nat, t: Msg<P>, d: Msg<P>)
    requires Inv(s) && Enabled(s, step) && step.RecvData? && Added(s, step, d)
    requires InChan(s, c, t) && Covers(t, d)
    ensures d.origin < |s.procs| && Ahead(|s.procs|, c, t, step.id, d)
  {
    var n, id := |s.procs|, step.id;
    assert Ahead(n, c, t, Pred(n, id), d);
  }

  lemma FlushedAfter<P(!new)>(s: Ring<P>, step: Step<P>, s': Ring<P>)
    requires Inv(s) && Enabled(s, step) && s' == Apply(s, step) && WellFormed(s')
    ensures Flushed(s')
  {
    var n := |s.procs|;
    forall q, c, d | 0 <= q < n && InChan(s', c, d) && d.Data?
      ensures d.origin < n
      ensures forall r: nat :: r in s'.procs[q].hasNotify && d.stamp <= r ==> Passed(n, d.origin, q, c)
    {
      assert WellFormedMsg(n, d);
      forall r: nat | r in s'.procs[q].hasNotify && d.stamp <= r ensures Passed(n, d.origin, q, c) {
        FlushedMessage(s, step, s', q, r, c, d);
      }
    }
  }

  lemma FlushedMessage<P(!new)>(s: Ring<P>, step: Step<P>, s': Ring<P>, q: nat, r: nat, c: nat, d: Msg<P>)
    requires Inv(s) && Enabled(s, step) && s' == Apply(s, step) && WellFormed(s')
    requires q < |s.procs| && InChan(s', c, d) && d.Data? && d.origin < |s.procs|
    requires r in s'.procs[q].hasNotify && d.stamp <= r
    ensures Passed(|s.procs|, d.origin, q, c)
  {
    var n, id := |s.procs|, step.id;
    MessagesAfter(s, step, s', c, d);
    if r !in s.procs[q].hasNotify {
      var h := Head(s, id);
      assert InChan(s, Pred(n, id), h) && WellFormedMsg(n, h);
      CoveredIsFurther(s, step, s', c, d);
    } else if InChan(s, c, d) {
    } else if step.RecvData? {
      assert Passed(n, d.origin, q, Pred(n, id));
    } else {
      NotifiedRoundIsOver(s, q, r, id);
    }
  }

  lemma NotifiedRoundIsOver<P(!new)>(s: Ring<P>, q: nat, r: nat, p: nat)
    requires Inv(s) && q < |s.procs| && p < |s.procs| && r in s.procs[q].hasNotify
    ensures HasEntered(s.procs[p], r)
  {
  }

  // ---- no round is lost ----

  lemma MessageStays<P(!new)>(s: Ring<P>, step: Step<P>, s': Ring<P>, c: nat, m: Msg<P>)
    requires WellFormed(s) && Enabled(s, step) && s' == Apply(s, step)
    requires InChan(s, c, m)
    ensures InChan(s', c, m) || ((step.RecvToken? || step.RecvData?) && c == Pred(|s.procs|, step.id) && m == Head(s, step.id))
  {
    var n, id := |s.procs|, step.id;
    if step.RecvToken? || step.RecvData? {
      var u := Pred(n, id);
      assert u != id;
      if c == u {
        assert s'.chans[u] == s.chans[u][1..];
        assert s.chans[u] == [s.chans[u][0]] + s.chans[u][1..];
      } else {
        assert s.chans[c] <= s'.chans[c];
      }
    }
  }

  lemma WakeUpWaveAfter<P(!new)>(s: Ring<P>, step: Step<P>, s': Ring<P>)
    requires Inv(s) && Enabled(s, step) && s' == Apply(s, step)
    ensures WakeUpWave(s')
  {
    var n, id := |s.procs|, step.id;
    forall q: nat, r: nat | q < n && r in s'.procs[q].hasNotify && r !in s'.procs[Succ(n, q)].hasNotify
      ensures FullTokenIn(s', q, r)
    {
      FlagsGrow(s, step, s', Succ(n, q), r);
      if r in s.procs[q].hasNotify {
        var m :| InChan(s, q, m) && m.Token? && m.round == r && CheckFinish(m.digits);
        MessageStays(s, step, s', q, m);
        if !InChan(s', q, m) {
          FullTokenIsAccepted(s, id, r, m);
        }
      } else {
        NotifyingForwards(s, step, s', r);
      }
    }
  }

  lemma FullTokenIsAccepted<P(!new)>(s: Ring<P>, q: nat, r: nat, m: Msg<P>)
    requires Inv(s) && q < |s.procs| && m.Token? && m.round == r && CheckFinish(m.digits)
    requires InChan(s, Pred(|s.procs|, q), m) && r !in s.procs[q].hasNotify
    ensures FinishVerdict(s.procs[q], r, m.digits).Notify?
  {
    assert FlagsAgree(s.procs[q]);
    assert TokenOk(s, Pred(|s.procs|, q), r, m.digits);
    assert m.digits[q] >= 1;
  }

  lemma NotifyingForwards<P(!new)>(s: Ring<P>, step: Step<P>, s': Ring<P>, r: nat)
    requires Inv(s) && Enabled(s, step) && s' == Apply(s, step)
    requires r !in s.procs[step.id].hasNotify && r in s'.procs[step.id].hasNotify
    ensures FullTokenIn(s', step.id, r)
  {
    var id := step.id;
    var h := Head(s, id);
    assert InChan(s, Pred(|s.procs|, id), h);
    var m := Token(r, Stamped(id, h.digits));
    assert s'.chans[id] == s.chans[id] + [m];
    assert InChan(s', id, m);
  }

  lemma RoundAliveAfter<P(!new)>(s: Ring<P>, step: Step<P>, s': Ring<P>)
    requires Inv(s) && Enabled(s, step) && s' == Apply(s, step)
    ensures RoundAlive(s')
  {
    var n, id := |s.procs|, step.id;
    forall r: nat | AllSent(s', r) && NoneNotified(s', r) ensures exists c: nat :: TokenIn(s', c, r) {
      assert NoneNotified(s, r) by {
        forall i: nat | i < n { FlagsGrow(s, step, s', i, r); }
      }
      if AllSent(s, r) {
        var c: nat :| TokenIn(s, c, r);
        var m :| InChan(s, c, m) && m.Token? && m.round == r;
        MessageStays(s, step, s', c, m);
        if InChan(s', c, m) {
          assert TokenIn(s', c, r);
        } else {
          AcceptedToken(s, step, s', r);
          assert TokenIn(s', id, r);
        }
      } else {
        var i :| 0 <= i < n && !HasSent(s.procs[i], r);
        assert HasSent(s'.procs[i], r) && step.SendToken? && i == id;
        var m: Msg<P> := Token(r, Stamped(id, ZeroDigits(n)));
        assert s'.chans[id] == s.chans[id] + [m];
        assert InChan(s', id, m);
        assert TokenIn(s', id, r);
      }
    }
  }

  /** A token of a round that all have entered and nobody is notified of is not dropped. */
  lemma AcceptedToken<P(!new)>(s: Ring<P>, step: Step<P>, s': Ring<P>, r: nat)
    requires Inv(s) && Enabled(s, step) && s' == Apply(s, step) && step.RecvToken?
    requires Head(s, step.id).Token? && Head(s, step.id).round == r && AllSent(s, r) && NoneNotified(s, r)
    ensures TokenIn(s', step.id, r)
  {
    var id := step.id;
    var h := Head(s, id);
    assert InChan(s, Pred(|s.procs|, id), h) && WellFormedMsg(|s.procs|, h);
    assert FlagsAgree(s.procs[id]) && HasSent(s.procs[id], r);
    var m := Token(r, Stamped(id, h.digits));
    assert s'.chans[id] == s.chans[id] + [m];
    assert InChan(s', id, m);
  }

  /** The invariant is kept by every step, whichever thread of whichever process takes it. */
  lemma StepKeepsInv<P(!new)>(s: Ring<P>, step: Step<P>)
    requires Inv(s) && Enabled(s, step)
    ensures Inv(Apply(s, step))
  {
    var s' := Apply(s, step);
    WellFormedAfter(s, step, s');
    FlagsAfter(s, step, s');
    NotifiedLateAfter(s, step, s');
    TokensAfter(s, step, s');
    FifoAfter(s, step, s');
    FlushedAfter(s, step, s');
    WakeUpWaveAfter(s, step, s');
    RoundAliveAfter(s, step, s');
  }
}
