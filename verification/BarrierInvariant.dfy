/** What every reachable state of the barrier keeps. */
module BarrierInvariant {
  import opened Topology
  import opened Barrier

  ghost predicate HasEntered(p: Proc, r: nat) {
    r < p.finishIndex || (r == p.finishIndex && Inside(p))
  }

  ghost predicate HasSent(p: Proc, r: nat) {
    r < p.finishIndex || (r == p.finishIndex && (p.pc == Waiting || p.pc == Woken))
  }

  /** The four flags of a process are functions of its round and of where its main thread stands. */
  ghost predicate FlagsAgree(p: Proc) {
    && (forall r: nat :: r in p.isFinished <==> HasEntered(p, r))
    && (forall r: nat :: r in p.isNotify <==> r < p.finishIndex && p.pc != Stepped(r))
    && (p.pc.Stepped? ==> p.pc.round + 1 == p.finishIndex)
    && (forall r: nat :: r in p.hasNotify <==>
          r < p.finishIndex || (r == p.finishIndex && (p.latch || p.pc == Woken)))
    && (p.latch ==> p.pc == Entered || p.pc == Waiting)
  }

  ghost predicate Flags<P(!new)>(s: Ring<P>) {
    forall i :: 0 <= i < |s.procs| ==> FlagsAgree(s.procs[i])
  }

  /** Nobody is notified of a round before everybody has entered it. */
  ghost predicate NotifiedLate<P(!new)>(s: Ring<P>) {
    forall q, p, r: nat :: 0 <= q < |s.procs| && 0 <= p < |s.procs| && r in s.procs[q].hasNotify
      ==> HasEntered(s.procs[p], r)
  }

  /** The counters of a token that started at `o`, has completed `lap` laps and is now in channel `c`. */
  function TokenAt(n: nat, o: nat, lap: nat, c: nat): (d: seq<nat>)
    requires o < n && c < n
    ensures |d| == n
  {
    seq(n, w requires 0 <= w < n => lap + if Dist(n, o, w) <= Dist(n, o, c) then 1 else 0)
  }

  ghost predicate TokenShape(n: nat, c: nat, d: seq<nat>)
    requires c < n
  {
    exists o: nat, lap: nat :: o < n && lap <= 1 && d == TokenAt(n, o, lap, c)
  }

  ghost predicate TokenOk<P(!new)>(s: Ring<P>, c: nat, r: nat, d: seq<nat>)
    requires c < |s.procs|
  {
    && |d| == |s.procs|
    && TokenShape(|s.procs|, c, d)
    && (forall p :: 0 <= p < |d| && d[p] >= 1 ==> HasEntered(s.procs[p], r))
    && (forall p :: 0 <= p < |d| && d[p] >= 2 ==> r in s.procs[p].hasNotify)
  }

  ghost predicate Tokens<P(!new)>(s: Ring<P>)
    requires |s.procs| == |s.chans|
  {
    forall c, m :: InChan(s, c, m) && m.Token? ==> TokenOk(s, c, m.round, m.digits)
  }

  /** The token vouches for the data: it has passed the data's creator after the creator finished the
      round the data belongs to. */
  ghost predicate Covers<P(!new)>(t: Msg<P>, d: Msg<P>) {
    t.Token? && d.Data? && d.origin < |t.digits| && t.digits[d.origin] >= 1 && d.stamp <= t.round
  }

  /** Covered data stays ahead of the token: in front of it in the same channel ... */
  ghost predicate Ordered<P(!new)>(ch: seq<Msg<P>>) {
    forall x, y :: 0 <= y < x < |ch| ==> !Covers(ch[y], ch[x])
  }

  /** ... or in a channel further along the ring, with the token less than a lap behind. */
  ghost predicate Ahead<P(!new)>(n: nat, c: nat, t: Msg<P>, c': nat, d: Msg<P>)
    requires c < n && c' < n && Covers(t, d) && d.origin < n
  {
    t.digits[d.origin] == 1 && Dist(n, d.origin, c) <= Dist(n, d.origin, c')
  }

  ghost predicate Fifo<P(!new)>(s: Ring<P>)
    requires WellFormed(s)
  {
    && (forall c :: 0 <= c < |s.chans| ==> Ordered(s.chans[c]))
    && (forall c, t, c', d :: InChan(s, c, t) && InChan(s, c', d) && Covers(t, d)
          ==> d.origin < |s.procs| && Ahead(|s.procs|, c, t, c', d))
  }

  /** A message of `p` that is now in channel `c` has been handled by `q` (and `q` is not `p`). */
  predicate Passed(n: nat, p: nat, q: nat, c: nat)
    requires p < n && q < n && c < n
  {
    p != q && Dist(n, p, q) <= Dist(n, p, c)
  }

  /** Barrier flush: once `q` is notified of round `r`, whatever any process sent up to round `r` and
      is still on its way is already behind `q`. */
  ghost predicate Flushed<P(!new)>(s: Ring<P>)
    requires WellFormed(s)
  {
    forall q, c, d :: 0 <= q < |s.procs| && InChan(s, c, d) && d.Data? ==>
      && d.origin < |s.procs|
      && (forall r: nat :: r in s.procs[q].hasNotify && d.stamp <= r ==> Passed(|s.procs|, d.origin, q, c))
  }

  ghost predicate FullTokenIn<P(!new)>(s: Ring<P>, c: nat, r: nat) {
    exists m :: InChan(s, c, m) && m.Token? && m.round == r && CheckFinish(m.digits)
  }

  ghost predicate TokenIn<P(!new)>(s: Ring<P>, c: nat, r: nat) {
    exists m :: InChan(s, c, m) && m.Token? && m.round == r
  }

  /** Behind a notified process the full token is waiting for a successor that is not. */
  ghost predicate WakeUpWave<P(!new)>(s: Ring<P>)
    requires |s.procs| == |s.chans|
  {
    forall q: nat, r: nat ::
      q < |s.procs| && r in s.procs[q].hasNotify && r !in s.procs[Succ(|s.procs|, q)].hasNotify
      ==> FullTokenIn(s, q, r)
  }

  ghost predicate AllSent<P(!new)>(s: Ring<P>, r: nat) {
    forall i :: 0 <= i < |s.procs| ==> HasSent(s.procs[i], r)
  }

  ghost predicate NoneNotified<P(!new)>(s: Ring<P>, r: nat) {
    forall i :: 0 <= i < |s.procs| ==> r !in s.procs[i].hasNotify
  }

  /** While nobody is notified of a round that all have sent their token for, a token is on its way. */
  ghost predicate RoundAlive<P(!new)>(s: Ring<P>)
    requires |s.procs| == |s.chans|
  {
    forall r: nat :: AllSent(s, r) && NoneNotified(s, r) ==> exists c: nat :: TokenIn(s, c, r)
  }

  ghost predicate Inv<P(!new)>(s: Ring<P>) {
    && WellFormed(s) && Flags(s) && NotifiedLate(s) && Tokens(s) && Fifo(s) && Flushed(s)
    && WakeUpWave(s) && RoundAlive(s)
  }

  lemma InitInv<P(!new)>(s: Ring<P>)
    requires Init(s)
    ensures Inv(s)
  {
    assert !AllSent(s, 0) by { assert !HasSent(s.procs[0], 0); }
    forall r: nat ensures !AllSent(s, r) { assert !HasSent(s.procs[0], r); }
  }
}
