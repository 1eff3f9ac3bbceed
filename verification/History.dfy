/** The ring with a record of its traffic. */
module History {
  import opened Sequences
  import opened Topology
  import opened Barrier
  import opened BarrierInvariant
  import BarrierSteps

  /** `put[u]` holds the payload messages that `u` has put into its channel, `got[u]` those that it has
      taken out of its inbound channel, oldest first. */
  datatype Hist<P> = Hist(ring: Ring<P>, put: seq<seq<Msg<P>>>, got: seq<seq<Msg<P>>>)

  /** What a step appends to the channel of its process ... */
  ghost function Joins<P(!new)>(s: Ring<P>, step: Step<P>): seq<Msg<P>>
    requires WellFormed(s) && Enabled(s, step)
  {
    var n, p := |s.procs|, s.procs[step.id];
    match step
    case SendToken(id) => [Token(p.finishIndex, Stamped(id, ZeroDigits(n)))]
    case RecvToken(id) =>
      var h := Head(s, id);
      assert InChan(s, Pred(n, id), h) && WellFormedMsg(n, h);
      if FinishVerdict(p, h.round, h.digits).Ignore? then [] else [Token(h.round, Stamped(id, h.digits))]
    case Send(id, body) => [Data(id, p.finishIndex, body)]
    case RecvData(id, forward) => if forward then [SentOn(p, id, Head(s, id))] else []
    case _ => []
  }

  /** ... and what it takes off the front of its inbound channel. */
  ghost function Leaves<P(!new)>(s: Ring<P>, step: Step<P>): seq<Msg<P>>
    requires WellFormed(s) && Enabled(s, step)
  {
    if step.RecvToken? || step.RecvData? then [Head(s, step.id)] else []
  }

  function Payloads<P>(l: seq<Msg<P>>): seq<Msg<P>> {
    if l == [] then [] else (if l[0].Data? then [l[0]] else []) + Payloads(l[1..])
  }

  ghost function Record<P(!new)>(h: Hist<P>, step: Step<P>): Hist<P>
    requires WellFormed(h.ring) && Enabled(h.ring, step) && |h.put| == |h.got| == |h.ring.procs|
  {
    var id := step.id;
    Hist(Apply(h.ring, step),
         h.put[id := h.put[id] + Payloads(Joins(h.ring, step))],
         h.got[id := h.got[id] + Payloads(Leaves(h.ring, step))])
  }

  ghost predicate HistInit<P(!new)>(h: Hist<P>) {
    && Init(h.ring) && |h.put| == |h.got| == |h.ring.procs|
    && (forall u :: 0 <= u < |h.put| ==> h.put[u] == [] && h.got[u] == [])
  }

  /** Conservation: what `u` has sent is what its successor has received and what is on its way. */
  ghost predicate Queue<P(!new)>(h: Hist<P>, u: nat)
    requires |h.put| == |h.got| == |h.ring.chans| && u < |h.put|
  {
    h.put[u] == h.got[Succ(|h.put|, u)] + Payloads(h.ring.chans[u])
  }

  /** A message on its way has been sent by every process it has passed. */
  ghost predicate Trail<P(!new)>(h: Hist<P>, c: nat, m: Msg<P>)
    requires |h.put| == |h.got| && c < |h.put| && m.Data?
  {
    && m.origin < |h.put|
    && (forall w: nat :: w < |h.put| && Dist(|h.put|, m.origin, w) <= Dist(|h.put|, m.origin, c) ==>
          m in h.put[w] && (w != m.origin ==> m in h.got[w]))
  }

  ghost predicate HistInv<P(!new)>(h: Hist<P>) {
    && Inv(h.ring) && |h.put| == |h.got| == |h.ring.procs|
    && (forall u: nat :: u < |h.put| ==> Queue(h, u))
    && (forall c, m :: InChan(h.ring, c, m) && m.Data? ==> Trail(h, c, m))
  }

  lemma InitHistInv<P(!new)>(h: Hist<P>)
    requires HistInit(h)
    ensures HistInv(h)
  {
    InitInv(h.ring);
  }

  // ---- every step keeps the record right ----

  lemma {:induction false} PayloadsConcat<P>(a: seq<Msg<P>>, b: seq<Msg<P>>)
    ensures Payloads(a + b) == Payloads(a) + Payloads(b)
  {
    if a == [] {
      assert a + b == b;
    } else {
      assert (a + b)[1..] == a[1..] + b;
      PayloadsConcat(a[1..], b);
      var first := if a[0].Data? then [a[0]] else [];
      assert (a + b)[0] == a[0] && Payloads(a + b) == first + Payloads(a[1..] + b);
      ConcatAssociates(first, Payloads(a[1..]), Payloads(b));
    }
  }

  lemma {:induction false} InPayloads<P>(l: seq<Msg<P>>, m: Msg<P>)
    ensures m in Payloads(l) <==> m in l && m.Data?
  {
    if l != [] {
      InPayloads(l[1..], m);
      assert l == [l[0]] + l[1..];
    }
  }

  lemma ChannelAfter<P(!new)>(s: Ring<P>, step: Step<P>, u: nat)
    requires WellFormed(s) && Enabled(s, step) && u < |s.chans|
    ensures s.chans[u] + (if u == step.id then Joins(s, step) else []) ==
            (if Succ(|s.chans|, u) == step.id then Leaves(s, step) else []) + Apply(s, step).chans[u]
  {
    var w := Pred(|s.chans|, step.id);
    assert Succ(|s.chans|, u) == step.id <==> u == w;
    if step.RecvToken? || step.RecvData? {
      assert InChan(s, w, Head(s, step.id)) && WellFormedMsg(|s.chans|, Head(s, step.id));
      assert s.chans[w] == [Head(s, step.id)] + s.chans[w][1..];
    }
    assert s.chans[u] + [] == s.chans[u];
  }

  /** Only its own step lengthens the channel of a process, by what the step sends. */
  lemma OwnChannelAfter<P(!new)>(s: Ring<P>, step: Step<P>)
    requires WellFormed(s) && Enabled(s, step)
    ensures Apply(s, step).chans[step.id] == s.chans[step.id] + Joins(s, step)
    ensures Apply(s, step).chans[step.id] == s.chans[step.id] <==> Joins(s, step) == []
  {
    hide Apply, Joins, Leaves;
    var n, id, ch := |s.chans|, step.id, Apply(s, step).chans[step.id];
    ChannelAfter(s, step, id);
    assert Succ(n, id) != id;
    assert [] + ch == ch;
    assert |s.chans[id] + Joins(s, step)| == |s.chans[id]| + |Joins(s, step)|;
    assert s.chans[id] + [] == s.chans[id];
  }

  lemma InvIsWellFormed<P(!new)>(h: Hist<P>)
    requires HistInv(h)
    ensures WellFormed(h.ring)
  {
  }

  lemma RecordedAt<P(!new)>(h: Hist<P>, step: Step<P>, u: nat)
    requires WellFormed(h.ring) && |h.put| == |h.got| == |h.ring.procs| && Enabled(h.ring, step) && u < |h.put|
    ensures
      var h', v := Record(h, step), Succ(|h.put|, u);
      && |h'.put| == |h'.got| == |h.put| && h'.ring == Apply(h.ring, step)
      && h'.put[u] == h.put[u] + Payloads(if u == step.id then Joins(h.ring, step) else [])
      && h'.got[v] == h.got[v] + Payloads(if v == step.id then Leaves(h.ring, step) else [])
  {
    var v := Succ(|h.put|, u);
    assert h.put[u] + [] == h.put[u] && h.got[v] + [] == h.got[v];
  }

  lemma QueueAfter<P(!new)>(h: Hist<P>, step: Step<P>, u: nat)
    requires HistInv(h) && Enabled(h.ring, step) && u < |h.put|
    ensures Queue(Record(h, step), u)
  {
    hide Payloads, Record, Apply, Inv;
    InvIsWellFormed(h);
    var h', v := Record(h, step), Succ(|h.put|, u);
    var joins := if u == step.id then Joins(h.ring, step) else [];
    var leaves := if v == step.id then Leaves(h.ring, step) else [];
    assert Queue(h, u);
    ChannelAfter(h.ring, step, u);
    PayloadsConcat(h.ring.chans[u], joins);
    RecordedAt(h, step, u);
    PayloadsConcat(leaves, h'.ring.chans[u]);
    ConcatAssociates(h.got[v], Payloads(h.ring.chans[u]), Payloads(joins));
    ConcatAssociates(h.got[v], Payloads(leaves), Payloads(h'.ring.chans[u]));
  }

  lemma RecordGrows<P(!new)>(h: Hist<P>, step: Step<P>, w: nat)
    requires HistInv(h) && Enabled(h.ring, step) && w < |h.put|
    ensures h.put[w] <= Record(h, step).put[w] && h.got[w] <= Record(h, step).got[w]
  {
  }

  lemma TrailAfter<P(!new)>(h: Hist<P>, step: Step<P>, c: nat, m: Msg<P>)
    requires HistInv(h) && Enabled(h.ring, step) && InChan(Apply(h.ring, step), c, m) && m.Data?
    ensures c < |h.put| && Trail(Record(h, step), c, m)
  {
    var n, h' := |h.put|, Record(h, step);
    forall w: nat | w < n { RecordGrows(h, step, w); }
    BarrierSteps.MessagesAfter(h.ring, step, h'.ring, c, m);
    if InChan(h.ring, c, m) {
      assert Trail(h, c, m);
    } else {
      assert BarrierSteps.Added(h.ring, step, m) && c == step.id;
      NewTrail(h, step, m);
    }
  }

  lemma NewTrail<P(!new)>(h: Hist<P>, step: Step<P>, m: Msg<P>)
    requires HistInv(h) && Enabled(h.ring, step) && BarrierSteps.Added(h.ring, step, m) && m.Data?
    ensures Trail(Record(h, step), step.id, m)
  {
    var n, id, h' := |h.put|, step.id, Record(h, step);
    assert Payloads([m]) == [m];
    assert h'.put[id] == h.put[id] + [m] && m in h'.put[id];
    if step.RecvData? && m.origin != id {
      var u := Pred(n, id);
      assert Trail(h, u, m);
      assert h'.got[id] == h.got[id] + [m] && m in h'.got[id];
      forall w: nat | w < n && Dist(n, m.origin, w) <= Dist(n, m.origin, id)
        ensures m in h'.put[w] && (w != m.origin ==> m in h'.got[w])
      {
        RecordGrows(h, step, w);
        assert w == id || Dist(n, m.origin, w) <= Dist(n, m.origin, u);
      }
    }
  }

  /** Every step of the ring keeps the record right. */
  lemma RecordKeepsInv<P(!new)>(h: Hist<P>, step: Step<P>)
    requires HistInv(h) && Enabled(h.ring, step)
    ensures HistInv(Record(h, step))
  {
    var h' := Record(h, step);
    BarrierSteps.StepKeepsInv(h.ring, step);
    forall u: nat | u < |h'.put| ensures Queue(h', u) {
      QueueAfter(h, step, u);
    }
    forall c, m | InChan(h'.ring, c, m) && m.Data? ensures Trail(h', c, m) {
      TrailAfter(h, step, c, m);
    }
  }

  lemma TrailOf<P(!new)>(h: Hist<P>, c: nat, m: Msg<P>)
    requires HistInv(h) && InChan(h.ring, c, m) && m.Data?
    ensures c < |h.put| && Trail(h, c, m)
  {
  }

  lemma QueueOf<P(!new)>(h: Hist<P>, u: nat)
    requires HistInv(h) && u < |h.put|
    ensures Queue(h, u)
  {
    hide Queue;
  }

  lemma PayloadsOfOne<P>(l: seq<Msg<P>>)
    requires |l| <= 1
    ensures Payloads(l) == if l != [] && l[0].Data? then l else []
  {
    if l != [] {
      assert l[1..] == [];
    }
  }

  lemma LeftNotified<P(!new)>(s: Ring<P>, q: nat, r: nat)
    requires Inv(s) && q < |s.procs| && r < s.procs[q].finishIndex
    ensures r in s.procs[q].hasNotify
  {
    assert FlagsAgree(s.procs[q]);
  }

  // ---- what has been received ----

  /** The messages of a record that satisfy `keep`, in order. */
  function Pick<P>(l: seq<Msg<P>>, keep: Msg<P> -> bool): seq<Msg<P>> {
    if l == [] then [] else (if keep(l[0]) then [l[0]] else []) + Pick(l[1..], keep)
  }

  lemma {:induction false} PickConcat<P>(a: seq<Msg<P>>, b: seq<Msg<P>>, keep: Msg<P> -> bool)
    ensures Pick(a + b, keep) == Pick(a, keep) + Pick(b, keep)
  {
    if a == [] {
      assert a + b == b;
    } else {
      assert (a + b)[1..] == a[1..] + b;
      PickConcat(a[1..], b, keep);
      ConcatAssociates(if keep(a[0]) then [a[0]] else [], Pick(a[1..], keep), Pick(b, keep));
    }
  }

  lemma {:induction false} PickNothing<P>(l: seq<Msg<P>>, keep: Msg<P> -> bool)
    requires forall m :: m in l ==> !keep(m)
    ensures Pick(l, keep) == []
  {
    if l != [] {
      PickNothing(l[1..], keep);
    }
  }

  /** One more message at the end of a record. */
  lemma PickMore<P>(l: seq<Msg<P>>, m: Msg<P>, keep: Msg<P> -> bool)
    ensures Pick(l + [m], keep) == if keep(m) then Pick(l, keep) + [m] else Pick(l, keep)
  {
    PickConcat(l, [m], keep);
    assert [m][1..] == [];
    assert Pick(l, keep) + [] == Pick(l, keep);
  }

  lemma {:induction false} InPick<P>(l: seq<Msg<P>>, keep: Msg<P> -> bool, m: Msg<P>)
    ensures m in Pick(l, keep) <==> m in l && keep(m)
  {
    if l != [] {
      InPick(l[1..], keep, m);
      assert l == [l[0]] + l[1..];
    }
  }

  lemma {:induction false} PickAlike<P>(l: seq<Msg<P>>, f: Msg<P> -> bool, g: Msg<P> -> bool)
    requires forall m :: m in l ==> (f(m) <==> g(m))
    ensures Pick(l, f) == Pick(l, g)
  {
    if l != [] {
      PickAlike(l[1..], f, g);
    }
  }

  /** Only messages of `p` up to round `r` are of interest. */
  ghost predicate Concerns<P(!new)>(keep: Msg<P> -> bool, p: nat, r: nat) {
    forall m :: keep(m) ==> m.Data? && m.origin == p && m.stamp <= r
  }

  /** At any time the successor has received, in order, a part of what was sent. */
  lemma ReceivedSoFar<P(!new)>(h: Hist<P>, u: nat, keep: Msg<P> -> bool)
    requires HistInv(h) && u < |h.put|
    ensures Pick(h.got[Succ(|h.put|, u)], keep) <= Pick(h.put[u], keep)
  {
    assert Queue(h, u);
    PickConcat(h.got[Succ(|h.put|, u)], Payloads(h.ring.chans[u]), keep);
  }

  /** The message that is read next is the next one of what was sent. */
  lemma HeadIsNext<P(!new)>(h: Hist<P>, q: nat, keep: Msg<P> -> bool)
    requires HistInv(h) && q < |h.put| && h.ring.chans[Pred(|h.put|, q)] != []
    requires Head(h.ring, q).Data? && keep(Head(h.ring, q))
    ensures Pick(h.got[q], keep) + [Head(h.ring, q)] <= Pick(h.put[Pred(|h.put|, q)], keep)
  {
    var u, m := Pred(|h.put|, q), Head(h.ring, q);
    assert Succ(|h.put|, u) == q && Queue(h, u);
    var rest := Payloads(h.ring.chans[u][1..]);
    assert Payloads(h.ring.chans[u]) == [m] + rest;
    hide HistInv, Queue, Payloads;
    PickConcat(h.got[q], [m] + rest, keep);
    PickConcat([m], rest, keep);
    assert Pick([m], keep) == [m];
    ConcatAssociates(Pick(h.got[q], keep), [m], Pick(rest, keep));
  }

  /** Once `q` is notified of round `r`, every process on the way to `q` has received all that its
      predecessor has sent of `p` up to that round. */
  lemma Delivered<P(!new)>(h: Hist<P>, q: nat, r: nat, p: nat, u: nat, keep: Msg<P> -> bool)
    requires HistInv(h) && q < |h.put| && p < |h.put| && u < |h.put|
    requires r in h.ring.procs[q].hasNotify && Concerns(keep, p, r)
    requires p == q || Dist(|h.put|, p, u) < Dist(|h.put|, p, q)
    ensures Pick(h.got[Succ(|h.put|, u)], keep) == Pick(h.put[u], keep)
  {
    var n, ch := |h.put|, h.ring.chans[u];
    assert Queue(h, u);
    PickConcat(h.got[Succ(n, u)], Payloads(ch), keep);
    forall m | m in Payloads(ch) ensures !keep(m) {
      InPayloads(ch, m);
      assert InChan(h.ring, u, m) && m.Data?;
      assert m.origin == p && m.stamp <= r ==> Passed(n, p, q, u);
    }
    PickNothing(Payloads(ch), keep);
    assert Pick(h.got[Succ(n, u)], keep) + [] == Pick(h.got[Succ(n, u)], keep);
  }

  /** The processes strictly between `p` and `u` on the ring; all others if `p == u`. */
  predicate Between(n: nat, p: nat, w: nat, u: nat)
    requires p < n && w < n && u < n
  {
    w != p && (p == u || Dist(n, p, w) < Dist(n, p, u))
  }

  ghost predicate Relays<P(!new)>(h: Hist<P>, p: nat, u: nat, keep: Msg<P> -> bool)
    requires |h.put| == |h.got| && p < |h.put| && u < |h.put|
  {
    forall w: nat :: w < |h.put| && Between(|h.put|, p, w, u) ==> Pick(h.put[w], keep) == Pick(h.got[w], keep)
  }

  /** What `p` sends and everybody in between relays has arrived at `q`, complete and in order, when a
      process at `q` or further along the ring is notified of the round it was sent in.  For `p == q` it
      has come all the way round. */
  lemma {:induction false} Arrives<P(!new)>(h: Hist<P>, p: nat, q: nat, x: nat, r: nat, keep: Msg<P> -> bool)
    requires HistInv(h) && p < |h.put| && q < |h.put| && x < |h.put|
    requires r in h.ring.procs[x].hasNotify && Concerns(keep, p, r) && Relays(h, p, q, keep)
    requires q == x || Between(|h.put|, p, q, x)
    ensures Pick(h.got[q], keep) == Pick(h.put[p], keep)
    decreases if q == p then |h.put| else Dist(|h.put|, p, q)
  {
    var n := |h.put|;
    var w := Pred(n, q);
    assert Succ(n, w) == q;
    Delivered(h, x, r, p, w, keep);
    if w != p {
      Arrives(h, p, w, x, r, keep);
    }
  }

  /** At any time a process has received, in order, a part of what `p` has sent. */
  lemma {:induction false} ArrivesSoFar<P(!new)>(h: Hist<P>, p: nat, u: nat, keep: Msg<P> -> bool)
    requires HistInv(h) && p < |h.put| && u < |h.put| && Relays(h, p, u, keep)
    ensures Pick(h.got[u], keep) <= Pick(h.put[p], keep)
    decreases if u == p then |h.put| else Dist(|h.put|, p, u)
  {
    var n := |h.put|;
    var w := Pred(n, u);
    assert Succ(n, w) == u;
    ReceivedSoFar(h, w, keep);
    if w != p {
      ArrivesSoFar(h, p, w, keep);
    }
  }

  // ---- sums over what has been received ----

  function Weigh<P>(l: seq<Msg<P>>, w: Msg<P> -> real): real {
    if l == [] then 0.0 else w(l[0]) + Weigh(l[1..], w)
  }

  lemma {:induction false} WeighConcat<P>(a: seq<Msg<P>>, b: seq<Msg<P>>, w: Msg<P> -> real)
    ensures Weigh(a + b, w) == Weigh(a, w) + Weigh(b, w)
  {
    if a == [] {
      assert a + b == b;
    } else {
      assert (a + b)[1..] == a[1..] + b;
      WeighConcat(a[1..], b, w);
    }
  }

  lemma WeighMore<P>(l: seq<Msg<P>>, m: Msg<P>, keep: Msg<P> -> bool, w: Msg<P> -> real)
    ensures Weigh(Pick(l + [m], keep), w) == Weigh(Pick(l, keep), w) + if keep(m) then w(m) else 0.0
  {
    PickMore(l, m, keep);
    WeighConcat(Pick(l, keep), [m], w);
    assert Weigh([m], w) == w(m);
  }

  /** Those of the messages that `p` has created. */
  function From<P>(keep: Msg<P> -> bool, p: nat): Msg<P> -> bool {
    (m: Msg<P>) => keep(m) && m.Data? && m.origin == p
  }

  function WeighOrigins<P>(l: seq<Msg<P>>, keep: Msg<P> -> bool, w: Msg<P> -> real, k: nat): real {
    if k == 0 then 0.0 else WeighOrigins(l, keep, w, k - 1) + Weigh(Pick(l, From(keep, k - 1)), w)
  }

  lemma {:induction false} OneOrigin<P>(l: seq<Msg<P>>, keep: Msg<P> -> bool, w: Msg<P> -> real, k: nat)
    requires l != []
    ensures WeighOrigins(l, keep, w, k) == WeighOrigins(l[1..], keep, w, k) +
            if keep(l[0]) && l[0].Data? && l[0].origin < k then w(l[0]) else 0.0
  {
    if k > 0 {
      OneOrigin(l, keep, w, k - 1);
      assert l == [l[0]] + l[1..];
      WeighConcat(if From(keep, k - 1)(l[0]) then [l[0]] else [], Pick(l[1..], From(keep, k - 1)), w);
    }
  }

  lemma {:induction false} NoOrigin<P>(keep: Msg<P> -> bool, w: Msg<P> -> real, k: nat)
    ensures WeighOrigins([], keep, w, k) == 0.0
  {
    if k > 0 {
      NoOrigin(keep, w, k - 1);
    }
  }

  /** A sum over all messages is the sum over their creators. */
  lemma {:induction false} WeighByOrigin<P>(l: seq<Msg<P>>, keep: Msg<P> -> bool, w: Msg<P> -> real, n: nat)
    requires forall m :: m in l && keep(m) ==> m.Data? && m.origin < n
    ensures Weigh(Pick(l, keep), w) == WeighOrigins(l, keep, w, n)
  {
    if l == [] {
      NoOrigin(keep, w, n);
    } else {
      assert l == [l[0]] + l[1..];
      WeighByOrigin(l[1..], keep, w, n);
      OneOrigin(l, keep, w, n);
      WeighConcat(if keep(l[0]) then [l[0]] else [], Pick(l[1..], keep), w);
    }
  }
}
