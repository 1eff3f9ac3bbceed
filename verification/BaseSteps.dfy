/** Every step of the base calculation keeps its invariant.  Module BaseProcess shows it for the process
    that moves; here the messages join in.  An order has not passed a process that stores its part, a
    message that is read belongs to no earlier round than its reader's, and an under-sale message is new
    to its reader exactly on its first lap.  With these three facts a message that is read is one that
    module BaseProcess can deal with, and what is sent on is a message of the same kind. */
module BaseSteps {
  import opened Topology
  import opened Barrier
  import BarrierTheorems
  import opened History
  import opened Query
  import opened BrandTables
  import opened SalesSums
  import opened BaseCalculator
  import opened BaseInvariant
  import opened BaseProcess

  lemma Basics(cfg: Config, s: Sys)
    requires SysInv(cfg, s)
    ensures SysWellFormed(cfg, s) && HistInv(s.hist) && MessagesOk(cfg, s) && |s.hist.ring.chans| == |s.apps|
  {
    hide HistInv, MessagesOk, ProcessesOk;
  }

  // ---- what a step changes ----

  /** The payload message that a step puts into the channel of its process ... */
  ghost function NewPut(cfg: Config, s: Sys, step: SysStep): seq<Msg<Body>>
    requires SysWellFormed(cfg, s) && SysEnabled(cfg, s, step)
  {
    var id, p := step.id, s.hist.ring.procs[step.id];
    if step.Main? && NextAction(cfg, s, id).SendBody? then [Data(id, p.finishIndex, NextAction(cfg, s, id).body)]
    else if step.Serve? && Head(s.hist.ring, id).Data? && Handled(cfg, s, id, Head(s.hist.ring, id).body).1
      then [SentOn(p, id, Head(s.hist.ring, id))]
    else []
  }

  /** ... and the one it takes out of its inbound channel. */
  ghost function NewGot(cfg: Config, s: Sys, step: SysStep): seq<Msg<Body>>
    requires SysWellFormed(cfg, s) && SysEnabled(cfg, s, step)
  {
    if step.Serve? && Head(s.hist.ring, step.id).Data? then [Head(s.hist.ring, step.id)] else []
  }

  ghost function NextProc(cfg: Config, s: Sys, step: SysStep): Proc
    requires SysWellFormed(cfg, s) && SysEnabled(cfg, s, step)
  {
    var p := s.hist.ring.procs[step.id];
    match step
    case Main(id) => if NextAction(cfg, s, id).EnterBarrier? then Entering(p) else p
    case SendFinish(_) => p.(pc := Waiting)
    case WakeUp(_) => p.(pc := Woken, latch := false)
    case LeaveBarrier(_) => Leaving(p)
    case MarkRound(_) => Marking(p)
    case Serve(id) =>
      var m := Head(s.hist.ring, id);
      if m.Token? then AfterFinish(p, m.round, m.digits) else p
  }

  lemma LogsAfter(cfg: Config, s: Sys, step: SysStep, s': Sys)
    requires SysWellFormed(cfg, s) && SysEnabled(cfg, s, step) && s' == SysApply(cfg, s, step)
    ensures s'.hist.put == s.hist.put[step.id := s.hist.put[step.id] + NewPut(cfg, s, step)]
    ensures s'.hist.got == s.hist.got[step.id := s.hist.got[step.id] + NewGot(cfg, s, step)]
  {
    hide Handled, MainAction, Apply, NextApp;
    var id := step.id;
    assert s.hist.put[id] + [] == s.hist.put[id] && s.hist.got[id] + [] == s.hist.got[id];
    if MovesRing(cfg, s, step) {
      PayloadsOfOne(Joins(s.hist.ring, RingStep(cfg, s, step)));
      PayloadsOfOne(Leaves(s.hist.ring, RingStep(cfg, s, step)));
    }
  }

  lemma ProcsAfter(cfg: Config, s: Sys, step: SysStep, s': Sys)
    requires SysWellFormed(cfg, s) && SysEnabled(cfg, s, step) && s' == SysApply(cfg, s, step)
    ensures s'.hist.ring.procs == s.hist.ring.procs[step.id := NextProc(cfg, s, step)]
    ensures s'.apps == s.apps[step.id := NextApp(cfg, s, step)]
  {
  }

  lemma HistAfter(cfg: Config, s: Sys, step: SysStep, s': Sys)
    requires SysInv(cfg, s) && SysEnabled(cfg, s, step) && s' == SysApply(cfg, s, step)
    ensures SysWellFormed(cfg, s') && HistInv(s'.hist)
  {
    assert HistInv(s.hist);
    ProcsAfter(cfg, s, step, s');
    LogsAfter(cfg, s, step, s');
    if MovesRing(cfg, s, step) {
      RecordKeepsInv(s.hist, RingStep(cfg, s, step));
    }
  }

  // ---- the message that is read ----

  lemma ReadMessage(cfg: Config, s: Sys, id: nat)
    requires SysInv(cfg, s) && SysEnabled(cfg, s, Serve(id))
    ensures
      var u, m := Pred(|s.apps|, id), Head(s.hist.ring, id);
      m.Data? ==> InChan(s.hist.ring, u, m) && Trail(s.hist, u, m) && MessageOk(cfg, s, u, m)
  {
    hide SysInv, HistInv, MessagesOk, MessageOk;
    Basics(cfg, s);
    var u, m := Pred(|s.apps|, id), Head(s.hist.ring, id);
    assert InChan(s.hist.ring, u, m);
    if m.Data? {
      TrailOf(s.hist, u, m);
      assert m in s.hist.put[u];
      SentMessage(cfg, s, u, m);
    }
  }

  lemma SentMessage(cfg: Config, s: Sys, u: nat, m: Msg<Body>)
    requires SysWellFormed(cfg, s) && MessagesOk(cfg, s) && u < |s.apps|
    ensures m in s.hist.put[u] ==> MessageOk(cfg, s, u, m)
  {
    hide MessageOk;
  }

  lemma OwnKeyIsStored(cfg: Config, u: nat, key: int)
    requires u < |cfg.parts| && key in OwnKeys(cfg, u)
    ensures key in KeysAt(cfg, u) && key in OrderedKeys(cfg)
  {
  }

  /** An order on its way has not reached the process that stores its part; so it makes at most n - 1
      hops. */
  lemma OrderIsShortOfOwner(cfg: Config, s: Sys, c: nat, m: Msg<Body>, w: nat)
    requires SysInv(cfg, s) && InChan(s.hist.ring, c, m) && m.Data? && m.body.OrderMsg?
    requires w < |s.apps| && m.body.order.key in KeysAt(cfg, w)
    ensures m.origin < |s.apps| && Dist(|s.apps|, m.origin, c) < Dist(|s.apps|, m.origin, w)
  {
    hide SysInv, HistInv, KeysAt, OwnKeys, MessagesOk, WellFormed;
    Basics(cfg, s);
    TrailOf(s.hist, c, m);
    SentMessage(cfg, s, w, m);
  }

  /** An order that is read by a process that stores its part comes from another process and is on its
      first lap. */
  lemma OrderAtOwner(cfg: Config, s: Sys, id: nat)
    requires SysInv(cfg, s) && SysEnabled(cfg, s, Serve(id))
    requires Head(s.hist.ring, id).Data? && Head(s.hist.ring, id).body.OrderMsg?
    requires Head(s.hist.ring, id).body.order.key in KeysAt(cfg, id)
    ensures Head(s.hist.ring, id).stamp == 0 && Head(s.hist.ring, id).origin != id
  {
    hide SysInv, KeysAt, OwnKeys, Trail;
    Basics(cfg, s);
    var u, m := Pred(|s.apps|, id), Head(s.hist.ring, id);
    ReadMessage(cfg, s, id);
    OrderIsShortOfOwner(cfg, s, u, m, id);
  }

  /** An order that comes back to its creator is for a part that nobody stores. */
  lemma ReturnsHomeless(cfg: Config, s: Sys, id: nat)
    requires SysInv(cfg, s) && SysEnabled(cfg, s, Serve(id))
    requires Head(s.hist.ring, id).Data? && Head(s.hist.ring, id).body.OrderMsg?
    requires Head(s.hist.ring, id).origin == id
    ensures !Stored(cfg, Head(s.hist.ring, id).body.order.key)
  {
    hide SysInv, KeysAt, OwnKeys, Trail;
    Basics(cfg, s);
    var u, m := Pred(|s.apps|, id), Head(s.hist.ring, id);
    ReadMessage(cfg, s, id);
    forall w: nat | w < |cfg.parts| ensures m.body.order.key !in KeysAt(cfg, w) {
      if m.body.order.key in KeysAt(cfg, w) {
        OrderIsShortOfOwner(cfg, s, u, m, w);
      }
    }
  }

  /** Messages of earlier rounds have been read. */
  lemma ReadsLate(cfg: Config, s: Sys, id: nat)
    requires SysInv(cfg, s) && SysEnabled(cfg, s, Serve(id))
    ensures
      var m, round := Head(s.hist.ring, id), s.hist.ring.procs[id].finishIndex;
      m.Data? ==> round <= m.stamp
  {
    hide SysInv, MessagesOk;
    Basics(cfg, s);
    var m, round := Head(s.hist.ring, id), s.hist.ring.procs[id].finishIndex;
    var u := Pred(|s.apps|, id);
    assert InChan(s.hist.ring, u, m);
    if m.Data? && round > 0 {
      LeftNotified(s.hist.ring, id, round - 1);
      BarrierTheorems.ReadsLaterRounds(s.hist.ring, id, round - 1, m);
    }
  }

  // ---- under-sale messages ----

  lemma {:induction false} FromRecords(l: seq<Msg<Body>>, i: nat) returns (m: Msg<Body>)
    requires i < |Records(l)|
    ensures m in l && m.Data? && m.body == UnderMsg(Records(l)[i])
  {
    var first := if l[0].Data? && l[0].body.UnderMsg? then [l[0].body.part] else [];
    if i < |first| {
      m := l[0];
    } else {
      m := FromRecords(l[1..], i - |first|);
    }
  }

  lemma {:induction false} UnderMsgsAt(p: nat, l: seq<PartData>)
    ensures |UnderMsgs(p, l)| == |l|
    ensures forall i :: 0 <= i < |l| ==> UnderMsgs(p, l)[i] == Data(p, 2, UnderMsg(l[i]))
  {
    if l != [] {
      UnderMsgsAt(p, l[1..]);
    }
  }

  lemma RelaysUnders(cfg: Config, s: Sys, p: nat, u: nat)
    requires OwnedOnce(cfg) && SysInv(cfg, s) && p < |s.apps| && u < |s.apps|
    ensures Relays(s.hist, p, u, From(Unders(), p))
  {
    forall w: nat | w < |s.apps| && Between(|s.apps|, p, w, u)
      ensures Pick(s.hist.put[w], From(Unders(), p)) == Pick(s.hist.got[w], From(Unders(), p))
    {
      assert ProcessOk(cfg, w, s.hist.ring.procs[w], s.apps[w], s.hist.put[w], s.hist.got[w]);
      assert PassesOn(cfg, w, p, s.hist.put[w], s.hist.got[w]);
    }
  }

  /** What any process has sent of `p` is the beginning of what `p` has sent. */
  lemma SentIsPrefix(cfg: Config, s: Sys, p: nat, u: nat)
    requires OwnedOnce(cfg) && SysInv(cfg, s) && p < |s.apps| && u < |s.apps|
    ensures Pick(s.hist.put[u], From(Unders(), p)) <= Pick(s.hist.put[p], From(Unders(), p))
  {
    if u != p {
      RelaysUnders(cfg, s, p, u);
      ArrivesSoFar(s.hist, p, u, From(Unders(), p));
      assert ProcessOk(cfg, u, s.hist.ring.procs[u], s.apps[u], s.hist.put[u], s.hist.got[u]);
      assert PassesOn(cfg, u, p, s.hist.put[u], s.hist.got[u]);
    }
  }

  lemma SentUnders(cfg: Config, s: Sys, p: nat)
    requires SysInv(cfg, s) && p < |s.apps|
    ensures
      var searched := Searched(s.hist.ring.procs[p].finishIndex, s.apps[p]);
      && DistinctIds(searched)
      && Pick(s.hist.put[p], From(Unders(), p)) == UnderMsgs(p, UnderList(searched, s.apps[p].shared))
  {
    hide SysInv, MessagesOk, HistInv, WellFormed, Tally, OrdersSent, IsUnder;
    Basics(cfg, s);
    ProcessIs(cfg, s, p);
  }

  /** The messages of `p` carry different parts. */
  lemma UndersAreDistinct(cfg: Config, s: Sys, p: nat, u: nat, i: nat, j: nat)
    requires OwnedOnce(cfg) && SysInv(cfg, s) && p < |s.apps| && u < |s.apps|
    requires i < j < |Pick(s.hist.put[u], From(Unders(), p))|
    ensures
      var l := Pick(s.hist.put[u], From(Unders(), p));
      l[i].Data? && l[j].Data? && l[i].body.UnderMsg? && l[j].body.UnderMsg? && l[i].body.part.id != l[j].body.part.id
  {
    hide OwnedOnce, SysInv, Pick, Searched, UnderList, UnderMsgs, HistInv, MessagesOk, WellFormed;
    Basics(cfg, s);
    SentIsPrefix(cfg, s, p, u);
    SentUnders(cfg, s, p);
    var searched := Searched(s.hist.ring.procs[p].finishIndex, s.apps[p]);
    UnderListIsDistinct(searched, s.apps[p].shared);
    PrefixIsDistinct(p, UnderList(searched, s.apps[p].shared), Pick(s.hist.put[u], From(Unders(), p)), i, j);
  }

  lemma PrefixIsDistinct(p: nat, list: seq<PartData>, l: seq<Msg<Body>>, i: nat, j: nat)
    requires DistinctIds(list) && l <= UnderMsgs(p, list) && i < j < |l|
    ensures l[i].Data? && l[j].Data? && l[i].body.UnderMsg? && l[j].body.UnderMsg?
    ensures l[i].body.part.id != l[j].body.part.id
  {
    hide UnderMsgs;
    UnderMsgsAt(p, list);
    assert l[i] == Data(p, 2, UnderMsg(list[i])) && l[j] == Data(p, 2, UnderMsg(list[j]));
  }

  lemma ListIs(cfg: Config, s: Sys, u: nat)
    requires SysInv(cfg, s) && u < |s.apps|
    ensures OwnedOnce(cfg) ==> s.apps[u].underSales == Records(Pick(s.hist.got[u], Unders()))
    ensures forall m :: m in s.hist.got[u] && m.Data? && m.body.UnderMsg? ==> HasId(s.apps[u].underSales, m.body.part.id)
  {
    hide OwnedOnce, MainOk, TableOk, TotalsOk, SentOk, PassesOn, HistInv, MessagesOk;
    assert ProcessOk(cfg, u, s.hist.ring.procs[u], s.apps[u], s.hist.put[u], s.hist.got[u]);
  }

  /** A message on its first lap is new to its reader; one on its second is not. */
  lemma UnderIsFresh(cfg: Config, s: Sys, id: nat)
    requires OwnedOnce(cfg) && SysInv(cfg, s) && SysEnabled(cfg, s, Serve(id))
    requires Head(s.hist.ring, id).Data? && Head(s.hist.ring, id).body.UnderMsg?
    ensures
      var m := Head(s.hist.ring, id);
      HasId(s.apps[id].underSales, m.body.part.id) <==> m.stamp > 2
  {
    hide OwnedOnce, SysInv, Trail;
    Basics(cfg, s);
    UnderStamp(cfg, s, id);
    var m, list := Head(s.hist.ring, id), s.apps[id].underSales;
    if m.stamp == 2 {
      forall i: nat | i < |list| ensures list[i].id != m.body.part.id {
        NewToReader(cfg, s, id, m, i, list[i]);
      }
    }
  }

  lemma UnderStamp(cfg: Config, s: Sys, id: nat)
    requires SysInv(cfg, s) && SysEnabled(cfg, s, Serve(id))
    requires Head(s.hist.ring, id).Data? && Head(s.hist.ring, id).body.UnderMsg?
    ensures
      var m := Head(s.hist.ring, id);
      2 <= m.stamp && (m.stamp > 2 ==> HasId(s.apps[id].underSales, m.body.part.id))
  {
    hide SysInv, OwnKeys, KeysAt, Trail, InChan, HasId, WellFormed;
    Basics(cfg, s);
    ReadMessage(cfg, s, id);
    assert Succ(|s.apps|, Pred(|s.apps|, id)) == id;
  }

  lemma NewToReader(cfg: Config, s: Sys, id: nat, m: Msg<Body>, i: nat, part: PartData)
    requires m.Data? && m.body.UnderMsg? && m.stamp == 2
    requires OwnedOnce(cfg) && SysInv(cfg, s) && SysEnabled(cfg, s, Serve(id)) && m == Head(s.hist.ring, id)
    requires i < |s.apps[id].underSales| && part == s.apps[id].underSales[i]
    ensures part.id != m.body.part.id
  {
    hide OwnedOnce, SysInv, KeysAt, Records, Pick, WellFormed;
    Basics(cfg, s);
    ListIs(cfg, s, id);
    var m2 := FromRecords(Pick(s.hist.got[id], Unders()), i);
    SeenBefore(cfg, s, id, m2);
  }

  lemma SameOwner(cfg: Config, key: int, p: nat, q: nat)
    requires OwnedOnce(cfg) && p < |cfg.parts| && q < |cfg.parts| && key in OwnKeys(cfg, p) && key in OwnKeys(cfg, q)
    ensures p == q
  {
  }

  /** What has been received has been sent by the process before. */
  lemma GotMessage(cfg: Config, s: Sys, id: nat, m: Msg<Body>)
    requires SysInv(cfg, s) && id < |s.apps| && m in s.hist.got[id]
    ensures MessageOk(cfg, s, Pred(|s.apps|, id), m)
  {
    hide SysInv, HistInv, MessagesOk, MessageOk, Payloads;
    Basics(cfg, s);
    var u := Pred(|s.apps|, id);
    assert Succ(|s.apps|, u) == id;
    QueueOf(s.hist, u);
    assert m in s.hist.put[u];
    SentMessage(cfg, s, u, m);
  }

  /** A message received before comes, if it carries the same part, from the same process. */
  lemma SameOrigin(cfg: Config, s: Sys, id: nat, m2: Msg<Body>)
    requires OwnedOnce(cfg) && SysInv(cfg, s) && SysEnabled(cfg, s, Serve(id))
    requires Head(s.hist.ring, id).Data? && Head(s.hist.ring, id).body.UnderMsg?
    requires m2 in s.hist.got[id] && m2.Data? && m2.body.UnderMsg?
    ensures m2.body.part.id == Head(s.hist.ring, id).body.part.id ==> m2.origin == Head(s.hist.ring, id).origin
  {
    hide OwnedOnce, SysInv, Trail, InChan, OwnKeys, WellFormed;
    Basics(cfg, s);
    var m := Head(s.hist.ring, id);
    ReadMessage(cfg, s, id);
    GotMessage(cfg, s, id, m2);
    if m2.body.part.id == m.body.part.id {
      SameOwner(cfg, m.body.part.id, m.origin, m2.origin);
    }
  }

  /** The same part is not received twice. */
  lemma SeenBefore(cfg: Config, s: Sys, id: nat, m2: Msg<Body>)
    requires OwnedOnce(cfg) && SysInv(cfg, s) && SysEnabled(cfg, s, Serve(id))
    requires Head(s.hist.ring, id).Data? && Head(s.hist.ring, id).body.UnderMsg? && Head(s.hist.ring, id).stamp == 2
    requires m2 in Pick(s.hist.got[id], Unders()) && m2.Data? && m2.body.UnderMsg?
    ensures m2.body.part.id != Head(s.hist.ring, id).body.part.id
  {
    hide OwnedOnce, SysInv, HistInv, Trail, BodyOk, Pick, WellFormed, InChan;
    Basics(cfg, s);
    var u, m, got := Pred(|s.apps|, id), Head(s.hist.ring, id), s.hist.got[id];
    var keep := From(Unders(), m.origin);
    ReadMessage(cfg, s, id);
    InPick(got, Unders(), m2);
    SameOrigin(cfg, s, id, m2);
    HeadIsNext(s.hist, id, keep);
    InPick(got, keep, m2);
    if m2.body.part.id == m.body.part.id {
      var i := PlaceOf(Pick(got, keep), m2);
      NextInPrefix(Pick(got, keep), m, Pick(s.hist.put[u], keep), i);
      UndersAreDistinct(cfg, s, m.origin, u, i, |Pick(got, keep)|);
    }
  }

  lemma PlaceOf(l: seq<Msg<Body>>, m: Msg<Body>) returns (i: nat)
    requires m in l
    ensures i < |l| && l[i] == m
  {
    i :| 0 <= i < |l| && l[i] == m;
  }

  lemma NextInPrefix(a: seq<Msg<Body>>, m: Msg<Body>, l: seq<Msg<Body>>, i: nat)
    requires a + [m] <= l && i < |a|
    ensures |a| < |l| && l[i] == a[i] && l[|a|] == m
  {
    assert (a + [m])[i] == a[i] && (a + [m])[|a|] == m;
  }

  // ---- the invariant ----

  lemma HeadIsReadable(cfg: Config, s: Sys, id: nat)
    requires SysInv(cfg, s) && SysEnabled(cfg, s, Serve(id)) && Head(s.hist.ring, id).Data?
    ensures Readable(cfg, id, s.hist.ring.procs[id], s.apps[id], Head(s.hist.ring, id))
  {
    hide OwnedOnce, SysInv, KeysAt, OwnKeys, Trail, InChan, MessagesOk, HistInv, WellFormed;
    Basics(cfg, s);
    var m := Head(s.hist.ring, id);
    ReadMessage(cfg, s, id);
    ReadsLate(cfg, s, id);
    match m.body
    case OrderMsg(o) =>
      OrderIsOrdered(cfg, m.origin, o);
      if o.key in KeysAt(cfg, id) {
        OrderAtOwner(cfg, s, id);
      }
    case TotalMsg(_, _, _) =>
    case UnderMsg(_) =>
      UnderStamp(cfg, s, id);
      if OwnedOnce(cfg) {
        UnderIsFresh(cfg, s, id);
      }
  }

  lemma ProcessIs(cfg: Config, s: Sys, u: nat)
    requires SysInv(cfg, s) && u < |s.apps|
    ensures ProcessOk(cfg, u, s.hist.ring.procs[u], s.apps[u], s.hist.put[u], s.hist.got[u])
    ensures MainOk(cfg, u, s.hist.ring.procs[u], s.apps[u])
  {
    hide MainOk, TableOk, TotalsOk, UndersOk, SentOk, PassesOn, HistInv, MessagesOk;
  }

  /** The state of the stepping process after the step. */
  ghost predicate NextOk(cfg: Config, s: Sys, step: SysStep)
    requires SysWellFormed(cfg, s) && SysEnabled(cfg, s, step)
  {
    ProcessOk(cfg, step.id, NextProc(cfg, s, step), NextApp(cfg, s, step),
              s.hist.put[step.id] + NewPut(cfg, s, step), s.hist.got[step.id] + NewGot(cfg, s, step))
  }

  lemma MainAfter(cfg: Config, s: Sys, id: nat)
    requires SysInv(cfg, s) && SysEnabled(cfg, s, Main(id))
    ensures NextOk(cfg, s, Main(id))
  {
    hide SysInv, ProcessOk, MainOk, MainAction, WellFormed, HistInv, MessagesOk;
    Basics(cfg, s);
    var p, a, put, got := s.hist.ring.procs[id], s.apps[id], s.hist.put[id], s.hist.got[id];
    ProcessIs(cfg, s, id);
    assert got + [] == got;
    if NextAction(cfg, s, id).EnterBarrier? {
      assert put + [] == put;
      BarrierKeepsProcess(cfg, id, p, Entering(p), a, put, got);
    } else {
      ActionKeepsProcess(cfg, id, p, a, put, got);
      assert NewPut(cfg, s, Main(id)) == Sends(NextAction(cfg, s, id), id, p.finishIndex);
    }
  }

  lemma ServeAfter(cfg: Config, s: Sys, id: nat)
    requires SysInv(cfg, s) && SysEnabled(cfg, s, Serve(id))
    ensures NextOk(cfg, s, Serve(id))
  {
    hide OwnedOnce, SysInv, KeysAt, ProcessOk, OnBody, WellFormed, HistInv, MessagesOk, IsUnder;
    Basics(cfg, s);
    var p, a, put, got, m := s.hist.ring.procs[id], s.apps[id], s.hist.put[id], s.hist.got[id], Head(s.hist.ring, id);
    ProcessIs(cfg, s, id);
    assert put + [] == put && got + [] == got;
    if m.Data? {
      HeadIsReadable(cfg, s, id);
      ServeKeepsProcess(cfg, id, p, a, put, got, m);
    } else {
      BarrierKeepsProcess(cfg, id, p, NextProc(cfg, s, Serve(id)), a, put, got);
    }
  }

  lemma BarrierAfter(cfg: Config, s: Sys, step: SysStep)
    requires SysInv(cfg, s) && SysEnabled(cfg, s, step) && !step.Main? && !step.Serve?
    ensures NextOk(cfg, s, step)
  {
    hide SysInv, KeysAt, ProcessOk, MainAction, WellFormed, HistInv, MessagesOk;
    Basics(cfg, s);
    var id := step.id;
    var p, a, put, got := s.hist.ring.procs[id], s.apps[id], s.hist.put[id], s.hist.got[id];
    ProcessIs(cfg, s, id);
    assert put + [] == put && got + [] == got;
    if step.LeaveBarrier? {
      LeavingKeepsProcess(cfg, id, p, a, put, got);
    } else {
      BarrierKeepsProcess(cfg, id, p, NextProc(cfg, s, step), a, put, got);
    }
  }

  lemma ProcessAfter(cfg: Config, s: Sys, step: SysStep)
    requires SysInv(cfg, s) && SysEnabled(cfg, s, step)
    ensures NextOk(cfg, s, step)
  {
    hide OwnedOnce, SysInv, NextOk;
    if step.Main? {
      MainAfter(cfg, s, step.id);
    } else if step.Serve? {
      ServeAfter(cfg, s, step.id);
    } else {
      BarrierAfter(cfg, s, step);
    }
  }

  lemma ProcessesAfter(cfg: Config, s: Sys, step: SysStep, s': Sys)
    requires SysInv(cfg, s) && SysEnabled(cfg, s, step) && s' == SysApply(cfg, s, step) && SysWellFormed(cfg, s')
    ensures ProcessesOk(cfg, s')
  {
    hide OwnedOnce, SysInv, SysApply, ProcessOk, NextProc, NextApp, NewPut, NewGot, HistInv, MessagesOk, WellFormed;
    Basics(cfg, s);
    ProcsAfter(cfg, s, step, s');
    LogsAfter(cfg, s, step, s');
    ProcessAfter(cfg, s, step);
    assert NextOk(cfg, s, step);
    forall u: nat | u < |s.apps| && u != step.id
      ensures ProcessOk(cfg, u, s'.hist.ring.procs[u], s'.apps[u], s'.hist.put[u], s'.hist.got[u])
    {
      ProcessIs(cfg, s, u);
    }
  }

  lemma GrowsAfter(cfg: Config, s: Sys, step: SysStep, s': Sys, u: nat)
    requires SysInv(cfg, s) && SysEnabled(cfg, s, step) && s' == SysApply(cfg, s, step) && u < |s.apps|
    ensures |s'.apps| == |s.apps| == |s'.hist.ring.procs|
    ensures s.hist.ring.procs[u].finishIndex <= s'.hist.ring.procs[u].finishIndex
    ensures s.apps[u].underSales <= s'.apps[u].underSales
  {
    hide SysInv, SysApply, NextProc, NextApp, HistInv, MessagesOk, WellFormed;
    Basics(cfg, s);
    ProcsAfter(cfg, s, step, s');
    if u == step.id {
      NextGrows(cfg, s, step);
    }
  }

  lemma NextGrows(cfg: Config, s: Sys, step: SysStep)
    requires SysWellFormed(cfg, s) && SysEnabled(cfg, s, step)
    ensures s.hist.ring.procs[step.id].finishIndex <= NextProc(cfg, s, step).finishIndex
    ensures s.apps[step.id].underSales <= NextApp(cfg, s, step).underSales
  {
    hide IsUnder, KeysAt, MergeIn;
  }

  lemma OldMessageOk(cfg: Config, s: Sys, step: SysStep, s': Sys, u: nat, m: Msg<Body>)
    requires SysInv(cfg, s) && SysEnabled(cfg, s, step) && s' == SysApply(cfg, s, step) && SysWellFormed(cfg, s')
    requires u < |s.apps| && m in s.hist.put[u]
    ensures MessageOk(cfg, s', u, m)
  {
    hide SysInv, SysApply, BodyOk, HistInv, MessagesOk, WellFormed;
    Basics(cfg, s);
    SentMessage(cfg, s, u, m);
    var v := Succ(|s.apps|, u);
    GrowsAfter(cfg, s, step, s', m.origin);
    GrowsAfter(cfg, s, step, s', v);
    BodyStaysOk(cfg, u, m, s.hist.ring.procs[m.origin].finishIndex, s'.hist.ring.procs[m.origin].finishIndex,
                s.apps[v].underSales, s'.apps[v].underSales);
  }

  lemma BodyStaysOk(cfg: Config, u: nat, m: Msg<Body>, round: nat, round': nat, known: seq<PartData>, known': seq<PartData>)
    requires u < |cfg.parts| == |cfg.orders| && m.Data? && m.origin < |cfg.parts| && BodyOk(cfg, u, m, round, known)
    requires round <= round' && known <= known'
    ensures BodyOk(cfg, u, m, round', known')
  {
    if m.body.UnderMsg? {
      KeepsId(known, known', m.body.part.id);
    }
  }

  lemma KeepsId(v: seq<PartData>, w: seq<PartData>, id: int)
    requires v <= w
    ensures HasId(v, id) ==> HasId(w, id)
  {
    if HasId(v, id) {
      var i :| 0 <= i < |v| && v[i].id == id;
      assert w[i].id == id;
    }
  }

  lemma SentMessageOk(cfg: Config, s: Sys, step: SysStep, s': Sys, m: Msg<Body>)
    requires SysInv(cfg, s) && SysEnabled(cfg, s, step) && s' == SysApply(cfg, s, step) && SysWellFormed(cfg, s')
    requires step.Main? && NextAction(cfg, s, step.id).SendBody? && NewPut(cfg, s, step) == [m]
    ensures MessageOk(cfg, s', step.id, m)
  {
    hide SysInv, SysApply, ProcessOk, MainAction, MainOk, BodyOk, OwnKeys, HistInv, MessagesOk, WellFormed;
    Basics(cfg, s);
    var id := step.id;
    var p, a := s.hist.ring.procs[id], s.apps[id];
    ProcessIs(cfg, s, id);
    TableIs(cfg, s, id);
    GrowsAfter(cfg, s, step, s', id);
    SentBodyOk(cfg, id, p, a, s'.hist.ring.procs[id].finishIndex, s'.apps[Succ(|s.apps|, id)].underSales);
  }

  lemma TableIs(cfg: Config, s: Sys, u: nat)
    requires SysInv(cfg, s) && u < |s.apps|
    ensures TableOk(cfg, u, s.hist.ring.procs[u].finishIndex, s.apps[u], s.hist.got[u])
    ensures IdSet(s.apps[u].table) <= OwnKeys(cfg, u) && DistinctIds(s.apps[u].table)
  {
    hide SysInv, MainOk, TotalsOk, UndersOk, SentOk, PassesOn, Tally, WellFormed, HistInv, MessagesOk;
    Basics(cfg, s);
    ProcessIs(cfg, s, u);
  }

  lemma SentBodyOk(cfg: Config, id: nat, p: Proc, a: App, round': nat, known': seq<PartData>)
    requires Sized(cfg) && id < |cfg.parts| && MainOk(cfg, id, p, a) && IdSet(a.table) <= OwnKeys(cfg, id)
    requires MainAction(cfg, id, p.finishIndex, a).SendBody? && p.pc == Working && p.finishIndex <= round'
    ensures BodyOk(cfg, id, Data(id, p.finishIndex, MainAction(cfg, id, p.finishIndex, a).body), round', known')
  {
    hide IsUnder, OwnKeys, KeysAt;
    if p.finishIndex == 2 {
      assert a.table[a.pos] in a.table;
      assert a.table[a.pos].id in IdSet(a.table);
    }
  }

  lemma PassedMessageOk(cfg: Config, s: Sys, step: SysStep, s': Sys, m: Msg<Body>)
    requires SysInv(cfg, s) && SysEnabled(cfg, s, step) && s' == SysApply(cfg, s, step) && SysWellFormed(cfg, s')
    requires step.Serve? && NewPut(cfg, s, step) == [m]
    ensures MessageOk(cfg, s', step.id, m)
  {
    hide OwnedOnce, SysInv, SysApply, KeysAt, OnBody, BodyOk, Trail, InChan, Readable, HistInv, MessagesOk, WellFormed;
    Basics(cfg, s);
    var id, p, h, v := step.id, s.hist.ring.procs[step.id], Head(s.hist.ring, step.id), Succ(|s.apps|, step.id);
    ReadMessage(cfg, s, id);
    HeadIsReadable(cfg, s, id);
    GrowsAfter(cfg, s, step, s', h.origin);
    if h.origin == id && h.body.OrderMsg? {
      ReturnsHomeless(cfg, s, id);
    }
    if h.origin == id && h.body.UnderMsg? {
      KnownToSuccessor(cfg, s, id);
      GrowsAfter(cfg, s, step, s', v);
      KeepsId(s.apps[v].underSales, s'.apps[v].underSales, h.body.part.id);
    }
    PassedBodyOk(cfg, id, p, s.apps[id], h, Pred(|s.apps|, id), s.hist.ring.procs[h.origin].finishIndex, s.apps[id].underSales,
                 s'.hist.ring.procs[h.origin].finishIndex, s'.apps[v].underSales);
  }

  lemma PassedBodyOk(cfg: Config, id: nat, p: Proc, a: App, h: Msg<Body>, u: nat, round: nat, known: seq<PartData>,
                     round': nat, known': seq<PartData>)
    requires id < |cfg.parts| == |cfg.orders| && u < |cfg.parts| && h.Data? && h.origin < |cfg.parts|
    requires BodyOk(cfg, u, h, round, known) && Readable(cfg, id, p, a, h) && Reads(cfg, id, a, h).1
    requires round <= round' && (h.body.UnderMsg? && h.origin == id ==> HasId(known', h.body.part.id))
    requires h.body.OrderMsg? && h.origin == id ==> !Stored(cfg, h.body.order.key)
    ensures BodyOk(cfg, id, SentOn(p, id, h), round', known')
  {
    hide OwnedOnce, KeysAt, OwnKeys, MergeIn, Stored;
  }

  /** When an under-sale message has come all the way round, the process after its creator knows it. */
  lemma KnownToSuccessor(cfg: Config, s: Sys, id: nat)
    requires SysInv(cfg, s) && SysEnabled(cfg, s, Serve(id))
    requires Head(s.hist.ring, id).Data? && Head(s.hist.ring, id).body.UnderMsg? && Head(s.hist.ring, id).origin == id
    ensures HasId(s.apps[Succ(|s.apps|, id)].underSales, Head(s.hist.ring, id).body.part.id)
  {
    hide OwnedOnce, SysInv, KeysAt, OwnKeys, Records, Pick, HistInv, MessagesOk, WellFormed;
    Basics(cfg, s);
    var n, u, m, v := |s.apps|, Pred(|s.apps|, id), Head(s.hist.ring, id), Succ(|s.apps|, id);
    ReadMessage(cfg, s, id);
    ListIs(cfg, s, v);
    assert Dist(n, id, v) <= Dist(n, id, u) && v != id;
    assert m in s.hist.got[v];
  }

  lemma MessagesAfter(cfg: Config, s: Sys, step: SysStep, s': Sys)
    requires SysInv(cfg, s) && SysEnabled(cfg, s, step) && s' == SysApply(cfg, s, step) && SysWellFormed(cfg, s')
    ensures MessagesOk(cfg, s')
  {
    hide OwnedOnce, SysInv, SysApply, MessageOk, NextApp, HistInv, WellFormed;
    Basics(cfg, s);
    LogsAfter(cfg, s, step, s');
    forall u: nat, m | u < |s'.apps| && m in s'.hist.put[u] ensures MessageOk(cfg, s', u, m) {
      if m in s.hist.put[u] {
        OldMessageOk(cfg, s, step, s', u, m);
      } else if step.Main? {
        SentMessageOk(cfg, s, step, s', m);
      } else {
        PassedMessageOk(cfg, s, step, s', m);
      }
    }
  }

  /** Every step of every thread keeps the invariant of the base calculation, for any data. */
  lemma StepKeepsSysInv(cfg: Config, s: Sys, step: SysStep)
    requires SysInv(cfg, s) && SysEnabled(cfg, s, step)
    ensures SysInv(cfg, SysApply(cfg, s, step))
  {
    hide OwnedOnce, SysApply, ProcessesOk, MessagesOk, HistInv, WellFormed;
    var s' := SysApply(cfg, s, step);
    HistAfter(cfg, s, step, s');
    ProcessesAfter(cfg, s, step, s');
    MessagesAfter(cfg, s, step, s');
  }
}
