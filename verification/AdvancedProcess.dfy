/** The advanced calculation process by process: what one statement of the main thread, one step of the
    barrier and one message read by the server do to the part table, the sales table, the final totals
    and the messages sent of their process.  Most lemmas keep one part of `ProcessOk`;
    `ActionKeepsProcess`, `BarrierKeepsProcess`, `LeavingKeepsProcess` and `ServeKeepsProcess` put the
    parts together. */
module AdvancedProcess {
  import Sequences
  import opened Barrier
  import opened History
  import opened Query
  import opened BrandTables
  import opened SalesSums
  import opened AdvancedCalculator
  import opened AdvancedInvariant

  lemma {:induction false} DataMsgsConcat(u: nat, stamp: nat, a: seq<PartData>, b: seq<PartData>)
    ensures DataMsgs(u, stamp, a + b) == DataMsgs(u, stamp, a) + DataMsgs(u, stamp, b)
  {
    if a == [] {
      assert a + b == b;
    } else {
      assert (a + b)[1..] == a[1..] + b;
      DataMsgsConcat(u, stamp, a[1..], b);
    }
  }

  lemma DataMsgsMore(u: nat, stamp: nat, v: seq<PartData>, k: nat)
    requires k < |v|
    ensures DataMsgs(u, stamp, v[..k + 1]) == DataMsgs(u, stamp, v[..k]) + [Data(u, stamp, DataMsg(v[k]))]
  {
    assert v[..k + 1] == v[..k] + [v[k]];
    DataMsgsConcat(u, stamp, v[..k], [v[k]]);
    assert [v[k]][1..] == [];
    assert DataMsgs(u, stamp, [v[k]]) == [Data(u, stamp, DataMsg(v[k]))];
  }

  lemma {:induction false} WeighNonNegative(l: seq<Msg<Body>>, key: int)
    ensures 0.0 <= Weigh(l, RecordWorth(Marks(key)))
  {
    if l != [] {
      WeighNonNegative(l[1..], key);
    }
  }

  lemma MarksNonNegative(cfg: Config, u: nat, round: nat, a: App, got: seq<Msg<Body>>, key: int)
    requires u < |cfg.parts| == |cfg.orders|
    ensures 0.0 <= Tally(cfg, u, round, a, got, Marks(key))
  {
    WorthNonNegative(Done(cfg, u, round, a), key);
    WeighNonNegative(Pick(got, Records()), key);
  }

  // ---- the table ----

  /** Merging a record keeps the table, if the tally grows by the same entry. */
  lemma MergeKeepsTable(cfg: Config, u: nat, round: nat, a: App, got: seq<Msg<Body>>, d: PartData, a': App, got': seq<Msg<Body>>)
    requires u < |cfg.parts| == |cfg.orders| && TableOk(cfg, u, round, a, got) && Labelled(AllParts(cfg), d)
    requires a'.table == MergeIn(a.table, d)
    requires
      forall w: What :: Tally(cfg, u, round, a', got', w) == Tally(cfg, u, round, a, got, w) + Entry(d, w)
    ensures TableOk(cfg, u, round, a', got')
  {
    hide Tally, MergeIn, Labelled, AllParts;
    MergeInKeepsIds(a.table, d);
    MergeInLabels(a.table, d, AllParts(cfg));
    forall w: What | !w.Marks? ensures TableSum(a'.table, w) == Tally(cfg, u, round, a', got', w) {
      MergeInAdds(a.table, d, w);
    }
    forall key ensures key in IdSet(a'.table) <==> 0.0 < Tally(cfg, u, round, a', got', Marks(key)) {
      MarksNonNegative(cfg, u, round, a, got, key);
      assert Entry(d, Marks(key)) == if d.id == key then 1.0 else 0.0;
    }
  }

  lemma {:induction false} LastRow(parts: seq<Part>, key: int, part: Part)
    requires DistinctKeys(parts) && part in parts && part.key == key
    ensures PartRow(parts, key) == part
  {
    var last := parts[|parts| - 1];
    if last.key != key {
      assert parts == parts[..|parts| - 1] + [last];
      LastRow(parts[..|parts| - 1], key, part);
    }
  }

  /** A known part has the same row everywhere. */
  lemma BookingIsLabelled(cfg: Config, u: nat, a: App, got: seq<Msg<Body>>, o: Order)
    requires ValidData(cfg) && u < |cfg.parts| && PartsOk(cfg, u, a, got) && o.key in KeySet(a.parts)
    ensures Labelled(AllParts(cfg), Booking(a.parts, o))
  {
    var part :| part in a.parts && part.key == o.key;
    LastRow(a.parts, o.key, part);
    LastRow(AllParts(cfg), o.key, part);
  }

  // ---- the main thread ----

  ghost function Sends(action: Action, u: nat, round: nat): seq<Msg<Body>> {
    if action.SendBody? then [Data(u, round, action.body)] else []
  }

  lemma FloodMain0(cfg: Config, u: nat, p: Proc, a: App, put: seq<Msg<Body>>)
    requires Sized(cfg) && u < |cfg.parts| && MainOk(cfg, u, p, a) && FloodOk(cfg, u, 0, a, put) && p.finishIndex == 0
    requires a.sub == 0 ==> |cfg.parts[u]| <= |a.parts|
    ensures
      var action := MainAction(cfg, u, 0, a);
      action.SendBody? || action.Compute? ==> FloodOk(cfg, u, 0, action.app, put + Sends(action, u, 0))
  {
    hide IsUnder, MergeIn;
    var action := MainAction(cfg, u, 0, a);
    if action.SendBody? || action.Compute? {
      var put' := put + Sends(action, u, 0);
      forall i | 0 <= i < |a.parts|
        ensures Announced(put', a.parts[i]) || (i < |cfg.parts[u]| && (action.app.sub == 0 || action.app.pos <= i))
      {
        if Announced(put, a.parts[i]) {
          StillAnnounced(put, Sends(action, u, 0), a.parts[i]);
        } else if action.SendBody? && i == a.pos {
          assert put'[|put|] == Data(u, 0, PartMsg(a.parts[i]));
        }
      }
    }
  }

  lemma StillAnnounced(put: seq<Msg<Body>>, more: seq<Msg<Body>>, part: Part)
    requires Announced(put, part)
    ensures Announced(put + more, part)
  {
    var m :| m in put && m.Data? && m.body == PartMsg(part);
    assert m in put + more;
  }

  lemma FloodKept(cfg: Config, u: nat, round: nat, a: App, b: App, put: seq<Msg<Body>>, more: seq<Msg<Body>>)
    requires u < |cfg.parts| && FloodOk(cfg, u, round, a, put) && b.parts == a.parts && round > 0
    ensures FloodOk(cfg, u, round, b, put + more)
  {
    forall i | 0 <= i < |b.parts| ensures Announced(put + more, b.parts[i]) {
      StillAnnounced(put, more, b.parts[i]);
    }
  }

  lemma TableMain1(cfg: Config, u: nat, a: App, got: seq<Msg<Body>>)
    requires ValidData(cfg) && u < |cfg.parts| && TableOk(cfg, u, 1, a, got) && PartsOk(cfg, u, a, got)
    requires a.pos < |cfg.orders[u]| && KeySet(a.parts) == KeySet(AllParts(cfg)) && a.sub > 0
    ensures TableOk(cfg, u, 1, MainAction(cfg, u, 1, a).app, got)
  {
    hide MergeIn, Labelled, DistinctKeys, AllParts, TableOk;
    var o := cfg.orders[u][a.pos];
    Sequences.InFlatten(cfg.orders, u, o);
    BookingIsLabelled(cfg, u, a, got, o);
    var b := MainAction(cfg, u, 1, a).app;
    forall w: What
      ensures Tally(cfg, u, 1, b, got, w) == Tally(cfg, u, 1, a, got, w) + Entry(Booking(a.parts, o), w)
    {
      assert cfg.orders[u][..a.pos + 1] == cfg.orders[u][..a.pos] + [o];
      WorthConcat(cfg.orders[u][..a.pos], [o], w);
      assert WorthAll([o], w) == Worth(o, w) == Entry(Booking(a.parts, o), w);
    }
    MergeKeepsTable(cfg, u, 1, a, got, Booking(a.parts, o), b, got);
  }

  /** The tally depends on the loop counter in round 1 only. */
  lemma SameTable(cfg: Config, u: nat, round: nat, a: App, b: App, got: seq<Msg<Body>>)
    requires u < |cfg.parts| == |cfg.orders| && TableOk(cfg, u, round, a, got)
    requires b.table == a.table && (round == 1 ==> b.pos == a.pos)
    ensures TableOk(cfg, u, round, b, got)
  {
    hide Labelled, AllParts;
    assert forall w: What :: Tally(cfg, u, round, b, got, w) == Tally(cfg, u, round, a, got, w);
  }

  /** Sending a record. */
  lemma SentMore(cfg: Config, u: nat, round: nat, a: App, put: seq<Msg<Body>>)
    requires Sized(cfg) && u < |cfg.parts| && SentOk(cfg, u, round, a, put)
    requires u != cfg.selectIdx && round == Turn(cfg, u) && a.pos < |a.table|
    ensures SentOk(cfg, u, round, a.(pos := a.pos + 1), put + [Data(u, round, DataMsg(a.table[a.pos]))])
  {
    hide Pick, DataMsgs;
    PickMore(put, Data(u, round, DataMsg(a.table[a.pos])), Records());
    DataMsgsMore(u, round, a.table, a.pos);
  }

  /** A message that is no record. */
  lemma NothingSent(cfg: Config, u: nat, round: nat, a: App, b: App, put: seq<Msg<Body>>, more: seq<Msg<Body>>)
    requires Sized(cfg) && u < |cfg.parts| && SentOk(cfg, u, round, a, put) && |more| <= 1
    requires more != [] ==> !Records()(more[0])
    requires SentPart(cfg, u, round, b) == SentPart(cfg, u, round, a)
    ensures SentOk(cfg, u, round, b, put + more)
  {
    hide Pick, DataMsgs, SentPart;
    if more == [] {
      assert put + more == put;
    } else {
      assert more == [more[0]];
      PickMore(put, more[0], Records());
    }
  }

  lemma {:induction false} SaleSumMore(v: seq<PartData>, k: nat)
    requires k < |v|
    ensures SaleSum(v[..k + 1]) == SaleSum(v[..k]) + v[k].saleCount
  {
    assert v[..k + 1][..k] == v[..k];
  }

  lemma FinalMain(cfg: Config, u: nat, p: Proc, a: App)
    requires Sized(cfg) && u < |cfg.parts| && MainOk(cfg, u, p, a) && FinalOk(cfg, u, p.finishIndex, a)
    requires MainAction(cfg, u, p.finishIndex, a).Compute?
    requires p.finishIndex == |cfg.parts| + 2
    ensures FinalOk(cfg, u, p.finishIndex, MainAction(cfg, u, p.finishIndex, a).app)
  {
    hide IsUnder;
    var v, b := a.table, MainAction(cfg, u, p.finishIndex, a).app;
    assert v[..0] == [] && v[..|v|] == v;
    if a.pos < |v| {
      SaleSumMore(v, a.pos);
      assert v[..a.pos + 1] == v[..a.pos] + [v[a.pos]];
      UnderListConcat(v[..a.pos], [v[a.pos]], (a.totalSales, a.partCount));
      assert [v[a.pos]][1..] == [];
    }
  }

  lemma OtherMain(cfg: Config, u: nat, p: Proc, a: App, got: seq<Msg<Body>>)
    requires Sized(cfg) && u < |cfg.parts| && MainOk(cfg, u, p, a) && p.pc == Working
    requires PartsOk(cfg, u, a, got) && CountOk(p.finishIndex, a)
    requires MainAction(cfg, u, p.finishIndex, a).Compute? || MainAction(cfg, u, p.finishIndex, a).SendBody?
    requires p.finishIndex == 1 && a.pos < |cfg.orders[u]| ==> cfg.orders[u][a.pos].key in KeySet(a.parts)
    ensures
      var b := MainAction(cfg, u, p.finishIndex, a).app;
      MainOk(cfg, u, p, b) && PartsOk(cfg, u, b, got) && CountOk(p.finishIndex, b) && b.parts == a.parts
  {
    hide IsUnder, MergeIn, Booking, DistinctKeys, AllParts, KeySet;
  }

  lemma OrderIsKnown(cfg: Config, u: nat, i: nat)
    requires ValidData(cfg) && u < |cfg.orders| && i < |cfg.orders[u]|
    ensures cfg.orders[u][i].key in KeySet(AllParts(cfg))
  {
    Sequences.InFlatten(cfg.orders, u, cfg.orders[u][i]);
  }

  lemma Action0(cfg: Config, u: nat, p: Proc, a: App, put: seq<Msg<Body>>, got: seq<Msg<Body>>)
    requires Sized(cfg) && u < |cfg.parts| && ProcessOk(cfg, u, p, a, put, got) && p.pc == Working && p.finishIndex == 0
    requires !MainAction(cfg, u, 0, a).EnterBarrier?
    ensures var action := MainAction(cfg, u, 0, a); ProcessOk(cfg, u, p, action.app, put + Sends(action, u, 0), got)
  {
    hide TableOk, SentOk, FloodOk, MainOk, CountOk, IsUnder, MergeIn, Booking, DistinctKeys;
    var action := MainAction(cfg, u, 0, a);
    OtherMain(cfg, u, p, a, got);
    FloodMain0(cfg, u, p, a, put);
    SameTable(cfg, u, 0, a, action.app, got);
    NothingSent(cfg, u, 0, a, action.app, put, Sends(action, u, 0));
  }

  lemma Action1(cfg: Config, u: nat, p: Proc, a: App, put: seq<Msg<Body>>, got: seq<Msg<Body>>)
    requires ValidData(cfg) && u < |cfg.parts| && ProcessOk(cfg, u, p, a, put, got) && p.pc == Working && p.finishIndex == 1
    requires !MainAction(cfg, u, 1, a).EnterBarrier? && KeySet(a.parts) == KeySet(AllParts(cfg))
    ensures var action := MainAction(cfg, u, 1, a); ProcessOk(cfg, u, p, action.app, put + Sends(action, u, 1), got)
  {
    hide TableOk, SentOk, FloodOk, PartsOk, CountOk, IsUnder, MergeIn, Booking, DistinctKeys;
    var action := MainAction(cfg, u, 1, a);
    if a.pos < |cfg.orders[u]| {
      OrderIsKnown(cfg, u, a.pos);
    }
    OtherMain(cfg, u, p, a, got);
    FloodKept(cfg, u, 1, a, action.app, put, []);
    if a.sub == 0 {
      SameTable(cfg, u, 1, a, action.app, got);
    } else {
      TableMain1(cfg, u, a, got);
    }
    NothingSent(cfg, u, 1, a, action.app, put, []);
  }

  lemma Action2(cfg: Config, u: nat, p: Proc, a: App, put: seq<Msg<Body>>, got: seq<Msg<Body>>)
    requires Sized(cfg) && u < |cfg.parts| && ProcessOk(cfg, u, p, a, put, got) && p.pc == Working
    requires 2 <= p.finishIndex <= |cfg.parts| && !MainAction(cfg, u, p.finishIndex, a).EnterBarrier?
    ensures
      var action := MainAction(cfg, u, p.finishIndex, a);
      ProcessOk(cfg, u, p, action.app, put + Sends(action, u, p.finishIndex), got)
  {
    hide TableOk, SentOk, FloodOk, PartsOk, CountOk, IsUnder, MergeIn, Booking, DistinctKeys;
    var round := p.finishIndex;
    var action := MainAction(cfg, u, round, a);
    assert u != cfg.selectIdx && Turn(cfg, u) == round;
    OtherMain(cfg, u, p, a, got);
    FloodKept(cfg, u, round, a, action.app, put, Sends(action, u, round));
    SameTable(cfg, u, round, a, action.app, got);
    SentMore(cfg, u, round, a, put);
  }

  lemma Action3(cfg: Config, u: nat, p: Proc, a: App, put: seq<Msg<Body>>, got: seq<Msg<Body>>)
    requires Sized(cfg) && u < |cfg.parts| && ProcessOk(cfg, u, p, a, put, got) && p.pc == Working
    requires p.finishIndex == |cfg.parts| + 2 && MainAction(cfg, u, p.finishIndex, a).Compute?
    ensures ProcessOk(cfg, u, p, MainAction(cfg, u, p.finishIndex, a).app, put, got)
  {
    hide TableOk, SentOk, FloodOk, PartsOk, CountOk, FinalOk, IsUnder, MergeIn, Booking, DistinctKeys;
    var round, b := p.finishIndex, MainAction(cfg, u, p.finishIndex, a).app;
    OtherMain(cfg, u, p, a, got);
    FinalMain(cfg, u, p, a);
    FloodKept(cfg, u, round, a, b, put, []);
    SameTable(cfg, u, round, a, b, got);
    NothingSent(cfg, u, round, a, b, put, []);
    assert put + [] == put;
  }

  /** A statement of the main thread. */
  lemma ActionKeepsProcess(cfg: Config, u: nat, p: Proc, a: App, put: seq<Msg<Body>>, got: seq<Msg<Body>>)
    requires ValidData(cfg) && u < |cfg.parts| && ProcessOk(cfg, u, p, a, put, got) && p.pc == Working
    requires MainAction(cfg, u, p.finishIndex, a).Compute? || MainAction(cfg, u, p.finishIndex, a).SendBody?
    requires p.finishIndex == 1 ==> KeySet(a.parts) == KeySet(AllParts(cfg))
    ensures
      var action := MainAction(cfg, u, p.finishIndex, a);
      ProcessOk(cfg, u, p, action.app, put + Sends(action, u, p.finishIndex), got)
  {
    hide ProcessOk, IsUnder, MergeIn, Booking, DistinctKeys;
    assert put + [] == put;
    if p.finishIndex == 0 {
      Action0(cfg, u, p, a, put, got);
    } else if p.finishIndex == 1 {
      Action1(cfg, u, p, a, put, got);
    } else if p.finishIndex <= |cfg.parts| {
      Action2(cfg, u, p, a, put, got);
    } else {
      MainIs(cfg, u, p, a, put, got);
      Action3(cfg, u, p, a, put, got);
    }
  }

  lemma MainIs(cfg: Config, u: nat, p: Proc, a: App, put: seq<Msg<Body>>, got: seq<Msg<Body>>)
    requires Sized(cfg) && u < |cfg.parts| && ProcessOk(cfg, u, p, a, put, got)
    ensures MainOk(cfg, u, p, a) && p.finishIndex <= |cfg.parts| + 2
  {
    hide PartsOk, FloodOk, TableOk, CountOk, SentOk, FinalOk, MainAction;
  }

  // ---- the barrier ----

  lemma BarrierKeepsProcess(cfg: Config, u: nat, p: Proc, p': Proc, a: App, put: seq<Msg<Body>>, got: seq<Msg<Body>>)
    requires Sized(cfg) && u < |cfg.parts| && ProcessOk(cfg, u, p, a, put, got) && p'.finishIndex == p.finishIndex
    requires Inside(p') ==> MainAction(cfg, u, p.finishIndex, a).EnterBarrier?
    ensures ProcessOk(cfg, u, p', a, put, got)
  {
    hide PartsOk, FloodOk, TableOk, CountOk, SentOk, FinalOk, MainAction;
  }

  lemma LeavingMain(cfg: Config, u: nat, p: Proc, a: App)
    requires Sized(cfg) && u < |cfg.parts| && MainOk(cfg, u, p, a) && p.pc == Woken
    ensures MainOk(cfg, u, Leaving(p), a.(pos := 0, sub := 0)) && p.finishIndex <= |cfg.parts| + 1
    ensures p.finishIndex <= 1 ==> a.sub > 0
    ensures p.finishIndex == 0 ==> |cfg.parts[u]| <= a.size <= a.pos || a.pos == |a.parts|
    ensures p.finishIndex == 1 ==> a.pos == |cfg.orders[u]|
    ensures u != cfg.selectIdx && p.finishIndex == Turn(cfg, u) ==> a.pos == |a.table|
  {
    hide IsUnder, MergeIn, Booking;
  }

  lemma LeavingTable(cfg: Config, u: nat, round: nat, a: App, b: App, got: seq<Msg<Body>>)
    requires u < |cfg.parts| == |cfg.orders| && TableOk(cfg, u, round, a, got) && b == a.(pos := 0, sub := 0)
    requires round == 1 ==> a.pos == |cfg.orders[u]|
    ensures TableOk(cfg, u, round + 1, b, got)
  {
    hide Labelled, AllParts;
    assert cfg.orders[u][..|cfg.orders[u]|] == cfg.orders[u] && cfg.orders[u][..0] == [];
    assert Done(cfg, u, round + 1, b) == Done(cfg, u, round, a);
    assert forall w: What :: Tally(cfg, u, round + 1, b, got, w) == Tally(cfg, u, round, a, got, w);
  }

  lemma LeavingSent(cfg: Config, u: nat, round: nat, a: App, b: App, put: seq<Msg<Body>>)
    requires Sized(cfg) && u < |cfg.parts| && SentOk(cfg, u, round, a, put) && b == a.(pos := 0, sub := 0)
    requires u != cfg.selectIdx && round == Turn(cfg, u) ==> a.pos == |a.table|
    ensures SentOk(cfg, u, round + 1, b, put)
  {
    hide Pick, DataMsgs;
    assert a.table[..0] == [] && a.table[..|a.table|] == a.table;
    assert SentPart(cfg, u, round + 1, b) == SentPart(cfg, u, round, a);
  }

  lemma LeavingKeepsProcess(cfg: Config, u: nat, p: Proc, a: App, put: seq<Msg<Body>>, got: seq<Msg<Body>>)
    requires Sized(cfg) && u < |cfg.parts| && ProcessOk(cfg, u, p, a, put, got) && p.pc == Woken
    ensures ProcessOk(cfg, u, Leaving(p), a.(pos := 0, sub := 0), put, got)
  {
    hide TableOk, SentOk, MainOk, DistinctKeys, AllParts, Announced;
    var b := a.(pos := 0, sub := 0);
    LeavingMain(cfg, u, p, a);
    LeavingTable(cfg, u, p.finishIndex, a, b, got);
    LeavingSent(cfg, u, p.finishIndex, a, b, put);
  }

  // ---- the server thread ----

  /** What is known of the message that `u` reads next. */
  ghost predicate Readable(cfg: Config, u: nat, p: Proc, a: App, m: Msg<Body>)
    requires Sized(cfg) && u < |cfg.parts|
  {
    && m.Data? && p.finishIndex <= m.stamp
    && match m.body
       case PartMsg(part) =>
         m.stamp == 0 && part in AllParts(cfg) && (m.origin == u ==> part.key in KeySet(a.parts))
       case DataMsg(d) => m.stamp < Turn(cfg, u) && Labelled(AllParts(cfg), d)
  }

  ghost function SendsOn(u: nat, p: Proc, a: App, m: Msg<Body>): seq<Msg<Body>>
    requires m.Data?
  {
    if OnBody(a, m.body).1 then [SentOn(p, u, m)] else []
  }

  lemma ServeParts(cfg: Config, u: nat, p: Proc, a: App, got: seq<Msg<Body>>, m: Msg<Body>)
    requires Sized(cfg) && u < |cfg.parts| && PartsOk(cfg, u, a, got) && Readable(cfg, u, p, a, m)
    ensures PartsOk(cfg, u, OnBody(a, m.body).0, got + [m])
  {
    hide MergeIn, AllParts;
    var b := OnBody(a, m.body).0;
    assert forall part :: part in a.parts ==> part in b.parts;
    assert KeySet(a.parts) <= KeySet(b.parts);
    if m.body.PartMsg? && m.body.part.key !in KeySet(a.parts) {
      assert b.parts[|a.parts|] == m.body.part && m.body.part in b.parts;
      forall i | 0 <= i < |a.parts| ensures b.parts[i].key != m.body.part.key {
        assert a.parts[i] in a.parts;
      }
    }
  }

  lemma ServeFlood(cfg: Config, u: nat, p: Proc, a: App, got: seq<Msg<Body>>, put: seq<Msg<Body>>, m: Msg<Body>)
    requires Sized(cfg) && u < |cfg.parts| && PartsOk(cfg, u, a, got) && FloodOk(cfg, u, p.finishIndex, a, put)
    requires Readable(cfg, u, p, a, m)
    ensures FloodOk(cfg, u, p.finishIndex, OnBody(a, m.body).0, put + SendsOn(u, p, a, m))
  {
    hide MergeIn, AllParts, DistinctKeys;
    var b, more := OnBody(a, m.body).0, SendsOn(u, p, a, m);
    forall i | 0 <= i < |b.parts|
      ensures Announced(put + more, b.parts[i]) || (p.finishIndex == 0 && i < |cfg.parts[u]| && (b.sub == 0 || b.pos <= i))
    {
      if i < |a.parts| {
        if Announced(put, a.parts[i]) {
          StillAnnounced(put, more, a.parts[i]);
        }
      } else {
        assert (put + more)[|put|] == SentOn(p, u, m);
      }
    }
  }

  lemma ServeTable(cfg: Config, u: nat, p: Proc, a: App, got: seq<Msg<Body>>, m: Msg<Body>)
    requires Sized(cfg) && u < |cfg.parts| && TableOk(cfg, u, p.finishIndex, a, got) && Readable(cfg, u, p, a, m)
    ensures TableOk(cfg, u, p.finishIndex, OnBody(a, m.body).0, got + [m])
  {
    hide MergeIn, AllParts, Labelled, KeySet, Pick, Weigh, WorthAll, TableOk;
    var b, round := OnBody(a, m.body).0, p.finishIndex;
    forall w: What
      ensures Tally(cfg, u, round, b, got + [m], w) == Tally(cfg, u, round, a, got, w) +
              if m.body.DataMsg? then Entry(m.body.data, w) else 0.0
    {
      WeighMore(got, m, Records(), RecordWorth(w));
    }
    if m.body.DataMsg? {
      MergeKeepsTable(cfg, u, round, a, got, m.body.data, b, got + [m]);
    } else {
      TableKept(cfg, u, round, a, b, got, got + [m]);
    }
  }

  lemma TableKept(cfg: Config, u: nat, round: nat, a: App, b: App, got: seq<Msg<Body>>, got': seq<Msg<Body>>)
    requires u < |cfg.parts| == |cfg.orders| && TableOk(cfg, u, round, a, got) && b.table == a.table
    requires forall w: What :: Tally(cfg, u, round, b, got', w) == Tally(cfg, u, round, a, got, w)
    ensures TableOk(cfg, u, round, b, got')
  {
    hide Tally, Labelled, AllParts;
  }

  lemma ServeRest(cfg: Config, u: nat, p: Proc, a: App, m: Msg<Body>)
    requires Sized(cfg) && u < |cfg.parts| && Readable(cfg, u, p, a, m)
    requires MainOk(cfg, u, p, a) && CountOk(p.finishIndex, a) && FinalOk(cfg, u, p.finishIndex, a)
    ensures
      var b := OnBody(a, m.body).0;
      && MainOk(cfg, u, p, b) && CountOk(p.finishIndex, b) && FinalOk(cfg, u, p.finishIndex, b)
      && SentPart(cfg, u, p.finishIndex, b) == SentPart(cfg, u, p.finishIndex, a)
  {
    hide IsUnder, Line, KeySet, AllParts, Summed;
    if m.body.DataMsg? {
      MergeInGrows(a.table, m.body.data);
    }
    hide MergeIn;
  }

  lemma {:induction false} MergeInGrows(v: seq<PartData>, d: PartData)
    ensures |v| <= |MergeIn(v, d)|
  {
    if v != [] && v[0].id != d.id {
      MergeInGrows(v[1..], d);
    }
  }

  /** A message read by the server. */
  lemma ServeKeepsProcess(cfg: Config, u: nat, p: Proc, a: App, put: seq<Msg<Body>>, got: seq<Msg<Body>>, m: Msg<Body>)
    requires Sized(cfg) && u < |cfg.parts| && ProcessOk(cfg, u, p, a, put, got) && Readable(cfg, u, p, a, m)
    ensures ProcessOk(cfg, u, p, OnBody(a, m.body).0, put + SendsOn(u, p, a, m), got + [m])
  {
    hide MainOk, PartsOk, FloodOk, TableOk, CountOk, SentOk, FinalOk, MergeIn, KeySet, AllParts;
    ServeParts(cfg, u, p, a, got, m);
    ServeFlood(cfg, u, p, a, got, put, m);
    ServeTable(cfg, u, p, a, got, m);
    ServeRest(cfg, u, p, a, m);
    NothingSent(cfg, u, p.finishIndex, a, OnBody(a, m.body).0, put, SendsOn(u, p, a, m));
  }
}
