/** The base calculation process by process: what one statement of the main thread, one step of the
    barrier and one message read by the server do to the sales table, the totals, the list of under-sale
    parts, the messages sent and the messages passed on of their process.  Most lemmas keep one part of
    `ProcessOk`; `ActionKeepsProcess`, `BarrierKeepsProcess`, `LeavingKeepsProcess` and
    `ServeKeepsProcess` put the parts together. */
module BaseProcess {
  import Sequences
  import Topology
  import opened Barrier
  import opened History
  import opened Query
  import opened BrandTables
  import opened SalesSums
  import opened BaseCalculator
  import opened BaseInvariant
  import opened BaseSums

  lemma OrderIsOrdered(cfg: Config, p: nat, o: Order)
    requires p < |cfg.orders| && o in cfg.orders[p]
    ensures o.key in OrderedKeys(cfg)
  {
    Sequences.InFlatten(cfg.orders, p, o);
  }

  // ---- the main thread, round 0 ----

  lemma CountKeepsTable(cfg: Config, u: nat, a: App, got: seq<Msg<Body>>, o: Order, round': nat, a': App, got': seq<Msg<Body>>)
    requires u < |cfg.parts| == |cfg.orders| && TableOk(cfg, u, 0, a, got) && o.key in OwnKeys(cfg, u)
    requires a'.table == Counted(cfg.parts[u], a, o).table && a'.localSales == Counted(cfg.parts[u], a, o).localSales
    requires
      forall w: What :: Tally(cfg, u, round', a', got', w) == Tally(cfg, u, 0, a, got, w) + Worth(o, w)
    ensures TableOk(cfg, u, round', a', got')
  {
    CountOne(cfg.parts[u], a, o);
    forall key ensures key in IdSet(a'.table) <==> 0.0 < Tally(cfg, u, round', a', got', Marks(key)) {
      MarksNonNegative(cfg, u, 0, a, got, key);
      assert Worth(o, Marks(key)) == if o.key == key then 1.0 else 0.0;
    }
  }

  lemma TableMain0(cfg: Config, u: nat, a: App, got: seq<Msg<Body>>)
    requires Sized(cfg) && u < |cfg.parts| && TableOk(cfg, u, 0, a, got) && a.pos < |cfg.orders[u]|
    ensures TableOk(cfg, u, 0, MainAction(cfg, u, 0, a).app, got)
  {
    var o, b := cfg.orders[u][a.pos], MainAction(cfg, u, 0, a).app;
    OrderIsOrdered(cfg, u, o);
    forall w: What
      ensures Tally(cfg, u, 0, b, got, w) == Tally(cfg, u, 0, a, got, w) + if o.key in OwnKeys(cfg, u) then Worth(o, w) else 0.0
    {
      TallyMain(cfg, u, a, got, w);
    }
    hide Tally;
    if o.key in KeysAt(cfg, u) {
      CountKeepsTable(cfg, u, a, got, o, 0, b, got);
    }
  }

  lemma OwnMessage(put: seq<Msg<Body>>, m: Msg<Body>, w: nat, keep: Msg<Body> -> bool)
    requires m.Data? && m.origin != w
    ensures Pick(put + [m], From(keep, w)) == Pick(put, From(keep, w))
  {
    PickMore(put, m, From(keep, w));
  }

  lemma OrdersSentMore(cfg: Config, u: nat, done: seq<Order>, o: Order, put: seq<Msg<Body>>)
    requires u < |cfg.parts| && OrdersSent(cfg, u, done, put)
    ensures OrdersSent(cfg, u, done + [o], put + [Data(u, 0, OrderMsg(o))])
    ensures o.key in KeysAt(cfg, u) ==> OrdersSent(cfg, u, done + [o], put)
  {
    var m: Msg<Body> := Data(u, 0, OrderMsg(o));
    forall keys: set<int> | Foreign(cfg, u, keys)
      ensures Pick(put + [m], From(OrderIn(keys), u)) == OrderMsgs(u, Taken(done + [o], keys))
      ensures o.key in KeysAt(cfg, u) ==> Pick(put, From(OrderIn(keys), u)) == OrderMsgs(u, Taken(done + [o], keys))
    {
      assert o.key in keys ==> o.key !in KeysAt(cfg, u);
      hide OrdersSent, Foreign, KeysAt;
      PickMore(put, m, From(OrderIn(keys), u));
      TakenMore(done, o, keys);
      OrderMsgsMore(u, Taken(done, keys), o);
    }
  }

  lemma OrderMsgsMore(u: nat, l: seq<Order>, o: Order)
    ensures OrderMsgs(u, l + [o]) == OrderMsgs(u, l) + [Data(u, 0, OrderMsg(o))]
  {
    OrderMsgsConcat(u, l, [o]);
    assert [o][1..] == [];
    assert OrderMsgs(u, [o]) == [Data(u, 0, OrderMsg(o))];
  }

  lemma SentMain0(cfg: Config, u: nat, a: App, put: seq<Msg<Body>>)
    requires Sized(cfg) && u < |cfg.parts| && SentOk(cfg, u, 0, a, put) && a.pos < |cfg.orders[u]|
    ensures
      var o, b := cfg.orders[u][a.pos], MainAction(cfg, u, 0, a).app;
      SentOk(cfg, u, 0, b, if o.key in KeysAt(cfg, u) then put else put + [Data(u, 0, OrderMsg(o))])
  {
    hide Pick, UnderList, UnderMsgs, Taken, MergeIn;
    var o := cfg.orders[u][a.pos];
    var m: Msg<Body> := Data(u, 0, OrderMsg(o));
    OrdersSentMore(cfg, u, cfg.orders[u][..a.pos], o, put);
    assert cfg.orders[u][..a.pos + 1] == cfg.orders[u][..a.pos] + [o];
    hide OrdersSent;
    PickMore(put, m, From(Totals(), u));
    PickMore(put, m, From(Unders(), u));
  }

  /** A message that carries no order leaves the sent orders as they are. */
  lemma NoOrderSent(cfg: Config, u: nat, done: seq<Order>, put: seq<Msg<Body>>, m: Msg<Body>)
    requires u < |cfg.parts| && OrdersSent(cfg, u, done, put) && m.Data?
    requires m.stamp != 0 || m.origin != u || !m.body.OrderMsg?
    ensures OrdersSent(cfg, u, done, put + [m])
  {
    forall keys: set<int> { PickMore(put, m, From(OrderIn(keys), u)); }
  }

  // ---- the main thread, rounds 1 and 2 ----

  lemma TotalsMain1(u: nat, a: App, got: seq<Msg<Body>>, b: App)
    requires TotalsOk(u, 1, a, got) && a.pos <= 3
    requires b == if a.pos == 0 then a.(localPartCount := a.localPartCount + |a.table|, pos := 1)
                  else if a.pos == 1 then a.(partCount := a.partCount + a.localPartCount, pos := 2)
                  else if a.pos == 2 then a.(totalSales := a.totalSales + a.localSales, pos := 3)
                  else a.(pos := 4)
    ensures TotalsOk(u, 1, b, got)
  {
  }

  lemma SentMain1(cfg: Config, u: nat, a: App, put: seq<Msg<Body>>)
    requires Sized(cfg) && u < |cfg.parts| && SentOk(cfg, u, 1, a, put) && a.pos <= 3
    ensures
      var action := MainAction(cfg, u, 1, a);
      SentOk(cfg, u, 1, action.app, if action.SendBody? then put + [Data(u, 1, action.body)] else put)
  {
    if a.pos == 3 {
      var m: Msg<Body> := Data(u, 1, MainAction(cfg, u, 1, a).body);
      PickMore(put, m, From(Totals(), u));
      PickMore(put, m, From(Unders(), u));
      NoOrderSent(cfg, u, cfg.orders[u], put, m);
      hide OrdersSent;
    }
  }

  lemma SentMain2(cfg: Config, u: nat, a: App, put: seq<Msg<Body>>)
    requires Sized(cfg) && u < |cfg.parts| && SentOk(cfg, u, 2, a, put)
    requires a.sub <= 1 && a.pos <= |a.table| && (a.sub == 0 ==> a.pos == 0)
    ensures
      var action := MainAction(cfg, u, 2, a);
      action.Compute? || action.SendBody? ==>
        SentOk(cfg, u, 2, action.app, if action.SendBody? then put + [Data(u, 2, action.body)] else put)
  {
    hide IsUnder, SentOk, KeysAt, Counted;
    if a.sub == 0 {
      SentShared(cfg, u, a, put);
    } else if a.pos < |a.table| {
      SentFound(cfg, u, a, put);
    }
  }

  lemma SentShared(cfg: Config, u: nat, a: App, put: seq<Msg<Body>>)
    requires u < |cfg.parts| == |cfg.orders| && SentOk(cfg, u, 2, a, put) && a.sub == 0 && a.pos == 0
    ensures forall pair: (int, int) :: SentOk(cfg, u, 2, a.(shared := pair, sub := 1), put)
  {
    assert forall pair :: UnderList([], pair) == [];
    assert a.table[..0] == [];
    hide UnderList, UnderMsgs, Pick, OrdersSent;
  }

  lemma SentFound(cfg: Config, u: nat, a: App, put: seq<Msg<Body>>)
    requires u < |cfg.parts| == |cfg.orders| && SentOk(cfg, u, 2, a, put) && a.sub == 1 && a.pos < |a.table|
    ensures
      var m: Msg<Body> := Data(u, 2, UnderMsg(a.table[a.pos]));
      SentOk(cfg, u, 2, a.(pos := a.pos + 1), if IsUnder(a.table[a.pos], a.shared) then put + [m] else put)
  {
    hide IsUnder, UnderList, UnderMsgs, Pick;
    var m: Msg<Body> := Data(u, 2, UnderMsg(a.table[a.pos]));
    FoundMore(u, a);
    PickMore(put, m, From(Totals(), u));
    PickMore(put, m, From(Unders(), u));
    NoOrderSent(cfg, u, cfg.orders[u], put, m);
    hide OrdersSent;
    assert UnderMsgs(u, UnderList(a.table[..a.pos], a.shared)) + [] == UnderMsgs(u, UnderList(a.table[..a.pos], a.shared));
  }

  /** One more record searched. */
  lemma FoundMore(u: nat, a: App)
    requires a.pos < |a.table|
    ensures
      var d := a.table[a.pos];
      UnderMsgs(u, UnderList(a.table[..a.pos + 1], a.shared)) ==
      UnderMsgs(u, UnderList(a.table[..a.pos], a.shared)) + if IsUnder(d, a.shared) then [Data(u, 2, UnderMsg(d))] else []
  {
    var d := a.table[a.pos];
    assert a.table[..a.pos + 1] == a.table[..a.pos] + [d];
    UnderListConcat(a.table[..a.pos], [d], a.shared);
    assert [d][1..] == [];
    var found := UnderList([d], a.shared);
    assert found == if IsUnder(d, a.shared) then [d] else [];
    UnderMsgsConcat(u, UnderList(a.table[..a.pos], a.shared), found);
    assert UnderMsgs(u, found) == if IsUnder(d, a.shared) then [Data(u, 2, UnderMsg(d))] else [];
  }

  /** What a statement of the main thread sends. */
  ghost function Sends(action: Action, u: nat, round: nat): seq<Msg<Body>> {
    if action.SendBody? then [Data(u, round, action.body)] else []
  }

  /** Everything that is known of one process except what it passes on of others. */
  ghost predicate OwnOk(cfg: Config, u: nat, p: Proc, a: App, put: seq<Msg<Body>>, got: seq<Msg<Body>>)
    requires Sized(cfg) && u < |cfg.parts|
  {
    && MainOk(cfg, u, p, a)
    && TableOk(cfg, u, p.finishIndex, a, got)
    && TotalsOk(u, p.finishIndex, a, got)
    && UndersOk(cfg, p.finishIndex, a, got)
    && SentOk(cfg, u, p.finishIndex, a, put)
  }

  lemma OtherMain0(cfg: Config, u: nat, p: Proc, a: App, got: seq<Msg<Body>>)
    requires Sized(cfg) && u < |cfg.parts| && MainOk(cfg, u, p, a) && TotalsOk(u, 0, a, got) && UndersOk(cfg, 0, a, got)
    requires p.pc == Working && p.finishIndex == 0 && a.pos < |cfg.orders[u]|
    ensures var b := MainAction(cfg, u, 0, a).app; MainOk(cfg, u, p, b) && TotalsOk(u, 0, b, got) && UndersOk(cfg, 0, b, got)
  {
    hide KeysAt, MergeIn, Line, Pick, Records, FromOthers, IsUnder;
  }

  lemma OtherMain2(cfg: Config, u: nat, p: Proc, a: App, got: seq<Msg<Body>>)
    requires Sized(cfg) && u < |cfg.parts| && MainOk(cfg, u, p, a) && TotalsOk(u, 2, a, got) && UndersOk(cfg, 2, a, got)
    requires p.pc == Working && p.finishIndex == 2 && !MainAction(cfg, u, 2, a).EnterBarrier?
    ensures var b := MainAction(cfg, u, 2, a).app; MainOk(cfg, u, p, b) && TotalsOk(u, 2, b, got) && UndersOk(cfg, 2, b, got)
  {
    hide KeysAt, MergeIn, Line, Pick, Records, FromOthers, IsUnder;
  }

  lemma Action0(cfg: Config, u: nat, p: Proc, a: App, put: seq<Msg<Body>>, got: seq<Msg<Body>>)
    requires Sized(cfg) && u < |cfg.parts| && OwnOk(cfg, u, p, a, put, got) && p.pc == Working
    requires p.finishIndex == 0 && a.pos < |cfg.orders[u]|
    ensures var action := MainAction(cfg, u, 0, a);
      (action.Compute? || action.SendBody?) && OwnOk(cfg, u, p, action.app, put + Sends(action, u, 0), got)
  {
    hide TableOk, SentOk, TotalsOk, UndersOk, MainOk, KeysAt, Counted;
    TableMain0(cfg, u, a, got);
    SentMain0(cfg, u, a, put);
    OtherMain0(cfg, u, p, a, got);
    assert put + [] == put;
  }

  lemma Action1(cfg: Config, u: nat, p: Proc, a: App, put: seq<Msg<Body>>, got: seq<Msg<Body>>)
    requires Sized(cfg) && u < |cfg.parts| && OwnOk(cfg, u, p, a, put, got) && p.pc == Working
    requires p.finishIndex == 1 && a.pos <= 3
    ensures var action := MainAction(cfg, u, 1, a);
      (action.Compute? || action.SendBody?) && OwnOk(cfg, u, p, action.app, put + Sends(action, u, 1), got)
  {
    hide TableOk, SentOk, TotalsOk, Pick, Records, KeysAt, Counted, IsUnder;
    var action := MainAction(cfg, u, 1, a);
    TotalsMain1(u, a, got, action.app);
    SentMain1(cfg, u, a, put);
    SameTable(cfg, u, 1, a, action.app, got);
    assert put + [] == put;
  }

  lemma Action2(cfg: Config, u: nat, p: Proc, a: App, put: seq<Msg<Body>>, got: seq<Msg<Body>>)
    requires Sized(cfg) && u < |cfg.parts| && OwnOk(cfg, u, p, a, put, got) && p.pc == Working
    requires p.finishIndex == 2 && !MainAction(cfg, u, 2, a).EnterBarrier?
    ensures var action := MainAction(cfg, u, 2, a);
      (action.Compute? || action.SendBody?) && OwnOk(cfg, u, p, action.app, put + Sends(action, u, 2), got)
  {
    hide TableOk, SentOk, TotalsOk, UndersOk, IsUnder, KeysAt, Counted;
    var action := MainAction(cfg, u, 2, a);
    SentMain2(cfg, u, a, put);
    SameTable(cfg, u, 2, a, action.app, got);
    OtherMain2(cfg, u, p, a, got);
    assert put + [] == put;
  }

  /** A statement of the main thread. */
  lemma ActionKeepsProcess(cfg: Config, u: nat, p: Proc, a: App, put: seq<Msg<Body>>, got: seq<Msg<Body>>)
    requires Sized(cfg) && u < |cfg.parts| && ProcessOk(cfg, u, p, a, put, got) && p.pc == Working
    requires MainAction(cfg, u, p.finishIndex, a).Compute? || MainAction(cfg, u, p.finishIndex, a).SendBody?
    ensures
      var action := MainAction(cfg, u, p.finishIndex, a);
      ProcessOk(cfg, u, p, action.app, put + Sends(action, u, p.finishIndex), got)
  {
    hide PassesOn, TableOk, TotalsOk, SentOk, UndersOk, IsUnder, KeysAt, Counted;
    var action := MainAction(cfg, u, p.finishIndex, a);
    assert put + [] == put;
    forall w: nat | w < |cfg.parts| && w != u
      ensures PassesOn(cfg, u, w, put + Sends(action, u, p.finishIndex), got)
    {
      if action.SendBody? {
        SendingPassesOn(cfg, u, w, put, got, Data(u, p.finishIndex, action.body));
      }
    }
    if p.finishIndex == 0 {
      Action0(cfg, u, p, a, put, got);
    } else if p.finishIndex == 1 {
      Action1(cfg, u, p, a, put, got);
    } else {
      Action2(cfg, u, p, a, put, got);
    }
  }

  lemma SendingPassesOn(cfg: Config, u: nat, w: nat, put: seq<Msg<Body>>, got: seq<Msg<Body>>, m: Msg<Body>)
    requires u < |cfg.parts| && PassesOn(cfg, u, w, put, got) && m.Data? && m.origin == u != w
    ensures PassesOn(cfg, u, w, put + [m], got)
  {
    OwnMessage(put, m, w, Totals());
    OwnMessage(put, m, w, Unders());
    forall keys: set<int> { OwnMessage(put, m, w, OrderIn(keys)); }
  }

  /** After round 0 the tally does not depend on the main thread. */
  lemma SameTable(cfg: Config, u: nat, round: nat, a: App, b: App, got: seq<Msg<Body>>)
    requires u < |cfg.parts| == |cfg.orders| && TableOk(cfg, u, round, a, got) && round > 0
    requires b.table == a.table && b.localSales == a.localSales
    ensures TableOk(cfg, u, round, b, got)
  {
    assert forall w: What :: Tally(cfg, u, round, b, got, w) == Tally(cfg, u, round, a, got, w);
  }

  // ---- the barrier ----

  lemma BarrierKeepsProcess(cfg: Config, u: nat, p: Proc, p': Proc, a: App, put: seq<Msg<Body>>, got: seq<Msg<Body>>)
    requires Sized(cfg) && u < |cfg.parts| && ProcessOk(cfg, u, p, a, put, got)
    requires p'.finishIndex == p.finishIndex
    requires Inside(p') ==> MainAction(cfg, u, p.finishIndex, a).EnterBarrier?
    ensures ProcessOk(cfg, u, p', a, put, got)
  {
  }

  lemma LeavingKeepsProcess(cfg: Config, u: nat, p: Proc, a: App, put: seq<Msg<Body>>, got: seq<Msg<Body>>)
    requires Sized(cfg) && u < |cfg.parts| && ProcessOk(cfg, u, p, a, put, got) && p.pc == Woken
    ensures ProcessOk(cfg, u, Leaving(p), a.(pos := 0, sub := 0), put, got)
  {
    hide IsUnder, KeysAt, TableOk, SentOk, PassesOn, TotalsOk, UndersOk;
    var b, round := a.(pos := 0, sub := 0), p.finishIndex;
    LeavingKeepsLists(cfg, u, p, a);
    LeavingKeepsTable(cfg, u, round, a, b, got);
    LeavingKeepsSent(cfg, u, round, a, b, put);
    LeavingKeepsTotals(cfg, u, round, a, b, got);
  }

  lemma LeavingKeepsLists(cfg: Config, u: nat, p: Proc, a: App)
    requires Sized(cfg) && u < |cfg.parts| && MainOk(cfg, u, p, a) && p.pc == Woken
    ensures
      var b, round := a.(pos := 0, sub := 0), p.finishIndex;
      && Done(cfg, u, round + 1, b) == Done(cfg, u, round, a) && Searched(round + 1, b) == Searched(round, a)
      && round < 3 && (round == 1 ==> a.pos == 4) && (round == 2 ==> a.sub == 1)
  {
    hide IsUnder;
    assert cfg.orders[u][..|cfg.orders[u]|] == cfg.orders[u];
    assert a.table[..|a.table|] == a.table;
  }

  lemma LeavingKeepsTotals(cfg: Config, u: nat, round: nat, a: App, b: App, got: seq<Msg<Body>>)
    requires TotalsOk(u, round, a, got) && UndersOk(cfg, round, a, got) && b == a.(pos := 0, sub := 0)
    requires (round == 1 ==> a.pos == 4) && (round == 2 ==> a.sub == 1)
    ensures TotalsOk(u, round + 1, b, got) && UndersOk(cfg, round + 1, b, got)
  {
    hide FromOthers, Records, Pick;
  }

  lemma LeavingKeepsTable(cfg: Config, u: nat, round: nat, a: App, b: App, got: seq<Msg<Body>>)
    requires u < |cfg.parts| == |cfg.orders| && TableOk(cfg, u, round, a, got)
    requires Done(cfg, u, round + 1, b) == Done(cfg, u, round, a) && b == a.(pos := 0, sub := 0)
    ensures TableOk(cfg, u, round + 1, b, got)
  {
    assert forall w: What :: Tally(cfg, u, round + 1, b, got, w) == Tally(cfg, u, round, a, got, w);
  }

  lemma LeavingKeepsSent(cfg: Config, u: nat, round: nat, a: App, b: App, put: seq<Msg<Body>>)
    requires u < |cfg.parts| == |cfg.orders| && SentOk(cfg, u, round, a, put)
    requires Done(cfg, u, round + 1, b) == Done(cfg, u, round, a) && b == a.(pos := 0, sub := 0)
    requires Searched(round + 1, b) == Searched(round, a) && (round == 1 ==> a.pos >= 4)
    ensures SentOk(cfg, u, round + 1, b, put)
  {
    hide OrdersSent;
  }

  // ---- the server thread ----

  /** What is known of the message that `u` reads next. */
  ghost predicate Readable(cfg: Config, u: nat, p: Proc, a: App, m: Msg<Body>)
    requires u < |cfg.parts|
  {
    && m.Data? && p.finishIndex <= m.stamp
    && match m.body
       case OrderMsg(o) => o.key in OrderedKeys(cfg) && (o.key in KeysAt(cfg, u) ==> m.stamp == 0 && m.origin != u)
       case TotalMsg(from, _, _) => m.stamp == 1 && from == Topology.Port(m.origin)
       case UnderMsg(part) =>
         && 2 <= m.stamp && (m.stamp > 2 ==> HasId(a.underSales, part.id))
         && (OwnedOnce(cfg) && HasId(a.underSales, part.id) ==> m.stamp > 2)
         && (m.origin == u ==> m.stamp == 2 <= p.finishIndex)
  }

  /** The application state after the message, and what is sent on. */
  ghost function Reads(cfg: Config, u: nat, a: App, m: Msg<Body>): (App, bool)
    requires u < |cfg.parts| && m.Data?
  {
    OnBody(cfg.parts[u], KeysAt(cfg, u), Topology.Port(u), a, m.body)
  }

  ghost function SendsOn(cfg: Config, u: nat, p: Proc, a: App, m: Msg<Body>): seq<Msg<Body>>
    requires u < |cfg.parts| && m.Data?
  {
    if Reads(cfg, u, a, m).1 then [SentOn(p, u, m)] else []
  }

  lemma ServeKeepsTable(cfg: Config, u: nat, p: Proc, a: App, got: seq<Msg<Body>>, m: Msg<Body>)
    requires Sized(cfg) && u < |cfg.parts| && TableOk(cfg, u, p.finishIndex, a, got) && Readable(cfg, u, p, a, m)
    ensures TableOk(cfg, u, p.finishIndex, Reads(cfg, u, a, m).0, got + [m])
  {
    var b, round := Reads(cfg, u, a, m).0, p.finishIndex;
    forall w: What
      ensures Tally(cfg, u, round, b, got + [m], w) == Tally(cfg, u, round, a, got, w) +
              if OrderIn(OwnKeys(cfg, u))(m) then Worth(m.body.order, w) else 0.0
    {
      TallyServe(cfg, u, round, a, got, m, w);
      assert b.pos == a.pos;
      assert Tally(cfg, u, round, b, got + [m], w) == Tally(cfg, u, round, a, got + [m], w);
    }
    hide Tally;
    if m.body.OrderMsg? && m.body.order.key in KeysAt(cfg, u) {
      CountKeepsTable(cfg, u, a, got, m.body.order, 0, b, got + [m]);
    }
  }

  lemma ServeKeepsTotals(cfg: Config, u: nat, p: Proc, a: App, got: seq<Msg<Body>>, m: Msg<Body>)
    requires u < |cfg.parts| && TotalsOk(u, p.finishIndex, a, got) && Readable(cfg, u, p, a, m)
    ensures TotalsOk(u, p.finishIndex, Reads(cfg, u, a, m).0, got + [m])
  {
    hide FromOthers, KeysAt, MergeIn;
    FromOthersMore(u, got, m, CountWorth());
    FromOthersMore(u, got, m, SalesWorth());
  }

  lemma ListMore(v: seq<PartData>, d: PartData)
    ensures HasId(v + [d], d.id) && forall id :: HasId(v, id) ==> HasId(v + [d], id)
    ensures DistinctIds(v) && !HasId(v, d.id) ==> DistinctIds(v + [d])
  {
    var w := v + [d];
    assert w[|v|] == d && forall i :: 0 <= i < |v| ==> w[i] == v[i];
    forall id | HasId(v, id) ensures HasId(w, id) {
      var i :| 0 <= i < |v| && v[i].id == id;
      assert w[i].id == id;
    }
  }

  lemma ServeKeepsUnders(cfg: Config, u: nat, p: Proc, a: App, got: seq<Msg<Body>>, m: Msg<Body>)
    requires u < |cfg.parts| && UndersOk(cfg, p.finishIndex, a, got) && Readable(cfg, u, p, a, m)
    ensures UndersOk(cfg, p.finishIndex, Reads(cfg, u, a, m).0, got + [m])
  {
    hide Pick, KeysAt, MergeIn, OwnedOnce, HasId;
    if m.body.UnderMsg? {
      ListMore(a.underSales, m.body.part);
    }
    PickMore(got, m, Unders());
    if Unders()(m) {
      RecordsConcat(Pick(got, Unders()), [m]);
      assert [m][1..] == [];
      assert Records([m]) == [m.body.part];
    }
  }

  /** A message of its own that comes back is not one of those a process has sent in its round. */
  lemma ServeKeepsSent(cfg: Config, u: nat, p: Proc, a: App, put: seq<Msg<Body>>, m: Msg<Body>)
    requires Sized(cfg) && u < |cfg.parts| && SentOk(cfg, u, p.finishIndex, a, put) && Readable(cfg, u, p, a, m)
    ensures SentOk(cfg, u, p.finishIndex, Reads(cfg, u, a, m).0, put + SendsOn(cfg, u, p, a, m))
  {
    hide Pick, UnderList, UnderMsgs, MergeIn;
    var x, b := SentOn(p, u, m), Reads(cfg, u, a, m).0;
    assert put + [] == put;
    if Reads(cfg, u, a, m).1 {
      NoOrderSent(cfg, u, Done(cfg, u, p.finishIndex, a), put, x);
      PickMore(put, x, From(Totals(), u));
      PickMore(put, x, From(Unders(), u));
    }
    hide OrdersSent;
    assert Done(cfg, u, p.finishIndex, b) == Done(cfg, u, p.finishIndex, a);
    assert Searched(p.finishIndex, b) == Searched(p.finishIndex, a);
  }

  lemma RelayMore(put: seq<Msg<Body>>, got: seq<Msg<Body>>, m: Msg<Body>, sent: seq<Msg<Body>>, keep: Msg<Body> -> bool)
    requires Pick(put, keep) == Pick(got, keep)
    requires if keep(m) then sent == [m] else sent == [] || (|sent| == 1 && !keep(sent[0]))
    ensures Pick(put + sent, keep) == Pick(got + [m], keep)
  {
    PickMore(got, m, keep);
    if sent != [] {
      assert sent == [sent[0]];
      PickMore(put, sent[0], keep);
    } else {
      assert put + [] == put;
    }
  }

  lemma ServePassesOn(cfg: Config, u: nat, w: nat, p: Proc, a: App, put: seq<Msg<Body>>, got: seq<Msg<Body>>, m: Msg<Body>)
    requires Sized(cfg) && u < |cfg.parts| && u != w
    requires PassesOn(cfg, u, w, put, got) && Readable(cfg, u, p, a, m)
    ensures PassesOn(cfg, u, w, put + SendsOn(cfg, u, p, a, m), got + [m])
  {
    hide MergeIn, KeysAt, OwnedOnce;
    var sent := SendsOn(cfg, u, p, a, m);
    assert SentOn(p, u, m).origin == m.origin && (m.origin != u ==> SentOn(p, u, m) == m);
    RelayMore(put, got, m, sent, From(Totals(), w));
    if OwnedOnce(cfg) {
      RelayMore(put, got, m, sent, From(Unders(), w));
    }
    forall keys: set<int> | Foreign(cfg, u, keys)
      ensures Pick(put + sent, From(OrderIn(keys), w)) == Pick(got + [m], From(OrderIn(keys), w))
    {
      RelayMore(put, got, m, sent, From(OrderIn(keys), w));
    }
  }

  /** A message read by the server. */
  lemma ServeKeepsProcess(cfg: Config, u: nat, p: Proc, a: App, put: seq<Msg<Body>>, got: seq<Msg<Body>>, m: Msg<Body>)
    requires Sized(cfg) && u < |cfg.parts| && ProcessOk(cfg, u, p, a, put, got) && Readable(cfg, u, p, a, m)
    ensures ProcessOk(cfg, u, p, Reads(cfg, u, a, m).0, put + SendsOn(cfg, u, p, a, m), got + [m])
  {
    hide IsUnder, TableOk, TotalsOk, UndersOk, SentOk, PassesOn, KeysAt, MergeIn;
    ServeKeepsTable(cfg, u, p, a, got, m);
    ServeKeepsTotals(cfg, u, p, a, got, m);
    ServeKeepsUnders(cfg, u, p, a, got, m);
    ServeKeepsSent(cfg, u, p, a, put, m);
    forall w: nat | w < |cfg.parts| && w != u
      ensures PassesOn(cfg, u, w, put + SendsOn(cfg, u, p, a, m), got + [m])
    {
      ServePassesOn(cfg, u, w, p, a, put, got, m);
    }
  }
}
