/** The records in the tables, and the fall-through of `finalPart`. */
module FinalRecords {
  import Sequences
  import opened Topology
  import opened Barrier
  import opened BarrierInvariant
  import opened Query
  import opened FinalCompetition
  import opened FinalInvariant
  import opened FinalSteps
  import FinalTables
  import FinalAnswers

  // ---- the invariant ----

  /** The keys of the matching rows that `preprocess` has announced. */
  ghost function Announced(cfg: Config, id: nat, round: nat, pos: nat): set<int>
    requires id < |cfg.parts|
  {
    Keys(if round > 0 || pos > |cfg.parts[id]| then cfg.parts[id] else cfg.parts[id][..pos], cfg.target)
  }

  ghost function OrderKeys(orders: seq<Order>): set<int> {
    set o | o in orders :: o.key
  }

  /** The ids a process's own rows bring into its table. */
  ghost function OwnIds(cfg: Config, id: nat, round: nat, a: App): set<int>
    requires id < |cfg.parts|
  {
    Announced(cfg, id, round, a.pos) + OrderKeys(a.orders)
  }

  /** `q` has received a record with this key from another process. */
  ghost predicate ReceivedKey(row: seq<seq<PartSale>>, q: nat, key: int) {
    exists p: nat :: p < |row| && p != q && key in Ids(row[p])
  }

  /** The main thread has not reset `underSales` yet. */
  predicate BeforeReset(round: nat, a: App) {
    round < 3 || (round == 3 && a.sub == 0)
  }

  function IdSum(v: seq<PartSale>): real {
    if v == [] then 0.0 else IdSum(v[1..]) + v[0].partid as real
  }

  /** The part ids of all records that `q` has received from the first `k` processes, added up. */
  function ReceivedIdSum(row: seq<seq<PartSale>>, q: nat, k: nat): real
    requires k <= |row|
  {
    if k == 0 then 0.0
    else ReceivedIdSum(row, q, k - 1) + if k - 1 == q then 0.0 else IdSum(row[k - 1])
  }

  ghost predicate RecordsOk(cfg: Config, id: nat, round: nat, a: App, row: seq<seq<PartSale>>)
    requires id < |cfg.parts| == |row|
  {
    && Ids(a.partData) == OwnIds(cfg, id, round, a) + Ids(Merged(round, a))
    && (round > 2 ==> Ids(row[id]) == OwnIds(cfg, id, round, a))
    && (forall key :: key in Ids(a.receivePartData) <==> ReceivedKey(row, id, key))
    && (BeforeReset(round, a) ==> a.underSales == ReceivedIdSum(row, id, |row|))
  }

  ghost predicate AllRecordsOk(cfg: Config, s: Sys) {
    && SysWellFormed(cfg, s)
    && forall i: nat :: i < |s.apps| ==> RecordsOk(cfg, i, s.ring.procs[i].finishIndex, s.apps[i], s.ledger[i])
  }

  lemma InitRecords(cfg: Config, s: Sys)
    requires SysInit(cfg, s) && SysWellFormed(cfg, s)
    ensures AllRecordsOk(cfg, s)
  {
    forall i: nat | i < |s.apps| ensures RecordsOk(cfg, i, s.ring.procs[i].finishIndex, s.apps[i], s.ledger[i]) {
      assert s.apps[i] == INIT_APP;
      NothingReceived(s.ledger[i], i, |s.ledger[i]|);
    }
  }

  lemma {:induction false} NothingReceived(row: seq<seq<PartSale>>, q: nat, k: nat)
    requires k <= |row| && forall p :: 0 <= p < k ==> row[p] == []
    ensures ReceivedIdSum(row, q, k) == 0.0
  {
    if k > 0 {
      NothingReceived(row, q, k - 1);
    }
  }

  // ---- the main thread ----

  lemma IdsOfSnoc(v: seq<PartSale>, e: PartSale)
    ensures Ids(v + [e]) == Ids(v) + {e.partid}
  {
    assert e in v + [e];
    assert forall x :: x in v ==> x in v + [e];
  }

  /** Round 0: a matching row brings its key into the table. */
  lemma AnnounceRecords(cfg: Config, id: nat, a: App, row: seq<seq<PartSale>>)
    requires ValidConfig(cfg) && id < |cfg.parts| == |row| && RecordsOk(cfg, id, 0, a, row) && Distinct(a.partData)
    requires a.pos <= |cfg.parts[id]|
    ensures
      var action := Preprocess(cfg.parts[id], cfg.target, a);
      action.Compute? || action.SendBody? ==> RecordsOk(cfg, id, 0, action.app, row)
  {
    var rows := cfg.parts[id];
    if a.pos < |rows| {
      assert rows[..a.pos + 1] == rows[..a.pos] + [rows[a.pos]];
      KeysOfSnoc(rows[..a.pos], rows[a.pos], cfg.target);
      InsertKeepsDistinct(a.partData, PartSale(rows[a.pos].key, 0, 0));
    }
  }

  lemma KeysOfSnoc(rows: seq<Part>, part: Part, t: Target)
    ensures Keys(rows + [part], t) ==
      Keys(rows, t) + if part.container == t.container && part.brand == t.brand then {part.key} else {}
  {
    assert part in rows + [part];
    assert forall p :: p in rows ==> p in rows + [part];
  }

  /** Round 1: a kept order brings its key into the table. */
  lemma CollectRecords(cfg: Config, id: nat, a: App, row: seq<seq<PartSale>>)
    requires ValidConfig(cfg) && id < |cfg.parts| == |row| && RecordsOk(cfg, id, 1, a, row) && Distinct(a.partData)
    ensures
      var action := CollectOrders(cfg.orders[id], a);
      action.Compute? ==> RecordsOk(cfg, id, 1, action.app, row)
  {
    if a.pos < |cfg.orders[id]| {
      var o := cfg.orders[id][a.pos];
      InsertKeepsDistinct(a.partData, PartSale(o.key, o.quantity, 1));
      assert OrderKeys(a.orders + [o]) == OrderKeys(a.orders) + {o.key} by {
        assert o in a.orders + [o];
        assert forall x :: x in a.orders ==> x in a.orders + [o];
      }
    }
  }

  /** Round 3, first loop: a received record brings its id into the table. */
  lemma MergeRecords(cfg: Config, id: nat, a: App, row: seq<seq<PartSale>>)
    requires ValidConfig(cfg) && id < |cfg.parts| == |row| && RecordsOk(cfg, id, 3, a, row) && Distinct(a.partData)
    requires a.sub == 0 && a.pos <= |a.receivePartData|
    ensures
      var action := GetLocalUnderSale(a);
      action.Compute? ==> RecordsOk(cfg, id, 3, action.app, row)
  {
    hide Insert, Ids, Distinct, ReceivedIdSum, ReceivedKey, OrderKeys, BelowAverage, Lookup;
    if a.pos < |a.receivePartData| {
      var d := a.receivePartData[a.pos];
      InsertKeepsDistinct(a.partData, d);
      assert a.receivePartData[..a.pos + 1] == a.receivePartData[..a.pos] + [d];
      IdsOfSnoc(a.receivePartData[..a.pos], d);
    } else {
      assert a.receivePartData[..a.pos] == a.receivePartData;
    }
  }

  lemma MainKeepsRecords(cfg: Config, id: nat, p: Proc, a: App, row: seq<seq<PartSale>>)
    requires ValidConfig(cfg) && id < |cfg.parts| == |row| && MainOk(cfg, id, p, a) && Distinct(a.partData)
    requires RecordsOk(cfg, id, p.finishIndex, a, row)
    ensures
      var action := MainAction(cfg, id, p.finishIndex, a);
      action.Compute? || action.SendBody? ==> RecordsOk(cfg, id, p.finishIndex, action.app, row)
  {
    var round := p.finishIndex;
    if round == 0 {
      AnnounceRecords(cfg, id, a, row);
    } else if round == 1 {
      CollectRecords(cfg, id, a, row);
    } else if round == 3 && a.sub == 0 {
      MergeRecords(cfg, id, a, row);
    }
  }

  /** The own row of the ledger is left out of what has been received. */
  lemma OwnRowIsLeftOut(cfg: Config, id: nat, round: nat, a: App, row: seq<seq<PartSale>>, sale: PartSale)
    requires id < |cfg.parts| == |row| && round <= 2 && RecordsOk(cfg, id, round, a, row)
    ensures RecordsOk(cfg, id, round, a, row[id := row[id] + [sale]])
  {
    var row' := row[id := row[id] + [sale]];
    IdSumUpdate(row, id, sale, id, |row|);
    forall key ensures ReceivedKey(row, id, key) <==> ReceivedKey(row', id, key) {
      assert forall p: nat :: p < |row| && p != id ==> row'[p] == row[p];
    }
  }

  lemma {:induction false} IdSumAppend(v: seq<PartSale>, e: PartSale)
    ensures IdSum(v + [e]) == IdSum(v) + e.partid as real
  {
    if v != [] {
      assert (v + [e])[1..] == v[1..] + [e];
      IdSumAppend(v[1..], e);
    }
  }

  lemma {:induction false} IdSumUpdate(row: seq<seq<PartSale>>, p: nat, e: PartSale, q: nat, k: nat)
    requires k <= |row| && p < |row|
    ensures ReceivedIdSum(row[p := row[p] + [e]], q, k) ==
            ReceivedIdSum(row, q, k) + if p < k && p != q then e.partid as real else 0.0
  {
    if k > 0 {
      IdSumUpdate(row, p, e, q, k - 1);
      IdSumAppend(row[p], e);
    }
  }

  // ---- the server and the barrier ----

  lemma KeyReceived(row: seq<seq<PartSale>>, p: nat, sale: PartSale, id: nat, key: int)
    requires p < |row| && p != id
    ensures ReceivedKey(row[p := row[p] + [sale]], id, key) <==> ReceivedKey(row, id, key) || key == sale.partid
  {
    var row' := row[p := row[p] + [sale]];
    IdsOfSnoc(row[p], sale);
    assert forall u: nat :: u < |row| && u != p ==> row'[u] == row[u];
    assert row'[p] == row[p] + [sale];
  }

  /** A part sale of another process adds its id to the table and, by the fall-through, to `underSales`. */
  lemma ServeKeepsRecords(cfg: Config, id: nat, round: nat, a: App, row: seq<seq<PartSale>>, p: nat, sale: PartSale)
    requires id < |cfg.parts| == |row| && p < |row| && p != id && round < 3
    requires RecordsOk(cfg, id, round, a, row) && Distinct(a.receivePartData)
    ensures
      var a' := a.(receivePartData := Insert(a.receivePartData, sale), underSales := a.underSales + sale.partid as real);
      RecordsOk(cfg, id, round, a', row[p := row[p] + [sale]])
  {
    hide Insert, Ids, Distinct, ReceivedKey, ReceivedIdSum, Announced;
    IdSumUpdate(row, p, sale, id, |row|);
    InsertKeepsDistinct(a.receivePartData, sale);
    forall key { KeyReceived(row, p, sale, id, key); }
    assert round < 3 ==> Merged(round, a) == [];
  }

  lemma LeaveKeepsRecords(cfg: Config, id: nat, p: Proc, a: App, row: seq<seq<PartSale>>)
    requires ValidConfig(cfg) && id < |cfg.parts| == |row| && MainOk(cfg, id, p, a) && p.pc == Woken
    requires RecordsOk(cfg, id, p.finishIndex, a, row)
    requires p.finishIndex == 2 ==> a.pos <= |a.partData| && row[id] == a.partData[..a.pos]
    ensures RecordsOk(cfg, id, p.finishIndex + 1, a.(pos := 0, sub := 0), row)
  {
    if p.finishIndex == 0 {
      assert cfg.parts[id][..a.pos] == cfg.parts[id];
    } else if p.finishIndex == 2 {
      assert a.partData[..a.pos] == a.partData;
    }
    assert Merged(p.finishIndex + 1, a.(pos := 0, sub := 0)) == Merged(p.finishIndex, a);
  }

  // ---- every step ----

  lemma RecordsOfProcess(cfg: Config, s: Sys, i: nat)
    requires SysInv(cfg, s) && AllRecordsOk(cfg, s) && i < |s.apps|
    ensures SysWellFormed(cfg, s) && MainOk(cfg, i, s.ring.procs[i], s.apps[i])
    ensures Distinct(s.apps[i].partData) && Distinct(s.apps[i].receivePartData)
    ensures Ids(s.apps[i].partData) <= AllKeys(cfg)
    ensures RecordsOk(cfg, i, s.ring.procs[i].finishIndex, s.apps[i], s.ledger[i])
    ensures s.ring.procs[i].finishIndex == 2 ==>
      s.apps[i].pos <= |s.apps[i].partData| && s.ledger[i][i] == s.apps[i].partData[..s.apps[i].pos]
  {
    hide Inv, MessagesOk, AllKeysOk, AnswersOk, MainOk, RecordsOk, MainAction;
    assert SentOk(cfg, s, i) && LocalOk(cfg, i, s.ring.procs[i].finishIndex, s.apps[i]);
  }

  /** What a server does with a payload message, and when. */
  lemma ServedBody(cfg: Config, s: Sys, id: nat)
    requires SysInv(cfg, s) && SysEnabled(cfg, s, Serve(id)) && Head(s.ring, id).Data?
    ensures
      var m, a := Head(s.ring, id), s.apps[id];
      match m.body
      case PartKey(_) => true
      case FinalPart(sale, from) =>
        && m.origin < |s.apps| && (from == Port(id) <==> m.origin == id) && s.ring.procs[id].finishIndex < 3
      case FinalAns(_) => !BeforeReset(s.ring.procs[id].finishIndex, a)
  {
    hide SysInv, Inv, MainAction;
    Basics(cfg, s);
    HeadIs(cfg, s, id);
    ProcessIs(cfg, s, id);
    var m := Head(s.ring, id);
    if m.body.FinalPart? && s.ring.procs[id].finishIndex >= 3 {
      FinalTables.NoLateSales(cfg, s, id);
    }
    if m.body.FinalAns? {
      FinalAnswers.AnswerTaken(cfg, s, id);
      EnteredIsReset(cfg, id, s.ring.procs[id], s.apps[id]);
    }
  }

  lemma EnteredIsReset(cfg: Config, id: nat, p: Proc, a: App)
    requires ValidConfig(cfg) && id < |cfg.parts| && MainOk(cfg, id, p, a) && HasEntered(p, 3)
    ensures !BeforeReset(p.finishIndex, a)
  {
  }

  lemma OwnRecordsAfter(cfg: Config, s: Sys, step: SysStep)
    requires SysInv(cfg, s) && AllRecordsOk(cfg, s) && SysEnabled(cfg, s, step)
    ensures |NextLedger(cfg, s, step)| == |s.apps| == |cfg.parts| == |NextLedger(cfg, s, step)[step.id]|
    ensures RecordsOk(cfg, step.id, NextProc(cfg, s, step).finishIndex, NextApp(cfg, s, step), NextLedger(cfg, s, step)[step.id])
  {
    hide SysInv, AllRecordsOk, RecordsOk, MainOk, MainAction, Distinct, Ids, Inv;
    RecordsOfProcess(cfg, s, step.id);
    var id := step.id;
    var p, a, row := s.ring.procs[id], s.apps[id], s.ledger[id];
    match step
    case Main(_) =>
      MainKeepsRecords(cfg, id, p, a, row);
      var action := NextAction(cfg, s, id);
      if action.SendBody? && action.body.FinalPart? {
        SalesAreSentInRound2(cfg, id, p.finishIndex, a);
        OwnRowIsLeftOut(cfg, id, p.finishIndex, action.app, row, action.body.sale);
      }
    case LeaveBarrier(_) => LeaveKeepsRecords(cfg, id, p, a, row);
    case Serve(_) =>
      if Head(s.ring, id).Data? {
        var m := Head(s.ring, id);
        ServedBody(cfg, s, id);
        if m.body.FinalPart? && m.origin != id {
          ServeKeepsRecords(cfg, id, p.finishIndex, a, row, m.origin, m.body.sale);
        } else {
          OtherBodies(cfg, id, p.finishIndex, a, row, m.body);
        }
      }
    case _ =>
  }

  lemma SalesAreSentInRound2(cfg: Config, id: nat, round: nat, a: App)
    requires ValidConfig(cfg) && id < |cfg.parts|
    requires MainAction(cfg, id, round, a).SendBody? && MainAction(cfg, id, round, a).body.FinalPart?
    ensures round == 2
  {
  }

  /** Keys and answers leave the tables alone. */
  lemma OtherBodies(cfg: Config, id: nat, round: nat, a: App, row: seq<seq<PartSale>>, b: Body)
    requires id < |cfg.parts| == |row| && RecordsOk(cfg, id, round, a, row)
    requires b.FinalPart? ==> b.from == Port(id)
    requires b.FinalAns? ==> !BeforeReset(round, a)
    ensures RecordsOk(cfg, id, round, OnBody(Port(id), a, b).0, row)
  {
  }

  /** Every step keeps the records. */
  lemma StepKeepsRecords(cfg: Config, s: Sys, step: SysStep)
    requires SysInv(cfg, s) && AllRecordsOk(cfg, s) && SysEnabled(cfg, s, step)
    ensures AllRecordsOk(cfg, SysApply(cfg, s, step))
  {
    hide SysInv, RecordsOk, Inv;
    var s' := SysApply(cfg, s, step);
    RingAfter(cfg, s, step, s');
    OwnAfter(cfg, s, step, s');
    FinalTables.LedgerAfter(cfg, s, step, s');
    OwnRecordsAfter(cfg, s, step);
    hide SysApply, NextApp, NextProc;
    forall i: nat | i < |s'.apps| ensures RecordsOk(cfg, i, s'.ring.procs[i].finishIndex, s'.apps[i], s'.ledger[i]) {
      assert i != step.id ==> s'.ledger[i] == s.ledger[i];
    }
  }

  // ---- what it means ----

  lemma OwnPartIsAnnounced(cfg: Config, p: nat, round: nat, pos: nat, j: nat)
    requires p < |cfg.parts| && j < |cfg.parts[p]| && Matches(cfg.parts[p][j], cfg.target) && round > 0
    ensures cfg.parts[p][j].key in Announced(cfg, p, round, pos)
  {
    assert cfg.parts[p][j] in cfg.parts[p];
  }

  /** A process that has sent its part sales has sent a record of every matching part of its own. */
  lemma OwnPartsAreSent(cfg: Config, s: Sys, p: nat, j: nat)
    requires SysInv(cfg, s) && AllRecordsOk(cfg, s) && p < |s.apps| && HasEntered(s.ring.procs[p], 2)
    requires p < |cfg.parts| && j < |cfg.parts[p]| && Matches(cfg.parts[p][j], cfg.target)
    ensures cfg.parts[p][j].key in Ids(s.ledger[p][p])
  {
    RecordsOfProcess(cfg, s, p);
    var a := s.apps[p];
    OwnPartIsAnnounced(cfg, p, s.ring.procs[p].finishIndex, a.pos, j);
    if s.ring.procs[p].finishIndex == 2 {
      assert a.partData[..a.pos] == a.partData;
    }
  }

  /** Once all received records are merged a table has a record of every matching part. */
  lemma TablesHoldAllKeys(cfg: Config, s: Sys, q: nat)
    requires SysInv(cfg, s) && AllRecordsOk(cfg, s) && q < |s.apps|
    requires s.ring.procs[q].finishIndex > 3 || (s.ring.procs[q].finishIndex == 3 && s.apps[q].sub == 1)
    ensures Distinct(s.apps[q].partData) && Ids(s.apps[q].partData) == AllKeys(cfg)
  {
    hide SysInv, AllRecordsOk, Distinct, MainOk, Inv;
    RecordsOfProcess(cfg, s, q);
    forall key | key in AllKeys(cfg) ensures key in Ids(s.apps[q].partData) {
      var part :| part in Sequences.Flatten(cfg.parts) && Matches(part, cfg.target) && part.key == key;
      var p := Sequences.FromFlatten(cfg.parts, part);
      var j :| 0 <= j < |cfg.parts[p]| && cfg.parts[p][j] == part;
      if p == q {
        OwnPartIsAnnounced(cfg, q, s.ring.procs[q].finishIndex, s.apps[q].pos, j);
      } else {
        FinalAnswers.EachSaleMergedOnce(cfg, s, p, q);
        OwnPartsAreSent(cfg, s, p, j);
        assert ReceivedKey(s.ledger[q], q, key);
      }
    }
  }

  /** The pollution of `underSales` in the state in which the main thread resets it. */
  lemma {:induction false} PollutionIsWhatWasSent(cfg: Config, s: Sys, q: nat, k: nat)
    requires SysInv(cfg, s) && SysWellFormed(cfg, s) && q < |s.apps| && k <= |s.apps| && s.ring.procs[q].finishIndex >= 3
    ensures ReceivedIdSum(s.ledger[q], q, k) == SentIdSum(s.ledger, q, k)
  {
    if k > 0 {
      PollutionIsWhatWasSent(cfg, s, q, k - 1);
      if k - 1 != q {
        FinalAnswers.EachSaleMergedOnce(cfg, s, k - 1, q);
      }
    }
  }

  /** The part ids of all records that the first `k` processes except `q` have sent, added up. */
  function SentIdSum(ledger: seq<seq<seq<PartSale>>>, q: nat, k: nat): real
    requires k <= |ledger| && forall u :: 0 <= u < |ledger| ==> |ledger[u]| == |ledger|
  {
    if k == 0 then 0.0
    else SentIdSum(ledger, q, k - 1) + if k - 1 == q then 0.0 else IdSum(ledger[k - 1][k - 1])
  }
}
