/** One process as the objects of the program: a calculator and a server. */
module Processes {
  import Topology
  import opened Barrier
  import opened Query
  import opened FinalCompetition
  import opened SaleTables

  // The methods make the moves of the transition systems in modules Barrier and FinalCompetition.

  // ---- a main thread running undisturbed to its next barrier ----

  function LoopMeasure(cfg: Config, id: nat, round: nat, a: App): nat
    requires |cfg.parts| == |cfg.orders| && id < |cfg.parts|
  {
    if round == 0 then
      if a.pos < |cfg.parts[id]| then 2 * (|cfg.parts[id]| - a.pos) + (if a.sub == 0 then 1 else 0) else 0
    else if round == 1 then if a.pos < |cfg.orders[id]| then |cfg.orders[id]| - a.pos else 0
    else if round == 2 then if a.pos < |a.partData| then |a.partData| - a.pos else 0
    else if round == 3 then
      if a.sub == 0 then
        (if a.pos < |a.receivePartData| then |a.receivePartData| - a.pos else 0) + 1 + |a.orders|
      else if a.pos < |a.orders| then |a.orders| - a.pos else 0
    else if a.pos == 0 then 1 else 0
  }

  /** The statements of one round up to the next `doAsync`, with the payloads they send. */
  ghost function RunRound(cfg: Config, id: nat, round: nat, a: App, out: seq<Body>): (App, seq<Body>)
    requires |cfg.parts| == |cfg.orders| && cfg.selectIdx < |cfg.parts| && id < |cfg.parts|
    decreases LoopMeasure(cfg, id, round, a)
  {
    match MainAction(cfg, id, round, a)
    case Compute(b) => RunRound(cfg, id, round, b, out)
    case SendBody(b, body) => RunRound(cfg, id, round, b, out + [body])
    case EnterBarrier => (a, out)
    case Finished => (a, out)
  }

  // ---- what the rounds do ----

  /** Round 0: every matching row is made known, sent once for each time it occurs, and given a record. */
  lemma {:induction false} Announcing(cfg: Config, id: nat, a: App, out: seq<Body>)
    requires |cfg.parts| == |cfg.orders| && cfg.selectIdx < |cfg.parts| && id < |cfg.parts|
    requires a.pos <= |cfg.parts[id]| && a.sub == 0 && Distinct(a.partData)
    ensures
      var (b, all) := RunRound(cfg, id, 0, a, out);
      var keys := Keys(cfg.parts[id][a.pos..], cfg.target);
      && b.partKeyMap == a.partKeyMap + keys && Ids(b.partData) == Ids(a.partData) + keys
      && (forall m :: m in all <==> m in out || (m.PartKey? && m.key in keys))
      && (forall key, f :: Sum(b.partData, key, f) == Sum(a.partData, key, f))
    decreases |cfg.parts[id]| - a.pos
  {
    hide RunRound, Insert, Keys, Sum, Ids, Distinct;
    var rows, i := cfg.parts[id], a.pos;
    FirstRow(cfg, id, a, out);
    if i < |rows| {
      assert rows[i..] == [rows[i]] + rows[i + 1..];
      KeysOfCons(rows[i], rows[i + 1..], cfg.target);
      if rows[i].container == cfg.target.container && rows[i].brand == cfg.target.brand {
        var d := PartSale(rows[i].key, 0, 0);
        InsertKeepsDistinct(a.partData, d);
        forall key, f { InsertAdds(a.partData, d, key, f); }
        Announcing(cfg, id, Made(a, rows[i].key), out + [PartKey(rows[i].key)]);
      } else {
        Announcing(cfg, id, a.(pos := i + 1), out);
      }
    } else {
      assert Keys(rows[i..], cfg.target) == {};
    }
  }

  /** The tables after a matching row. */
  function Made(a: App, key: int): App {
    a.(partKeyMap := a.partKeyMap + {key}, partData := Insert(a.partData, PartSale(key, 0, 0)), pos := a.pos + 1)
  }

  lemma FirstRow(cfg: Config, id: nat, a: App, out: seq<Body>)
    requires |cfg.parts| == |cfg.orders| && cfg.selectIdx < |cfg.parts| && id < |cfg.parts|
    requires a.pos <= |cfg.parts[id]| && a.sub == 0
    ensures
      RunRound(cfg, id, 0, a, out) ==
      if a.pos == |cfg.parts[id]| then (a, out)
      else
        var row := cfg.parts[id][a.pos];
        if row.container == cfg.target.container && row.brand == cfg.target.brand then
          RunRound(cfg, id, 0, Made(a, row.key), out + [PartKey(row.key)])
        else RunRound(cfg, id, 0, a.(pos := a.pos + 1), out)
  {
    hide Insert;
    if a.pos < |cfg.parts[id]| && Matches(cfg.parts[id][a.pos], cfg.target) {
      var row := cfg.parts[id][a.pos];
      var known := a.(partKeyMap := a.partKeyMap + {row.key}, sub := 1);
      assert MainAction(cfg, id, 0, a) == Compute(known);
      assert MainAction(cfg, id, 0, known) == SendBody(Made(a, row.key), PartKey(row.key));
    }
  }

  lemma KeysOfCons(part: Part, rows: seq<Part>, t: Target)
    ensures Keys([part] + rows, t) ==
      Keys(rows, t) + if part.container == t.container && part.brand == t.brand then {part.key} else {}
  {
    assert part in [part] + rows;
    assert forall p :: p in rows ==> p in [part] + rows;
  }

  /** Round 1: the orders of known parts are kept, in order, and counted. */
  lemma {:induction false} Collecting(cfg: Config, id: nat, a: App, out: seq<Body>)
    requires |cfg.parts| == |cfg.orders| && cfg.selectIdx < |cfg.parts| && id < |cfg.parts|
    requires a.pos <= |cfg.orders[id]| && Distinct(a.partData)
    ensures
      var (b, all) := RunRound(cfg, id, 1, a, out);
      var kept := Select(cfg.orders[id][a.pos..], a.partKeyMap);
      && all == out && b.orders == a.orders + kept && Ids(b.partData) == Ids(a.partData) + (set o | o in kept :: o.key)
      && (forall key, f :: Sum(b.partData, key, f) == Sum(a.partData, key, f) + OrderSum(kept, key, f))
    decreases |cfg.orders[id]| - a.pos
  {
    hide RunRound, Insert, Sum, Ids, Distinct, Select;
    var rows, i := cfg.orders[id], a.pos;
    NextOrder(cfg, id, a, out);
    if i < |rows| {
      var o := rows[i];
      assert rows[i..] == [o] + rows[i + 1..];
      SelectCons(o, rows[i + 1..], a.partKeyMap);
      if o.key in a.partKeyMap {
        var d := PartSale(o.key, o.quantity, 1);
        InsertKeepsDistinct(a.partData, d);
        forall key, f { InsertAdds(a.partData, d, key, f); }
        Collecting(cfg, id, Kept(a, o), out);
        CountedKept(a, o, Select(rows[i + 1..], a.partKeyMap));
      } else {
        Collecting(cfg, id, a.(pos := i + 1), out);
        assert [] + Select(rows[i + 1..], a.partKeyMap) == Select(rows[i + 1..], a.partKeyMap);
      }
    } else {
      SelectNone(rows[i..], a.partKeyMap);
    }
  }

  lemma SelectNone(orders: seq<Order>, keys: set<int>)
    requires orders == []
    ensures Select(orders, keys) == []
  {
  }

  /** The tables after an order of a known part. */
  function Kept(a: App, o: Order): App {
    a.(orders := a.orders + [o], partData := Insert(a.partData, PartSale(o.key, o.quantity, 1)), pos := a.pos + 1)
  }

  lemma NextOrder(cfg: Config, id: nat, a: App, out: seq<Body>)
    requires |cfg.parts| == |cfg.orders| && cfg.selectIdx < |cfg.parts| && id < |cfg.parts|
    requires a.pos <= |cfg.orders[id]|
    ensures
      RunRound(cfg, id, 1, a, out) ==
      if a.pos == |cfg.orders[id]| then (a, out)
      else if cfg.orders[id][a.pos].key in a.partKeyMap then RunRound(cfg, id, 1, Kept(a, cfg.orders[id][a.pos]), out)
      else RunRound(cfg, id, 1, a.(pos := a.pos + 1), out)
  {
    hide Insert;
  }

  lemma {:induction false} SelectCons(o: Order, orders: seq<Order>, keys: set<int>)
    ensures Select([o] + orders, keys) == (if o.key in keys then [o] else []) + Select(orders, keys)
  {
    var all := [o] + orders;
    if orders == [] {
      assert all == [o] && all[..0] == [];
    } else {
      assert all[..|all| - 1] == [o] + orders[..|orders| - 1];
      SelectCons(o, orders[..|orders| - 1], keys);
    }
  }

  lemma CountedKept(a: App, o: Order, rest: seq<Order>)
    ensures a.orders + [o] + rest == a.orders + ([o] + rest)
    ensures (set x | x in [o] + rest :: x.key) == {o.key} + (set x | x in rest :: x.key)
    ensures forall key, f :: OrderSum([o] + rest, key, f) == Quantity(o, key, f) + OrderSum(rest, key, f)
  {
    assert o in [o] + rest && ([o] + rest)[1..] == rest;
    assert forall x :: x in rest ==> x in [o] + rest;
  }

  function Wrap(id: nat, round: nat, out: seq<Body>): (ms: seq<Msg<Body>>)
    ensures |ms| == |out|
  {
    seq(|out|, i requires 0 <= i < |out| => Data(id, round, out[i]))
  }

  lemma WrapSnoc(id: nat, round: nat, out: seq<Body>, body: Body)
    ensures Wrap(id, round, out + [body]) == Wrap(id, round, out) + [Data(id, round, body)]
  {
  }

  class Calculator {
    const index: nat
    const totalProgramCount: nat
    const data: FinalCompetitionData
    var isFinished: set<nat>
    var isNotify: set<nat>
    var finishIndex: nat
    var partKeyMap: set<int>
    var orders: seq<Order>
    /** Everything handed to `sendMessager`, oldest first. */
    var sent: seq<Msg<Body>>

    ghost predicate Valid()
      reads this, data
    {
      1 <= index <= totalProgramCount && data.Valid()
    }

    ghost function Flags(pc: Pc, hasNotify: set<nat>, latch: bool): Proc
      reads this
    {
      Proc(pc, finishIndex, isFinished, isNotify, hasNotify, latch)
    }

    ghost function Tables(pos: nat, sub: nat): App
      reads this, data
    {
      App(pos, sub, partKeyMap, data.partData, data.receivePartData, orders, data.underSales)
    }

    constructor (index: nat, totalProgramCount: nat)
      requires 1 <= index <= totalProgramCount
      ensures Valid() && fresh(data)
      ensures this.index == index && this.totalProgramCount == totalProgramCount
      ensures Flags(Working, {}, false) == INIT_PROC && Tables(0, 0) == INIT_APP && sent == []
    {
      this.index, this.totalProgramCount := index, totalProgramCount;
      isFinished, isNotify, finishIndex := {}, {}, 0;
      partKeyMap, orders, sent := {}, [], [];
      data := new FinalCompetitionData();
    }

    // ---- the barrier ----

    /** `sendFinish`: increments the process's own counter and sends the token. */
    method SendFinish(cnt: seq<nat>, idx: nat)
      requires 1 <= index <= totalProgramCount == |cnt|
      modifies `sent
      ensures sent == old(sent) + [Token(idx, Stamped(index - 1, cnt))]
      ensures sent == old(sent) + [Token(idx, cnt[..index - 1] + [cnt[index - 1] + 1] + cnt[index..])]
    {
      var temp := new nat[|cnt|](i requires 0 <= i < |cnt| => cnt[i]);
      assert temp[..] == cnt;
      temp[index - 1] := temp[index - 1] + 1;
      assert temp[..] == Stamped(index - 1, cnt) == cnt[..index - 1] + [cnt[index - 1] + 1] + cnt[index..];
      sent := sent + [Token(idx, temp[..])];
    }

    /** `checkFinish`: every process has stamped the token. */
    method AllFinished(cnt: seq<nat>) returns (b: bool)
      requires |cnt| == totalProgramCount
      ensures b <==> forall i :: 0 <= i < |cnt| ==> 1 <= cnt[i]
    {
      for i := 0 to totalProgramCount
        invariant forall j :: 0 <= j < i ==> 1 <= cnt[j]
      {
        if cnt[i] < 1 {
          return false;
        }
      }
      return true;
    }

    /** `doAsync` before the wait, first statement. */
    method MarkFinished()
      modifies `isFinished
      ensures forall hasNotify, latch ::
        Flags(Entered, hasNotify, latch) == Entering(old(Flags(Working, hasNotify, latch)))
      ensures isFinished == old(isFinished) + {finishIndex}
    {
      isFinished := isFinished + {finishIndex};
    }

    /** `doAsync` before the wait, second statement. */
    method SendOwnToken()
      requires Valid()
      modifies `sent
      ensures sent == old(sent) + [Token(finishIndex, Stamped(index - 1, ZeroDigits(totalProgramCount)))]
    {
      SendFinish(ZeroDigits(totalProgramCount), finishIndex);
    }

    /** `doAsync` after the wait. */
    method MarkNotified()
      modifies `isNotify, `finishIndex
      ensures forall hasNotify, latch ::
        Flags(Working, hasNotify, latch) == Marking(Leaving(old(Flags(Woken, hasNotify, latch))))
      ensures finishIndex == old(finishIndex) + 1 && isNotify == old(isNotify) + {old(finishIndex)}
    {
      var round := finishIndex;
      finishIndex := finishIndex + 1;
      isNotify := isNotify + {round};
    }

    // ---- the rounds ----

    method AddPartKey(key: int)
      modifies `partKeyMap
      ensures partKeyMap == old(partKeyMap) + {key}
    {
      partKeyMap := partKeyMap + {key};
    }

    method SendData(body: Body)
      requires 1 <= index
      modifies `sent
      ensures sent == old(sent) + [Data(index - 1, finishIndex, body)]
    {
      sent := sent + [Data(index - 1, finishIndex, body)];
    }

    /** The loop over the parts in `preprocess`. */
    method AnnounceParts(cfg: Config) returns (ghost out: seq<Body>)
      requires Valid() && |cfg.parts| == |cfg.orders| == totalProgramCount && cfg.selectIdx < |cfg.parts|
      modifies this`partKeyMap, this`sent, data
      ensures Valid()
      ensures (Tables(|cfg.parts[index - 1]|, 0), out) == RunRound(cfg, index - 1, 0, old(Tables(0, 0)), [])
      ensures sent == old(sent) + Wrap(index - 1, finishIndex, out)
      ensures
        var keys := Keys(cfg.parts[index - 1], cfg.target);
        && partKeyMap == old(partKeyMap) + keys && Ids(data.partData) == Ids(old(data.partData)) + keys
        && (forall b :: b in out <==> b.PartKey? && b.key in keys)
        && (forall key, f :: Sum(data.partData, key, f) == Sum(old(data.partData), key, f))
    {
      var parts := cfg.parts[index - 1];
      out := [];
      for i := 0 to |parts|
        invariant Valid()
        invariant RunRound(cfg, index - 1, 0, Tables(i, 0), out) == RunRound(cfg, index - 1, 0, old(Tables(0, 0)), [])
        invariant sent == old(sent) + Wrap(index - 1, finishIndex, out)
      {
        var part := parts[i];
        if part.container == cfg.target.container && part.brand == cfg.target.brand {
          AddPartKey(part.key);
          SendData(PartKey(part.key));
          data.InsertPartData(PartSale(part.key, 0, 0));
          WrapSnoc(index - 1, finishIndex, out, PartKey(part.key));
          out := out + [PartKey(part.key)];
        }
      }
      IndexedIsDistinct(old(data.partidHash), old(data.partData));
      Announcing(cfg, index - 1, old(Tables(0, 0)), []);
    }

    /** The loop over the orders in `preprocess`. */
    method CollectLocalOrders(cfg: Config)
      requires Valid() && |cfg.parts| == |cfg.orders| == totalProgramCount && cfg.selectIdx < |cfg.parts|
      modifies this`orders, data
      ensures Valid()
      ensures (Tables(|cfg.orders[index - 1]|, 0), []) == RunRound(cfg, index - 1, 1, old(Tables(0, 0)), [])
      ensures
        var kept := Select(cfg.orders[index - 1], partKeyMap);
        && orders == old(orders) + kept && Ids(data.partData) == Ids(old(data.partData)) + (set o | o in kept :: o.key)
        && (forall key, f :: Sum(data.partData, key, f) == Sum(old(data.partData), key, f) + OrderSum(kept, key, f))
    {
      var rows := cfg.orders[index - 1];
      for i := 0 to |rows|
        invariant Valid()
        invariant RunRound(cfg, index - 1, 1, Tables(i, 0), []) == RunRound(cfg, index - 1, 1, old(Tables(0, 0)), [])
      {
        var order := rows[i];
        if order.key in partKeyMap {
          orders := orders + [order];
          data.SolveAnOrder(order);
        }
      }
      IndexedIsDistinct(old(data.partidHash), old(data.partData));
      Collecting(cfg, index - 1, old(Tables(0, 0)), []);
      assert rows[0..] == rows;
    }

    /** The loop of `communicatePartSale`. */
    method SendPartSales(cfg: Config) returns (ghost out: seq<Body>)
      requires Valid() && |cfg.parts| == |cfg.orders| == totalProgramCount && cfg.selectIdx < |cfg.parts|
      modifies this`sent
      ensures Valid()
      ensures (Tables(|data.partData|, 0), out) == RunRound(cfg, index - 1, 2, old(Tables(0, 0)), [])
      ensures sent == old(sent) + Wrap(index - 1, finishIndex, out)
      ensures |out| == |data.partData|
      ensures forall i :: 0 <= i < |out| ==> out[i] == FinalPart(data.partData[i], Topology.Port(index - 1))
    {
      out := [];
      for i := 0 to |data.partData|
        invariant Valid()
        invariant RunRound(cfg, index - 1, 2, Tables(i, 0), out) == RunRound(cfg, index - 1, 2, old(Tables(0, 0)), [])
        invariant sent == old(sent) + Wrap(index - 1, finishIndex, out)
        invariant |out| == i && forall j :: 0 <= j < i ==> out[j] == FinalPart(data.partData[j], Topology.Port(index - 1))
      {
        var body := FinalPart(data.partData[i], Topology.Port(index - 1));
        SendData(body);
        WrapSnoc(index - 1, finishIndex, out, body);
        out := out + [body];
      }
    }

    /** `mergeData` at the end of `communicatePartSale`, then `getLocalUnderSale`. */
    method MergeAndSumUnderSales(cfg: Config)
      requires Valid() && |cfg.parts| == |cfg.orders| == totalProgramCount && cfg.selectIdx < |cfg.parts|
      modifies data
      ensures Valid()
      ensures (Tables(|orders|, 1), []) == RunRound(cfg, index - 1, 3, old(Tables(0, 0)), [])
      ensures Ids(data.partData) == Ids(old(data.partData)) + Ids(data.receivePartData)
      ensures forall key, f ::
        Sum(data.partData, key, f) == Sum(old(data.partData), key, f) + Sum(data.receivePartData, key, f)
      ensures data.underSales == PriceSum(orders, data.partData)
    {
      hide BelowAverage, Lookup, MainAction, Insert;
      data.MergeData();
      IndexedIsDistinct(old(data.partidHash), old(data.partData));
      forall key, f { InsertAllAdds(old(data.partData), data.receivePartData, key, f); }
      InsertAllAdds(old(data.partData), data.receivePartData, 0, Sales);
      MergingRuns(cfg, index - 1, old(Tables(0, 0)), Tables(0, 0), 0);
      assert old(Tables(0, 0)).(partData := InsertAll(old(data.partData), data.receivePartData[..0]), pos := 0) == old(Tables(0, 0));
      GetLocalUnderSales(cfg);
    }

    /** `getLocalUnderSale`: the reset and the loop over the kept orders. */
    method GetLocalUnderSales(cfg: Config)
      requires Valid() && |cfg.parts| == |cfg.orders| == totalProgramCount && cfg.selectIdx < |cfg.parts|
      modifies data`underSales
      ensures (Tables(|orders|, 1), []) ==
              RunRound(cfg, index - 1, 3, old(Tables(0, 0)).(underSales := 0.0, sub := 1), [])
      ensures data.underSales == PriceSum(orders, data.partData)
    {
      hide BelowAverage, Lookup, PriceSum;
      NoPrices(data.partData);
      data.SetUnderSales(0.0);
      ghost var start := Tables(0, 1);
      for i := 0 to |orders|
        invariant RunRound(cfg, index - 1, 3, Tables(i, 1), []) == RunRound(cfg, index - 1, 3, start, [])
        invariant data.underSales == PriceSum(orders[..i], data.partData)
      {
        PricesSnoc(orders, i, data.partData);
        ghost var a := Tables(i, 1);
        var order := orders[i];
        var partSaleData := PartSaleOf(order.key);
        if BelowAverage(order, partSaleData) {
          data.AddUnderSales(order.price);
        }
        assert MainAction(cfg, index - 1, 3, a) == Compute(Tables(i + 1, 1));
      }
      assert orders[..|orders|] == orders;
    }

    /** The record of a key, found through the hash. */
    method PartSaleOf(key: int) returns (e: PartSale)
      requires Valid()
      ensures e == Lookup(data.partData, key)
      ensures key in Ids(data.partData) ==> e in data.partData && e.partid == key
      ensures key !in Ids(data.partData) && data.partData != [] ==> e == data.partData[0]
    {
      if key in data.partidHash {
        IndexFinds(data.partidHash, data.partData, key);
        e := data.partData[data.partidHash[key]];
      } else if data.partData != [] {
        e := data.partData[0];
      } else {
        e := PartSale(key, 0, 0);
      }
    }

    /** One iteration of the `now` loop of `mergeQueryAns`; `now` is a program index. */
    method MergeIteration(cfg: Config, now: nat) returns (ghost out: seq<Body>)
      requires Valid() && |cfg.parts| == |cfg.orders| == totalProgramCount && cfg.selectIdx < |cfg.parts|
      requires 4 <= finishIndex < |cfg.parts| + 3 && now == NowAt(cfg, finishIndex - 4) + 1
      modifies this`sent
      ensures (Tables(1, 0), out) == RunRound(cfg, index - 1, finishIndex, old(Tables(0, 0)), [])
      ensures sent == old(sent) + Wrap(index - 1, finishIndex, out)
    {
      out := [];
      ghost var start := Tables(0, 0);
      assert MainAction(cfg, index - 1, finishIndex, start) ==
        if index == now then SendBody(Tables(1, 0), FinalAns(data.underSales)) else Compute(Tables(1, 0));
      if index == now {
        SendData(FinalAns(data.underSales));
        WrapSnoc(index - 1, finishIndex, out, FinalAns(data.underSales));
        out := out + [FinalAns(data.underSales)];
      }
      assert MainAction(cfg, index - 1, finishIndex, Tables(1, 0)).EnterBarrier?;
      assert RunRound(cfg, index - 1, finishIndex, Tables(1, 0), out) == (Tables(1, 0), out);
    }
  }

  /** The prices of the orders whose quantity lies below 0.3 of the average in the table. */
  function PriceSum(orders: seq<Order>, v: seq<PartSale>): real {
    if orders == [] then 0.0
    else
      var o := orders[|orders| - 1];
      var e := Lookup(v, o.key);
      PriceSum(orders[..|orders| - 1], v) +
      if e.orderCount != 0 && o.quantity as real < e.totalSale as real / e.orderCount as real * 0.3 then o.price else 0.0
  }

  lemma NoPrices(v: seq<PartSale>)
    ensures PriceSum([], v) == 0.0
  {
  }

  lemma PricesSnoc(orders: seq<Order>, i: nat, v: seq<PartSale>)
    requires i < |orders|
    ensures PriceSum(orders[..i + 1], v) == PriceSum(orders[..i], v) +
      if BelowAverage(orders[i], Lookup(v, orders[i].key)) then orders[i].price else 0.0
  {
    assert orders[..i + 1][..i] == orders[..i];
  }

  /** `mergeData` in one go is what the single merges of round 3 add up to. */
  lemma {:induction false} MergingRuns(cfg: Config, id: nat, a: App, b: App, i: nat)
    requires |cfg.parts| == |cfg.orders| && cfg.selectIdx < |cfg.parts| && id < |cfg.parts|
    requires i <= |a.receivePartData| && a.pos == a.sub == 0
    requires b == a.(partData := InsertAll(a.partData, a.receivePartData))
    ensures RunRound(cfg, id, 3, a.(partData := InsertAll(a.partData, a.receivePartData[..i]), pos := i), []) ==
            RunRound(cfg, id, 3, b.(underSales := 0.0, sub := 1), [])
    decreases |a.receivePartData| - i
  {
    var r := a.receivePartData;
    var cur := a.(partData := InsertAll(a.partData, r[..i]), pos := i);
    if i == |r| {
      assert r[..i] == r;
      assert MainAction(cfg, id, 3, cur) == Compute(b.(underSales := 0.0, sub := 1));
    } else {
      assert r[..i + 1][..i] == r[..i];
      MergingRuns(cfg, id, a, b, i + 1);
      assert MainAction(cfg, id, 3, cur) == Compute(a.(partData := InsertAll(a.partData, r[..i + 1]), pos := i + 1));
    }
  }

  class Server {
    const port: int
    const calculator: Calculator
    var hasNotify: set<nat>
    /** The condition variable: set by `notify_one`, consumed by the main thread's wait. */
    var latch: bool

    constructor (calculator: Calculator)
      requires calculator.index >= 1
      ensures this.calculator == calculator && port == Topology.Port(calculator.index - 1)
      ensures hasNotify == {} && !latch
    {
      this.calculator, port := calculator, Topology.Port(calculator.index - 1);
      hasNotify, latch := {}, false;
    }

    /** The `finish` case of the message loop. */
    method OnFinish(idx: nat, cnt: seq<nat>, ghost pc: Pc)
      requires calculator.Valid() && |cnt| == calculator.totalProgramCount
      modifies this, calculator`sent
      ensures calculator.Valid()
      ensures calculator.Flags(pc, hasNotify, latch) == AfterFinish(old(calculator.Flags(pc, hasNotify, latch)), idx, cnt)
      ensures calculator.sent == old(calculator.sent) +
        if FinishVerdict(old(calculator.Flags(pc, hasNotify, latch)), idx, cnt).Ignore? then []
        else [Token(idx, Stamped(calculator.index - 1, cnt))]
      ensures
        var open := idx in calculator.isFinished && idx !in calculator.isNotify && idx == calculator.finishIndex;
        var full := forall i :: 0 <= i < |cnt| ==> 1 <= cnt[i];
        && (hasNotify == if open && full then old(hasNotify) + {idx} else old(hasNotify))
        && (latch <==> old(latch) || (open && full && idx !in old(hasNotify)))
        && (calculator.sent != old(calculator.sent) <==> open && (full ==> idx !in old(hasNotify)))
    {
      if idx in calculator.isNotify {
        return;
      }
      if idx !in calculator.isFinished {
        return;
      }
      if calculator.finishIndex != idx {
        return;
      }
      var full := calculator.AllFinished(cnt);
      if full {
        if idx in hasNotify {
          return;
        }
        calculator.SendFinish(cnt, idx);
        latch := true;
        hasNotify := hasNotify + {idx};
      } else if idx in calculator.isFinished {
        calculator.SendFinish(cnt, idx);
      }
    }

    /** The `partKey`, `finalPart` and `finalAns` cases; the second falls through into the third. */
    method OnData(m: Msg<Body>, ghost pos: nat, ghost sub: nat)
      requires calculator.Valid() && m.Data?
      modifies calculator`partKeyMap, calculator`sent, calculator.data
      ensures calculator.Valid()
      ensures calculator.Tables(pos, sub) == OnBody(port, old(calculator.Tables(pos, sub)), m.body).0
      ensures calculator.sent ==
        old(calculator.sent) + if OnBody(port, old(calculator.Tables(pos, sub)), m.body).1 then [m] else []
      ensures m.body.PartKey? ==>
        && calculator.partKeyMap == old(calculator.partKeyMap) + {m.body.key} && calculator.data.partData == old(calculator.data.partData)
        && calculator.data.receivePartData == old(calculator.data.receivePartData)
        && calculator.data.underSales == old(calculator.data.underSales)
        && calculator.sent == old(calculator.sent) + if m.body.key in old(calculator.partKeyMap) then [] else [m]
      ensures m.body.FinalPart? && m.body.from != port ==>
        && Ids(calculator.data.receivePartData) == Ids(old(calculator.data.receivePartData)) + {m.body.sale.partid}
        && calculator.data.underSales == old(calculator.data.underSales) + m.body.sale.partid as real
        && calculator.sent == old(calculator.sent) + [m]
      ensures m.body.FinalAns? ==>
        && calculator.data.underSales == old(calculator.data.underSales) + m.body.answer
        && calculator.sent == old(calculator.sent)
    {
      hide Insert, Ids, Distinct, Indexes;
      match m.body
      case PartKey(key) =>
        if key in calculator.partKeyMap {
          return;
        }
        calculator.AddPartKey(key);
        calculator.sent := calculator.sent + [m];
      case FinalPart(sale, from) =>
        if from == port {
          return;
        }
        IndexedIsDistinct(calculator.data.receiveidHash, calculator.data.receivePartData);
        InsertKeepsDistinct(calculator.data.receivePartData, sale);
        calculator.data.InsertReceivePartData(sale);
        calculator.sent := calculator.sent + [m];
        calculator.data.AddUnderSales(sale.partid as real);
      case FinalAns(answer) =>
        calculator.data.AddUnderSales(answer);
    }
  }

  /** The loop variable of `mergeQueryAns`: the values of `now`, in order. */
  method NowLoop(selectIdx: nat, totalProgramCount: nat) returns (visited: seq<nat>)
    requires 2 <= totalProgramCount && 1 <= selectIdx <= totalProgramCount
    ensures |visited| == totalProgramCount - 1
    ensures forall k :: 0 <= k < |visited| ==> visited[k] == Topology.After(totalProgramCount, selectIdx - 1, k + 1) + 1
    ensures forall i :: 1 <= i <= totalProgramCount ==> (i in visited <==> i != selectIdx)
    ensures forall i, j :: 0 <= i < j < |visited| ==> visited[i] != visited[j]
  {
    visited := [];
    var now: int := selectIdx - 1;
    while now != selectIdx
      invariant |visited| <= totalProgramCount - 1
      invariant now == NowBefore(selectIdx, totalProgramCount, |visited|)
      invariant forall k :: 0 <= k < |visited| ==> visited[k] == NowInside(selectIdx, totalProgramCount, k)
      decreases totalProgramCount - 1 - |visited|
    {
      if now == 0 {
        now := totalProgramCount;
      }
      visited := visited + [now];
      now := if now - 1 == 0 then totalProgramCount else now - 1;
    }
    forall i | 1 <= i <= totalProgramCount ensures i in visited <==> i != selectIdx {
      if i != selectIdx {
        var k := if i < selectIdx then selectIdx - 1 - i else selectIdx + totalProgramCount - 1 - i;
        assert visited[k] == i;
      }
    }
  }

  /** `now` inside the body of iteration `k`. */
  function NowInside(selectIdx: nat, n: nat, k: nat): int {
    if k + 1 < selectIdx then selectIdx - 1 - k else selectIdx + n - 1 - k
  }

  /** `now` when the loop condition is tested before iteration `k`. */
  function NowBefore(selectIdx: nat, n: nat, k: nat): int {
    if k == 0 then selectIdx - 1 else if k < selectIdx - 1 then selectIdx - 1 - k else selectIdx + n - 1 - k
  }
}
