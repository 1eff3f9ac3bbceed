/** The advanced calculation of one process as the program's object. */
module AdvancedThread {
  import Topology
  import opened Query
  import opened BrandTables
  import PartRows
  import opened AdvancedCalculator

  function LoopMeasure(cfg: Config, id: nat, round: nat, a: App): nat
    requires Sized(cfg) && id < |cfg.parts|
  {
    var rows := if a.pos < |a.table| then |a.table| - a.pos else 0;
    if round == 0 then (if a.sub == 0 then 1 + |a.parts| else 0) + if a.pos < |a.parts| then |a.parts| - a.pos else 0
    else if round == 1 then (if a.sub == 0 then 1 else 0) + if a.pos < |cfg.orders[id]| then |cfg.orders[id]| - a.pos else 0
    else if round <= |cfg.parts| + 1 then rows
    else if a.sub == 0 then 3 + 2 * |a.table| else if a.sub == 1 then 2 + |a.table| + rows else rows
  }

  /** The statements of one round up to the next `doAsync` or the end, with the payloads they send. */
  ghost function RunRound(cfg: Config, id: nat, round: nat, a: App, out: seq<Body>): (App, seq<Body>)
    requires Sized(cfg) && id < |cfg.parts|
    decreases LoopMeasure(cfg, id, round, a)
  {
    match MainAction(cfg, id, round, a)
    case Compute(b) => RunRound(cfg, id, round, b, out)
    case SendBody(b, body) => RunRound(cfg, id, round, b, out + [body])
    case EnterBarrier => (a, out)
    case Finished => (a, out)
  }

  lemma OneComputation(cfg: Config, id: nat, round: nat, a: App, b: App, out: seq<Body>)
    requires Sized(cfg) && id < |cfg.parts| && MainAction(cfg, id, round, a) == Compute(b)
    ensures RunRound(cfg, id, round, a, out) == RunRound(cfg, id, round, b, out)
  {
    hide MainAction;
  }

  /** The loop over the orders has reached its end. */
  lemma OrdersDone(cfg: Config, id: nat, a: App, out: seq<Body>)
    requires Sized(cfg) && id < |cfg.parts| && a.sub == 1 && a.pos == |cfg.orders[id]|
    ensures RunRound(cfg, id, 1, a, out) == (a, out)
  {
  }

  lemma NothingBooked(parts: seq<Part>, hash: map<int, nat>)
    requires PartRows.LastRows(parts, hash)
    ensures hash.Keys - KeySet(parts) == {}
  {
    forall key | key in hash ensures key in KeySet(parts) {
      var i :| 0 <= i < |parts| && parts[i].key == key;
      assert parts[i] in parts;
    }
  }

  class Calculator {
    const index: nat
    var parts: seq<Part>
    var partIdHash: map<int, nat>
    const data: BrandData
    var totalSales: int
    var partCount: int
    /** The payloads handed to `sendMessager`, oldest first. */
    var sent: seq<Body>

    ghost predicate Valid()
      reads this, data
    {
      1 <= index && data.Valid() && PartRows.Indexes(parts, partIdHash)
    }

    ghost function State(pos: nat, sub: nat, size: nat): App
      reads this, data
    {
      App(pos, sub, size, parts, partIdHash.Keys - KeySet(parts), data.parts, partCount, totalSales, data.underSaleParts)
    }

    constructor (cfg: Config, index: nat)
      requires Sized(cfg) && 1 <= index <= |cfg.parts|
      ensures Valid() && fresh(data) && this.index == index
      ensures State(0, 0, 0) == InitApp(cfg, index - 1) && sent == []
    {
      this.index, parts := index, cfg.parts[index - 1];
      totalSales, partCount, sent := 0, 0, [];
      var hash := PartRows.IndexParts(cfg.parts[index - 1]);
      partIdHash := hash;
      data := new BrandData();
      new;
      PartRows.LoadedIndex(parts, partIdHash);
      NothingBooked(parts, partIdHash);
    }

    lemma Known(key: int)
      requires Valid()
      ensures key in KeySet(parts) <==> PartRows.HasRow(parts, key)
      ensures key in KeySet(parts) ==> key in partIdHash
      ensures key in partIdHash && parts != [] ==>
        partIdHash[key] < |parts| && parts[partIdHash[key]] == BookingRow(parts, key)
    {
    }

    /** `insertPart`, the server case `part` around it, and the case `partData`. */
    method OnMessage(body: Body)
      requires Valid()
      modifies this, data
      ensures Valid()
      ensures forall pos, sub, size :: State(pos, sub, size) == OnBody(old(State(pos, sub, size)), body).0
      ensures sent == if OnBody(old(State(0, 0, 0)), body).1 then old(sent) + [body] else old(sent)
      ensures body.PartMsg? && body.part.key in old(partIdHash) ==> parts == old(parts) && sent == old(sent)
      ensures body.PartMsg? && body.part.key !in old(partIdHash) ==>
        parts == old(parts) + [body.part] && sent == old(sent) + [body] && partIdHash == old(partIdHash)[body.part.key := |old(parts)|]
      ensures body.DataMsg? ==> IdSet(data.parts) == IdSet(old(data.parts)) + {body.data.id} && sent == old(sent)
    {
      match body
      case PartMsg(part) =>
        Known(part.key);
        if part.key in partIdHash {
          return;
        }
        PartRows.IndexNewRow(parts, partIdHash, part);
        partIdHash := partIdHash[part.key := |parts|];
        parts := parts + [part];
        sent := sent + [body];
      case DataMsg(d) => data.MergePartData(d);
    }

    /** `partTabelCommunicate` up to the barrier. */
    method SendParts(cfg: Config)
      requires Valid() && Sized(cfg) && index <= |cfg.parts|
      modifies `sent
      ensures (State(|parts|, 1, |parts|), sent) == RunRound(cfg, index - 1, 0, old(State(0, 0, 0)), old(sent))
    {
      var sz := |parts|;
      for i := 0 to sz
        invariant RunRound(cfg, index - 1, 0, State(i, 1, sz), sent) == RunRound(cfg, index - 1, 0, old(State(0, 0, 0)), old(sent))
      {
        sent := sent + [PartMsg(parts[i])];
      }
    }

    /** `solveOrder`: looking up a key that is not in the hash inserts it with position 0. */
    method SolveOrder(order: Order)
      requires Valid() && parts != []
      modifies this`partIdHash, data`parts, data`partIdHash
      ensures Valid()
      ensures forall pos, sub, size :: State(pos, sub, size) == Booked(old(State(pos, sub, size)), order)
      ensures partIdHash == if order.key in old(partIdHash) then old(partIdHash) else old(partIdHash)[order.key := 0]
      ensures order.key !in old(partIdHash) && order.key !in IdSet(old(data.parts)) ==>
        data.parts == old(data.parts) +
          [PartData(order.key, parts[0].brand, order.quantity, order.quantity as real * order.price, parts[0].container)]
    {
      hide KeySet, MergeIn, PartRows.Indexes, BookingRow;
      LookUp(order.key);
      var row := parts[partIdHash[order.key]];
      data.UpdateData(order, row.brand, row.container);
    }

    lemma Unknown(key: int)
      requires Valid() && key !in partIdHash && parts != []
      ensures key !in KeySet(parts) && BookingRow(parts, key) == parts[0]
      ensures PartRows.Indexes(parts, partIdHash[key := 0])
    {
      Known(key);
    }

    /** `partIdHash[key]`. */
    method LookUp(key: int)
      requires Valid() && parts != []
      modifies `partIdHash
      ensures Valid() && key in partIdHash && partIdHash[key] < |parts|
      ensures parts[partIdHash[key]] == BookingRow(parts, key)
      ensures partIdHash.Keys - KeySet(parts) ==
              old(partIdHash.Keys - KeySet(parts)) + if key in KeySet(parts) then {} else {key}
      ensures partIdHash == if key in old(partIdHash) then old(partIdHash) else old(partIdHash)[key := 0]
      ensures key !in old(partIdHash) ==> BookingRow(parts, key) == parts[0]
    {
      hide KeySet, BookingRow, PartRows.Indexes;
      if key !in partIdHash {
        Unknown(key);
        partIdHash := partIdHash[key := 0];
      }
      Known(key);
    }

    /** `setPartCount`, then `localCalculate`. */
    method LocalCalculate(cfg: Config, size: nat)
      requires Valid() && Sized(cfg) && index <= |cfg.parts|
      requires parts != [] || cfg.orders[index - 1] == []
      modifies this`partCount, this`partIdHash, data`parts, data`partIdHash
      ensures Valid()
      ensures (State(|cfg.orders[index - 1]|, 1, size), sent) ==
              RunRound(cfg, index - 1, 1, old(State(0, 0, size)), old(sent))
    {
      hide RunRound, MergeIn, BookingRow, KeySet, PartRows.Indexes;
      ghost var goal := RunRound(cfg, index - 1, 1, State(0, 0, size), sent);
      ghost var start := State(0, 0, size);
      partCount := |parts|;
      OneComputation(cfg, index - 1, 1, start, State(0, 1, size), sent);
      var orders := cfg.orders[index - 1];
      for i := 0 to |orders|
        invariant Valid()
        invariant RunRound(cfg, index - 1, 1, State(i, 1, size), sent) == goal
      {
        ghost var a := State(i, 1, size);
        SolveOrder(orders[i]);
        OneComputation(cfg, index - 1, 1, a, State(i + 1, 1, size), sent);
      }
      OrdersDone(cfg, index - 1, State(|orders|, 1, size), sent);
    }

    /** One iteration of the `now` loop of `partDataCommunicate`; `now` is a program index. */
    method SendRecords(cfg: Config, round: nat, now: nat, size: nat)
      requires Valid() && Sized(cfg) && index <= |cfg.parts| && 2 <= round <= |cfg.parts|
      requires now == Topology.After(|cfg.parts|, cfg.selectIdx, round - 1) + 1
      modifies `sent
      ensures (State(if index == now then |data.parts| else 0, 0, size), sent) ==
              RunRound(cfg, index - 1, round, old(State(0, 0, size)), old(sent))
    {
      if index == now {
        for i := 0 to |data.parts|
          invariant RunRound(cfg, index - 1, round, State(i, 0, size), sent) ==
                    RunRound(cfg, index - 1, round, old(State(0, 0, size)), old(sent))
        {
          sent := sent + [DataMsg(data.parts[i])];
        }
      }
    }

    /** `getTotalDatas`, then `calculateUnderSale`. */
    method Conclude(cfg: Config, size: nat)
      requires Valid() && Sized(cfg) && index - 1 == cfg.selectIdx
      modifies this`totalSales, data`underSaleParts, data`underSalePartsHash
      ensures Valid()
      ensures (State(|data.parts|, 2, size), sent) ==
              RunRound(cfg, index - 1, |cfg.parts| + 2, old(State(0, 0, size)), old(sent))
    {
      GetTotalDatas(cfg, size);
      CalculateUnderSale(cfg, size);
    }

    method GetTotalDatas(cfg: Config, size: nat)
      requires Valid() && Sized(cfg) && index - 1 == cfg.selectIdx
      modifies `totalSales
      ensures RunRound(cfg, index - 1, |cfg.parts| + 2, State(0, 2, size), sent) ==
              RunRound(cfg, index - 1, |cfg.parts| + 2, old(State(0, 0, size)), sent)
    {
      ghost var start := State(0, 0, size);
      ghost var goal := RunRound(cfg, index - 1, |cfg.parts| + 2, start, sent);
      totalSales := 0;
      assert MainAction(cfg, index - 1, |cfg.parts| + 2, start) == Compute(State(0, 1, size));
      for i := 0 to |data.parts|
        invariant RunRound(cfg, index - 1, |cfg.parts| + 2, State(i, 1, size), sent) == goal
      {
        ghost var a := State(i, 1, size);
        totalSales := totalSales + data.parts[i].saleCount;
        assert MainAction(cfg, index - 1, |cfg.parts| + 2, a) == Compute(State(i + 1, 1, size));
      }
      assert MainAction(cfg, index - 1, |cfg.parts| + 2, State(|data.parts|, 1, size)) == Compute(State(0, 2, size));
    }

    method CalculateUnderSale(cfg: Config, size: nat)
      requires Valid() && Sized(cfg) && index - 1 == cfg.selectIdx
      modifies data`underSaleParts, data`underSalePartsHash
      ensures Valid()
      ensures (State(|data.parts|, 2, size), sent) ==
              RunRound(cfg, index - 1, |cfg.parts| + 2, old(State(0, 2, size)), sent)
    {
      for i := 0 to |data.parts|
        invariant Valid()
        invariant RunRound(cfg, index - 1, |cfg.parts| + 2, State(i, 2, size), sent) ==
                  RunRound(cfg, index - 1, |cfg.parts| + 2, old(State(0, 2, size)), sent)
      {
        ghost var a := State(i, 2, size);
        var part := data.parts[i];
        if IsUnder(part, (totalSales, partCount)) {
          data.InsertUnderSale(part);
        }
        assert a.underSales + [] == a.underSales;
        assert MainAction(cfg, index - 1, |cfg.parts| + 2, a) == Compute(State(i + 1, 2, size));
      }
    }
  }
}
