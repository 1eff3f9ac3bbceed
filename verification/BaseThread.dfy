/** The base calculation of one process as the program's object: loops over orders and tables that make
    the moves of module BaseCalculator. */
module BaseThread {
  import opened Topology
  import opened Query
  import opened BrandTables
  import PartRows
  import opened BaseCalculator

  function LoopMeasure(cfg: Config, id: nat, round: nat, a: App): nat
    requires Sized(cfg) && id < |cfg.parts|
  {
    if round == 0 then if a.pos < |cfg.orders[id]| then |cfg.orders[id]| - a.pos else 0
    else if round == 1 then if a.pos < 4 then 4 - a.pos else 0
    else (if a.sub == 0 then 1 else 0) + if a.pos < |a.table| then |a.table| - a.pos else 0
  }

  /** The statements of one round up to the next `doAsync`, with the payloads they send. */
  ghost function RunRound(cfg: Config, id: nat, round: nat, a: App, out: seq<Body>): (App, seq<Body>)
    requires Sized(cfg) && id < |cfg.parts|
    decreases LoopMeasure(cfg, id, round, a)
  {
    match MainAction(cfg, id, round, a)
    case Compute(b) => RunRound(cfg, id, round, b, out)
    case SendBody(b, body) => RunRound(cfg, id, round, b, out + [body])
    case EnterBarrier => (a, out)
    case Finished => (a, out)
  }

  class Calculator {
    const index: nat
    const parts: seq<Part>
    const partIdHash: map<int, nat>
    const data: BrandData
    var localSales: int
    var totalSales: int
    var localPartCount: int
    var partCount: int
    /** The payloads handed to `sendMessager`, oldest first. */
    var sent: seq<Body>

    ghost predicate Valid()
      reads this, data
    {
      1 <= index && data.Valid() && PartRows.LastRows(parts, partIdHash)
    }

    ghost predicate RunsFor(cfg: Config)
      reads this
    {
      Sized(cfg) && 1 <= index <= |cfg.parts| && parts == cfg.parts[index - 1]
    }

    ghost function State(pos: nat, sub: nat, shared: (int, int)): App
      reads this, data
    {
      App(pos, sub, data.parts, localSales, localPartCount, partCount, totalSales, shared, data.underSaleParts)
    }

    constructor (index: nat, parts: seq<Part>)
      requires 1 <= index
      ensures Valid() && fresh(data) && this.index == index && this.parts == parts
      ensures State(0, 0, (0, 0)) == INIT_APP && sent == []
    {
      this.index, this.parts := index, parts;
      localSales, totalSales, localPartCount, partCount, sent := 0, 0, 0, 0, [];
      var hash := PartRows.IndexParts(parts);
      partIdHash := hash;
      data := new BrandData();
    }

    lemma Stored(cfg: Config, key: int)
      requires Valid() && RunsFor(cfg)
      ensures key in partIdHash <==> key in KeysAt(cfg, index - 1)
    {
    }

    /** An order for a part that is not stored here goes to the next process. */
    method SolveOrder(cfg: Config, order: Order)
      requires Valid() && RunsFor(cfg)
      modifies this`localSales, this`sent, data`parts, data`partIdHash
      ensures Valid()
      ensures forall pos, sub, shared ::
        State(pos, sub, shared) == if order.key in KeysAt(cfg, index - 1)
                                   then Counted(parts, old(State(pos, sub, shared)), order)
                                   else old(State(pos, sub, shared))
      ensures sent == if order.key in KeysAt(cfg, index - 1) then old(sent) else old(sent) + [OrderMsg(order)]
      ensures order.key in KeysAt(cfg, index - 1) ==>
        localSales == old(localSales) + order.quantity && IdSet(data.parts) == IdSet(old(data.parts)) + {order.key}
      ensures order.key !in KeysAt(cfg, index - 1) ==> localSales == old(localSales) && data.parts == old(data.parts)
    {
      Stored(cfg, order.key);
      if order.key !in partIdHash {
        sent := sent + [OrderMsg(order)];
        return;
      }
      var row := parts[partIdHash[order.key]];
      assert row == PartRow(parts, order.key);
      data.UpdateData(order, row.brand, row.container);
      assert data.parts == MergeIn(old(data.parts), Line(parts, order));
      localSales := localSales + order.quantity;
    }

    /** The loop over the local orders. */
    method SolveOrders(cfg: Config, shared: (int, int))
      requires Valid() && RunsFor(cfg)
      modifies this`localSales, this`sent, data`parts, data`partIdHash
      ensures Valid()
      ensures (State(|cfg.orders[index - 1]|, 0, shared), sent) ==
              RunRound(cfg, index - 1, 0, old(State(0, 0, shared)), old(sent))
    {
      var orders := cfg.orders[index - 1];
      for i := 0 to |orders|
        invariant Valid()
        invariant RunRound(cfg, index - 1, 0, State(i, 0, shared), sent) ==
                  RunRound(cfg, index - 1, 0, old(State(0, 0, shared)), old(sent))
      {
        ghost var a := State(i, 0, shared);
        SolveOrder(cfg, orders[i]);
        assert MainAction(cfg, index - 1, 0, a) ==
          if orders[i].key in KeysAt(cfg, index - 1) then Compute(State(i + 1, 0, shared))
          else SendBody(State(i + 1, 0, shared), OrderMsg(orders[i]));
      }
    }

    /** Between the first two barriers. */
    method ShareTotals(cfg: Config, shared: (int, int))
      requires Valid() && RunsFor(cfg)
      modifies this`localPartCount, this`partCount, this`totalSales, this`sent
      ensures Valid()
      ensures (State(4, 0, shared), sent) == RunRound(cfg, index - 1, 1, old(State(0, 0, shared)), old(sent))
      ensures localPartCount == old(localPartCount) + |data.parts| && partCount == old(partCount) + localPartCount
      ensures totalSales == old(totalSales) + localSales
      ensures sent == old(sent) + [TotalMsg(Port(index - 1), localPartCount, localSales)]
    {
      ghost var a0 := State(0, 0, shared);
      localPartCount := localPartCount + |data.parts|;
      ghost var a1 := State(1, 0, shared);
      partCount := partCount + localPartCount;
      ghost var a2 := State(2, 0, shared);
      totalSales := totalSales + localSales;
      ghost var a3 := State(3, 0, shared);
      sent := sent + [TotalMsg(Port(index - 1), localPartCount, localSales)];
      assert MainAction(cfg, index - 1, 1, a0) == Compute(a1);
      assert MainAction(cfg, index - 1, 1, a1) == Compute(a2);
      assert MainAction(cfg, index - 1, 1, a2) == Compute(a3);
      assert MainAction(cfg, index - 1, 1, a3) ==
        SendBody(State(4, 0, shared), TotalMsg(Port(index - 1), localPartCount, localSales));
      assert RunRound(cfg, index - 1, 1, State(4, 0, shared), sent) == (State(4, 0, shared), sent);
      assert RunRound(cfg, index - 1, 1, a2, old(sent)) == RunRound(cfg, index - 1, 1, a3, old(sent));
    }

    /** The search for under-sale parts between the last two barriers. */
    method ReportUnderSales(cfg: Config, shared: (int, int))
      requires Valid() && RunsFor(cfg)
      modifies this`sent
      ensures Valid()
      ensures (State(|data.parts|, 1, (totalSales, partCount)), sent) ==
              RunRound(cfg, index - 1, 2, old(State(0, 0, shared)), old(sent))
    {
      var avg := (totalSales, partCount);
      for i := 0 to |data.parts|
        invariant RunRound(cfg, index - 1, 2, State(i, 1, avg), sent) ==
                  RunRound(cfg, index - 1, 2, old(State(0, 0, shared)), old(sent))
      {
        if IsUnder(data.parts[i], avg) {
          sent := sent + [UnderMsg(data.parts[i])];
        }
      }
    }

    /** The server cases `order`, `totalData` and `underSale`. */
    method OnMessage(cfg: Config, body: Body)
      requires Valid() && RunsFor(cfg)
      modifies this, data
      ensures Valid()
      ensures forall pos, sub, shared ::
        State(pos, sub, shared) == OnBody(parts, KeysAt(cfg, index - 1), Port(index - 1), old(State(pos, sub, shared)), body).0
      ensures
        var forward := OnBody(parts, KeysAt(cfg, index - 1), Port(index - 1), old(State(0, 0, (0, 0))), body).1;
        sent == if forward then old(sent) + [body] else old(sent)
      ensures body.OrderMsg? ==> (sent == old(sent) <==> body.order.key in KeysAt(cfg, index - 1))
      ensures body.TotalMsg? && body.from != Port(index - 1) ==>
        partCount == old(partCount) + body.count && totalSales == old(totalSales) + body.sales && sent == old(sent) + [body]
      ensures body.UnderMsg? && body.part.id !in IdSet(old(data.underSaleParts)) ==>
        data.underSaleParts == old(data.underSaleParts) + [body.part] && sent == old(sent) + [body]
    {
      match body
      case OrderMsg(order) => SolveOrder(cfg, order);
      case TotalMsg(from, count, sales) =>
        if from != Port(index - 1) {
          partCount := partCount + count;
          totalSales := totalSales + sales;
          sent := sent + [body];
        }
      case UnderMsg(part) =>
        var inserted := data.TryInsertUnderSale(part);
        if inserted {
          sent := sent + [body];
        }
    }
  }
}
