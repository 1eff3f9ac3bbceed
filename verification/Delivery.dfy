/** From one process to the next: a value printed into a body, framed, copied through the buffers of
    sender and receiver, parsed, and read back by the scanner of its message kind. */
module Delivery {
  import Frames
  import opened Fields
  import opened Wire
  import opened RoundTrips
  import opened Query
  import opened BrandTables

  /** The buffers of a connection: the sender's `msgToServer` and the 84 bytes the receiver reads. */
  ghost predicate Connected(client: Frames.Client, socket: array<char>)
    reads client
  {
    client.Valid() && socket.Length == Frames.BUFFER_SIZE && socket != client.msgToServer
  }

  /** A body that a message can hold. */
  predicate Fits(body: string) {
    |body| <= Frames.MAX_BODY_LENGTH && '\0' !in body
  }

  lemma NumeralsHoldNoTerminator(n: int)
    ensures '\0' !in ToString(n) && '\0' !in PriceString(n)
  {
    OnePoint(n);
  }

  /** The body the receiver finds, and the enumerator it switches on. */
  method Deliver(client: Frames.Client, socket: array<char>, e: Frames.HeadEnum, body: string)
    returns (e': Frames.HeadEnum, text: string)
    requires Connected(client, socket) && Fits(body)
    modifies client, client.msgToServer, socket
    ensures e' == e && text == body
  {
    var m;
    e', m := Frames.Transmit(client, socket, e, body);
    text := Frames.Text(m.body[..]);
  }

  /** An order for a part stored elsewhere. */
  method DeliverOrder(client: Frames.Client, socket: array<char>, key: int, quantity: int, micros: int)
    returns (e: Frames.HeadEnum, o: Order)
    requires Connected(client, socket) && |ZipOrder(key, quantity, micros)| <= Frames.MAX_BODY_LENGTH
    modifies client, client.msgToServer, socket
    ensures e == Frames.HeadEnum.Order
    ensures o == Order(key, quantity, micros as real / 1000000.0) <==> 0 <= key && 0 <= quantity && 0 <= micros
  {
    hide ToString, PriceString, Split, OrderOf;
    NumeralsHoldNoTerminator(key);
    NumeralsHoldNoTerminator(quantity);
    NumeralsHoldNoTerminator(micros);
    OrderRoundTrip(key, quantity, micros);
    var text;
    e, text := Deliver(client, socket, Frames.HeadEnum.Order, ZipOrder(key, quantity, micros));
    o := UnzipOrder(text);
  }

  /** A row of the part table. */
  method DeliverPart(client: Frames.Client, socket: array<char>, p: Part) returns (e: Frames.HeadEnum, p': Part)
    requires Connected(client, socket) && |ZipPart(p)| <= Frames.MAX_BODY_LENGTH && '\0' !in p.container
    modifies client, client.msgToServer, socket
    ensures e == Frames.HeadEnum.Part
    ensures p' == p <==> 0 <= p.key && 0 <= p.brand.0 <= 9 && 0 <= p.brand.1 <= 9 && '|' !in p.container
  {
    hide ToString, Split, PartOf;
    NumeralsHoldNoTerminator(p.key);
    NumeralsHoldNoTerminator(p.brand.0);
    NumeralsHoldNoTerminator(p.brand.1);
    PartRoundTrip(p);
    var text;
    e, text := Deliver(client, socket, Frames.HeadEnum.Part, ZipPart(p));
    p' := UnzipPart(text);
  }

  /** A record of the sales tables, as an under-sold part or as part of a table sent round the ring. */
  method DeliverPartData(client: Frames.Client, socket: array<char>, e: Frames.HeadEnum,
                         id: int, b0: int, b1: int, saleCount: int, micros: int, container: string)
    returns (e': Frames.HeadEnum, p: PartData)
    requires e == Frames.HeadEnum.UnderSale || e == Frames.HeadEnum.PartData
    requires Connected(client, socket) && '\0' !in container
    requires |ZipPartData(id, (b0, b1), saleCount, micros, container)| <= Frames.MAX_BODY_LENGTH
    modifies client, client.msgToServer, socket
    ensures e' == e
    ensures p == PartData(id, (b0, b1), saleCount, micros as real / 1000000.0, container)
            <==> 0 <= id && 0 <= micros && CountReads(b0, b1, saleCount) && '|' !in container && '.' !in container
  {
    hide ToString, PriceString, Split, CountReads, PartDataOf;
    NumeralsHoldNoTerminator(id);
    NumeralsHoldNoTerminator(b0);
    NumeralsHoldNoTerminator(b1);
    NumeralsHoldNoTerminator(saleCount);
    NumeralsHoldNoTerminator(micros);
    PartDataRoundTrip(id, b0, b1, saleCount, micros, container);
    var text;
    e', text := Deliver(client, socket, e, ZipPartData(id, (b0, b1), saleCount, micros, container));
    p := UnzipPartData(text);
  }

  /** The totals of one process. */
  method DeliverTotals(client: Frames.Client, socket: array<char>, d: TotalData)
    returns (e: Frames.HeadEnum, d': TotalData)
    requires Connected(client, socket) && |ZipTotalData(d)| <= Frames.MAX_BODY_LENGTH
    modifies client, client.msgToServer, socket
    ensures e == Frames.HeadEnum.TotalData
    ensures d' == d <==> 0 <= d.from && 0 <= d.partCount && 0 <= d.totalSale
  {
    hide ToString, Split, TotalOf;
    NumeralsHoldNoTerminator(d.from);
    NumeralsHoldNoTerminator(d.partCount);
    NumeralsHoldNoTerminator(d.totalSale);
    TotalDataRoundTrip(d);
    var text;
    e, text := Deliver(client, socket, Frames.HeadEnum.TotalData, ZipTotalData(d));
    d' := UnzipTotalData(text);
  }

  /** A part sale; the fall-through then reads an answer out of the same body. */
  method DeliverPartSale(client: Frames.Client, socket: array<char>, rec: PartSale, from: int)
    returns (e: Frames.HeadEnum, rec': PartSale, from': int, ans: int)
    requires Connected(client, socket) && |ZipPartSaleData(rec, from)| <= Frames.MAX_BODY_LENGTH
    modifies client, client.msgToServer, socket
    ensures e == Frames.HeadEnum.FinalPart && ans == rec.partid
    ensures (rec', from') == (rec, from) <==> 0 <= rec.partid && 0 <= rec.orderCount && 0 <= rec.totalSale && 0 <= from
  {
    hide ToString, Split, PartSaleOf, Stoi;
    NumeralsHoldNoTerminator(rec.partid);
    NumeralsHoldNoTerminator(rec.orderCount);
    NumeralsHoldNoTerminator(rec.totalSale);
    NumeralsHoldNoTerminator(from);
    PartSaleRoundTrip(rec, from);
    FallThroughReadsPartId(rec, from);
    var text;
    e, text := Deliver(client, socket, Frames.HeadEnum.FinalPart, ZipPartSaleData(rec, from));
    rec', from' := UnzipPartSaleData(text);
    ans := Stoi(text);
  }

  /** The key of a matching part. */
  method DeliverPartKey(client: Frames.Client, socket: array<char>, key: int)
    returns (e: Frames.HeadEnum, key': int)
    requires Connected(client, socket) && |ToString(key)| <= Frames.MAX_BODY_LENGTH
    modifies client, client.msgToServer, socket
    ensures e == Frames.HeadEnum.PartKey && key' == key
  {
    hide ToString, Stoi;
    NumeralsHoldNoTerminator(key);
    StoiReads(key, "");
    assert ToString(key) + "" == ToString(key);
    var text;
    e, text := Deliver(client, socket, Frames.HeadEnum.PartKey, ToString(key));
    key' := Stoi(text);
  }

  /** The parameters of a query. */
  method DeliverStart(client: Frames.Client, socket: array<char>, x: Start) returns (e: Frames.HeadEnum, x': Start)
    requires Connected(client, socket) && |ZipStart(x)| <= Frames.MAX_BODY_LENGTH && '\0' !in x.container
    modifies client, client.msgToServer, socket
    ensures e == Frames.HeadEnum.Start
    ensures x' == x <==> 0 <= x.selectIdx && '|' !in x.container && BrandReads(x.brand.0, x.brand.1)
  {
    hide ToString, Split, StartOf, BrandReads;
    NumeralsHoldNoTerminator(x.selectIdx);
    NumeralsHoldNoTerminator(x.brand.0);
    NumeralsHoldNoTerminator(x.brand.1);
    StartRoundTrip(x);
    var text;
    e, text := Deliver(client, socket, Frames.HeadEnum.Start, ZipStart(x));
    x' := UnzipStart(text);
  }

  /** A token: its round and every counter. */
  method DeliverFinish(client: Frames.Client, socket: array<char>, round: nat, d: seq<nat>)
    returns (e: Frames.HeadEnum, idx: int, cnt: string)
    requires forall i :: 0 <= i < |d| ==> d[i] <= 9
    requires Connected(client, socket) && |ZipFinish(round, d)| <= Frames.MAX_BODY_LENGTH
    modifies client, client.msgToServer, socket
    ensures e == Frames.HeadEnum.Finish && idx == round && cnt == CounterChars(d)
  {
    CountersHoldNoTerminator(d);
    FinishRoundTrip(round, d);
    var text;
    e, text := Deliver(client, socket, Frames.HeadEnum.Finish, ZipFinish(round, d));
    idx, cnt := ParseFinish(text);
  }

  lemma CountersHoldNoTerminator(d: seq<nat>)
    requires forall i :: 0 <= i < |d| ==> d[i] <= 9
    ensures '\0' !in CounterChars(d)
  {
    var s := CounterChars(d);
    assert forall i :: 0 <= i < |s| ==> s[i] == DigitChar(d[i]);
  }
}
