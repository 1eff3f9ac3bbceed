/** The text forms of the messages and rows: the `zip*` printers of `Utils` and the single-pass
    scanners that read them back. */
module Wire {
  import Sequences
  import opened Fields
  import opened Query
  import opened BrandTables

  datatype Start = Start(selectIdx: int, container: string, brand: (int, int))

  datatype TotalData = TotalData(from: int, partCount: int, totalSale: int)

  datatype Loaded<T> = Ok(value: T) | EndBeforeUnzip

  function At(f: seq<string>, k: nat): string {
    if k < |f| then f[k] else ""
  }

  /** The number a field holds, not counting points. */
  function NoPoints(s: string): string {
    if s == "" then ""
    else NoPoints(s[..|s| - 1]) + if s[|s| - 1] == '.' then "" else [s[|s| - 1]]
  }

  lemma {:induction false} WithoutPoints(t: string)
    requires '.' !in t
    ensures NoPoints(t) == t
  {
    if t != "" {
      assert t == t[..|t| - 1] + [t[|t| - 1]];
      WithoutPoints(t[..|t| - 1]);
    }
  }

  /** The last character of a field as a digit. */
  function LastDigit(s: string): int {
    if s == "" then 0 else DigitValue(s[|s| - 1])
  }

  /** `if (!first) first = d else second = d` over a text. */
  function BrandDigits(s: string): (int, int) {
    if s == "" then (0, 0)
    else AddBrandDigit(BrandDigits(s[..|s| - 1]), DigitValue(s[|s| - 1]))
  }

  function AddBrandDigit(b: (int, int), d: int): (int, int) {
    if b.0 == 0 then (d, b.1) else (b.0, d)
  }

  /** The same, skipping everything that is not a digit. */
  function BrandIn(s: string): (int, int) {
    if s == "" then (0, 0)
    else
      var b, c := BrandIn(s[..|s| - 1]), s[|s| - 1];
      if '0' <= c <= '9' then AddBrandDigit(b, DigitValue(c)) else b
  }

  lemma LastDigitIs(s: string)
    requires s != ""
    ensures LastDigit(s) == s[|s| - 1] as int - '0' as int
  {
  }

  lemma TwoDigits(s: string)
    requires |s| == 2 && s[0] != '0'
    ensures BrandDigits(s) == (s[0] as int - '0' as int, s[1] as int - '0' as int)
  {
    assert s[..1][..0] == "";
    assert BrandDigits(s[..1]) == AddBrandDigit(BrandDigits(""), DigitValue(s[0]));
  }

  /** The brand column of a row reads Brand#xy. */
  lemma BrandOfRow(s: string)
    requires |s| == 8 && s[..6] == "Brand#" && '1' <= s[6] <= '9' && '0' <= s[7] <= '9'
    ensures BrandIn(s) == (s[6] as int - '0' as int, s[7] as int - '0' as int)
  {
    NoDigits("Brand#");
    assert s[..7][..6] == "Brand#";
    assert BrandIn(s[..7]) == AddBrandDigit(BrandIn("Brand#"), DigitValue(s[6]));
  }

  lemma {:induction false} NoDigits(s: string)
    requires forall i :: 0 <= i < |s| ==> !('0' <= s[i] <= '9')
    ensures BrandIn(s) == (0, 0)
  {
    if s != "" {
      NoDigits(s[..|s| - 1]);
    }
  }

  /** The second field of a part-data body: two brand digits, then the count. */
  function BrandAndCount(s: string): ((int, int), int) {
    if s == "" then ((0, 0), 0)
    else BrandAndCountStep(BrandAndCount(s[..|s| - 1]), DigitValue(s[|s| - 1]))
  }

  /** Everything from field 3 on, without points and separators. */
  function Rest(f: seq<string>): string {
    if |f| <= 3 then "" else Rest(f[..|f| - 1]) + NoPoints(f[|f| - 1])
  }

  /** A prefix with fewer fields is a proper prefix. */
  lemma MoreFields(s: string, i: nat)
    requires i <= |s|
    ensures |Split(s[..i])| < |Split(s)| ==> i < |s|
  {
    assert s[..|s|] == s;
  }

  /** How one more character changes the fields read so far. */
  function Grown(f: seq<string>, ch: char): (g: seq<string>)
    requires |f| >= 1
    ensures |g| == if ch == '|' then |f| + 1 else |f|
  {
    if ch == '|' then f + [""] else f[|f| - 1 := f[|f| - 1] + [ch]]
  }

  lemma Char(s: string, i: nat)
    requires i < |s|
    ensures Split(s[..i + 1]) == Grown(Split(s[..i]), s[i])
  {
    SplitStep(s, i);
  }

  lemma NextChar(s: string, i: nat)
    requires i <= |s| && |Split(s[..i])| < |Split(s)|
    ensures i < |s| && Split(s[..i + 1]) == Grown(Split(s[..i]), s[i])
  {
    MoreFields(s, i);
    Char(s, i);
  }

  lemma CompleteFields(s: string, i: nat, n: nat)
    requires i <= |s| && |Split(s[..i])| == n + 1
    ensures n < |Split(s)| && forall k :: 0 <= k < n ==> At(Split(s[..i]), k) == Split(s)[k]
  {
    SplitPrefix(s, i, n);
    forall k: nat | k < n { SplitPrefix(s, i, k); }
  }

  /** Before the first character there is one empty field, and every variable is at its start. */
  lemma NothingRead(s: string)
    ensures
      var f := Split(s[..0]);
      && f == [""] && (forall k: nat :: At(f, k) == "")
      && Num("") == 0 && LastDigit("") == 0 && BrandDigits("") == BrandIn("") == (0, 0)
      && Numbers(f) == (0, 0, 0, 0) && OrderRead(f) == (0, 0, Decimal(0.0, 1.0, false))
      && RowRead(f) == (0, 0, (0.0, 1.0)) && PartDataRead(f) == (0, ((0, 0), 0), Decimal(0.0, 1.0, false), "")
  {
    assert s[..0] == "";
  }

  lemma GrownAt(f: seq<string>, ch: char, k: nat)
    requires |f| >= 1
    ensures At(Grown(f, ch), k) == if ch != '|' && k == |f| - 1 then At(f, k) + [ch] else At(f, k)
  {
  }

  lemma NumAt(f: seq<string>, ch: char, k: nat)
    requires |f| >= 1
    ensures Num(At(Grown(f, ch), k)) ==
            if ch != '|' && k == |f| - 1 then Num(At(f, k)) * 10 + DigitValue(ch) else Num(At(f, k))
  {
    hide Num;
    GrownAt(f, ch, k);
    NumSnoc(At(f, k), ch);
  }

  lemma LoadDecAt(f: seq<string>, ch: char, k: nat)
    requires |f| >= 1
    ensures LoadDec(At(Grown(f, ch), k)) ==
            if ch != '|' && k == |f| - 1 then LoadDecStep(LoadDec(At(f, k)), ch) else LoadDec(At(f, k))
  {
    GrownAt(f, ch, k);
    assert (At(f, k) + [ch])[..|At(f, k)|] == At(f, k);
  }

  lemma LastDigitAt(f: seq<string>, ch: char, k: nat)
    requires |f| >= 1
    ensures LastDigit(At(Grown(f, ch), k)) ==
            if ch != '|' && k == |f| - 1 then DigitValue(ch) else LastDigit(At(f, k))
  {
    GrownAt(f, ch, k);
  }

  lemma BrandDigitsAt(f: seq<string>, ch: char, k: nat)
    requires |f| >= 1
    ensures BrandDigits(At(Grown(f, ch), k)) ==
            if ch != '|' && k == |f| - 1 then AddBrandDigit(BrandDigits(At(f, k)), DigitValue(ch)) else BrandDigits(At(f, k))
  {
    GrownAt(f, ch, k);
    assert (At(f, k) + [ch])[..|At(f, k)|] == At(f, k);
  }

  lemma BrandInAt(f: seq<string>, ch: char, k: nat)
    requires |f| >= 1
    ensures BrandIn(At(Grown(f, ch), k)) ==
            if ch != '|' && k == |f| - 1 && '0' <= ch <= '9'
            then AddBrandDigit(BrandIn(At(f, k)), DigitValue(ch)) else BrandIn(At(f, k))
  {
    GrownAt(f, ch, k);
    assert (At(f, k) + [ch])[..|At(f, k)|] == At(f, k);
  }

  lemma BrandAndCountAt(f: seq<string>, ch: char, k: nat)
    requires |f| >= 1
    ensures BrandAndCount(NoPoints(At(Grown(f, ch), k))) ==
            if ch != '|' && ch != '.' && k == |f| - 1
            then BrandAndCountStep(BrandAndCount(NoPoints(At(f, k))), DigitValue(ch)) else BrandAndCount(NoPoints(At(f, k)))
  {
    hide NoPoints, Grown, At;
    NoPointsAt(f, ch, k);
    var s := NoPoints(At(f, k));
    assert (s + [ch])[..|s|] == s;
  }

  // ---- part sales: id|orderCount|totalSale|from| ----

  function ZipPartSaleData(e: PartSale, from: int): string {
    ToString(e.partid) + "|" + ToString(e.orderCount) + "|" + ToString(e.totalSale) + "|" + ToString(from) + "|"
  }

  /** The first four fields as numbers. */
  ghost function Numbers(f: seq<string>): (int, int, int, int) {
    (Num(At(f, 0)), Num(At(f, 1)), Num(At(f, 2)), Num(At(f, 3)))
  }

  /** One more character of field `cnt`. */
  function NumbersNext(r: (int, int, int, int), cnt: nat, ch: char): (int, int, int, int) {
    if ch == '|' then r
    else if cnt == 0 then (r.0 * 10 + DigitValue(ch), r.1, r.2, r.3)
    else if cnt == 1 then (r.0, r.1 * 10 + DigitValue(ch), r.2, r.3)
    else if cnt == 2 then (r.0, r.1, r.2 * 10 + DigitValue(ch), r.3)
    else if cnt == 3 then (r.0, r.1, r.2, r.3 * 10 + DigitValue(ch))
    else r
  }

  lemma NumbersStep(f: seq<string>, ch: char)
    requires |f| >= 1
    ensures Numbers(Grown(f, ch)) == NumbersNext(Numbers(f), |f| - 1, ch)
  {
    hide Num, Grown;
    NumAt(f, ch, 0);
    NumAt(f, ch, 1);
    NumAt(f, ch, 2);
    NumAt(f, ch, 3);
  }

  lemma NumbersRead(s: string, i: nat, n: nat)
    requires i <= |s| && |Split(s[..i])| == n + 1 && 3 <= n <= 4
    ensures
      var r, f := Numbers(Split(s[..i])), Split(s);
      |f| > n && r.0 == Num(f[0]) && r.1 == Num(f[1]) && r.2 == Num(f[2]) && (n == 4 ==> r.3 == Num(f[3]))
  {
    hide Num;
    CompleteFields(s, i, n);
  }

  /** The fields of a part sale and its sender. */
  function PartSaleOf(f: seq<string>): (PartSale, int)
    requires |f| > 4
  {
    (PartSale(Num(f[0]), Num(f[2]), Num(f[1])), Num(f[3]))
  }

  method UnzipPartSaleData(s: string) returns (rec: PartSale, from: int)
    requires |Split(s)| > 4
    ensures (rec, from) == PartSaleOf(Split(s))
    ensures var f := Split(s);
      rec.partid == Num(f[0]) && rec.orderCount == Num(f[1]) && rec.totalSale == Num(f[2]) && from == Num(f[3])
  {
    hide Split, Grown, Numbers;
    NothingRead(s);
    var cnt, i := 0, 0;
    var partid, orderCount, totalSale := 0, 0, 0;
    from := 0;
    while cnt < 4
      invariant i <= |s| && 0 <= cnt <= 4 && cnt == |Split(s[..i])| - 1
      invariant var r := Numbers(Split(s[..i]));
        partid == r.0 && orderCount == r.1 && totalSale == r.2 && from == r.3
      decreases |s| - i
    {
      NextChar(s, i);
      NumbersStep(Split(s[..i]), s[i]);
      var ch := s[i];
      if ch == '|' {
        cnt := cnt + 1;
      } else if cnt == 0 {
        partid := partid * 10 + DigitValue(ch);
      } else if cnt == 1 {
        orderCount := orderCount * 10 + DigitValue(ch);
      } else if cnt == 2 {
        totalSale := totalSale * 10 + DigitValue(ch);
      } else {
        from := from * 10 + DigitValue(ch);
      }
      i := i + 1;
    }
    NumbersRead(s, i, 4);
    rec := PartSale(partid, totalSale, orderCount);
  }

  // ---- totals: from|partCount|totalSale| ----

  function ZipTotalData(d: TotalData): string {
    ToString(d.from) + "|" + ToString(d.partCount) + "|" + ToString(d.totalSale) + "|"
  }

  function TotalOf(f: seq<string>): TotalData
    requires |f| > 3
  {
    TotalData(Num(f[0]), Num(f[1]), Num(f[2]))
  }

  method UnzipTotalData(s: string) returns (rec: TotalData)
    requires |Split(s)| > 3
    ensures rec == TotalOf(Split(s))
    ensures var f := Split(s); rec.from == Num(f[0]) && rec.partCount == Num(f[1]) && rec.totalSale == Num(f[2])
  {
    hide Split, Grown, Numbers;
    NothingRead(s);
    var cnt, i := 0, 0;
    var from, partCount, totalSale := 0, 0, 0;
    while cnt < 3
      invariant i <= |s| && 0 <= cnt <= 3 && cnt == |Split(s[..i])| - 1
      invariant var r := Numbers(Split(s[..i])); from == r.0 && partCount == r.1 && totalSale == r.2
      decreases |s| - i
    {
      NextChar(s, i);
      NumbersStep(Split(s[..i]), s[i]);
      var ch := s[i];
      if ch == '|' {
        cnt := cnt + 1;
      } else if cnt == 0 {
        from := from * 10 + DigitValue(ch);
      } else if cnt == 1 {
        partCount := partCount * 10 + DigitValue(ch);
      } else {
        totalSale := totalSale * 10 + DigitValue(ch);
      }
      i := i + 1;
    }
    NumbersRead(s, i, 3);
    rec := TotalData(from, partCount, totalSale);
  }

  // ---- orders: key|quantity|price| ----

  function ZipOrder(key: int, quantity: int, micros: int): string {
    ToString(key) + "|" + ToString(quantity) + "|" + PriceString(micros) + "|"
  }

  /** A point in one of the two integer fields is skipped, but the scanner remembers it for the price. */
  function Lead(f: seq<string>): string {
    if '.' in At(f, 0) || '.' in At(f, 1) then "." else ""
  }

  function OrderOf(f: seq<string>): Order
    requires |f| > 3
  {
    Order(Num(NoPoints(f[0])), Num(NoPoints(f[1])), Dec(Lead(f) + f[2]).value)
  }

  /** The field of the price alone decides it if and only if no point stands in the fields before it, or
      a further point in front does not matter to it. */
  lemma PriceIsItsField(f: seq<string>)
    requires IsDecimal(At(f, 2))
    ensures
      Dec(Lead(f) + At(f, 2)).value == Dec(At(f, 2)).value
      <==> ('.' !in At(f, 0) && '.' !in At(f, 1)) || Whole(At(f, 2)) == "" || OnlyZeros(At(f, 2))
  {
    assert "" + At(f, 2) == At(f, 2);
    LeadingPointMatters(At(f, 2));
  }

  ghost function OrderRead(f: seq<string>): (int, int, Decimal) {
    (Num(NoPoints(At(f, 0))), Num(NoPoints(At(f, 1))), Dec(Lead(f) + At(f, 2)))
  }

  /** One more character of field `cnt`. */
  function OrderNext(r: (int, int, Decimal), cnt: nat, ch: char): (int, int, Decimal) {
    if ch == '|' || cnt > 2 then r
    else if ch == '.' then (r.0, r.1, DecStep(r.2, ch))
    else if cnt == 0 then (r.0 * 10 + DigitValue(ch), r.1, r.2)
    else if cnt == 1 then (r.0, r.1 * 10 + DigitValue(ch), r.2)
    else (r.0, r.1, DecStep(r.2, ch))
  }

  /** How one more character changes a field without its points ... */
  lemma NoPointsAt(f: seq<string>, ch: char, k: nat)
    requires |f| >= 1
    ensures NoPoints(At(Grown(f, ch), k)) ==
            if ch != '|' && ch != '.' && k == |f| - 1 then NoPoints(At(f, k)) + [ch] else NoPoints(At(f, k))
  {
    hide NoPoints;
    GrownAt(f, ch, k);
    NoPointsStep(At(f, k), ch);
  }

  lemma PlainNumAt(f: seq<string>, ch: char, k: nat)
    requires |f| >= 1
    ensures Num(NoPoints(At(Grown(f, ch), k))) ==
            if ch != '|' && ch != '.' && k == |f| - 1 then Num(NoPoints(At(f, k))) * 10 + DigitValue(ch) else Num(NoPoints(At(f, k)))
  {
    hide Num, NoPoints, Grown, At;
    NoPointsAt(f, ch, k);
    NumSnoc(NoPoints(At(f, k)), ch);
  }

  /** ... and the price with the point that was seen before it. */
  lemma LeadStep(f: seq<string>, ch: char)
    requires |f| >= 1
    ensures Dec(Lead(Grown(f, ch)) + At(Grown(f, ch), 2)) ==
            if ch == '|' || |f| > 3 || (ch != '.' && |f| < 3) then Dec(Lead(f) + At(f, 2))
            else DecStep(Dec(Lead(f) + At(f, 2)), ch)
  {
    hide Grown;
    GrownAt(f, ch, 0);
    GrownAt(f, ch, 1);
    GrownAt(f, ch, 2);
    var s := Lead(f) + At(f, 2);
    if |f| == 3 && ch != '|' {
      assert Lead(f) + (At(f, 2) + [ch]) == s + [ch] && (s + [ch])[..|s|] == s;
    } else if |f| < 3 && ch == '.' {
      assert s == Lead(f) && "."[..0] == "";
      assert Dec(".") == DecStep(Dec(""), '.');
    }
  }

  lemma OrderReadStep(f: seq<string>, ch: char)
    requires |f| >= 1
    ensures OrderRead(Grown(f, ch)) == OrderNext(OrderRead(f), |f| - 1, ch)
  {
    hide Num, Dec, Grown, NoPoints, Lead, At;
    PlainNumAt(f, ch, 0);
    PlainNumAt(f, ch, 1);
    LeadStep(f, ch);
  }

  /** The body of the scanner's loop. */
  method ScanOrder(cnt: nat, o: Order, base: real, dig: bool, ch: char)
    returns (cnt': nat, o': Order, base': real, dig': bool)
    requires cnt <= 2
    ensures cnt' == if ch == '|' then cnt + 1 else cnt
    ensures
      var r := OrderNext((o.key, o.quantity, Decimal(o.price, base, dig)), cnt, ch);
      o'.key == r.0 && o'.quantity == r.1 && Decimal(o'.price, base', dig') == r.2
  {
    cnt', o', base', dig' := cnt, o, base, dig;
    if ch == '|' {
      cnt' := cnt + 1;
    } else if ch == '.' {
      dig' := true;
    } else if cnt == 0 {
      o' := o.(key := o.key * 10 + DigitValue(ch));
    } else if cnt == 1 {
      o' := o.(quantity := o.quantity * 10 + DigitValue(ch));
    } else if dig {
      base' := base / 10.0;
      o' := o.(price := o.price + base' * DigitValue(ch) as real);
    } else {
      o' := o.(price := o.price * 10.0 + DigitValue(ch) as real);
    }
  }

  method UnzipOrder(s: string) returns (o: Order)
    requires |Split(s)| > 3
    ensures o == OrderOf(Split(s))
    ensures var f := Split(s);
      '.' !in f[0] && '.' !in f[1] ==> o.key == Num(f[0]) && o.quantity == Num(f[1]) && o.price == Dec(f[2]).value
  {
    hide Split, Grown, OrderRead, OrderNext;
    NothingRead(s);
    var cnt, i, base, dig := 0, 0, 1.0, false;
    o := Order(0, 0, 0.0);
    while cnt < 3
      invariant i <= |s| && 0 <= cnt <= 3 && cnt == |Split(s[..i])| - 1
      invariant (o.key, o.quantity, Decimal(o.price, base, dig)) == OrderRead(Split(s[..i]))
      decreases |s| - i
    {
      NextChar(s, i);
      OrderReadStep(Split(s[..i]), s[i]);
      cnt, o, base, dig := ScanOrder(cnt, o, base, dig, s[i]);
      i := i + 1;
    }
    OrderReadAll(s, i);
    PlainOrder(Split(s));
  }

  lemma PlainOrder(f: seq<string>)
    requires |f| > 3
    ensures '.' !in f[0] && '.' !in f[1] ==> OrderOf(f) == Order(Num(f[0]), Num(f[1]), Dec(f[2]).value)
  {
    if '.' !in f[0] && '.' !in f[1] {
      WithoutPoints(f[0]);
      WithoutPoints(f[1]);
      assert "" + f[2] == f[2];
    }
  }

  lemma OrderReadAll(s: string, i: nat)
    requires i <= |s| && |Split(s[..i])| == 4
    ensures |Split(s)| > 3
    ensures
      var r, o := OrderRead(Split(s[..i])), OrderOf(Split(s));
      o == Order(r.0, r.1, r.2.value)
  {
    hide Num, Dec, NoPoints;
    CompleteFields(s, i, 3);
  }

  // ---- parts: key|b1|b2|container| ----

  function ZipPart(p: Part): string {
    ToString(p.key) + "|" + ToString(p.brand.0) + "|" + ToString(p.brand.1) + "|" + p.container + "|"
  }

  function PartOf(f: seq<string>): Part
    requires |f| > 4
  {
    Part(Num(f[0]), (LastDigit(f[1]), LastDigit(f[2])), f[3])
  }

  method UnzipPart(s: string) returns (p: Part)
    requires |Split(s)| > 4
    ensures p == PartOf(Split(s))
    ensures var f := Split(s); p.key == Num(f[0]) && p.container == f[3]
    ensures var f := Split(s); f[1] != "" ==> p.brand.0 == f[1][|f[1]| - 1] as int - '0' as int
    ensures var f := Split(s); f[2] != "" ==> p.brand.1 == f[2][|f[2]| - 1] as int - '0' as int
  {
    hide Split, Num, Grown, LastDigit, At;
    NothingRead(s);
    var cnt, j := 0, 0;
    var key, first, second, container := 0, 0, 0, "";
    while cnt < 4
      invariant j <= |s| && 0 <= cnt <= 4 && cnt == |Split(s[..j])| - 1
      invariant var f := Split(s[..j]);
        key == Num(At(f, 0)) && first == LastDigit(At(f, 1)) && second == LastDigit(At(f, 2)) && container == At(f, 3)
      decreases |s| - j
    {
      NextChar(s, j);
      var ch := s[j];
      ghost var f := Split(s[..j]);
      NumAt(f, ch, 0);
      LastDigitAt(f, ch, 1);
      LastDigitAt(f, ch, 2);
      GrownAt(f, ch, 3);
      if ch == '|' {
        cnt := cnt + 1;
      } else if cnt == 0 {
        key := key * 10 + DigitValue(ch);
      } else if cnt == 1 {
        first := DigitValue(ch);
      } else if cnt == 2 {
        second := DigitValue(ch);
      } else {
        container := container + [ch];
      }
      j := j + 1;
    }
    CompleteFields(s, j, 4);
    p := Part(key, (first, second), container);
    if Split(s)[1] != "" {
      LastDigitIs(Split(s)[1]);
    }
    if Split(s)[2] != "" {
      LastDigitIs(Split(s)[2]);
    }
  }

  // ---- part data: id|b1b2saleCount|totalSales|container ----

  function ZipPartData(id: int, brand: (int, int), saleCount: int, micros: int, container: string): string {
    ToString(id) + "|" + ToString(brand.0) + ToString(brand.1) + ToString(saleCount) + "|" + PriceString(micros) + "|" + container
  }

  function PartDataOf(f: seq<string>): PartData
    requires |f| >= 1
  {
    var bc := BrandAndCount(NoPoints(At(f, 1)));
    PartData(Num(NoPoints(f[0])), bc.0, bc.1, Dec(Lead(f) + At(f, 2)).value, Rest(f))
  }

  ghost function PartDataRead(f: seq<string>): (int, ((int, int), int), Decimal, string)
    requires |f| >= 1
  {
    (Num(NoPoints(f[0])), BrandAndCount(NoPoints(At(f, 1))), Dec(Lead(f) + At(f, 2)), Rest(f))
  }

  function BrandAndCountStep(r: ((int, int), int), d: int): ((int, int), int) {
    if r.0.0 == 0 then ((d, r.0.1), r.1)
    else if r.0.1 == 0 then ((r.0.0, d), r.1)
    else (r.0, r.1 * 10 + d)
  }

  lemma PartDataReadStep(f: seq<string>, ch: char)
    requires |f| >= 1
    ensures PartDataRead(Grown(f, ch)) == PartDataNext(PartDataRead(f), |f| - 1, ch)
  {
    hide Num, Dec, BrandAndCount, Grown, Rest, Lead, NoPoints;
    assert f[0] == At(f, 0) && Grown(f, ch)[0] == At(Grown(f, ch), 0);
    PlainNumAt(f, ch, 0);
    BrandAndCountAt(f, ch, 1);
    LeadStep(f, ch);
    RestStep(f, ch);
  }

  /** What has been read, as the scanner's variables hold it in front of field `cnt`. */
  ghost predicate Holds(r: (int, ((int, int), int), Decimal, string), cnt: nat, p: PartData, base: real, dig: bool) {
    && r.0 == p.id && r.1 == (p.brand, p.saleCount) && r.3 == p.container
    && r.2 == Decimal(p.totalSales, base, r.2.dig)
    && (cnt <= 2 ==> r.2.dig == dig)   // a point in the container also sets `dig`
  }

  ghost function PartDataNext(r: (int, ((int, int), int), Decimal, string), cnt: nat, ch: char)
    : (int, ((int, int), int), Decimal, string)
  {
    if ch == '|' then r
    else if ch == '.' then (r.0, r.1, if cnt <= 2 then DecStep(r.2, ch) else r.2, r.3)
    else if cnt == 0 then (r.0 * 10 + DigitValue(ch), r.1, r.2, r.3)
    else if cnt == 1 then (r.0, BrandAndCountStep(r.1, DigitValue(ch)), r.2, r.3)
    else if cnt == 2 then (r.0, r.1, DecStep(r.2, ch), r.3)
    else (r.0, r.1, r.2, r.3 + [ch])
  }

  /** The body of the scanner's loop. */
  method ScanPartData(ghost r: (int, ((int, int), int), Decimal, string), cnt: nat, p: PartData, base: real, dig: bool, ch: char)
    returns (cnt': nat, p': PartData, base': real, dig': bool)
    requires Holds(r, cnt, p, base, dig)
    ensures cnt' == if ch == '|' then cnt + 1 else cnt
    ensures Holds(PartDataNext(r, cnt, ch), cnt', p', base', dig')
  {
    cnt', p', base', dig' := cnt, p, base, dig;
    if ch == '|' {
      cnt' := cnt + 1;
    } else if ch == '.' {
      dig' := true;
    } else if cnt == 0 {
      p' := p.(id := p.id * 10 + DigitValue(ch));
    } else if cnt == 1 {
      if p.brand.0 == 0 {
        p' := p.(brand := (DigitValue(ch), p.brand.1));
      } else if p.brand.1 == 0 {
        p' := p.(brand := (p.brand.0, DigitValue(ch)));
      } else {
        p' := p.(saleCount := p.saleCount * 10 + DigitValue(ch));
      }
    } else if cnt == 2 {
      if dig {
        base' := base / 10.0;
        p' := p.(totalSales := p.totalSales + base' * DigitValue(ch) as real);
      } else {
        p' := p.(totalSales := p.totalSales * 10.0 + DigitValue(ch) as real);
      }
    } else {
      p' := p.(container := p.container + [ch]);
    }
  }

  method UnzipPartData(s: string) returns (p: PartData)
    ensures p == PartDataOf(Split(s))
  {
    hide Split, Grown, PartDataRead;
    NothingRead(s);
    var cnt, base, dig := 0, 1.0, false;
    p := PartData(0, (0, 0), 0, 0.0, "");
    for i := 0 to |s|
      invariant cnt == |Split(s[..i])| - 1 && Holds(PartDataRead(Split(s[..i])), cnt, p, base, dig)
    {
      Char(s, i);
      PartDataReadStep(Split(s[..i]), s[i]);
      cnt, p, base, dig := ScanPartData(PartDataRead(Split(s[..i])), cnt, p, base, dig, s[i]);
    }
    assert s[..|s|] == s;
    PartDataReadAll(Split(s));
  }

  lemma PartDataReadAll(f: seq<string>)
    requires |f| >= 1
    ensures
      var r, p := PartDataRead(f), PartDataOf(f);
      p == PartData(r.0, r.1.0, r.1.1, r.2.value, r.3)
  {
  }

  lemma RestStep(f: seq<string>, ch: char)
    requires |f| >= 1
    ensures Rest(Grown(f, ch)) == if ch == '|' || |f| <= 3 || ch == '.' then Rest(f) else Rest(f) + [ch]
  {
    if ch == '|' {
      assert Grown(f, ch)[..|f|] == f;
      assert Rest(f) + "" == Rest(f);
    } else if |f| > 3 {
      LateRestStep(f, ch);
    }
  }

  lemma LateRestStep(f: seq<string>, ch: char)
    requires |f| > 3 && ch != '|'
    ensures Rest(Grown(f, ch)) == if ch == '.' then Rest(f) else Rest(f) + [ch]
  {
    var init, last := f[..|f| - 1], f[|f| - 1];
    assert Grown(f, ch)[..|f| - 1] == init;
    assert Rest(Grown(f, ch)) == Rest(init) + NoPoints(last + [ch]);
    NoPointsStep(last, ch);
    if ch != '.' {
      Sequences.ConcatAssociates(Rest(init), NoPoints(last), [ch]);
    }
  }

  lemma NoPointsStep(s: string, ch: char)
    ensures NoPoints(s + [ch]) == if ch == '.' then NoPoints(s) else NoPoints(s) + [ch]
  {
    assert (s + [ch])[..|s|] == s;
    assert NoPoints(s) + "" == NoPoints(s);
  }

  // ---- start: index|container|b1b2| ----

  function ZipStart(x: Start): string {
    ToString(x.selectIdx) + "|" + x.container + "|" + ToString(x.brand.0) + ToString(x.brand.1) + "|"
  }

  function StartOf(f: seq<string>): Start
    requires |f| > 3
  {
    Start(Num(f[0]), f[1], BrandDigits(f[2]))
  }

  method UnzipStart(s: string) returns (x: Start)
    requires |Split(s)| > 3
    ensures x == StartOf(Split(s))
    ensures var f := Split(s); x.selectIdx == Num(f[0]) && x.container == f[1]
    ensures var f := Split(s); |f[2]| == 2 && f[2][0] != '0' ==>
      x.brand == (f[2][0] as int - '0' as int, f[2][1] as int - '0' as int)
  {
    hide Split, Num, Grown, BrandDigits, At;
    NothingRead(s);
    var cnt, i := 0, 0;
    var idx, con, first, second := 0, "", 0, 0;
    while cnt < 3
      invariant i <= |s| && 0 <= cnt <= 3 && cnt == |Split(s[..i])| - 1
      invariant var f := Split(s[..i]);
        idx == Num(At(f, 0)) && con == At(f, 1) && (first, second) == BrandDigits(At(f, 2))
      decreases |s| - i
    {
      NextChar(s, i);
      var ch := s[i];
      ghost var f := Split(s[..i]);
      NumAt(f, ch, 0);
      GrownAt(f, ch, 1);
      BrandDigitsAt(f, ch, 2);
      if ch == '|' {
        cnt := cnt + 1;
      } else if cnt == 0 {
        idx := idx * 10 + DigitValue(ch);
      } else if cnt == 1 {
        con := con + [ch];
      } else if first == 0 {
        first := DigitValue(ch);
      } else {
        second := DigitValue(ch);
      }
      i := i + 1;
    }
    CompleteFields(s, i, 3);
    x := Start(idx, con, (first, second));
    ghost var f := Split(s);
    if |f[2]| == 2 && f[2][0] != '0' {
      TwoDigits(f[2]);
    }
  }

  // ---- rows of the order table ----

  ghost function RowRead(f: seq<string>): (int, int, (real, real)) {
    (Num(At(f, 1)), Num(At(f, 4)), LoadDec(At(f, 5)))
  }

  /** One more character of field `cnt`. */
  function RowNext(r: (int, int, (real, real)), cnt: nat, ch: char): (int, int, (real, real)) {
    if ch == '|' then r
    else if cnt == 1 then (r.0 * 10 + DigitValue(ch), r.1, r.2)
    else if cnt == 4 then (r.0, r.1 * 10 + DigitValue(ch), r.2)
    else if cnt == 5 then (r.0, r.1, LoadDecStep(r.2, ch))
    else r
  }

  lemma RowBar(r: (int, int, (real, real)), cnt: nat)
    ensures RowNext(r, cnt, '|') == r
  {
  }

  lemma RowReadStep(f: seq<string>, ch: char)
    requires |f| >= 1
    ensures RowRead(Grown(f, ch)) == RowNext(RowRead(f), |f| - 1, ch)
  {
    hide Num, LoadDec, Grown;
    NumAt(f, ch, 1);
    NumAt(f, ch, 4);
    LoadDecAt(f, ch, 5);
  }

  /** The body of the scanner's loop for a character that is no separator. */
  method ScanRow(cnt: nat, o: Order, base: real, ch: char) returns (o': Order, base': real)
    requires cnt <= 5 && ch != '|'
    ensures
      var r := RowNext((o.key, o.quantity, (o.price, base)), cnt, ch);
      o'.key == r.0 && o'.quantity == r.1 && o'.price == r.2.0 && base' == r.2.1
  {
    o', base' := o, base;
    if cnt == 1 {
      o' := o.(key := o.key * 10 + DigitValue(ch));
    } else if cnt == 4 {
      o' := o.(quantity := o.quantity * 10 + DigitValue(ch));
    } else if cnt == 5 {
      if ch == '.' {
        base' := base * 0.1;
      } else if base >= 1.0 {
        o' := o.(price := o.price * 10.0 + DigitValue(ch) as real);
      } else {
        o' := o.(price := o.price + base * DigitValue(ch) as real);
        base' := base * 0.1;
      }
    }
  }

  /** Fields 1, 4 and 5; a row that ends before its sixth separator is an error. */
  method LoadOrder(line: string) returns (r: Loaded<Order>)
    ensures r.EndBeforeUnzip? <==> |Split(line)| <= 6
    ensures r.Ok? ==> var f := Split(line); r.value == Order(Num(f[1]), Num(f[4]), LoadDec(f[5]).0)
  {
    hide Split, Grown, RowRead, RowNext;
    NothingRead(line);
    var cnt, j, base := 0, 0, 1.0;
    var o := Order(0, 0, 0.0);
    while j < |line|
      invariant j <= |line| && 0 <= cnt <= 5 && cnt == |Split(line[..j])| - 1
      invariant (o.key, o.quantity, (o.price, base)) == RowRead(Split(line[..j]))
      decreases |line| - j
    {
      Char(line, j);
      RowReadStep(Split(line[..j]), line[j]);
      RowBar(RowRead(Split(line[..j])), cnt);
      var ch := line[j];
      j := j + 1;
      if ch == '|' {
        if cnt == 5 {
          RowReadAll(line, j);
          return Ok(o);
        }
        cnt := cnt + 1;
      } else {
        o, base := ScanRow(cnt, o, base, ch);
      }
    }
    assert line[..j] == line;
    return EndBeforeUnzip;
  }

  lemma RowReadAll(line: string, j: nat)
    requires j <= |line| && |Split(line[..j])| == 7
    ensures |Split(line)| > 6
    ensures var f := Split(line); RowRead(Split(line[..j])) == (Num(f[1]), Num(f[4]), LoadDec(f[5]))
  {
    hide Num, LoadDec;
    CompleteFields(line, j, 6);
  }

  // ---- rows of the part table ----

  /** Fields 0, 3 and 6; the container must not be empty. */
  method LoadPart(line: string) returns (p: Part)
    requires |Split(line)| > 7 && Split(line)[6] != ""
    ensures var f := Split(line); p == Part(Num(f[0]), BrandIn(f[3]), f[6])
    ensures var f := Split(line); |f[3]| == 8 && f[3][..6] == "Brand#" && '1' <= f[3][6] <= '9' && '0' <= f[3][7] <= '9' ==>
      p.brand == (f[3][6] as int - '0' as int, f[3][7] as int - '0' as int)
  {
    hide Split, Num, Grown, BrandIn;
    NothingRead(line);
    var cnt, j := 0, 0;
    var key, first, second, container := 0, 0, 0, "";
    while cnt < 6
      invariant j <= |line| && 0 <= cnt <= 6 && cnt == |Split(line[..j])| - 1
      invariant var f := Split(line[..j]); key == Num(At(f, 0)) && (first, second) == BrandIn(At(f, 3))
      invariant At(Split(line[..j]), 6) == ""
      decreases |line| - j
    {
      NextChar(line, j);
      var ch := line[j];
      ghost var f := Split(line[..j]);
      NumAt(f, ch, 0);
      BrandInAt(f, ch, 3);
      GrownAt(f, ch, 6);
      if ch == '|' {
        cnt := cnt + 1;
      } else if cnt == 0 {
        key := key * 10 + DigitValue(ch);
      } else if cnt == 3 {
        if '0' <= ch <= '9' {
          if first == 0 {
            first := DigitValue(ch);
          } else {
            second := DigitValue(ch);
          }
        }
      }
      j := j + 1;
    }
    CompleteFields(line, j, 6);
    MoreFields(line, j);
    while line[j] != '|'
      invariant j <= |line| && |Split(line[..j])| == 7 && container == At(Split(line[..j]), 6)
      invariant j < |line|
      decreases |line| - j
    {
      Char(line, j);
      GrownAt(Split(line[..j]), line[j], 6);
      container := container + [line[j]];
      j := j + 1;
      MoreFields(line, j);
    }
    Char(line, j);
    GrownAt(Split(line[..j]), line[j], 6);
    CompleteFields(line, j + 1, 7);
    p := Part(key, (first, second), container);
    ghost var f := Split(line);
    if |f[3]| == 8 && f[3][..6] == "Brand#" && '1' <= f[3][6] <= '9' && '0' <= f[3][7] <= '9' {
      BrandOfRow(f[3]);
    }
  }
}
