/** What is printed is read back: the codecs of modules Fields and Wire put together. */
module RoundTrips {
  import opened Fields
  import opened Wire
  import opened Query
  import opened BrandTables

  // ---- splitting what was joined ----

  lemma SplitOf(t: string)
    requires t != ""
    ensures Split(t) == Grown(Split(t[..|t| - 1]), t[|t| - 1])
  {
  }

  lemma GrownAfter(head: seq<string>, g: seq<string>, c: char)
    requires |g| >= 1
    ensures Grown(head + g, c) == head + Grown(g, c)
  {
    if c == '|' {
      assert (head + g) + [""] == head + (g + [""]);
    } else {
      assert (head + g)[|head + g| - 1 := g[|g| - 1] + [c]] == head + g[|g| - 1 := g[|g| - 1] + [c]];
    }
  }

  lemma {:induction false} SplitConcat(s: string, t: string)
    ensures Split(s + "|" + t) == Split(s) + Split(t)
  {
    hide Split, Grown;
    var w := s + "|" + t;
    if t == "" {
      assert w == s + "|";
      SplitBar(s);
      SplitText("");
    } else {
      var t', c := t[..|t| - 1], t[|t| - 1];
      assert w[..|w| - 1] == s + "|" + t';
      SplitConcat(s, t');
      SplitOf(w);
      SplitOf(t);
      GrownAfter(Split(s), Split(t'), c);
    }
  }

  lemma SplitText(t: string)
    requires '|' !in t
    ensures Split(t) == [t]
  {
    SplitAppend("", t);
    assert "" + t == t;
  }

  lemma SplitNumber(n: int)
    ensures Split(ToString(n)) == [ToString(n)] && '|' !in ToString(n) && '.' !in ToString(n)
  {
    assert '|' !in ToString(n);
    SplitText(ToString(n));
  }

  /** A text survives as one field exactly if it holds no separator. */
  lemma FirstPiece(t: string)
    ensures Split(t)[0] == t <==> '|' !in t
  {
    FirstField(t);
  }

  // ---- part sales ----

  lemma PartSaleFields(e: PartSale, from: int)
    ensures Split(ZipPartSaleData(e, from)) ==
            [ToString(e.partid), ToString(e.orderCount), ToString(e.totalSale), ToString(from), ""]
  {
    var a, b, c, d := ToString(e.partid), ToString(e.orderCount), ToString(e.totalSale), ToString(from);
    SplitNumber(e.partid);
    SplitNumber(e.orderCount);
    SplitNumber(e.totalSale);
    SplitNumber(from);
    SplitConcat(a, b);
    SplitConcat(a + "|" + b, c);
    SplitConcat(a + "|" + b + "|" + c, d);
    SplitBar(a + "|" + b + "|" + c + "|" + d);
  }

  /** A part sale and its sender are read back exactly if none of the four numbers is negative. */
  lemma PartSaleRoundTrip(e: PartSale, from: int)
    ensures |Split(ZipPartSaleData(e, from))| > 4
    ensures
      PartSaleOf(Split(ZipPartSaleData(e, from))) == (e, from)
      <==> 0 <= e.partid && 0 <= e.orderCount && 0 <= e.totalSale && 0 <= from
  {
    hide Split, ToString, Num;
    PartSaleFields(e, from);
    IntegerRoundTrip(e.partid);
    IntegerRoundTrip(e.orderCount);
    IntegerRoundTrip(e.totalSale);
    IntegerRoundTrip(from);
  }

  // ---- totals ----

  lemma TotalDataRoundTrip(d: TotalData)
    ensures |Split(ZipTotalData(d))| > 3
    ensures TotalOf(Split(ZipTotalData(d))) == d <==> 0 <= d.from && 0 <= d.partCount && 0 <= d.totalSale
  {
    hide Split, ToString, Num;
    var a, b, c := ToString(d.from), ToString(d.partCount), ToString(d.totalSale);
    SplitNumber(d.from);
    SplitNumber(d.partCount);
    SplitNumber(d.totalSale);
    SplitConcat(a, b);
    SplitConcat(a + "|" + b, c);
    SplitBar(a + "|" + b + "|" + c);
    IntegerRoundTrip(d.from);
    IntegerRoundTrip(d.partCount);
    IntegerRoundTrip(d.totalSale);
  }

  /** The total is printed from 64 bits and read into 32.  The scanner adds the character code before it
      takes '0' off again, so no intermediate value leaves the 32 bits if and only if the total is at
      least 48 below the limit. */
  lemma NarrowingIsSafe(n: nat)
    ensures
      (forall i :: 0 <= i < |Digits(n)| ==> Num(Digits(n)[..i]) * 10 + Digits(n)[i] as int < 0x8000_0000)
      <==> n + 48 < 0x8000_0000
  {
    var d := Digits(n);
    NumOfDigits(n);
    forall i | 0 <= i < |d| ensures Num(d[..i]) * 10 + d[i] as int <= n + 48 {
      PrefixIsSmaller(n, i + 1);
      assert d[..i + 1][..i] == d[..i];
    }
    assert d[..|d| - 1] + [d[|d| - 1]] == d;
    assert Num(d[..|d| - 1]) * 10 + d[|d| - 1] as int == n + 48;
  }

  lemma {:induction false} PrefixIsSmaller(n: nat, i: nat)
    requires i <= |Digits(n)|
    ensures 0 <= Num(Digits(n)[..i]) <= n
  {
    var d := Digits(n);
    NumOfDigits(n);
    if i == |d| {
      assert d[..i] == d;
    } else if n >= 10 {
      PrefixIsSmaller(n / 10, i);
      assert d[..i] == Digits(n / 10)[..i];
    } else {
      assert d[..i] == "";
    }
  }

  // ---- orders ----

  /** An order is read back exactly if neither its numbers nor its price are negative. */
  lemma OrderRoundTrip(key: int, quantity: int, micros: int)
    ensures |Split(ZipOrder(key, quantity, micros))| > 3
    ensures
      OrderOf(Split(ZipOrder(key, quantity, micros))) == Order(key, quantity, micros as real / 1000000.0)
      <==> 0 <= key && 0 <= quantity && 0 <= micros
  {
    hide Split, ToString, Num, Dec, PriceString, NoPoints;
    var a, b, c := ToString(key), ToString(quantity), PriceString(micros);
    SplitNumber(key);
    SplitNumber(quantity);
    OnePoint(micros);
    PriceRoundTrip(micros);
    SplitText(c);
    SplitConcat(a, b);
    SplitConcat(a + "|" + b, c);
    SplitBar(a + "|" + b + "|" + c);
    WithoutPoints(a);
    WithoutPoints(b);
    assert "" + c == c;
    IntegerRoundTrip(key);
    IntegerRoundTrip(quantity);
  }

  // ---- parts ----

  lemma LastDigitOfNumber(n: int)
    ensures LastDigit(ToString(n)) == n <==> 0 <= n <= 9
    ensures 0 <= LastDigit(ToString(n)) <= 9 && ToString(n) != ""
  {
    var d := if n < 0 then Digits(-n) else Digits(n);
    assert ToString(n)[|ToString(n)| - 1] == d[|d| - 1];
    assert '0' <= d[|d| - 1] <= '9';
  }

  /** A part is read back exactly if its key is not negative, both brand codes are single digits and
      the container holds no separator. */
  lemma PartRoundTrip(p: Part)
    ensures |Split(ZipPart(p))| > 4
    ensures
      PartOf(Split(ZipPart(p))) == p
      <==> 0 <= p.key && 0 <= p.brand.0 <= 9 && 0 <= p.brand.1 <= 9 && '|' !in p.container
  {
    hide Split, ToString, Num, LastDigit;
    var a, b, c, d := ToString(p.key), ToString(p.brand.0), ToString(p.brand.1), p.container;
    SplitNumber(p.key);
    SplitNumber(p.brand.0);
    SplitNumber(p.brand.1);
    SplitConcat(a, b);
    SplitConcat(a + "|" + b, c);
    SplitConcat(a + "|" + b + "|" + c, d);
    SplitBar(a + "|" + b + "|" + c + "|" + d);
    IntegerRoundTrip(p.key);
    LastDigitOfNumber(p.brand.0);
    LastDigitOfNumber(p.brand.1);
    FirstPiece(d);
    if '|' !in d {
      SplitText(d);
    }
  }

  // ---- start ----

  lemma StartFields(x: Start)
    ensures Split(ZipStart(x)) ==
            [ToString(x.selectIdx)] + Split(x.container) + [ToString(x.brand.0) + ToString(x.brand.1), ""]
  {
    hide Split, ToString;
    var a, b, c := ToString(x.selectIdx), x.container, ToString(x.brand.0) + ToString(x.brand.1);
    SplitNumber(x.selectIdx);
    SplitNumber(x.brand.0);
    SplitNumber(x.brand.1);
    SplitText(c);
    SplitConcat(a, b);
    SplitConcat(a + "|" + b, c);
    SplitBar(a + "|" + b + "|" + c);
    assert ZipStart(x) == a + "|" + b + "|" + c + "|";
  }

  /** The first character of a number: no zero unless the number is 0, and '-' counts as -3. */
  lemma {:induction false} LeadingDigit(n: int)
    ensures ToString(n) != "" && (n == 0 ==> ToString(n) == "0")
    ensures n > 0 ==> 1 <= DigitValue(ToString(n)[0]) <= 9 && (DigitValue(ToString(n)[0]) == n <==> n <= 9)
    ensures 0 < n <= 9 ==> |ToString(n)| == 1
    ensures n < 0 ==> ToString(n)[0] == '-' && DigitValue(ToString(n)[0]) == -3
    ensures n == -3 ==> ToString(n) == "-3"
  {
    if n >= 10 {
      LeadingDigit(n / 10);
      assert Digits(n)[0] == Digits(n / 10)[0];
    }
  }

  lemma {:induction false} BrandZero(t: string)
    ensures BrandDigits("0" + t) == BrandDigits(t)
  {
    var w := "0" + t;
    if t == "" {
      assert w[..0] == "";
    } else {
      assert w[..|w| - 1] == "0" + t[..|t| - 1];
      BrandZero(t[..|t| - 1]);
    }
  }

  lemma {:induction false} BrandFirst(c: char, t: string)
    requires DigitValue(c) != 0
    ensures BrandDigits([c] + t) == (DigitValue(c), LastDigit(t))
  {
    var w := [c] + t;
    if t == "" {
      assert w[..0] == "";
    } else {
      assert w[..|w| - 1] == [c] + t[..|t| - 1];
      BrandFirst(c, t[..|t| - 1]);
    }
  }

  /** The brand code that a start message carries is read back. */
  predicate BrandReads(b0: int, b1: int) {
    ((1 <= b0 <= 9 || b0 == -3) && 0 <= b1 <= 9) || (b0 == 0 && b1 == 0)
  }

  lemma BrandOfStart(b0: int, b1: int)
    ensures BrandDigits(ToString(b0) + ToString(b1)) == (b0, b1) <==> BrandReads(b0, b1)
  {
    hide ToString, BrandDigits;
    var a, b := ToString(b0), ToString(b1);
    LeadingDigit(b0);
    LeadingDigit(b1);
    LastDigitOfNumber(b1);
    if b0 == 0 {
      BrandZero(b);
      if b1 == 0 {
        BrandZero("");
        assert "0" + "" == "0" && BrandDigits("") == (0, 0) by { EmptyBrand(); }
      } else {
        BrandFirst(b[0], b[1..]);
        assert b == [b[0]] + b[1..];
      }
    } else {
      var rest := a[1..] + b;
      BrandFirst(a[0], rest);
      assert a + b == [a[0]] + rest;
      assert rest[|rest| - 1] == b[|b| - 1];
    }
  }

  lemma EmptyBrand()
    ensures BrandDigits("") == (0, 0)
  {
  }

  /** A start message is read back exactly if the index is not negative, the container holds no separator
      and the brand code is two digits, the first of them not 0 unless both are (the scanner takes a
      leading 0 for no digit, and a minus sign for the digit -3). */
  lemma StartRoundTrip(x: Start)
    ensures |Split(ZipStart(x))| > 3
    ensures
      StartOf(Split(ZipStart(x))) == x
      <==> 0 <= x.selectIdx && '|' !in x.container && BrandReads(x.brand.0, x.brand.1)
  {
    hide Split, ToString, Num, BrandDigits, BrandReads;
    var g := Split(x.container);
    StartFields(x);
    IntegerRoundTrip(x.selectIdx);
    FirstField(x.container);
    if '|' !in x.container {
      SplitText(x.container);
      BrandOfStart(x.brand.0, x.brand.1);
    } else {
      assert Split(ZipStart(x))[1] == g[0];
    }
  }

  // ---- part data ----

  /** A text without points and separators. */
  function Kept(t: string): string {
    if t == "" then ""
    else Kept(t[..|t| - 1]) + if t[|t| - 1] == '|' || t[|t| - 1] == '.' then "" else [t[|t| - 1]]
  }

  lemma {:induction false} KeptWhole(t: string)
    ensures |Kept(t)| <= |t|
    ensures Kept(t) == t <==> '|' !in t && '.' !in t
  {
    if t != "" {
      assert t == t[..|t| - 1] + [t[|t| - 1]];
      KeptWhole(t[..|t| - 1]);
    }
  }

  lemma {:induction false} RestIsKept(head: seq<string>, t: string)
    requires |head| == 3
    ensures Rest(head + Split(t)) == Kept(t)
  {
    hide Rest, Grown;
    if t == "" {
      NoRest(head);
    } else {
      var t', c := t[..|t| - 1], t[|t| - 1];
      RestIsKept(head, t');
      RestStep(head + Split(t'), c);
      GrownAfter(head, Split(t'), c);
      SplitOf(t);
      assert Kept(t') + "" == Kept(t');
    }
  }

  lemma NoRest(head: seq<string>)
    requires |head| == 3
    ensures Rest(head + [""]) == ""
  {
    assert (head + [""])[..3] == head;
  }

  /** The second brand digit and the count: what follows the first brand digit. */
  function SecondAndCount(s: string): (int, int) {
    if s == "" then (0, 0)
    else
      var r, d := SecondAndCount(s[..|s| - 1]), DigitValue(s[|s| - 1]);
      if r.0 == 0 then (d, r.1) else (r.0, r.1 * 10 + d)
  }

  lemma {:induction false} CountZero(t: string)
    ensures BrandAndCount("0" + t) == BrandAndCount(t) && SecondAndCount("0" + t) == SecondAndCount(t)
  {
    var w := "0" + t;
    if t == "" {
      assert w[..0] == "";
    } else {
      assert w[..|w| - 1] == "0" + t[..|t| - 1];
      CountZero(t[..|t| - 1]);
    }
  }

  lemma {:induction false} CountFirst(c: char, t: string)
    requires DigitValue(c) != 0
    ensures BrandAndCount([c] + t) == ((DigitValue(c), SecondAndCount(t).0), SecondAndCount(t).1)
    ensures SecondAndCount([c] + t) == (DigitValue(c), Num(t))
  {
    var w := [c] + t;
    if t == "" {
      assert w[..0] == "";
    } else {
      assert w[..|w| - 1] == [c] + t[..|t| - 1];
      CountFirst(c, t[..|t| - 1]);
    }
  }

  lemma EmptyCount()
    ensures BrandAndCount("") == ((0, 0), 0) && SecondAndCount("") == (0, 0)
  {
  }

  lemma SmallNumbers()
    ensures Num("3") == 3 && Num("-") == -3
  {
    assert "3"[..0] == "";
    MinusIsRead();
  }

  /** A digit too many in front of a number is never the number. */
  lemma ThreeMore(n: int)
    ensures Num("3" + ToString(n)) != n
  {
    hide Num, Digits, Pow10;
    var d := Digits(if n < 0 then -n else n);
    SmallNumbers();
    NumAppend("3", ToString(n));
    NumOfDigits(if n < 0 then -n else n);
    PowIsPositive(|ToString(n)|);
    if n < 0 {
      NumAppend("-", d);
      PowIsPositive(|d|);
      OnePowMore(|d|);
    }
  }

  lemma OnePowMore(k: nat)
    ensures Pow10(k + 1) == 10 * Pow10(k)
  {
  }

  lemma {:induction false} PowIsPositive(k: nat)
    ensures 0 < Pow10(k)
  {
    if k > 0 {
      PowIsPositive(k - 1);
    }
  }

  /** Brand code and count of part data are read back. */
  predicate CountReads(b0: int, b1: int, n: int) {
    (1 <= b0 <= 9 && ((1 <= b1 <= 9 && 0 <= n) || (b1 == 0 && n == 0))) || (b0 == 0 && b1 == 0 && n == 0)
  }

  lemma SecondThenCount(b1: int, n: int)
    ensures SecondAndCount(ToString(b1) + ToString(n)) == (b1, n) <==> (1 <= b1 <= 9 && 0 <= n) || (b1 == 0 && n == 0)
  {
    hide ToString, SecondAndCount, Num, BrandAndCount;
    var b, c := ToString(b1), ToString(n);
    LeadingDigit(b1);
    LeadingDigit(n);
    EmptyCount();
    IntegerRoundTrip(n);
    if b1 == 0 {
      CountZero(c);
      if n == 0 {
        CountZero("");
        assert "0" + "" == "0";
      } else {
        CountFirst(c[0], c[1..]);
        assert c == [c[0]] + c[1..];
      }
    } else {
      var rest := b[1..] + c;
      CountFirst(b[0], rest);
      assert b + c == [b[0]] + rest;
      if 1 <= b1 <= 9 {
        assert rest == c;
      } else if b1 == -3 {
        assert rest == "3" + c;
        ThreeMore(n);
      }
    }
  }

  lemma BrandThenCount(b0: int, b1: int, n: int)
    ensures BrandAndCount(ToString(b0) + ToString(b1) + ToString(n)) == ((b0, b1), n) <==> CountReads(b0, b1, n)
  {
    hide ToString, SecondAndCount, Num, BrandAndCount;
    var a, b, c := ToString(b0), ToString(b1), ToString(n);
    LeadingDigit(b0);
    SecondThenCount(b1, n);
    if b0 == 0 {
      assert a + b + c == "0" + (b + c);
      CountZero(b + c);
      NoBrand(b1, n);
    } else {
      var rest := a[1..] + (b + c);
      CountFirst(a[0], rest);
      assert a + b + c == [a[0]] + rest;
      if 1 <= b0 <= 9 {
        assert rest == b + c;
      } else if b0 == -3 {
        assert rest == ['3'] + (b + c);
        CountFirst('3', b + c);
        if b1 == 3 {
          LeadingDigit(3);
          assert b == "3" by { ThreeIs(); }
          ThreeMore(n);
        }
      }
    }
  }

  lemma ThreeIs()
    ensures ToString(3) == "3"
  {
  }

  /** Without a first brand digit the rest must be zeros. */
  lemma NoBrand(b1: int, n: int)
    ensures BrandAndCount(ToString(b1) + ToString(n)) == ((0, b1), n) <==> b1 == 0 && n == 0
  {
    hide ToString, SecondAndCount, Num, BrandAndCount;
    var b, c := ToString(b1), ToString(n);
    LeadingDigit(b1);
    LeadingDigit(n);
    EmptyCount();
    if b1 != 0 {
      CountFirst(b[0], b[1..] + c);
      assert b + c == [b[0]] + (b[1..] + c);
    } else {
      CountZero(c);
      if n == 0 {
        CountZero("");
        assert "0" + "" == "0";
      } else {
        CountFirst(c[0], c[1..]);
        assert c == [c[0]] + c[1..];
      }
    }
  }

  lemma ThreeFields(a: string, b: string, c: string, t: string)
    requires '|' !in a && '|' !in b && '|' !in c
    ensures Split(a + "|" + b + "|" + c + "|" + t) == [a, b, c] + Split(t)
  {
    hide Split;
    SplitText(a);
    SplitText(b);
    SplitText(c);
    SplitConcat(a, b);
    SplitConcat(a + "|" + b, c);
    SplitConcat(a + "|" + b + "|" + c, t);
  }

  lemma PartDataFields(id: int, b0: int, b1: int, saleCount: int, micros: int, container: string)
    ensures Split(ZipPartData(id, (b0, b1), saleCount, micros, container)) ==
            [ToString(id), ToString(b0) + ToString(b1) + ToString(saleCount), PriceString(micros)] + Split(container)
  {
    hide Split, ToString, PriceString;
    var a, b, c := ToString(id), ToString(b0) + ToString(b1) + ToString(saleCount), PriceString(micros);
    SplitNumber(id);
    SplitNumber(b0);
    SplitNumber(b1);
    SplitNumber(saleCount);
    OnePoint(micros);
    ThreeFields(a, b, c, container);
    JoinedPartData(a, ToString(b0), ToString(b1), ToString(saleCount), c, container);
  }

  lemma JoinedPartData(a: string, b0: string, b1: string, n: string, c: string, t: string)
    ensures a + "|" + b0 + b1 + n + "|" + c + "|" + t == a + "|" + (b0 + b1 + n) + "|" + c + "|" + t
  {
    assert a + "|" + b0 + b1 + n == a + "|" + (b0 + b1 + n);
  }

  /** Part data is read back exactly if the id and the price are not negative, brand code and count can
      be told apart, and the container is free of separators and points, which the scanner drops. */
  lemma PartDataRoundTrip(id: int, b0: int, b1: int, saleCount: int, micros: int, container: string)
    ensures
      PartDataOf(Split(ZipPartData(id, (b0, b1), saleCount, micros, container))) ==
        PartData(id, (b0, b1), saleCount, micros as real / 1000000.0, container)
      <==> 0 <= id && 0 <= micros && CountReads(b0, b1, saleCount) && '|' !in container && '.' !in container
  {
    hide Split, ToString, PriceString, Num, Dec, BrandAndCount, CountReads, Rest, NoPoints;
    var a, b, c := ToString(id), ToString(b0) + ToString(b1) + ToString(saleCount), PriceString(micros);
    PartDataFields(id, b0, b1, saleCount, micros, container);
    SplitNumber(id);
    SplitNumber(b0);
    SplitNumber(b1);
    SplitNumber(saleCount);
    WithoutPoints(a);
    WithoutPoints(b);
    IntegerRoundTrip(id);
    PriceRoundTrip(micros);
    BrandThenCount(b0, b1, saleCount);
    RestIsKept([a, b, c], container);
    KeptWhole(container);
    assert "" + c == c;
    var f := [a, b, c] + Split(container);
    assert f[0] == a && f[1] == b && f[2] == c;
  }

  /** In no printed body a point stands in a field before the price. */
  lemma PrintedFieldsHaveNoPoint(key: int, quantity: int, brand: (int, int), micros: int, container: string)
    ensures Lead(Split(ZipOrder(key, quantity, micros))) == ""
    ensures Lead(Split(ZipPartData(key, brand, quantity, micros, container))) == ""
  {
    hide Split, ToString, PriceString;
    var a, b, c := ToString(key), ToString(quantity), PriceString(micros);
    SplitNumber(key);
    SplitNumber(quantity);
    SplitNumber(brand.0);
    SplitNumber(brand.1);
    OnePoint(micros);
    ThreeFields(a, b, c, "");
    assert ZipOrder(key, quantity, micros) == a + "|" + b + "|" + c + "|" + "";
    PartDataFields(key, brand.0, brand.1, quantity, micros, container);
  }

  // ---- numbers at the front of a body ----

  function DigitPrefix(s: string): string {
    if s != "" && '0' <= s[0] <= '9' then [s[0]] + DigitPrefix(s[1..]) else ""
  }

  /** `stoi` and, for a body that starts with an integer, `stold`. */
  function Stoi(s: string): int {
    if s != "" && s[0] == '-' then -Num(DigitPrefix(s[1..])) else Num(DigitPrefix(s))
  }

  lemma {:induction false} DigitPrefixOf(d: string, t: string)
    requires (forall c :: c in d ==> '0' <= c <= '9') && (t == "" || !('0' <= t[0] <= '9'))
    ensures DigitPrefix(d + t) == d
  {
    if d == "" {
      assert d + t == t;
    } else {
      assert (d + t)[1..] == d[1..] + t && (d + t)[0] == d[0];
      assert d[0] in d && forall c :: c in d[1..] ==> c in d;
      DigitPrefixOf(d[1..], t);
      assert d == [d[0]] + d[1..];
    }
  }

  lemma StoiReadsDigits(n: nat, t: string)
    requires t == "" || !('0' <= t[0] <= '9')
    ensures Stoi(Digits(n) + t) == n && Stoi("-" + Digits(n) + t) == 0 - n
  {
    var d, w := Digits(n), "-" + Digits(n) + t;
    DigitPrefixOf(d, t);
    NumOfDigits(n);
    assert d[0] in d && (d + t)[0] == d[0];
    assert w[1..] == d + t && w[0] == '-';
  }

  lemma StoiReads(n: int, t: string)
    requires t == "" || !('0' <= t[0] <= '9')
    ensures Stoi(ToString(n) + t) == n
  {
    StoiReadsDigits(if n < 0 then -n else n, t);
  }

  /** What the fall-through of `finalPart` into `finalAns` reads out of the same body: the part id. */
  lemma FallThroughReadsPartId(e: PartSale, from: int)
    ensures Stoi(ZipPartSaleData(e, from)) == e.partid
  {
    var t := "|" + ToString(e.orderCount) + "|" + ToString(e.totalSale) + "|" + ToString(from) + "|";
    assert ZipPartSaleData(e, from) == ToString(e.partid) + t;
    StoiReads(e.partid, t);
  }

  // ---- finish: round|counters ----

  function CounterChars(d: seq<nat>): (s: string)
    requires forall i :: 0 <= i < |d| ==> d[i] <= 9
    ensures |s| == |d|
  {
    seq(|d|, i requires 0 <= i < |d| => DigitChar(d[i]))
  }

  function ZipFinish(round: nat, d: seq<nat>): string
    requires forall i :: 0 <= i < |d| ==> d[i] <= 9
  {
    Digits(round) + "|" + CounterChars(d)
  }

  /** The `finish` case takes the body apart at the first separator. */
  method ParseFinish(temp: string) returns (idx: int, cnt: string)
    requires '|' in temp
    ensures var f := Split(temp)[0]; |f| < |temp| && idx == Stoi(f + "|") && cnt == temp[|f| + 1..]
  {
    FirstField(temp);
    ghost var f := Split(temp)[0];
    assert temp[|f|] == '|' by { BarAfterFirstField(temp); }
    var dif := 0;
    for i := 0 to |temp|
      invariant i <= |f| && dif == 0
    {
      if temp[i] == '|' {
        assert i == |f|;
        dif := i + 1;
        break;
      }
    }
    assert temp[..dif] == f + "|";
    idx := Stoi(temp[..dif]);
    cnt := temp[dif..];
  }

  lemma {:induction false} BarAfterFirstField(s: string)
    requires '|' in s
    ensures |Split(s)[0]| < |s| && s[|Split(s)[0]|] == '|'
  {
    var s', c := s[..|s| - 1], s[|s| - 1];
    assert s == s' + [c];
    FirstField(s);
    FirstField(s');
    if '|' in s' {
      BarAfterFirstField(s');
    }
  }

  /** A token is read back. */
  lemma FinishRoundTrip(round: nat, d: seq<nat>)
    requires forall i :: 0 <= i < |d| ==> d[i] <= 9
    ensures
      var s := ZipFinish(round, d);
      var f := Split(s)[0];
      '|' in s && |f| < |s| && Stoi(f + "|") == round && s[|f| + 1..] == CounterChars(d)
  {
    var a, c := Digits(round), CounterChars(d);
    assert '|' !in a;
    SplitConcat(a, c);
    SplitText(a);
    StoiReadsDigits(round, "|");
    assert (a + "|" + c)[|a|] == '|';
  }

  /** Incrementing a character of the body in place, as `sendFinish` does, increments the counter. */
  lemma IncrementInPlace(round: nat, d: seq<nat>, id: nat)
    requires id < |d| && forall i :: 0 <= i < |d| ==> d[i] <= 8
    ensures
      var dif := |Digits(round)| + 1;
      var s := ZipFinish(round, d);
      id + dif < |s| && '0' <= s[id + dif] < '9' &&
      ZipFinish(round, d[id := d[id] + 1]) == s[id + dif := (s[id + dif] as int + 1) as char]
  {
    var s, s', dif := ZipFinish(round, d), ZipFinish(round, d[id := d[id] + 1]), |Digits(round)| + 1;
    assert s[id + dif] == DigitChar(d[id]) && s'[id + dif] == DigitChar(d[id] + 1);
  }

  // ---- bodies fit into a frame ----

  lemma {:induction false} DigitsLength(n: nat, k: nat)
    requires k >= 1 && n < Pow10(k)
    ensures |Digits(n)| <= k
  {
    if n >= 10 {
      assert k >= 2;
      DigitsLength(n / 10, k - 1);
    }
  }

  predicate IsInt32(n: int) {
    -0x8000_0000 <= n < 0x8000_0000
  }

  lemma PowersOfTen()
    ensures Pow10(10) == 1_0000000000 && Pow10(19) == 10_000000000_000000000
  {
    assert Pow10(2) == 100 && Pow10(4) == 10000 && Pow10(6) == 1000000 && Pow10(8) == 100000000;
    assert Pow10(12) == 1000000000000 && Pow10(14) == 100000000000000 && Pow10(16) == 10000000000000000;
    assert Pow10(18) == 1000000000000000000;
  }

  lemma Int32Length(n: int)
    requires IsInt32(n)
    ensures |ToString(n)| <= 11 && (0 <= n ==> |ToString(n)| <= 10)
  {
    PowersOfTen();
    DigitsLength(if n < 0 then -n else n, 10);
  }

  lemma Int64Length(n: int)
    requires -0x8000_0000_0000_0000 <= n < 0x8000_0000_0000_0000
    ensures |ToString(n)| <= 20
  {
    PowersOfTen();
    DigitsLength(if n < 0 then -n else n, 19);
  }

  /** Bodies made of int32 numbers, a 64-bit total and containers of at most ten characters are at most 82
      characters long; a token is for up to 71 processes. */
  lemma BodiesFit(e: PartSale, from: int, p: Part, t: TotalData, round: nat, d: seq<nat>)
    requires IsInt32(e.partid) && IsInt32(e.orderCount) && IsInt32(e.totalSale) && IsInt32(from) && IsInt32(p.key)
    requires IsInt32(t.from) && IsInt32(t.partCount) && -0x8000_0000_0000_0000 <= t.totalSale < 0x8000_0000_0000_0000
    requires 1 <= p.brand.0 <= 5 && 1 <= p.brand.1 <= 5 && |p.container| <= 10
    requires IsInt32(round) && |d| <= 71 && forall i :: 0 <= i < |d| ==> d[i] <= 9
    ensures |ZipPartSaleData(e, from)| <= 82 && |ZipTotalData(t)| <= 82
    ensures |ZipPart(p)| <= 82 && |ZipStart(Start(from, p.container, p.brand))| <= 82
    ensures |ToString(p.key)| <= 82 && |ZipFinish(round, d)| <= 82
  {
    hide ToString, Digits;
    Int32Length(e.partid);
    Int32Length(e.orderCount);
    Int32Length(e.totalSale);
    Int32Length(from);
    Int32Length(p.key);
    Int32Length(t.from);
    Int32Length(t.partCount);
    Int64Length(t.totalSale);
    Int32Length(round);
    OneDigit(p.brand.0);
    OneDigit(p.brand.1);
    assert ToString(round) == Digits(round) by { PlainDigits(round); }
  }

  lemma OneDigit(n: int)
    requires 0 <= n <= 9
    ensures |ToString(n)| == 1
  {
  }

  lemma PlainDigits(n: nat)
    ensures ToString(n) == Digits(n)
  {
  }

  /** A price with at most `k` digits before the point. */
  lemma PriceLength(micros: int, k: nat)
    requires k >= 1 && -(1000000 * Pow10(k)) < micros < 1000000 * Pow10(k)
    ensures |PriceString(micros)| <= k + 8
  {
    hide Pow10, Digits, Padded;
    var m: nat := if micros < 0 then -micros else micros;
    assert m / 1000000 < Pow10(k);
    DigitsLength(m / 1000000, k);
  }

  /** With int32 numbers and prices below 10^49 an order has at most 82 characters, and so has part data
      with brand digits, a container of at most ten characters and a price below 10^37. */
  lemma PricedBodiesFit(key: int, quantity: int, b0: int, b1: int, micros: int, container: string, k: nat)
    requires IsInt32(key) && IsInt32(quantity) && 0 <= b0 <= 9 && 0 <= b1 <= 9 && |container| <= 10
    requires k >= 1 && -(1000000 * Pow10(k)) < micros < 1000000 * Pow10(k)
    ensures k <= 49 ==> |ZipOrder(key, quantity, micros)| <= 82
    ensures k <= 37 ==> |ZipPartData(key, (b0, b1), quantity, micros, container)| <= 82
  {
    hide ToString, PriceString, Pow10;
    Int32Length(key);
    Int32Length(quantity);
    OneDigit(b0);
    OneDigit(b1);
    PriceLength(micros, k);
  }
}
