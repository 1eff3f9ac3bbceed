/** Text fields separated by '|', and the numerals in them.  All functions peel off the last
    character, as the scanners of the program work on growing prefixes. */
module Fields {

  /** The pieces of `s` between the separators; always one more than there are separators. */
  function Split(s: string): (f: seq<string>)
    ensures |f| >= 1
  {
    if s == "" then [""]
    else
      var f, c := Split(s[..|s| - 1]), s[|s| - 1];
      if c == '|' then f + [""] else f[|f| - 1 := f[|f| - 1] + [c]]
  }

  /** Each field followed by a separator. */
  function Terminated(fs: seq<string>): string {
    if fs == [] then "" else Terminated(fs[..|fs| - 1]) + fs[|fs| - 1] + "|"
  }

  /** The accumulator `v = v * 10 + c - '0'` after a text. */
  function Num(s: string): int {
    if s == "" then 0 else Num(s[..|s| - 1]) * 10 + DigitValue(s[|s| - 1])
  }

  function DigitValue(c: char): int {
    c as int - '0' as int
  }

  function DigitChar(d: nat): char
    requires d < 10
  {
    ('0' as int + d) as char
  }

  /** `std::to_string` of a non-negative integer. */
  function Digits(n: nat): (s: string)
    ensures |s| >= 1
    ensures forall c :: c in s ==> '0' <= c <= '9'
  {
    if n < 10 then [DigitChar(n)] else Digits(n / 10) + [DigitChar(n % 10)]
  }

  /** `std::to_string` of an integer. */
  function ToString(n: int): string {
    if n < 0 then "-" + Digits(-n) else Digits(n)
  }

  lemma {:induction false} NumOfDigits(n: nat)
    ensures Num(Digits(n)) == n
  {
    if n >= 10 {
      NumOfDigits(n / 10);
      assert Digits(n)[..|Digits(n)| - 1] == Digits(n / 10);
    } else {
      assert Digits(n)[..0] == "";
    }
  }

  function Pow10(k: nat): nat {
    if k == 0 then 1 else 10 * Pow10(k - 1)
  }

  lemma {:induction false} DigitsBelowPow(n: nat)
    ensures n < Pow10(|Digits(n)|)
  {
    if n >= 10 {
      DigitsBelowPow(n / 10);
      assert n == 10 * (n / 10) + n % 10;
    } else {
      assert Pow10(1) == 10 * Pow10(0);
    }
  }

  lemma {:induction false} NumAppend(s: string, t: string)
    ensures Num(s + t) == Num(s) * Pow10(|t|) + Num(t)
  {
    if t == "" {
      assert s + t == s;
    } else {
      assert (s + t)[..|s + t| - 1] == s + t[..|t| - 1];
      NumAppend(s, t[..|t| - 1]);
      assert Num(s) * Pow10(|t| - 1) * 10 == Num(s) * Pow10(|t|);
    }
  }

  /** The scanners know no sign: a printed integer is read back correctly exactly if it is not negative. */
  lemma IntegerRoundTrip(n: int)
    ensures Num(ToString(n)) == n <==> 0 <= n
  {
    hide Num, Digits, Pow10;
    if n >= 0 {
      NumOfDigits(n);
    } else {
      var d := Digits(-n);
      NumAppend("-", d);
      NumOfDigits(-n);
      DigitsBelowPow(-n);
      MinusIsRead();
    }
  }

  lemma MinusIsRead()
    ensures Num("-") == -3
  {
    assert "-"[..0] == "";
  }

  // ---- splitting ----

  lemma {:induction false} SplitAppend(s: string, t: string)
    requires '|' !in t
    ensures var f := Split(s); Split(s + t) == f[|f| - 1 := f[|f| - 1] + t]
  {
    var f := Split(s);
    if t == "" {
      assert s + t == s;
      assert f[|f| - 1] + t == f[|f| - 1];
    } else {
      var t', c := t[..|t| - 1], t[|t| - 1];
      assert t == t' + [c];
      assert (s + t)[..|s + t| - 1] == s + t';
      SplitAppend(s, t');
      assert f[|f| - 1] + t == f[|f| - 1] + t' + [c];
    }
  }

  lemma SplitBar(s: string)
    ensures Split(s + "|") == Split(s) + [""]
  {
    assert (s + "|")[..|s|] == s;
  }

  /** Fields without separators survive being joined. */
  lemma {:induction false} SplitTerminated(fs: seq<string>)
    requires forall f :: f in fs ==> '|' !in f
    ensures Split(Terminated(fs)) == fs + [""]
  {
    if fs != [] {
      SplitTerminated(fs[..|fs| - 1]);
      SplitOneMore(Terminated(fs[..|fs| - 1]), fs[..|fs| - 1], fs[|fs| - 1]);
      assert fs == fs[..|fs| - 1] + [fs[|fs| - 1]];
    }
  }

  lemma SplitOneMore(s: string, fs: seq<string>, last: string)
    requires Split(s) == fs + [""] && '|' !in last
    ensures Split(s + last + "|") == fs + [last] + [""]
  {
    hide Split;
    SplitAppend(s, last);
    SplitBar(s + last);
    assert "" + last == last && (fs + [""])[|fs|] == "";
    assert (fs + [""])[|fs| := last] == fs + [last];
  }

  /** Complete fields of a prefix are fields of the whole. */
  lemma {:induction false} SplitPrefix(s: string, i: nat, k: nat)
    requires i <= |s| && k < |Split(s[..i])|
    ensures k < |Split(s)|
    ensures k < |Split(s[..i])| - 1 ==> Split(s)[k] == Split(s[..i])[k]
    decreases |s| - i
  {
    if i < |s| {
      assert s[..i + 1][..i] == s[..i];
      SplitPrefix(s, i + 1, k);
    } else {
      assert s[..i] == s;
    }
  }

  lemma SplitStep(s: string, i: nat)
    requires i < |s|
    ensures
      var f := Split(s[..i]);
      Split(s[..i + 1]) == if s[i] == '|' then f + [""] else f[|f| - 1 := f[|f| - 1] + [s[i]]]
  {
    assert s[..i + 1][..i] == s[..i];
  }

  lemma NumSnoc(s: string, c: char)
    ensures Num(s + [c]) == Num(s) * 10 + DigitValue(c)
  {
    assert (s + [c])[..|s|] == s;
  }

  /** The first field ends at the first separator. */
  lemma {:induction false} FirstField(s: string)
    ensures |Split(s)[0]| <= |s| && Split(s)[0] == s[..|Split(s)[0]|]
    ensures '|' !in Split(s)[0]
    ensures '|' in s <==> |Split(s)[0]| < |s|
    ensures |Split(s)| == 1 <==> '|' !in s
  {
    if s != "" {
      var s', c := s[..|s| - 1], s[|s| - 1];
      assert s == s' + [c];
      FirstField(s');
    }
  }

  // ---- decimals ----

  /** The state of the scanner of `unZipOrderString` and `unzipPartData`: the value so far, the weight
      of the last digit, and whether the point has been seen. */
  datatype Decimal = Decimal(value: real, base: real, dig: bool)

  function Dec(s: string): Decimal {
    if s == "" then Decimal(0.0, 1.0, false)
    else DecStep(Dec(s[..|s| - 1]), s[|s| - 1])
  }

  function DecStep(d: Decimal, c: char): Decimal {
    if c == '.' then d.(dig := true)
    else if d.dig then Decimal(d.value + d.base / 10.0 * DigitValue(c) as real, d.base / 10.0, true)
    else d.(value := d.value * 10.0 + DigitValue(c) as real)
  }

  /** The scanner of `loadOrder`, which keeps the weight of the next digit instead. */
  function LoadDec(s: string): (real, real) {
    if s == "" then (0.0, 1.0)
    else LoadDecStep(LoadDec(s[..|s| - 1]), s[|s| - 1])
  }

  function LoadDecStep(d: (real, real), c: char): (real, real) {
    if c == '.' then (d.0, d.1 * 0.1)
    else if d.1 >= 1.0 then (d.0 * 10.0 + DigitValue(c) as real, d.1)
    else (d.0 + d.1 * DigitValue(c) as real, d.1 * 0.1)
  }

  function Points(s: string): nat {
    if s == "" then 0 else Points(s[..|s| - 1]) + if s[|s| - 1] == '.' then 1 else 0
  }

  /** The two scanners read every numeral with at most one point alike. */
  lemma {:induction false} ScannersAgree(s: string)
    requires Points(s) <= 1
    ensures LoadDec(s).0 == Dec(s).value
    ensures Dec(s).dig <==> Points(s) == 1
    ensures LoadDec(s).1 == if Dec(s).dig then Dec(s).base / 10.0 else 1.0
    ensures 0.0 < Dec(s).base <= 1.0 && (!Dec(s).dig ==> Dec(s).base == 1.0)
  {
    if s != "" {
      ScannersAgree(s[..|s| - 1]);
    }
  }

  /** Digits and points, as in a column of numbers. */
  predicate IsDecimal(s: string) {
    forall i :: 0 <= i < |s| ==> s[i] == '.' || '0' <= s[i] <= '9'
  }

  /** A digit other than 0 stands behind the second point. */
  predicate LateDigit(s: string) {
    s != "" && (LateDigit(s[..|s| - 1]) || (Points(s[..|s| - 1]) >= 2 && s[|s| - 1] != '.' && s[|s| - 1] != '0'))
  }

  lemma DecimalInit(t: string, c: char)
    ensures IsDecimal(t + [c]) ==> IsDecimal(t) && (c == '.' || '0' <= c <= '9')
  {
    var s := t + [c];
    assert s[|t|] == c && forall i :: 0 <= i < |t| ==> s[i] == t[i];
  }

  lemma DecSnoc(t: string, c: char)
    ensures Dec(t + [c]) == DecStep(Dec(t), c) && LoadDec(t + [c]) == LoadDecStep(LoadDec(t), c)
    ensures Points(t + [c]) == Points(t) + if c == '.' then 1 else 0
  {
    assert (t + [c])[..|t|] == t;
  }

  lemma {:induction false} NotLate(s: string)
    requires Points(s) <= 1
    ensures !LateDigit(s)
  {
    if s != "" {
      NotLate(s[..|s| - 1]);
    }
  }

  /** From the second point on the scanner of rows gives every digit at most a tenth of the weight it has
      for the other. */
  ghost predicate Behind(d: Decimal, l: (real, real), late: bool) {
    && d.dig && 0.0 < d.base <= 1.0 && 0.0 < l.1 <= d.base / 100.0
    && l.0 <= d.value && (l.0 == d.value <==> !late)
  }

  lemma BehindStep(d: Decimal, l: (real, real), late: bool, c: char)
    requires Behind(d, l, late) && (c == '.' || '0' <= c <= '9')
    ensures Behind(DecStep(d, c), LoadDecStep(l, c), late || (c != '.' && c != '0'))
  {
    if c != '.' {
      DigitCounts(d.base, l.1, DigitValue(c));
    }
  }

  lemma DigitCounts(base: real, less: real, d: int)
    requires 0.0 < base && 0.0 < less <= base / 100.0 && 0 <= d
    ensures less * d as real <= base / 10.0 * d as real
    ensures less * d as real == base / 10.0 * d as real <==> d == 0
  {
    var gap := base / 10.0 - less;
    assert gap > 0.0 && base / 10.0 * d as real == less * d as real + gap * d as real;
    if d > 0 {
      assert gap * d as real > 0.0;
    }
  }

  lemma {:induction false} BehindSecondPoint(s: string)
    requires IsDecimal(s) && Points(s) >= 2
    ensures Behind(Dec(s), LoadDec(s), LateDigit(s))
  {
    hide Dec, LoadDec, Points, Behind, IsDecimal, DecStep, LoadDecStep;
    NoPointsInNothing();
    var t, c := s[..|s| - 1], s[|s| - 1];
    assert s == t + [c];
    DecimalInit(t, c);
    DecSnoc(t, c);
    if Points(t) <= 1 {
      ScannersAgree(t);
      NotLate(t);
      SecondPoint(Dec(t), LoadDec(t));
    } else {
      BehindSecondPoint(t);
      BehindStep(Dec(t), LoadDec(t), LateDigit(t), c);
    }
  }

  lemma NoPointsInNothing()
    ensures Points("") == 0
  {
  }

  lemma SecondPoint(d: Decimal, l: (real, real))
    requires d.dig && 0.0 < d.base <= 1.0 && l == (d.value, d.base / 10.0)
    ensures Behind(DecStep(d, '.'), LoadDecStep(l, '.'), false)
  {
  }

  /** On digits and points the two scanners read alike if and only if no digit other than 0 stands behind
      a second point.  The text "1..2" is read as 1.2 by one and as 1.02 by the other. */
  lemma ScannersAgreeExactly(s: string)
    requires IsDecimal(s)
    ensures LoadDec(s).0 == Dec(s).value <==> !LateDigit(s)
  {
    if Points(s) <= 1 {
      ScannersAgree(s);
      NotLate(s);
    } else {
      BehindSecondPoint(s);
    }
  }

  /** A further point in front changes the weight of every digit by the digits in front of the first point. */
  function Whole(s: string): string {
    if s == "" || s[0] == '.' then "" else [s[0]] + Whole(s[1..])
  }

  lemma {:induction false} WholeMore(s: string, c: char)
    ensures Whole(s + [c]) == if c != '.' && Points(s) == 0 then s + [c] else Whole(s)
    ensures Points(s) == 0 ==> Whole(s) == s
  {
    if s == "" {
      assert "" + [c] == [c] && [c][1..] == "";
    } else {
      assert (s + [c])[1..] == s[1..] + [c] && s == [s[0]] + s[1..];
      WholeMore(s[1..], c);
      PointsAppend([s[0]], s[1..]);
      assert [s[0]][..0] == "";
    }
  }

  /** A point in front of a number shifts it by as many places as it has digits before its own point. */
  lemma {:induction false} LeadingPoint(s: string)
    ensures Dec(s).dig <==> Points(s) > 0
    ensures Shifted(Dec(s), Dec("." + s), Weight(|Whole(s)|))
  {
    hide Dec, Points, Whole, Weight, Shifted, DecStep;
    if s == "" {
      NothingShifted();
    } else {
      var t, c := s[..|s| - 1], s[|s| - 1];
      assert s == t + [c] && "." + s == ("." + t) + [c];
      LeadingPoint(t);
      WholeMore(t, c);
      DecSnoc(t, c);
      DecSnoc("." + t, c);
      WeightMore(|t|);
      ShiftedStep(Dec(t), Dec("." + t), Weight(|Whole(t)|), c);
    }
  }

  ghost predicate Shifted(d: Decimal, a: Decimal, w: real) {
    a.dig && a.value == d.value * w && a.base == d.base * w && (!d.dig ==> d.base == 1.0)
  }

  lemma NothingShifted()
    ensures !Dec("").dig && Points("") == 0 && Shifted(Dec(""), Dec("." + ""), Weight(|Whole("")|))
  {
    assert "." + "" == "." && "."[..0] == "";
    assert Dec(".") == DecStep(Dec(""), '.');
  }

  lemma WeightMore(k: nat)
    ensures Weight(k + 1) == Weight(k) / 10.0
  {
  }

  lemma ShiftedStep(d: Decimal, a: Decimal, w: real, c: char)
    requires Shifted(d, a, w)
    ensures Shifted(DecStep(d, c), DecStep(a, c), if c != '.' && !d.dig then w / 10.0 else w)
    ensures DecStep(d, c).dig <==> d.dig || c == '.'
  {
    if c != '.' {
      ShiftedDigit(d, w, DigitValue(c));
    }
  }

  lemma ShiftedDigit(d: Decimal, w: real, c: int)
    ensures d.value * w + d.base * w / 10.0 * c as real == (d.value + d.base / 10.0 * c as real) * w
    ensures d.value * w + w / 10.0 * c as real == (d.value * 10.0 + c as real) * (w / 10.0)
    ensures d.base * w / 10.0 == d.base / 10.0 * w
  {
    var x := c as real;
    assert (d.value + d.base / 10.0 * x) * w == d.value * w + d.base / 10.0 * x * w;
    assert d.base / 10.0 * x * w == d.base * w / 10.0 * x;
    assert (d.value * 10.0 + x) * (w / 10.0) == d.value * 10.0 * (w / 10.0) + x * (w / 10.0);
  }

  predicate OnlyZeros(s: string) {
    forall i :: 0 <= i < |s| ==> s[i] == '.' || s[i] == '0'
  }

  lemma {:induction false} ValueIsZero(s: string)
    requires IsDecimal(s)
    ensures 0.0 <= Dec(s).value && 0.0 < Dec(s).base
    ensures Dec(s).value == 0.0 <==> OnlyZeros(s)
  {
    hide Dec, IsDecimal, OnlyZeros;
    if s == "" {
      NothingIsZero();
    } else {
      var t, c := s[..|s| - 1], s[|s| - 1];
      assert s == t + [c];
      DecimalInit(t, c);
      DecSnoc(t, c);
      ZerosMore(t, c);
      ValueIsZero(t);
      if c != '.' {
        Positive(Dec(t).base / 10.0, DigitValue(c));
      }
    }
  }

  lemma NothingIsZero()
    ensures Dec("") == Decimal(0.0, 1.0, false) && OnlyZeros("")
  {
  }

  lemma ZerosMore(t: string, c: char)
    ensures OnlyZeros(t + [c]) <==> OnlyZeros(t) && (c == '.' || c == '0')
  {
    var s := t + [c];
    assert s[|t|] == c && forall i :: 0 <= i < |t| ==> s[i] == t[i];
  }

  lemma Positive(w: real, d: int)
    requires 0.0 < w && 0 <= d
    ensures 0.0 <= w * d as real && (w * d as real == 0.0 <==> d == 0)
  {
    if d > 0 {
      assert w * d as real > 0.0;
    }
  }

  lemma {:induction false} WeightBelowOne(k: nat)
    ensures 0.0 < Weight(k) <= 1.0 && (Weight(k) == 1.0 <==> k == 0)
  {
    if k > 0 {
      WeightBelowOne(k - 1);
    }
  }

  /** A point in front leaves the value of a number alone if and only if the number has no digit before
      its own point, or is 0. */
  lemma LeadingPointMatters(s: string)
    requires IsDecimal(s)
    ensures Dec("." + s).value == Dec(s).value <==> Whole(s) == "" || OnlyZeros(s)
  {
    hide Dec, Whole, Weight, OnlyZeros, Points;
    LeadingPoint(s);
    ValueIsZero(s);
    WeightBelowOne(|Whole(s)|);
    Scaled(Dec(s).value, Weight(|Whole(s)|));
  }

  lemma Scaled(v: real, w: real)
    ensures v * w == v <==> v == 0.0 || w == 1.0
  {
    assert v * w - v == v * (w - 1.0);
  }

  lemma {:induction false} DecOfInteger(s: string)
    requires '.' !in s
    ensures Dec(s) == Decimal(Num(s) as real, 1.0, false)
  {
    if s != "" {
      assert s == s[..|s| - 1] + [s[|s| - 1]];
      DecOfInteger(s[..|s| - 1]);
    }
  }

  function Weight(k: nat): real {
    if k == 0 then 1.0 else Weight(k - 1) / 10.0
  }

  lemma {:induction false} DecOfFraction(s: string, t: string)
    requires '.' !in s && '.' !in t
    ensures Dec(s + "." + t) == Decimal(Num(s) as real + Num(t) as real * Weight(|t|), Weight(|t|), true)
  {
    var w := s + "." + t;
    if t == "" {
      assert w[..|w| - 1] == s;
      DecOfInteger(s);
    } else {
      var t', c := t[..|t| - 1], t[|t| - 1];
      assert t == t' + [c];
      assert w[..|w| - 1] == s + "." + t';
      DecOfFraction(s, t');
      var b, n, d := Weight(|t'|), Num(t') as real, DigitValue(c) as real;
      assert n * b + b / 10.0 * d == (n * 10.0 + d) * (b / 10.0);
    }
  }

  /** The last `k` digits of a number, with leading zeros. */
  function Padded(k: nat, m: nat): (s: string)
    ensures |s| == k
    ensures forall c :: c in s ==> '0' <= c <= '9'
  {
    if k == 0 then "" else Padded(k - 1, m / 10) + [DigitChar(m % 10)]
  }

  /** `std::to_string` of `micros` millionths: six digits after the point. */
  function PriceString(micros: int): string {
    if micros < 0 then "-" + PriceDigits(-micros) else PriceDigits(micros)
  }

  function PriceDigits(micros: nat): string {
    Digits(micros / 1000000) + "." + Padded(6, micros % 1000000)
  }

  lemma {:induction false} NumOfPadded(k: nat, m: nat)
    requires m < Pow10(k)
    ensures Num(Padded(k, m)) == m
  {
    if k > 0 {
      NumOfPadded(k - 1, m / 10);
      assert Padded(k, m)[..k - 1] == Padded(k - 1, m / 10);
    }
  }

  lemma Millionths()
    ensures Pow10(6) == 1000000 && Weight(6) == 0.000001
  {
    assert Pow10(1) == 10 && Pow10(2) == 100 && Pow10(3) == 1000 && Pow10(4) == 10000 && Pow10(5) == 100000;
    assert Weight(1) == 0.1 && Weight(2) == 0.01 && Weight(3) == 0.001 && Weight(4) == 0.0001 && Weight(5) == 0.00001;
  }

  lemma OnePoint(micros: int)
    ensures Points(PriceString(micros)) == 1
    ensures forall c :: c in PriceString(micros) ==> c == '-' || c == '.' || '0' <= c <= '9'
  {
    var m: nat := if micros < 0 then -micros else micros;
    var a, b := Digits(m / 1000000), Padded(6, m % 1000000);
    PointsOfDigits(a);
    PointsAppend(a + ".", b);
    assert (a + ".")[..|a|] == a;
    PointsOfDigits(b);
    PointsAppend("-", PriceDigits(m));
    PointsOfDigits("-");
  }

  /** A price is printed with its sign in front and six digits behind the point. */
  lemma PriceForm(micros: int)
    ensures
      var s := PriceString(micros);
      |s| >= 8 && s[|s| - 7] == '.' && (s[0] == '-' <==> micros < 0) && forall i :: |s| - 6 <= i < |s| ==> '0' <= s[i] <= '9'
  {
    var m: nat := if micros < 0 then -micros else micros;
    var a, b, s := Digits(m / 1000000), Padded(6, m % 1000000), PriceString(micros);
    assert a[0] in a;
    forall i | |s| - 6 <= i < |s| ensures s[i] == b[i - (|s| - 6)] && b[i - (|s| - 6)] in b {
    }
  }

  lemma PriceValue(sign: string, micros: nat)
    requires '.' !in sign
    ensures Dec(sign + PriceDigits(micros)).value ==
            (Num(sign) * Pow10(|Digits(micros / 1000000)|)) as real + micros as real / 1000000.0
  {
    hide Dec, Num, Digits, Padded, Pow10, Weight;
    var a: nat, b: nat := micros / 1000000, micros % 1000000;
    var d := Digits(a);
    NumOfDigits(a);
    NumAppend(sign, d);
    Millionths();
    NumOfPadded(6, b);
    DecOfFraction(sign + d, Padded(6, b));
    assert sign + PriceDigits(micros) == sign + d + "." + Padded(6, b);
    WholeAndPart(Num(sign) * Pow10(|d|), micros);
  }

  lemma WholeAndPart(x: int, micros: nat)
    ensures (x + micros / 1000000) as real + (micros % 1000000) as real * 0.000001 == x as real + micros as real / 1000000.0
  {
    assert micros == (micros / 1000000) * 1000000 + micros % 1000000;
  }

  lemma NegativePrice(m: nat, p: nat)
    requires 0 < m && m / 1000000 < p
    ensures (-3 * p) as real + m as real / 1000000.0 != -(m as real) / 1000000.0
  {
    assert m < p * 1000000;
  }

  /** Prices with at most six decimals are read back exactly, by either scanner, if and only if they are
      not negative. */
  lemma PriceRoundTrip(micros: int)
    ensures Dec(PriceString(micros)).value == micros as real / 1000000.0 <==> 0 <= micros
    ensures LoadDec(PriceString(micros)).0 == micros as real / 1000000.0 <==> 0 <= micros
  {
    hide Dec, LoadDec, Digits, Pow10, Points, PriceDigits;
    OnePoint(micros);
    ScannersAgree(PriceString(micros));
    if 0 <= micros {
      PriceValue("", micros);
      assert "" + PriceDigits(micros) == PriceDigits(micros);
    } else {
      var m: nat := -micros;
      PriceValue("-", m);
      DigitsBelowPow(m / 1000000);
      MinusIsRead();
      NegativePrice(m, Pow10(|Digits(m / 1000000)|));
    }
  }

  lemma {:induction false} PointsOfDigits(s: string)
    requires '.' !in s
    ensures Points(s) == 0
  {
    if s != "" {
      assert s == s[..|s| - 1] + [s[|s| - 1]];
      PointsOfDigits(s[..|s| - 1]);
    }
  }

  lemma {:induction false} PointsAppend(s: string, t: string)
    ensures Points(s + t) == Points(s) + Points(t)
  {
    if t == "" {
      assert s + t == s;
    } else {
      assert (s + t)[..|s + t| - 1] == s + t[..|t| - 1];
      PointsAppend(s, t[..|t| - 1]);
    }
  }
}
