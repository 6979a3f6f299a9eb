/** The date part of `toISOString` and its first ten characters. */
module DateText {
  import opened CivilDates
  import opened Orders

  function Digit(n: nat): char
    requires n < 10
  {
    '0' + n as char
  }

  /** The last `width` decimal digits of `n`. */
  function Pad(n: nat, width: nat): (s: string)
    ensures |s| == width
  {
    if width == 0 then "" else Pad(n / 10, width - 1) + [Digit(n % 10)]
  }

  function Pow10(width: nat): nat {
    if width == 0 then 1 else 10 * Pow10(width - 1)
  }

  /** The number a digit string denotes. */
  function Number(s: string): int {
    if s == [] then 0 else 10 * Number(s[..|s| - 1]) + (s[|s| - 1] as int - '0' as int)
  }

  lemma {:induction false} NumberOfPad(n: nat, width: nat)
    requires n < Pow10(width)
    ensures Number(Pad(n, width)) == n
  {
    if width > 0 {
      NumberOfPad(n / 10, width - 1);
      assert Pad(n, width)[..width - 1] == Pad(n / 10, width - 1);
    }
  }

  /** Strings of equal length that already differ compare the same when extended. */
  lemma {:induction false} LexExtend(a: string, b: string, c: string, d: string)
    requires |a| == |b| && a != b && LexLe(a, b)
    ensures LexLe(a + c, b + d) && !LexLe(b + d, a + c)
  {
    assert (a + c)[0] == a[0] && (b + d)[0] == b[0];
    if a[0] == b[0] {
      assert a == [a[0]] + a[1..] && b == [b[0]] + b[1..];
      LexExtend(a[1..], b[1..], c, d);
      assert (a + c)[1..] == a[1..] + c && (b + d)[1..] == b[1..] + d;
    }
  }

  lemma {:induction false} LexSamePrefix(a: string, c: string, d: string)
    ensures LexLe(a + c, a + d) <==> LexLe(c, d)
  {
    if a == [] {
      assert a + c == c && a + d == d;
    } else {
      LexSamePrefix(a[1..], c, d);
      assert (a + c)[1..] == a[1..] + c && (a + d)[1..] == a[1..] + d;
    }
  }

  lemma {:induction false} PadOrder(m: nat, n: nat, width: nat)
    requires m < n < Pow10(width)
    ensures Pad(m, width) != Pad(n, width) && LexLe(Pad(m, width), Pad(n, width))
  {
    NumberOfPad(m, width);
    NumberOfPad(n, width);
    var tail, tail' := [Digit(m % 10)], [Digit(n % 10)];
    if m / 10 < n / 10 {
      PadOrder(m / 10, n / 10, width - 1);
      LexExtend(Pad(m / 10, width - 1), Pad(n / 10, width - 1), tail, tail');
    } else {
      LexSamePrefix(Pad(m / 10, width - 1), tail, tail');
    }
  }

  // ------------------------------------------------------------------ ISO dates

  /** Years outside 0 to 9999 get a sign and six digits. */
  function IsoYear(y: int): string {
    if 0 <= y <= 9999 then Pad(y, 4)
    else if y < 0 then "-" + Pad(-y, 6)
    else "+" + Pad(y, 6)
  }

  function MonthAndDate(d: int): (s: string)
    ensures |s| == 5
  {
    Pad(MonthOf(d) + 1, 2) + "-" + Pad(DateOf(d), 2)
  }

  function IsoDate(d: int): (s: string)
    ensures |s| >= 10
  {
    IsoYear(YearOf(d)) + "-" + MonthAndDate(d)
  }

  /** `toISOString().slice(0, 10)` of the midnight that starts day `d`. */
  function DateOnly(d: int): (s: string)
    ensures |s| == 10
  {
    IsoDate(d)[..10]
  }

  /** The day a YYYY-MM-DD string denotes. */
  function ReadDay(s: string): int
    requires |s| == 10
  {
    MakeDay(Number(s[..4]), Number(s[5..7]) - 1, Number(s[8..]))
  }

  predicate FourDigitYear(d: int) {
    0 <= YearOf(d) <= 9999
  }

  lemma DateOnlyParts(d: int)
    requires FourDigitYear(d)
    ensures DateOnly(d) == Pad(YearOf(d), 4) + ("-" + MonthAndDate(d))
  {
  }

  /** The ten characters: year, month and date in digits, with hyphens between. */
  lemma DateOnlyIs(d: int)
    requires FourDigitYear(d)
    ensures var y, m, date := YearOf(d), MonthOf(d) + 1, DateOf(d);
            && m < 100 && date < 100
            && DateOnly(d) == [Digit(y / 1000), Digit(y / 100 % 10), Digit(y / 10 % 10), Digit(y % 10), '-',
                               Digit(m / 10), Digit(m % 10), '-', Digit(date / 10), Digit(date % 10)]
  {
    var y, m, date := YearOf(d), MonthOf(d) + 1, DateOf(d);
    MonthFits(d);
    DateOnlyParts(d);
    FourDigits(y);
    PadTwo(m);
    PadTwo(date);
  }

  lemma PadNext(n: nat, width: nat)
    ensures Pad(n, width + 1) == Pad(n / 10, width) + [Digit(n % 10)]
  {
  }

  lemma PadOne(n: nat)
    requires n < 10
    ensures Pad(n, 1) == [Digit(n)]
  {
    var zero := 0;
    PadNext(n, zero);
    assert n % 10 == n;
    assert Pad(n / 10, zero) == [];
  }

  lemma PadTwo(n: nat)
    requires n < 100
    ensures Pad(n, 2) == [Digit(n / 10), Digit(n % 10)]
  {
    PadNext(n, 1);
    PadOne(n / 10);
  }

  lemma FourDigits(n: nat)
    requires n < 10000
    ensures Pad(n, 4) == [Digit(n / 1000), Digit(n / 100 % 10), Digit(n / 10 % 10), Digit(n % 10)]
  {
    var q := n / 10;
    PadNext(n, 3);
    PadNext(q, 2);
    PadTwo(q / 10);
    assert q / 10 == n / 100 && n / 100 / 10 == n / 1000;
  }

  /** A date string of a four-digit year reads back as its day. */
  lemma FourDigitsRead(d: int)
    requires FourDigitYear(d)
    ensures ReadDay(DateOnly(d)) == d
  {
    var s := DateOnly(d);
    CivilRoundTrip(d);
    DateOnlyParts(d);
    assert s[..4] == Pad(YearOf(d), 4);
    assert s[5..7] == Pad(MonthOf(d) + 1, 2);
    assert s[8..] == Pad(DateOf(d), 2);
    assert Pow10(2) == 100 && Pow10(4) == 10000;
    NumberOfPad(YearOf(d), 4);
    NumberOfPad(MonthOf(d) + 1, 2);
    NumberOfPad(DateOf(d), 2);
  }

  lemma {:induction false} PadBelow(n: nat, width: nat)
    ensures 0 <= Number(Pad(n, width)) < Pow10(width)
  {
    if width > 0 {
      PadBelow(n / 10, width - 1);
      assert Pad(n, width)[..width - 1] == Pad(n / 10, width - 1);
    }
  }

  lemma {:induction false} PadCut(n: nat, width: nat, cut: nat) returns (m: nat)
    requires cut <= width
    ensures Pad(n, width)[..width - cut] == Pad(m, width - cut)
  {
    if cut == 0 {
      m := n;
      assert Pad(n, width)[..width] == Pad(n, width);
    } else {
      m := PadCut(n / 10, width - 1, cut - 1);
      assert Pad(n, width)[..width - cut] == Pad(n / 10, width - 1)[..width - cut];
    }
  }

  /** A plus sign in front counts as the digit it is not. */
  lemma {:induction false} PlusNumber(digits: string)
    ensures Number("+" + digits) == Number(digits) - 5 * Pow10(|digits|)
  {
    var s := "+" + digits;
    if digits == [] {
      assert s[..0] == [] && s[0] == '+';
      assert Number(s) == '+' as int - '0' as int;
    } else {
      PlusNumber(digits[..|digits| - 1]);
      assert s[..|s| - 1] == "+" + digits[..|digits| - 1];
    }
  }

  lemma LastTwo(n: nat)
    ensures Pad(n, 6)[4..] == [Digit(n / 10 % 10), Digit(n % 10)]
  {
    assert Pad(n, 6) == Pad(n / 10, 5) + [Digit(n % 10)];
    assert Pad(n / 10, 5) == Pad(n / 10 / 10, 4) + [Digit(n / 10 % 10)];
  }

  lemma NumberNext(s: string, c: char)
    ensures Number(s + [c]) == 10 * Number(s) + (c as int - '0' as int)
  {
    assert (s + [c])[..|s|] == s;
  }

  lemma TwoDigits(a: nat, b: nat)
    requires a < 10 && b < 10
    ensures Number([Digit(a), Digit(b)]) == 10 * a + b
  {
    NumberNext([], Digit(a));
    NumberNext([Digit(a)], Digit(b));
    assert [] + [Digit(a)] == [Digit(a)] && [Digit(a)] + [Digit(b)] == [Digit(a), Digit(b)];
  }

  /** Far enough before year 0 no month and date lead back past it. */
  lemma EarlyMake(y: int, m: int, date: int)
    requires y <= -4001 && -1 <= m <= 98 && date <= 99
    ensures MakeDay(y, m, date) < 0
  {
    var year, month := y + m / 12, m % 12;
    assert year <= 0;
    MonthStartsGrow(year, month, 12);
    WholeYear(year);
    YearsGrow(year, 0);
    assert DayFromYear(0) == -719528;
  }

  /** The parts a reader takes out of a date string of year 10000 or later. */
  lemma LateParts(d: int) returns (head: nat)
    requires YearOf(d) > 9999
    ensures var s := DateOnly(d);
            && s[..4] == "+" + Pad(head, 3)
            && s[5..7] == [Digit(YearOf(d) / 10 % 10), Digit(YearOf(d) % 10)]
            && s[8..] == Pad(MonthOf(d) + 1, 2)
  {
    var s, year := DateOnly(d), Pad(YearOf(d), 6);
    head := PadCut(YearOf(d), 6, 3);
    LastTwo(YearOf(d));
    assert s == "+" + year + "-" + MonthAndDate(d)[..2];
    assert s[..4] == "+" + year[..3];
    assert s[5..7] == year[4..];
    assert s[8..] == MonthAndDate(d)[..2];
  }

  lemma LateNumbers(d: int)
    requires YearOf(d) > 9999
    ensures var s := DateOnly(d);
            Number(s[..4]) <= -4001 && 0 <= Number(s[5..7]) <= 99 && Number(s[8..]) <= 99
  {
    var head := LateParts(d);
    PadBelow(head, 3);
    PlusNumber(Pad(head, 3));
    TwoDigits(YearOf(d) / 10 % 10, YearOf(d) % 10);
    PadBelow(MonthOf(d) + 1, 2);
    assert Pow10(3) == 1000 && Pow10(2) == 100;
  }

  lemma ReadsAsEarly(d: int)
    requires YearOf(d) > 9999
    ensures ReadDay(DateOnly(d)) < 0
  {
    var s := DateOnly(d);
    LateNumbers(d);
    EarlyMake(Number(s[..4]), Number(s[5..7]) - 1, Number(s[8..]));
  }

  lemma IsLate(d: int)
    requires YearOf(d) > 9999
    ensures d >= 0
  {
    assert DayFromYear(1970) == 0;
    YearAt(d, 1970);
  }

  /** A date string reads back as its day exactly up to year 9999. */
  lemma DateOnlyReads(d: int)
    requires YearOf(d) >= 0
    ensures ReadDay(DateOnly(d)) == d <==> YearOf(d) <= 9999
  {
    if YearOf(d) <= 9999 {
      FourDigitsRead(d);
    } else {
      ReadsAsEarly(d);
      IsLate(d);
    }
  }

  /** Two-digit numbers followed by anything compare by the number first. */
  lemma TwoDigitOrder(m: nat, n: nat, c: string, d: string)
    requires m < n < 100
    ensures LexLe(Pad(m, 2) + c, Pad(n, 2) + d)
  {
    assert Pow10(2) == 100;
    PadOrder(m, n, 2);
    LexExtend(Pad(m, 2), Pad(n, 2), c, d);
  }

  lemma MonthAndDateOrder(a: int, b: int)
    requires MonthOf(a) < MonthOf(b) || (MonthOf(a) == MonthOf(b) && DateOf(a) < DateOf(b))
    ensures LexLe(MonthAndDate(a), MonthAndDate(b))
  {
    MonthFits(a);
    MonthFits(b);
    var tailA, tailB := "-" + Pad(DateOf(a), 2), "-" + Pad(DateOf(b), 2);
    assert MonthAndDate(a) == Pad(MonthOf(a) + 1, 2) + tailA;
    assert MonthAndDate(b) == Pad(MonthOf(b) + 1, 2) + tailB;
    if MonthOf(a) < MonthOf(b) {
      TwoDigitOrder(MonthOf(a) + 1, MonthOf(b) + 1, tailA, tailB);
    } else {
      TwoDigitOrder(DateOf(a), DateOf(b), "", "");
      assert Pad(DateOf(a), 2) + "" == Pad(DateOf(a), 2) && Pad(DateOf(b), 2) + "" == Pad(DateOf(b), 2);
      LexSamePrefix("-", Pad(DateOf(a), 2), Pad(DateOf(b), 2));
      LexSamePrefix(Pad(MonthOf(a) + 1, 2), tailA, tailB);
    }
  }

  /** Date strings compare as their days do. */
  lemma DateOnlyOrder(a: int, b: int)
    requires FourDigitYear(a) && FourDigitYear(b)
    ensures a <= b <==> LexLe(DateOnly(a), DateOnly(b))
  {
    if a < b {
      DateOnlyBefore(a, b);
    } else if b < a {
      DateOnlyBefore(b, a);
      if LexLe(DateOnly(a), DateOnly(b)) {
        LexAntisymmetric(DateOnly(a), DateOnly(b));
        FourDigitsRead(a);
        FourDigitsRead(b);
      }
    } else {
      LexConnected(DateOnly(a), DateOnly(a));
    }
  }

  lemma DateOnlyBefore(a: int, b: int)
    requires FourDigitYear(a) && FourDigitYear(b) && a < b
    ensures LexLe(DateOnly(a), DateOnly(b))
  {
    CivilOrder(a, b);
    DateOnlyParts(a);
    DateOnlyParts(b);
    assert Pow10(4) == 10000;
    var tailA, tailB := "-" + MonthAndDate(a), "-" + MonthAndDate(b);
    if YearOf(a) < YearOf(b) {
      PadOrder(YearOf(a), YearOf(b), 4);
      LexExtend(Pad(YearOf(a), 4), Pad(YearOf(b), 4), tailA, tailB);
    } else {
      MonthAndDateOrder(a, b);
      LexSamePrefix("-", MonthAndDate(a), MonthAndDate(b));
      LexSamePrefix(Pad(YearOf(a), 4), tailA, tailB);
    }
  }

  /** From year 10000 on the string starts with a plus sign, so it sorts before every
      four-digit year. */
  lemma LateYearsSortFirst(a: int, b: int)
    requires FourDigitYear(a) && YearOf(b) > 9999
    ensures !LexLe(DateOnly(a), DateOnly(b))
  {
    DateOnlyParts(a);
    assert DateOnly(b)[0] == '+';
    FirstDigit(YearOf(a), 4);
    assert DateOnly(a)[0] == Pad(YearOf(a), 4)[0];
  }

  lemma {:induction false} FirstDigit(n: nat, width: nat)
    requires width > 0
    ensures Pad(n, width)[0] >= '0'
  {
    if width > 1 {
      FirstDigit(n / 10, width - 1);
    }
  }
}
