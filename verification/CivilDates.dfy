/**
 Days and civil dates, section 21.4.1 of ECMA-262: a day is counted from
 1970-01-01, months are 0 to 11, dates are 1 to 31.
 */
module CivilDates {
  predicate IsLeap(y: int) {
    y % 4 == 0 && (y % 100 != 0 || y % 400 == 0)
  }

  function LeapDay(y: int): int {
    if IsLeap(y) then 1 else 0
  }

  /** The day of 1 January of year `y`. */
  function DayFromYear(y: int): int {
    365 * (y - 1970) + (y - 1969) / 4 - (y - 1901) / 100 + (y - 1601) / 400
  }

  lemma FourthYears(y: int)
    ensures (y - 1968) / 4 - (y - 1969) / 4 == if y % 4 == 0 then 1 else 0
  {
  }

  lemma Centuries(y: int)
    ensures (y - 1900) / 100 - (y - 1901) / 100 == if y % 100 == 0 then 1 else 0
    ensures y % 100 == 0 ==> y % 4 == 0
  {
  }

  lemma FourthCenturies(y: int)
    ensures (y - 1600) / 400 - (y - 1601) / 400 == if y % 400 == 0 then 1 else 0
    ensures y % 400 == 0 ==> y % 100 == 0
  {
  }

  lemma YearLength(y: int)
    ensures DayFromYear(y + 1) == DayFromYear(y) + 365 + LeapDay(y)
  {
    var four := (y - 1968) / 4 - (y - 1969) / 4;
    var hundred := (y - 1900) / 100 - (y - 1901) / 100;
    var fourHundred := (y - 1600) / 400 - (y - 1601) / 400;
    assert LeapDay(y) == four - hundred + fourHundred by {
      FourthYears(y);
      Centuries(y);
      FourthCenturies(y);
    }
  }

  lemma {:induction false} YearsGrow(a: int, b: int)
    requires a <= b
    ensures DayFromYear(a) + 365 * (b - a) <= DayFromYear(b) <= DayFromYear(a) + 366 * (b - a)
    decreases b - a
  {
    if a < b {
      YearsGrow(a, b - 1);
      YearLength(b - 1);
    }
  }

  lemma YearGrows(y: int)
    ensures DayFromYear(y) < DayFromYear(y + 1)
  {
    YearLength(y);
  }

  /** The year that contains day `d`, searched from year `y`. */
  function SearchYear(d: int, y: int): int
    decreases if d < DayFromYear(y) then 1 else 0, if d < DayFromYear(y) then DayFromYear(y) - d else d - DayFromYear(y)
  {
    YearGrows(y - 1);
    YearGrows(y);
    if d < DayFromYear(y) then SearchYear(d, y - 1)
    else if d < DayFromYear(y + 1) then y
    else SearchYear(d, y + 1)
  }

  /** Day `d` lies in year `y`. */
  predicate InYear(y: int, d: int) {
    DayFromYear(y) <= d < DayFromYear(y + 1)
  }

  lemma {:induction false} SearchAheadFits(d: int, y: int)
    requires DayFromYear(y) <= d
    ensures InYear(SearchYear(d, y), d)
    decreases d - DayFromYear(y)
  {
    YearGrows(y);
    if d >= DayFromYear(y + 1) {
      SearchAheadFits(d, y + 1);
    }
  }

  lemma BackStep(d: int, y: int)
    requires d < DayFromYear(y)
    ensures SearchYear(d, y) == SearchYear(d, y - 1)
  {
  }

  lemma SearchEnds(d: int, y: int)
    requires InYear(y, d)
    ensures SearchYear(d, y) == y
  {
  }

  lemma YearBefore(y: int)
    ensures DayFromYear(y - 1) + 365 <= DayFromYear(y)
  {
    YearLength(y - 1);
  }

  /** Searching back ends in the year of day `d`, at most `n` years earlier. */
  lemma {:induction false} SearchBackFits(d: int, y: int, n: nat)
    requires d < DayFromYear(y) <= d + 365 * n
    ensures InYear(SearchYear(d, y), d)
    decreases n
  {
    BackStep(d, y);
    YearBefore(y);
    if d < DayFromYear(y - 1) {
      SearchBackFits(d, y - 1, n - 1);
    } else {
      SearchEnds(d, y - 1);
    }
  }

  function YearOf(d: int): int {
    SearchYear(d, 1970)
  }

  lemma YearFits(d: int)
    ensures DayFromYear(YearOf(d)) <= d < DayFromYear(YearOf(d) + 1)
  {
    assert DayFromYear(1970) == 0;
    if d >= 0 {
      SearchAheadFits(d, 1970);
    } else {
      SearchBackFits(d, 1970, -d);
    }
  }

  lemma YearUnique(d: int, y: int)
    requires DayFromYear(y) <= d < DayFromYear(y + 1)
    ensures YearOf(d) == y
  {
    var found := YearOf(d);
    YearFits(d);
    if found < y {
      YearsGrow(found + 1, y);
    } else if y < found {
      YearsGrow(y + 1, found);
    }
  }

  lemma YearAt(d: int, y: int)
    ensures YearOf(d) >= y <==> d >= DayFromYear(y)
  {
    var found := YearOf(d);
    YearFits(d);
    if found >= y {
      YearsGrow(y, found);
    } else {
      YearsGrow(found + 1, y);
    }
  }

  /** Days in month `m` of year `y`. */
  function MonthDays(y: int, m: int): int {
    if m == 1 then 28 + LeapDay(y)
    else if m == 3 || m == 5 || m == 8 || m == 10 then 30
    else 31
  }

  /** Days of year `y` before month `m`. */
  function MonthStart(y: int, m: nat): int {
    if m == 0 then 0 else MonthStart(y, m - 1) + MonthDays(y, m - 1)
  }

  lemma WholeYear(y: int)
    ensures MonthStart(y, 12) == 365 + LeapDay(y)
  {
    assert MonthStart(y, 1) == 31;
    assert MonthStart(y, 2) == 59 + LeapDay(y);
    assert MonthStart(y, 4) == MonthStart(y, 2) + 61;
    assert MonthStart(y, 6) == MonthStart(y, 4) + 61;
    assert MonthStart(y, 8) == MonthStart(y, 6) + 62;
    assert MonthStart(y, 10) == MonthStart(y, 8) + 61;
  }

  lemma {:induction false} MonthStartsGrow(y: int, a: nat, b: nat)
    requires a <= b
    ensures MonthStart(y, a) <= MonthStart(y, b)
  {
    if a < b {
      MonthStartsGrow(y, a, b - 1);
    }
  }

  /** The month, from `m` on, that contains the given day of year `y`. */
  function SearchMonth(y: int, day: int, m: nat): nat
    decreases 12 - m
  {
    if m >= 11 || day < MonthStart(y, m + 1) then m else SearchMonth(y, day, m + 1)
  }

  lemma {:induction false} SearchMonthFits(y: int, day: int, m: nat)
    requires m < 12 && MonthStart(y, m) <= day < MonthStart(y, 12)
    ensures var found := SearchMonth(y, day, m);
            m <= found < 12 && MonthStart(y, found) <= day < MonthStart(y, found + 1)
    decreases 12 - m
  {
    if m < 11 && day >= MonthStart(y, m + 1) {
      SearchMonthFits(y, day, m + 1);
    }
  }

  /** Days since 1 January of its year. */
  function DayInYear(d: int): int {
    d - DayFromYear(YearOf(d))
  }

  function MonthOf(d: int): nat {
    SearchMonth(YearOf(d), DayInYear(d), 0)
  }

  lemma DayFits(d: int)
    ensures MonthOf(d) < 12
    ensures MonthStart(YearOf(d), MonthOf(d)) <= DayInYear(d) < MonthStart(YearOf(d), MonthOf(d) + 1)
  {
    var y := YearOf(d);
    YearFits(d);
    YearLength(y);
    WholeYear(y);
    SearchMonthFits(y, DayInYear(d), 0);
  }

  function DateOf(d: int): nat {
    DayFits(d);
    DayInYear(d) - MonthStart(YearOf(d), MonthOf(d)) + 1
  }

  lemma MonthFits(d: int)
    ensures 0 <= MonthOf(d) < 12 && 1 <= DateOf(d) <= MonthDays(YearOf(d), MonthOf(d)) <= 31
  {
    DayFits(d);
  }

  /** Any month number, carried into the year: the day of the month's first. */
  function FirstOfMonth(y: int, m: int): int {
    FirstWithin(y + m / 12, m % 12)
  }

  function FirstWithin(y: int, m: nat): int {
    DayFromYear(y) + MonthStart(y, m)
  }

  function MonthLength(y: int, m: int): int {
    MonthDays(y + m / 12, m % 12)
  }

  /** MakeDay: the month and the date may both be out of range. */
  function MakeDay(y: int, m: int, date: int): int {
    FirstOfMonth(y, m) + date - 1
  }

  /** A month number in range needs no carrying. */
  lemma InRange(y: int, m: int)
    requires 0 <= m < 12
    ensures FirstOfMonth(y, m) == FirstWithin(y, m)
    ensures MonthLength(y, m) == MonthDays(y, m)
  {
    NoCarry(m);
    assert y + m / 12 == y;
  }

  lemma NoCarry(m: int)
    requires 0 <= m < 12
    ensures m / 12 == 0 && m % 12 == m
  {
  }

  lemma NextMonth(y: int, m: int)
    ensures FirstOfMonth(y, m + 1) == FirstOfMonth(y, m) + MonthLength(y, m)
  {
    var year := y + m / 12;
    if m % 12 == 11 {
      assert (m + 1) / 12 == m / 12 + 1 && (m + 1) % 12 == 0;
      YearLength(year);
      WholeYear(year);
    } else {
      assert (m + 1) / 12 == m / 12 && (m + 1) % 12 == m % 12 + 1;
    }
  }

  /** A day is the day made of its own year, month and date. */
  lemma CivilRoundTrip(d: int)
    ensures MakeDay(YearOf(d), MonthOf(d), DateOf(d)) == d
    ensures 0 <= MonthOf(d) < 12 && 1 <= DateOf(d) <= MonthLength(YearOf(d), MonthOf(d)) <= 31
  {
    MonthFits(d);
    InRange(YearOf(d), MonthOf(d));
  }

  /** The date of a day made in range is the one it was made of. */
  lemma CivilOfMade(y: int, m: int, date: int)
    requires 0 <= m < 12 && 1 <= date <= MonthLength(y, m)
    ensures var d := MakeDay(y, m, date);
            YearOf(d) == y && MonthOf(d) == m && DateOf(d) == date
  {
    var d := MakeDay(y, m, date);
    InRange(y, m);
    YearLength(y);
    WholeYear(y);
    MonthStartsGrow(y, m + 1, 12);
    MonthStartsGrow(y, 0, m);
    YearUnique(d, y);
    MonthUnique(d, m);
  }

  lemma MonthUnique(d: int, m: nat)
    requires m < 12 && MonthStart(YearOf(d), m) <= DayInYear(d) < MonthStart(YearOf(d), m + 1)
    ensures MonthOf(d) == m
  {
    var y, found := YearOf(d), MonthOf(d);
    MonthStartsGrow(y, m + 1, 12);
    MonthStartsGrow(y, 0, m);
    SearchMonthFits(y, DayInYear(d), 0);
    if found < m {
      MonthStartsGrow(y, found + 1, m);
    } else if m < found {
      MonthStartsGrow(y, m + 1, found);
    }
  }

  lemma InMonth(d: int)
    ensures var y, m := YearOf(d), MonthOf(d);
            FirstOfMonth(y, m) <= d < FirstOfMonth(y, m) + MonthLength(y, m)
  {
    CivilRoundTrip(d);
  }

  /** The days of a month are exactly those between its first and last day. */
  lemma MonthIsInterval(d: int, y: int, m: int)
    requires 0 <= m < 12
    ensures FirstOfMonth(y, m) <= d < FirstOfMonth(y, m) + MonthLength(y, m) <==> YearOf(d) == y && MonthOf(d) == m
  {
    if FirstOfMonth(y, m) <= d < FirstOfMonth(y, m) + MonthLength(y, m) {
      CivilOfMade(y, m, d - FirstOfMonth(y, m) + 1);
    }
    InMonth(d);
  }

  lemma YearOrder(a: int, b: int)
    requires a <= b
    ensures YearOf(a) <= YearOf(b)
  {
    YearFits(a);
    YearAt(b, YearOf(a));
  }

  lemma MonthOrder(a: int, b: int)
    requires a <= b && YearOf(a) == YearOf(b)
    ensures MonthOf(a) <= MonthOf(b)
    ensures MonthOf(a) == MonthOf(b) ==> DateOf(b) - DateOf(a) == b - a
  {
    MonthFits(a);
    MonthFits(b);
    if MonthOf(b) < MonthOf(a) {
      MonthStartsGrow(YearOf(a), MonthOf(b) + 1, MonthOf(a));
    }
  }

  /** Days and dates are in the same order: year first, then month, then date. */
  lemma CivilOrder(a: int, b: int)
    requires a < b
    ensures || YearOf(a) < YearOf(b)
            || (YearOf(a) == YearOf(b) && MonthOf(a) < MonthOf(b))
            || (YearOf(a) == YearOf(b) && MonthOf(a) == MonthOf(b) && DateOf(a) < DateOf(b))
  {
    YearOrder(a, b);
    if YearOf(a) == YearOf(b) {
      MonthOrder(a, b);
    }
  }

  // --------------------------------------------------------------------- Weeks

  /** 0 is Sunday; 1970-01-01 was a Thursday. */
  function WeekDay(d: int): (w: int)
    ensures 0 <= w < 7
  {
    (d + 4) % 7
  }

  /** Weeks run from Monday to Sunday. */
  function WeekNumber(d: int): int {
    (d + 3) / 7
  }

  function MondayOf(d: int): int {
    7 * WeekNumber(d) - 3
  }

  lemma MondayIsMonday(d: int)
    ensures WeekDay(MondayOf(d)) == 1 && MondayOf(d) <= d <= MondayOf(d) + 6
    ensures WeekDay(MondayOf(d) + 6) == 0
    ensures MondayOf(d) == d - (if WeekDay(d) == 0 then 6 else WeekDay(d) - 1)
  {
  }

  /** Two days share a week exactly when one lies in the other's Monday-to-Sunday span. */
  lemma WeekIsInterval(d: int, today: int)
    ensures MondayOf(today) <= d <= MondayOf(today) + 6 <==> WeekNumber(d) == WeekNumber(today)
  {
  }

  // ------------------------------------------------------------- Three months

  /** The lengths of the three months before month `m` of year `y`. */
  function PrecedingLengths(y: int, m: int): int {
    MonthLength(y, m - 1) + MonthLength(y, m - 2) + MonthLength(y, m - 3)
  }

  lemma FirstsApart(y: int, m: int)
    ensures FirstOfMonth(y, m) == FirstOfMonth(y, m - 3) + PrecedingLengths(y, m)
  {
    NextMonth(y, m - 1);
    NextMonth(y, m - 2);
    NextMonth(y, m - 3);
  }

  lemma MadeApart(y: int, m: int, date: int)
    ensures MakeDay(y, m - 3, date) == MakeDay(y, m, date) - PrecedingLengths(y, m)
  {
    FirstsApart(y, m);
  }

  /** The lengths of the three months before the month of `today`. */
  function ThreeMonthsLength(today: int): int {
    PrecedingLengths(YearOf(today), MonthOf(today))
  }

  /** Three months back, carried over when the month is too short, is exactly that
      many days back: 89 to 92. */
  lemma ThreeMonthsBack(today: int)
    ensures MakeDay(YearOf(today), MonthOf(today) - 3, DateOf(today)) == today - ThreeMonthsLength(today)
    ensures 89 <= ThreeMonthsLength(today) <= 92
  {
    CivilRoundTrip(today);
    MadeApart(YearOf(today), MonthOf(today), DateOf(today));
    ThreeLengths(YearOf(today), MonthOf(today));
  }

  /** No three months in a row are shorter than 89 or longer than 92 days. */
  lemma ThreeLengths(y: int, m: int)
    requires 0 <= m < 12
    ensures 89 <= PrecedingLengths(y, m) <= 92
  {
    if m >= 3 {
      assert (m - 1) / 12 == 0 && (m - 2) / 12 == 0 && (m - 3) / 12 == 0;
    } else if m == 2 {
      assert (m - 3) / 12 == -1 && (m - 3) % 12 == 11;
    } else if m == 1 {
      assert (m - 3) / 12 == -1 && (m - 3) % 12 == 10 && (m - 2) / 12 == -1 && (m - 2) % 12 == 11;
    } else {
      assert (m - 3) / 12 == -1 && (m - 3) % 12 == 9 && (m - 2) % 12 == 10 && (m - 1) % 12 == 11;
    }
  }

  // -------------------------------------------------------- The calendar, day by day

  /** The first day of 1970 is day 0, a Thursday. */
  lemma Epoch(y: int)
    requires y == 1970
    ensures DayFromYear(y) == 0 && WeekDay(DayFromYear(y)) == 4
  {
  }

  lemma NewYear(y: int, m: int)
    requires m == 0
    ensures var d := DayFromYear(y); YearOf(d) == y && MonthOf(d) == m && DateOf(d) == 1
  {
    FirstOfYear(y, m);
    CivilOfMade(y, m, 1);
  }

  lemma FirstOfYear(y: int, m: int)
    requires m == 0
    ensures MakeDay(y, m, 1) == DayFromYear(y)
  {
    InRange(y, m);
  }

  /** The last date of a month: thirty days in April, June, September and November, 28 or 29
      in February. */
  function LastDate(y: int, m: int): int {
    if m == 1 then if (y % 4 == 0 && y % 100 != 0) || y % 400 == 0 then 29 else 28
    else if m == 3 || m == 5 || m == 8 || m == 10 then 30
    else 31
  }

  lemma LastDateIs(y: int, m: int)
    requires 0 <= m < 12
    ensures MonthLength(y, m) == LastDate(y, m)
  {
    InRange(y, m);
    FourthCenturies(y);
    Centuries(y);
  }

  /** What the date after this one is. */
  predicate Follows(y: int, m: int, date: int, y': int, m': int, date': int) {
    if date < LastDate(y, m) then y' == y && m' == m && date' == date + 1
    else if m < 11 then y' == y && m' == m + 1 && date' == 1
    else y' == y + 1 && m' == 0 && date' == 1
  }

  /** The day after has the date that follows. With 1 January 1970 this says
      what date every day is. */
  lemma NextDay(d: int)
    ensures 0 <= MonthOf(d) < 12 && 1 <= DateOf(d) <= LastDate(YearOf(d), MonthOf(d))
    ensures Follows(YearOf(d), MonthOf(d), DateOf(d), YearOf(d + 1), MonthOf(d + 1), DateOf(d + 1))
  {
    CivilRoundTrip(d);
    LastDateIs(YearOf(d), MonthOf(d));
    if DateOf(d) < LastDate(YearOf(d), MonthOf(d)) {
      NextWithin(YearOf(d), MonthOf(d), DateOf(d), d);
    } else {
      NextOver(YearOf(d), MonthOf(d), DateOf(d), d);
    }
  }

  lemma NextWithin(y: int, m: int, date: int, d: int)
    requires 0 <= m < 12 && 1 <= date < MonthLength(y, m) && d == MakeDay(y, m, date)
    ensures YearOf(d + 1) == y && MonthOf(d + 1) == m && DateOf(d + 1) == date + 1
  {
    CivilOfMade(y, m, date + 1);
  }

  lemma NextOver(y: int, m: int, date: int, d: int)
    requires 0 <= m < 12 && date == MonthLength(y, m) && d == MakeDay(y, m, date)
    ensures YearOf(d + 1) == (if m < 11 then y else y + 1) && MonthOf(d + 1) == (if m < 11 then m + 1 else 0)
    ensures DateOf(d + 1) == 1
  {
    NextMonth(y, m);
    NextFirst(y, m, if m < 11 then y else y + 1, if m < 11 then m + 1 else 0);
  }

  lemma NextFirst(y: int, m: int, y': int, m': int)
    requires 0 <= m < 12 && (if m < 11 then y' == y && m' == m + 1 else y' == y + 1 && m' == 0)
    ensures var d := FirstOfMonth(y, m + 1); YearOf(d) == y' && MonthOf(d) == m' && DateOf(d) == 1
  {
    LastDateIs(y', m');
    CarriedFirst(y, m + 1, y', m');
    CivilOfMade(y', m', 1);
  }

  lemma CarriedFirst(y: int, m: int, y': int, m': int)
    requires (m < 12 && y' == y && m' == m >= 0) || (m == 12 && y' == y + 1 && m' == 0)
    ensures FirstOfMonth(y, m) == FirstOfMonth(y', m')
  {
    InRange(y', m');
  }
}
