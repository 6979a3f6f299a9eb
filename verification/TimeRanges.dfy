/** Time expressions in a question: week, month and three-month ranges of days. */
module TimeRanges {
  import opened CivilDates
  import opened DateText
  import opened Orders
  import opened Texts

  const MS_PER_DAY := 86400000

  const RECENTLY := "最近"

  datatype Range = Range(
    name: string, start: string, end: string, timezone: string, source: string, confidence: real)

  /** `Date.UTC`: two-digit years mean the twentieth century. */
  function UtcDay(y: int, m: int, date: int): int {
    MakeDay(if 0 <= y <= 99 then 1900 + y else y, m, date)
  }

  /** A JavaScript Date: milliseconds since 1970 in UTC. */
  class UtcDate {
    var time: int

    constructor (time: int)
      ensures this.time == time
    {
      this.time := time;
    }

    function Day(): int
      reads this
    {
      time / MS_PER_DAY
    }

    function TimeInDay(): int
      reads this
    {
      time % MS_PER_DAY
    }

    method SetUTCDate(date: int)
      modifies this
      ensures time == MakeDay(YearOf(old(Day())), MonthOf(old(Day())), date) * MS_PER_DAY + old(TimeInDay())
    {
      time := MakeDay(YearOf(Day()), MonthOf(Day()), date) * MS_PER_DAY + TimeInDay();
    }

    method SetUTCMonth(month: int)
      modifies this
      ensures time == MakeDay(YearOf(old(Day())), month, DateOf(old(Day()))) * MS_PER_DAY + old(TimeInDay())
    {
      time := MakeDay(YearOf(Day()), month, DateOf(Day())) * MS_PER_DAY + TimeInDay();
    }
  }

  method AddDays(date: UtcDate, days: int) returns (next: UtcDate)
    ensures fresh(next) && next.time == date.time + days * MS_PER_DAY
  {
    next := new UtcDate(date.time);
    ghost var day := next.Day();
    next.SetUTCDate(DateOf(next.Day()) + days);
    CivilRoundTrip(day);
  }

  method AddMonths(date: UtcDate, months: int) returns (next: UtcDate)
    ensures fresh(next)
    ensures next.time == MakeDay(YearOf(date.Day()), MonthOf(date.Day()) + months, DateOf(date.Day())) * MS_PER_DAY
                         + date.TimeInDay()
  {
    next := new UtcDate(date.time);
    next.SetUTCMonth(MonthOf(next.Day()) + months);
  }

  /** The calendar day of an instant in the caller's time zone; only Asia/Taipei is
      told apart from UTC. */
  function CalendarDay(now: int, timezone: string): int {
    (now + if timezone == "Asia/Taipei" then 8 * 60 * 60 * 1000 else 0) / MS_PER_DAY
  }

  /** The day the parser takes for today: the calendar day, rebuilt through Date.UTC. */
  function LocalDay(now: int, timezone: string): int {
    var d := CalendarDay(now, timezone);
    UtcDay(YearOf(d), MonthOf(d), DateOf(d))
  }

  /** Today is the calendar day, except exactly in the years 0 to 99, which Date.UTC takes
      for years of the twentieth century. */
  lemma LocalDayIsCalendarDay(now: int, timezone: string)
    ensures LocalDay(now, timezone) == CalendarDay(now, timezone)
            <==> !(0 <= YearOf(CalendarDay(now, timezone)) <= 99)
  {
    CivilRoundTrip(CalendarDay(now, timezone));
    NotTwoDigits(now, timezone);
  }

  /** `new Date(Date.UTC(...))` of a date's own year, month and date. */
  method Midnight(date: UtcDate) returns (start: UtcDate)
    ensures fresh(start)
    ensures start.time == UtcDay(YearOf(date.Day()), MonthOf(date.Day()), DateOf(date.Day())) * MS_PER_DAY
  {
    var d := date.Day();
    start := new UtcDate(UtcDay(YearOf(d), MonthOf(d), DateOf(d)) * MS_PER_DAY);
  }

  method ToLocalDate(now: UtcDate, timezone: string) returns (today: UtcDate)
    ensures fresh(today) && today.time == LocalDay(now.time, timezone) * MS_PER_DAY
  {
    if timezone == "Asia/Taipei" {
      var taipei := new UtcDate(now.time + 8 * 60 * 60 * 1000);
      today := Midnight(taipei);
    } else {
      today := Midnight(now);
    }
  }

  // ------------------------------------------------- What the expressions mean

  datatype Expression = Today | Yesterday | ThisWeek | LastWeek | ThisMonth | LastThreeMonths

  /** Every expression, in the order the parser looks for them. */
  function Nth(k: nat): Expression {
    match k
    case 0 => Today
    case 1 => Yesterday
    case 2 => ThisWeek
    case 3 => LastWeek
    case 4 => ThisMonth
    case _ => LastThreeMonths
  }

  function Phrase(e: Expression): string {
    match e
    case Today => "今天"
    case Yesterday => "昨天"
    case ThisWeek => "本週"
    case LastWeek => "上週"
    case ThisMonth => "本月"
    case LastThreeMonths => "近三個月"
  }

  function Name(e: Expression): string {
    match e
    case Today => "today"
    case Yesterday => "yesterday"
    case ThisWeek => "this_week"
    case LastWeek => "last_week"
    case ThisMonth => "this_month"
    case LastThreeMonths => "last_three_months"
  }

  function First(e: Expression, today: int): int {
    match e
    case Today => today
    case Yesterday => today - 1
    case ThisWeek => MondayOf(today)
    case LastWeek => MondayOf(today) - 7
    case ThisMonth => FirstOfMonth(YearOf(today), MonthOf(today))
    case LastThreeMonths => today - ThreeMonthsLength(today)
  }

  function Last(e: Expression, today: int): int {
    match e
    case Today => today
    case Yesterday => today - 1
    case ThisWeek => MondayOf(today) + 6
    case LastWeek => MondayOf(today) - 1
    case ThisMonth => FirstOfMonth(YearOf(today), MonthOf(today)) + MonthLength(YearOf(today), MonthOf(today)) - 1
    case LastThreeMonths => today
  }

  function RangeOf(e: Expression, today: int, timezone: string): Range {
    Range(Name(e), DateOnly(First(e, today)), DateOnly(Last(e, today)), timezone, Phrase(e), 0.95)
  }

  /** The ranges of those of the first `k` expressions that occur in the text. */
  function Found(text: string, today: int, timezone: string, k: nat): seq<Range> {
    if k == 0 then []
    else
      var e := Nth(k - 1);
      Found(text, today, timezone, k - 1) + if Contains(text, Phrase(e)) then [RangeOf(e, today, timezone)] else []
  }

  // ---------------------------------------------------------------- The parser

  method ToRange(e: Expression, start: UtcDate, end: UtcDate, timezone: string, ghost today: int) returns (r: Range)
    requires start.Day() == First(e, today) && end.Day() == Last(e, today)
    ensures r == RangeOf(e, today, timezone)
  {
    r := Range(Name(e), DateOnly(start.Day()), DateOnly(end.Day()), timezone, Phrase(e), 0.95);
  }

  method YesterdayRange(today: UtcDate, timezone: string) returns (r: Range)
    ensures r == RangeOf(Yesterday, today.Day(), timezone)
  {
    var day := AddDays(today, -1);
    r := ToRange(Yesterday, day, day, timezone, today.Day());
  }

  /** The Monday of today's week, as the source computes it. */
  method WeekStart(today: UtcDate) returns (start: UtcDate)
    requires today.TimeInDay() == 0
    ensures fresh(start) && start.time == MondayOf(today.Day()) * MS_PER_DAY
  {
    var weekDay := WeekDay(today.Day());
    MondayIsMonday(today.Day());
    start := AddDays(today, -(if weekDay == 0 then 6 else weekDay - 1));
  }

  method ThisWeekRange(today: UtcDate, timezone: string) returns (r: Range)
    requires today.TimeInDay() == 0
    ensures r == RangeOf(ThisWeek, today.Day(), timezone)
  {
    var start := WeekStart(today);
    var end := AddDays(start, 6);
    r := ToRange(ThisWeek, start, end, timezone, today.Day());
  }

  method LastWeekRange(today: UtcDate, timezone: string) returns (r: Range)
    requires today.TimeInDay() == 0
    ensures r == RangeOf(LastWeek, today.Day(), timezone)
  {
    var thisWeek := WeekStart(today);
    var start := AddDays(thisWeek, -7);
    var end := AddDays(start, 6);
    r := ToRange(LastWeek, start, end, timezone, today.Day());
  }

  method ThisMonthRange(today: UtcDate, timezone: string) returns (r: Range)
    requires !(0 <= YearOf(today.Day()) <= 99)
    ensures r == RangeOf(ThisMonth, today.Day(), timezone)
  {
    var y, m := YearOf(today.Day()), MonthOf(today.Day());
    NextMonth(y, m);
    var start := new UtcDate(UtcDay(y, m, 1) * MS_PER_DAY);
    var end := new UtcDate(UtcDay(y, m + 1, 0) * MS_PER_DAY);
    r := ToRange(ThisMonth, start, end, timezone, today.Day());
  }

  method LastThreeMonthsRange(today: UtcDate, timezone: string) returns (r: Range)
    ensures r == RangeOf(LastThreeMonths, today.Day(), timezone)
  {
    var start := AddMonths(today, -3);
    ThreeMonthsBack(today.Day());
    r := ToRange(LastThreeMonths, start, today, timezone, today.Day());
  }

  /** Adds the range of one expression if the text has it. */
  method Push(text: string, e: Expression, ranges: seq<Range>, today: UtcDate, timezone: string)
    returns (more: seq<Range>)
    requires today.TimeInDay() == 0 && !(0 <= YearOf(today.Day()) <= 99)
    ensures more == ranges + if Contains(text, Phrase(e)) then [RangeOf(e, today.Day(), timezone)] else []
  {
    if !Contains(text, Phrase(e)) {
      return ranges;
    }
    var r: Range;
    match e {
      case Today => r := ToRange(Today, today, today, timezone, today.Day());
      case Yesterday => r := YesterdayRange(today, timezone);
      case ThisWeek => r := ThisWeekRange(today, timezone);
      case LastWeek => r := LastWeekRange(today, timezone);
      case ThisMonth => r := ThisMonthRange(today, timezone);
      case LastThreeMonths => r := LastThreeMonthsRange(today, timezone);
    }
    more := ranges + [r];
  }

  // ------------------------------------------------------ What the ranges must be

  /** The Monday on or before today. */
  predicate MondayOn(today: int, monday: int) {
    WeekDay(monday) == 1 && monday <= today <= monday + 6
  }

  /** The first and the last day of today's month. */
  predicate MonthOn(today: int, first: int, last: int) {
    && YearOf(first) == YearOf(today) == YearOf(last) && MonthOf(first) == MonthOf(today) == MonthOf(last)
    && DateOf(first) == 1 && DateOf(last + 1) == 1
  }

  /** As many days into the month three earlier as today is into its own. */
  predicate ThreeBack(today: int, back: int) {
    var past := back - DateOf(today) + 1;
    12 * YearOf(past) + MonthOf(past) == 12 * YearOf(today) + MonthOf(today) - 3 && DateOf(past) == 1
  }

  function IfOccurs(text: string, phrase: string, name: string, first: int, last: int, timezone: string): seq<Range> {
    if Occurs(text, phrase) then [Range(name, DateOnly(first), DateOnly(last), timezone, phrase, 0.95)] else []
  }

  /** The ranges a text asks for, in order. */
  function Asked(text: string, timezone: string, today: int, monday: int, first: int, last: int, back: int): (r: seq<seq<Range>>)
    ensures |r| == 6
  {
    [IfOccurs(text, "今天", "today", today, today, timezone),
     IfOccurs(text, "昨天", "yesterday", today - 1, today - 1, timezone),
     IfOccurs(text, "本週", "this_week", monday, monday + 6, timezone),
     IfOccurs(text, "上週", "last_week", monday - 7, monday - 1, timezone),
     IfOccurs(text, "本月", "this_month", first, last, timezone),
     IfOccurs(text, "近三個月", "last_three_months", back, today, timezone)]
  }

  function Joined<T>(parts: seq<seq<T>>, k: nat): seq<T>
    requires k <= |parts|
  {
    if k == 0 then [] else Joined(parts, k - 1) + parts[k - 1]
  }

  ghost predicate RightRanges(ranges: seq<Range>, text: string, timezone: string, today: int) {
    exists monday, first, last, back :: && MondayOn(today, monday) && MonthOn(today, first, last) && ThreeBack(today, back)
                                        && ranges == Joined(Asked(text, timezone, today, monday, first, last, back), 6)
  }

  lemma FoundNext(text: string, today: int, timezone: string, k: nat, phrase: string, name: string, first: int, last: int)
    requires phrase == Phrase(Nth(k)) && name == Name(Nth(k))
    requires first == First(Nth(k), today) && last == Last(Nth(k), today)
    ensures Found(text, today, timezone, k + 1) ==
            Found(text, today, timezone, k) + IfOccurs(text, phrase, name, first, last, timezone)
  {
    OccursIff(text, phrase);
  }

  lemma FoundToday(text: string, timezone: string, today: int, k: nat)
    requires k == 0
    ensures Found(text, today, timezone, k + 1) ==
            Found(text, today, timezone, k) + IfOccurs(text, "今天", "today", today, today, timezone)
  {
    FoundNext(text, today, timezone, k, "今天", "today", today, today);
  }

  lemma FoundYesterday(text: string, timezone: string, today: int, k: nat)
    requires k == 1
    ensures Found(text, today, timezone, k + 1) ==
            Found(text, today, timezone, k) + IfOccurs(text, "昨天", "yesterday", today - 1, today - 1, timezone)
  {
    FoundNext(text, today, timezone, k, "昨天", "yesterday", today - 1, today - 1);
  }

  lemma FoundThisWeek(text: string, timezone: string, today: int, monday: int, k: nat)
    requires k == 2 && monday == MondayOf(today)
    ensures Found(text, today, timezone, k + 1) ==
            Found(text, today, timezone, k) + IfOccurs(text, "本週", "this_week", monday, monday + 6, timezone)
  {
    FoundNext(text, today, timezone, k, "本週", "this_week", monday, monday + 6);
  }

  lemma FoundLastWeek(text: string, timezone: string, today: int, monday: int, k: nat)
    requires k == 3 && monday == MondayOf(today)
    ensures Found(text, today, timezone, k + 1) ==
            Found(text, today, timezone, k) + IfOccurs(text, "上週", "last_week", monday - 7, monday - 1, timezone)
  {
    FoundNext(text, today, timezone, k, "上週", "last_week", monday - 7, monday - 1);
  }

  lemma FoundThisMonth(text: string, timezone: string, today: int, first: int, last: int, k: nat)
    requires k == 4 && first == First(ThisMonth, today) && last == Last(ThisMonth, today)
    ensures Found(text, today, timezone, k + 1) ==
            Found(text, today, timezone, k) + IfOccurs(text, "本月", "this_month", first, last, timezone)
  {
    FoundNext(text, today, timezone, k, "本月", "this_month", first, last);
  }

  lemma FoundLastThreeMonths(text: string, timezone: string, today: int, back: int, k: nat)
    requires k == 5 && back == First(LastThreeMonths, today)
    ensures Found(text, today, timezone, k + 1) ==
            Found(text, today, timezone, k) + IfOccurs(text, "近三個月", "last_three_months", back, today, timezone)
  {
    FoundNext(text, today, timezone, k, "近三個月", "last_three_months", back, today);
  }

  predicate Ends(today: int, monday: int, first: int, last: int, back: int) {
    && monday == MondayOf(today) && first == First(ThisMonth, today) && last == Last(ThisMonth, today)
    && back == First(LastThreeMonths, today)
  }

  lemma FoundAt(text: string, timezone: string, today: int, monday: int, first: int, last: int, back: int, k: nat)
    requires Ends(today, monday, first, last, back) && k < 6
    ensures Found(text, today, timezone, k + 1) ==
            Found(text, today, timezone, k) + Asked(text, timezone, today, monday, first, last, back)[k]
  {
    if k == 0 {
      FoundToday(text, timezone, today, k);
    } else if k == 1 {
      FoundYesterday(text, timezone, today, k);
    } else if k == 2 {
      FoundThisWeek(text, timezone, today, monday, k);
    } else if k == 3 {
      FoundLastWeek(text, timezone, today, monday, k);
    } else if k == 4 {
      FoundThisMonth(text, timezone, today, first, last, k);
    } else {
      FoundLastThreeMonths(text, timezone, today, back, k);
    }
  }

  lemma {:induction false} FoundAre(text: string, timezone: string, today: int, monday: int, first: int, last: int,
                                    back: int, k: nat)
    requires Ends(today, monday, first, last, back) && k <= 6
    ensures Found(text, today, timezone, k) == Joined(Asked(text, timezone, today, monday, first, last, back), k)
  {
    if k > 0 {
      FoundAre(text, timezone, today, monday, first, last, back, k - 1);
      FoundAt(text, timezone, today, monday, first, last, back, k - 1);
    }
  }

  /** The first day of the month three months ago. */
  function PastFirst(today: int): int {
    FirstOfMonth(YearOf(today), MonthOf(today) - 3)
  }

  lemma MonthAround(today: int)
    ensures MonthOn(today, First(ThisMonth, today), Last(ThisMonth, today))
  {
    MonthYears(today);
    MonthEnds(today);
  }

  lemma BackIsPast(today: int)
    ensures ThreeBack(today, First(LastThreeMonths, today))
  {
    ThreeMonthsBack(today);
    PastFirstIs(today);
    assert PastFirst(today) == First(LastThreeMonths, today) - DateOf(today) + 1;
  }

  lemma MonthEnds(today: int)
    ensures MonthOf(First(ThisMonth, today)) == MonthOf(today) == MonthOf(Last(ThisMonth, today))
    ensures DateOf(First(ThisMonth, today)) == 1 && DateOf(Last(ThisMonth, today) + 1) == 1
  {
    MonthFits(today);
    EndsOf(YearOf(today), MonthOf(today));
  }

  lemma EndsOf(y: int, m: int)
    requires 0 <= m < 12
    ensures MonthOf(FirstOfMonth(y, m)) == m == MonthOf(FirstOfMonth(y, m) + MonthLength(y, m) - 1)
    ensures DateOf(FirstOfMonth(y, m)) == 1 == DateOf(FirstOfMonth(y, m) + MonthLength(y, m))
  {
    LastDateIs(y, m);
    CivilOfMade(y, m, 1);
    CivilOfMade(y, m, MonthLength(y, m));
    NextOver(y, m, MonthLength(y, m), FirstOfMonth(y, m) + MonthLength(y, m) - 1);
  }

  lemma PastFirstIs(today: int)
    ensures 12 * YearOf(PastFirst(today)) + MonthOf(PastFirst(today)) == 12 * YearOf(today) + MonthOf(today) - 3
    ensures DateOf(PastFirst(today)) == 1
  {
    var y, m := YearOf(today), MonthOf(today) - 3;
    MonthFits(today);
    var year, month := if m < 0 then y - 1 else y, if m < 0 then m + 12 else m;
    assert y + m / 12 == year && m % 12 == month;
    InRange(year, month);
    MonthDaysAtLeast(year, month);
    CivilOfMade(year, month, 1);
  }

  lemma FoundAreRight(ranges: seq<Range>, text: string, today: int, timezone: string, k: nat)
    requires ranges == Found(text, today, timezone, k) && k == 6
    ensures RightRanges(ranges, text, timezone, today)
  {
    MondayIsMonday(today);
    MonthAround(today);
    BackIsPast(today);
    FoundAre(text, timezone, today, MondayOf(today), First(ThisMonth, today), Last(ThisMonth, today),
             First(LastThreeMonths, today), k);
  }

  /** The calendar day of the instant, eight hours ahead of UTC in Taipei; in the years 0 to
      99 the day of the same month and date 1900 years later. */
  predicate TodayIs(today: int, now: int, timezone: string) {
    var day := (now + if timezone == "Asia/Taipei" then 28800000 else 0) / 86400000;
    today == if 0 <= YearOf(day) <= 99 then MakeDay(YearOf(day) + 1900, MonthOf(day), DateOf(day)) else day
  }

  lemma ParsedIsRight(ranges: seq<Range>, text: string, now: int, timezone: string, k: nat)
    requires k == 6 && ranges == Found(text, LocalDay(now, timezone), timezone, k)
    ensures RightRanges(ranges, text, timezone, LocalDay(now, timezone))
    ensures TodayIs(LocalDay(now, timezone), now, timezone)
    ensures Contains(text, RECENTLY) <==> Occurs(text, "最近")
  {
    OccursIff(text, RECENTLY);
    FoundAreRight(ranges, text, LocalDay(now, timezone), timezone, k);
    LocalDayIs(now, timezone);
  }

  lemma LocalDayIs(now: int, timezone: string)
    ensures TodayIs(LocalDay(now, timezone), now, timezone)
  {
    CivilRoundTrip(CalendarDay(now, timezone));
  }

  method ParseTimeRanges(text: string, now: UtcDate, timezone: string)
    returns (ranges: seq<Range>, needsClarification: bool)
    ensures ranges == Found(text, LocalDay(now.time, timezone), timezone, 6)
    ensures RightRanges(ranges, text, timezone, LocalDay(now.time, timezone))
    ensures TodayIs(LocalDay(now.time, timezone), now.time, timezone)
    ensures needsClarification <==> Occurs(text, "最近") && ranges == []
  {
    var today := ToLocalDate(now, timezone);
    NotTwoDigits(now.time, timezone);
    ghost var day := LocalDay(now.time, timezone);
    assert today.Day() == day && today.TimeInDay() == 0;
    ranges := Push(text, Today, [], today, timezone);
    assert ranges == Found(text, day, timezone, 1);
    ranges := Push(text, Yesterday, ranges, today, timezone);
    assert ranges == Found(text, day, timezone, 2);
    ranges := Push(text, ThisWeek, ranges, today, timezone);
    assert ranges == Found(text, day, timezone, 3);
    ranges := Push(text, LastWeek, ranges, today, timezone);
    assert ranges == Found(text, day, timezone, 4);
    ranges := Push(text, ThisMonth, ranges, today, timezone);
    assert ranges == Found(text, day, timezone, 5);
    ranges := Push(text, LastThreeMonths, ranges, today, timezone);
    needsClarification := Contains(text, RECENTLY) && |ranges| == 0;
    ParsedIsRight(ranges, text, now.time, timezone, 6);
  }

  /** Rebuilding a day through Date.UTC never yields a two-digit year. */
  lemma NotTwoDigits(now: int, timezone: string)
    ensures !(0 <= YearOf(LocalDay(now, timezone)) <= 99)
  {
    Rebuilt(CalendarDay(now, timezone));
  }

  lemma Rebuilt(d: int)
    ensures !(0 <= YearOf(UtcDay(YearOf(d), MonthOf(d), DateOf(d))) <= 99)
  {
    CivilRoundTrip(d);
    MadeByUtc(YearOf(d), MonthOf(d), DateOf(d));
  }

  lemma MadeByUtc(y: int, m: int, date: int)
    requires 0 <= m < 12 && 1 <= date <= MonthLength(y, m)
    ensures !(0 <= YearOf(UtcDay(y, m, date)) <= 99)
  {
    if 0 <= y <= 99 {
      TwentiethCentury(1900 + y, m, date);
    } else {
      CivilOfMade(y, m, date);
    }
  }

  lemma TwentiethCentury(y: int, m: int, date: int)
    requires 1900 <= y && 0 <= m < 12 && 1 <= date
    ensures YearOf(MakeDay(y, m, date)) >= 100
  {
    var made := MakeDay(y, m, date);
    MadeInOrAfter(y, m, date);
    YearsGrow(100, y);
    YearAt(made, 100);
  }

  lemma MadeInOrAfter(y: int, m: int, date: int)
    requires 0 <= m < 12 && 1 <= date
    ensures MakeDay(y, m, date) >= DayFromYear(y)
  {
    InRange(y, m);
    MonthStartsGrow(y, 0, m);
  }

  // ---------------------------------------------------------------- Properties

  /** The last Sunday of year 9999. */
  const LAST_SUNDAY := 2932891

  /** The first days of 1969, 1970 and 10000. */
  lemma Anchors()
    ensures DayFromYear(1969) == -365 && DayFromYear(1970) == 0 && DayFromYear(10000) == LAST_SUNDAY + 6
  {
  }

  lemma WeekPastEnd(today: int)
    ensures MondayOf(today) + 6 >= LAST_SUNDAY + 6 <==> today > LAST_SUNDAY
    ensures today < LAST_SUNDAY + 6 ==> MondayOf(today) < LAST_SUNDAY + 6
  {
  }

  /** Only in the last days of 9999 does this week reach into year 10000. */
  lemma LateWeeks(today: int)
    requires 1970 <= YearOf(today) <= 9999
    ensures FourDigitYear(MondayOf(today) - 7) && FourDigitYear(MondayOf(today) - 1) && FourDigitYear(MondayOf(today))
    ensures YearOf(MondayOf(today) + 6) >= 1970
    ensures YearOf(MondayOf(today) + 6) > 9999 <==> today > LAST_SUNDAY
  {
    var monday := MondayOf(today);
    Anchors();
    MondayIsMonday(today);
    WeekPastEnd(today);
    YearAt(today, 1970);
    YearAt(today, 10000);
    YearAt(monday - 7, 1969);
    YearAt(monday + 6, 1970);
    YearAt(monday + 6, 10000);
    YearAt(monday, 10000);
    YearOrder(monday - 7, monday - 1);
    YearOrder(monday - 1, monday);
  }

  /** The ranges found are exactly those of the expressions that occur. */
  lemma {:induction false} FoundHas(text: string, today: int, timezone: string, k: nat, i: nat)
    requires i < k && Contains(text, Phrase(Nth(i)))
    ensures RangeOf(Nth(i), today, timezone) in Found(text, today, timezone, k)
  {
    if i < k - 1 {
      FoundHas(text, today, timezone, k - 1, i);
    }
  }

  lemma {:induction false} FoundOnly(text: string, today: int, timezone: string, k: nat, r: Range) returns (i: nat)
    requires r in Found(text, today, timezone, k)
    ensures i < k && Contains(text, Phrase(Nth(i))) && r == RangeOf(Nth(i), today, timezone)
  {
    if r in Found(text, today, timezone, k - 1) {
      i := FoundOnly(text, today, timezone, k - 1, r);
    } else {
      i := k - 1;
    }
  }

  predicate Ordered(e: Expression, today: int) {
    LexLe(DateOnly(First(e, today)), DateOnly(Last(e, today)))
  }

  /** For years 1970 to 9999 every emitted range has start <= end as strings, except
      this week's in the days after the last Sunday of 9999, whose end is printed
      with a sign and six digits. */
  lemma RangesOrderedIff(text: string, today: int, timezone: string)
    requires 1970 <= YearOf(today) <= 9999
    ensures (forall r :: r in Found(text, today, timezone, 6) ==> LexLe(r.start, r.end))
            <==> !(Contains(text, Phrase(ThisWeek)) && today > LAST_SUNDAY)
  {
    OrderedIff(ThisWeek, today);
    var week := RangeOf(ThisWeek, today, timezone);
    if Contains(text, Phrase(ThisWeek)) {
      FoundHas(text, today, timezone, 6, 2);
    }
    if !(Contains(text, Phrase(ThisWeek)) && today > LAST_SUNDAY) {
      forall r | r in Found(text, today, timezone, 6)
        ensures LexLe(r.start, r.end)
      {
        var i := FoundOnly(text, today, timezone, 6, r);
        OrderedIff(Nth(i), today);
      }
    }
  }

  /** On Monday 9999-12-27 the range of this week ends before it starts. */
  lemma OutOfOrder(timezone: string)
    ensures exists r :: r in Found(Phrase(ThisWeek), LAST_SUNDAY + 1, timezone, 6) && !LexLe(r.start, r.end)
  {
    var today := LAST_SUNDAY + 1;
    Anchors();
    YearAt(today, 1970);
    YearAt(today, 10000);
    assert Contains(Phrase(ThisWeek), Phrase(ThisWeek)) by {
      ContainsAll([], Phrase(ThisWeek), []);
      assert [] + Phrase(ThisWeek) + [] == Phrase(ThisWeek);
    }
    RangesOrderedIff(Phrase(ThisWeek), today, timezone);
  }

  lemma OrderedIff(e: Expression, today: int)
    requires 1970 <= YearOf(today) <= 9999
    ensures Ordered(e, today) <==> e != ThisWeek || today <= LAST_SUNDAY
  {
    EndYears(e, today);
    EndsInOrder(e, today);
    if e == ThisWeek && today > LAST_SUNDAY {
      LateYearsSortFirst(First(e, today), Last(e, today));
    } else {
      DateOnlyOrder(First(e, today), Last(e, today));
    }
  }

  lemma EndsInOrder(e: Expression, today: int)
    ensures First(e, today) <= Last(e, today)
  {
    MonthDaysAtLeast(YearOf(today), MonthOf(today));
    MonthFits(today);
    InRange(YearOf(today), MonthOf(today));
    ThreeMonthsBack(today);
  }

  /** The days an expression stands for on the calendar. */
  predicate Means(e: Expression, today: int, d: int) {
    match e
    case Today => d == today
    case Yesterday => d == today - 1
    case ThisWeek => WeekNumber(d) == WeekNumber(today)
    case LastWeek => WeekNumber(d) == WeekNumber(today) - 1
    case ThisMonth => YearOf(d) == YearOf(today) && MonthOf(d) == MonthOf(today)
    case LastThreeMonths => MakeDay(YearOf(today), MonthOf(today) - 3, DateOf(today)) <= d <= today
  }

  /** A range runs over exactly the days its expression stands for. */
  lemma RangeMeans(e: Expression, today: int, d: int)
    ensures First(e, today) <= d <= Last(e, today) <==> Means(e, today, d)
  {
    match e
    case Today =>
    case Yesterday =>
    case ThisWeek => WeekIsInterval(d, today);
    case LastWeek => WeekIsInterval(d, today - 7);
    case ThisMonth => MonthFits(today); MonthIsInterval(d, YearOf(today), MonthOf(today));
    case LastThreeMonths => ThreeMonthsBack(today);
  }

  /** For years 1970 to 9999 both ends of every range have four-digit years, but for
      the end of this week in the days after the last Sunday of 9999. */
  lemma EndYears(e: Expression, today: int)
    requires 1970 <= YearOf(today) <= 9999
    ensures FourDigitYear(First(e, today)) && YearOf(Last(e, today)) >= 0
    ensures YearOf(Last(e, today)) > 9999 <==> e == ThisWeek && today > LAST_SUNDAY
  {
    match e
    case Today =>
    case Yesterday => EarlierYears(today, today - 1);
    case ThisWeek => LateWeeks(today);
    case LastWeek => LateWeeks(today);
    case ThisMonth => MonthYears(today);
    case LastThreeMonths => ThreeMonthsBack(today); EarlierYears(today, today - ThreeMonthsLength(today));
  }

  lemma EarlierYears(today: int, d: int)
    requires 1970 <= YearOf(today) <= 9999 && today - 92 <= d <= today
    ensures FourDigitYear(d)
  {
    Anchors();
    YearAt(today, 1970);
    YearAt(d, 1969);
    YearOrder(d, today);
  }

  lemma MonthYears(today: int)
    ensures YearOf(First(ThisMonth, today)) == YearOf(today) == YearOf(Last(ThisMonth, today))
  {
    MonthFits(today);
    InRange(YearOf(today), MonthOf(today));
    MonthDaysAtLeast(YearOf(today), MonthOf(today));
    RangeMeans(ThisMonth, today, First(ThisMonth, today));
    RangeMeans(ThisMonth, today, Last(ThisMonth, today));
  }

  lemma MonthDaysAtLeast(y: int, m: int)
    ensures MonthDays(y, m) >= 28
  {
  }

  /** For years 1970 to 9999 both ends of a printed range read back as the first and
      the last day meant, except the end of this week after the last Sunday of 9999. */
  lemma RangeReadsBack(e: Expression, today: int, timezone: string)
    requires 1970 <= YearOf(today) <= 9999
    ensures var r := RangeOf(e, today, timezone);
            && ReadDay(r.start) == First(e, today)
            && (ReadDay(r.end) == Last(e, today) <==> !(e == ThisWeek && today > LAST_SUNDAY))
  {
    EndYears(e, today);
    DateOnlyReads(First(e, today));
    DateOnlyReads(Last(e, today));
  }
}
