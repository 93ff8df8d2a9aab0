/** The civil calendar behind snapshot names: Go's `time.Date`, `AddDate`, `Weekday`, `Format` and `Parse` for the three
    layouts the snapshot store uses (internal/dataplane/snapshot.go). All times are UTC, with whole seconds. */
module Calendar {
  import opened Wrappers
  import opened Text

  datatype Date = Date(year: int, month: int, day: int)

  predicate IsLeap(year: int) {
    year % 4 == 0 && (year % 100 != 0 || year % 400 == 0)
  }

  function DaysIn(year: int, month: int): (n: int)
    requires 1 <= month <= 12
    ensures 28 <= n <= 31
  {
    if month == 2 then if IsLeap(year) then 29 else 28
    else if month in {4, 6, 9, 11} then 30
    else 31
  }

  predicate ValidDate(d: Date) {
    1 <= d.month <= 12 && 1 <= d.day <= DaysIn(d.year, d.month)
  }

  // ---------------------------------------------------------------- day numbers

  /** Days from 1 January of year 1 (negative for earlier years). */
  function DaysBeforeYear(year: int): int {
    365 * (year - 1) + (year - 1) / 4 - (year - 1) / 100 + (year - 1) / 400
  }

  function DaysBeforeMonth(year: int, month: int): int
    requires 1 <= month <= 13
    decreases month
  {
    if month == 1 then 0 else DaysBeforeMonth(year, month - 1) + DaysIn(year, month - 1)
  }

  /** Day 0 is 1 January of year 1, a Monday. */
  function DayNumber(d: Date): int
    requires ValidDate(d)
  {
    DaysBeforeYear(d.year) + DaysBeforeMonth(d.year, d.month) + d.day - 1
  }

  function NextDay(d: Date): Date
    requires ValidDate(d)
  {
    if d.day < DaysIn(d.year, d.month) then Date(d.year, d.month, d.day + 1)
    else if d.month < 12 then Date(d.year, d.month + 1, 1)
    else Date(d.year + 1, 1, 1)
  }

  function PreviousDay(d: Date): Date
    requires ValidDate(d)
  {
    if d.day > 1 then Date(d.year, d.month, d.day - 1)
    else if d.month > 1 then Date(d.year, d.month - 1, DaysIn(d.year, d.month - 1))
    else Date(d.year - 1, 12, 31)
  }

  lemma MonthTable(year: int)
    ensures DaysBeforeMonth(year, 13) == if IsLeap(year) then 366 else 365
  {
    hide IsLeap;
    var leap := if IsLeap(year) then 1 else 0;
    assert DaysBeforeMonth(year, 3) == 59 + leap;
    assert DaysBeforeMonth(year, 5) == 120 + leap;
    assert DaysBeforeMonth(year, 7) == 181 + leap;
    assert DaysBeforeMonth(year, 9) == 243 + leap;
    assert DaysBeforeMonth(year, 11) == 304 + leap;
  }

  lemma YearStep(year: int)
    ensures DaysBeforeYear(year + 1) == DaysBeforeYear(year) + if IsLeap(year) then 366 else 365
  {
    Multiples(year, 4);
    Multiples(year, 100);
    Multiples(year, 400);
    LeapDays(year);
    hide IsLeap;
  }

  /** A leap year counts once: the multiples of 100 are multiples of 4, and those of 400 are multiples of 100. */
  lemma LeapDays(year: int)
    ensures (if IsLeap(year) then 1 else 0) ==
      (if year % 4 == 0 then 1 else 0) - (if year % 100 == 0 then 1 else 0) + if year % 400 == 0 then 1 else 0
  {
    if year % 100 == 0 {
      FactorOf(year, 25 * (year / 100), 4);
    }
    if year % 400 == 0 {
      FactorOf(year, 4 * (year / 400), 100);
    }
  }

  lemma FactorOf(n: int, m: int, k: int)
    requires k in {4, 100} && n == m * k
    ensures n % k == 0
  {
  }

  lemma Multiples(year: int, k: int)
    requires k in {4, 100, 400}
    ensures year / k == (year - 1) / k + if year % k == 0 then 1 else 0
  {
  }

  lemma YearLength(year: int)
    ensures DaysBeforeYear(year + 1) == DaysBeforeYear(year) + DaysBeforeMonth(year, 13)
  {
    hide DaysBeforeYear, IsLeap;
    MonthTable(year);
    YearStep(year);
  }

  /** Walking one day forward or back moves the day number by one: across months, years and leap days. */
  lemma NextDayCounts(d: Date)
    requires ValidDate(d)
    ensures ValidDate(NextDay(d)) && DayNumber(NextDay(d)) == DayNumber(d) + 1
    ensures PreviousDay(NextDay(d)) == d
  {
    hide DaysBeforeYear, IsLeap;
    YearLength(d.year);
    assert DaysBeforeMonth(d.year + 1, 1) == 0;
    assert DaysBeforeMonth(d.year, d.month + 1) == DaysBeforeMonth(d.year, d.month) + DaysIn(d.year, d.month);
  }

  lemma PreviousDayCounts(d: Date)
    requires ValidDate(d)
    ensures ValidDate(PreviousDay(d)) && DayNumber(PreviousDay(d)) == DayNumber(d) - 1
    ensures NextDay(PreviousDay(d)) == d
  {
    hide DayNumber, DaysBeforeYear, DaysBeforeMonth, IsLeap;
    NextDayCounts(PreviousDay(d));
  }

  /** The date of a day number, found by walking from day 0. */
  function CivilDate(n: int): (d: Date)
    ensures ValidDate(d)
    decreases if n < 0 then -n else n
  {
    if n == 0 then Date(1, 1, 1)
    else if n > 0 then
      var d := CivilDate(n - 1);
      NextDayCounts(d);
      NextDay(d)
    else
      var d := CivilDate(n + 1);
      PreviousDayCounts(d);
      PreviousDay(d)
  }

  lemma {:induction false} DayNumberOfCivilDate(n: int)
    ensures DayNumber(CivilDate(n)) == n
    decreases if n < 0 then -n else n
  {
    if n > 0 {
      DayNumberOfCivilDate(n - 1);
      NextDayCounts(CivilDate(n - 1));
    } else if n < 0 {
      DayNumberOfCivilDate(n + 1);
      PreviousDayCounts(CivilDate(n + 1));
    }
  }

  predicate Before(a: Date, b: Date) {
    a.year < b.year || (a.year == b.year && (a.month < b.month || (a.month == b.month && a.day < b.day)))
  }

  lemma {:induction false} MonthsGrow(year: int, m: int, n: int)
    requires 1 <= m <= n <= 13
    ensures DaysBeforeMonth(year, m) <= DaysBeforeMonth(year, n)
    decreases n
  {
    if m < n {
      MonthsGrow(year, m, n - 1);
    }
  }

  lemma {:induction false} YearsGrow(y: int, z: int)
    requires y <= z
    ensures DaysBeforeYear(y) <= DaysBeforeYear(z)
    decreases z - y
  {
    if y < z {
      YearsGrow(y, z - 1);
      YearLength(z - 1);
    }
  }

  /** Day numbers follow the calendar, so they name dates uniquely. */
  lemma DayNumberFollowsCalendar(a: Date, b: Date)
    requires ValidDate(a) && ValidDate(b)
    ensures Before(a, b) <==> DayNumber(a) < DayNumber(b)
    ensures a == b <==> DayNumber(a) == DayNumber(b)
  {
    if Before(a, b) {
      Earlier(a, b);
    }
    if Before(b, a) {
      Earlier(b, a);
    }
  }

  lemma Earlier(a: Date, b: Date)
    requires ValidDate(a) && ValidDate(b) && Before(a, b)
    ensures DayNumber(a) < DayNumber(b)
  {
    hide DaysBeforeYear, IsLeap;
    WithinMonth(a);
    assert DaysBeforeMonth(b.year, 1) == 0;
    if a.year < b.year {
      YearLength(a.year);
      MonthsGrow(a.year, a.month + 1, 13);
      YearsGrow(a.year + 1, b.year);
      MonthsGrow(b.year, 1, b.month);
    } else if a.month < b.month {
      MonthsGrow(a.year, a.month + 1, b.month);
    }
  }

  lemma WithinMonth(d: Date)
    requires ValidDate(d)
    ensures DayNumber(d) < DaysBeforeYear(d.year) + DaysBeforeMonth(d.year, d.month + 1)
  {
  }

  /** Dates and day numbers correspond one to one. */
  lemma CivilDateOfDayNumber(d: Date)
    requires ValidDate(d)
    ensures CivilDate(DayNumber(d)) == d
  {
    DayNumberOfCivilDate(DayNumber(d));
    DayNumberFollowsCalendar(CivilDate(DayNumber(d)), d);
  }

  // ---------------------------------------------------------------- weeks

  /** Go's numbering: Sunday is 0. */
  function Weekday(d: Date): (w: int)
    requires ValidDate(d)
    ensures 0 <= w < 7
  {
    (DayNumber(d) + 1) % 7
  }

  /** `AddDate(0, 0, -days)`. */
  function DaysEarlier(d: Date, days: nat): (r: Date)
    requires ValidDate(d)
    ensures ValidDate(r)
    decreases days
  {
    if days == 0 then d else
      PreviousDayCounts(d);
      DaysEarlier(PreviousDay(d), days - 1)
  }

  lemma {:induction false} DaysEarlierCounts(d: Date, days: nat)
    requires ValidDate(d)
    ensures DayNumber(DaysEarlier(d, days)) == DayNumber(d) - days
    decreases days
  {
    if days > 0 {
      PreviousDayCounts(d);
      DaysEarlierCounts(PreviousDay(d), days - 1);
    }
  }

  const SUNDAY := 0
  const MONDAY := 1

  function WeekStart(d: Date): (r: Date)
    requires ValidDate(d)
    ensures ValidDate(r)
  {
    DaysEarlier(d, (Weekday(d) + 6) % 7)
  }

  lemma MondayOfWeek(n: int, m: int)
    ensures m == n - ((n + 1) % 7 + 6) % 7 <==> (m + 1) % 7 == 1 && n - 6 <= m <= n
    ensures m == n - ((n + 1) % 7 + 6) % 7 <==> m == n / 7 * 7
  {
    var week, day := n / 7, n % 7;
    assert n == 7 * week + day;
    assert ((n + 1) % 7 + 6) % 7 == day;
  }

  /** The week start is the one Monday among the date and the six days before it. */
  lemma WeekStartIsTheMonday(d: Date, monday: Date)
    requires ValidDate(d) && ValidDate(monday)
    ensures monday == WeekStart(d) <==>
              Weekday(monday) == MONDAY && DayNumber(d) - 6 <= DayNumber(monday) <= DayNumber(d)
    ensures DayNumber(WeekStart(d)) == DayNumber(d) / 7 * 7
  {
    hide DayNumber;
    DayNumberFollowsCalendar(monday, WeekStart(d));
    WeekStartNumber(d, DayNumber(d), DayNumber(WeekStart(d)));
    MondayOfWeek(DayNumber(d), DayNumber(monday));
    MondayOfWeek(DayNumber(d), DayNumber(WeekStart(d)));
  }

  lemma WeekStartNumber(d: Date, n: int, m: int)
    requires ValidDate(d) && n == DayNumber(d) && m == DayNumber(WeekStart(d))
    ensures m == n - ((n + 1) % 7 + 6) % 7
  {
    hide DayNumber;
    DaysEarlierCounts(d, (Weekday(d) + 6) % 7);
  }

  /** Two dates have the same week start iff no Monday separates them: they lie in one Monday-to-Sunday week. */
  lemma SameWeek(a: Date, b: Date)
    requires ValidDate(a) && ValidDate(b)
    ensures WeekStart(a) == WeekStart(b) <==> DayNumber(a) / 7 == DayNumber(b) / 7
    ensures WeekStart(a) != WeekStart(b) && Before(a, b) ==>
              exists monday :: ValidDate(monday) && Weekday(monday) == MONDAY && Before(a, monday) && !Before(b, monday)
  {
    hide DayNumber;
    WeekStartIsTheMonday(a, WeekStart(a));
    WeekStartIsTheMonday(b, WeekStart(b));
    DayNumberFollowsCalendar(WeekStart(a), WeekStart(b));
    if WeekStart(a) != WeekStart(b) && Before(a, b) {
      DayNumberFollowsCalendar(a, b);
      DayNumberFollowsCalendar(a, WeekStart(b));
      DayNumberFollowsCalendar(b, WeekStart(b));
      assert DayNumber(a) / 7 < DayNumber(b) / 7;
      assert Before(a, WeekStart(b)) && !Before(b, WeekStart(b));
    }
  }

  /** The anchor of the repository's own calendar test: 18 May 2026 is a Monday. */
  lemma KnownMonday()
    ensures WeekStart(Date(2026, 5, 24)) == Date(2026, 5, 18)
    ensures Weekday(Date(2026, 5, 18)) == MONDAY && Weekday(Date(2026, 5, 24)) == SUNDAY
  {
    hide DayNumber;
    May2026();
    WeekStartIsTheMonday(Date(2026, 5, 24), Date(2026, 5, 18));
  }

  lemma May2026()
    ensures DayNumber(Date(2026, 5, 18)) == 739753 && DayNumber(Date(2026, 5, 24)) == 739759
  {
    assert DaysBeforeMonth(2026, 3) == 59;
    assert DaysBeforeMonth(2026, 5) == 120;
  }

  // ---------------------------------------------------------------- texts

  function Pad2(n: int): (s: string)
    requires 0 <= n < 100
    ensures |s| == 2
  {
    [DigitOf(n / 10), DigitOf(n % 10)]
  }

  function Pad4(n: int): (s: string)
    requires 0 <= n < 10000
    ensures |s| == 4
  {
    Pad2(n / 100) + Pad2(n % 100)
  }

  datatype Timestamp = Timestamp(date: Date, hour: int, minute: int, second: int)

  /** The times that the layouts can express: years 0 to 9999. */
  predicate ValidTime(t: Timestamp) {
    ValidDate(t.date) && 0 <= t.date.year <= 9999 && 0 <= t.hour < 24 && 0 <= t.minute < 60 && 0 <= t.second < 60
  }

  function Seconds(t: Timestamp): int
    requires ValidTime(t)
  {
    DayNumber(t.date) * 86400 + t.hour * 3600 + t.minute * 60 + t.second
  }

  /** Layout `2006-01`. */
  function FormatMonth(d: Date): string
    requires ValidDate(d) && -9999 <= d.year <= 9999
  {
    (if d.year < 0 then "-" + Pad4(-d.year) else Pad4(d.year)) + "-" + Pad2(d.month)
  }

  /** Layout `2006-01-02`. */
  function FormatDate(d: Date): string
    requires ValidDate(d) && -9999 <= d.year <= 9999
  {
    FormatMonth(d) + "-" + Pad2(d.day)
  }

  /** Layout `15-04-05Z`. */
  function FormatClock(t: Timestamp): string
    requires ValidTime(t)
  {
    Pad2(t.hour) + "-" + Pad2(t.minute) + "-" + Pad2(t.second) + "Z"
  }

  /** Layout `2006-01-02T15-04-05Z`. */
  function FormatTime(t: Timestamp): string
    requires ValidTime(t)
  {
    FormatDate(t.date) + "T" + FormatClock(t)
  }

  lemma Pad2Order(m: int, n: int)
    requires 0 <= m < 100 && 0 <= n < 100
    ensures Less(Pad2(m), Pad2(n)) <==> m < n
    ensures Pad2(m) == Pad2(n) <==> m == n
  {
    assert Pad2(m)[1..] == [DigitOf(m % 10)] && Pad2(n)[1..] == [DigitOf(n % 10)];
    assert [DigitOf(m % 10)][1..] == [] && [DigitOf(n % 10)][1..] == [];
    assert DigitValue(Pad2(m)[0]) == m / 10 && DigitValue(Pad2(m)[1]) == m % 10;
    assert DigitValue(Pad2(n)[0]) == n / 10 && DigitValue(Pad2(n)[1]) == n % 10;
    assert m == 10 * (m / 10) + m % 10 && n == 10 * (n / 10) + n % 10;
  }

  lemma Pad4Order(m: int, n: int)
    requires 0 <= m < 10000 && 0 <= n < 10000
    ensures Less(Pad4(m), Pad4(n)) <==> m < n
    ensures Pad4(m) == Pad4(n) <==> m == n
  {
    Pad2Order(m / 100, n / 100);
    Pad2Order(m % 100, n % 100);
    LessFields(Pad2(m / 100), Pad2(n / 100), Pad2(m % 100), Pad2(n % 100));
    FieldsEqual(Pad2(m / 100), Pad2(n / 100), Pad2(m % 100), Pad2(n % 100));
    assert m == 100 * (m / 100) + m % 100 && n == 100 * (n / 100) + n % 100;
  }

  lemma FieldsEqual(a: string, c: string, b: string, d: string)
    requires |a| == |c|
    ensures a + b == c + d <==> a == c && b == d
  {
    assert a == (a + b)[..|a|] && c == (c + d)[..|a|];
    assert b == (a + b)[|a|..] && d == (c + d)[|a|..];
  }

  /** A field, a separator, and the next field. */
  lemma TwoFields(a: string, c: string, sep: char, b: string, d: string)
    requires |a| == |c|
    ensures Less(a + [sep] + b, c + [sep] + d) <==> Less(a, c) || (a == c && Less(b, d))
    ensures a + [sep] + b == c + [sep] + d <==> a == c && b == d
  {
    assert a + [sep] + b == a + ([sep] + b) && c + [sep] + d == c + ([sep] + d);
    assert ([sep] + b)[1..] == b && ([sep] + d)[1..] == d;
    LessFields(a, c, [sep] + b, [sep] + d);
    FieldsEqual(a, c, [sep] + b, [sep] + d);
  }

  lemma MonthOrder(a: Date, b: Date)
    requires ValidDate(a) && ValidDate(b) && 0 <= a.year <= 9999 && 0 <= b.year <= 9999
    ensures |FormatMonth(a)| == 7
    ensures Less(FormatMonth(a), FormatMonth(b)) <==> a.year < b.year || (a.year == b.year && a.month < b.month)
    ensures FormatMonth(a) == FormatMonth(b) <==> a.year == b.year && a.month == b.month
  {
    Pad4Order(a.year, b.year);
    Pad2Order(a.month, b.month);
    TwoFields(Pad4(a.year), Pad4(b.year), '-', Pad2(a.month), Pad2(b.month));
  }

  /** The string order of dates is the order of days. */
  lemma DateOrder(a: Date, b: Date)
    requires ValidDate(a) && ValidDate(b) && 0 <= a.year <= 9999 && 0 <= b.year <= 9999
    ensures |FormatDate(a)| == 10
    ensures Less(FormatDate(a), FormatDate(b)) <==> DayNumber(a) < DayNumber(b)
    ensures FormatDate(a) == FormatDate(b) <==> a == b
  {
    MonthOrder(a, b);
    MonthOrder(b, a);
    Pad2Order(a.day, b.day);
    TwoFields(FormatMonth(a), FormatMonth(b), '-', Pad2(a.day), Pad2(b.day));
    DayNumberFollowsCalendar(a, b);
  }

  lemma ClockOrder(a: Timestamp, b: Timestamp)
    requires ValidTime(a) && ValidTime(b)
    ensures Less(FormatClock(a), FormatClock(b)) <==>
              a.hour * 3600 + a.minute * 60 + a.second < b.hour * 3600 + b.minute * 60 + b.second
    ensures FormatClock(a) == FormatClock(b) <==> a.hour == b.hour && a.minute == b.minute && a.second == b.second
  {
    Pad2Order(a.hour, b.hour);
    Pad2Order(a.minute, b.minute);
    Pad2Order(a.second, b.second);
    TwoFields(Pad2(a.hour), Pad2(b.hour), '-', Pad2(a.minute), Pad2(b.minute));
    var x, y := Pad2(a.hour) + "-" + Pad2(a.minute), Pad2(b.hour) + "-" + Pad2(b.minute);
    TwoFields(x, y, '-', Pad2(a.second), Pad2(b.second));
    LessFields(x + "-" + Pad2(a.second), y + "-" + Pad2(b.second), "Z", "Z");
    FieldsEqual(x + "-" + Pad2(a.second), y + "-" + Pad2(b.second), "Z", "Z");
  }

  /** Hourly names sort like the times they name, and name them uniquely. */
  lemma TimeOrder(a: Timestamp, b: Timestamp)
    requires ValidTime(a) && ValidTime(b)
    ensures Less(FormatTime(a), FormatTime(b)) <==> Seconds(a) < Seconds(b)
    ensures FormatTime(a) == FormatTime(b) <==> a == b
  {
    DateOrder(a.date, b.date);
    DateOrder(b.date, a.date);
    ClockOrder(a, b);
    TwoFields(FormatDate(a.date), FormatDate(b.date), 'T', FormatClock(a), FormatClock(b));
    DayNumberFollowsCalendar(a.date, b.date);
  }

  /** The characters of snapshot names. */
  predicate NameChar(c: char) {
    IsDigit(c) || c == '-' || c == 'T' || c == 'Z'
  }

  lemma DateChars(d: Date)
    requires ValidDate(d) && -9999 <= d.year <= 9999
    ensures forall c :: c in FormatDate(d) ==> NameChar(c)
    ensures forall c :: c in FormatMonth(d) ==> NameChar(c)
  {
    hide IsLeap;
  }

  lemma TimeChars(t: Timestamp)
    requires ValidTime(t)
    ensures forall c :: c in FormatTime(t) ==> NameChar(c)
    ensures |FormatTime(t)| == 20
  {
    hide FormatDate, IsLeap;
    DateChars(t.date);
    DateOrder(t.date, t.date);
    assert forall c :: c in FormatClock(t) ==> NameChar(c);
    assert |FormatClock(t)| == 9;
  }

  // ---------------------------------------------------------------- parsing

  function ParsePad2(s: string, i: nat): (r: Option<int>)
    requires i + 2 <= |s|
    ensures r.Some? ==> 0 <= r.value < 100 && s[i..i + 2] == Pad2(r.value)
  {
    if IsDigit(s[i]) && IsDigit(s[i + 1]) then
      var n := 10 * DigitValue(s[i]) + DigitValue(s[i + 1]);
      assert n / 10 == DigitValue(s[i]) && n % 10 == DigitValue(s[i + 1]);
      assert s[i..i + 2] == [s[i], s[i + 1]];
      Some(n)
    else None
  }

  lemma ParsePad2Of(s: string, i: nat, n: int)
    requires i + 2 <= |s| && 0 <= n < 100 && s[i..i + 2] == Pad2(n)
    ensures ParsePad2(s, i) == Some(n)
  {
    assert s[i] == s[i..i + 2][0] && s[i + 1] == s[i..i + 2][1];
    assert n == 10 * (n / 10) + n % 10;
  }

  /** `time.Parse("2006-01", s)`, day 1. */
  function ParseMonth(s: string): Option<Date> {
    if |s| != 7 || s[4] != '-' then None
    else match (ParsePad2(s, 0), ParsePad2(s, 2), ParsePad2(s, 5))
      case (Some(hi), Some(lo), Some(month)) =>
        if 1 <= month <= 12 then Some(Date(100 * hi + lo, month, 1)) else None
      case _ => None
  }

  /** `time.Parse("2006-01-02", s)`. */
  function ParseDate(s: string): Option<Date> {
    if |s| != 10 || s[7] != '-' then None
    else match (ParseMonth(s[..7]), ParsePad2(s, 8))
      case (Some(first), Some(day)) =>
        var d := Date(first.year, first.month, day);
        if ValidDate(d) then Some(d) else None
      case _ => None
  }

  /** `time.Parse("2006-01-02T15-04-05Z", s)`. */
  function ParseTime(s: string): Option<Timestamp> {
    if |s| != 20 || s[10] != 'T' || s[13] != '-' || s[16] != '-' || s[19] != 'Z' then None
    else match (ParseDate(s[..10]), ParsePad2(s, 11), ParsePad2(s, 14), ParsePad2(s, 17))
      case (Some(d), Some(hour), Some(minute), Some(second)) =>
        var t := Timestamp(d, hour, minute, second);
        if ValidTime(t) then Some(t) else None
      case _ => None
  }

  lemma ParseMonthExact(s: string, d: Date)
    ensures ParseMonth(s) == Some(d) <==> ValidDate(d) && 0 <= d.year <= 9999 && d.day == 1 && s == FormatMonth(d)
  {
    if ParseMonth(s) == Some(d) {
      var hi, lo := ParsePad2(s, 0).value, ParsePad2(s, 2).value;
      assert d.year / 100 == hi && d.year % 100 == lo;
      assert s == s[0..2] + s[2..4] + "-" + s[5..7];
    }
    if ValidDate(d) && 0 <= d.year <= 9999 && d.day == 1 && s == FormatMonth(d) {
      assert s[0..2] == Pad2(d.year / 100) && s[2..4] == Pad2(d.year % 100) && s[5..7] == Pad2(d.month) && s[4] == '-';
      ParsePad2Of(s, 0, d.year / 100);
      ParsePad2Of(s, 2, d.year % 100);
      ParsePad2Of(s, 5, d.month);
    }
  }

  lemma ParseDateExact(s: string, d: Date)
    ensures ParseDate(s) == Some(d) <==> ValidDate(d) && 0 <= d.year <= 9999 && s == FormatDate(d)
  {
    if ParseDate(s) == Some(d) {
      ParseMonthExact(s[..7], ParseMonth(s[..7]).value);
      assert s == s[..7] + "-" + s[8..10];
    }
    if ValidDate(d) && 0 <= d.year <= 9999 && s == FormatDate(d) {
      var first := Date(d.year, d.month, 1);
      ParseMonthExact(FormatMonth(first), first);
      MonthOrder(d, d);
      assert s[..7] == FormatMonth(first) && s[7] == '-' && s[8..10] == Pad2(d.day);
      ParsePad2Of(s, 8, d.day);
    }
  }

  /** Parsing and formatting undo each other: a text is accepted iff it is the name of a time. */
  lemma ParseTimeExact(s: string, t: Timestamp)
    ensures ParseTime(s) == Some(t) <==> ValidTime(t) && s == FormatTime(t)
  {
    hide ParseDate, FormatDate, IsLeap;
    if ParseTime(s) == Some(t) {
      ParseDateExact(s[..10], t.date);
      assert s == s[..10] + "T" + s[11..13] + "-" + s[14..16] + "-" + s[17..19] + "Z";
      assert s == s[..10] + "T" + FormatClock(t);
    }
    if ValidTime(t) && s == FormatTime(t) {
      ParseDateExact(FormatDate(t.date), t.date);
      DateOrder(t.date, t.date);
      assert s[..10] == FormatDate(t.date) && s[10] == 'T' && s[11..] == FormatClock(t);
      ParseClock(s, t);
    }
  }

  lemma ParseClock(s: string, t: Timestamp)
    requires |s| >= 11 && ValidTime(t) && s[11..] == FormatClock(t)
    ensures |s| == 20 && s[13] == '-' && s[16] == '-' && s[19] == 'Z'
    ensures ParsePad2(s, 11) == Some(t.hour) && ParsePad2(s, 14) == Some(t.minute) && ParsePad2(s, 17) == Some(t.second)
  {
    var c := s[11..];
    assert c[0..2] == Pad2(t.hour) && c[3..5] == Pad2(t.minute) && c[6..8] == Pad2(t.second);
    assert s[13] == c[2] && s[16] == c[5] && s[19] == c[8];
    assert s[11..13] == c[0..2] && s[14..16] == c[3..5] && s[17..19] == c[6..8];
    ParsePad2Of(s, 11, t.hour);
    ParsePad2Of(s, 14, t.minute);
    ParsePad2Of(s, 17, t.second);
  }
}
