/** The names of snapshots and the times they stand for (internal/dataplane/snapshot.go). */
module SnapshotNames {
  import opened Wrappers
  import opened Text
  import opened Calendar
  import opened Volume
  import opened SnapshotStore

  /** The name a run at time `t` gives to its snapshot in a tier. */
  function NameIn(tier: string, t: Timestamp): string
    requires tier in TIERS && ValidTime(t)
  {
    WeekStartYear(t.date);
    if tier == HOURLY then FormatTime(t)
    else if tier == DAILY then FormatDate(t.date)
    else if tier == WEEKLY then FormatDate(WeekStart(t.date))
    else FormatMonth(t.date)
  }

  /** The period of a tier that `t` lies in, numbered in time order. */
  function PeriodOf(tier: string, t: Timestamp): int
    requires tier in TIERS && ValidTime(t)
  {
    if tier == HOURLY then Seconds(t)
    else if tier == DAILY then DayNumber(t.date)
    else if tier == WEEKLY then DayNumber(t.date) / 7
    else t.date.year * 12 + t.date.month
  }

  lemma WeekStartNotNegative(d: Date)
    requires ValidDate(d) && 1 <= d.year <= 9999
    ensures 0 <= WeekStart(d).year <= 9999
  {
    WeekStartYear(d);
    hide DayNumber;
    WeekStartIsTheMonday(d, WeekStart(d));
    NotYet(d);
    DayNumberFollowsCalendar(WeekStart(d), Date(d.year - 1, 1, 1));
  }

  lemma WeekOrder(a: Date, b: Date)
    requires ValidDate(a) && ValidDate(b) && 1 <= a.year <= 9999 && 1 <= b.year <= 9999
    ensures 0 <= WeekStart(a).year <= 9999 && 0 <= WeekStart(b).year <= 9999
    ensures Less(FormatDate(WeekStart(a)), FormatDate(WeekStart(b))) <==> DayNumber(a) / 7 < DayNumber(b) / 7
    ensures FormatDate(WeekStart(a)) == FormatDate(WeekStart(b)) <==> DayNumber(a) / 7 == DayNumber(b) / 7
  {
    hide DayNumber, FormatDate;
    WeekStartNotNegative(a);
    WeekStartNotNegative(b);
    DateOrder(WeekStart(a), WeekStart(b));
    WeekStartIsTheMonday(a, WeekStart(a));
    WeekStartIsTheMonday(b, WeekStart(b));
    SameWeek(a, b);
  }

  /** In every tier the names sort like the periods they name, and two times share a name iff they share the period. */
  lemma NamesFollowTime(tier: string, a: Timestamp, b: Timestamp)
    requires tier in TIERS && ValidTime(a) && ValidTime(b) && 1 <= a.date.year && 1 <= b.date.year
    ensures Less(NameIn(tier, a), NameIn(tier, b)) <==> PeriodOf(tier, a) < PeriodOf(tier, b)
    ensures NameIn(tier, a) == NameIn(tier, b) <==> PeriodOf(tier, a) == PeriodOf(tier, b)
  {
    hide FormatTime, FormatDate, FormatMonth, Seconds, DayNumber;
    if tier == HOURLY {
      TimeOrder(a, b);
      TimeOrder(b, a);
      LessTrichotomy(FormatTime(a), FormatTime(b));
    } else if tier == DAILY {
      DateOrder(a.date, b.date);
      DayNumberFollowsCalendar(a.date, b.date);
    } else if tier == WEEKLY {
      WeekOrder(a.date, b.date);
    } else {
      MonthOrder(a.date, b.date);
    }
  }

  // ---------------------------------------------------------------- parsing

  /** `time.Time{}`. */
  const ZERO_TIME := Timestamp(Date(1, 1, 1), 0, 0, 0)

  function AtMidnight(d: Option<Date>): Timestamp {
    match d
    case None => ZERO_TIME
    case Some(date) => Timestamp(date, 0, 0, 0)
  }

  /** `parseSnapshotTime`. */
  function ParseSnapshotTime(snapshot: string): Timestamp {
    var parts := Split(snapshot, '/');
    if |parts| != 2 then ZERO_TIME
    else if parts[0] == HOURLY then match ParseTime(parts[1]) { case None => ZERO_TIME case Some(t) => t }
    else if parts[0] == DAILY || parts[0] == WEEKLY then AtMidnight(ParseDate(parts[1]))
    else if parts[0] == MONTHLY then AtMidnight(ParseMonth(parts[1]))
    else ZERO_TIME
  }

  /** The start of the period that a snapshot name stands for. */
  function PeriodStart(tier: string, t: Timestamp): Timestamp
    requires tier in TIERS && ValidTime(t)
  {
    if tier == HOURLY then t
    else if tier == DAILY then Timestamp(t.date, 0, 0, 0)
    else if tier == WEEKLY then Timestamp(WeekStart(t.date), 0, 0, 0)
    else Timestamp(Date(t.date.year, t.date.month, 1), 0, 0, 0)
  }

  lemma NameChars(tier: string, t: Timestamp)
    requires tier in TIERS && ValidTime(t)
    ensures forall c :: c in NameIn(tier, t) ==> NameChar(c)
    ensures NameIn(tier, t) != ""
  {
    WeekStartYear(t.date);
    hide FormatTime, DayNumber;
    TimeChars(t);
    DateChars(t.date);
    DateChars(WeekStart(t.date));
  }

  /** Parsing a snapshot name gives back the start of its period: for an hourly name, the very time. */
  lemma ParseInvertsNames(tier: string, t: Timestamp)
    requires tier in TIERS && ValidTime(t) && 1 <= t.date.year
    ensures ParseSnapshotTime(Root(tier, NameIn(tier, t)).ToText()) == PeriodStart(tier, t)
  {
    DirsDiffer();
    NameChars(tier, t);
    hide FormatTime, FormatDate, FormatMonth, ParseTime, ParseDate, ParseMonth, DayNumber;
    var name := NameIn(tier, t);
    TierText(tier, name);
    WeekStartNotNegative(t.date);
    ParseTimeExact(name, t);
    ParseDateExact(name, PeriodStart(tier, t).date);
    ParseMonthExact(name, Date(t.date.year, t.date.month, 1));
    MonthName(t.date);
  }

  lemma MonthName(d: Date)
    requires ValidDate(d) && 0 <= d.year <= 9999
    ensures FormatMonth(d) == FormatMonth(Date(d.year, d.month, 1))
  {
  }

  lemma TierText(tier: string, name: string)
    requires tier in TIERS && forall c :: c in name ==> NameChar(c)
    ensures Split(Root(tier, name).ToText(), '/') == [tier, name]
  {
    assert '/' !in tier && '/' !in name;
    SplitField(tier, name, '/');
    SplitPlain(name, '/');
  }
}
