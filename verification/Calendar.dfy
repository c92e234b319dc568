/**
 Civil time and the start of a quota period. An instant counts microseconds from 0001-01-01T00:00 UTC;
 Moscow is three hours ahead of UTC, as it has been since 26 October 2014. Dates are proleptic Gregorian,
 counted with the closed formulas of Python's `datetime`.
 */
module Calendar {

  const DAY: int := 86_400_000_000
  const MOSCOW_OFFSET: int := 10_800_000_000

  /** A wall-clock reading. */
  datatype Civil = Civil(year: int, month: int, day: int, hour: int, minute: int, second: int, microsecond: int)

  predicate IsLeap(year: int) {
    year % 4 == 0 && (year % 100 != 0 || year % 400 == 0)
  }

  function DaysInMonth(year: int, month: int): int {
    if month == 2 then (if IsLeap(year) then 29 else 28)
    else if month in {4, 6, 9, 11} then 30
    else 31
  }

  function DaysBeforeYear(year: int): int
    requires 1 <= year
  {
    var y := year - 1;
    y * 365 + y / 4 - y / 100 + y / 400
  }

  function DaysBeforeMonth(year: int, month: int): int
    requires 1 <= month <= 12
  {
    [0, 31, 59, 90, 120, 151, 181, 212, 243, 273, 304, 334][month - 1] +
    if month > 2 && IsLeap(year) then 1 else 0
  }

  /** Days from 0001-01-01 to the first day of the `k`-th month since then. */
  function MonthFirst(k: nat): int {
    DaysBeforeYear(YearOf(k)) + DaysBeforeMonth(YearOf(k), MonthOf(k))
  }

  function YearOf(k: nat): int {
    k / 12 + 1
  }

  function MonthOf(k: nat): int {
    k % 12 + 1
  }

  function MonthIndex(c: Civil): int {
    (c.year - 1) * 12 + c.month - 1
  }

  function TimeOfDay(c: Civil): int {
    ((c.hour * 60 + c.minute) * 60 + c.second) * 1_000_000 + c.microsecond
  }

  ghost predicate IsCivil(c: Civil) {
    && 1 <= c.year && 1 <= c.month <= 12 && 1 <= c.day <= DaysInMonth(c.year, c.month)
    && 0 <= c.hour < 24 && 0 <= c.minute < 60 && 0 <= c.second < 60 && 0 <= c.microsecond < 1_000_000
  }

  /** Microseconds from 0001-01-01T00:00 on the same clock. */
  function Elapsed(c: Civil): int
    requires 1 <= c.year && 1 <= c.month <= 12
  {
    (DaysBeforeYear(c.year) + DaysBeforeMonth(c.year, c.month) + c.day - 1) * DAY + TimeOfDay(c)
  }

  /** The last month from the `k`-th on that does not begin after day `d`. */
  function LastMonth(d: int, k: nat): nat
    requires MonthFirst(k) <= d
    decreases d - MonthFirst(k)
  {
    hide MonthFirst;
    MonthFirstGrows(k);
    if d < MonthFirst(k + 1) then k else LastMonth(d, k + 1)
  }

  /** The month that holds day `d`. */
  function FindMonth(d: int): nat
    requires 0 <= d
  {
    hide MonthFirst;
    FirstMonth();
    LastMonth(d, 0)
  }

  lemma FirstMonth()
    ensures MonthFirst(0) == 0
  {
  }

  lemma MonthFirstGrows(k: nat)
    ensures MonthFirst(k) < MonthFirst(k + 1)
  {
    MonthFirstStep(k);
  }

  lemma {:induction false} LastMonthFound(d: int, k: nat)
    requires MonthFirst(k) <= d
    ensures MonthFirst(LastMonth(d, k)) <= d < MonthFirst(LastMonth(d, k) + 1)
    decreases d - MonthFirst(k)
  {
    hide MonthFirst;
    MonthFirstGrows(k);
    if MonthFirst(k + 1) <= d {
      LastMonthFound(d, k + 1);
    }
  }

  lemma MonthFound(d: int)
    requires 0 <= d
    ensures MonthFirst(FindMonth(d)) <= d < MonthFirst(FindMonth(d) + 1)
  {
    hide MonthFirst;
    FirstMonth();
    LastMonthFound(d, 0);
  }

  /** The wall-clock reading after that many microseconds. */
  function CivilOf(elapsed: int): Civil
    requires 0 <= elapsed
  {
    var d, t := elapsed / DAY, elapsed % DAY;
    var k := FindMonth(d);
    Civil(YearOf(k), MonthOf(k), d - MonthFirst(k) + 1,
          t / 3_600_000_000, t / 60_000_000 % 60, t / 1_000_000 % 60, t % 1_000_000)
  }

  // ---------- Civil time and instants determine each other ----------

  lemma YearLength(year: int)
    requires 1 <= year
    ensures DaysBeforeYear(year + 1) == DaysBeforeYear(year) + if IsLeap(year) then 366 else 365
  {
    Quarters(year - 1);
    Centuries(year - 1);
    FourCenturies(year - 1);
    LeapDivisors(year);
  }

  lemma Quarters(y: int)
    ensures (y + 1) / 4 == y / 4 + if (y + 1) % 4 == 0 then 1 else 0
  {
  }

  lemma Centuries(y: int)
    ensures (y + 1) / 100 == y / 100 + if (y + 1) % 100 == 0 then 1 else 0
  {
  }

  lemma FourCenturies(y: int)
    ensures (y + 1) / 400 == y / 400 + if (y + 1) % 400 == 0 then 1 else 0
  {
  }

  lemma LeapDivisors(year: int)
    ensures year % 400 == 0 ==> year % 100 == 0
    ensures year % 100 == 0 ==> year % 4 == 0
  {
  }

  lemma MonthFirstStep(k: nat)
    ensures MonthFirst(k + 1) == MonthFirst(k) + DaysInMonth(YearOf(k), MonthOf(k))
    ensures MonthFirst(k) < MonthFirst(k + 1)
  {
    if k % 12 == 11 {
      assert YearOf(k + 1) == YearOf(k) + 1 && MonthOf(k + 1) == 1;
      YearLength(YearOf(k));
    } else {
      assert YearOf(k + 1) == YearOf(k) && MonthOf(k + 1) == MonthOf(k) + 1;
    }
  }

  lemma {:induction false} MonthFirstIncreases(j: nat, k: nat)
    requires j < k
    ensures MonthFirst(j) < MonthFirst(k)
  {
    hide MonthFirst;
    MonthFirstStep(k - 1);
    if j < k - 1 {
      MonthFirstIncreases(j, k - 1);
    }
  }

  lemma MonthIndexOfParts(k: nat)
    ensures (YearOf(k) - 1) * 12 + MonthOf(k) - 1 == k
  {
  }

  lemma PartsOfMonthIndex(c: Civil)
    requires 1 <= c.year && 1 <= c.month <= 12
    ensures 0 <= MonthIndex(c) && YearOf(MonthIndex(c)) == c.year && MonthOf(MonthIndex(c)) == c.month
  {
  }

  lemma TimeParts(t: int)
    requires 0 <= t < DAY
    ensures var h, m, s, u := t / 3_600_000_000, t / 60_000_000 % 60, t / 1_000_000 % 60, t % 1_000_000;
      && 0 <= h < 24 && 0 <= m < 60 && 0 <= s < 60 && 0 <= u < 1_000_000
      && ((h * 60 + m) * 60 + s) * 1_000_000 + u == t
  {
    var secs := t / 1_000_000;
    var mins := secs / 60;
    assert t / 60_000_000 == mins;
    assert t / 3_600_000_000 == mins / 60;
  }

  /** Reading the clock and counting back gives the instant. */
  lemma CivilRoundTrip(elapsed: int)
    requires 0 <= elapsed
    ensures IsCivil(CivilOf(elapsed)) && Elapsed(CivilOf(elapsed)) == elapsed
    ensures MonthIndex(CivilOf(elapsed)) == FindMonth(elapsed / DAY)
  {
    hide MonthFirst, FindMonth, DaysInMonth, IsLeap;
    var d, t := elapsed / DAY, elapsed % DAY;
    var k := FindMonth(d);
    MonthFound(d);
    MonthFirstStep(k);
    MonthIndexOfParts(k);
    TimeParts(t);
    assert TimeOfDay(CivilOf(elapsed)) == t;
    MonthFirstOf(CivilOf(elapsed));
  }

  lemma MonthFirstOf(c: Civil)
    requires 1 <= c.year && 1 <= c.month <= 12
    ensures 0 <= MonthIndex(c)
    ensures MonthFirst(MonthIndex(c)) == DaysBeforeYear(c.year) + DaysBeforeMonth(c.year, c.month)
    ensures Elapsed(c) == (MonthFirst(MonthIndex(c)) + c.day - 1) * DAY + TimeOfDay(c)
  {
    hide DaysBeforeYear, DaysBeforeMonth, TimeOfDay;
    PartsOfMonthIndex(c);
  }

  /** Where a reading lies between the first days of months. */
  lemma ElapsedInMonth(c: Civil)
    requires IsCivil(c)
    ensures var k := MonthIndex(c);
      && 0 <= k
      && Elapsed(c) == (MonthFirst(k) + c.day - 1) * DAY + TimeOfDay(c)
      && 0 <= TimeOfDay(c) < DAY
      && MonthFirst(k) + c.day - 1 < MonthFirst(k + 1)
  {
    hide MonthFirst, DaysInMonth, Elapsed;
    MonthFirstOf(c);
    PartsOfMonthIndex(c);
    MonthFirstStep(MonthIndex(c));
  }

  lemma MonthIsUnique(d: int, j: nat, k: nat)
    requires MonthFirst(j) <= d < MonthFirst(j + 1) && MonthFirst(k) <= d < MonthFirst(k + 1)
    ensures j == k
  {
    hide MonthFirst;
    if j < k {
      if j + 1 < k {
        MonthFirstIncreases(j + 1, k);
      }
    } else if k < j {
      if k + 1 < j {
        MonthFirstIncreases(k + 1, j);
      }
    }
  }

  lemma DivideDay(d: int, t: int)
    requires 0 <= t < DAY
    ensures (d * DAY + t) / DAY == d && (d * DAY + t) % DAY == t
  {
  }

  lemma TimeIsInjective(a: Civil, b: Civil)
    requires IsCivil(a) && IsCivil(b) && TimeOfDay(a) == TimeOfDay(b)
    ensures a.hour == b.hour && a.minute == b.minute && a.second == b.second && a.microsecond == b.microsecond
  {
    hide DaysInMonth;
  }

  /** Two valid readings with the same elapsed time are the same reading. */
  lemma ElapsedIsInjective(a: Civil, b: Civil)
    requires IsCivil(a) && IsCivil(b) && Elapsed(a) == Elapsed(b)
    ensures a == b
  {
    hide MonthFirst, Elapsed, DaysInMonth;
    ElapsedInMonth(a);
    ElapsedInMonth(b);
    var j, k := MonthIndex(a), MonthIndex(b);
    var d, e := MonthFirst(j) + a.day - 1, MonthFirst(k) + b.day - 1;
    DivideDay(d, TimeOfDay(a));
    DivideDay(e, TimeOfDay(b));
    assert d == e && TimeOfDay(a) == TimeOfDay(b);
    TimeIsInjective(a, b);
    MonthIsUnique(d, j, k);
    PartsOfMonthIndex(a);
    PartsOfMonthIndex(b);
  }

  /** Counting a valid reading and reading the clock again gives the reading. */
  lemma ElapsedRoundTrip(c: Civil)
    requires IsCivil(c)
    ensures 0 <= Elapsed(c) && CivilOf(Elapsed(c)) == c
  {
    hide MonthFirst, Elapsed, CivilOf, TimeOfDay, DaysInMonth;
    ElapsedInMonth(c);
    var k := MonthIndex(c);
    FirstMonth();
    if k > 0 {
      MonthFirstIncreases(0, k);
    }
    CivilRoundTrip(Elapsed(c));
    ElapsedIsInjective(c, CivilOf(Elapsed(c)));
  }
}

/** When a quota period began. */
module QuotaWindow {
  import opened Calendar

  datatype Plan = Free | Standard | Pro

  /** `now.astimezone(MOSCOW_TZ)`. */
  function Local(now: int): Civil
    requires 0 <= now
  {
    CivilOf(now + MOSCOW_OFFSET)
  }

  /** `local.astimezone(UTC)`. */
  function FromLocal(local: Civil): int
    requires 1 <= local.year && 1 <= local.month <= 12
  {
    Elapsed(local) - MOSCOW_OFFSET
  }

  function Midnight(c: Civil): Civil {
    c.(hour := 0, minute := 0, second := 0, microsecond := 0)
  }

  function PeriodStart(plan: Plan, now: int): int
    requires 0 <= now
  {
    LocalIsCivil(now);
    match plan
    case Free => FromLocal(Midnight(Local(now)))
    case Standard => FromLocal(Midnight(Local(now)).(day := 1))
    case Pro => FromLocal(Local(now))
  }

  /** The instants a period can begin at. */
  ghost predicate IsStart(plan: Plan, t: int) {
    && 0 <= t + MOSCOW_OFFSET
    && var c := CivilOf(t + MOSCOW_OFFSET);
      match plan
      case Free => c == Midnight(c)
      case Standard => c == Midnight(c) && c.day == 1
      case Pro => true
  }

  ghost predicate SamePeriod(plan: Plan, a: int, b: int)
    requires 0 <= a && 0 <= b
  {
    var x, y := Local(a), Local(b);
    match plan
    case Free => x.year == y.year && x.month == y.month && x.day == y.day
    case Standard => x.year == y.year && x.month == y.month
    case Pro => a == b
  }

  lemma LocalIsCivil(now: int)
    requires 0 <= now
    ensures IsCivil(Local(now)) && Elapsed(Local(now)) == now + MOSCOW_OFFSET
    ensures DaysInMonth(Local(now).year, Local(now).month) >= 1
  {
    CivilRoundTrip(now + MOSCOW_OFFSET);
  }

  lemma MidnightTime(c: Civil)
    ensures TimeOfDay(Midnight(c)) == 0 && TimeOfDay(Midnight(c).(day := 1)) == 0
  {
  }

  /** Both starts, in days and microseconds of the local clock. */
  lemma StartDays(now: int)
    requires 0 <= now
    ensures var c := Local(now);
      var k := MonthIndex(c);
      && 0 <= k
      && PeriodStart(Free, now) == (MonthFirst(k) + c.day - 1) * DAY - MOSCOW_OFFSET
      && PeriodStart(Standard, now) == MonthFirst(k) * DAY - MOSCOW_OFFSET
      && PeriodStart(Pro, now) == now
      && PeriodStart(Standard, now) <= PeriodStart(Free, now) <= now < PeriodStart(Free, now) + DAY
      && now < MonthFirst(k + 1) * DAY - MOSCOW_OFFSET
  {
    hide MonthFirst, Elapsed, CivilOf, DaysInMonth;
    hide TimeOfDay;
    LocalIsCivil(now);
    var c := Local(now);
    ElapsedInMonth(c);
    ElapsedInMonth(Midnight(c));
    ElapsedInMonth(Midnight(c).(day := 1));
    MidnightTime(c);
  }

  /** Quota days and months begin when it is 21:00 UTC, which is midnight in Moscow. */
  lemma StartsAtMoscowMidnight(now: int)
    requires 0 <= now
    ensures PeriodStart(Free, now) % 86_400_000_000 == 75_600_000_000
    ensures PeriodStart(Standard, now) % 86_400_000_000 == 75_600_000_000
    ensures PeriodStart(Free, now) <= now < PeriodStart(Free, now) + 86_400_000_000
  {
    hide MonthFirst, PeriodStart, Local;
    StartDays(now);
    var c := Local(now);
    WholeDaysBefore(MonthFirst(MonthIndex(c)) + c.day - 1);
    WholeDaysBefore(MonthFirst(MonthIndex(c)));
  }

  lemma WholeDaysBefore(days: int)
    ensures (days * DAY - MOSCOW_OFFSET) % 86_400_000_000 == 75_600_000_000
  {
    assert days * DAY - MOSCOW_OFFSET == (days - 1) * 86_400_000_000 + 75_600_000_000;
  }

  /** A period start is a start, and it is the wall-clock reading the code asked for. */
  lemma PeriodStartIsStart(plan: Plan, now: int)
    requires 0 <= now
    ensures IsStart(plan, PeriodStart(plan, now))
    ensures PeriodStart(plan, now) <= now
  {
    hide MonthFirst, Elapsed, CivilOf, DaysInMonth;
    LocalIsCivil(now);
    StartDays(now);
    var c := Local(now);
    ElapsedRoundTrip(c);
    ElapsedRoundTrip(Midnight(c));
    ElapsedRoundTrip(Midnight(c).(day := 1));
  }

  lemma StartInDays(plan: Plan, t: int)
    requires IsStart(plan, t) && plan != Pro
    ensures var c := CivilOf(t + MOSCOW_OFFSET);
      && IsCivil(c) && 0 <= MonthIndex(c)
      && t + MOSCOW_OFFSET == (MonthFirst(MonthIndex(c)) + c.day - 1) * DAY
  {
    hide MonthFirst, Elapsed, CivilOf, DaysInMonth;
    CivilRoundTrip(t + MOSCOW_OFFSET);
    ElapsedInMonth(CivilOf(t + MOSCOW_OFFSET));
  }

  /** The period start is the greatest start not after now. */
  lemma PeriodStartIsGreatest(plan: Plan, now: int, t: int)
    requires 0 <= now && IsStart(plan, t) && t <= now
    ensures t <= PeriodStart(plan, now)
  {
    hide MonthFirst, Elapsed, CivilOf, DaysInMonth;
    StartDays(now);
    if plan != Pro {
      StartInDays(plan, t);
      var c, k := Local(now), MonthIndex(Local(now));
      var b := CivilOf(t + MOSCOW_OFFSET);
      var j := MonthIndex(b);
      if plan == Standard {
        if k < j && k + 1 < j {
          MonthFirstIncreases(k + 1, j);
        } else if j < k {
          MonthFirstIncreases(j, k);
        }
      }
    }
  }

  lemma PeriodStartIsMonotone(plan: Plan, a: int, b: int)
    requires 0 <= a <= b
    ensures PeriodStart(plan, a) <= PeriodStart(plan, b)
  {
    PeriodStartIsStart(plan, a);
    PeriodStartIsGreatest(plan, b, PeriodStart(plan, a));
  }

  /** Periods are the Moscow civil days and months. */
  lemma SamePeriodIffSameStart(plan: Plan, a: int, b: int)
    requires 0 <= a && 0 <= b
    ensures PeriodStart(plan, a) == PeriodStart(plan, b) <==> SamePeriod(plan, a, b)
  {
    hide MonthFirst, Elapsed, CivilOf, DaysInMonth;
    StartDays(a);
    StartDays(b);
    LocalIsCivil(a);
    LocalIsCivil(b);
    var x, y := Local(a), Local(b);
    PartsOfMonthIndex(x);
    PartsOfMonthIndex(y);
    if PeriodStart(plan, a) == PeriodStart(plan, b) && plan != Pro {
      var p := Midnight(x).(day := if plan == Free then x.day else 1);
      var q := Midnight(y).(day := if plan == Free then y.day else 1);
      ElapsedIsInjective(p, q);
    }
  }

  /** Asking again at the start of a period gives the same start. */
  lemma PeriodStartIsIdempotent(plan: Plan, now: int)
    requires 0 <= now && 0 <= PeriodStart(plan, now)
    ensures PeriodStart(plan, PeriodStart(plan, now)) == PeriodStart(plan, now)
  {
    var t := PeriodStart(plan, now);
    PeriodStartIsStart(plan, now);
    PeriodStartIsGreatest(plan, t, t);
    PeriodStartIsStart(plan, t);
  }
}
