/** The proleptic Gregorian calendar in day numbers (ISO 8601:2004, section 3.2.1),
    as far as Go's `time` package is used to place billing boundaries, and the billing
    boundary itself.

    Day 0 is 1 January of year 0. An instant is a number of nanoseconds since the Unix
    epoch, in UTC. */
module Calendar {

  const NANOS_PER_DAY := 86_400_000_000_000
  /** Day number of 1 January 1970. */
  const EPOCH_DAY := 719_528

  predicate IsLeap(year: int) {
    year % 4 == 0 && (year % 100 != 0 || year % 400 == 0)
  }

  function YearDays(year: int): (n: int)
    ensures 365 <= n <= 366
  {
    if IsLeap(year) then 366 else 365
  }

  /** Day number of 1 January: the years from year 0 on, laid end to end. */
  function YearStart(year: int): int
    decreases if year < 0 then -year else year
  {
    if year == 0 then 0
    else if year > 0 then YearStart(year - 1) + YearDays(year - 1)
    else YearStart(year + 1) - YearDays(year)
  }

  /** A month of the calendar. */
  datatype Month = Month(year: int, month: int) {
    predicate Valid() {
      1 <= month <= 12
    }

    function Next(): Month {
      if month == 12 then Month(year + 1, 1) else Month(year, month + 1)
    }

    predicate Before(other: Month) {
      year < other.year || (year == other.year && month < other.month)
    }
  }

  function MonthDays(leap: bool, month: int): (n: int)
    ensures 28 <= n <= 31
  {
    if month == 2 then (if leap then 29 else 28)
    else if month == 4 || month == 6 || month == 9 || month == 11 then 30
    else 31
  }

  function Length(m: Month): (n: int)
    ensures 28 <= n <= 31
  {
    MonthDays(IsLeap(m.year), m.month)
  }

  /** Days of the year before the first of the month; month 13 is the whole year. */
  function DaysBefore(leap: bool, month: int): (n: int)
    requires 1 <= month <= 13
    ensures n >= 0
    decreases month
  {
    if month == 1 then 0 else DaysBefore(leap, month - 1) + MonthDays(leap, month - 1)
  }

  /** Day number of the first of the month. */
  function MonthStart(m: Month): int
    requires m.Valid()
  {
    YearStart(m.year) + DaysBefore(IsLeap(m.year), m.month)
  }

  lemma WholeYear(leap: bool)
    ensures DaysBefore(leap, 13) == if leap then 366 else 365
  {
    assert DaysBefore(leap, 3) == if leap then 60 else 59;
    assert DaysBefore(leap, 5) == DaysBefore(leap, 3) + 61;
    assert DaysBefore(leap, 7) == DaysBefore(leap, 5) + 61;
    assert DaysBefore(leap, 9) == DaysBefore(leap, 7) + 62;
    assert DaysBefore(leap, 11) == DaysBefore(leap, 9) + 61;
    assert DaysBefore(leap, 13) == DaysBefore(leap, 11) + 61;
  }

  /** The days before each month by the usual formula, which fixes the length of every month. */
  lemma DaysBeforeClosedForm(leap: bool, month: int)
    requires 1 <= month <= 13
    ensures DaysBefore(leap, month) ==
            (367 * month - 362) / 12 - (if month <= 2 then 0 else if leap then 1 else 2)
  {
    if month > 1 {
      DaysBeforeClosedForm(leap, month - 1);
    }
  }

  /** The months tile the day numbers without gap or overlap. */
  lemma MonthsTile(m: Month)
    requires m.Valid()
    ensures MonthStart(m.Next()) == MonthStart(m) + Length(m)
  {
    hide IsLeap;
    if m.month == 12 {
      YearStep(m.year);
      WholeYear(IsLeap(m.year));
    }
  }

  lemma YearStep(year: int)
    ensures YearStart(year + 1) == YearStart(year) + YearDays(year)
  {
    hide IsLeap;
  }

  /** A day of the calendar, as `Time.Year`, `Time.Month` and `Time.Day` report it. */
  datatype Date = Date(month: Month, day: int) {
    ghost predicate Valid() {
      month.Valid() && 1 <= day <= Length(month)
    }
  }

  function Distance(a: int, b: int): nat {
    if a < b then b - a else a - b
  }

  /** The year of a day number, searched for from `year` on. */
  function YearOf(day: int, year: int): (y: int)
    ensures YearStart(y) <= day < YearStart(y) + YearDays(y)
    decreases Distance(day, YearStart(year))
  {
    if day < YearStart(year) then
      YearStep(year - 1);
      if day >= YearStart(year - 1) then year - 1 else YearOf(day, year - 1)
    else if day < YearStart(year) + YearDays(year) then
      year
    else
      YearStep(year);
      YearOf(day, year + 1)
  }

  /** The month of a day of the year, searched for from `month` on. */
  function MonthOf(leap: bool, dayOfYear: int, month: int): (m: int)
    requires 1 <= month <= 12
    requires DaysBefore(leap, month) <= dayOfYear < DaysBefore(leap, 13)
    ensures 1 <= m <= 12
    ensures DaysBefore(leap, m) <= dayOfYear < DaysBefore(leap, m) + MonthDays(leap, m)
    decreases 12 - month
  {
    if dayOfYear < DaysBefore(leap, month + 1) then month else MonthOf(leap, dayOfYear, month + 1)
  }

  /** The calendar date of a day number: the valid date whose day number it is. */
  function DateOf(day: int): (date: Date)
    ensures date.Valid()
    ensures day == MonthStart(date.month) + date.day - 1
  {
    var year := YearOf(day, 1970);
    WholeYear(IsLeap(year));
    var dayOfYear := day - YearStart(year);
    var month := MonthOf(IsLeap(year), dayOfYear, 1);
    Date(Month(year, month), dayOfYear - DaysBefore(IsLeap(year), month) + 1)
  }

  /** `time.Date(year, month, day, ...)` at midnight, for a month at most one year away: the
      month is normalised into the year, and a day outside it spills into its neighbours. */
  function NormalisedDay(year: int, month: int, day: int): int
    requires -11 <= month <= 24
  {
    MonthStart(if month < 1 then Month(year - 1, month + 12)
               else if month > 12 then Month(year + 1, month - 12)
               else Month(year, month)) + day - 1
  }

  /** The day of the reset in the given month (`clampDay`). */
  function ClampDay(day: int, m: Month): int
    requires m.Valid()
  {
    if day < 1 then 1
    else
      var last := DateOf(NormalisedDay(m.year, m.month + 1, 0)).day;
      if day > last then last else day
  }

  function Midnight(day: int): int {
    (day - EPOCH_DAY) * NANOS_PER_DAY
  }

  function DayOf(now: int): (day: int)
    ensures Midnight(day) <= now < Midnight(day + 1)
  {
    now / NANOS_PER_DAY + EPOCH_DAY
  }

  /** The reset instant of one month, as the code places it. */
  function ResetOf(m: Month, resetDay: int): int
    requires m.Valid()
  {
    Midnight(NormalisedDay(m.year, m.month, ClampDay(resetDay, m)))
  }

  /** The billing cycle that `now` falls into (`CycleStart`). */
  function CycleStart(now: int, resetDay: int): int {
    CycleOn(DateOf(DayOf(now)).month, now, resetDay)
  }

  function CycleOn(today: Month, now: int, resetDay: int): int
    requires today.Valid()
  {
    var start := ResetOf(today, resetDay);
    if start > now then ResetOf(DateOf(NormalisedDay(today.year, today.month - 1, 1)).month, resetDay)
    else start
  }

  /** What an operator means by "resets on day `resetDay`": that day of every month, or the
      month's last day where the month is too short. */
  function Boundary(m: Month, resetDay: int): int
    requires m.Valid()
  {
    Midnight(MonthStart(m) - 1 +
             if resetDay < 1 then 1 else if resetDay > Length(m) then Length(m) else resetDay)
  }

  /** The later month starts after the whole of the earlier one. */
  lemma {:induction false} MonthStartsIncrease(a: Month, b: Month)
    requires a.Valid() && b.Valid() && a.Before(b)
    ensures MonthStart(a) + Length(a) <= MonthStart(b)
    decreases 12 * (b.year - a.year) + b.month - a.month
  {
    hide MonthStart, Length;
    MonthsTile(a);
    if a.Next() != b {
      MonthStartsIncrease(a.Next(), b);
    }
  }

  /** A day number has one date. */
  lemma DateUnique(date: Date, other: Date)
    requires date.Valid() && other.Valid()
    requires MonthStart(date.month) + date.day == MonthStart(other.month) + other.day
    ensures date == other
  {
    hide MonthStart, Length;
    if date.month.Before(other.month) {
      MonthStartsIncrease(date.month, other.month);
    } else if other.month.Before(date.month) {
      MonthStartsIncrease(other.month, date.month);
    }
  }

  /** The day that `clampDay` picks is the requested one, or the month's last. */
  lemma ClampDayMeaning(day: int, m: Month)
    requires m.Valid()
    ensures ClampDay(day, m) == if day < 1 then 1 else if day > Length(m) then Length(m) else day
  {
    hide MonthStart, DateOf, Length;
    MonthsTile(m);
    DateUnique(DateOf(NormalisedDay(m.year, m.month + 1, 0)), Date(m, Length(m)));
  }

  /** The reset instant that the code computes for a month is that month's boundary. */
  lemma ResetIsBoundary(m: Month, resetDay: int)
    requires m.Valid()
    ensures ResetOf(m, resetDay) == Boundary(m, resetDay)
  {
    hide MonthStart, ClampDay, Length;
    ClampDayMeaning(resetDay, m);
  }

  lemma BoundariesIncrease(a: Month, b: Month, resetDay: int)
    requires a.Valid() && b.Valid() && a.Before(b)
    ensures Boundary(a, resetDay) < Boundary(b, resetDay)
  {
    hide MonthStart, Length;
    MonthStartsIncrease(a, b);
  }

  /** Consecutive boundaries are 28 to 31 days apart, for every reset day and leap year. */
  lemma BoundarySpacing(m: Month, resetDay: int)
    requires m.Valid()
    ensures 28 * NANOS_PER_DAY <= Boundary(m.Next(), resetDay) - Boundary(m, resetDay)
            <= 31 * NANOS_PER_DAY
  {
    hide MonthStart, Length;
    MonthsTile(m);
  }

  /** `start` is a boundary, it is not after `now`, and no later boundary is either. */
  ghost predicate IsLatestBoundary(start: int, now: int, resetDay: int) {
    && (exists m: Month :: m.Valid() && start == Boundary(m, resetDay))
    && start <= now
    && forall m: Month :: m.Valid() && Boundary(m, resetDay) <= now ==> Boundary(m, resetDay) <= start
  }

  function Previous(m: Month): (p: Month)
    requires m.Valid()
    ensures p.Valid() && p.Next() == m
  {
    if m.month == 1 then Month(m.year - 1, 12) else Month(m.year, m.month - 1)
  }

  /** The boundary of the month of `now` or, before it is reached, of the month before. */
  lemma CycleCases(today: Month, now: int, resetDay: int)
    requires today.Valid()
    ensures CycleOn(today, now, resetDay) ==
            if Boundary(today, resetDay) > now then Boundary(Previous(today), resetDay)
            else Boundary(today, resetDay)
  {
    hide Boundary, ResetOf, MonthStart, DateOf;
    var prev := DateOf(NormalisedDay(today.year, today.month - 1, 1));
    DateUnique(prev, Date(Previous(today), 1));
    ResetIsBoundary(today, resetDay);
    ResetIsBoundary(prev.month, resetDay);
  }

  /** The month whose boundary opened the cycle of `now`: the next one closes it. */
  lemma CycleMonth(now: int, resetDay: int) returns (m: Month)
    ensures m.Valid()
    ensures CycleStart(now, resetDay) == Boundary(m, resetDay)
    ensures Boundary(m, resetDay) <= now < Boundary(m.Next(), resetDay)
  {
    hide Boundary, CycleOn, MonthStart, DateOf, Length;
    var today := DateOf(DayOf(now)).month;
    CycleCases(today, now, resetDay);
    NeighbourBoundaries(today, resetDay, DayOf(now), now);
    m := if Boundary(today, resetDay) > now then Previous(today) else today;
  }

  /** An instant of a month lies between the boundaries of the neighbouring months. */
  lemma NeighbourBoundaries(m: Month, resetDay: int, day: int, now: int)
    requires m.Valid()
    requires MonthStart(m) <= day < MonthStart(m) + Length(m)
    requires Midnight(day) <= now < Midnight(day + 1)
    ensures Boundary(Previous(m), resetDay) <= now < Boundary(m.Next(), resetDay)
  {
    hide MonthStart, Length;
    MonthsTile(m);
    MonthsTile(Previous(m));
  }

  /** CycleStart is the greatest boundary at or before `now`. */
  lemma CycleStartIsLatest(now: int, resetDay: int)
    ensures IsLatestBoundary(CycleStart(now, resetDay), now, resetDay)
  {
    hide Boundary, CycleStart;
    var current := CycleMonth(now, resetDay);
    forall m: Month | m.Valid() && Boundary(m, resetDay) <= now
      ensures Boundary(m, resetDay) <= CycleStart(now, resetDay)
    {
      if m.Before(current) {
        BoundariesIncrease(m, current, resetDay);
      } else if current.Next().Before(m) {
        BoundariesIncrease(current.Next(), m, resetDay);
      }
    }
  }

  /** A cycle never moves back as time passes, and every instant up to the next boundary
      belongs to the same cycle. */
  lemma CycleStartMonotone(a: int, b: int, resetDay: int)
    requires a <= b
    ensures CycleStart(a, resetDay) <= CycleStart(b, resetDay)
    ensures CycleStart(b, resetDay) <= a ==> CycleStart(a, resetDay) == CycleStart(b, resetDay)
  {
    hide Boundary, CycleStart;
    CycleStartIsLatest(a, resetDay);
    CycleStartIsLatest(b, resetDay);
  }

  /** The start of a cycle belongs to that cycle. */
  lemma CycleStartIdempotent(now: int, resetDay: int)
    ensures CycleStart(CycleStart(now, resetDay), resetDay) == CycleStart(now, resetDay)
  {
    hide Boundary, CycleStart;
    CycleStartIsLatest(now, resetDay);
    CycleStartMonotone(CycleStart(now, resetDay), now, resetDay);
  }

  /** A cycle is less than 31 days old. */
  lemma CycleAge(now: int, resetDay: int)
    ensures 0 <= now - CycleStart(now, resetDay) < 31 * NANOS_PER_DAY
  {
    hide Boundary, CycleStart;
    var m := CycleMonth(now, resetDay);
    BoundarySpacing(m, resetDay);
  }

  /** Leap days before the year, by the Gregorian rule. */
  function LeapDays(year: nat): int {
    (year + 3) / 4 - (year + 99) / 100 + (year + 399) / 400
  }

  lemma LeapStep(year: nat)
    ensures LeapDays(year + 1) == LeapDays(year) + (YearDays(year) - 365)
  {
    assert (year + 4) / 4 - (year + 3) / 4 == if year % 4 == 0 then 1 else 0;
    assert (year + 100) / 100 - (year + 99) / 100 == if year % 100 == 0 then 1 else 0;
    assert (year + 400) / 400 - (year + 399) / 400 == if year % 400 == 0 then 1 else 0;
  }

  /** Laying years end to end agrees with the closed formula of the Gregorian rule, and so
      1 January 1970 is the epoch day. */
  lemma {:induction false} YearStartClosedForm(year: nat)
    ensures YearStart(year) == 365 * year + LeapDays(year)
    ensures YearStart(1970) == EPOCH_DAY
  {
    ClosedForm(year);
    ClosedForm(1970);
    assert LeapDays(1970) == 493 - 20 + 5;
  }

  lemma {:induction false} ClosedForm(year: nat)
    ensures YearStart(year) == 365 * year + LeapDays(year)
  {
    hide YearDays, LeapDays;
    if year == 0 {
      LeapDaysStart();
    } else {
      ClosedForm(year - 1);
      LeapStep(year - 1);
    }
  }

  lemma LeapDaysStart()
    ensures LeapDays(0) == 0
  {
  }
}
