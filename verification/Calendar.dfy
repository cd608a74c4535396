/**
 * Calendar arithmetic as JavaScript dates do it (sections 21.4.1.3 to 21.4.1.5 and 21.4.1.28 of
 * ECMA-262), for `periodEnd` in apps/api/src/modules/billing/billing.repository.ts. Instants are
 * milliseconds since 1970, days are counted from 1970-01-01, months from 0; local time is a fixed
 * distance from UTC.
 */
module Calendar {

  const MS_PER_DAY: int := 86_400_000

  predicate IsLeap(y: int) {
    y % 4 == 0 && (y % 100 != 0 || y % 400 == 0)
  }

  function YearDays(y: int): int {
    if IsLeap(y) then 366 else 365
  }

  /** The day number of 1 January: the years since 1970, or up to it, one by one. */
  function YearStart(y: int): int
    decreases if y < 1970 then 1970 - y else y - 1970
  {
    if y == 1970 then 0
    else if y > 1970 then YearStart(y - 1) + YearDays(y - 1)
    else YearStart(y + 1) - YearDays(y)
  }

  lemma YearLength(y: int)
    ensures YearStart(y + 1) == YearStart(y) + YearDays(y)
  {
  }

  function ClosedForm(y: int): int {
    365 * (y - 1970) + (y - 1969) / 4 - (y - 1901) / 100 + (y - 1601) / 400
  }

  lemma Every4(y: int)
    ensures (y - 1968) / 4 == (y - 1969) / 4 + if y % 4 == 0 then 1 else 0
  {
  }

  lemma Every100(y: int)
    ensures (y - 1900) / 100 == (y - 1901) / 100 + if y % 100 == 0 then 1 else 0
  {
  }

  lemma Every400(y: int)
    ensures (y - 1600) / 400 == (y - 1601) / 400 + if y % 400 == 0 then 1 else 0
  {
  }

  /** The three rules are nested: a multiple of 400 is one of 100, which is one of 4. */
  lemma Nested(y: int)
    ensures y % 400 == 0 ==> y % 100 == 0
    ensures y % 100 == 0 ==> y % 4 == 0
  {
    if y % 100 == 0 {
      Fours(25 * (y / 100));
    }
    if y % 400 == 0 {
      Hundreds(4 * (y / 400));
    }
  }

  lemma Fours(z: int)
    ensures 4 * z % 4 == 0
  {
  }

  lemma Hundreds(z: int)
    ensures 100 * z % 100 == 0
  {
  }

  lemma ClosedFormNext(y: int)
    ensures ClosedForm(y + 1) == ClosedForm(y) + YearDays(y)
  {
    Every4(y);
    Every100(y);
    Every400(y);
    Nested(y);
  }

  /** The formula of section 21.4.1.3 counts the same days. */
  lemma {:induction false} DayFromYear(y: int)
    ensures YearStart(y) == ClosedForm(y)
    decreases if y < 1970 then 1970 - y else y - 1970
  {
    if y > 1970 {
      DayFromYear(y - 1);
      ClosedFormNext(y - 1);
    } else if y < 1970 {
      DayFromYear(y + 1);
      ClosedFormNext(y);
    }
  }

  function MonthLength(leap: bool, m: int): int
    requires 0 <= m < 12
  {
    if m == 1 then (if leap then 29 else 28)
    else if m == 3 || m == 5 || m == 8 || m == 10 then 30
    else 31
  }

  /** Days from 1 January to the first of month `m`. */
  function MonthOffset(leap: bool, m: int): int
    requires 0 <= m <= 12
  {
    if m == 0 then 0 else MonthOffset(leap, m - 1) + MonthLength(leap, m - 1)
  }

  datatype Date = Date(year: int, month: nat, day: int)

  /** The length of the month a date names. */
  function DaysInMonth(c: Date): int
    requires c.month < 12
  {
    MonthLength(IsLeap(c.year), c.month)
  }

  ghost predicate IsDate(c: Date) {
    c.month < 12 && 1 <= c.day <= DaysInMonth(c)
  }

  function DayOf(c: Date): int
    requires c.month < 12
  {
    YearStart(c.year) + MonthOffset(IsLeap(c.year), c.month) + c.day - 1
  }

  /** The same day of the next month, not yet a date when that month is shorter. */
  function MonthLater(c: Date): (r: Date)
    requires c.month < 12
    ensures r.month < 12
  {
    if c.month == 11 then Date(c.year + 1, 0, c.day) else Date(c.year, c.month + 1, c.day)
  }

  /** The days of the year on which the months begin, as the standard lists them. */
  lemma {:induction false} MonthsBegin(leap: bool, m: nat)
    requires m <= 12
    ensures MonthOffset(leap, m) ==
            [0, 31, 59, 90, 120, 151, 181, 212, 243, 273, 304, 334, 365][m] + if leap && m >= 2 then 1 else 0
  {
    if m > 0 {
      MonthsBegin(leap, m - 1);
    }
  }

  lemma MonthsFillTheYear(leap: bool)
    ensures MonthOffset(leap, 12) == if leap then 366 else 365
  {
    MonthsBegin(leap, 12);
  }

  /** The same day of the next month comes a month's length later, across New Year too. */
  lemma NextMonth(c: Date)
    requires c.month < 12
    ensures DayOf(MonthLater(c)) == DayOf(c) + DaysInMonth(c)
  {
    if c.month == 11 {
      MonthsFillTheYear(IsLeap(c.year));
      YearLength(c.year);
    }
  }

  // ---------- From day numbers back to dates ----------

  /** The year a day falls in: an estimate that is off by at most one, corrected. */
  function YearOf(n: int): (y: int)
    ensures YearStart(y) <= n < YearStart(y + 1)
  {
    var guess := 1970 + 400 * n / 146_097;
    Estimate(n);
    if n < YearStart(guess) then guess - 1
    else if n >= YearStart(guess + 1) then guess + 1
    else guess
  }

  lemma Estimate(n: int)
    ensures var guess := 1970 + 400 * n / 146_097; YearStart(guess - 1) <= n < YearStart(guess + 2)
  {
    var guess := 1970 + 400 * n / 146_097;
    DayFromYear(guess - 1);
    DayFromYear(guess + 2);
  }

  /** The month in which day `n` of the year falls, looking from month `m` on. */
  function MonthFrom(leap: bool, m: nat, n: int): (r: nat)
    requires m < 12 && MonthOffset(leap, m) <= n < MonthOffset(leap, 12)
    ensures r < 12 && MonthOffset(leap, r) <= n < MonthOffset(leap, r + 1)
    decreases 12 - m
  {
    if m < 11 && n >= MonthOffset(leap, m + 1) then MonthFrom(leap, m + 1, n) else m
  }

  function Civil(n: int): (c: Date)
    ensures IsDate(c) && DayOf(c) == n
  {
    var y := YearOf(n);
    YearLength(y);
    MonthsFillTheYear(IsLeap(y));
    var m := MonthFrom(IsLeap(y), 0, n - YearStart(y));
    Date(y, m, n - YearStart(y) - MonthOffset(IsLeap(y), m) + 1)
  }

  lemma {:induction false} YearsApart(y: int, z: int)
    requires y < z
    ensures YearStart(y) + 365 <= YearStart(z)
    decreases z - y
  {
    YearLength(z - 1);
    if y < z - 1 {
      YearsApart(y, z - 1);
    }
  }

  lemma {:induction false} OffsetsGrow(leap: bool, m: nat, k: nat)
    requires m < k <= 12
    ensures MonthOffset(leap, m) + MonthLength(leap, m) <= MonthOffset(leap, k)
  {
    if m < k - 1 {
      OffsetsGrow(leap, m, k - 1);
    }
  }

  /** A date is the only one with its day number. */
  lemma CivilUnique(c: Date)
    requires IsDate(c)
    ensures Civil(DayOf(c)) == c
  {
    var b := Civil(DayOf(c));
    if b.year < c.year {
      LaterYear(b, c);
    } else if c.year < b.year {
      LaterYear(c, b);
    } else if b.month < c.month {
      OffsetsGrow(IsLeap(c.year), b.month, c.month);
    } else if c.month < b.month {
      OffsetsGrow(IsLeap(c.year), c.month, b.month);
    }
  }

  lemma WithinYear(c: Date)
    requires IsDate(c)
    ensures YearStart(c.year) <= DayOf(c) < YearStart(c.year + 1)
  {
    OffsetsGrow(IsLeap(c.year), c.month, 12);
    MonthsFillTheYear(IsLeap(c.year));
    YearLength(c.year);
    if c.month > 0 {
      OffsetsGrow(IsLeap(c.year), 0, c.month);
    }
  }

  lemma LaterYear(b: Date, c: Date)
    requires IsDate(b) && IsDate(c) && b.year < c.year
    ensures DayOf(b) < DayOf(c)
  {
    WithinYear(b);
    WithinYear(c);
    if b.year + 1 < c.year {
      YearsApart(b.year + 1, c.year);
    }
  }

  // ---------- Billing periods ----------

  datatype Cycle = Monthly | Yearly

  /** The local day of an instant. */
  function LocalDay(t: int, zone: int): int {
    (t + zone) / MS_PER_DAY
  }

  /** setMonth(getMonth() + 1), or setFullYear(getFullYear() + 1). */
  function PeriodEndDay(c: Date, cycle: Cycle): int
    requires c.month < 12
  {
    match cycle
    case Monthly => DayOf(MonthLater(c))
    case Yearly => DayOf(c.(year := c.year + 1))
  }

  /**
   * `periodEnd` when local time is `zone` ahead at the start and `zoneThen` at the end: the day
   * moves, the local time of day stays.
   */
  function PeriodEndAcross(from: int, cycle: Cycle, zone: int, zoneThen: int): int {
    PeriodEndDay(Civil(LocalDay(from, zone)), cycle) * MS_PER_DAY + (from + zone) % MS_PER_DAY - zoneThen
  }

  /** The same in a zone without daylight saving. */
  function PeriodEnd(from: int, cycle: Cycle, zone: int): int {
    PeriodEndAcross(from, cycle, zone, zone)
  }

  /** The days of a period: the length of the month it starts in, or 366 when it crosses 29 February. */
  function PeriodDays(from: Date, cycle: Cycle): int
    requires from.month < 12
  {
    match cycle
    case Monthly => DaysInMonth(from)
    case Yearly => YearDays(if from.month <= 1 then from.year else from.year + 1)
  }

  lemma {:induction false} OffsetsAlike(m: nat)
    requires m <= 12
    ensures MonthOffset(true, m) == MonthOffset(false, m) + if m <= 1 then 0 else 1
  {
    if m > 0 {
      OffsetsAlike(m - 1);
    }
  }

  lemma PeriodDaysApart(c: Date, cycle: Cycle)
    requires IsDate(c)
    ensures PeriodEndDay(c, cycle) == DayOf(c) + PeriodDays(c, cycle)
  {
    match cycle
    case Monthly => NextMonth(c);
    case Yearly =>
      YearLength(c.year);
      OffsetsAlike(c.month);
  }

  /** In any zone a period lasts `PeriodDays`, shortened by the hours the clock was put forward in it. */
  lemma PeriodLengthAcross(from: int, cycle: Cycle, zone: int, zoneThen: int)
    ensures PeriodEndAcross(from, cycle, zone, zoneThen) ==
            from + PeriodDays(Civil(LocalDay(from, zone)), cycle) * MS_PER_DAY - (zoneThen - zone)
  {
    PeriodDaysApart(Civil(LocalDay(from, zone)), cycle);
  }

  /** A period ends exactly `PeriodDays` after it starts, whatever the date and time of day. */
  lemma PeriodLength(from: int, cycle: Cycle, zone: int)
    ensures PeriodEnd(from, cycle, zone) == from + PeriodDays(Civil(LocalDay(from, zone)), cycle) * MS_PER_DAY
    ensures cycle == Monthly ==> 28 <= PeriodDays(Civil(LocalDay(from, zone)), cycle) <= 31
    ensures cycle == Yearly ==> 365 <= PeriodDays(Civil(LocalDay(from, zone)), cycle) <= 366
  {
    PeriodDaysApart(Civil(LocalDay(from, zone)), cycle);
  }

  /**
   * Where a monthly period ends: on the same day of the next month if that month has it, otherwise
   * it has rolled over into the month after (31 January to 3 March), never clamped.
   */
  lemma MonthlyRollover(c: Date)
    requires IsDate(c)
    ensures var later := MonthLater(c);
            Civil(PeriodEndDay(c, Monthly)) ==
            if c.day <= DaysInMonth(later) then later
            else Date(later.year, later.month + 1, c.day - DaysInMonth(later))
  {
    var later := MonthLater(c);
    if c.day <= DaysInMonth(later) {
      CivilUnique(later);
    } else {
      var e := MonthLater(later).(day := c.day - DaysInMonth(later));
      CivilUnique(e);
      NextMonth(later.(day := e.day));
    }
  }

  /** By how much the month an instant falls in is longer than another's. */
  function LongerBy(from: int, later: int, zone: int): int {
    (DaysInMonth(Civil(LocalDay(from, zone))) - DaysInMonth(Civil(LocalDay(later, zone)))) * MS_PER_DAY
  }

  /**
   * Monthly periods do not keep the order of their starts: one that starts earlier ends later
   * exactly when it starts in a month that is longer by more than the distance of the starts, and
   * at the same instant exactly when it is longer by just that.
   */
  lemma EarlierEndsLater(from: int, later: int, zone: int)
    ensures var longer := LongerBy(from, later, zone);
            && (PeriodEnd(from, Monthly, zone) > PeriodEnd(later, Monthly, zone) <==> later - from < longer)
            && (PeriodEnd(from, Monthly, zone) == PeriodEnd(later, Monthly, zone) <==> later - from == longer)
  {
    PeriodLength(from, Monthly, zone);
    PeriodLength(later, Monthly, zone);
  }
}
