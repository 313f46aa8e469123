/**
 * The UTC calendar behind `Date`: the proleptic Gregorian calendar of section
 * 21.4.1 of ECMA-262, over integer milliseconds since 1970-01-01T00:00:00Z.
 *
 * Months are numbered on one line, `12 * year + month`, so that "n months later"
 * is plain addition and the year boundary needs no case of its own.
 */
module Calendar {

  const DAY_MS: int := 86_400_000

  predicate Fourth(year: int) { year % 4 == 0 }

  predicate Centennial(year: int) { year % 100 == 0 }

  predicate FourthCentennial(year: int) { year % 400 == 0 }

  predicate LeapYear(year: int) { Fourth(year) && (!Centennial(year) || FourthCentennial(year)) }

  /** Fourth years, centennials and fourth centennials that have ended, counted from 1970. */
  function Fourths(year: int): int { (year - 1969) / 4 }

  function Centennials(year: int): int { (year - 1901) / 100 }

  function FourthCentennials(year: int): int { (year - 1601) / 400 }

  /** Days from the epoch to 1 January of `year`. */
  function DayFromYear(year: int): int {
    365 * (year - 1970) + Fourths(year) - Centennials(year) + FourthCentennials(year)
  }

  /** Days from 1 January to the first of the month (0 is January). */
  function DaysBeforeMonth(month: int, leap: bool): int
    requires 0 <= month < 12
  {
    var extra := if leap then 1 else 0;
    if month == 0 then 0
    else if month == 1 then 31
    else extra + [59, 90, 120, 151, 181, 212, 243, 273, 304, 334][month - 2]
  }

  /** Days from the epoch to the first day of an absolute month. */
  function MonthStart(m: int): int {
    DayFromYear(m / 12) + DaysBeforeMonth(m % 12, LeapYear(m / 12))
  }

  /** Length of an absolute month. */
  function DaysInMonth(m: int): (n: int)
    ensures 28 <= n <= 31
  {
    var month := m % 12;
    if month == 1 then (if LeapYear(m / 12) then 29 else 28)
    else if month in {3, 5, 8, 10} then 30
    else 31
  }

  lemma Parts4(n: int, q: int, r: int)
    requires n == 4 * q + r && 0 <= r < 4
    ensures n / 4 == q && n % 4 == r
  {}

  lemma Parts100(n: int, q: int, r: int)
    requires n == 100 * q + r && 0 <= r < 100
    ensures n / 100 == q && n % 100 == r
  {}

  lemma Parts400(n: int, q: int, r: int)
    requires n == 400 * q + r && 0 <= r < 400
    ensures n / 400 == q && n % 400 == r
  {}

  lemma FourthsStep(year: int)
    ensures Fourths(year + 1) == Fourths(year) + (if Fourth(year) then 1 else 0)
  {
    var q, r := year / 4, year % 4;
    Parts4(year - 1968, q - 492, r);
    if r == 0 { Parts4(year - 1969, q - 493, 3); } else { Parts4(year - 1969, q - 492, r - 1); }
  }

  lemma CentennialsStep(year: int)
    ensures Centennials(year + 1) == Centennials(year) + (if Centennial(year) then 1 else 0)
  {
    var q, r := year / 100, year % 100;
    Parts100(year - 1900, q - 19, r);
    if r == 0 { Parts100(year - 1901, q - 20, 99); } else { Parts100(year - 1901, q - 19, r - 1); }
  }

  lemma FourthCentennialsStep(year: int)
    ensures FourthCentennials(year + 1) == FourthCentennials(year) + (if FourthCentennial(year) then 1 else 0)
  {
    var q, r := year / 400, year % 400;
    Parts400(year - 1600, q - 4, r);
    if r == 0 { Parts400(year - 1601, q - 5, 399); } else { Parts400(year - 1601, q - 4, r - 1); }
  }

  lemma CentennialsAreFourths(year: int)
    ensures Centennial(year) ==> Fourth(year)
  {
    if Centennial(year) { Parts4(year, 25 * (year / 100), 0); }
  }

  lemma FourthCentennialsAreCentennials(year: int)
    ensures FourthCentennial(year) ==> Centennial(year)
  {
    if FourthCentennial(year) { Parts100(year, 4 * (year / 400), 0); }
  }

  lemma LeapYearIsOneDayLonger(year: int)
    ensures DayFromYear(year + 1) == DayFromYear(year) + (if LeapYear(year) then 366 else 365)
  {
    hide Fourth, Centennial, FourthCentennial, Fourths, Centennials, FourthCentennials;
    FourthsStep(year);
    CentennialsStep(year);
    FourthCentennialsStep(year);
    CentennialsAreFourths(year);
    FourthCentennialsAreCentennials(year);
  }

  /** Consecutive months abut: each starts where the one before it ends. */
  lemma MonthStartStep(m: int)
    ensures MonthStart(m + 1) == MonthStart(m) + DaysInMonth(m)
  {
    hide DayFromYear, LeapYear;
    var year, month := m / 12, m % 12;
    assert m == 12 * year + month;
    if month < 11 {
      assert (m + 1) / 12 == year && (m + 1) % 12 == month + 1;
    } else {
      assert (m + 1) / 12 == year + 1 && (m + 1) % 12 == 0;
      LeapYearIsOneDayLonger(year);
    }
  }

  lemma {:induction false} MonthStartMonotone(a: int, b: int)
    requires a <= b
    ensures MonthStart(a) + 28 * (b - a) <= MonthStart(b)
    decreases b - a
  {
    hide MonthStart, DaysInMonth;
    if a < b {
      MonthStartMonotone(a, b - 1);
      MonthStartStep(b - 1);
    }
  }

  /** A month that certainly begins no later than `day`, to search forward from. */
  function EarlyMonth(day: int): (m: int)
    ensures MonthStart(m) <= day
  {
    var years := if day >= 0 then day / 366 else day / 365;
    var m := 12 * (1970 + years);
    assert m / 12 == 1970 + years && m % 12 == 0;
    m
  }

  /** The last month at or after `m` that begins on or before `day`. */
  function SearchMonth(day: int, m: int): (r: int)
    requires MonthStart(m) <= day
    ensures MonthStart(r) <= day < MonthStart(r + 1)
    decreases day - MonthStart(m)
  {
    hide MonthStart;
    MonthStartStep(m);
    if day < MonthStart(m + 1) then m else SearchMonth(day, m + 1)
  }

  function DayOf(t: int): int { t / DAY_MS }

  function TimeInDay(t: int): (x: int)
    ensures 0 <= x < DAY_MS
  {
    t % DAY_MS
  }

  /** Absolute month of a moment: getUTCFullYear and getUTCMonth in one number. */
  function MonthOf(t: int): int {
    SearchMonth(DayOf(t), EarlyMonth(DayOf(t)))
  }

  lemma MonthOfContains(t: int)
    ensures MonthStart(MonthOf(t)) <= DayOf(t) < MonthStart(MonthOf(t) + 1)
  {
    hide MonthStart;
  }

  /** getUTCDate. */
  function DayOfMonth(t: int): (d: int)
    ensures 1 <= d <= DaysInMonth(MonthOf(t)) <= 31
  {
    MonthOfContains(t);
    MonthStartStep(MonthOf(t));
    DayOf(t) - MonthStart(MonthOf(t)) + 1
  }

  /** The moment with the given calendar fields; `day` may overflow the month. */
  function MakeTime(m: int, day: int, timeInDay: int): int {
    (MonthStart(m) + day - 1) * DAY_MS + timeInDay
  }

  /** Reading the fields of a built moment gives back the fields it was built from. */
  lemma FieldsOfMakeTime(m: int, day: int, timeInDay: int)
    requires 1 <= day <= DaysInMonth(m) && 0 <= timeInDay < DAY_MS
    ensures var t := MakeTime(m, day, timeInDay);
            MonthOf(t) == m && DayOfMonth(t) == day && TimeInDay(t) == timeInDay
  {
    hide MonthStart;
    var t := MakeTime(m, day, timeInDay);
    assert DayOf(t) == MonthStart(m) + day - 1 && TimeInDay(t) == timeInDay;
    MonthStartStep(m);
    MonthOfContains(t);
    if MonthOf(t) < m {
      MonthStartMonotone(MonthOf(t) + 1, m);
    } else if m < MonthOf(t) {
      MonthStartMonotone(m + 1, MonthOf(t));
    }
  }

  /** ... and a moment is rebuilt from its own fields. */
  lemma MakeTimeOfFields(t: int)
    ensures MakeTime(MonthOf(t), DayOfMonth(t), TimeInDay(t)) == t
  {}

  /** Calendar order is time order: by month, then day, then time of day. */
  predicate FieldsBefore(m: int, d: int, x: int, m': int, d': int, x': int) {
    m < m' || (m == m' && (d < d' || (d == d' && x < x')))
  }

  lemma CalendarOrder(a: int, b: int)
    ensures a < b <==> FieldsBefore(MonthOf(a), DayOfMonth(a), TimeInDay(a),
                                    MonthOf(b), DayOfMonth(b), TimeInDay(b))
  {
    hide MonthStart, MonthOf;
    MakeTimeOfFields(a);
    MakeTimeOfFields(b);
    MonthOfContains(a);
    MonthOfContains(b);
    if MonthOf(a) < MonthOf(b) {
      MonthStartMonotone(MonthOf(a) + 1, MonthOf(b));
      assert DayOf(a) < DayOf(b);
    } else if MonthOf(b) < MonthOf(a) {
      MonthStartMonotone(MonthOf(b) + 1, MonthOf(a));
      assert DayOf(b) < DayOf(a);
    }
  }

  /** Same time of day in a later month is at least one whole day later. */
  lemma LaterMonthIsADayLater(a: int, b: int)
    requires MonthOf(a) < MonthOf(b) && TimeInDay(a) == TimeInDay(b)
    ensures b - a >= DAY_MS
  {
    hide MonthStart;
    MonthOfContains(a);
    MonthOfContains(b);
    MonthStartMonotone(MonthOf(a) + 1, MonthOf(b));
    assert DayOf(a) < DayOf(b);
  }

  /** The calendar starts at the epoch, and 1900 was no leap year while 2000 was one. */
  lemma Epoch()
    ensures MakeTime(12 * 1970, 1, 0) == 0
    ensures DaysInMonth(12 * 1900 + 1) == 28 && DaysInMonth(12 * 2000 + 1) == 29 && DaysInMonth(12 * 2024 + 1) == 29
  {}

  /** It repeats every 400 years of 146,097 days. */
  lemma GregorianCycle(m: int)
    ensures MonthStart(m + 4_800) == MonthStart(m) + 146_097 && DaysInMonth(m + 4_800) == DaysInMonth(m)
  {
    hide LeapYear, Fourths, Centennials, FourthCentennials, DaysBeforeMonth;
    assert (m + 4_800) / 12 == m / 12 + 400 && (m + 4_800) % 12 == m % 12;
    CycleParts(m / 12);
  }

  lemma CycleParts(year: int)
    ensures Fourths(year + 400) == Fourths(year) + 100 && Centennials(year + 400) == Centennials(year) + 4
    ensures FourthCentennials(year + 400) == FourthCentennials(year) + 1
    ensures LeapYear(year + 400) == LeapYear(year)
  {}
}
