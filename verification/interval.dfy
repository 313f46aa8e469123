/**
 * Billing intervals (packages/shared/src/interval.ts): advancing a moment by
 * days, weeks, months or years, with month-end clamping and an anchor day.
 */
module Interval {
  import opened Calendar
  import opened Basics

  datatype Unit = DAY | WEEK | MONTH | YEAR

  datatype BillingInterval = BillingInterval(unit: Unit, count: int)

  /** A day of the month as getUTCDate reports it, which is where anchors come from. */
  type AnchorDay = d: int | 1 <= d <= 31 witness 1

  /**
   * The month `Date.UTC(year, month, ...)` means: section 21.4.3.4 of ECMA-262
   * reads years 0 to 99 as 1900 to 1999.
   */
  function UtcMonth(year: int, month: int): int {
    12 * (if 0 <= year <= 99 then year + 1900 else year) + month
  }

  /** The month AddMonths ends in, after its two passes through `Date.UTC`. */
  function LandingMonth(m: int, months: int): int {
    var target := UtcMonth(m / 12, m % 12 + months);
    UtcMonth(target / 12, target % 12)
  }

  function AddMonths(date: int, months: int, anchor: Option<AnchorDay>): int {
    var day := anchor.Or(DayOfMonth(date));
    var landed := LandingMonth(MonthOf(date), months);
    MakeTime(landed, Min(day, DaysInMonth(landed)), TimeInDay(date))
  }

  predicate FromYear100(date: int) { MonthOf(date) >= 12 * 100 }

  predicate ValidInterval(interval: BillingInterval) { interval.count >= 1 }

  predicate Calendrical(interval: BillingInterval) { interval.unit in {MONTH, YEAR} }

  /** Length of a calendar interval in months. */
  function StepMonths(interval: BillingInterval): int {
    if interval.unit == YEAR then interval.count * 12 else interval.count
  }

  function AddInterval(date: int, interval: BillingInterval, anchor: Option<AnchorDay>): Result<int> {
    if !ValidInterval(interval) then Err(InvalidBillingInterval)
    else Ok(
      match interval.unit
      case DAY => date + interval.count * DAY_MS
      case WEEK => date + interval.count * 7 * DAY_MS
      case MONTH => AddMonths(date, interval.count, anchor)
      case YEAR => AddMonths(date, interval.count * 12, anchor)
    )
  }

  // -- one step ---------------------------------------------------------------

  /** Month `m` lies in one of the years 0 to 99. */
  predicate TwoDigitYear(m: int) { 0 <= m < 12 * 100 }

  /** Landing is plain month addition, except that two-digit years jump 1900 years. */
  lemma LandingMonthIsAddition(m: int, months: int)
    requires months >= 1
    ensures LandingMonth(m, months)
            == m + months + (if TwoDigitYear(m) || TwoDigitYear(m + months) then 22_800 else 0)
  {}

  /** The moment in month `m` on the anchor day, clamped to the month's length. */
  function Clamped(m: int, day: AnchorDay, timeInDay: int): int {
    MakeTime(m, Min(day, DaysInMonth(m)), timeInDay)
  }

  /** What a monthly plan means: the anchor day of the month `months` later. */
  function AnchoredDate(date: int, months: int, day: AnchorDay): int {
    Clamped(MonthOf(date) + months, day, TimeInDay(date))
  }

  lemma FieldsOfClamped(m: int, day: AnchorDay, timeInDay: int)
    requires 0 <= timeInDay < DAY_MS
    ensures var t := Clamped(m, day, timeInDay);
            MonthOf(t) == m && DayOfMonth(t) == Min(day, DaysInMonth(m)) && TimeInDay(t) == timeInDay
  {
    FieldsOfMakeTime(m, Min(day, DaysInMonth(m)), timeInDay);
  }

  lemma AddMonthsClamps(date: int, months: int, anchor: Option<AnchorDay>)
    requires months >= 1
    ensures var m := MonthOf(date) + months;
            var landed := m + (if TwoDigitYear(MonthOf(date)) || TwoDigitYear(m) then 22_800 else 0);
            var t := AddMonths(date, months, anchor);
            && t == Clamped(landed, anchor.Or(DayOfMonth(date)), TimeInDay(date))
            && MonthOf(t) == landed && TimeInDay(t) == TimeInDay(date)
  {
    hide MonthOf, DayOfMonth, TimeInDay, TwoDigitYear;
    LandingMonthIsAddition(MonthOf(date), months);
    FieldsOfClamped(LandingMonth(MonthOf(date), months), anchor.Or(DayOfMonth(date)), TimeInDay(date));
  }

  lemma ClampedIsInjective(m: int, m': int, day: AnchorDay, timeInDay: int)
    requires 0 <= timeInDay < DAY_MS
    ensures Clamped(m, day, timeInDay) == Clamped(m', day, timeInDay) <==> m == m'
  {
    hide Clamped, MonthOf, DayOfMonth, TimeInDay;
    FieldsOfClamped(m, day, timeInDay);
    FieldsOfClamped(m', day, timeInDay);
  }

  /**
   * Adding months keeps the promise exactly when neither the starting year nor
   * the target year is one of the two-digit years `Date.UTC` rewrites.
   */
  lemma AddMonthsIsAnchored(date: int, months: int, day: AnchorDay)
    requires months >= 1
    ensures AddMonths(date, months, Some(day)) == AnchoredDate(date, months, day)
            <==> !TwoDigitYear(MonthOf(date)) && !TwoDigitYear(MonthOf(date) + months)
  {
    hide Clamped, MonthOf, TimeInDay, AddMonths, TwoDigitYear;
    AddMonthsClamps(date, months, Some(day));
    ClampedIsInjective(MonthOf(date) + months, MonthOf(date) + months + 22_800, day, TimeInDay(date));
  }

  /** Every interval moves time forward by at least one whole day, whatever the date. */
  lemma IntervalAdvancesADay(date: int, interval: BillingInterval, anchor: Option<AnchorDay>)
    requires ValidInterval(interval)
    ensures AddInterval(date, interval, anchor).value >= date + DAY_MS
  {
    hide MonthOf, TimeInDay, AddMonths, Clamped, TwoDigitYear;
    if Calendrical(interval) {
      var months := StepMonths(interval);
      AddMonthsClamps(date, months, anchor);
      LaterMonthIsADayLater(date, AddMonths(date, months, anchor));
    }
  }

  // -- many steps -------------------------------------------------------------

  /** `k` renewals in a row on one anchor. */
  function Renewed(date: int, months: int, day: AnchorDay, k: nat): int
    decreases k
  {
    hide AddMonths;
    if k == 0 then date else Renewed(AddMonths(date, months, Some(day)), months, day, k - 1)
  }

  /** Whether any of the months m, m + step, ..., m + k * step has a two-digit year. */
  predicate MeetsTwoDigitYear(m: int, step: int, k: nat)
    decreases k
  {
    TwoDigitYear(m) || (k > 0 && MeetsTwoDigitYear(m + step, step, k - 1))
  }

  lemma {:induction false} LaterYearsAreSafe(m: int, step: int, k: nat)
    requires m >= 1200 && step >= 1
    ensures !MeetsTwoDigitYear(m, step, k)
    decreases k
  {
    if k > 0 { LaterYearsAreSafe(m + step, step, k - 1); }
  }

  /** How far k steps carry a month, the jump over the two-digit years included. */
  function Carried(m: int, step: int, k: nat): int {
    m + k * step + (if MeetsTwoDigitYear(m, step, k) then 22_800 else 0)
  }

  lemma CarriedStep(m: int, step: int, k: nat)
    requires step >= 1 && k >= 2
    ensures var next := m + step + (if TwoDigitYear(m) || TwoDigitYear(m + step) then 22_800 else 0);
            Carried(m, step, k) == Carried(next, step, k - 1)
  {
    assert k * step == step + (k - 1) * step;
    if TwoDigitYear(m) || TwoDigitYear(m + step) {
      assert MeetsTwoDigitYear(m + step, step, k - 1) || TwoDigitYear(m);
      LaterYearsAreSafe(m + step + 22_800, step, k - 1);
    }
  }

  lemma {:induction false} RenewedClamps(date: int, months: int, day: AnchorDay, k: nat)
    requires months >= 1 && k >= 1
    ensures Renewed(date, months, day, k) == Clamped(Carried(MonthOf(date), months, k), day, TimeInDay(date))
    decreases k
  {
    hide MonthOf, TimeInDay, AddMonths, Clamped, TwoDigitYear, Carried;
    var m, next := MonthOf(date), AddMonths(date, months, Some(day));
    AddMonthsClamps(date, months, Some(day));
    assert Renewed(date, months, day, k) == Renewed(next, months, day, k - 1);
    if k > 1 {
      RenewedClamps(next, months, day, k - 1);
      CarriedStep(m, months, k);
    } else {
      CarriedOnce(m, months);
    }
  }

  lemma CarriedOnce(m: int, step: int)
    ensures Carried(m, step, 1) == m + step + (if TwoDigitYear(m) || TwoDigitYear(m + step) then 22_800 else 0)
  {
    assert MeetsTwoDigitYear(m + step, step, 0) == TwoDigitYear(m + step);
  }

  lemma {:induction false} EndsAreMet(m: int, step: int, k: nat)
    ensures TwoDigitYear(m) || TwoDigitYear(m + k * step) ==> MeetsTwoDigitYear(m, step, k)
    decreases k
  {
    if k > 0 {
      EndsAreMet(m + step, step, k - 1);
      assert (m + step) + (k - 1) * step == m + k * step;
    }
  }

  lemma JumpLength(k: nat, interval: BillingInterval)
    requires ValidInterval(interval) && Calendrical(interval) && k >= 1
    ensures var step := StepMonths(interval);
            && k * interval.count >= 1 && k * step >= 1
            && StepMonths(BillingInterval(interval.unit, k * interval.count)) == k * step
  {}

  /** One interval that is k times as long. */
  function Jump(date: int, interval: BillingInterval, day: AnchorDay, k: nat): Result<int> {
    AddInterval(date, BillingInterval(interval.unit, k * interval.count), Some(day))
  }

  lemma JumpClamps(date: int, interval: BillingInterval, day: AnchorDay, k: nat)
    requires ValidInterval(interval) && Calendrical(interval) && k >= 1
    ensures var m := MonthOf(date);
            var target := m + k * StepMonths(interval);
            var landed := target + (if TwoDigitYear(m) || TwoDigitYear(target) then 22_800 else 0);
            Jump(date, interval, day, k) == Ok(Clamped(landed, day, TimeInDay(date)))
  {
    hide MonthOf, TimeInDay, AddMonths, Clamped, TwoDigitYear;
    JumpLength(k, interval);
    var jump := k * StepMonths(interval);
    assert Jump(date, interval, day, k) == Ok(AddMonths(date, jump, Some(day)));
    AddMonthsClamps(date, jump, Some(day));
  }

  /**
   * Anchored billing never drifts: k renewals land on the same moment as one
   * jump of k times the interval. It fails exactly when the k steps visit a
   * two-digit year strictly between a start and an end that are not.
   */
  lemma NoDrift(date: int, interval: BillingInterval, day: AnchorDay, k: nat)
    requires ValidInterval(interval) && Calendrical(interval) && k >= 1
    ensures var step := StepMonths(interval);
            var m := MonthOf(date);
            Ok(Renewed(date, step, day, k)) == Jump(date, interval, day, k)
            <==> (MeetsTwoDigitYear(m, step, k) ==> TwoDigitYear(m) || TwoDigitYear(m + k * step))
  {
    hide MonthOf, TimeInDay, Clamped, TwoDigitYear, MeetsTwoDigitYear, Jump, Renewed;
    var step := StepMonths(interval);
    var m := MonthOf(date);
    JumpClamps(date, interval, day, k);
    RenewedClamps(date, step, day, k);
    EndsAreMet(m, step, k);
    var target := m + k * step;
    ClampedIsInjective(target, target + 22_800, day, TimeInDay(date));
  }

  /** From the year 100 on, no condition is left: the k-th renewal is the anchored date. */
  lemma NoDriftFromYear100(date: int, interval: BillingInterval, day: AnchorDay, k: nat)
    requires ValidInterval(interval) && Calendrical(interval) && k >= 1 && FromYear100(date)
    ensures var step := StepMonths(interval);
            && Renewed(date, step, day, k) == AnchoredDate(date, k * step, day)
            && Jump(date, interval, day, k) == Ok(AnchoredDate(date, k * step, day))
  {
    hide MonthOf, TimeInDay, Clamped, Jump, Renewed;
    var step := StepMonths(interval);
    var m := MonthOf(date);
    JumpLength(k, interval);
    JumpClamps(date, interval, day, k);
    RenewedClamps(date, step, day, k);
    LaterYearsAreSafe(m, step, k);
    EndsAreMet(m, step, k);
  }

  /** A monthly plan opened on 15 December of the year -1 drifts by 1900 years. */
  lemma DriftExample()
    ensures var date := Clamped(-1, 15, 0);
            Ok(Renewed(date, 1, 15, 1201)) != Jump(date, BillingInterval(MONTH, 1), 15, 1201)
  {
    hide MonthOf, TimeInDay, Clamped, Jump, Renewed;
    FieldsOfClamped(-1, 15, 0);
    assert MeetsTwoDigitYear(-1, 1, 1201) by { assert MeetsTwoDigitYear(0, 1, 1200); }
    NoDrift(Clamped(-1, 15, 0), BillingInterval(MONTH, 1), 15, 1201);
  }
}
