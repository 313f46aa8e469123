/**
 * What a settled payment does to a lapsed subscription's billing period
 * (packages/billing/src/recovery.ts).
 */
module Recovery {
  import opened Calendar
  import opened Basics
  import opened Interval
  import opened StateMachine

  const RECOVERABLE_STATUSES: set<Status> := {INCOMPLETE, TRIALING, PAST_DUE, GRACE_PERIOD, UNPAID}

  /** The period columns of a subscription row. */
  datatype Period = Period(start: int, end: int, anchor: Option<AnchorDay>)

  datatype Plan = Plan(recovers: bool, rebased: bool, period: Period)

  function PlanPaymentRecovery(status: Status, period: Period, interval: BillingInterval, recoveredAt: int): Result<Plan> {
    if status !in RECOVERABLE_STATUSES then Ok(Plan(false, false, period))
    else if status != UNPAID then Ok(Plan(true, false, period))
    else
      var anchor := if Calendrical(interval) then Some(DayOfMonth(recoveredAt)) else period.anchor;
      var end :- AddInterval(recoveredAt, interval, anchor);
      Ok(Plan(true, true, Period(recoveredAt, end, anchor)))
  }

  predicate IsPeriodDue(end: int, now: int) { end <= now }

  /** The period was opened by this interval, on the row's own anchor. */
  predicate OpenedBy(period: Period, interval: BillingInterval) {
    ValidInterval(interval) && period.start < period.end && AddInterval(period.start, interval, period.anchor) == Ok(period.end)
  }

  /** The period starts on its anchor day, clamped to the month it is in. */
  predicate OnAnchor(period: Period) {
    period.anchor.Some? && DayOfMonth(period.start) == Min(period.anchor.value, DaysInMonth(MonthOf(period.start)))
  }

  /** The new period end minus the end it replaces. */
  function EndShift(period: Period, interval: BillingInterval, recoveredAt: int): int
    requires ValidInterval(interval)
  {
    PlanPaymentRecovery(UNPAID, period, interval, recoveredAt).value.period.end - period.end
  }

  /** Length of a day or week interval. */
  function IntervalLength(interval: BillingInterval): int {
    interval.count * (if interval.unit == WEEK then 7 else 1) * DAY_MS
  }

  // -- any period ---------------------------------------------------------------------

  /** The month a calendar rebase ends in. */
  function RebasedMonth(interval: BillingInterval, recoveredAt: int): int {
    LandingMonth(MonthOf(recoveredAt), StepMonths(interval))
  }

  /** A calendar rebase ends on the recovery's own day and time, clamped to its target month. */
  lemma RebasedEnd(period: Period, interval: BillingInterval, recoveredAt: int)
    requires ValidInterval(interval) && Calendrical(interval)
    ensures period.end + EndShift(period, interval, recoveredAt)
            == Clamped(RebasedMonth(interval, recoveredAt), DayOfMonth(recoveredAt), TimeInDay(recoveredAt))
  {
    hide MonthOf, DayOfMonth, DaysInMonth, TimeInDay, LandingMonth;
  }

  /**
   * Exactly when a rebase ends earlier than the period it replaces, whatever that
   * period is and however it came about: a day or week plan, when the payment
   * comes earlier than one interval before the old end; a calendar plan, when the
   * target month, the clamped day and the time of the payment come before the
   * month, day and time of the old end.
   */
  lemma RebaseShortensExactlyWhen(period: Period, interval: BillingInterval, recoveredAt: int)
    requires ValidInterval(interval)
    ensures var m := RebasedMonth(interval, recoveredAt);
            EndShift(period, interval, recoveredAt) < 0
            <==> if Calendrical(interval)
                 then FieldsBefore(m, Min(DayOfMonth(recoveredAt), DaysInMonth(m)), TimeInDay(recoveredAt),
                                   MonthOf(period.end), DayOfMonth(period.end), TimeInDay(period.end))
                 else recoveredAt < period.end - IntervalLength(interval)
  {
    hide MonthOf, DayOfMonth, DaysInMonth, TimeInDay, Clamped, RebasedMonth;
    if Calendrical(interval) {
      var m := RebasedMonth(interval, recoveredAt);
      var end := Clamped(m, DayOfMonth(recoveredAt), TimeInDay(recoveredAt));
      hide EndShift;
      RebasedEnd(period, interval, recoveredAt);
      FieldsOfClamped(m, DayOfMonth(recoveredAt), TimeInDay(recoveredAt));
      CalendarOrder(end, period.end);
    } else {
      DayAndWeekShift(period, interval, recoveredAt);
    }
  }

  /** For day and week plans the new end is one interval after the payment. */
  lemma DayAndWeekShift(period: Period, interval: BillingInterval, recoveredAt: int)
    requires ValidInterval(interval) && !Calendrical(interval)
    ensures EndShift(period, interval, recoveredAt) == recoveredAt + IntervalLength(interval) - period.end
  {
    hide MonthOf, DayOfMonth;
  }

  /** No rebase loses more than what was left of the period at the payment, less a day. */
  lemma RebaseKeepsADay(period: Period, interval: BillingInterval, recoveredAt: int)
    requires ValidInterval(interval)
    ensures EndShift(period, interval, recoveredAt) >= recoveredAt + DAY_MS - period.end
  {
    hide MonthOf, DayOfMonth, AddMonths;
    var anchor := if Calendrical(interval) then Some(DayOfMonth(recoveredAt)) else period.anchor;
    IntervalAdvancesADay(recoveredAt, interval, anchor);
  }

  // -- periods opened by the present interval ------------------------------------------

  /** Day and week plans then never lose time: the end moves by exactly the recovery's delay. */
  lemma DayAndWeekRebasesNeverShorten(period: Period, interval: BillingInterval, recoveredAt: int)
    requires OpenedBy(period, interval) && !Calendrical(interval) && period.start <= recoveredAt
    ensures EndShift(period, interval, recoveredAt) == recoveredAt - period.start >= 0
  {
    hide MonthOf, DayOfMonth;
  }

  /** The day of the month the period's end was aimed at. */
  function AimedDay(period: Period): AnchorDay { period.anchor.Or(DayOfMonth(period.start)) }

  /** A rebased calendar period and the one it replaces end on two clamped dates. */
  lemma RebasedEnds(period: Period, interval: BillingInterval, recoveredAt: int)
    requires OpenedBy(period, interval) && Calendrical(interval)
    requires FromYear100(period.start) && period.start <= recoveredAt
    ensures var months := StepMonths(interval);
            && MonthOf(period.start) <= MonthOf(recoveredAt)
            && period.end == Clamped(MonthOf(period.start) + months, AimedDay(period), TimeInDay(period.start))
            && period.end + EndShift(period, interval, recoveredAt)
               == Clamped(MonthOf(recoveredAt) + months, DayOfMonth(recoveredAt), TimeInDay(recoveredAt))
  {
    hide MonthOf, DayOfMonth, DaysInMonth, TimeInDay, AddMonths, Clamped;
    CalendarOrder(recoveredAt, period.start);
    AddMonthsClamps(period.start, StepMonths(interval), period.anchor);
    AddMonthsClamps(recoveredAt, StepMonths(interval), Some(DayOfMonth(recoveredAt)));
  }

  /**
   * Such a period is shortened exactly when the customer recovers in the calendar
   * month it started in, and the recovery's day and time, clamped to the target
   * month, fall before the day the old end was aimed at.
   */
  lemma OpenedPeriodShortensExactlyWhen(period: Period, interval: BillingInterval, recoveredAt: int)
    requires OpenedBy(period, interval) && Calendrical(interval)
    requires FromYear100(period.start) && period.start <= recoveredAt
    ensures var target := MonthOf(period.start) + StepMonths(interval);
            var newDay, oldDay := Min(DayOfMonth(recoveredAt), DaysInMonth(target)), Min(AimedDay(period), DaysInMonth(target));
            EndShift(period, interval, recoveredAt) < 0
            <==> && MonthOf(recoveredAt) == MonthOf(period.start)
                 && (newDay < oldDay || (newDay == oldDay && TimeInDay(recoveredAt) < TimeInDay(period.start)))
  {
    hide MonthOf, DayOfMonth, DaysInMonth, TimeInDay, Clamped, EndShift, AddInterval, AimedDay;
    RebasedEnds(period, interval, recoveredAt);
    var before, after := MonthOf(period.start) + StepMonths(interval), MonthOf(recoveredAt) + StepMonths(interval);
    FieldsOfClamped(before, AimedDay(period), TimeInDay(period.start));
    FieldsOfClamped(after, DayOfMonth(recoveredAt), TimeInDay(recoveredAt));
    CalendarOrder(Clamped(after, DayOfMonth(recoveredAt), TimeInDay(recoveredAt)), period.end);
  }

  /** A recovery in a later calendar month always ends strictly later. */
  lemma LaterMonthRecoveryExtends(period: Period, interval: BillingInterval, recoveredAt: int)
    requires OpenedBy(period, interval) && Calendrical(interval)
    requires FromYear100(period.start) && MonthOf(period.start) < MonthOf(recoveredAt)
    ensures EndShift(period, interval, recoveredAt) > 0
  {
    hide MonthOf, DayOfMonth, DaysInMonth, TimeInDay, Clamped, EndShift, AddInterval, AimedDay;
    CalendarOrder(period.start, recoveredAt);
    RebasedEnds(period, interval, recoveredAt);
    var before, after := MonthOf(period.start) + StepMonths(interval), MonthOf(recoveredAt) + StepMonths(interval);
    FieldsOfClamped(before, AimedDay(period), TimeInDay(period.start));
    FieldsOfClamped(after, DayOfMonth(recoveredAt), TimeInDay(recoveredAt));
    CalendarOrder(period.end, Clamped(after, DayOfMonth(recoveredAt), TimeInDay(recoveredAt)));
  }

  lemma ClampedDifference(m: int, day: AnchorDay, day': AnchorDay, x: int, x': int)
    ensures Clamped(m, day, x) - Clamped(m, day', x')
            == (Min(day, DaysInMonth(m)) - Min(day', DaysInMonth(m))) * DAY_MS + (x - x')
  {
    hide MonthStart, DaysInMonth;
  }

  /** How many days of the target month lie between the day the period started on and the day its end was aimed at. */
  function DaysPastStart(period: Period, interval: BillingInterval): int {
    var length := DaysInMonth(MonthOf(period.start) + StepMonths(interval));
    Min(AimedDay(period), length) - Min(DayOfMonth(period.start), length)
  }

  /**
   * The worst loss of a period opened by the present interval: the days by which the aimed day lies past
   * the start's, at most thirty, or else less than a day. A recovery at the very
   * start of the period loses (or gains) exactly those days.
   */
  lemma RebaseLossBound(period: Period, interval: BillingInterval, recoveredAt: int)
    requires OpenedBy(period, interval) && Calendrical(interval)
    requires FromYear100(period.start) && period.start <= recoveredAt
    ensures DaysPastStart(period, interval) <= 30
    ensures EndShift(period, interval, recoveredAt) >= -DaysPastStart(period, interval) * DAY_MS
            || EndShift(period, interval, recoveredAt) > -DAY_MS
    ensures recoveredAt == period.start ==> EndShift(period, interval, recoveredAt) == -DaysPastStart(period, interval) * DAY_MS
  {
    hide MonthOf, DayOfMonth, DaysInMonth, TimeInDay, Clamped, EndShift, AddInterval, AimedDay;
    RebasedEnds(period, interval, recoveredAt);
    if MonthOf(period.start) < MonthOf(recoveredAt) {
      LaterMonthRecoveryExtends(period, interval, recoveredAt);
    } else {
      CalendarOrder(recoveredAt, period.start);
      ClampedDifference(MonthOf(recoveredAt) + StepMonths(interval), DayOfMonth(recoveredAt), AimedDay(period),
                        TimeInDay(recoveredAt), TimeInDay(period.start));
    }
  }

  /** A period that starts on its anchor loses at most three days, and under one from an unclamped start. */
  lemma RebaseLosesAtMostThreeDays(period: Period, interval: BillingInterval, recoveredAt: int)
    requires OpenedBy(period, interval) && Calendrical(interval) && OnAnchor(period)
    requires FromYear100(period.start) && period.start <= recoveredAt
    ensures EndShift(period, interval, recoveredAt) >= -3 * DAY_MS
    ensures DayOfMonth(period.start) == period.anchor.value ==> EndShift(period, interval, recoveredAt) > -DAY_MS
  {
    hide MonthOf, DayOfMonth, DaysInMonth, EndShift, AddInterval;
    RebaseLossBound(period, interval, recoveredAt);
  }

  /** The documented guarantee fails: 28 February at midnight, anchor 31, recovered at once. */
  lemma ShorteningExample()
    ensures var start := Clamped(12 * 2026 + 1, 28, 0);
            var period := Period(start, Clamped(12 * 2026 + 2, 31, 0), Some(31));
            && OpenedBy(period, BillingInterval(MONTH, 1)) && OnAnchor(period)
            && EndShift(period, BillingInterval(MONTH, 1), start) == -3 * DAY_MS
  {
    hide MonthOf, DayOfMonth, DaysInMonth, AddMonths, TimeInDay, Clamped, EndShift;
    var m := 12 * 2026 + 1;
    assert DaysInMonth(m) == 28 && DaysInMonth(m + 1) == 31 by { FebruaryAndMarch2026(); }
    FieldsOfClamped(m, 28, 0);
    OpenedOnAnchor(m, 28, 31);
    RebasedEnds(Period(Clamped(m, 28, 0), Clamped(m + 1, 31, 0), Some(31)), BillingInterval(MONTH, 1), Clamped(m, 28, 0));
    ClampedDifference(m + 1, 28, 31, 0, 0);
  }

  /** ... and off the anchor it fails by more: started 4 February on anchor 28, recovered on the 12th. */
  lemma OffAnchorExample()
    ensures var start := Clamped(12 * 2026 + 1, 4, 0);
            var period := Period(start, Clamped(12 * 2026 + 2, 28, 0), Some(28));
            && OpenedBy(period, BillingInterval(MONTH, 1)) && !OnAnchor(period)
            && start <= Clamped(12 * 2026 + 1, 12, 0)
            && EndShift(period, BillingInterval(MONTH, 1), Clamped(12 * 2026 + 1, 12, 0)) == -16 * DAY_MS
  {
    hide MonthOf, DayOfMonth, DaysInMonth, AddMonths, TimeInDay, Clamped, EndShift;
    var m := 12 * 2026 + 1;
    assert DaysInMonth(m) == 28 && DaysInMonth(m + 1) == 31 by { FebruaryAndMarch2026(); }
    FieldsOfClamped(m, 4, 0);
    FieldsOfClamped(m, 12, 0);
    CalendarOrder(Clamped(m, 12, 0), Clamped(m, 4, 0));
    OpenedOnAnchor(m, 4, 28);
    RebasedEnds(Period(Clamped(m, 4, 0), Clamped(m + 1, 28, 0), Some(28)), BillingInterval(MONTH, 1), Clamped(m, 12, 0));
    ClampedDifference(m + 1, 12, 28, 0, 0);
  }

  /** A monthly period opened at midnight of a day in month `m` ends on the anchor of the next month. */
  lemma OpenedOnAnchor(m: int, day: AnchorDay, anchor: AnchorDay)
    requires m >= 1200 && day <= DaysInMonth(m)
    ensures OpenedBy(Period(Clamped(m, day, 0), Clamped(m + 1, anchor, 0), Some(anchor)), BillingInterval(MONTH, 1))
    ensures FromYear100(Clamped(m, day, 0))
  {
    hide MonthOf, DayOfMonth, DaysInMonth, AddMonths, TimeInDay, Clamped;
    FieldsOfClamped(m, day, 0);
    AddMonthsClamps(Clamped(m, day, 0), 1, Some(anchor));
    IntervalAdvancesADay(Clamped(m, day, 0), BillingInterval(MONTH, 1), Some(anchor));
  }

  lemma FebruaryAndMarch2026()
    ensures DaysInMonth(12 * 2026 + 1) == 28 && DaysInMonth(12 * 2026 + 2) == 31
  {}

  // -- auditing replayed periods ------------------------------------------------

  /** `metadata.reason` of an invoice that covers a window already under way. */
  datatype InvoiceReason = PlanChange | SeatChange

  datatype AuditedInvoice = AuditedInvoice(createdAt: int, billingPeriodStart: Option<int>, reason: Option<InvoiceReason>)

  predicate IsCatchUpInvoice(invoice: AuditedInvoice, recoveredAt: int, nextRecoveryAt: Option<int>) {
    && invoice.createdAt > recoveredAt
    && !(nextRecoveryAt.Some? && invoice.createdAt >= nextRecoveryAt.value)
    && invoice.billingPeriodStart.Some?
    && invoice.billingPeriodStart.value < recoveredAt
    && invoice.reason.None?
  }

  datatype RecoveryVerdict = AffectedReplaying | AffectedCaughtUp | CleanRebased | CleanInPeriod | NeedsReview

  /** `classifyHistoricalRecovery`: what the row and its audit trail say of a recovery recorded earlier. */
  function ClassifyHistoricalRecovery(markedRebased: bool, periodBeforeEnd: Option<int>, currentPeriodStart: int, recoveredAt: int): RecoveryVerdict {
    if markedRebased then CleanRebased
    else if periodBeforeEnd.None? then NeedsReview
    else if periodBeforeEnd.value > recoveredAt then CleanInPeriod
    else if currentPeriodStart < recoveredAt then AffectedReplaying
    else AffectedCaughtUp
  }
}
