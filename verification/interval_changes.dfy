/**
 * Plan changes that change the billing interval: the period stays as it was, and
 * a recovery from UNPAID then opens one of the new length in its place.
 */
module IntervalChanges {
  import opened Basics
  import opened Calendar
  import opened Interval
  import opened Money
  import opened StateMachine
  import opened Recovery
  import opened Pricing
  import opened Billing
  import opened PlanChanges
  import opened OffAnchor
  import InvoiceLines
  import Proration
  import StatusHistory

  /** An immediate plan change moves the price and leaves the period, the status and earlier invoices alone. */
  lemma ChangeKeepsPeriod(s: State, change: Op)
    requires change.DoChangePlan? && Try(s, change).Ok? && !Deferred(s, change)
    ensures var s' := Step(s, change);
            && s'.sub.price == change.newPrice && s'.sub.period == s.sub.period && s'.Status() == s.Status()
            && s'.policy == s.policy && s.invoices <= s'.invoices
  {
    hide RecurringAmount, Proration.Prorate, Billable, FinalizeInvoice, DraftInvoice;
  }

  /**
   * After a change to a day or week price, a lapse and a late payment end the
   * period one new interval after the payment: earlier than the period that was
   * running exactly when the payment comes earlier than that before its end.
   */
  lemma RecoveryAfterChange(s: State, change: Op, k: nat, at: int, paidAt: int)
    requires s.Status() in {ACTIVE, TRIALING} && s.policy.failureAction == MARK_UNPAID
    requires change.DoChangePlan? && Try(s, change).Ok? && !Deferred(s, change)
    requires ValidInterval(change.newPrice.interval) && !Calendrical(change.newPrice.interval)
    requires Collectable(Step(s, change), k, at)
    ensures var changed := Step(s, change);
            var recovered := Step(Run(changed, Lapse(changed, k, at)), LateSuccess(changed, k, paidAt));
            && recovered.Status() == ACTIVE
            && recovered.sub.period.end == paidAt + IntervalLength(change.newPrice.interval)
            && (recovered.sub.period.end < s.sub.period.end <==> paidAt < s.sub.period.end - IntervalLength(change.newPrice.interval))
  {
    hide Run, Step, Lapse, EndShift, Deferred, IntervalLength;
    ChangeKeepsPeriod(s, change);
    var changed := Step(s, change);
    LapseThenRecover(changed, k, at, paidAt);
    DayAndWeekShift(changed.sub.period, changed.sub.price.interval, paidAt);
  }

  // -- one such life ------------------------------------------------------------------------------

  function Flat(amount: int, days: int): Economics {
    Economics(FLAT_RECURRING, NGN, Some(amount), BillingInterval(DAY, days), None, None, None, None, None)
  }

  const YEAR_MS: int := 365 * DAY_MS

  /** A free plan for 365 days, active at once. */
  function FreeYear(): Result<State> { Create(Flat(0, 365), 1, 0, 0, Policy(0, MARK_UNPAID, 0), true, 0) }

  const ToMonthly := DoChangePlan(Flat(300_000, 30), None, Some(IMMEDIATE), 0, 0)

  lemma FreeYearIsActive()
    ensures FreeYear().Ok? && Created(FreeYear().value)
    ensures var s := FreeYear().value;
            && s.Status() == ACTIVE && s.sub.price == Flat(0, 365) && s.sub.quantity == 1
            && s.sub.period.start == 0 && s.sub.period.end == YEAR_MS
            && s.policy == Policy(0, MARK_UNPAID, 0) && |s.invoices| == 1 && s.attempts == []
  {
    hide DayOfMonth, MonthOf, InvoiceLines.LinesTotal;
    RecurringLinesTotal(Flat(0, 365), 1, 0, YEAR_MS);
  }

  lemma WholeCharge()
    ensures Proration.Prorate(0, YEAR_MS, 0, Proration.Cash(0, NGN), Proration.Cash(300_000, NGN)).Ok?
    ensures var r := Proration.Prorate(0, YEAR_MS, 0, Proration.Cash(0, NGN), Proration.Cash(300_000, NGN)).value;
            InvoiceLines.LinesTotal(r.lines) == 300_000 && r.lines != []
  {
    hide InvoiceLines.LinesTotal;
    Proration.ProrationLinesTotal(0, 300_000, 0, YEAR_MS);
  }

  lemma DecidedAtOnce()
    ensures FreeYear().Ok?
    ensures var s := FreeYear().value;
            var move := DecidePlanChange(s, Flat(300_000, 30), None, Some(IMMEDIATE), 0);
            && move.Ok? && move.value.AtOnce? && move.value.lines != [] && InvoiceLines.LinesTotal(move.value.lines) == 300_000
            && !Deferred(s, ToMonthly)
  {
    hide FreeYear, DayOfMonth, Proration.Prorate, InvoiceLines.LinesTotal, Rounded;
    FreeYearIsActive();
    WholeCharge();
  }

  lemma ChangeIsMove(s: State, op: Op)
    requires op.DoChangePlan?
    requires var move := DecidePlanChange(s, op.newPrice, op.quantity, op.timing, op.now); move.Ok? && move.value.AtOnce?
    ensures var move := DecidePlanChange(s, op.newPrice, op.quantity, op.timing, op.now).value;
            && Try(s, op) == Ok(MoveToPlan(s, op.newPrice, move.quantity, move.lines, op.now, op.at))
            && Step(s, op) == MoveToPlan(s, op.newPrice, move.quantity, move.lines, op.now, op.at)
  {
    hide DecidePlanChange, MoveToPlan;
  }

  lemma MoveBills(s: State, price: Economics, quantity: int, lines: seq<InvoiceLines.Line>, now: int, at: int)
    requires lines != [] && InvoiceLines.LinesTotal(lines) > 0 && s.attempts == []
    ensures Collectable(MoveToPlan(s, price, quantity, lines, now, at), |s.invoices|, at)
  {
    hide InvoiceLines.LinesTotal;
  }

  lemma ChangeBillsTheYear()
    ensures FreeYear().Ok?
    ensures var s := FreeYear().value;
            Try(s, ToMonthly).Ok? && !Deferred(s, ToMonthly) && Collectable(Step(s, ToMonthly), 1, 0)
  {
    hide FreeYear, Try, Step, DecidePlanChange, MoveToPlan, Deferred, Collectable, InvoiceLines.LinesTotal;
    FreeYearIsActive();
    DecidedAtOnce();
    var s := FreeYear().value;
    var move := DecidePlanChange(s, Flat(300_000, 30), None, Some(IMMEDIATE), 0).value;
    ChangeIsMove(s, ToMonthly);
    MoveBills(s, Flat(300_000, 30), move.quantity, move.lines, 0, 0);
  }

  /**
   * A free plan of 365 days, changed at once to a 30-day price, lapsed and paid
   * within 100 days: the payment ends the running period at least 235 days early.
   */
  lemma RecoveryCanCostMonths(paidAt: int)
    requires 0 <= paidAt <= 100 * DAY_MS
    ensures FreeYear().Ok? && Created(FreeYear().value)
    ensures var changed := Step(FreeYear().value, ToMonthly);
            && 1 < |changed.invoices|
            && var lapsed := Run(changed, Lapse(changed, 1, 0));
               var recovered := Step(lapsed, LateSuccess(changed, 1, paidAt));
               && lapsed.Status() == UNPAID && recovered.Status() == ACTIVE
               && recovered.sub.period.end <= lapsed.sub.period.end - 235 * DAY_MS
  {
    hide FreeYear, Created, Run, Step, Lapse, Try, Deferred, EndShift;
    FreeYearIsActive();
    ChangeBillsTheYear();
    ChangeKeepsPeriod(FreeYear().value, ToMonthly);
    RecoveryAfterChange(FreeYear().value, ToMonthly, 1, 0, paidAt);
    LapseThenRecover(Step(FreeYear().value, ToMonthly), 1, 0, paidAt);
  }
}
