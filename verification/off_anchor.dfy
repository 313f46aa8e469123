/**
 * How a subscription comes to a period that does not start on its anchor day,
 * and what a recovery from UNPAID then costs it, as runs of transactions.
 */
module OffAnchor {
  import opened Basics
  import opened Calendar
  import opened Interval
  import opened Money
  import opened StateMachine
  import opened Recovery
  import opened Pricing
  import opened Billing
  import opened Lifecycle
  import InvoiceLines
  import StatusHistory

  /** The trial is paused, resumed and renewed. */
  function PausedTrial(now: int, at: int): seq<Op> {
    [DoPause, DoResume(now)] + [ManualRenewal(now, at)]
  }

  function ManualRenewal(now: int, at: int): Op { DoRenew(now, false, None, [], false, at) }

  /** The state of a trial that has just been created. */
  function NewTrial(price: Economics, quantity: int, trialDays: int, start: int, policy: Policy, hasMethod: bool, at: int): State {
    State(StatusHistory.Begin(TRIALING),
          NewSubscription(price, quantity, Period(start, start + trialDays * DAY_MS, Some(DayOfMonth(start))), true, hasMethod, at),
          [], [], [], [], policy, [], [])
  }

  lemma TrialIsNew(price: Economics, quantity: int, trialDays: int, start: int, policy: Policy, hasMethod: bool, at: int)
    requires trialDays > 0 && Create(price, quantity, trialDays, start, policy, hasMethod, at).Ok?
    ensures Create(price, quantity, trialDays, start, policy, hasMethod, at) == Ok(NewTrial(price, quantity, trialDays, start, policy, hasMethod, at))
    ensures Billable(price)
  {
    hide DayOfMonth, Billable, AddInterval, RecurringLines;
  }

  lemma PausedAndResumed(s: State, now: int)
    requires s.Status() == TRIALING
    ensures var resumed := Run(s, [DoPause, DoResume(now)]);
            resumed == s.(history := resumed.history) && resumed.Status() == ACTIVE
  {
    hide Run;
    RunTwo(s, DoPause, DoResume(now));
  }

  /** What a renewal of an unmetered price opens and charges. */
  lemma Renews(s: State, now: int, at: int)
    requires s.Status() in {ACTIVE, TRIALING} && !s.sub.cancelAtPeriodEnd && s.sub.hasMethod
    requires Billable(s.sub.price) && RecurringAmount(s.sub.price, s.sub.quantity).Ok? && ValidInterval(s.sub.price.interval)
    ensures var s' := Step(s, ManualRenewal(now, at));
            && s'.Status() == s.Status()
            && s'.sub.period == Period(s.sub.period.end, AddInterval(s.sub.period.end, s.sub.price.interval, RenewalAnchor(s)).value, RenewalAnchor(s))
            && s'.sub == s.sub.(period := s'.sub.period) && s'.policy == s.policy && s'.attempts == s.attempts
            && |s'.invoices| == |s.invoices| + 1
            && (s.sub.price.usageMeter.None? ==> Charges(s'.invoices[|s.invoices|], RecurringAmount(s.sub.price, s.sub.quantity).value))
  {
    hide OpenNextPeriod, RecurringAmount, Billable, AddInterval, RenewalAnchor;
    OpensUnmetered(s, at);
  }

  /** An issued invoice that charges this much, none of it paid. */
  predicate Charges(inv: Invoice, total: int) {
    total > 0 ==> inv.status == Open && inv.total == inv.amountDue == total && inv.amountPaid == 0
  }

  lemma OpensUnmetered(s: State, at: int)
    requires RecurringAmount(s.sub.price, s.sub.quantity).Ok? && ValidInterval(s.sub.price.interval)
    ensures var r := OpenNextPeriod(s, s.sub.price, [], at);
            && r.Ok? && r.value.history == s.history && r.value.policy == s.policy && r.value.attempts == s.attempts
            && r.value.sub == s.sub.(period := Period(s.sub.period.end, AddInterval(s.sub.period.end, s.sub.price.interval, RenewalAnchor(s)).value, RenewalAnchor(s)))
            && |r.value.invoices| == |s.invoices| + 1
            && (s.sub.price.usageMeter.None? ==> Charges(r.value.invoices[|s.invoices|], RecurringAmount(s.sub.price, s.sub.quantity).value))
  {
    hide AddInterval, RecurringLines, RecurringAmount, RenewalAnchor, InvoiceLines.LinesTotal, InsertEvents, PeriodUsage, UsageLines, UsageSnapshot;
    var end := AddInterval(s.sub.period.end, s.sub.price.interval, RenewalAnchor(s));
    ValidIntervalAdds(s.sub.period.end, s.sub.price.interval, RenewalAnchor(s));
    RecurringLinesTotal(s.sub.price, s.sub.quantity, s.sub.period.end, end.value);
    var lines := RecurringLines(s.sub.price, s.sub.quantity, s.sub.period.end, end.value).value;
    assert lines + [] == lines;
  }

  /**
   * A trial renewed straight away takes its anchor from the day it ends. One
   * that was paused and resumed is ACTIVE by then and keeps the signup's day, so
   * its first paid period is off its anchor unless the two days agree.
   */
  lemma PauseKeepsSignupAnchor(price: Economics, quantity: int, trialDays: int, start: int, policy: Policy, at: int, now: int)
    requires trialDays > 0 && Create(price, quantity, trialDays, start, policy, true, at).Ok?
    requires RecurringAmount(price, quantity).Ok? && ValidInterval(price.interval)
    ensures var s := Create(price, quantity, trialDays, start, policy, true, at).value;
            var trialEnd, direct, paused := s.sub.period.end, Step(s, ManualRenewal(now, at)), Run(s, PausedTrial(now, at));
            && direct.sub.period == Period(trialEnd, AddInterval(trialEnd, price.interval, Some(DayOfMonth(trialEnd))).value, Some(DayOfMonth(trialEnd)))
            && paused.sub.period == Period(trialEnd, AddInterval(trialEnd, price.interval, Some(DayOfMonth(start))).value, Some(DayOfMonth(start)))
            && paused.Status() == ACTIVE && OpenedBy(paused.sub.period, price.interval)
            && (OnAnchor(paused.sub.period) <==> DayOfMonth(trialEnd) == Min(DayOfMonth(start), DaysInMonth(MonthOf(trialEnd))))
  {
    hide Create, Run, Step, AddInterval, RecurringAmount, Billable, DayOfMonth, DaysInMonth, MonthOf;
    TrialIsNew(price, quantity, trialDays, start, policy, true, at);
    var s := NewTrial(price, quantity, trialDays, start, policy, true, at);
    PausedAndResumed(s, now);
    RunMore(s, [DoPause, DoResume(now)], ManualRenewal(now, at));
    Renews(s, now, at);
    Renews(Run(s, [DoPause, DoResume(now)]), now, at);
    ValidIntervalAdds(s.sub.period.end, price.interval, Some(DayOfMonth(start)));
  }

  /** ... and its first invoice is waiting to be collected. */
  lemma PausedTrialOwes(price: Economics, quantity: int, trialDays: int, start: int, policy: Policy, at: int, now: int, chargedAt: int)
    requires trialDays > 0 && Create(price, quantity, trialDays, start, policy, true, at).Ok?
    requires RecurringAmount(price, quantity).Ok? && RecurringAmount(price, quantity).value > 0
    requires ValidInterval(price.interval) && price.usageMeter.None?
    ensures var paused := Run(Create(price, quantity, trialDays, start, policy, true, at).value, PausedTrial(now, at));
            paused.sub.price == price && paused.policy == policy && Collectable(paused, 0, chargedAt)
  {
    hide Create, Run, Step, AddInterval, RecurringAmount, Billable, DayOfMonth;
    TrialIsNew(price, quantity, trialDays, start, policy, true, at);
    var s := NewTrial(price, quantity, trialDays, start, policy, true, at);
    PausedAndResumed(s, now);
    RunMore(s, [DoPause, DoResume(now)], ManualRenewal(now, at));
    Renews(Run(s, [DoPause, DoResume(now)]), now, at);
  }

  lemma ValidIntervalAdds(date: int, interval: BillingInterval, anchor: Option<AnchorDay>)
    requires ValidInterval(interval)
    ensures AddInterval(date, interval, anchor).Ok? && date < AddInterval(date, interval, anchor).value
  {
    IntervalAdvancesADay(date, interval, anchor);
  }

  /** An invoice is attempted, the charge is in doubt, the collection fails, and grace runs out. */
  function Lapse(s: State, k: nat, at: int): seq<Op> {
    [DoReadQuote(k), DoOpenAttempt(|s.quotes|, at)]
    + [DoFailInvoice(k, at), DoSelectGrace(at + s.policy.gracePeriodDays * DAY_MS), DoCloseGrace(|s.selections|)]
  }

  /** The charge turns out to have succeeded. */
  function LateSuccess(s: State, k: nat, paidAt: int): Op
    requires k < |s.invoices|
  {
    DoApplyResult(|s.attempts|, PaymentResult(Succeeded, s.invoices[k].amountDue, s.invoices[k].currency, Some(paidAt), false), paidAt)
  }

  lemma Fails(s: State, k: nat, at: int)
    requires s.Status() in {ACTIVE, TRIALING} && k < |s.invoices|
    ensures var s' := Step(s, DoFailInvoice(k, at));
            s'.Status() == GRACE_PERIOD
            && s' == s.(history := s'.history, sub := s.sub.(grace := Some(OpenGracePeriod(s.policy, at))))
  {}

  lemma Closes(s: State, now: int)
    requires s.Status() == GRACE_PERIOD && s.sub.grace.Some? && s.sub.grace.value.end <= now
    ensures var selected := Step(s, DoSelectGrace(now));
            var s' := Step(selected, DoCloseGrace(|s.selections|));
            s'.Status() == StatusForFailureAction(s.sub.grace.value.policy.failureAction)
            && s' == s.(history := s'.history, selections := s'.selections)
  {}

  lemma Lapsing(s: State, k: nat, at: int)
    requires s.Status() in {ACTIVE, TRIALING} && k < |s.invoices| && s.policy.failureAction == MARK_UNPAID
    ensures var lapsed := Run(s, [DoFailInvoice(k, at), DoSelectGrace(at + s.policy.gracePeriodDays * DAY_MS), DoCloseGrace(|s.selections|)]);
            && lapsed.Status() == UNPAID && lapsed.sub.period == s.sub.period && lapsed.sub.price == s.sub.price
            && lapsed.invoices == s.invoices && lapsed.attempts == s.attempts
  {
    hide Run, Step;
    var end := at + s.policy.gracePeriodDays * DAY_MS;
    RunThree(s, DoFailInvoice(k, at), DoSelectGrace(end), DoCloseGrace(|s.selections|));
    Fails(s, k, at);
    Closes(Step(s, DoFailInvoice(k, at)), end);
  }

  /**
   * Any active or trialing subscription with a collectable invoice, in whatever
   * period, can lapse and recover, at any moment, rebased on the payment.
   */
  lemma LapseThenRecover(s: State, k: nat, at: int, paidAt: int)
    requires s.Status() in {ACTIVE, TRIALING} && s.policy.failureAction == MARK_UNPAID && Collectable(s, k, at)
    requires ValidInterval(s.sub.price.interval)
    ensures var lapsed := Run(s, Lapse(s, k, at));
            var recovered := Step(lapsed, LateSuccess(s, k, paidAt));
            && lapsed.Status() == UNPAID && lapsed.sub.period == s.sub.period
            && recovered.Status() == ACTIVE && recovered.sub.period.start == paidAt
            && recovered.sub.period.end == s.sub.period.end + EndShift(s.sub.period, s.sub.price.interval, paidAt)
  {
    hide Run, Step, EndShift, PlanPaymentRecovery, FinalizeInvoice;
    AttemptOpens(s, k, at);
    var begun := Run(s, [DoReadQuote(k), DoOpenAttempt(|s.quotes|, at)]);
    RunAppend(s, [DoReadQuote(k), DoOpenAttempt(|s.quotes|, at)],
              [DoFailInvoice(k, at), DoSelectGrace(at + s.policy.gracePeriodDays * DAY_MS), DoCloseGrace(|s.selections|)]);
    Lapsing(begun, k, at);
    RebasedPlan(s.sub.period, s.sub.price.interval, paidAt);
    SettlingRecovers(Run(s, Lapse(s, k, at)), |s.attempts|, k, LateSuccess(s, k, paidAt).result, paidAt);
  }

  lemma RebasedPlan(period: Period, interval: BillingInterval, paidAt: int)
    requires ValidInterval(interval)
    ensures var plan := PlanPaymentRecovery(UNPAID, period, interval, paidAt);
            plan.Ok? && plan.value.period.start == paidAt && plan.value.period.end == period.end + EndShift(period, interval, paidAt)
  {
    hide DayOfMonth, AddMonths;
  }

  lemma SettlingRecovers(s: State, a: nat, k: nat, result: PaymentResult, paidAt: int)
    requires s.Status() == UNPAID && a < |s.attempts| && k < |s.invoices| && s.attempts[a] == Attempt(k, result.amount, Processing, s.attempts[a].createdAt)
    requires s.invoices[k].status == Open && result.amount == s.invoices[k].total - s.invoices[k].amountPaid
    requires result.status == Succeeded && result.currency == s.invoices[k].currency && result.paidAt == Some(paidAt)
    requires PlanPaymentRecovery(UNPAID, s.sub.period, s.sub.price.interval, paidAt).Ok?
    ensures var s' := Step(s, DoApplyResult(a, result, paidAt));
            && s'.Status() == ACTIVE
            && s'.sub.period == PlanPaymentRecovery(UNPAID, s.sub.period, s.sub.price.interval, paidAt).value.period
  {
    hide RecordPayment, FailInvoice, PlanPaymentRecovery;
    RecordingRecovers(s.(attempts := s.attempts[a := s.attempts[a].(status := Succeeded)]), a, k, result, paidAt);
  }

  lemma RecordingRecovers(s: State, a: nat, k: nat, result: PaymentResult, paidAt: int)
    requires s.Status() == UNPAID && k < |s.invoices|
    requires s.invoices[k].status == Open && result.amount == s.invoices[k].total - s.invoices[k].amountPaid && result.paidAt == Some(paidAt)
    requires PlanPaymentRecovery(UNPAID, s.sub.period, s.sub.price.interval, paidAt).Ok?
    ensures var r := RecordPayment(s, a, k, result, paidAt);
            r.Ok? && r.value.Status() == ACTIVE
            && r.value.sub.period == PlanPaymentRecovery(UNPAID, s.sub.period, s.sub.price.interval, paidAt).value.period
  {
    hide Recover;
    var paid := PayInvoice(s.invoices[k], result.amount).value;
    RecoverOpens(s.(invoices := s.invoices[k := paid],
                    credits := s.credits + [Credit(a, k, result.amount)],
                    sub := s.sub.(hasMethod := s.sub.hasMethod || result.savesMethod)), paidAt);
  }

  lemma RecoverOpens(s: State, paidAt: int)
    requires s.Status() == UNPAID && PlanPaymentRecovery(UNPAID, s.sub.period, s.sub.price.interval, paidAt).Ok?
    ensures var r := Recover(s, paidAt);
            r.Ok? && r.value.Status() == ACTIVE
            && r.value.sub.period == PlanPaymentRecovery(UNPAID, s.sub.period, s.sub.price.interval, paidAt).value.period
  {
    hide AddInterval;
  }

  // -- one such life ------------------------------------------------------------------------------

  const MONTHLY := Economics(FLAT_RECURRING, NGN, Some(500_000), BillingInterval(MONTH, 1), None, None, None, None, None)

  const JANUARY := 12 * 2026

  function SignedUp(): Result<State> {
    Create(MONTHLY, 1, 7, Clamped(JANUARY, 28, 0), Policy(0, MARK_UNPAID, 0), true, 0)
  }

  lemma January2026()
    ensures DaysInMonth(JANUARY) == 31 && DaysInMonth(JANUARY + 1) == 28 && DaysInMonth(JANUARY + 2) == 31
  {}

  lemma TrialEndsInFebruary()
    ensures Clamped(JANUARY, 28, 0) + 7 * DAY_MS == Clamped(JANUARY + 1, 4, 0)
  {
    hide MonthStart, DaysInMonth;
    January2026();
    MonthStartStep(JANUARY);
  }

  /**
   * Signed up on 28 January 2026 with a seven-day trial, paused and resumed,
   * billed on 4 February, lapsed, and paid on the 12th: the payment moves the
   * period's end from 28 March to 12 March.
   */
  lemma RecoveryCanCostSixteenDays()
    ensures SignedUp().Ok? && Created(SignedUp().value)
    ensures var due, paidAt := Clamped(JANUARY + 1, 4, 0), Clamped(JANUARY + 1, 12, 0);
            var paused := Run(SignedUp().value, PausedTrial(due, 0));
            var lapsed := Run(paused, Lapse(paused, 0, due));
            && 0 < |paused.invoices|
            && var recovered := Step(lapsed, LateSuccess(paused, 0, paidAt));
               && lapsed.Status() == UNPAID && recovered.Status() == ACTIVE
               && recovered.sub.period.end == lapsed.sub.period.end - 16 * DAY_MS
  {
    hide Run, Step, Lapse, PausedTrial, Clamped, EndShift, DayOfMonth, MonthOf, DaysInMonth, AddInterval;
    var start, due, paidAt := Clamped(JANUARY, 28, 0), Clamped(JANUARY + 1, 4, 0), Clamped(JANUARY + 1, 12, 0);
    January2026();
    TrialEndsInFebruary();
    FieldsOfClamped(JANUARY, 28, 0);
    PauseKeepsSignupAnchor(MONTHLY, 1, 7, start, Policy(0, MARK_UNPAID, 0), 0, due);
    PausedTrialOwes(MONTHLY, 1, 7, start, Policy(0, MARK_UNPAID, 0), 0, due, due);
    var paused := Run(SignedUp().value, PausedTrial(due, 0));
    EndsOnTheAnchor();
    LapseThenRecover(paused, 0, due, paidAt);
    OffAnchorExample();
  }

  lemma EndsOnTheAnchor()
    ensures AddInterval(Clamped(JANUARY + 1, 4, 0), BillingInterval(MONTH, 1), Some(28)) == Ok(Clamped(JANUARY + 2, 28, 0))
  {
    hide MonthOf, DayOfMonth, Clamped, AddMonths, DaysInMonth;
    January2026();
    FieldsOfClamped(JANUARY + 1, 4, 0);
    AddMonthsClamps(Clamped(JANUARY + 1, 4, 0), 1, Some(28));
  }
}
