/**
 * The dates a subscription is billed on over its whole life: every window
 * renewals open starts and ends on the day it was first billed on, and none
 * drifts (packages/billing/src/subscriptions.ts).
 */
module Anchors {
  import opened Basics
  import opened Calendar
  import opened Interval
  import opened Recovery
  import opened StateMachine
  import opened Pricing
  import opened Billing
  import opened Cycle
  import Activation
  import InvoiceLines
  import Lifecycle
  import OffAnchor
  import PlanChanges
  import StatusHistory

  /** The `k`-th date of a plan billed from `first` on an anchor day: counted from `first`, never from the date before. */
  function Due(first: int, interval: BillingInterval, day: AnchorDay, k: nat): int {
    if k == 0 then first
    else if Calendrical(interval) then AnchoredDate(first, k * StepMonths(interval), day)
    else first + k * IntervalLength(interval)
  }

  lemma NextMonth(date: int, months: int, step: int, day: AnchorDay)
    requires FromYear100(date) && months >= 0 && step >= 1
    ensures AddMonths(AnchoredDate(date, months, day), step, Some(day)) == AnchoredDate(date, months + step, day)
  {
    hide MonthOf, DayOfMonth, TimeInDay, DaysInMonth, AddMonths, Clamped;
    FieldsOfClamped(MonthOf(date) + months, day, TimeInDay(date));
    AddMonthsClamps(AnchoredDate(date, months, day), step, Some(day));
  }

  /** One interval after a date of the plan is the next one. */
  lemma NextDue(first: int, interval: BillingInterval, day: AnchorDay, k: nat)
    requires ValidInterval(interval) && (Calendrical(interval) ==> FromYear100(first))
    ensures AddInterval(Due(first, interval, day, k), interval, Some(day)) == Ok(Due(first, interval, day, k + 1))
  {
    hide MonthOf, DayOfMonth, TimeInDay, AddMonths, AnchoredDate;
    var step := StepMonths(interval);
    assert (k + 1) * step == k * step + step;
    if Calendrical(interval) {
      if k == 0 {
        AddMonthsIsAnchored(first, step, day);
      } else {
        NextMonth(first, k * step, step, day);
      }
    }
  }

  // -- one renewal ----------------------------------------------------------------------------

  /** A renewal of a trial that is still one and has moved on from the day its anchor was taken from. */
  predicate Reanchors(s: State, op: Op) {
    op.DoRenew? && s.Status() == TRIALING && s.sub.period.anchor != Some(DayOfMonth(s.sub.period.end))
  }

  lemma OpenedPeriod(s: State, price: Economics, flush: seq<UsageEvent>, at: int)
    requires OpenNextPeriod(s, price, flush, at).Ok?
    ensures var anchor := if s.Status() == TRIALING then Some(DayOfMonth(s.sub.period.end)) else s.sub.period.anchor;
            var p := OpenNextPeriod(s, price, flush, at).value.sub.period;
            p.start == s.sub.period.end && p.anchor == anchor && AddInterval(s.sub.period.end, price.interval, anchor) == Ok(p.end)
  {
    hide AddInterval, MeterClosedPeriod, RecurringLines, FinalizeInvoice, DraftInvoice, DayOfMonth;
  }

  /** A renewal opens one interval from the old end, on the anchor, or for a trial on the day it ends. */
  lemma RenewalOpensOnAnchor(s: State, op: Op)
    requires op.DoRenew? && |Step(s, op).invoices| > |s.invoices|
    ensures var anchor := if s.Status() == TRIALING then Some(DayOfMonth(s.sub.period.end)) else s.sub.period.anchor;
            var p := Step(s, op).sub.period;
            p.start == s.sub.period.end && p.anchor == anchor && AddInterval(s.sub.period.end, s.sub.price.interval, anchor) == Ok(p.end)
  {
    hide OpenNextPeriod, AddInterval, DayOfMonth, Billable;
    var price := BillingPrice(s.sub, op.current);
    if OpenNextPeriod(s, price, op.flush, op.at).Ok? { OpenedPeriod(s, price, op.flush, op.at); }
  }

  /** A transaction other than a recovery opens the window after the period, as a renewal, or leaves windows and period alone. */
  lemma WindowsStep(s: State, op: Op, n: nat)
    requires n <= |s.invoices| && !Recovers(s, op)
    ensures var s', ws := Step(s, op), Windows(IssuedSince(s, n));
            && n <= |s'.invoices|
            && ((s'.sub.period == s.sub.period && Windows(IssuedSince(s', n)) == ws)
                || (op.DoRenew? && |s'.invoices| > |s.invoices|
                    && Windows(IssuedSince(s', n)) == ws + [Window(s.sub.period.end, s'.sub.period.end)]))
  {
    hide Try, Windows;
    if Try(s, op).Ok? {
      TryCycle(s, op);
      var s' := Step(s, op);
      if |s'.invoices| > |s.invoices| {
        var last := IssuedOf(s'.invoices)[|s.invoices|];
        assert IssuedSince(s', n) == IssuedSince(s, n) + [last];
        WindowsAppend(IssuedSince(s, n), last);
      }
    }
  }

  // -- whole runs -----------------------------------------------------------------------------

  /** The windows opened since invoice `n` are the plan's, from its date `from` on, and the current period ends on the next. */
  ghost predicate OnPlan(s: State, n: nat, first: int, interval: BillingInterval, day: AnchorDay, from: nat) {
    && n <= |s.invoices| && s.sub.price.interval == interval && s.sub.period.anchor == Some(day)
    && var ws := Windows(IssuedSince(s, n));
       && s.sub.period.end == Due(first, interval, day, from + |ws|)
       && forall k :: 0 <= k < |ws| ==> ws[k] == Window(Due(first, interval, day, from + k), Due(first, interval, day, from + k + 1))
  }

  lemma StepKeepsPlan(s: State, op: Op, n: nat, first: int, interval: BillingInterval, day: AnchorDay, from: nat)
    requires ValidInterval(interval) && (Calendrical(interval) ==> FromYear100(first))
    requires OnPlan(s, n, first, interval, day, from) && !Recovers(s, op) && !op.DoChangePlan? && !Reanchors(s, op)
    ensures OnPlan(Step(s, op), n, first, interval, day, from)
    ensures |Windows(IssuedSince(s, n))| <= |Windows(IssuedSince(Step(s, op), n))|
  {
    hide Step, Windows, IssuedSince, IssuedOf, Due, AddInterval, DayOfMonth, FromYear100, Recovers;
    WindowsStep(s, op, n);
    StepKeepsInterval(s, op);
    if Step(s, op).sub.period != s.sub.period || Windows(IssuedSince(Step(s, op), n)) != Windows(IssuedSince(s, n)) {
      RenewalOpensOnAnchor(s, op);
      NextDue(first, interval, day, from + |Windows(IssuedSince(s, n))|);
    }
  }

  lemma StepKeepsInterval(s: State, op: Op)
    requires !op.DoChangePlan?
    ensures Step(s, op).sub.price.interval == s.sub.price.interval
  {
    hide Try;
    PlanChanges.TermsHold(s, [op]);
    RunOne(s, op);
  }

  /** No renewal of the run re-anchors a trial. */
  predicate NeverReanchors(s: State, ops: seq<Op>) {
    ops == [] || (NeverReanchors(s, ops[..|ops| - 1]) && !Reanchors(Run(s, ops[..|ops| - 1]), ops[|ops| - 1]))
  }

  predicate NoPlanChange(ops: seq<Op>) { forall i :: 0 <= i < |ops| ==> !ops[i].DoChangePlan? }

  lemma {:induction false} RunKeepsPlan(s: State, ops: seq<Op>, n: nat, first: int, interval: BillingInterval, day: AnchorDay, from: nat)
    requires ValidInterval(interval) && (Calendrical(interval) ==> FromYear100(first))
    requires OnPlan(s, n, first, interval, day, from) && NoRecovery(s, ops) && NoPlanChange(ops) && NeverReanchors(s, ops)
    ensures OnPlan(Run(s, ops), n, first, interval, day, from)
    ensures |Windows(IssuedSince(s, n))| <= |Windows(IssuedSince(Run(s, ops), n))|
    decreases |ops|
  {
    hide Step, OnPlan, Recovers, Reanchors, Windows;
    if ops != [] {
      RunKeepsPlan(s, ops[..|ops| - 1], n, first, interval, day, from);
      StepKeepsPlan(Run(s, ops[..|ops| - 1]), ops[|ops| - 1], n, first, interval, day, from);
    }
  }

  /** A subscription that is not a trial never becomes one. */
  lemma {:induction false} NeverTrialingAgain(s: State, ops: seq<Op>)
    requires s.Status() != TRIALING
    ensures Run(s, ops).Status() != TRIALING && NeverReanchors(s, ops)
    decreases |ops|
  {
    hide Try;
    if ops != [] {
      NeverTrialingAgain(s, ops[..|ops| - 1]);
      var before, op := Run(s, ops[..|ops| - 1]), ops[|ops| - 1];
      if Try(before, op).Ok? { Lifecycle.TryMoves(before, op); }
    }
  }

  // -- from signup ----------------------------------------------------------------------------

  /** On the day of its own first date a calendar plan is the anchored date, the first included. */
  lemma DueOnItsOwnDay(first: int, interval: BillingInterval, k: nat)
    ensures Due(first, interval, DayOfMonth(first), k)
            == if Calendrical(interval) then AnchoredDate(first, k * StepMonths(interval), DayOfMonth(first))
               else first + k * IntervalLength(interval)
  {
    hide DayOfMonth, MonthOf, TimeInDay, DaysInMonth, IntervalLength, MakeTime;
    if k == 0 {
      assert k * StepMonths(interval) == 0 && k * IntervalLength(interval) == 0;
      MakeTimeOfFields(first);
    }
  }

  /** The `k`-th window of a plan billed from `first` on its own day of the month. */
  function PlannedWindow(first: int, interval: BillingInterval, k: nat): Window {
    if Calendrical(interval)
    then Window(AnchoredDate(first, k * StepMonths(interval), DayOfMonth(first)),
                AnchoredDate(first, (k + 1) * StepMonths(interval), DayOfMonth(first)))
    else Window(first + k * IntervalLength(interval), first + (k + 1) * IntervalLength(interval))
  }

  ghost predicate AsPlanned(ws: seq<Window>, first: int, interval: BillingInterval) {
    forall k :: 0 <= k < |ws| ==> ws[k] == PlannedWindow(first, interval, k)
  }

  lemma OnPlanIsAsPlanned(s: State, first: int, interval: BillingInterval)
    requires OnPlan(s, 0, first, interval, DayOfMonth(first), 0)
    ensures AsPlanned(Windows(IssuedOf(s.invoices)), first, interval)
    ensures var ws := Windows(IssuedOf(s.invoices)); ws != [] ==> s.sub.period.end == ws[|ws| - 1].end
  {
    hide Windows, Due, DayOfMonth, MonthOf, AnchoredDate, IntervalLength, IssuedOf;
    assert IssuedSince(s, 0) == IssuedOf(s.invoices);
    var ws := Windows(IssuedOf(s.invoices));
    forall k | 0 <= k < |ws| ensures ws[k] == PlannedWindow(first, interval, k) {
      DueOnItsOwnDay(first, interval, k);
      DueOnItsOwnDay(first, interval, k + 1);
    }
    DueOnItsOwnDay(first, interval, |ws|);
  }

  lemma FirstWindow(s: State)
    requires |s.invoices| == 1 && s.invoices[0].reason.None?
    ensures Windows(IssuedSince(s, 0)) == [Window(s.invoices[0].periodStart, s.invoices[0].periodEnd)]
  {
    assert IssuedSince(s, 0) == [] + [IssuedOf(s.invoices)[0]];
    WindowsAppend([], IssuedOf(s.invoices)[0]);
  }

  lemma SignupIsOnPlan(price: Economics, quantity: int, trialDays: int, start: int, policy: Policy, hasMethod: bool, at: int)
    requires trialDays <= 0 && Create(price, quantity, trialDays, start, policy, hasMethod, at).Ok?
    requires Calendrical(price.interval) ==> FromYear100(start)
    ensures var s := Create(price, quantity, trialDays, start, policy, hasMethod, at).value;
            && s.Status() != TRIALING && ValidInterval(price.interval) && |Windows(IssuedSince(s, 0))| == 1
            && OnPlan(s, 0, start, price.interval, DayOfMonth(start), 0)
  {
    hide Create, Windows, DayOfMonth, MonthOf, AddInterval, FromYear100, Due, RecurringAmount;
    Activation.SignupIs(price, quantity, trialDays, start, policy, hasMethod, at);
    FirstWindow(Create(price, quantity, trialDays, start, policy, hasMethod, at).value);
    IntervalIsValid(start, price.interval, Some(DayOfMonth(start)));
    NextDue(start, price.interval, DayOfMonth(start), 0);
    DueStart(start, price.interval);
  }

  /**
   * Billing dates never drift. Over every run without a recovery or a plan
   * change, whatever is swept, renewed by hand, paid, missed, paused or resumed,
   * the `k`-th window of a subscription created without a trial runs from its
   * `k`-th date to its next, both counted from the day it signed up: on that day
   * of the month, clamped to months that are too short, and back on it afterwards.
   */
  lemma NoDriftFromSignup(price: Economics, quantity: int, trialDays: int, start: int, policy: Policy, hasMethod: bool, at: int, ops: seq<Op>)
    requires trialDays <= 0 && Create(price, quantity, trialDays, start, policy, hasMethod, at).Ok?
    requires Calendrical(price.interval) ==> FromYear100(start)
    requires NoRecovery(Create(price, quantity, trialDays, start, policy, hasMethod, at).value, ops) && NoPlanChange(ops)
    ensures var s' := Run(Create(price, quantity, trialDays, start, policy, hasMethod, at).value, ops);
            var ws := Windows(IssuedOf(s'.invoices));
            && |ws| >= 1 && AsPlanned(ws, start, price.interval) && s'.sub.period.end == ws[|ws| - 1].end
  {
    hide Create, Run, OnPlan, NoRecovery, Windows, DayOfMonth, AsPlanned;
    var s := Create(price, quantity, trialDays, start, policy, hasMethod, at).value;
    SignupIsOnPlan(price, quantity, trialDays, start, policy, hasMethod, at);
    NeverTrialingAgain(s, ops);
    RunKeepsPlan(s, ops, 0, start, price.interval, DayOfMonth(start), 0);
    OnPlanIsAsPlanned(Run(s, ops), start, price.interval);
    assert IssuedSince(Run(s, ops), 0) == IssuedOf(Run(s, ops).invoices);
  }

  // -- from a trial ---------------------------------------------------------------------------

  predicate NoRenewal(ops: seq<Op>) { forall i :: 0 <= i < |ops| ==> !ops[i].DoRenew? }

  /** Without renewals nothing moves the period, and no window is opened. */
  lemma {:induction false} NothingOpens(s: State, ops: seq<Op>)
    requires NoRenewal(ops) && NoRecovery(s, ops)
    ensures Run(s, ops).sub.period == s.sub.period && Windows(IssuedSince(Run(s, ops), 0)) == Windows(IssuedSince(s, 0))
    decreases |ops|
  {
    hide Step, Recovers, Windows;
    if ops != [] {
      NothingOpens(s, ops[..|ops| - 1]);
      WindowsStep(Run(s, ops[..|ops| - 1]), ops[|ops| - 1], 0);
    }
  }

  /** The renewal that converts a trial opens the first window of a plan billed from the trial's end. */
  lemma ConversionIsOnPlan(s: State, op: Op, first: int)
    requires s.Status() == TRIALING && s.sub.period.end == first && Windows(IssuedSince(s, 0)) == []
    requires op.DoRenew? && |Step(s, op).invoices| > |s.invoices|
    requires Calendrical(s.sub.price.interval) ==> FromYear100(first)
    ensures ValidInterval(s.sub.price.interval) && |Windows(IssuedSince(Step(s, op), 0))| == 1
    ensures OnPlan(Step(s, op), 0, first, s.sub.price.interval, DayOfMonth(first), 0)
  {
    hide Step, Windows, IssuedSince, IssuedOf, Due, AddInterval, DayOfMonth, FromYear100, Recovers, OnPlan;
    RecoversNot(s, op);
    WindowsStep(s, op, 0);
    StepKeepsInterval(s, op);
    RenewalOpensOnAnchor(s, op);
    IntervalIsValid(first, s.sub.price.interval, Some(DayOfMonth(first)));
    IntervalAdvancesADay(first, s.sub.price.interval, Some(DayOfMonth(first)));
    OneWindowIsOnPlan(Step(s, op), first);
  }

  lemma OneWindowIsOnPlan(s: State, first: int)
    requires var p, interval := s.sub.period, s.sub.price.interval;
             && Windows(IssuedSince(s, 0)) == [Window(first, p.end)] && p.anchor == Some(DayOfMonth(first))
             && AddInterval(first, interval, p.anchor) == Ok(p.end) && ValidInterval(interval)
             && (Calendrical(interval) ==> FromYear100(first))
    ensures OnPlan(s, 0, first, s.sub.price.interval, DayOfMonth(first), 0)
  {
    hide Windows, IssuedSince, Due, AddInterval, DayOfMonth, FromYear100;
    NextDue(first, s.sub.price.interval, DayOfMonth(first), 0);
    DueStart(first, s.sub.price.interval);
  }

  lemma DueStart(first: int, interval: BillingInterval)
    ensures Due(first, interval, DayOfMonth(first), 0) == first
  {}

  lemma RecoversNot(s: State, op: Op)
    requires s.Status() == TRIALING
    ensures !Recovers(s, op)
  {}

  lemma ConvertedTrialKeepsPlan(trial: State, op: Op, first: int, ops: seq<Op>)
    requires trial.Status() == TRIALING && trial.sub.period.end == first && Windows(IssuedSince(trial, 0)) == []
    requires op.DoRenew? && |Step(trial, op).invoices| > |trial.invoices|
    requires NoRecovery(Step(trial, op), ops) && NoPlanChange(ops) && NeverReanchors(Step(trial, op), ops)
    requires Calendrical(trial.sub.price.interval) ==> FromYear100(first)
    ensures var s' := Run(Step(trial, op), ops);
            var ws := Windows(IssuedOf(s'.invoices));
            && |ws| >= 1 && AsPlanned(ws, first, trial.sub.price.interval) && s'.sub.period.end == ws[|ws| - 1].end
  {
    hide Run, Step, OnPlan, NoRecovery, NeverReanchors, NoPlanChange, Windows, DayOfMonth, AsPlanned, FromYear100;
    ConversionIsOnPlan(trial, op, first);
    var converted, interval := Step(trial, op), trial.sub.price.interval;
    RunKeepsPlan(converted, ops, 0, first, interval, DayOfMonth(first), 0);
    OnPlanIsAsPlanned(Run(converted, ops), first, interval);
    assert IssuedSince(Run(converted, ops), 0) == IssuedOf(Run(converted, ops).invoices);
  }

  /**
   * A trial converted by a renewal is billed from the day it ended, whatever
   * went before, and as long as no renewal re-anchors it.
   */
  lemma NoDriftFromTrial(price: Economics, quantity: int, trialDays: int, start: int, policy: Policy, hasMethod: bool, at: int,
                         before: seq<Op>, op: Op, ops: seq<Op>)
    requires trialDays > 0 && Create(price, quantity, trialDays, start, policy, hasMethod, at).Ok?
    requires var s := Create(price, quantity, trialDays, start, policy, hasMethod, at).value;
             var trial := Run(s, before);
             && NoRenewal(before) && NoRecovery(s, before) && trial.Status() == TRIALING
             && op.DoRenew? && |Step(trial, op).invoices| > |trial.invoices|
             && NoRecovery(Step(trial, op), ops) && NoPlanChange(ops) && NeverReanchors(Step(trial, op), ops)
             && (Calendrical(trial.sub.price.interval) ==> FromYear100(start + trialDays * DAY_MS))
    ensures var trial := Run(Create(price, quantity, trialDays, start, policy, hasMethod, at).value, before);
            var s' := Run(Step(trial, op), ops);
            var ws := Windows(IssuedOf(s'.invoices));
            && |ws| >= 1 && AsPlanned(ws, start + trialDays * DAY_MS, trial.sub.price.interval) && s'.sub.period.end == ws[|ws| - 1].end
  {
    hide Create, Run, Step, OnPlan, NoRecovery, NoRenewal, NeverReanchors, NoPlanChange, Windows, DayOfMonth, AsPlanned, FromYear100;
    var s, first := Create(price, quantity, trialDays, start, policy, hasMethod, at).value, start + trialDays * DAY_MS;
    Activation.SignupIs(price, quantity, trialDays, start, policy, hasMethod, at);
    NothingOpens(s, before);
    assert IssuedSince(s, 0) == [];
    NoWindows();
    ConvertedTrialKeepsPlan(Run(s, before), op, first, ops);
  }

  // -- a trial renewed twice --------------------------------------------------------------------

  lemma SameClampedDay(m: int, day: AnchorDay, day': AnchorDay, timeInDay: int)
    ensures Clamped(m, day, timeInDay) == Clamped(m, day', timeInDay) <==> Min(day, DaysInMonth(m)) == Min(day', DaysInMonth(m))
  {
    hide MonthStart, DaysInMonth;
  }

  /**
   * A trial renewed again before its first charge is decided takes its anchor
   * anew, from the date it has come to. That date is the plan's; the next is
   * not, exactly when the month it falls in is long enough to tell the clamped
   * day from the day the trial ended on.
   */
  lemma SecondTrialRenewalDriftsExactlyWhen(s: State, op: Op, first: int, k: nat)
    requires s.Status() == TRIALING && Calendrical(s.sub.price.interval) && FromYear100(first) && k >= 1
    requires s.sub.period.end == AnchoredDate(first, k * StepMonths(s.sub.price.interval), DayOfMonth(first))
    requires op.DoRenew? && |Step(s, op).invoices| > |s.invoices|
    ensures var step := StepMonths(s.sub.price.interval);
            var length := DaysInMonth(MonthOf(first) + (k + 1) * step);
            && Step(s, op).sub.period.anchor == Some(DayOfMonth(s.sub.period.end))
            && (Step(s, op).sub.period.end == AnchoredDate(first, (k + 1) * step, DayOfMonth(first))
                <==> Min(DayOfMonth(s.sub.period.end), length) == Min(DayOfMonth(first), length))
  {
    hide Try, MonthOf, DayOfMonth, TimeInDay, DaysInMonth, Clamped, AddMonths;
    var step, day := StepMonths(s.sub.price.interval), DayOfMonth(first);
    RenewalOpensOnAnchor(s, op);
    assert (k + 1) * step == k * step + step;
    FieldsOfClamped(MonthOf(first) + k * step, day, TimeInDay(first));
    IntervalIsValid(s.sub.period.end, s.sub.price.interval, Some(DayOfMonth(s.sub.period.end)));
    AddMonthsClamps(s.sub.period.end, step, Some(DayOfMonth(s.sub.period.end)));
    SameClampedDay(MonthOf(first) + (k + 1) * step, day, DayOfMonth(s.sub.period.end), TimeInDay(first));
  }

  /** Signed up on 24 January 2026 for a week's trial that can be charged. */
  function TrialToMonthEnd(): Result<State> {
    Create(OffAnchor.MONTHLY, 1, 7, Clamped(OffAnchor.JANUARY, 24, 0), Policy(0, MARK_UNPAID, 0), true, 0)
  }

  lemma MonthLater(m: int, day: AnchorDay, anchor: AnchorDay)
    requires m >= 1200 && day <= DaysInMonth(m)
    ensures AddInterval(Clamped(m, day, 0), BillingInterval(MONTH, 1), Some(anchor)) == Ok(Clamped(m + 1, anchor, 0))
  {
    hide MonthOf, DayOfMonth, TimeInDay, DaysInMonth, Clamped, AddMonths;
    FieldsOfClamped(m, day, 0);
    AddMonthsClamps(Clamped(m, day, 0), 1, Some(anchor));
  }

  lemma WeekToMonthEnd()
    ensures Clamped(OffAnchor.JANUARY, 24, 0) + 7 * DAY_MS == Clamped(OffAnchor.JANUARY, 31, 0)
    ensures Clamped(OffAnchor.JANUARY + 1, 31, 0) == Clamped(OffAnchor.JANUARY + 1, 28, 0)
    ensures Clamped(OffAnchor.JANUARY + 2, 28, 0) < Clamped(OffAnchor.JANUARY + 2, 31, 0)
  {
    hide MonthStart, DaysInMonth;
    OffAnchor.January2026();
  }

  /**
   * A trial that ends on 31 January and is still waiting for its first charge at
   * the end of February is billed on the 28th from then on: the second renewal
   * ends on 28 March, where the plan from the trial's end has 31 March.
   */
  lemma PendingTrialDrifts(now: int, at: int)
    ensures TrialToMonthEnd().Ok?
    ensures var s := TrialToMonthEnd().value;
            var twice := Run(s, [OffAnchor.ManualRenewal(now, at), OffAnchor.ManualRenewal(now, at)]);
            var first := Clamped(OffAnchor.JANUARY, 31, 0);
            && twice.Status() == TRIALING && s.sub.period.end == first
            && twice.sub.period == Period(Clamped(OffAnchor.JANUARY + 1, 28, 0), Clamped(OffAnchor.JANUARY + 2, 28, 0), Some(28))
            && twice.sub.period.end < Due(first, BillingInterval(MONTH, 1), DayOfMonth(first), 2)
  {
    hide Run, Step, Clamped, DayOfMonth, MonthOf, TimeInDay, DaysInMonth, AddInterval, RecurringAmount;
    var renewal, january := OffAnchor.ManualRenewal(now, at), OffAnchor.JANUARY;
    WeekToMonthEnd();
    OffAnchor.January2026();
    OffAnchor.TrialIsNew(OffAnchor.MONTHLY, 1, 7, Clamped(january, 24, 0), Policy(0, MARK_UNPAID, 0), true, 0);
    var s := TrialToMonthEnd().value;
    RunTwo(s, renewal, renewal);
    FieldsOfClamped(january, 31, 0);
    FieldsOfClamped(january + 1, 28, 0);
    MonthlyAmount();
    OffAnchor.Renews(s, now, at);
    OffAnchor.Renews(Step(s, renewal), now, at);
    MonthLater(january, 31, 31);
    MonthLater(january + 1, 28, 28);
  }

  lemma MonthlyAmount()
    ensures RecurringAmount(OffAnchor.MONTHLY, 1).Ok? && Billable(OffAnchor.MONTHLY)
  {}
}
