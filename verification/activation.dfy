/**
 * What a payment does for a subscription, from every status, and how a signup
 * comes to be active (packages/billing/src/payments.ts, subscriptions.ts).
 */
module Activation {
  import opened Basics
  import opened Calendar
  import opened StateMachine
  import opened Billing
  import opened Ledger
  import opened Lifecycle
  import opened Interval
  import opened Pricing
  import InvoiceLines
  import Overpayment
  import Recovery
  import StatusHistory

  /** A period of one interval from a payment, a calendar one on the payment's day. */
  predicate RebasedOn(period: Recovery.Period, sub: Subscription, paidAt: int) {
    && period.start == paidAt
    && period.anchor == (if sub.price.interval.unit in {MONTH, YEAR} then Some(DayOfMonth(paidAt)) else sub.period.anchor)
    && AddInterval(paidAt, sub.price.interval, period.anchor) == Ok(period.end)
  }

  /** What a payment in full does to the subscription it is for. */
  lemma RecoverOutcome(s: State, recoveredAt: int)
    requires s.Status() == UNPAID ==> ValidInterval(s.sub.price.interval)
    ensures Recover(s, recoveredAt).Ok?
    ensures var s' := Recover(s, recoveredAt).value;
            && (s.Status() in {INCOMPLETE, TRIALING, PAST_DUE, GRACE_PERIOD, UNPAID} ==>
                  s'.Status() == ACTIVE && s'.sub.grace.None?)
            && (s.Status() in {ACTIVE, PAUSED, CANCELED, EXPIRED} ==> s' == s)
            && (s.Status() != UNPAID ==> s'.sub.period == s.sub.period)
            && (s.Status() == UNPAID ==> RebasedOn(s'.sub.period, s.sub, recoveredAt))
            && s' == s.(history := s'.history, sub := s.sub.(grace := s'.sub.grace, period := s'.sub.period))
  {
    hide AddMonths, DayOfMonth;
  }

  lemma RecordOutcome(s: State, k: nat, invoice: nat, result: PaymentResult, at: int)
    requires invoice < |s.invoices| && PayInvoice(s.invoices[invoice], result.amount).Ok?
    requires PayInvoice(s.invoices[invoice], result.amount).value.status == Paid
    requires s.Status() == UNPAID ==> ValidInterval(s.sub.price.interval)
    ensures RecordPayment(s, k, invoice, result, at).Ok?
    ensures var s' := RecordPayment(s, k, invoice, result, at).value;
            && s'.Status() == (if s.Status() in {PAUSED, CANCELED, EXPIRED} then s.Status() else ACTIVE)
            && (s.Status() in {ACTIVE, PAUSED, CANCELED, EXPIRED} ==> s'.sub.grace == s.sub.grace)
            && (s.Status() !in {ACTIVE, PAUSED, CANCELED, EXPIRED} ==> s'.sub.grace.None?)
            && (s.Status() != UNPAID ==> s'.sub.period == s.sub.period)
            && (s.Status() == UNPAID ==> RebasedOn(s'.sub.period, s.sub, if result.paidAt.Some? then result.paidAt.value else at))
            && (s'.sub.hasMethod <==> s.sub.hasMethod || result.savesMethod) && |s'.invoices| == |s.invoices|
  {
    hide Recover;
    var paid := PayInvoice(s.invoices[invoice], result.amount).value;
    RecoverOutcome(s.(invoices := s.invoices[invoice := paid],
                      credits := s.credits + [Credit(k, invoice, result.amount)],
                      sub := s.sub.(hasMethod := s.sub.hasMethod || result.savesMethod)), result.paidAt.Or(at));
  }

  /**
   * A payment that is applied ends ACTIVE if and only if the subscription was
   * not PAUSED, CANCELED or EXPIRED; otherwise it leaves the status as it was.
   * Whenever it brought the subscription back its grace period is gone; the
   * period moves only out of UNPAID, to one from the moment the provider took the
   * money; and a method the provider kept is on file.
   */
  lemma AppliedSuccessActivatesExactlyWhen(s: State, k: nat, result: PaymentResult, at: int)
    requires Sound(BooksOf(s)) && k < |s.attempts| && !Settled(s.attempts[k].status)
    requires result.status == Succeeded && ApplyPaymentResult(s, k, result, at).Ok?
    ensures var before, s' := s.Status(), ApplyPaymentResult(s, k, result, at).value;
            && (s'.Status() == ACTIVE <==> before !in {PAUSED, CANCELED, EXPIRED})
            && (before in {PAUSED, CANCELED, EXPIRED} ==> s'.Status() == before)
            && (before in {INCOMPLETE, TRIALING, PAST_DUE, GRACE_PERIOD, UNPAID} ==> s'.sub.grace.None?)
            && (before in {ACTIVE, PAUSED, CANCELED, EXPIRED} ==> s'.sub.grace == s.sub.grace)
            && (before != UNPAID ==> s'.sub.period == s.sub.period)
            && (before == UNPAID ==> RebasedOn(s'.sub.period, s.sub, if result.paidAt.Some? then result.paidAt.value else at))
            && (s'.sub.hasMethod <==> s.sub.hasMethod || result.savesMethod) && |s'.invoices| == |s.invoices|
  {
    hide RecordPayment, Sound;
    SuccessIsAppliedExactlyWhen(s, k, result, at);
    PayKeepsSound(BooksOf(s), k, result.amount);
    var marked := s.(attempts := s.attempts[k := s.attempts[k].(status := Succeeded)]);
    RecordOutcome(marked, k, s.attempts[k].invoice, result, at);
  }

  // -- signing up -----------------------------------------------------------------------------

  /** What signing up leaves behind: the terms asked for, and a trial or an invoice for the first period. */
  lemma SignupIs(price: Economics, quantity: int, trialDays: int, start: int, policy: Policy, hasMethod: bool, at: int)
    requires Create(price, quantity, trialDays, start, policy, hasMethod, at).Ok?
    ensures var s := Create(price, quantity, trialDays, start, policy, hasMethod, at).value;
            && s.sub.price == price && s.sub.quantity == quantity && s.sub.hasMethod == hasMethod && s.sub.createdAt == at
            && s.sub.trialed == (trialDays > 0) && !s.sub.cancelAtPeriodEnd && !s.sub.pricePinned && s.policy == policy
            && s.sub.period.start == start && s.sub.period.anchor == Some(DayOfMonth(start))
            && (trialDays > 0 ==> s.Status() == TRIALING && s.sub.period.end == start + trialDays * DAY_MS && s.invoices == [])
            && (trialDays <= 0 ==>
                  && AddInterval(start, price.interval, Some(DayOfMonth(start))) == Ok(s.sub.period.end)
                  && |s.invoices| == 1 && s.invoices[0].reason.None? && s.invoices[0].periodStart == start && s.invoices[0].periodEnd == s.sub.period.end
                  && s.invoices[0].currency == price.currency && s.invoices[0].createdAt == at
                  && RecurringAmount(price, quantity) == Ok(s.invoices[0].total)
                  && (if s.invoices[0].total > 0 then s.Status() == INCOMPLETE && s.invoices[0].status == Open
                      else s.Status() == ACTIVE && s.invoices[0].status == Paid))
  {
    hide AddInterval, DayOfMonth, RecurringLines, RecurringAmount, InvoiceLines.LinesTotal, Billable;
    if trialDays <= 0 {
      var end := AddInterval(start, price.interval, Some(DayOfMonth(start))).value;
      RecurringLinesTotal(price, quantity, start, end);
      SignupWithoutTrial(price, quantity, start, end, policy, hasMethod, at, RecurringLines(price, quantity, start, end).value);
    }
  }

  lemma SignupWithoutTrial(price: Economics, quantity: int, start: int, end: int, policy: Policy, hasMethod: bool, at: int, lines: seq<InvoiceLines.Line>)
    ensures var anchor := Some(DayOfMonth(start));
            var sub := NewSubscription(price, quantity, Recovery.Period(start, end, anchor), false, hasMethod, at);
            var inv := FinalizeInvoice(DraftInvoice(lines, price.currency, start, end, None, at, None));
            var s := State(StatusHistory.Begin(INCOMPLETE), sub, [inv], [], [], [], policy, [], []);
            && (inv.status == Paid <==> InvoiceLines.LinesTotal(lines) <= 0) && inv.total == InvoiceLines.LinesTotal(lines)
            && Transition(s, INCOMPLETE, ACTIVE).Ok? && Transition(s, INCOMPLETE, ACTIVE).value.Status() == ACTIVE
            && Transition(s, INCOMPLETE, ACTIVE).value == s.(history := Transition(s, INCOMPLETE, ACTIVE).value.history)
  {
    hide DayOfMonth, InvoiceLines.LinesTotal;
  }

  /** A new signup that owes its first invoice can have it collected. */
  lemma NewSignupOwes(s: State, at: int)
    requires Created(s) && s.Status() == INCOMPLETE
    ensures Collectable(s, 0, at) && s.quotes == [] && s.attempts == []
  {
    hide Create;
    var price, quantity, trialDays, start, policy, hasMethod, createdAt :|
      Create(price, quantity, trialDays, start, policy, hasMethod, createdAt) == Ok(s);
    SignupIs(price, quantity, trialDays, start, policy, hasMethod, createdAt);
    Overpayment.CreateStartsEmpty(price, quantity, trialDays, start, policy, hasMethod, createdAt);
    CreateIsSound(price, quantity, trialDays, start, policy, hasMethod, createdAt);
    UnpaidOwesAll(s, price, quantity, trialDays, start, policy, hasMethod, createdAt);
  }

  lemma UnpaidOwesAll(s: State, price: Economics, quantity: int, trialDays: int, start: int, policy: Policy, hasMethod: bool, createdAt: int)
    requires Create(price, quantity, trialDays, start, policy, hasMethod, createdAt) == Ok(s) && s.Status() == INCOMPLETE
    requires Sound(BooksOf(s)) && |s.invoices| == 1 && s.credits == [] && s.invoices[0].status == Open
    ensures s.invoices[0].amountDue == s.invoices[0].total - s.invoices[0].amountPaid > 0
  {
    hide Create;
    assert InvoiceSound(s.invoices[0]) && s.invoices[0].amountPaid == Credited(s.credits, 0);
  }

  /** The first payment: quoted, attempted and succeeded. */
  function FirstPayment(s: State, at: int, paidAt: int): seq<Op>
    requires |s.invoices| > 0
  {
    [DoReadQuote(0), DoOpenAttempt(0, at)]
    + [DoApplyResult(0, PaymentResult(Succeeded, s.invoices[0].total, s.invoices[0].currency, Some(paidAt), true), paidAt)]
  }

  /** A new signup's first charge, opened for its whole first invoice. */
  lemma FirstCharge(s: State, at: int)
    requires Created(s) && s.Status() == INCOMPLETE
    ensures Collectable(s, 0, at)
    ensures var total := s.invoices[0].total;
            var begun := s.(quotes := [Quote(0, total)], attempts := [Attempt(0, total, Processing, at)]);
            && Run(s, [DoReadQuote(0), DoOpenAttempt(0, at)]) == begun && Sound(BooksOf(begun))
  {
    hide Run, Created, Sound;
    NewSignupOwes(s, at);
    LedgerAlwaysBalances(s, []);
    RunNone(s);
    AttemptOpens(s, 0, at);
    UncreditedTotal(s);
    RunExtends(s, [DoReadQuote(0), DoOpenAttempt(0, at)]);
  }

  /** The success for it, applied. */
  lemma FirstSuccess(s: State, result: PaymentResult, at: int)
    requires Sound(BooksOf(s)) && |s.invoices| > 0 && s.Status() == INCOMPLETE && s.invoices[0].status == Open
    requires |s.attempts| == 1 && s.attempts[0].invoice == 0 && s.attempts[0].status == Processing
    requires result.status == Succeeded && result.amount == s.attempts[0].amount && result.currency == s.invoices[0].currency
    requires result.savesMethod
    ensures var s' := Step(s, DoApplyResult(0, result, at));
            && s'.Status() == ACTIVE && |s'.invoices| > 0 && s'.invoices[0].status == Paid && s'.sub.hasMethod
            && s'.sub.period == s.sub.period
  {
    hide Sound, ApplyPaymentResult;
    SuccessIsAppliedExactlyWhen(s, 0, result, at);
    AppliedSuccessPays(s, 0, result, at);
    AppliedSuccessActivatesExactlyWhen(s, 0, result, at);
  }

  /** Paying for a signup starts it: active, its invoice paid, its method on file, and never to be expired as unpaid. */
  lemma FirstPaymentActivates(s: State, at: int, paidAt: int, ops: seq<Op>, i: nat)
    requires Created(s) && s.Status() == INCOMPLETE
    ensures |s.invoices| > 0
    ensures var paid := Run(s, FirstPayment(s, at, paidAt));
            && paid.Status() == ACTIVE && |paid.invoices| > 0 && paid.invoices[0].status == Paid && paid.sub.hasMethod
            && paid.sub.period == s.sub.period
            && ExpireIncomplete(Run(paid, ops), i).Err?
  {
    hide Run, Created, Sound, Step, ExpireIncomplete;
    FirstCharge(s, at);
    var opening := [DoReadQuote(0), DoOpenAttempt(0, at)];
    var result := PaymentResult(Succeeded, s.invoices[0].total, s.invoices[0].currency, Some(paidAt), true);
    RunMore(s, opening, DoApplyResult(0, result, paidAt));
    FirstSuccess(Run(s, opening), result, paidAt);
    var paid := Run(s, FirstPayment(s, at, paidAt));
    NeverIncompleteAgain(paid, ops);
    OnlyIncompleteExpires(Run(paid, ops), i);
  }

  lemma UncreditedTotal(s: State)
    requires Sound(BooksOf(s)) && Created(s) && |s.invoices| > 0
    ensures s.invoices[0].amountPaid == 0
  {
    hide Create;
    var price, quantity, trialDays, start, policy, hasMethod, at :|
      Create(price, quantity, trialDays, start, policy, hasMethod, at) == Ok(s);
    Overpayment.CreateStartsEmpty(price, quantity, trialDays, start, policy, hasMethod, at);
    assert s.invoices[0].amountPaid == Credited(s.credits, 0);
  }

  lemma OnlyIncompleteExpires(s: State, i: nat)
    requires s.Status() != INCOMPLETE
    ensures ExpireIncomplete(s, i).Err?
  {}
}
