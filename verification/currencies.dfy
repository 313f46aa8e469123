/**
 * One currency for life: what a subscription was priced in when it was created is
 * what every invoice it ever gets asks for and every payment it ever takes is in
 * (packages/billing/src/subscriptions.ts, payments.ts).
 */
module Currencies {
  import opened Basics
  import opened Money
  import opened Billing
  import opened Pricing
  import opened InvoiceLines
  import Activation
  import Calendar
  import Interval
  import Ledger
  import Overpayment
  import Proration
  import Recovery
  import StatusHistory

  ghost predicate OneCurrency(s: State, currency: Currency) {
    s.sub.price.currency == currency && forall k :: 0 <= k < |s.invoices| ==> s.invoices[k].currency == currency
  }

  /** The price stays in its currency, and so does every invoice: those there are keep theirs, a new one takes the price's. */
  predicate KeepsCurrency(s: State, s': State) {
    && s'.sub.price.currency == s.sub.price.currency
    && |s.invoices| <= |s'.invoices|
    && (forall k :: 0 <= k < |s.invoices| ==> s'.invoices[k].currency == s.invoices[k].currency)
    && (forall k :: |s.invoices| <= k < |s'.invoices| ==> s'.invoices[k].currency == s.sub.price.currency)
  }

  lemma OpenNextPeriodKeeps(s: State, price: Economics, flush: seq<UsageEvent>, at: int)
    requires price.currency == s.sub.price.currency && OpenNextPeriod(s, price, flush, at).Ok?
    ensures KeepsCurrency(s, OpenNextPeriod(s, price, flush, at).value)
  {
    hide MeterClosedPeriod, RenewalAnchor, Interval.AddInterval, RecurringLines, LinesTotal;
  }

  lemma RenewKeeps(s: State, op: Op)
    requires op.DoRenew? && Try(s, op).Ok?
    ensures KeepsCurrency(s, Try(s, op).value)
  {
    hide OpenNextPeriod, Billable;
    var price := BillingPrice(s.sub, op.current);
    if OpenNextPeriod(s, price, op.flush, op.at).Ok? { OpenNextPeriodKeeps(s, price, op.flush, op.at); }
  }

  lemma ChangesKeep(s: State, op: Op)
    requires (op.DoChangePlan? || op.DoChangeQuantity?) && Try(s, op).Ok?
    ensures KeepsCurrency(s, Try(s, op).value)
  {
    hide LinesTotal, Proration.Prorate, Proration.ProrateSeats, RecurringAmount, Billable;
  }

  lemma RecoverKeeps(s: State, recoveredAt: int)
    requires Recover(s, recoveredAt).Ok?
    ensures KeepsCurrency(s, Recover(s, recoveredAt).value)
  {
    hide Recovery.PlanPaymentRecovery, StatusHistory.ApplyTransition;
  }

  lemma FailInvoiceKeeps(s: State, k: nat, at: int)
    requires FailInvoice(s, k, at).Ok?
    ensures KeepsCurrency(s, FailInvoice(s, k, at).value)
  {}

  lemma ApplyResultKeeps(s: State, k: nat, result: PaymentResult, at: int)
    requires ApplyPaymentResult(s, k, result, at).Ok?
    ensures KeepsCurrency(s, ApplyPaymentResult(s, k, result, at).value)
  {
    hide Recover, FailInvoice;
    var attempt := s.attempts[k];
    if !Settled(attempt.status) {
      var marked := s.(attempts := s.attempts[k := attempt.(status := result.status)]);
      if result.status in {Failed, Canceled} {
        FailInvoiceKeeps(marked, attempt.invoice, at);
      } else if result.status == Succeeded {
        var paid := PayInvoice(s.invoices[attempt.invoice], result.amount).value;
        var credited := marked.(
          invoices := s.invoices[attempt.invoice := paid],
          credits := s.credits + [Credit(k, attempt.invoice, result.amount)],
          sub := s.sub.(hasMethod := s.sub.hasMethod || result.savesMethod));
        if paid.status == Paid { RecoverKeeps(credited, result.paidAt.Or(at)); }
      }
    }
  }

  lemma TryKeepsCurrency(s: State, op: Op)
    requires Try(s, op).Ok?
    ensures KeepsCurrency(s, Try(s, op).value)
  {
    hide Renew, ApplyPaymentResult, FailInvoice, ChangePlan, ChangeQuantity, InFlight, InsertEvent, KeepsCurrency, StatusHistory.ApplyTransition;
    match op {
      case DoRenew(_, _, _, _, _, _) => RenewKeeps(s, op);
      case DoChangePlan(_, _, _, _, _) => ChangesKeep(s, op);
      case DoChangeQuantity(_, _, _) => ChangesKeep(s, op);
      case DoApplyResult(k, result, at) => ApplyResultKeeps(s, k, result, at);
      case DoFailInvoice(k, at) => FailInvoiceKeeps(s, k, at);
      case _ => RowsKeepCurrency(s, Try(s, op).value);
    }
  }

  lemma RowsKeepCurrency(s: State, s': State)
    requires s'.sub.price == s.sub.price && |s'.invoices| == |s.invoices|
    requires forall k :: 0 <= k < |s.invoices| ==> s'.invoices[k].currency == s.invoices[k].currency
    ensures KeepsCurrency(s, s')
  {}

  lemma {:induction false} RunKeepsCurrency(s: State, ops: seq<Op>, currency: Currency)
    requires OneCurrency(s, currency)
    ensures OneCurrency(Run(s, ops), currency)
    decreases |ops|
  {
    hide Try;
    if ops != [] {
      RunKeepsCurrency(s, ops[..|ops| - 1], currency);
      var before, op := Run(s, ops[..|ops| - 1]), ops[|ops| - 1];
      if Try(before, op).Ok? { TryKeepsCurrency(before, op); }
    }
  }

  /**
   * Over every run from signup, plan changes, seat changes and renewals onto
   * newer versions included, every invoice and the price itself are in the
   * currency the subscription was created in.
   */
  lemma OneCurrencyForLife(price: Economics, quantity: int, trialDays: int, start: int, policy: Policy, hasMethod: bool, at: int, ops: seq<Op>)
    requires Create(price, quantity, trialDays, start, policy, hasMethod, at).Ok?
    ensures var s := Run(Create(price, quantity, trialDays, start, policy, hasMethod, at).value, ops);
            OneCurrency(s, price.currency)
  {
    hide Create, Run, Calendar.DayOfMonth, Interval.AddInterval, RecurringAmount;
    Activation.SignupIs(price, quantity, trialDays, start, policy, hasMethod, at);
    RunKeepsCurrency(Create(price, quantity, trialDays, start, policy, hasMethod, at).value, ops, price.currency);
  }

  /** ... and so is every payment: one in another currency changes nothing, whichever attempt it is for. */
  lemma ForeignPaymentChangesNothing(price: Economics, quantity: int, trialDays: int, start: int, policy: Policy, hasMethod: bool, at: int,
                                     ops: seq<Op>, k: nat, result: PaymentResult, paidAt: int)
    requires Create(price, quantity, trialDays, start, policy, hasMethod, at).Ok?
    requires result.status == Succeeded && result.currency != price.currency
    ensures var s := Run(Create(price, quantity, trialDays, start, policy, hasMethod, at).value, ops);
            Step(s, DoApplyResult(k, result, paidAt)) == s
  {
    hide Create, Run, RecordPayment, FailInvoice;
    OneCurrencyForLife(price, quantity, trialDays, start, policy, hasMethod, at, ops);
  }
}
