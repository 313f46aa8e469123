/** What a scheduled or completed end guarantees, over every run (packages/billing/src/subscriptions.ts). */
module Cancellation {
  import opened Basics
  import opened StateMachine
  import opened Recovery
  import opened Billing
  import opened Cycle
  import Proration
  import Money
  import Pricing
  import InvoiceLines
  import opened Lifecycle

  /** Scheduled to end, or ended by it. */
  predicate Ending(s: State) { s.sub.cancelAtPeriodEnd || s.Status() == CANCELED }

  /** Nobody takes the cancellation back; resuming from a pause does not. */
  predicate NotRevoked(s: State, ops: seq<Op>)
    decreases |ops|
  {
    ops == [] || (NotRevoked(s, ops[..|ops| - 1]) && (ops[|ops| - 1].DoResume? ==> Run(s, ops[..|ops| - 1]).Status() == PAUSED))
  }

  /** Every invoice after the first `n` is a proration. */
  predicate OnlyProrations(issued: seq<Issued>, n: nat) {
    n <= |issued| && forall i :: n <= i < |issued| ==> issued[i].reason.Some?
  }

  lemma RenewEnds(s: State, op: Op)
    requires op.DoRenew? && Ending(s) && Try(s, op).Ok?
    ensures var s' := Try(s, op).value; Ending(s') && s'.invoices == s.invoices
    ensures !(op.onlyWhenDue && !IsPeriodDue(s.sub.period.end, op.now)) ==> Try(s, op).value.Status() == CANCELED
  {
    hide OpenNextPeriod, BillingPrice;
  }

  lemma ChangeKeepsEnding(s: State, op: Op)
    requires (op.DoChangePlan? || op.DoChangeQuantity?) && Ending(s) && Try(s, op).Ok?
    ensures Ending(Try(s, op).value)
  {
    hide Proration.Prorate, Proration.ProrateSeats, Pricing.RecurringAmount, Pricing.Billable, DraftInvoice, FinalizeInvoice;
  }

  lemma ApplyResultKeepsEnding(s: State, k: nat, result: PaymentResult, at: int)
    requires Ending(s) && ApplyPaymentResult(s, k, result, at).Ok?
    ensures var s' := ApplyPaymentResult(s, k, result, at).value; Ending(s') && IssuedOf(s'.invoices) == IssuedOf(s.invoices)
  {
    hide Recover, FailInvoice;
    var attempt := s.attempts[k];
    if !Settled(attempt.status) {
      var marked := s.(attempts := s.attempts[k := attempt.(status := result.status)]);
      if result.status in {Failed, Canceled} {
        FailInvoiceKeepsEnding(marked, attempt.invoice, at);
      } else if result.status == Succeeded {
        var paid := PayInvoice(s.invoices[attempt.invoice], result.amount).value;
        var credited := marked.(
          invoices := s.invoices[attempt.invoice := paid],
          credits := s.credits + [Credit(k, attempt.invoice, result.amount)],
          sub := s.sub.(hasMethod := s.sub.hasMethod || result.savesMethod));
        assert IssuedOf(credited.invoices) == IssuedOf(s.invoices);
        if paid.status == Paid { RecoverKeepsEnding(credited, result.paidAt.Or(at)); }
      }
    }
  }

  lemma FailInvoiceKeepsEnding(s: State, k: nat, at: int)
    requires Ending(s)
    ensures FailInvoice(s, k, at).Ok? && Ending(FailInvoice(s, k, at).value) && FailInvoice(s, k, at).value.invoices == s.invoices
  {}

  lemma RecoverKeepsEnding(s: State, recoveredAt: int)
    requires Ending(s) && Recover(s, recoveredAt).Ok?
    ensures Ending(Recover(s, recoveredAt).value) && Recover(s, recoveredAt).value.invoices == s.invoices
  {
    hide Interval.AddInterval;
  }

  lemma TryKeepsEnding(s: State, op: Op, n: nat)
    requires Ending(s) && Try(s, op).Ok? && (op.DoResume? ==> s.Status() == PAUSED) && OnlyProrations(IssuedOf(s.invoices), n)
    ensures Ending(Try(s, op).value) && OnlyProrations(IssuedOf(Try(s, op).value.invoices), n)
  {
    hide Renew, ApplyPaymentResult, FailInvoice, ChangePlan, ChangeQuantity, InFlight, InsertEvent;
    match op {
      case DoRenew(_, _, _, _, _, _) => RenewEnds(s, op);
      case DoChangePlan(_, _, _, _, _) => ChangeKeepsEnding(s, op); ChangeCycle(s, op);
      case DoChangeQuantity(_, _, _) => ChangeKeepsEnding(s, op); ChangeCycle(s, op);
      case DoApplyResult(k, result, at) => ApplyResultKeepsEnding(s, k, result, at);
      case DoFailInvoice(k, at) => FailInvoiceKeepsEnding(s, k, at);
      case _ => assert IssuedOf(Try(s, op).value.invoices) == IssuedOf(s.invoices);
    }
  }

  /**
   * A subscription scheduled to end opens no further period: over any run in
   * which the cancellation is not revoked, recoveries from UNPAID included,
   * everything invoiced is a proration of the period it is in.
   */
  lemma {:induction false} ScheduledEndBillsNoPeriod(s: State, ops: seq<Op>)
    requires Ending(s) && NotRevoked(s, ops)
    ensures Ending(Run(s, ops)) && OnlyProrations(IssuedOf(Run(s, ops).invoices), |s.invoices|)
    decreases |ops|
  {
    hide Try, Ending;
    if ops != [] {
      ScheduledEndBillsNoPeriod(s, ops[..|ops| - 1]);
      var before, op := Run(s, ops[..|ops| - 1]), ops[|ops| - 1];
      if Try(before, op).Ok? { TryKeepsEnding(before, op, |s.invoices|); }
    }
  }

  /** And the next renewal that is due, or any manual one, ends it, from every status that can renew. */
  lemma NextRenewalEnds(s: State, op: Op)
    requires op.DoRenew? && s.sub.cancelAtPeriodEnd && s.Status() !in {CANCELED, EXPIRED, PAUSED, INCOMPLETE}
    requires op.onlyWhenDue ==> IsPeriodDue(s.sub.period.end, op.now)
    ensures Try(s, op).Ok? && Try(s, op).value.Status() == CANCELED && Try(s, op).value.invoices == s.invoices
  {
    hide OpenNextPeriod, BillingPrice;
  }

  // -- after the end ------------------------------------------------------------------------------

  /** Every invoice after the first `n` bills added seats. */
  predicate OnlySeats(issued: seq<Issued>, n: nat) {
    n <= |issued| && forall i :: n <= i < |issued| ==> issued[i].reason == Some(SeatChange)
  }

  lemma EndedRefuses(s: State, op: Op)
    requires IsTerminal(s.Status()) && (op.DoRenew? || op.DoChangePlan?)
    ensures Try(s, op).Err?
  {}

  lemma SeatReason(s: State, op: Op)
    requires op.DoChangeQuantity? && Try(s, op).Ok?
    ensures var s' := Try(s, op).value;
            |s'.invoices| > |s.invoices| ==> s'.invoices[|s.invoices|].reason == Some(SeatChange)
  {
    hide Proration.ProrateSeats, InvoiceLines.LinesTotal;
  }

  /**
   * A canceled or expired subscription is billed for nothing but added seats:
   * renewals and plan changes are refused, and nothing else issues an invoice.
   */
  lemma {:induction false} EndedBillsOnlySeats(s: State, ops: seq<Op>)
    requires IsTerminal(s.Status())
    ensures OnlySeats(IssuedOf(Run(s, ops).invoices), |s.invoices|)
    ensures (forall i :: 0 <= i < |ops| ==> !ops[i].DoChangeQuantity?) ==> |Run(s, ops).invoices| == |s.invoices|
    decreases |ops|
  {
    hide Try, Opens;
    if ops != [] {
      EndedBillsOnlySeats(s, ops[..|ops| - 1]);
      EndedStaysEnded(s, ops[..|ops| - 1]);
      var before, op := Run(s, ops[..|ops| - 1]), ops[|ops| - 1];
      if Try(before, op).Ok? {
        if op.DoRenew? || op.DoChangePlan? { EndedRefuses(before, op); }
        TryCycle(before, op);
        if op.DoChangeQuantity? { SeatReason(before, op); }
      }
    }
  }

  /** A seat increase on a per-seat price, while the period has a length and the prorated charge is a safe amount. */
  predicate BillsSeats(s: State, op: Op) {
    && op.DoChangeQuantity? && s.sub.price.model == Pricing.PER_SEAT
    && op.newQuantity >= 1 && op.newQuantity > s.sub.quantity
    && s.sub.period.start < s.sub.period.end
    && Money.Safe(Proration.Part(s.sub.price.unitAmount.Or(0) * (op.newQuantity - s.sub.quantity),
                                 Proration.Remaining(s.sub.period.start, s.sub.period.end, op.now),
                                 s.sub.period.end - s.sub.period.start))
  }

  /** Changing the quantity never asks whether the subscription has ended. */
  lemma SeatChangeBillsExactlyWhen(s: State, op: Op)
    requires op.DoChangeQuantity?
    ensures |Step(s, op).invoices| > |s.invoices| <==> BillsSeats(s, op)
    ensures |Step(s, op).invoices| <= |s.invoices| + 1 && Step(s, op).Status() == s.Status()
  {
    hide InvoiceLines.LinesTotal, Money.Rounded;
    SeatsProrateExactlyWhen(s, op);
  }

  lemma SeatsProrateExactlyWhen(s: State, op: Op)
    requires op.DoChangeQuantity?
    ensures op.newQuantity > s.sub.quantity ==>
              var p := s.sub.period;
              var r := Proration.ProrateSeats(p.start, p.end, op.now, Proration.Cash(s.sub.price.unitAmount.Or(0), s.sub.price.currency),
                                              s.sub.quantity, op.newQuantity);
              && (r.Ok? ==> |r.value.lines| == 1)
              && (r.Ok? <==> && p.start < p.end
                             && Money.Safe(Proration.Part(s.sub.price.unitAmount.Or(0) * (op.newQuantity - s.sub.quantity),
                                                          Proration.Remaining(p.start, p.end, op.now), p.end - p.start)))
  {
    hide Money.Rounded;
    if s.sub.period.start < s.sub.period.end { NothingRounds(s.sub.period.end - s.sub.period.start); }
  }

  lemma NothingRounds(total: int)
    requires total > 0
    ensures Money.Rounded(0, total, Money.HALF_UP) == 0
  {}

  /**
   * What an ended subscription is billed for, exactly: a transaction issues an
   * invoice if and only if it adds seats as above. Its status does not change.
   */
  lemma EndedIsBilledExactlyWhen(s: State, op: Op)
    requires IsTerminal(s.Status())
    ensures |Step(s, op).invoices| > |s.invoices| <==> BillsSeats(s, op)
    ensures Step(s, op).Status() == s.Status()
  {
    hide BillsSeats, Try, Opens, Prorates;
    RunOne(s, op);
    EndedStaysEnded(s, [op]);
    if op.DoChangeQuantity? {
      SeatChangeBillsExactlyWhen(s, op);
    } else {
      assert !BillsSeats(s, op) by { OnlySeatChangesBill(s, op); }
      EndedBillsOnlySeats(s, [op]);
    }
  }

  lemma OnlySeatChangesBill(s: State, op: Op)
    ensures BillsSeats(s, op) ==> op.DoChangeQuantity?
  {}
}
