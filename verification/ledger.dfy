/**
 * The ledger: over every run of transactions, what invoices say was paid is
 * what attempts credited, each attempt at most once.
 */
module Ledger {
  import opened Basics
  import opened InvoiceLines
  import opened StateMachine
  import opened Billing
  import Money
  import Pricing
  import Proration
  import Recovery
  import Interval
  import Calendar
  import StatusHistory

  /** The rows money moves through. */
  datatype Books = Books(invoices: seq<Invoice>, attempts: seq<Attempt>, credits: seq<Credit>, quotes: seq<Quote>)

  function BooksOf(s: State): Books { Books(s.invoices, s.attempts, s.credits, s.quotes) }

  /** Everything credited to one invoice. */
  function Credited(credits: seq<Credit>, invoice: nat): int {
    if credits == [] then 0
    else Credited(credits[..|credits| - 1], invoice)
         + (if credits[|credits| - 1].invoice == invoice then credits[|credits| - 1].amount else 0)
  }

  /** An issued invoice owes what is unpaid, and is PAID exactly when it owes nothing. */
  predicate InvoiceSound(inv: Invoice) {
    && inv.status in {Open, Paid, Void}
    && inv.amountDue == (if inv.status == Void then 0 else Max(inv.total - inv.amountPaid, 0))
    && (inv.status != Void ==> (inv.status == Paid <==> inv.amountDue == 0))
  }

  /** An amount asked for on an invoice still covers everything the invoice owes. */
  predicate Covers(b: Books, invoice: nat, amount: int) {
    invoice < |b.invoices| && 0 < amount && b.invoices[invoice].amountDue <= amount
  }

  predicate CreditSound(b: Books, c: Credit) {
    && c.attempt < |b.attempts| && c.invoice < |b.invoices|
    && b.attempts[c.attempt].invoice == c.invoice
    && Settled(b.attempts[c.attempt].status)
    && c.amount >= b.attempts[c.attempt].amount
  }

  ghost predicate Sound(b: Books) {
    && (forall k :: 0 <= k < |b.invoices| ==> InvoiceSound(b.invoices[k]))
    && (forall k :: 0 <= k < |b.invoices| ==> b.invoices[k].amountPaid == Credited(b.credits, k))
    && (forall i :: 0 <= i < |b.quotes| ==> Covers(b, b.quotes[i].invoice, b.quotes[i].amount))
    && (forall i :: 0 <= i < |b.attempts| ==> Covers(b, b.attempts[i].invoice, b.attempts[i].amount))
    && (forall i :: 0 <= i < |b.credits| ==> CreditSound(b, b.credits[i]))
    && (forall i, j :: 0 <= i < j < |b.credits| ==> b.credits[i].attempt != b.credits[j].attempt)
  }

  lemma {:induction false} NothingCreditedYet(credits: seq<Credit>, invoice: nat)
    requires forall i :: 0 <= i < |credits| ==> credits[i].invoice != invoice
    ensures Credited(credits, invoice) == 0
    decreases |credits|
  {
    if credits != [] { NothingCreditedYet(credits[..|credits| - 1], invoice); }
  }

  lemma IssueKeepsSound(b: Books, inv: Invoice)
    requires Sound(b) && InvoiceSound(inv) && inv.amountPaid == 0
    ensures Sound(b.(invoices := b.invoices + [inv]))
  {
    NothingCreditedYet(b.credits, |b.invoices|);
  }

  lemma VoidKeepsSound(b: Books, k: nat)
    requires Sound(b) && k < |b.invoices|
    ensures Sound(b.(invoices := b.invoices[k := VoidedInvoice(b.invoices[k])]))
  {}

  lemma VoidUnpaidKeepsSound(b: Books)
    requires Sound(b)
    ensures Sound(b.(invoices := VoidUnpaid(b.invoices)))
  {}

  /** Settling an attempt without crediting it. */
  lemma MarkKeepsSound(b: Books, k: nat, status: AttemptStatus)
    requires Sound(b) && k < |b.attempts| && (Settled(status) || !Settled(b.attempts[k].status))
    ensures Sound(b.(attempts := b.attempts[k := b.attempts[k].(status := status)]))
  {}

  /** Crediting an attempt that has just settled, for at least what it asked. */
  lemma PayKeepsSound(b: Books, k: nat, amount: int)
    requires Sound(b) && k < |b.attempts| && !Settled(b.attempts[k].status) && b.attempts[k].amount <= amount
    requires PayInvoice(b.invoices[b.attempts[k].invoice], amount).Ok?
    ensures var paid := PayInvoice(b.invoices[b.attempts[k].invoice], amount).value;
            && paid.status == Paid
            && Sound(b.(attempts := b.attempts[k := b.attempts[k].(status := Succeeded)],
                        invoices := b.invoices[b.attempts[k].invoice := paid],
                        credits := b.credits + [Credit(k, b.attempts[k].invoice, amount)]))
  {
    var j := b.attempts[k].invoice;
    var inv := b.invoices[j];
    var paid := PayInvoice(inv, amount).value;
    assert Covers(b, j, b.attempts[k].amount) && InvoiceSound(inv);
    assert paid.status == Paid && paid.amountDue == 0 <= inv.amountDue;
    var credit := Credit(k, j, amount);
    var b' := b.(attempts := b.attempts[k := b.attempts[k].(status := Succeeded)],
                 invoices := b.invoices[j := paid], credits := b.credits + [credit]);
    assert b'.credits[..|b'.credits| - 1] == b.credits;
    forall i | 0 <= i < |b.credits| ensures b.credits[i].attempt != k {
      assert CreditSound(b, b.credits[i]);
    }
    forall i | 0 <= i < |b'.credits| ensures CreditSound(b', b'.credits[i]) {
      if i < |b.credits| { assert CreditSound(b, b.credits[i]); }
    }
    forall i | 0 <= i < |b.invoices| ensures b'.invoices[i].amountPaid == Credited(b'.credits, i) && InvoiceSound(b'.invoices[i]) {
      assert b.invoices[i].amountPaid == Credited(b.credits, i);
    }
    forall i | 0 <= i < |b.attempts| ensures Covers(b', b'.attempts[i].invoice, b'.attempts[i].amount) {
      assert Covers(b, b.attempts[i].invoice, b.attempts[i].amount);
    }
    forall i | 0 <= i < |b.quotes| ensures Covers(b', b.quotes[i].invoice, b.quotes[i].amount) {
      assert Covers(b, b.quotes[i].invoice, b.quotes[i].amount);
    }
  }

  lemma FailInvoiceKeepsBooks(s: State, k: nat, at: int)
    requires FailInvoice(s, k, at).Ok?
    ensures BooksOf(FailInvoice(s, k, at).value) == BooksOf(s)
  {}

  lemma RecoverKeepsBooks(s: State, recoveredAt: int)
    requires Recover(s, recoveredAt).Ok?
    ensures BooksOf(Recover(s, recoveredAt).value) == BooksOf(s)
  {
    hide Recovery.PlanPaymentRecovery, StatusHistory.ApplyTransition;
  }

  lemma ApplyResultKeepsSound(s: State, k: nat, result: PaymentResult, at: int)
    requires Sound(BooksOf(s)) && ApplyPaymentResult(s, k, result, at).Ok?
    ensures Sound(BooksOf(ApplyPaymentResult(s, k, result, at).value))
  {
    hide Recover, FailInvoice, Sound;
    var b := BooksOf(s);
    var attempt := s.attempts[k];
    if !Settled(attempt.status) {
      var marked := s.(attempts := s.attempts[k := attempt.(status := result.status)]);
      MarkKeepsSound(b, k, result.status);
      if result.status in {Failed, Canceled} {
        FailInvoiceKeepsBooks(marked, attempt.invoice, at);
      } else if result.status == Succeeded {
        PayKeepsSound(b, k, result.amount);
        var paid := PayInvoice(s.invoices[attempt.invoice], result.amount).value;
        var credited := marked.(
          invoices := s.invoices[attempt.invoice := paid],
          credits := s.credits + [Credit(k, attempt.invoice, result.amount)],
          sub := s.sub.(hasMethod := s.sub.hasMethod || result.savesMethod));
        RecoverKeepsBooks(credited, result.paidAt.Or(at));
      }
    }
  }

  /** Renewals and proration only ever issue a finalized invoice, or none. */
  predicate Issues(s: State, s': State) {
    || BooksOf(s') == BooksOf(s)
    || (&& |s'.invoices| == |s.invoices| + 1
        && BooksOf(s') == BooksOf(s).(invoices := s.invoices + [s'.invoices[|s.invoices|]])
        && InvoiceSound(s'.invoices[|s.invoices|]) && s'.invoices[|s.invoices|].amountPaid == 0)
  }

  lemma RenewIssues(s: State, op: Op)
    requires op.DoRenew? && Try(s, op).Ok?
    ensures Issues(s, Try(s, op).value)
  {
    hide OpenNextPeriod, BillingPrice;
    var price := BillingPrice(s.sub, op.current);
    if OpenNextPeriod(s, price, op.flush, op.at).Ok? {
      OpenNextPeriodIssues(s, price, op.flush, op.at);
    }
  }

  lemma OpenNextPeriodIssues(s: State, price: Pricing.Economics, flush: seq<UsageEvent>, at: int)
    requires OpenNextPeriod(s, price, flush, at).Ok?
    ensures Issues(s, OpenNextPeriod(s, price, flush, at).value)
  {
    hide MeterClosedPeriod, RenewalAnchor, LinesTotal;
  }

  lemma ChangesIssue(s: State, op: Op)
    requires (op.DoChangePlan? || op.DoChangeQuantity?) && Try(s, op).Ok?
    ensures Issues(s, Try(s, op).value)
  {
    hide LinesTotal, Proration.Prorate, Proration.ProrateSeats, Pricing.RecurringAmount;
  }

  lemma IssuesKeepsSound(s: State, s': State)
    requires Sound(BooksOf(s)) && Issues(s, s')
    ensures Sound(BooksOf(s'))
  {
    if BooksOf(s') != BooksOf(s) {
      IssueKeepsSound(BooksOf(s), s'.invoices[|s.invoices|]);
    }
  }

  /** Transactions that touch neither invoices nor attempts. */
  predicate Quiet(op: Op) {
    op.DoSelectGrace? || op.DoSelectIncomplete? || op.DoCloseGrace? || op.DoCloseUncollectedTrial? || op.DoCancel? || op.DoResume?
    || op.DoPause? || op.DoTrackUsage? || op.DoEditPolicy? || op.DoPinPrice?
  }

  lemma QuietKeepsBooks(s: State, op: Op)
    requires Quiet(op) && Try(s, op).Ok?
    ensures BooksOf(Try(s, op).value) == BooksOf(s)
  {
    hide InsertEvent;
  }

  lemma CollectionKeepsSound(s: State, op: Op)
    requires (op.DoReadQuote? || op.DoOpenAttempt? || op.DoFailAttempt? || op.DoApplyResult? || op.DoFailInvoice?)
    requires Sound(BooksOf(s)) && Try(s, op).Ok?
    ensures Sound(BooksOf(Try(s, op).value))
  {
    hide ApplyPaymentResult, FailInvoice, InFlight;
    match op {
      case DoApplyResult(k, result, at) => ApplyResultKeepsSound(s, k, result, at);
      case DoFailAttempt(k) => MarkKeepsSound(BooksOf(s), k, Failed);
      case DoFailInvoice(k, at) => FailInvoiceKeepsBooks(s, k, at);
      case _ =>
    }
  }

  lemma TryKeepsSound(s: State, op: Op)
    requires Sound(BooksOf(s)) && Try(s, op).Ok?
    ensures Sound(BooksOf(Try(s, op).value))
  {
    hide Sound, Renew, ChangePlan, ChangeQuantity;
    if Quiet(op) {
      QuietKeepsBooks(s, op);
    } else if op.DoReadQuote? || op.DoOpenAttempt? || op.DoFailAttempt? || op.DoApplyResult? || op.DoFailInvoice? {
      CollectionKeepsSound(s, op);
    } else {
      var b, s' := BooksOf(s), Try(s, op).value;
      match op {
        case DoRenew(_, _, _, _, _, _) => RenewIssues(s, op); IssuesKeepsSound(s, s');
        case DoVoidInvoice(k) => VoidKeepsSound(b, k);
        case DoExpireIncomplete(_) => VoidUnpaidKeepsSound(b);
        case _ => ChangesIssue(s, op); IssuesKeepsSound(s, s');
      }
    }
  }

  lemma CreateIsSound(price: Pricing.Economics, quantity: int, trialDays: int, start: int, policy: Policy, hasMethod: bool, at: int)
    requires Create(price, quantity, trialDays, start, policy, hasMethod, at).Ok?
    ensures Sound(BooksOf(Create(price, quantity, trialDays, start, policy, hasMethod, at).value))
  {
    hide InvoiceLines.LinesTotal, Interval.AddInterval, Pricing.RecurringLines, Calendar.DayOfMonth, Pricing.Billable;
  }

  /** An applied success always leaves its invoice PAID: the amount asked for still covered it. */
  lemma AppliedSuccessPays(s: State, k: nat, result: PaymentResult, at: int)
    requires Sound(BooksOf(s)) && k < |s.attempts| && !Settled(s.attempts[k].status)
    requires result.status == Succeeded && ApplyPaymentResult(s, k, result, at).Ok?
    ensures var s' := ApplyPaymentResult(s, k, result, at).value;
            var j := s.attempts[k].invoice;
            && s'.invoices[j].status == Paid
            && s'.invoices[j].amountPaid == s.invoices[j].amountPaid + result.amount >= s.invoices[j].total
            && s'.credits == s.credits + [Credit(k, j, result.amount)]
  {
    hide Recover;
    PayKeepsSound(BooksOf(s), k, result.amount);
    var j := s.attempts[k].invoice;
    var paid := PayInvoice(s.invoices[j], result.amount).value;
    var credited := s.(
      attempts := s.attempts[k := s.attempts[k].(status := result.status)],
      invoices := s.invoices[j := paid],
      credits := s.credits + [Credit(k, j, result.amount)],
      sub := s.sub.(hasMethod := s.sub.hasMethod || result.savesMethod));
    RecoverKeepsBooks(credited, result.paidAt.Or(at));
  }

  /** The payment is in the invoice's currency, covers what the attempt asked, and the invoice is not void. */
  predicate Acceptable(s: State, k: nat, result: PaymentResult)
    requires k < |s.attempts| && s.attempts[k].invoice < |s.invoices|
  {
    var invoice := s.invoices[s.attempts[k].invoice];
    result.currency == invoice.currency && result.amount >= s.attempts[k].amount && invoice.status != Void
  }

  /**
   * Exactly when a success that reaches an open attempt is applied. (A rebase
   * onto an invalid billing interval is the one other refusal.)
   */
  lemma SuccessIsAppliedExactlyWhen(s: State, k: nat, result: PaymentResult, at: int)
    requires Sound(BooksOf(s)) && k < |s.attempts| && !Settled(s.attempts[k].status) && result.status == Succeeded
    ensures s.attempts[k].invoice < |s.invoices|
    ensures ApplyPaymentResult(s, k, result, at).Ok?
            <==> Acceptable(s, k, result) && (s.Status() == UNPAID ==> Interval.ValidInterval(s.sub.price.interval))
  {
    hide Interval.AddMonths, Calendar.DayOfMonth, Sound;
    AttemptCovers(BooksOf(s), k);
    if Acceptable(s, k, result) { PayKeepsSound(BooksOf(s), k, result.amount); }
  }

  lemma AttemptCovers(b: Books, k: nat)
    requires Sound(b) && k < |b.attempts|
    ensures Covers(b, b.attempts[k].invoice, b.attempts[k].amount)
  {}

  // -- what a run never undoes ------------------------------------------------------

  /** Rows are only appended; settled attempts, paid and void invoices, totals and credits are final. */
  ghost predicate Extends(b: Books, b': Books) {
    && |b.attempts| <= |b'.attempts| && |b.invoices| <= |b'.invoices| && b.credits <= b'.credits
    && (forall i :: 0 <= i < |b.attempts| ==>
          && b'.attempts[i].invoice == b.attempts[i].invoice && b'.attempts[i].amount == b.attempts[i].amount
          && (Settled(b.attempts[i].status) ==> Settled(b'.attempts[i].status)))
    && (forall k :: 0 <= k < |b.invoices| ==>
          && b'.invoices[k].total == b.invoices[k].total && b'.invoices[k].amountPaid >= b.invoices[k].amountPaid
          && (b.invoices[k].status in {Paid, Void} ==> b'.invoices[k].status == b.invoices[k].status))
  }

  lemma ExtendsTransitive(a: Books, b: Books, c: Books)
    requires Extends(a, b) && Extends(b, c)
    ensures Extends(a, c)
  {
    forall i | 0 <= i < |a.attempts| ensures Settled(a.attempts[i].status) ==> Settled(c.attempts[i].status) {
      assert b.attempts[i].invoice == a.attempts[i].invoice;
    }
    forall k | 0 <= k < |a.invoices| ensures a.invoices[k].status in {Paid, Void} ==> c.invoices[k].status == a.invoices[k].status {
      assert b.invoices[k].total == a.invoices[k].total;
    }
  }

  lemma ApplyResultExtends(s: State, k: nat, result: PaymentResult, at: int)
    requires Sound(BooksOf(s)) && ApplyPaymentResult(s, k, result, at).Ok?
    ensures Extends(BooksOf(s), BooksOf(ApplyPaymentResult(s, k, result, at).value))
  {
    hide Recover, FailInvoice;
    var attempt := s.attempts[k];
    if !Settled(attempt.status) {
      var marked := s.(attempts := s.attempts[k := attempt.(status := result.status)]);
      assert Covers(BooksOf(s), attempt.invoice, attempt.amount);
      if result.status in {Failed, Canceled} {
        FailInvoiceKeepsBooks(marked, attempt.invoice, at);
      } else if result.status == Succeeded {
        AppliedSuccessPays(s, k, result, at);
        var paid := PayInvoice(s.invoices[attempt.invoice], result.amount).value;
        var credited := marked.(
          invoices := s.invoices[attempt.invoice := paid],
          credits := s.credits + [Credit(k, attempt.invoice, result.amount)],
          sub := s.sub.(hasMethod := s.sub.hasMethod || result.savesMethod));
        RecoverKeepsBooks(credited, result.paidAt.Or(at));
      }
    }
  }

  lemma TryExtends(s: State, op: Op)
    requires Sound(BooksOf(s)) && Try(s, op).Ok?
    ensures Extends(BooksOf(s), BooksOf(Try(s, op).value))
  {
    hide Renew, ChangePlan, ChangeQuantity, ApplyPaymentResult, FailInvoice, InFlight;
    if Quiet(op) {
      QuietKeepsBooks(s, op);
    } else {
      match op {
        case DoRenew(_, _, _, _, _, _) => RenewIssues(s, op);
        case DoChangePlan(_, _, _, _, _) => ChangesIssue(s, op);
        case DoChangeQuantity(_, _, _) => ChangesIssue(s, op);
        case DoApplyResult(k, result, at) => ApplyResultExtends(s, k, result, at);
        case DoFailInvoice(k, at) => FailInvoiceKeepsBooks(s, k, at);
        case _ =>
      }
    }
  }

  /** A run keeps the books sound and never undoes a settlement, a payment or a credit. */
  lemma {:induction false} RunExtends(s: State, ops: seq<Op>)
    requires Sound(BooksOf(s))
    ensures Sound(BooksOf(Run(s, ops))) && Extends(BooksOf(s), BooksOf(Run(s, ops)))
    decreases |ops|
  {
    hide Sound, Try;
    if ops != [] {
      RunExtends(s, ops[..|ops| - 1]);
      var before, op := Run(s, ops[..|ops| - 1]), ops[|ops| - 1];
      if Try(before, op).Ok? {
        TryKeepsSound(before, op);
        TryExtends(before, op);
        ExtendsTransitive(BooksOf(s), BooksOf(before), BooksOf(Step(before, op)));
      }
    }
  }

  /**
   * Redeliveries are harmless: once an attempt has settled, any later delivery
   * of any result for it, after any run, is acknowledged without effect.
   */
  lemma RedeliveryHasNoEffect(s: State, ops: seq<Op>, k: nat, result: PaymentResult, at: int)
    requires Sound(BooksOf(s)) && k < |s.attempts| && Settled(s.attempts[k].status)
    ensures ApplyPaymentResult(Run(s, ops), k, result, at) == Ok(Run(s, ops))
  {
    hide Run;
    RunExtends(s, ops);
    assert Covers(BooksOf(Run(s, ops)), Run(s, ops).attempts[k].invoice, Run(s, ops).attempts[k].amount);
  }

  /** Nothing paid towards a void invoice is ever credited, however often it is delivered. */
  lemma VoidIsNeverCredited(s: State, ops: seq<Op>, k: nat, result: PaymentResult, at: int)
    requires Sound(BooksOf(s)) && k < |s.attempts| && s.attempts[k].invoice < |s.invoices| && s.invoices[s.attempts[k].invoice].status == Void
    requires result.status == Succeeded
    ensures var later := Run(s, ops); Step(later, DoApplyResult(k, result, at)) == later
  {
    hide Run, Sound, ApplyPaymentResult;
    RunExtends(s, ops);
    var later := Run(s, ops);
    assert BooksOf(later).attempts[k].invoice == BooksOf(s).attempts[k].invoice;
    assert BooksOf(later).invoices[s.attempts[k].invoice].status == Void;
    if Settled(later.attempts[k].status) {
      RunNone(later);
      RedeliveryHasNoEffect(later, [], k, result, at);
    } else {
      SuccessIsAppliedExactlyWhen(later, k, result, at);
    }
  }

  /**
   * The ledger balances after every run: paid amounts are the sums credited, no
   * attempt is credited twice, an invoice owes exactly what is unpaid, and every
   * attempt still asks for at least what its invoice owes.
   */
  lemma LedgerAlwaysBalances(s: State, ops: seq<Op>)
    requires Created(s)
    ensures Sound(BooksOf(Run(s, ops)))
  {
    hide Sound, Run;
    var price, quantity, trialDays, start, policy, hasMethod, at :|
      Create(price, quantity, trialDays, start, policy, hasMethod, at) == Ok(s);
    CreateIsSound(price, quantity, trialDays, start, policy, hasMethod, at);
    RunExtends(s, ops);
  }
}
