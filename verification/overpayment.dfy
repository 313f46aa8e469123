/** When an invoice is credited beyond its total (packages/billing/src/payments.ts). */
module Overpayment {
  import opened Basics
  import opened StateMachine
  import opened Billing
  import opened Ledger
  import opened Lifecycle
  import Calendar
  import Interval
  import Pricing
  import Proration
  import Recovery
  import StatusHistory

  // -- every attempt asks for everything ------------------------------------------------------

  predicate AsksAll(b: Books, invoice: nat, amount: int) {
    invoice < |b.invoices| && amount == b.invoices[invoice].total > 0
  }

  /** Quotes and attempts ask for the whole invoice, and credits cover it. */
  ghost predicate FullAmounts(b: Books) {
    && (forall i :: 0 <= i < |b.quotes| ==> AsksAll(b, b.quotes[i].invoice, b.quotes[i].amount))
    && (forall i :: 0 <= i < |b.attempts| ==> AsksAll(b, b.attempts[i].invoice, b.attempts[i].amount))
    && (forall i :: 0 <= i < |b.credits| ==> CoversAll(b, b.credits[i]))
  }

  predicate CoversAll(b: Books, c: Credit) {
    c.invoice < |b.invoices| && 0 < b.invoices[c.invoice].total <= c.amount
  }

  function CreditCount(credits: seq<Credit>, invoice: nat): nat {
    if credits == [] then 0
    else CreditCount(credits[..|credits| - 1], invoice) + (if credits[|credits| - 1].invoice == invoice then 1 else 0)
  }

  /** So credits add up to at least the total each. */
  lemma {:induction false} CreditsCover(b: Books, credits: seq<Credit>, k: nat)
    requires k < |b.invoices| && b.invoices[k].total > 0 && forall i :: 0 <= i < |credits| ==> CoversAll(b, credits[i])
    ensures Credited(credits, k) >= CreditCount(credits, k) * b.invoices[k].total
    ensures CreditCount(credits, k) == 0 ==> Credited(credits, k) == 0
    ensures CreditCount(credits, k) >= 2 ==> Credited(credits, k) > b.invoices[k].total
    ensures forall i :: 0 <= i < |credits| && credits[i].invoice == k ==> Credited(credits, k) >= credits[i].amount
    ensures CreditCount(credits, k) == 1 ==> exists i :: 0 <= i < |credits| && credits[i].invoice == k && Credited(credits, k) == credits[i].amount
    decreases |credits|
  {
    if credits != [] {
      var n, earlier := |credits| - 1, credits[..|credits| - 1];
      CreditsCover(b, earlier, k);
      assert CoversAll(b, credits[n]);
      assert forall i :: 0 <= i < n ==> earlier[i] == credits[i];
      Multiple(CreditCount(earlier, k), b.invoices[k].total);
    }
  }

  lemma Multiple(n: nat, x: int)
    requires x > 0
    ensures (n + 1) * x == n * x + x && n * x >= 0 && (n >= 1 ==> n * x >= x)
  {}

  /** An invoice that still owes something has been credited nothing. */
  lemma OwingMeansUncredited(b: Books, k: nat)
    requires Sound(b) && FullAmounts(b) && k < |b.invoices| && b.invoices[k].amountDue > 0
    ensures b.invoices[k].amountPaid == 0 && b.invoices[k].amountDue == b.invoices[k].total
  {
    assert InvoiceSound(b.invoices[k]);
    if b.invoices[k].total > 0 {
      CreditsCover(b, b.credits, k);
    } else {
      NothingCovers(b, b.credits, k);
    }
  }

  lemma NothingCovers(b: Books, credits: seq<Credit>, k: nat)
    requires k < |b.invoices| && b.invoices[k].total <= 0 && forall i :: 0 <= i < |credits| ==> CoversAll(b, credits[i])
    ensures Credited(credits, k) == 0
  {
    forall i | 0 <= i < |credits| ensures credits[i].invoice != k { assert CoversAll(b, credits[i]); }
    NothingCreditedYet(credits, k);
  }

  // -- over every transaction -------------------------------------------------------------------

  /** The rows one transaction adds to quotes, attempts and credits. */
  predicate Adds(s: State, op: Op, s': State) {
    && (s'.quotes == s.quotes
        || (op.DoReadQuote? && op.invoice < |s.invoices| && s'.quotes == s.quotes + [Quote(op.invoice, s.invoices[op.invoice].amountDue)]
            && s.invoices[op.invoice].amountDue > 0))
    && (|s'.attempts| == |s.attempts|
        || (op.DoOpenAttempt? && op.quote < |s.quotes|
            && s'.attempts == s.attempts + [Attempt(s.quotes[op.quote].invoice, s.quotes[op.quote].amount, Processing, op.at)]))
    && (s'.credits == s.credits
        || (op.DoApplyResult? && op.attempt < |s.attempts| && s.attempts[op.attempt].amount <= op.result.amount
            && s'.credits == s.credits + [Credit(op.attempt, s.attempts[op.attempt].invoice, op.result.amount)]))
  }

  lemma ApplyAdds(s: State, op: Op)
    requires op.DoApplyResult? && Try(s, op).Ok? && Sound(BooksOf(s))
    ensures Adds(s, op, Try(s, op).value)
  {
    hide RecordPayment, Sound;
    var attempt := s.attempts[op.attempt];
    var marked := s.(attempts := s.attempts[op.attempt := attempt.(status := op.result.status)]);
    if !Settled(attempt.status) {
      if op.result.status == Succeeded {
        AppliedSuccessPays(s, op.attempt, op.result, op.at);
        RecordAdds(marked, op.attempt, attempt.invoice, op.result, op.at);
      } else if op.result.status in {Failed, Canceled} {
        FailInvoiceKeepsBooks(marked, attempt.invoice, op.at);
      }
    }
  }

  lemma RecordAdds(s: State, k: nat, invoice: nat, result: PaymentResult, at: int)
    requires invoice < |s.invoices| && RecordPayment(s, k, invoice, result, at).Ok?
    ensures var s' := RecordPayment(s, k, invoice, result, at).value;
            s'.quotes == s.quotes && s'.attempts == s.attempts && s'.credits == s.credits + [Credit(k, invoice, result.amount)]
  {
    hide Recovery.PlanPaymentRecovery, StatusHistory.ApplyTransition;
  }

  lemma TryAdds(s: State, op: Op)
    requires Try(s, op).Ok? && Sound(BooksOf(s))
    ensures Adds(s, op, Try(s, op).value)
  {
    hide Renew, ChangePlan, ChangeQuantity, ApplyPaymentResult, FailInvoice, InFlight, Sound;
    if Quiet(op) {
      QuietKeepsBooks(s, op);
    } else {
      match op {
        case DoRenew(_, _, _, _, _, _) => RenewIssues(s, op);
        case DoChangePlan(_, _, _, _, _) => ChangesIssue(s, op);
        case DoChangeQuantity(_, _, _) => ChangesIssue(s, op);
        case DoApplyResult(_, _, _) => ApplyAdds(s, op);
        case DoFailInvoice(k, at) => FailInvoiceKeepsBooks(s, k, at);
        case _ =>
      }
    }
  }

  lemma TryKeepsFullAmounts(s: State, op: Op)
    requires Sound(BooksOf(s)) && FullAmounts(BooksOf(s)) && Try(s, op).Ok?
    ensures FullAmounts(BooksOf(Try(s, op).value))
  {
    hide Try, Sound;
    TryAdds(s, op);
    TryExtends(s, op);
    if op.DoReadQuote? && op.invoice < |s.invoices| && s.invoices[op.invoice].amountDue > 0 { OwingMeansUncredited(BooksOf(s), op.invoice); }
    AddingKeepsFullAmounts(s, op, Try(s, op).value);
  }

  lemma AddingKeepsFullAmounts(s: State, op: Op, s': State)
    requires FullAmounts(BooksOf(s)) && Adds(s, op, s') && Extends(BooksOf(s), BooksOf(s'))
    requires op.DoReadQuote? && op.invoice < |s.invoices| && s.invoices[op.invoice].amountDue > 0
             ==> s.invoices[op.invoice].amountDue == s.invoices[op.invoice].total
    ensures FullAmounts(BooksOf(s'))
  {
    var b, b' := BooksOf(s), BooksOf(s');
    forall i | 0 <= i < |b'.quotes| ensures AsksAll(b', b'.quotes[i].invoice, b'.quotes[i].amount) {
      if i < |b.quotes| { assert AsksAll(b, b.quotes[i].invoice, b.quotes[i].amount); }
    }
    forall i | 0 <= i < |b'.attempts| ensures AsksAll(b', b'.attempts[i].invoice, b'.attempts[i].amount) {
      if i < |b.attempts| {
        assert AsksAll(b, b.attempts[i].invoice, b.attempts[i].amount);
      } else {
        assert AsksAll(b, b.quotes[op.quote].invoice, b.quotes[op.quote].amount);
      }
    }
    forall i | 0 <= i < |b'.credits| ensures CoversAll(b', b'.credits[i]) {
      if i < |b.credits| {
        assert CoversAll(b, b.credits[i]);
      } else {
        assert AsksAll(b, b.attempts[op.attempt].invoice, b.attempts[op.attempt].amount);
      }
    }
  }

  lemma {:induction false} AmountsStayFull(s: State, ops: seq<Op>)
    requires Sound(BooksOf(s)) && FullAmounts(BooksOf(s))
    ensures Sound(BooksOf(Run(s, ops))) && FullAmounts(BooksOf(Run(s, ops)))
    decreases |ops|
  {
    hide Try, Sound, FullAmounts;
    RunExtends(s, ops);
    if ops != [] {
      AmountsStayFull(s, ops[..|ops| - 1]);
      var before, op := Run(s, ops[..|ops| - 1]), ops[|ops| - 1];
      if Try(before, op).Ok? { TryKeepsFullAmounts(before, op); }
    }
  }

  lemma TransitionKeepsRows(s: State, from: Status, to: Status)
    requires Transition(s, from, to).Ok?
    ensures var s' := Transition(s, from, to).value; s'.quotes == s.quotes && s'.attempts == s.attempts && s'.credits == s.credits
  {
    hide StatusHistory.ApplyTransition;
  }

  lemma CreateStartsEmpty(price: Pricing.Economics, quantity: int, trialDays: int, start: int, policy: Policy, hasMethod: bool, at: int)
    requires Create(price, quantity, trialDays, start, policy, hasMethod, at).Ok?
    ensures var s := Create(price, quantity, trialDays, start, policy, hasMethod, at).value;
            s.quotes == [] && s.attempts == [] && s.credits == []
  {
    hide Calendar.DayOfMonth, Transition, Interval.AddInterval, Pricing.RecurringLines, Pricing.Billable, FinalizeInvoice, DraftInvoice,
         NewSubscription, StatusHistory.Begin;
    if trialDays <= 0 {
      var anchor := Some(Calendar.DayOfMonth(start));
      var end := Interval.AddInterval(start, price.interval, anchor).value;
      var lines := Pricing.RecurringLines(price, quantity, start, end).value;
      var inv := FinalizeInvoice(DraftInvoice(lines, price.currency, start, end, None, at, None));
      if inv.status == Paid {
        var sub := NewSubscription(price, quantity, Recovery.Period(start, end, anchor), false, hasMethod, at);
        TransitionKeepsRows(State(StatusHistory.Begin(INCOMPLETE), sub, [inv], [], [], [], policy, [], []), INCOMPLETE, ACTIVE);
      }
    }
  }

  lemma CreationHasNoAttempts(s: State)
    requires Created(s)
    ensures FullAmounts(BooksOf(s))
  {
    hide Create;
    var price, quantity, trialDays, start, policy, hasMethod, at :|
      Create(price, quantity, trialDays, start, policy, hasMethod, at) == Ok(s);
    CreateStartsEmpty(price, quantity, trialDays, start, policy, hasMethod, at);
  }

  // -- overpaid invoices --------------------------------------------------------------------------

  predicate Overpaid(inv: Invoice) { inv.amountPaid > inv.total }

  /**
   * After any run an invoice that charges something is overpaid exactly when two
   * attempts have been credited to it, or one with more than it charges.
   */
  lemma OverpaidAfterRuns(s: State, ops: seq<Op>, k: nat)
    requires Created(s) && k < |Run(s, ops).invoices| && Run(s, ops).invoices[k].total > 0
    ensures var now := Run(s, ops);
            Overpaid(now.invoices[k])
            <==> || CreditCount(now.credits, k) >= 2
                 || exists i :: 0 <= i < |now.credits| && now.credits[i].invoice == k && now.credits[i].amount > now.invoices[k].total
  {
    hide Run, Created;
    LedgerAlwaysBalances(s, []);
    RunNone(s);
    CreationHasNoAttempts(s);
    AmountsStayFull(s, ops);
    var now := Run(s, ops);
    assert InvoiceSound(now.invoices[k]) && now.invoices[k].amountPaid == Credited(now.credits, k);
    CreditsCover(BooksOf(now), now.credits, k);
    assert forall i :: 0 <= i < |now.credits| ==> CoversAll(BooksOf(now), now.credits[i]);
  }

  /**
   * What a caller can see before the delivery that does it: the invoice is
   * already paid, so two attempts overlapped, or the provider took more than
   * the attempt asked.
   */
  lemma DeliveryOverpaysExactlyWhen(s: State, k: nat, result: PaymentResult, at: int)
    requires Sound(BooksOf(s)) && FullAmounts(BooksOf(s))
    requires k < |s.attempts| && !Settled(s.attempts[k].status)
    requires result.status == Succeeded && ApplyPaymentResult(s, k, result, at).Ok?
    ensures var j := s.attempts[k].invoice;
            Overpaid(ApplyPaymentResult(s, k, result, at).value.invoices[j])
            <==> s.invoices[j].status == Paid || result.amount > s.attempts[k].amount
  {
    hide ApplyPaymentResult;
    var j := s.attempts[k].invoice;
    AppliedSuccessPays(s, k, result, at);
    assert AsksAll(BooksOf(s), j, s.attempts[k].amount);
    assert InvoiceSound(s.invoices[j]) && s.invoices[j].amountPaid == Credited(s.credits, j);
    DeliveryTotals(s, k, result, at);
    if s.invoices[j].amountDue > 0 { OwingMeansUncredited(BooksOf(s), j); }
  }

  /** An accepted delivery was for at least what the attempt asked, on an invoice that is not void. */
  lemma DeliveryTotals(s: State, k: nat, result: PaymentResult, at: int)
    requires Sound(BooksOf(s)) && k < |s.attempts| && !Settled(s.attempts[k].status)
    requires result.status == Succeeded && ApplyPaymentResult(s, k, result, at).Ok?
    ensures s.attempts[k].invoice < |s.invoices| && s.invoices[s.attempts[k].invoice].status != Void
    ensures result.amount >= s.attempts[k].amount
    ensures ApplyPaymentResult(s, k, result, at).value.invoices[s.attempts[k].invoice].total == s.invoices[s.attempts[k].invoice].total
  {
    hide Recover, Sound;
    ApplyResultExtends(s, k, result, at);
    assert BooksOf(s).invoices[s.attempts[k].invoice].total == s.invoices[s.attempts[k].invoice].total;
  }

  // -- two checkouts at once ----------------------------------------------------------------------

  function Reply(status: AttemptStatus, inv: Invoice, paidAt: int): PaymentResult {
    PaymentResult(status, inv.amountDue, inv.currency, Some(paidAt), false)
  }

  /** A collection whose hosted checkout is left open: the attempt is PENDING, which the in-flight check ignores. */
  function OpenCheckout(s: State, k: nat, at: int): seq<Op>
    requires k < |s.invoices|
  {
    [DoReadQuote(k), DoOpenAttempt(|s.quotes|, at), DoApplyResult(|s.attempts|, Reply(Pending, s.invoices[k], at), at)]
  }

  lemma CheckoutLeavesPending(s: State, k: nat, at: int)
    requires Collectable(s, k, at)
    ensures var pending := Run(s, OpenCheckout(s, k, at));
            && pending == s.(quotes := s.quotes + [Quote(k, s.invoices[k].amountDue)],
                             attempts := s.attempts + [Attempt(k, s.invoices[k].amountDue, Pending, at)])
            && Collectable(pending, k, at)
  {
    hide Run, InFlight, ApplyPaymentResult;
    var opening := [DoReadQuote(k), DoOpenAttempt(|s.quotes|, at)];
    AttemptOpens(s, k, at);
    RunMore(s, opening, DoApplyResult(|s.attempts|, Reply(Pending, s.invoices[k], at), at));
    assert opening + [DoApplyResult(|s.attempts|, Reply(Pending, s.invoices[k], at), at)] == OpenCheckout(s, k, at);
    PendingReply(Run(s, opening), |s.attempts|, Reply(Pending, s.invoices[k], at), at);
    var due := s.invoices[k].amountDue;
    assert (s.attempts + [Attempt(k, due, Processing, at)])[|s.attempts| := Attempt(k, due, Pending, at)] == s.attempts + [Attempt(k, due, Pending, at)];
    PendingIsNotInFlight(s, Run(s, OpenCheckout(s, k, at)), k, at);
  }

  lemma PendingReply(s: State, a: nat, result: PaymentResult, at: int)
    requires a < |s.attempts| && s.attempts[a].invoice < |s.invoices| && s.attempts[a].status == Processing && result.status == Pending
    ensures ApplyPaymentResult(s, a, result, at) == Ok(s.(attempts := s.attempts[a := s.attempts[a].(status := Pending)]))
  {}

  lemma PendingIsNotInFlight(s: State, s': State, k: nat, at: int)
    requires !InFlight(s, k, at) && |s'.attempts| == |s.attempts| + 1 && s'.attempts[..|s.attempts|] == s.attempts
    requires s'.attempts[|s.attempts|].status == Pending
    ensures !InFlight(s', k, at)
  {
    forall i | 0 <= i < |s'.attempts| ensures i < |s.attempts| ==> s'.attempts[i] == s.attempts[i] {
      if i < |s.attempts| { assert s'.attempts[..|s.attempts|][i] == s'.attempts[i]; }
    }
  }

  lemma DeliveryIsCredited(s: State, a: nat, k: nat, result: PaymentResult, at: int)
    requires Sound(BooksOf(s)) && Interval.ValidInterval(s.sub.price.interval)
    requires a < |s.attempts| && s.attempts[a].invoice == k < |s.invoices| && s.invoices[k].status in {Open, Paid}
    requires !Settled(s.attempts[a].status) && s.attempts[a].amount == result.amount
    requires result.status == Succeeded && result.currency == s.invoices[k].currency
    ensures var s' := Step(s, DoApplyResult(a, result, at));
            && Sound(BooksOf(s')) && s'.credits == s.credits + [Credit(a, k, result.amount)]
            && s'.sub.price == s.sub.price && |s'.invoices| == |s.invoices| && s'.invoices[k].status == Paid
            && s'.invoices[k].total == s.invoices[k].total && s'.invoices[k].currency == s.invoices[k].currency
            && s'.invoices[k].amountPaid == s.invoices[k].amountPaid + result.amount
            && s'.attempts == s.attempts[a := s.attempts[a].(status := Succeeded)] && s'.quotes == s.quotes
  {
    hide RecordPayment, Sound;
    var marked := s.(attempts := s.attempts[a := s.attempts[a].(status := Succeeded)]);
    RecordingSettles(s, marked, a, k, result, at);
    TryKeepsSound(s, DoApplyResult(a, result, at));
  }

  lemma RecordingSettles(s: State, marked: State, a: nat, k: nat, result: PaymentResult, at: int)
    requires Sound(BooksOf(s)) && Interval.ValidInterval(s.sub.price.interval)
    requires a < |s.attempts| && s.attempts[a].invoice == k < |s.invoices| && s.invoices[k].status in {Open, Paid}
    requires !Settled(s.attempts[a].status) && s.attempts[a].amount == result.amount
    requires marked == s.(attempts := s.attempts[a := s.attempts[a].(status := Succeeded)])
    ensures var r := RecordPayment(marked, a, k, result, at);
            && r.Ok? && r.value.attempts == marked.attempts && r.value.quotes == marked.quotes && r.value.credits == s.credits + [Credit(a, k, result.amount)]
            && r.value.sub.price == s.sub.price
            && var paid := PayInvoice(s.invoices[k], result.amount);
               paid.Ok? && paid.value.status == Paid && r.value.invoices == s.invoices[k := paid.value]
  {
    hide Recover, Sound;
    PayKeepsSound(BooksOf(s), a, result.amount);
    var paid := PayInvoice(s.invoices[k], result.amount).value;
    RecoverSucceeds(marked.(invoices := s.invoices[k := paid],
                            credits := s.credits + [Credit(a, k, result.amount)],
                            sub := s.sub.(hasMethod := s.sub.hasMethod || result.savesMethod)), result.paidAt.Or(at));
  }

  lemma RecoverSucceeds(s: State, recoveredAt: int)
    requires Interval.ValidInterval(s.sub.price.interval)
    ensures var r := Recover(s, recoveredAt);
            r.Ok? && r.value.attempts == s.attempts && r.value.quotes == s.quotes && r.value.credits == s.credits
            && r.value.invoices == s.invoices
            && r.value.sub.price == s.sub.price
  {
    hide Interval.AddMonths, Calendar.DayOfMonth;
  }

  /**
   * The in-flight check does not stop a second charge beside an open checkout:
   * on any collectable invoice two checkouts can be opened at one instant, and
   * when both succeed the invoice is credited twice over.
   */
  lemma TwoCheckoutsPayTwice(s: State, k: nat, at: int, paidAt: int)
    requires Sound(BooksOf(s)) && Interval.ValidInterval(s.sub.price.interval)
    requires Collectable(s, k, at)
    ensures var first := Run(s, OpenCheckout(s, k, at));
            && k < |first.invoices|
            && var second := Run(first, OpenCheckout(first, k, at));
               var success, a := Reply(Succeeded, s.invoices[k], paidAt), |s.attempts|;
               var paid := Run(second, [DoApplyResult(a, success, paidAt), DoApplyResult(a + 1, success, paidAt)]);
            && paid.credits == s.credits + [Credit(a, k, success.amount), Credit(a + 1, k, success.amount)]
            && k < |paid.invoices| && paid.invoices[k].amountPaid == s.invoices[k].amountPaid + 2 * s.invoices[k].amountDue
            && Overpaid(paid.invoices[k])
  {
    hide Run, Sound, Step, InFlight;
    assert InvoiceSound(s.invoices[k]) by { SoundInvoice(s, k); }
    CheckoutLeavesPending(s, k, at);
    var first := Run(s, OpenCheckout(s, k, at));
    CheckoutLeavesPending(first, k, at);
    var second := Run(first, OpenCheckout(first, k, at));
    RunExtends(s, OpenCheckout(s, k, at));
    RunExtends(first, OpenCheckout(first, k, at));
    var success, a := Reply(Succeeded, s.invoices[k], paidAt), |s.attempts|;
    DeliveryIsCredited(second, a, k, success, paidAt);
    var once := Step(second, DoApplyResult(a, success, paidAt));
    DeliveryIsCredited(once, a + 1, k, success, paidAt);
    RunTwo(second, DoApplyResult(a, success, paidAt), DoApplyResult(a + 1, success, paidAt));
    assert s.credits + [Credit(a, k, success.amount)] + [Credit(a + 1, k, success.amount)]
           == s.credits + [Credit(a, k, success.amount), Credit(a + 1, k, success.amount)];
  }

  // -- a charge that succeeds while its call breaks -------------------------------------------------

  /** Marking an attempt failed overwrites whatever it was, and opens its invoice to the next provider. */
  lemma MarkingOverwrites(s: State, a: nat, q: nat, at: int)
    requires a < |s.attempts| && q < |s.quotes|
    requires forall i :: 0 <= i < |s.attempts| && i != a && s.attempts[i].invoice == s.quotes[q].invoice && s.attempts[i].status == Processing
               ==> s.attempts[i].createdAt < at - IN_FLIGHT_MS
    ensures var marked := Step(s, DoFailAttempt(a));
            && marked == s.(attempts := s.attempts[a := s.attempts[a].(status := Failed)])
            && Step(marked, DoOpenAttempt(q, at))
               == marked.(attempts := marked.attempts + [Attempt(s.quotes[q].invoice, s.quotes[q].amount, Processing, at)])
  {}

  lemma NothingElseInFlight(s: State, s': State, k: nat, at: int)
    requires !InFlight(s, k, at) && |s'.attempts| == |s.attempts| + 1 && s'.attempts[..|s.attempts|] == s.attempts
    ensures forall i :: 0 <= i < |s'.attempts| && i != |s.attempts| && s'.attempts[i].invoice == k && s'.attempts[i].status == Processing
              ==> s'.attempts[i].createdAt < at - IN_FLIGHT_MS
  {
    forall i | 0 <= i < |s'.attempts| && i != |s.attempts| && s'.attempts[i].invoice == k && s'.attempts[i].status == Processing
      ensures s'.attempts[i].createdAt < at - IN_FLIGHT_MS
    {
      assert s'.attempts[..|s.attempts|][i] == s'.attempts[i];
    }
  }

  /** Quoted, attempted, credited by a delivery, and marked failed because the call itself broke. */
  function CreditedThenFailed(s: State, k: nat, at: int, paidAt: int): seq<Op>
    requires k < |s.invoices|
  {
    [DoReadQuote(k), DoOpenAttempt(|s.quotes|, at)]
    + [DoApplyResult(|s.attempts|, Reply(Succeeded, s.invoices[k], paidAt), paidAt), DoFailAttempt(|s.attempts|)]
  }

  lemma CreditedAttemptFails(s: State, k: nat, at: int, paidAt: int)
    requires Sound(BooksOf(s)) && Interval.ValidInterval(s.sub.price.interval) && Collectable(s, k, at)
    ensures var failed, a, due := Run(s, CreditedThenFailed(s, k, at, paidAt)), |s.attempts|, s.invoices[k].amountDue;
            && Sound(BooksOf(failed)) && failed.sub.price == s.sub.price && |failed.invoices| == |s.invoices|
            && failed.credits == s.credits + [Credit(a, k, due)] && failed.attempts == s.attempts + [Attempt(k, due, Failed, at)]
            && failed.invoices[k].status == Paid && failed.invoices[k].total == s.invoices[k].total
            && failed.invoices[k].currency == s.invoices[k].currency
            && failed.invoices[k].amountPaid == s.invoices[k].amountPaid + due
            && failed.quotes == s.quotes + [Quote(k, due)]
  {
    hide Run, Sound, Step, InFlight;
    AttemptOpens(s, k, at);
    var opening := [DoReadQuote(k), DoOpenAttempt(|s.quotes|, at)];
    var begun, success, a := Run(s, opening), Reply(Succeeded, s.invoices[k], paidAt), |s.attempts|;
    RunExtends(s, opening);
    DeliveryIsCredited(begun, a, k, success, paidAt);
    NothingElseInFlight(s, begun, k, at);
    MarkingOverwrites(Step(begun, DoApplyResult(a, success, paidAt)), a, |s.quotes|, at);
    RunAppend(s, opening, [DoApplyResult(a, success, paidAt), DoFailAttempt(a)]);
    RunTwo(begun, DoApplyResult(a, success, paidAt), DoFailAttempt(a));
    RunExtends(s, CreditedThenFailed(s, k, at, paidAt));
  }

  /**
   * A charge whose success is delivered while its own call breaks is credited,
   * and then marked FAILED all the same. The call moves on: it does not look at
   * the invoice again, so the next provider is charged for a paid invoice, and
   * its success is credited too.
   */
  lemma FailoverPaysTwice(s: State, k: nat, at: int, paidAt: int)
    requires Sound(BooksOf(s)) && Interval.ValidInterval(s.sub.price.interval) && Collectable(s, k, at)
    ensures var failed, a, due := Run(s, CreditedThenFailed(s, k, at, paidAt)), |s.attempts|, s.invoices[k].amountDue;
            && k < |failed.invoices| && failed.invoices[k].status == Paid
            && |failed.attempts| == a + 1 && failed.attempts[a].status == Failed && failed.credits == s.credits + [Credit(a, k, due)]
            && var paid := Run(failed, [DoOpenAttempt(|s.quotes|, at), DoApplyResult(a + 1, Reply(Succeeded, s.invoices[k], paidAt), paidAt)]);
            && paid.credits == failed.credits + [Credit(a + 1, k, due)]
            && k < |paid.invoices| && paid.invoices[k].amountPaid == s.invoices[k].amountPaid + 2 * due && Overpaid(paid.invoices[k])
  {
    hide Run, Sound, Step, InFlight;
    assert InvoiceSound(s.invoices[k]) by { SoundInvoice(s, k); }
    CreditedAttemptFails(s, k, at, paidAt);
    var failed, a, success := Run(s, CreditedThenFailed(s, k, at, paidAt)), |s.attempts|, Reply(Succeeded, s.invoices[k], paidAt);
    NothingElseInFlight(s, failed, k, at);
    OpensAgain(failed, a, |s.quotes|, at);
    var opening := DoOpenAttempt(|s.quotes|, at);
    RunOne(failed, opening);
    RunExtends(failed, [opening]);
    DeliveryIsCredited(Step(failed, opening), a + 1, k, success, paidAt);
    RunTwo(failed, opening, DoApplyResult(a + 1, success, paidAt));
  }

  lemma OpensAgain(s: State, a: nat, q: nat, at: int)
    requires a < |s.attempts| && q < |s.quotes| && s.attempts[a].status == Failed
    requires forall i :: 0 <= i < |s.attempts| && i != a && s.attempts[i].invoice == s.quotes[q].invoice && s.attempts[i].status == Processing
               ==> s.attempts[i].createdAt < at - IN_FLIGHT_MS
    ensures Step(s, DoOpenAttempt(q, at)) == s.(attempts := s.attempts + [Attempt(s.quotes[q].invoice, s.quotes[q].amount, Processing, at)])
  {}

  lemma SoundInvoice(s: State, k: nat)
    requires Sound(BooksOf(s)) && k < |s.invoices|
    ensures InvoiceSound(s.invoices[k])
  {
    assert BooksOf(s).invoices[k] == s.invoices[k];
  }
}
