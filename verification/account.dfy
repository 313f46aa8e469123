/**
 * One subscription as the database keeps it: columns updated in place, child
 * rows appended, and transactions that roll everything back when they throw
 * (packages/billing/src subscriptions.ts, payments.ts, invoice.ts, transitions.ts).
 * Every transaction is proved to be the step that Billing gives it, so whatever
 * holds over runs of those steps holds of these columns.
 */
module Accounts {
  import opened Basics
  import opened Calendar
  import opened Interval
  import opened Money
  import opened InvoiceLines
  import opened Pricing
  import opened StateMachine
  import opened Recovery
  import opened Proration
  import opened Billing
  import StatusHistory

  class Account {
    // subscription columns
    var status: Status
    var price: Economics
    var quantity: int
    var currentPeriodStart: int
    var currentPeriodEnd: int
    var billingAnchorDay: Option<AnchorDay>
    var cancelAtPeriodEnd: bool
    var grace: Option<Grace>
    var pricePinned: bool
    var hasMethod: bool
    var pendingPrice: Option<Economics>
    var pendingQuantity: Option<int>
    const trialed: bool
    const createdAt: int
    // rows that point at the subscription
    var transitions: seq<StatusHistory.LogRow>
    var invoices: seq<Invoice>
    var attempts: seq<Attempt>
    var credits: seq<Credit>
    var events: seq<UsageEvent>
    // the organization's settings, and what callers have read but not yet used
    var policy: Policy
    var quotes: seq<Quote>
    var selections: seq<Selection>

    function State(): Billing.State
      reads this
    {
      Billing.State(
        StatusHistory.History(status, transitions),
        Subscription(price, quantity, Period(currentPeriodStart, currentPeriodEnd, billingAnchorDay), trialed,
                     cancelAtPeriodEnd, grace, pricePinned, hasMethod, createdAt, pendingPrice, pendingQuantity),
        invoices, attempts, credits, events, policy, quotes, selections)
    }

    /** The outcome of a transaction: committed as specified, or rolled back with the specified error. */
    ghost predicate Committed(spec: Result<Billing.State>, before: Billing.State, error: Option<ErrorCode>)
      reads this
    {
      match spec
      case Ok(after) => error == None && State() == after
      case Err(code) => error == Some(code) && State() == before
    }

    constructor (price: Economics, quantity: int, period: Period, trialed: bool, hasMethod: bool, createdAt: int,
                 status: Status, policy: Policy)
      ensures State() == Billing.State(StatusHistory.Begin(status),
                                       NewSubscription(price, quantity, period, trialed, hasMethod, createdAt),
                                       [], [], [], [], policy, [], [])
    {
      this.price, this.quantity, this.trialed, this.hasMethod, this.createdAt := price, quantity, trialed, hasMethod, createdAt;
      currentPeriodStart, currentPeriodEnd, billingAnchorDay := period.start, period.end, period.anchor;
      cancelAtPeriodEnd, grace, pricePinned, pendingPrice, pendingQuantity := false, None, false, None, None;
      this.status, transitions := status, [StatusHistory.Initial(status)];
      invoices, attempts, credits, events := [], [], [], [];
      this.policy, quotes, selections := policy, [], [];
    }

    method RestoreRow(to: Billing.State)
      modifies this
      ensures transitions == to.history.log && status == to.history.status
      ensures price == to.sub.price && quantity == to.sub.quantity && cancelAtPeriodEnd == to.sub.cancelAtPeriodEnd
      ensures Period(currentPeriodStart, currentPeriodEnd, billingAnchorDay) == to.sub.period
      ensures grace == to.sub.grace && pricePinned == to.sub.pricePinned && hasMethod == to.sub.hasMethod
      ensures pendingPrice == to.sub.pendingPrice && pendingQuantity == to.sub.pendingQuantity
    {
      status, transitions := to.history.status, to.history.log;
      price, quantity := to.sub.price, to.sub.quantity;
      currentPeriodStart, currentPeriodEnd, billingAnchorDay := to.sub.period.start, to.sub.period.end, to.sub.period.anchor;
      cancelAtPeriodEnd, grace, pricePinned, hasMethod := to.sub.cancelAtPeriodEnd, to.sub.grace, to.sub.pricePinned, to.sub.hasMethod;
      pendingPrice, pendingQuantity := to.sub.pendingPrice, to.sub.pendingQuantity;
    }

    /** A transaction that throws leaves nothing behind. */
    method Rollback(to: Billing.State)
      requires to.sub.trialed == trialed && to.sub.createdAt == createdAt
      modifies this
      ensures State() == to
    {
      RestoreRow(to);
      invoices, attempts, credits, events, policy, quotes, selections :=
        to.invoices, to.attempts, to.credits, to.events, to.policy, to.quotes, to.selections;
    }

    // -- status ---------------------------------------------------------------------

    /** `applyTransition`: validate, compare and swap, then append the audit row. */
    method ApplyTransition(from: Status, to: Status) returns (error: Option<ErrorCode>)
      modifies this`status, this`transitions
      ensures Committed(Transition(old(State()), from, to), old(State()), error)
    {
      if !CanTransition(from, to) { return Some(InvalidStateTransition); }
      if status != from { return Some(InvalidStateTransition); }
      status := to;
      transitions := transitions + [StatusHistory.Applied(from, to)];
      error := None;
    }

    method NoteTransition(noted: Status)
      modifies this`transitions
      ensures State() == old(State()).(history := StatusHistory.Note(old(State()).history, noted))
    {
      transitions := transitions + [StatusHistory.Noted(noted)];
    }

    // -- invoices -------------------------------------------------------------------

    /** `createInvoice` then `finalizeInvoice`. */
    method IssueInvoice(lines: seq<Line>, currency: Currency, start: int, end: int, reason: Option<InvoiceReason>,
                        at: int, usage: Option<UsageRecord>)
      modifies this`invoices
      ensures invoices == old(invoices) + [FinalizeInvoice(DraftInvoice(lines, currency, start, end, reason, at, usage))]
    {
      var totals := ComputeTotals(lines, 0);
      var invoice := Invoice(Draft, totals.total, 0, totals.amountDue, currency, start, end, reason, at, usage);
      var settled := invoice.total <= 0;
      invoice := invoice.(status := if settled then Paid else Open, amountDue := if settled then 0 else invoice.total);
      invoices := invoices + [invoice];
    }

    method PayInvoice(k: nat, amount: int) returns (error: Option<ErrorCode>)
      requires k < |invoices|
      modifies this`invoices
      ensures match Billing.PayInvoice(old(invoices[k]), amount)
              case Ok(paid) => error == None && invoices == old(invoices)[k := paid]
              case Err(code) => error == Some(code) && invoices == old(invoices)
    {
      var invoice := invoices[k];
      if invoice.status == Void { return Some(InvoiceNotPayable); }
      var amountPaid := invoice.amountPaid + amount;
      var amountDue := Max(invoice.total - amountPaid, 0);
      var status := if amountDue == 0 then Paid else if invoice.status == Draft then Open else invoice.status;
      invoices := invoices[k := invoice.(amountPaid := amountPaid, amountDue := amountDue, status := status)];
      error := None;
    }

    method VoidInvoice(k: nat) returns (error: Option<ErrorCode>)
      modifies this`invoices
      ensures Committed(Billing.VoidInvoice(old(State()), k), old(State()), error)
    {
      if k >= |invoices| { return Some(InvoiceNotFound); }
      if invoices[k].status == Paid { return Some(InvoiceAlreadyPaid); }
      invoices := invoices[k := invoices[k].(status := Void, amountDue := 0)];
      error := None;
    }

    // -- the billing cycle ------------------------------------------------------------

    /** `createSubscription`: the first invoice, and activation when it settles at zero. */
    static method Create(price: Economics, quantity: int, trialDays: int, start: int, policy: Policy, hasMethod: bool, at: int)
      returns (error: Option<ErrorCode>, account: Account?)
      ensures match Billing.Create(price, quantity, trialDays, start, policy, hasMethod, at)
              case Ok(s) => error == None && account != null && fresh(account) && account.State() == s
              case Err(code) => error == Some(code) && account == null
    {
      hide AddInterval, RecurringLines, DraftInvoice, FinalizeInvoice;
      account := null;
      if !Billable(price) { return Some(ValidationError), null; }
      if quantity < 1 { return Some(ValidationError), null; }
      if price.model != PER_SEAT && quantity != 1 { return Some(ValidationError), null; }
      var anchor := Some(DayOfMonth(start));
      if trialDays > 0 {
        account := new Account(price, quantity, Period(start, start + trialDays * DAY_MS, anchor), true, hasMethod, at, TRIALING, policy);
        return None, account;
      }
      var end := AddInterval(start, price.interval, anchor);
      if end.Err? { return Some(end.error), null; }
      var lines := RecurringLines(price, quantity, start, end.value);
      if lines.Err? { return Some(lines.error), null; }
      account := new Account(price, quantity, Period(start, end.value, anchor), false, hasMethod, at, INCOMPLETE, policy);
      account.IssueInvoice(lines.value, price.currency, start, end.value, None, at, None);
      error := None;
      if account.invoices[0].status == Paid {
        error := account.ApplyTransition(INCOMPLETE, ACTIVE);
      }
    }

    /** The usage side of a renewal: flush, read the closed window, build its lines. */
    method MeterClosedPeriod(billed: Economics, flush: seq<UsageEvent>) returns (lines: seq<Line>, usage: Option<UsageRecord>)
      modifies this`events
      ensures Metered(events, lines, usage) == Billing.MeterClosedPeriod(old(State()), billed, flush)
    {
      hide UsageLines, UsageSnapshot, PeriodUsage, InsertEvents;
      lines, usage := [], None;
      if billed.usageMeter.Some? {
        events := InsertEvents(events, flush);
        var meter := billed.usageMeter.value;
        var used := PeriodUsage(events, meter, currentPeriodStart, currentPeriodEnd);
        var s := UsageSnapshot(billed, used);
        lines := BuildUsageLines(billed, s.quota.used, s.quota.included, s.quota.overage, s.overageBlocks, currentPeriodStart, currentPeriodEnd);
        assert lines == UsageLines(billed, s, currentPeriodStart, currentPeriodEnd);
        usage := Some(UsageRecord(meter, currentPeriodStart, currentPeriodEnd, used));
      }
    }

    method MovePeriod(p: Period)
      modifies this`currentPeriodStart, this`currentPeriodEnd, this`billingAnchorDay
      ensures State() == old(State()).(sub := old(State()).sub.(period := p))
    {
      currentPeriodStart, currentPeriodEnd, billingAnchorDay := p.start, p.end, p.anchor;
    }

    method StartPeriod(p: Period, billed: Economics, lines: seq<Line>, usage: Option<UsageRecord>, at: int)
      modifies this`invoices, this`currentPeriodStart, this`currentPeriodEnd, this`billingAnchorDay, this`price
      ensures State() == old(State()).(
                invoices := old(invoices) + [FinalizeInvoice(DraftInvoice(lines, billed.currency, p.start, p.end, None, at, usage))],
                sub := old(State()).sub.(period := p, price := billed))
    {
      IssueInvoice(lines, billed.currency, p.start, p.end, None, at, usage);
      MovePeriod(p);
      price := billed;
    }

    method OpenNextPeriod(billed: Economics, flush: seq<UsageEvent>, at: int) returns (error: Option<ErrorCode>)
      modifies this`events, this`invoices, this`currentPeriodStart, this`currentPeriodEnd, this`billingAnchorDay, this`price
      ensures Committed(Billing.OpenNextPeriod(old(State()), billed, flush, at), old(State()), error)
    {
      hide AddInterval, RecurringLines, Billing.MeterClosedPeriod, DraftInvoice, FinalizeInvoice;
      var periodStart := currentPeriodEnd;
      var anchor := if status == TRIALING then Some(DayOfMonth(periodStart)) else billingAnchorDay;
      var periodEnd := AddInterval(periodStart, billed.interval, anchor);
      if periodEnd.Err? { return Some(periodEnd.error); }
      var lines := RecurringLines(billed, quantity, periodStart, periodEnd.value);
      if lines.Err? { return Some(lines.error); }
      var metered, usage := MeterClosedPeriod(billed, flush);
      StartPeriod(Period(periodStart, periodEnd.value, anchor), billed, lines.value + metered, usage, at);
      error := None;
    }

    /** `renewSubscription`, under its advisory lock. */
    method Renew(now: int, onlyWhenDue: bool, current: Option<Economics>, flush: seq<UsageEvent>, otherMethod: bool, at: int)
      returns (error: Option<ErrorCode>)
      modifies this
      ensures Committed(Billing.Renew(old(State()), now, onlyWhenDue, current, flush, otherMethod, at), old(State()), error)
    {
      hide Billing.OpenNextPeriod, Billable;
      var before := State();
      if status in {CANCELED, EXPIRED, PAUSED} { return Some(InvalidStateTransition); }
      if status == INCOMPLETE { return Some(InvalidStateTransition); }
      if onlyWhenDue && !IsPeriodDue(currentPeriodEnd, now) { return None; }
      if cancelAtPeriodEnd {
        error := ApplyTransition(status, CANCELED);
        return;
      }
      var billed := price;
      if !pricePinned && current.Some? && CanRollForward(price, current.value) { billed := current.value; }
      if !Billable(billed) { return Some(ValidationError); }
      var trialing, collectable := status == TRIALING, hasMethod || otherMethod;
      error := OpenNextPeriod(billed, flush, at);
      if error == None && trialing && !collectable {
        error := ApplyTransition(TRIALING, PAST_DUE);
        if error != None { Rollback(before); }
      }
    }

    method TrackUsage(e: UsageEvent) returns (error: Option<ErrorCode>)
      modifies this`events
      ensures Committed(Billing.TrackUsage(old(State()), e), old(State()), error)
    {
      if e.units < 0 || e.units > MAX_UNITS { return Some(ValidationError); }
      if !Known(events, e.id) { events := events + [e]; }
      error := None;
    }

    // -- collecting -------------------------------------------------------------------

    /** The read that starts `attemptInvoicePayment`. */
    method ReadQuote(k: nat) returns (error: Option<ErrorCode>)
      modifies this`quotes
      ensures Committed(Billing.ReadQuote(old(State()), k), old(State()), error)
    {
      if k >= |invoices| { return Some(InvoiceNotFound); }
      var due := AssertPayable(invoices[k]);
      if due.Err? { return Some(due.error); }
      quotes := quotes + [Quote(k, due.value)];
      error := None;
    }

    /** The locked check for an attempt in flight, scanning the invoice's attempts. */
    method FindInFlight(invoice: nat, at: int) returns (found: bool)
      ensures found == InFlight(State(), invoice, at)
    {
      found := false;
      for i := 0 to |attempts|
        invariant !found
        invariant forall j :: 0 <= j < i ==>
          !(attempts[j].invoice == invoice && attempts[j].status == Processing && attempts[j].createdAt >= at - IN_FLIGHT_MS)
      {
        if attempts[i].invoice == invoice && attempts[i].status == Processing && attempts[i].createdAt >= at - IN_FLIGHT_MS {
          assert State().attempts[i] == attempts[i];
          return true;
        }
      }
    }

    method OpenAttempt(q: nat, at: int) returns (error: Option<ErrorCode>)
      modifies this`attempts
      ensures Committed(Billing.OpenAttempt(old(State()), q, at), old(State()), error)
    {
      if q >= |quotes| { return Some(InvalidRequest); }
      var inFlight := FindInFlight(quotes[q].invoice, at);
      if inFlight { return Some(RequestInProgress); }
      attempts := attempts + [Attempt(quotes[q].invoice, quotes[q].amount, Processing, at)];
      error := None;
    }

    method FailAttempt(k: nat) returns (error: Option<ErrorCode>)
      modifies this`attempts
      ensures Committed(Billing.FailAttempt(old(State()), k), old(State()), error)
    {
      if k >= |attempts| { return Some(PaymentAttemptNotFound); }
      attempts := attempts[k := attempts[k].(status := Failed)];
      error := None;
    }

    /** `failInvoiceInTransaction`. */
    method FailInvoice(k: nat, at: int) returns (error: Option<ErrorCode>)
      modifies this
      ensures Committed(Billing.FailInvoice(old(State()), k, at), old(State()), error)
    {
      if k >= |invoices| { return None; }
      if status in {CANCELED, EXPIRED, PAUSED, UNPAID, GRACE_PERIOD} { return None; }
      if status == INCOMPLETE { return None; }
      if status != PAST_DUE {
        error := ApplyTransition(status, PAST_DUE);
        if error != None { return; }
      }
      error := ApplyTransition(PAST_DUE, GRACE_PERIOD);
      grace := Some(Grace(at, at + policy.gracePeriodDays * DAY_MS, policy));
    }

    method Recover(recoveredAt: int) returns (error: Option<ErrorCode>)
      modifies this
      ensures Committed(Billing.Recover(old(State()), recoveredAt), old(State()), error)
    {
      hide AddInterval, CanTransition;
      var plan := PlanPaymentRecovery(status, Period(currentPeriodStart, currentPeriodEnd, billingAnchorDay), price.interval, recoveredAt);
      if plan.Err? { return Some(plan.error); }
      if !plan.value.recovers { return None; }
      error := ApplyTransition(status, ACTIVE);
      if error != None { return; }
      grace := None;
      if plan.value.rebased {
        MovePeriod(plan.value.period);
      }
    }

    method RecordPayment(k: nat, invoice: nat, result: PaymentResult, at: int) returns (error: Option<ErrorCode>)
      requires invoice < |invoices|
      modifies this
      ensures Committed(Billing.RecordPayment(old(State()), k, invoice, result, at), old(State()), error)
    {
      hide Billing.Recover;
      var before := State();
      hasMethod := hasMethod || result.savesMethod;
      error := PayInvoice(invoice, result.amount);
      if error != None {
        Rollback(before);
        return;
      }
      credits := credits + [Credit(k, invoice, result.amount)];
      if invoices[invoice].status == Paid {
        error := Recover(result.paidAt.Or(at));
        if error != None { Rollback(before); }
      }
    }

    /** `applyPaymentResult`: attempt, invoice and subscription move together or not at all. */
    method ApplyPaymentResult(k: nat, result: PaymentResult, at: int) returns (error: Option<ErrorCode>)
      modifies this
      ensures Committed(Billing.ApplyPaymentResult(old(State()), k, result, at), old(State()), error)
    {
      hide Billing.FailInvoice, Billing.RecordPayment;
      var before := State();
      if k >= |attempts| { return Some(PaymentAttemptNotFound); }
      var attempt := attempts[k];
      if attempt.invoice >= |invoices| { return Some(InvoiceNotFound); }
      if Settled(attempt.status) { return None; }
      if result.status == Succeeded {
        if result.currency != invoices[attempt.invoice].currency { return Some(CurrencyMismatch); }
        if result.amount < attempt.amount { return Some(PaymentFailed); }
      }
      attempts := attempts[k := attempt.(status := result.status)];
      if result.status != Succeeded {
        error := None;
        if result.status in {Failed, Canceled} {
          error := FailInvoice(attempt.invoice, at);
        }
      } else {
        error := RecordPayment(k, attempt.invoice, result, at);
      }
      if error != None { Rollback(before); }
    }

    // -- sweeps -----------------------------------------------------------------------

    method SelectGrace(now: int)
      modifies this`selections
      ensures Ok(State()) == Billing.SelectGrace(old(State()), now)
    {
      if status == GRACE_PERIOD && grace.Some? && grace.value.end <= now {
        selections := selections + [GraceDue(Some(grace.value.policy))];
      }
    }

    method CloseGrace(i: nat) returns (error: Option<ErrorCode>)
      modifies this`status, this`transitions
      ensures Committed(Billing.CloseGrace(old(State()), i), old(State()), error)
    {
      if i >= |selections| || !selections[i].GraceDue? { return Some(InvalidRequest); }
      var action := selections[i].policy.Or(policy).failureAction;
      var target := match action case CANCEL => CANCELED case PAUSE => PAUSED case MARK_UNPAID => UNPAID;
      error := ApplyTransition(GRACE_PERIOD, target);
    }

    method SelectIncomplete(now: int)
      modifies this`selections
      ensures Ok(State()) == Billing.SelectIncomplete(old(State()), now)
    {
      if policy.incompleteExpiryHours <= 0 { return; }
      var cutoff := now - policy.incompleteExpiryHours * HOUR_MS;
      if status == INCOMPLETE && createdAt <= cutoff { selections := selections + [IncompleteDue]; }
    }

    /** Expire a selected row and void what it never paid, in one transaction. */
    method ExpireIncomplete(i: nat) returns (error: Option<ErrorCode>)
      modifies this`status, this`transitions, this`invoices
      ensures Committed(Billing.ExpireIncomplete(old(State()), i), old(State()), error)
    {
      if i >= |selections| || !selections[i].IncompleteDue? { return Some(InvalidRequest); }
      error := ApplyTransition(INCOMPLETE, EXPIRED);
      if error == None {
        invoices := VoidUnpaid(invoices);
      }
    }

    method CloseUncollectedTrial() returns (error: Option<ErrorCode>)
      modifies this`status, this`transitions
      ensures Committed(Billing.CloseUncollectedTrial(old(State())), old(State()), error)
    {
      error := ApplyTransition(TRIALING, PAST_DUE);
    }

    // -- changes the merchant or customer makes -----------------------------------------

    method Cancel(atPeriodEnd: bool) returns (error: Option<ErrorCode>)
      modifies this`status, this`transitions, this`cancelAtPeriodEnd
      ensures Committed(Billing.Cancel(old(State()), atPeriodEnd), old(State()), error)
    {
      if status == CANCELED { return Some(SubscriptionAlreadyCanceled); }
      if atPeriodEnd {
        cancelAtPeriodEnd := true;
        NoteTransition(status);
        return None;
      }
      error := ApplyTransition(status, CANCELED);
      if error == None { cancelAtPeriodEnd := false; }
    }

    method Resume(now: int) returns (error: Option<ErrorCode>)
      modifies this`status, this`transitions, this`cancelAtPeriodEnd
      ensures Committed(Billing.Resume(old(State()), now), old(State()), error)
    {
      if status == PAUSED {
        error := ApplyTransition(PAUSED, ACTIVE);
        return;
      }
      if !cancelAtPeriodEnd { return Some(InvalidStateTransition); }
      if currentPeriodEnd <= now { return Some(InvalidStateTransition); }
      cancelAtPeriodEnd := false;
      NoteTransition(status);
      error := None;
    }

    method Pause() returns (error: Option<ErrorCode>)
      modifies this`status, this`transitions
      ensures Committed(Billing.Pause(old(State())), old(State()), error)
    {
      error := ApplyTransition(status, PAUSED);
    }

    method IssueProration(lines: seq<Line>, currency: Currency, now: int, reason: InvoiceReason, at: int)
      modifies this`invoices
      ensures State() == Billing.IssueProration(old(State()), lines, currency, now, reason, at)
    {
      if lines != [] {
        IssueInvoice(lines, currency, now, currentPeriodEnd, Some(reason), at, None);
      }
    }

    method MoveToPlan(newPrice: Economics, newQuantity: int, lines: seq<Line>, now: int, at: int)
      modifies this
      ensures State() == Billing.MoveToPlan(old(State()), newPrice, newQuantity, lines, now, at)
    {
      hide Billing.IssueProration;
      price, quantity := newPrice, newQuantity;
      NoteTransition(status);
      IssueProration(lines, newPrice.currency, now, PlanChange, at);
    }

    method ChangePlan(newPrice: Economics, newQuantity: Option<int>, timing: Option<Timing>, now: int, at: int)
      returns (error: Option<ErrorCode>)
      modifies this
      ensures Committed(Billing.ChangePlan(old(State()), newPrice, newQuantity, timing, now, at), old(State()), error)
    {
      hide RecurringAmount, Prorate, LinesTotal, Billable, Billing.MoveToPlan;
      if status in {CANCELED, EXPIRED} { return Some(InvalidStateTransition); }
      if !Billable(newPrice) { return Some(ValidationError); }
      if price.currency != newPrice.currency { return Some(CurrencyMismatch); }
      var target := newQuantity.Or(quantity);
      var currentValue := RecurringAmount(price, quantity);
      if currentValue.Err? { return Some(currentValue.error); }
      var newValue := RecurringAmount(newPrice, target);
      if newValue.Err? { return Some(newValue.error); }
      var when := timing.Or(if newValue.value >= currentValue.value then IMMEDIATE else NEXT_PERIOD);
      if when == NEXT_PERIOD {
        pendingPrice := Some(newPrice);
        NoteTransition(status);
        return None;
      }
      var proration := CalculateProration(currentPeriodStart, currentPeriodEnd, now,
                                          Cash(currentValue.value, newPrice.currency), Cash(newValue.value, newPrice.currency));
      if proration.Err? { return Some(proration.error); }
      MoveToPlan(newPrice, target, proration.value.lines, now, at);
      error := None;
    }

    method ChangeQuantity(newQuantity: int, now: int, at: int) returns (error: Option<ErrorCode>)
      modifies this
      ensures Committed(Billing.ChangeQuantity(old(State()), newQuantity, now, at), old(State()), error)
    {
      hide ProrateSeats, Billing.IssueProration;
      if price.model != PER_SEAT { return Some(ValidationError); }
      if newQuantity < 1 { return Some(ValidationError); }
      var delta := newQuantity - quantity;
      if delta == 0 { return None; }
      if delta < 0 {
        pendingQuantity := Some(newQuantity);
        NoteTransition(status);
        return None;
      }
      var proration := ProrateSeats(currentPeriodStart, currentPeriodEnd, now,
                                    Cash(price.unitAmount.Or(0), price.currency), quantity, newQuantity);
      if proration.Err? { return Some(proration.error); }
      quantity := newQuantity;
      IssueProration(proration.value.lines, price.currency, now, SeatChange, at);
      error := None;
    }
  }
}
