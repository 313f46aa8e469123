/**
 * One subscription and everything that hangs off it: its row, invoices, payment
 * attempts, audit rows and usage events, with each transaction of
 * packages/billing/src as a function on that state. A transaction that throws
 * is an Err and changes nothing.
 *
 * Values that a caller reads in one transaction and uses in a later one are part
 * of the state: the invoice amount a collection call has read (`quotes`) and the
 * subscriptions a sweep has selected (`selections`).
 */
module Billing {
  import opened Basics
  import opened Calendar
  import opened Interval
  import opened Money
  import opened InvoiceLines
  import opened Pricing
  import opened StateMachine
  import opened StatusHistory
  import opened Recovery
  import opened Proration

  // -- rows -----------------------------------------------------------------------

  datatype FailureAction = MARK_UNPAID | CANCEL | PAUSE

  function StatusForFailureAction(action: FailureAction): Status {
    match action
    case MARK_UNPAID => UNPAID
    case CANCEL => CANCELED
    case PAUSE => PAUSED
  }

  /** The part of the dunning policy that decides statuses and grace windows. */
  datatype Policy = Policy(gracePeriodDays: int, failureAction: FailureAction, incompleteExpiryHours: int)

  datatype InvoiceStatus = Draft | Open | Paid | Void | Uncollectible

  /** The metered window a renewal invoice billed in arrears. */
  datatype UsageRecord = UsageRecord(meter: MeterId, start: int, end: int, used: int)

  datatype Invoice = Invoice(
    status: InvoiceStatus, total: int, amountPaid: int, amountDue: int, currency: Currency,
    periodStart: int, periodEnd: int, reason: Option<InvoiceReason>, createdAt: int, usage: Option<UsageRecord>)

  datatype AttemptStatus = Pending | Processing | Succeeded | Failed | Canceled

  datatype Attempt = Attempt(invoice: nat, amount: int, status: AttemptStatus, createdAt: int)

  /** Money an attempt added to an invoice. */
  datatype Credit = Credit(attempt: nat, invoice: nat, amount: int)

  /** What a collection call read before it took the lock. */
  datatype Quote = Quote(invoice: nat, amount: int)

  /** What a sweep read before it opened the transaction that acts on it. */
  datatype Selection = GraceDue(policy: Option<Policy>) | IncompleteDue

  datatype UsageEvent = UsageEvent(id: nat, meter: MeterId, units: int, timestamp: int)

  datatype Grace = Grace(start: int, end: int, policy: Policy)

  datatype Subscription = Subscription(
    price: Economics, quantity: int, period: Period, trialed: bool, cancelAtPeriodEnd: bool,
    grace: Option<Grace>, pricePinned: bool, hasMethod: bool, createdAt: int,
    pendingPrice: Option<Economics>, pendingQuantity: Option<int>)

  datatype State = State(
    history: History, sub: Subscription, invoices: seq<Invoice>, attempts: seq<Attempt>, credits: seq<Credit>,
    events: seq<UsageEvent>, policy: Policy, quotes: seq<Quote>, selections: seq<Selection>)
  {
    function Status(): StateMachine.Status { history.status }
  }

  /** `applyTransition` on the state, from the status the caller read. */
  function Transition(s: State, from: Status, to: Status): Result<State> {
    var h :- ApplyTransition(s.history, from, to);
    Ok(s.(history := h))
  }

  // -- invoices -------------------------------------------------------------------

  /** `createInvoice`: a draft whose total is the sum of its lines. */
  function DraftInvoice(lines: seq<Line>, currency: Currency, periodStart: int, periodEnd: int,
                        reason: Option<InvoiceReason>, createdAt: int, usage: Option<UsageRecord>): Invoice {
    var total := LinesTotal(lines);
    Invoice(Draft, total, 0, Max(total, 0), currency, periodStart, periodEnd, reason, createdAt, usage)
  }

  /** `finalizeInvoice`: a draft opens, or settles at once when it nets to nothing. */
  function FinalizeInvoice(inv: Invoice): Invoice {
    if inv.status != Draft then inv
    else if inv.total <= 0 then inv.(status := Paid, amountDue := 0)
    else inv.(status := Open, amountDue := inv.total)
  }

  /** `applyPaymentToInvoice`. */
  function PayInvoice(inv: Invoice, amount: int): Result<Invoice> {
    if inv.status == Void then Err(InvoiceNotPayable)
    else
      var paid := inv.amountPaid + amount;
      var due := Max(inv.total - paid, 0);
      Ok(inv.(amountPaid := paid, amountDue := due,
              status := if due == 0 then Paid else if inv.status == Draft then Open else inv.status))
  }

  function AssertPayable(inv: Invoice): Result<int> {
    if inv.status == Paid then Err(InvoiceAlreadyPaid)
    else if inv.status in {Void, Uncollectible} then Err(InvoiceNotPayable)
    else if inv.amountDue <= 0 then Err(InvoiceNotPayable)
    else Ok(inv.amountDue)
  }

  function VoidedInvoice(inv: Invoice): Invoice { inv.(status := Void, amountDue := 0) }

  /** `voidInvoice`. */
  function VoidInvoice(s: State, k: nat): Result<State> {
    if k >= |s.invoices| then Err(InvoiceNotFound)
    else if s.invoices[k].status == Paid then Err(InvoiceAlreadyPaid)
    else Ok(s.(invoices := s.invoices[k := VoidedInvoice(s.invoices[k])]))
  }

  // -- usage ----------------------------------------------------------------------

  const MAX_UNITS: int := 2_147_483_647

  predicate Known(events: seq<UsageEvent>, id: nat) { exists i :: 0 <= i < |events| && events[i].id == id }

  /** An insert that the unique event id turns into a no-op on a replay. */
  function InsertEvent(events: seq<UsageEvent>, e: UsageEvent): seq<UsageEvent> {
    if Known(events, e.id) then events else events + [e]
  }

  function InsertEvents(events: seq<UsageEvent>, new_: seq<UsageEvent>): seq<UsageEvent> {
    if new_ == [] then events else InsertEvent(InsertEvents(events, new_[..|new_| - 1]), new_[|new_| - 1])
  }

  /** `trackUsage`. */
  function TrackUsage(s: State, e: UsageEvent): Result<State> {
    if e.units < 0 || e.units > MAX_UNITS then Err(ValidationError)
    else Ok(s.(events := InsertEvent(s.events, e)))
  }

  function UnitsOf(e: UsageEvent, meter: MeterId, start: int, end: int): int {
    if e.meter == meter && start <= e.timestamp < end then e.units else 0
  }

  /** `getPeriodUsage` for a SUM meter: units stamped in [start, end). */
  function PeriodUsage(events: seq<UsageEvent>, meter: MeterId, start: int, end: int): int {
    if events == [] then 0
    else PeriodUsage(events[..|events| - 1], meter, start, end) + UnitsOf(events[|events| - 1], meter, start, end)
  }

  // -- the billing cycle ------------------------------------------------------------

  /** `createSubscription`, once the price, plan and customer have been looked up. */
  function Create(price: Economics, quantity: int, trialDays: int, start: int, policy: Policy, hasMethod: bool, at: int): Result<State> {
    if !Billable(price) then Err(ValidationError)
    else if quantity < 1 then Err(ValidationError)
    else if price.model != PER_SEAT && quantity != 1 then Err(ValidationError)
    else
      var anchor := Some(DayOfMonth(start));
      if trialDays > 0 then
        var sub := NewSubscription(price, quantity, Period(start, start + trialDays * DAY_MS, anchor), true, hasMethod, at);
        Ok(State(Begin(TRIALING), sub, [], [], [], [], policy, [], []))
      else
        var end :- AddInterval(start, price.interval, anchor);
        var lines :- RecurringLines(price, quantity, start, end);
        var sub := NewSubscription(price, quantity, Period(start, end, anchor), false, hasMethod, at);
        var inv := FinalizeInvoice(DraftInvoice(lines, price.currency, start, end, None, at, None));
        var s := State(Begin(INCOMPLETE), sub, [inv], [], [], [], policy, [], []);
        if inv.status == Paid then Transition(s, INCOMPLETE, ACTIVE) else Ok(s)
  }

  /** A state that `createSubscription` can return. */
  ghost predicate Created(s: State) {
    exists price, quantity, trialDays, start, policy, hasMethod, at ::
      Create(price, quantity, trialDays, start, policy, hasMethod, at) == Ok(s)
  }

  function NewSubscription(price: Economics, quantity: int, period: Period, trialed: bool, hasMethod: bool, at: int): Subscription {
    Subscription(price, quantity, period, trialed, false, None, false, hasMethod, at, None, None)
  }

  /** `canRollForward`. */
  predicate CanRollForward(from: Economics, to: Economics) {
    from.currency == to.currency && from.interval == to.interval
  }

  /** The price a renewal bills: the current version of the lineage, unless held back. */
  function BillingPrice(sub: Subscription, current: Option<Economics>): Economics {
    if !sub.pricePinned && current.Some? && CanRollForward(sub.price, current.value) then current.value else sub.price
  }

  /** The anchor a renewal bills on: a converting trial takes it from the day the trial ends. */
  function RenewalAnchor(s: State): Option<AnchorDay> {
    if s.Status() == TRIALING then Some(DayOfMonth(s.sub.period.end)) else s.sub.period.anchor
  }

  /** The metered part of a renewal: events flushed, then the closed window read. */
  datatype Metered = Metered(events: seq<UsageEvent>, lines: seq<Line>, usage: Option<UsageRecord>)

  function MeterClosedPeriod(s: State, price: Economics, flush: seq<UsageEvent>): Metered {
    if price.usageMeter.None? then Metered(s.events, [], None)
    else
      var p := s.sub.period;
      var events := InsertEvents(s.events, flush);
      var used := PeriodUsage(events, price.usageMeter.value, p.start, p.end);
      Metered(events, UsageLines(price, UsageSnapshot(price, used), p.start, p.end),
              Some(UsageRecord(price.usageMeter.value, p.start, p.end, used)))
  }

  /** The part of `renewSubscription` that opens the next period and invoices it. */
  function OpenNextPeriod(s: State, price: Economics, flush: seq<UsageEvent>, at: int): Result<State> {
    var p := s.sub.period;
    var anchor := RenewalAnchor(s);
    var end :- AddInterval(p.end, price.interval, anchor);
    var recurring :- RecurringLines(price, s.sub.quantity, p.end, end);
    var metered := MeterClosedPeriod(s, price, flush);
    var inv := FinalizeInvoice(DraftInvoice(recurring + metered.lines, price.currency, p.end, end, None, at, metered.usage));
    Ok(s.(events := metered.events, invoices := s.invoices + [inv],
          sub := s.sub.(period := Period(p.end, end, anchor), price := price)))
  }

  /**
   * `renewSubscription`. `current` is the newest version of the price, `flush`
   * the volume events due for the closed window, `otherMethod` whether the
   * customer has an active payment method besides the subscription's own.
   */
  function Renew(s: State, now: int, onlyWhenDue: bool, current: Option<Economics>, flush: seq<UsageEvent>,
                 otherMethod: bool, at: int): Result<State> {
    var status := s.Status();
    if status in {CANCELED, EXPIRED, PAUSED, INCOMPLETE} then Err(InvalidStateTransition)
    else if onlyWhenDue && !IsPeriodDue(s.sub.period.end, now) then Ok(s)
    else if s.sub.cancelAtPeriodEnd then Transition(s, status, CANCELED)
    else
      var price := BillingPrice(s.sub, current);
      if !Billable(price) then Err(ValidationError)
      else
        var renewed :- OpenNextPeriod(s, price, flush, at);
        if status == TRIALING && !(s.sub.hasMethod || otherMethod) then Transition(renewed, TRIALING, PAST_DUE)
        else Ok(renewed)
  }

  // -- collecting -------------------------------------------------------------------

  const IN_FLIGHT_MS: int := 300_000

  /** The start of `attemptInvoicePayment`: read the invoice and what it owes. */
  function ReadQuote(s: State, k: nat): Result<State> {
    if k >= |s.invoices| then Err(InvoiceNotFound)
    else
      var due :- AssertPayable(s.invoices[k]);
      Ok(s.(quotes := s.quotes + [Quote(k, due)]))
  }

  predicate InFlight(s: State, invoice: nat, at: int) {
    exists i :: 0 <= i < |s.attempts| && s.attempts[i].invoice == invoice && s.attempts[i].status == Processing
                && s.attempts[i].createdAt >= at - IN_FLIGHT_MS
  }

  /** The locked check-then-create of an attempt, for the amount quoted earlier. */
  function OpenAttempt(s: State, q: nat, at: int): Result<State> {
    if q >= |s.quotes| then Err(InvalidRequest)
    else if InFlight(s, s.quotes[q].invoice, at) then Err(RequestInProgress)
    else Ok(s.(attempts := s.attempts + [Attempt(s.quotes[q].invoice, s.quotes[q].amount, Processing, at)]))
  }

  /** A provider call that threw anything but a timeout: the attempt is marked failed, whatever it was. */
  function FailAttempt(s: State, k: nat): Result<State> {
    if k >= |s.attempts| then Err(PaymentAttemptNotFound)
    else Ok(s.(attempts := s.attempts[k := s.attempts[k].(status := Failed)]))
  }

  /** `openGracePeriod`: the window and the frozen policy. */
  function OpenGracePeriod(policy: Policy, failedAt: int): Grace {
    Grace(failedAt, failedAt + policy.gracePeriodDays * DAY_MS, policy)
  }

  /** `failInvoiceInTransaction`: what a failed collection does to the subscription. */
  function FailInvoice(s: State, k: nat, at: int): Result<State> {
    if k >= |s.invoices| then Ok(s)
    else if s.Status() in {CANCELED, EXPIRED, PAUSED, UNPAID, GRACE_PERIOD, INCOMPLETE} then Ok(s)
    else
      var lapsed :- if s.Status() != PAST_DUE then Transition(s, s.Status(), PAST_DUE) else Ok(s);
      var graced :- Transition(lapsed, PAST_DUE, GRACE_PERIOD);
      Ok(graced.(sub := graced.sub.(grace := Some(OpenGracePeriod(s.policy, at)))))
  }

  datatype PaymentResult = PaymentResult(status: AttemptStatus, amount: int, currency: Currency, paidAt: Option<int>, savesMethod: bool)

  predicate Settled(status: AttemptStatus) { status in {Succeeded, Failed, Canceled} }

  /** The subscription's side of a payment that settled its invoice in full. */
  function Recover(s: State, recoveredAt: int): Result<State> {
    var plan :- PlanPaymentRecovery(s.Status(), s.sub.period, s.sub.price.interval, recoveredAt);
    if !plan.recovers then Ok(s)
    else
      var active :- Transition(s, s.Status(), ACTIVE);
      Ok(active.(sub := active.sub.(grace := None, period := plan.period)))
  }

  /** A settled payment: credited to its invoice, and to the subscription once the invoice is paid in full. */
  function RecordPayment(s: State, k: nat, invoice: nat, result: PaymentResult, at: int): Result<State>
    requires invoice < |s.invoices|
  {
    var paid :- PayInvoice(s.invoices[invoice], result.amount);
    var credited := s.(
      invoices := s.invoices[invoice := paid],
      credits := s.credits + [Credit(k, invoice, result.amount)],
      sub := s.sub.(hasMethod := s.sub.hasMethod || result.savesMethod));
    if paid.status == Paid then Recover(credited, result.paidAt.Or(at)) else Ok(credited)
  }

  /** `applyPaymentResult`: one provider outcome, applied to attempt, invoice and subscription together. */
  function ApplyPaymentResult(s: State, k: nat, result: PaymentResult, at: int): Result<State> {
    if k >= |s.attempts| then Err(PaymentAttemptNotFound)
    else if s.attempts[k].invoice >= |s.invoices| then Err(InvoiceNotFound)
    else
      var attempt := s.attempts[k];
      var invoice := s.invoices[attempt.invoice];
      if Settled(attempt.status) then Ok(s)
      else if result.status == Succeeded && result.currency != invoice.currency then Err(CurrencyMismatch)
      else if result.status == Succeeded && result.amount < attempt.amount then Err(PaymentFailed)
      else
        var marked := s.(attempts := s.attempts[k := attempt.(status := result.status)]);
        if result.status in {Failed, Canceled} then FailInvoice(marked, attempt.invoice, at)
        else if result.status != Succeeded then Ok(marked)
        else RecordPayment(marked, k, attempt.invoice, result, at)
  }

  // -- sweeps -----------------------------------------------------------------------

  /** The read half of `expireGracePeriods`. */
  function SelectGrace(s: State, now: int): Result<State> {
    if s.Status() == GRACE_PERIOD && s.sub.grace.Some? && s.sub.grace.value.end <= now
    then Ok(s.(selections := s.selections + [GraceDue(Some(s.sub.grace.value.policy))]))
    else Ok(s)
  }

  /** The write half: the action of the policy that was read, if the row still says GRACE_PERIOD. */
  function CloseGrace(s: State, i: nat): Result<State> {
    if i >= |s.selections| || !s.selections[i].GraceDue? then Err(InvalidRequest)
    else
      var action := s.selections[i].policy.Or(s.policy).failureAction;
      Transition(s, GRACE_PERIOD, StatusForFailureAction(action))
  }

  const HOUR_MS: int := 3_600_000

  /** The read half of `expireIncompleteSubscriptions`. */
  function SelectIncomplete(s: State, now: int): Result<State> {
    var hours := s.policy.incompleteExpiryHours;
    if hours <= 0 || s.Status() != INCOMPLETE || s.sub.createdAt > now - hours * HOUR_MS then Ok(s)
    else Ok(s.(selections := s.selections + [IncompleteDue]))
  }

  /** The write half: expire, and void what was never paid, if the row still says INCOMPLETE. */
  function ExpireIncomplete(s: State, i: nat): Result<State> {
    if i >= |s.selections| || !s.selections[i].IncompleteDue? then Err(InvalidRequest)
    else
      var expired :- Transition(s, INCOMPLETE, EXPIRED);
      Ok(expired.(invoices := VoidUnpaid(s.invoices)))
  }

  function VoidUnpaid(invoices: seq<Invoice>): (r: seq<Invoice>)
    ensures |r| == |invoices|
    ensures forall i :: 0 <= i < |invoices| ==>
              r[i] == if invoices[i].status in {Draft, Open} then VoidedInvoice(invoices[i]) else invoices[i]
  {
    seq(|invoices|, i requires 0 <= i < |invoices| =>
      if invoices[i].status in {Draft, Open} then VoidedInvoice(invoices[i]) else invoices[i])
  }

  /** The renewal sweep closing a trial whose charge could not be attempted. */
  function CloseUncollectedTrial(s: State): Result<State> { Transition(s, TRIALING, PAST_DUE) }

  // -- changes the merchant or customer makes -----------------------------------------

  /** `cancelSubscription`. */
  function Cancel(s: State, atPeriodEnd: bool): Result<State> {
    if s.Status() == CANCELED then Err(SubscriptionAlreadyCanceled)
    else if atPeriodEnd then
      Ok(s.(history := Note(s.history, s.Status()), sub := s.sub.(cancelAtPeriodEnd := true)))
    else
      var canceled :- Transition(s, s.Status(), CANCELED);
      Ok(canceled.(sub := canceled.sub.(cancelAtPeriodEnd := false)))
  }

  /** `resumeSubscription`. */
  function Resume(s: State, now: int): Result<State> {
    if s.Status() == PAUSED then Transition(s, PAUSED, ACTIVE)
    else if !s.sub.cancelAtPeriodEnd then Err(InvalidStateTransition)
    else if s.sub.period.end <= now then Err(InvalidStateTransition)
    else Ok(s.(history := Note(s.history, s.Status()), sub := s.sub.(cancelAtPeriodEnd := false)))
  }

  /** `pauseSubscription`. */
  function Pause(s: State): Result<State> { Transition(s, s.Status(), PAUSED) }

  datatype Timing = IMMEDIATE | NEXT_PERIOD

  /** Issue a proration invoice for a change, unless there is nothing to put on it. */
  function IssueProration(s: State, lines: seq<Line>, currency: Currency, now: int, reason: InvoiceReason, at: int): State {
    if lines == [] then s
    else s.(invoices := s.invoices + [FinalizeInvoice(DraftInvoice(lines, currency, now, s.sub.period.end, Some(reason), at, None))])
  }

  /** What a plan change comes to: it waits for the next period, or takes effect with these proration lines. */
  datatype PlanMove = Later | AtOnce(quantity: int, lines: seq<Line>)

  function DecidePlanChange(s: State, newPrice: Economics, newQuantity: Option<int>, timing: Option<Timing>, now: int): Result<PlanMove> {
    if s.Status() in {CANCELED, EXPIRED} then Err(InvalidStateTransition)
    else if !Billable(newPrice) then Err(ValidationError)
    else if s.sub.price.currency != newPrice.currency then Err(CurrencyMismatch)
    else
      var quantity := newQuantity.Or(s.sub.quantity);
      var current :- RecurringAmount(s.sub.price, s.sub.quantity);
      var next :- RecurringAmount(newPrice, quantity);
      if timing.Or(if next >= current then IMMEDIATE else NEXT_PERIOD) == NEXT_PERIOD then Ok(Later)
      else
        var pr :- Prorate(s.sub.period.start, s.sub.period.end, now,
                          Cash(current, newPrice.currency), Cash(next, newPrice.currency));
        Ok(AtOnce(quantity, pr.lines))
  }

  /** `changePlan`, once the new price has been looked up. */
  function ChangePlan(s: State, newPrice: Economics, newQuantity: Option<int>, timing: Option<Timing>, now: int, at: int): Result<State> {
    var move :- DecidePlanChange(s, newPrice, newQuantity, timing, now);
    match move
    case Later => Ok(s.(history := Note(s.history, s.Status()), sub := s.sub.(pendingPrice := Some(newPrice))))
    case AtOnce(quantity, lines) => Ok(MoveToPlan(s, newPrice, quantity, lines, now, at))
  }

  function MoveToPlan(s: State, newPrice: Economics, quantity: int, lines: seq<Line>, now: int, at: int): State {
    var moved := s.(history := Note(s.history, s.Status()), sub := s.sub.(price := newPrice, quantity := quantity));
    IssueProration(moved, lines, newPrice.currency, now, PlanChange, at)
  }

  /** `changeQuantity`. */
  function ChangeQuantity(s: State, quantity: int, now: int, at: int): Result<State> {
    if s.sub.price.model != PER_SEAT then Err(ValidationError)
    else if quantity < 1 then Err(ValidationError)
    else if quantity == s.sub.quantity then Ok(s)
    else if quantity < s.sub.quantity then
      Ok(s.(history := Note(s.history, s.Status()), sub := s.sub.(pendingQuantity := Some(quantity))))
    else
      var pr :- ProrateSeats(s.sub.period.start, s.sub.period.end, now,
                             Cash(s.sub.price.unitAmount.Or(0), s.sub.price.currency), s.sub.quantity, quantity);
      Ok(IssueProration(s.(sub := s.sub.(quantity := quantity)), pr.lines, s.sub.price.currency, now, SeatChange, at))
  }

  // -- runs -------------------------------------------------------------------------

  datatype Op =
    | DoRenew(now: int, onlyWhenDue: bool, current: Option<Economics>, flush: seq<UsageEvent>, otherMethod: bool, at: int)
    | DoReadQuote(invoice: nat)
    | DoOpenAttempt(quote: nat, at: int)
    | DoFailAttempt(attempt: nat)
    | DoApplyResult(attempt: nat, result: PaymentResult, at: int)
    | DoFailInvoice(invoice: nat, at: int)
    | DoSelectGrace(now: int)
    | DoCloseGrace(selection: nat)
    | DoSelectIncomplete(now: int)
    | DoExpireIncomplete(selection: nat)
    | DoCloseUncollectedTrial
    | DoCancel(atPeriodEnd: bool)
    | DoResume(now: int)
    | DoPause
    | DoChangePlan(newPrice: Economics, quantity: Option<int>, timing: Option<Timing>, now: int, at: int)
    | DoChangeQuantity(newQuantity: int, now: int, at: int)
    | DoVoidInvoice(invoice: nat)
    | DoTrackUsage(event: UsageEvent)
    | DoEditPolicy(policy: Policy)
    | DoPinPrice(pinned: bool)

  function Try(s: State, op: Op): Result<State> {
    match op
    case DoRenew(now, due, current, flush, other, at) => Renew(s, now, due, current, flush, other, at)
    case DoReadQuote(k) => ReadQuote(s, k)
    case DoOpenAttempt(q, at) => OpenAttempt(s, q, at)
    case DoFailAttempt(k) => FailAttempt(s, k)
    case DoApplyResult(k, result, at) => ApplyPaymentResult(s, k, result, at)
    case DoFailInvoice(k, at) => FailInvoice(s, k, at)
    case DoSelectGrace(now) => SelectGrace(s, now)
    case DoCloseGrace(i) => CloseGrace(s, i)
    case DoSelectIncomplete(now) => SelectIncomplete(s, now)
    case DoExpireIncomplete(i) => ExpireIncomplete(s, i)
    case DoCloseUncollectedTrial => CloseUncollectedTrial(s)
    case DoCancel(atPeriodEnd) => Cancel(s, atPeriodEnd)
    case DoResume(now) => Resume(s, now)
    case DoPause => Pause(s)
    case DoChangePlan(p, q, t, now, at) => ChangePlan(s, p, q, t, now, at)
    case DoChangeQuantity(q, now, at) => ChangeQuantity(s, q, now, at)
    case DoVoidInvoice(k) => VoidInvoice(s, k)
    case DoTrackUsage(e) => TrackUsage(s, e)
    case DoEditPolicy(p) => Ok(s.(policy := p))
    case DoPinPrice(pinned) => Ok(s.(sub := s.sub.(pricePinned := pinned)))
  }

  /** One transaction; an error rolls it back. */
  function Step(s: State, op: Op): State {
    var r := Try(s, op);
    if r.Ok? then r.value else s
  }

  function Run(s: State, ops: seq<Op>): State {
    if ops == [] then s else Step(Run(s, ops[..|ops| - 1]), ops[|ops| - 1])
  }

  lemma {:induction false} RunAppend(s: State, a: seq<Op>, b: seq<Op>)
    ensures Run(s, a + b) == Run(Run(s, a), b)
    decreases |b|
  {
    hide Step;
    if b == [] {
      assert a + b == a;
    } else {
      assert (a + b)[..|a + b| - 1] == a + b[..|b| - 1];
      RunAppend(s, a, b[..|b| - 1]);
    }
  }

  lemma RunNone(s: State)
    ensures Run(s, []) == s
  {}

  lemma RunOne(s: State, op: Op)
    ensures Run(s, [op]) == Step(s, op)
  {
    assert [op][..0] == [];
  }

  lemma RunTwo(s: State, a: Op, b: Op)
    ensures Run(s, [a, b]) == Step(Step(s, a), b)
  {
    hide Step;
    assert [a, b][..1] == [a];
    RunOne(s, a);
  }

  lemma RunMore(s: State, done: seq<Op>, op: Op)
    ensures Run(s, done + [op]) == Step(Run(s, done), op)
  {
    hide Step;
    RunAppend(s, done, [op]);
    RunOne(Run(s, done), op);
  }

  /** An issued invoice that owes something and has no charge in flight. */
  predicate Collectable(s: State, k: nat, at: int) {
    && k < |s.invoices| && s.invoices[k].status == Open && s.invoices[k].amountDue == s.invoices[k].total - s.invoices[k].amountPaid > 0
    && !InFlight(s, k, at)
  }

  /** Quoting a collectable invoice and opening the attempt. */
  lemma AttemptOpens(s: State, k: nat, at: int)
    requires Collectable(s, k, at)
    ensures Run(s, [DoReadQuote(k), DoOpenAttempt(|s.quotes|, at)])
            == s.(quotes := s.quotes + [Quote(k, s.invoices[k].amountDue)],
                  attempts := s.attempts + [Attempt(k, s.invoices[k].amountDue, Processing, at)])
  {
    hide Run;
    RunTwo(s, DoReadQuote(k), DoOpenAttempt(|s.quotes|, at));
  }
}
