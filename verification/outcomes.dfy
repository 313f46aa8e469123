/**
 * Which requests a subscription accepts and what they leave behind, each as a
 * condition the caller could check beforehand
 * (packages/billing/src/subscriptions.ts, dunning.ts, payments.ts).
 */
module Outcomes {
  import opened Basics
  import opened Calendar
  import opened Money
  import opened InvoiceLines
  import opened Interval
  import opened Pricing
  import opened Proration
  import opened Recovery
  import opened StateMachine
  import opened StatusHistory
  import opened Billing
  import Activation
  import Failover
  import Ledger

  // -- signing up -----------------------------------------------------------------------------

  /** What a price has to say before anything can be billed on it. */
  predicate Priced(p: Economics, quantity: int) {
    match p.model
    case FLAT_RECURRING => p.unitAmount.Some?
    case PER_SEAT => p.unitAmount.Some? && -MAX_SAFE <= p.unitAmount.value * quantity <= MAX_SAFE
    case HYBRID => p.unitAmount.Some?
    case USAGE_METERED => true
  }

  predicate Meterable(p: Economics) {
    match p.model
    case USAGE_METERED => p.usageMeter.Some? && p.usageUnitAmount.Or(0) != 0
    case HYBRID => p.usageMeter.Some?
    case _ => true
  }

  lemma AmountExactlyWhen(p: Economics, quantity: int)
    ensures RecurringAmount(p, quantity).Ok? <==> Priced(p, quantity)
    ensures Priced(p, quantity) ==>
              RecurringAmount(p, quantity).value
              == match p.model
                 case USAGE_METERED => 0
                 case PER_SEAT => p.unitAmount.value * quantity
                 case _ => p.unitAmount.value
    ensures Billable(p) <==> Meterable(p)
  {}

  lemma IntervalExactlyWhen(date: int, interval: BillingInterval, anchor: Option<AnchorDay>)
    ensures AddInterval(date, interval, anchor).Ok? <==> interval.count >= 1
  {
    hide AddMonths;
  }

  /** A signup is accepted exactly when its price can be billed, for one seat unless it is priced by the seat; a trial owes nothing yet. */
  lemma SignupExactlyWhen(price: Economics, quantity: int, trialDays: int, start: int, policy: Policy, hasMethod: bool, at: int)
    ensures Create(price, quantity, trialDays, start, policy, hasMethod, at).Ok?
            <==> && Meterable(price) && quantity >= 1 && (price.model == PER_SEAT || quantity == 1)
                 && (trialDays > 0 || (price.interval.count >= 1 && Priced(price, quantity)))
  {
    hide AddInterval, DayOfMonth, RecurringLines, RecurringAmount, LinesTotal, Billable, Meterable, Priced;
    AmountExactlyWhen(price, quantity);
    IntervalExactlyWhen(start, price.interval, Some(DayOfMonth(start)));
    if AddInterval(start, price.interval, Some(DayOfMonth(start))).Ok? {
      RecurringLinesTotal(price, quantity, start, AddInterval(start, price.interval, Some(DayOfMonth(start))).value);
    }
  }

  // -- renewing -------------------------------------------------------------------------------

  /** The price a renewal bills: the newest version, unless the subscription is pinned or it changes currency or interval. */
  function NextPrice(s: State, current: Option<Economics>): Economics {
    match current
    case Some(price) =>
      if s.sub.pricePinned || price.currency != s.sub.price.currency || price.interval != s.sub.price.interval then s.sub.price else price
    case None => s.sub.price
  }

  lemma OpensExactlyWhen(s: State, price: Economics, flush: seq<UsageEvent>, at: int)
    ensures var r := OpenNextPeriod(s, price, flush, at);
            && (r.Ok? <==> price.interval.count >= 1 && Priced(price, s.sub.quantity))
            && (r.Ok? ==> && |r.value.invoices| == |s.invoices| + 1 && r.value.sub.price == price && r.value.history == s.history
                          && var inv := r.value.invoices[|s.invoices|];
                             inv.createdAt == at && inv.currency == price.currency && inv.reason.None?)
  {
    hide AddInterval, RecurringLines, RecurringAmount, LinesTotal, RenewalAnchor, MeterClosedPeriod, Priced;
    AmountExactlyWhen(price, s.sub.quantity);
    IntervalExactlyWhen(s.sub.period.end, price.interval, RenewalAnchor(s));
    var end := AddInterval(s.sub.period.end, price.interval, RenewalAnchor(s));
    if end.Ok? { RecurringLinesTotal(price, s.sub.quantity, s.sub.period.end, end.value); }
  }

  /**
   * A renewal opens a period exactly when the subscription is running, its
   * period is due (or nobody asked whether it is), it is not to end with the
   * period, and the price it is to bill can be billed. It then holds that price,
   * and lapses if it was a trial that nobody can charge.
   */
  lemma RenewalExactlyWhen(s: State, op: Op)
    requires op.DoRenew?
    ensures var s', price := Step(s, op), NextPrice(s, op.current);
            && (|s'.invoices| > |s.invoices|
                <==> && s.Status() !in {INCOMPLETE, PAUSED, CANCELED, EXPIRED}
                     && (op.onlyWhenDue ==> s.sub.period.end <= op.now)
                     && !s.sub.cancelAtPeriodEnd && Meterable(price) && price.interval.count >= 1 && Priced(price, s.sub.quantity))
            && (|s'.invoices| > |s.invoices| ==>
                  && |s'.invoices| == |s.invoices| + 1 && s'.sub.price == price
                  && s'.invoices[|s.invoices|].createdAt == op.at && s'.invoices[|s.invoices|].currency == s.sub.price.currency
                  && s'.Status() == if s.Status() == TRIALING && !s.sub.hasMethod && !op.otherMethod then PAST_DUE else s.Status())
  {
    hide OpenNextPeriod, Meterable, Billable, Priced;
    AmountExactlyWhen(BillingPrice(s.sub, op.current), s.sub.quantity);
    OpensExactlyWhen(s, BillingPrice(s.sub, op.current), op.flush, op.at);
  }

  // -- changing plan and seats ------------------------------------------------------------------

  lemma WholeRounds(x: int, total: int)
    requires total > 0
    ensures Rounded(x * total, total, HALF_UP) == x
  {
    var r := Rounded(x * total, total, HALF_UP);
    HalfUpError(x * total, total);
    assert r * total - x * total == (r - x) * total;
    if r > x { Times(r - x, total); }
    if r < x { Times(x - r, total); }
  }

  lemma Times(a: int, total: int)
    requires a >= 1 && total > 0
    ensures a * total >= total && (-a) * total == -(a * total)
  {}

  lemma Between(a: int, b: int, x: int, y: int)
    requires -a <= b <= a && 0 <= x <= y
    ensures -(a * y) <= b * x <= a * y && (-a) * y == -(a * y)
  {}

  /** Part of a safe amount is safe. */
  lemma PartIsSafe(amount: int, part: int, total: int)
    requires Safe(amount) && 0 <= part <= total && total > 0
    ensures ScaleMoney(amount, part, total, HALF_UP).Ok?
  {
    hide Rounded;
    Between(MAX_SAFE, amount, part, total);
    HalfUpMonotone(-(MAX_SAFE * total), amount * part, total);
    HalfUpMonotone(amount * part, MAX_SAFE * total, total);
    WholeRounds(MAX_SAFE, total);
    WholeRounds(-MAX_SAFE, total);
  }

  lemma ProratesExactlyWhen(start: int, end: int, at: int, current: Cash, new_: Cash)
    requires current.currency == new_.currency && Safe(current.amount) && Safe(new_.amount)
    ensures Prorate(start, end, at, current, new_).Ok? <==> start < end
  {
    hide ScaleMoney;
    if start < end {
      PartIsSafe(current.amount, Remaining(start, end, at), end - start);
      PartIsSafe(new_.amount, Remaining(start, end, at), end - start);
    }
  }

  function Seats(s: State, quantity: Option<int>): int { match quantity case Some(n) => n case None => s.sub.quantity }

  /** The change takes effect at once: it was asked for so, or was not asked to wait and is no cheaper. */
  predicate AtOnceFor(s: State, op: Op)
    requires op.DoChangePlan? && RecurringAmount(op.newPrice, Seats(s, op.quantity)).Ok? && RecurringAmount(s.sub.price, s.sub.quantity).Ok?
  {
    match op.timing
    case Some(timing) => timing == IMMEDIATE
    case None => RecurringAmount(op.newPrice, Seats(s, op.quantity)).value >= RecurringAmount(s.sub.price, s.sub.quantity).value
  }

  /**
   * A plan change is accepted exactly when the subscription has not ended, both
   * prices can be billed, in one currency, and, if it is to take effect at once,
   * the period has a length. Only then does the subscription move to the price,
   * with a proration invoice up to its period's end if there is anything to
   * charge; a change that waits is noted, and moves and bills nothing.
   */
  lemma PlanChangeExactlyWhen(s: State, op: Op)
    requires op.DoChangePlan?
    requires RecurringAmount(s.sub.price, s.sub.quantity).Ok? ==> Safe(RecurringAmount(s.sub.price, s.sub.quantity).value)
    requires RecurringAmount(op.newPrice, Seats(s, op.quantity)).Ok? ==> Safe(RecurringAmount(op.newPrice, Seats(s, op.quantity)).value)
    ensures Try(s, op).Ok? <==>
              && s.Status() !in {CANCELED, EXPIRED} && Meterable(op.newPrice) && op.newPrice.currency == s.sub.price.currency
              && Priced(s.sub.price, s.sub.quantity) && RecurringAmount(s.sub.price, s.sub.quantity).Ok?
              && Priced(op.newPrice, Seats(s, op.quantity)) && RecurringAmount(op.newPrice, Seats(s, op.quantity)).Ok?
              && (AtOnceFor(s, op) ==> s.sub.period.start < s.sub.period.end)
    ensures Try(s, op).Ok? ==>
              var s' := Try(s, op).value;
              && s'.Status() == s.Status() && s'.sub.period == s.sub.period && s'.history.log == s.history.log + [Noted(s.Status())]
              && RecurringAmount(s.sub.price, s.sub.quantity).Ok? && RecurringAmount(op.newPrice, Seats(s, op.quantity)).Ok?
              && (if AtOnceFor(s, op)
                  then && s'.sub == s.sub.(price := op.newPrice, quantity := Seats(s, op.quantity))
                       && (|s'.invoices| > |s.invoices| ==>
                             && |s'.invoices| == |s.invoices| + 1
                             && var inv := s'.invoices[|s.invoices|];
                                inv.periodStart == op.now && inv.periodEnd == s.sub.period.end && inv.reason == Some(PlanChange) && inv.createdAt == op.at)
                  else s'.sub == s.sub.(pendingPrice := Some(op.newPrice)) && s'.invoices == s.invoices)
  {
    hide RecurringAmount, Prorate, LinesTotal, Meterable, Billable, Priced;
    AmountExactlyWhen(op.newPrice, Seats(s, op.quantity));
    AmountExactlyWhen(s.sub.price, s.sub.quantity);
    var current, next := RecurringAmount(s.sub.price, s.sub.quantity), RecurringAmount(op.newPrice, Seats(s, op.quantity));
    if current.Ok? && next.Ok? {
      ProratesExactlyWhen(s.sub.period.start, s.sub.period.end, op.now, Cash(current.value, op.newPrice.currency), Cash(next.value, op.newPrice.currency));
    }
  }

  /**
   * A seat change is accepted exactly when the price is by the seat and at least
   * one seat is asked for, and, for more seats, the period has a length: those
   * take effect and are billed at once, fewer wait and bill nothing.
   */
  lemma SeatChangeExactlyWhen(s: State, op: Op)
    requires op.DoChangeQuantity? && Safe(s.sub.price.unitAmount.Or(0) * (op.newQuantity - s.sub.quantity))
    ensures Try(s, op).Ok? <==>
              && s.sub.price.model == PER_SEAT && op.newQuantity >= 1
              && (op.newQuantity > s.sub.quantity ==> s.sub.period.start < s.sub.period.end)
    ensures Try(s, op).Ok? ==>
              var s' := Try(s, op).value;
              && s'.Status() == s.Status()
              && (op.newQuantity > s.sub.quantity ==>
                    && s'.sub == s.sub.(quantity := op.newQuantity) && |s'.invoices| == |s.invoices| + 1
                    && var inv := s'.invoices[|s.invoices|];
                       inv.periodStart == op.now && inv.periodEnd == s.sub.period.end && inv.reason == Some(SeatChange) && inv.createdAt == op.at)
              && (op.newQuantity == s.sub.quantity ==> s' == s)
              && (op.newQuantity < s.sub.quantity ==>
                    s'.sub == s.sub.(pendingQuantity := Some(op.newQuantity)) && s'.invoices == s.invoices)
  {
    hide Prorate, LinesTotal;
    var unit, delta := s.sub.price.unitAmount.Or(0), op.newQuantity - s.sub.quantity;
    if delta > 0 {
      ProratesExactlyWhen(s.sub.period.start, s.sub.period.end, op.now, Cash(0, s.sub.price.currency), Cash(unit * delta, s.sub.price.currency));
    }
  }

  // -- who moves the status -----------------------------------------------------------------------

  /** The transactions that can take a subscription from one status to another. */
  predicate MovesBy(s: State, op: Op, to: Status) {
    match to
    case ACTIVE =>
      || (op.DoApplyResult? && op.result.status == Succeeded && s.Status() in {INCOMPLETE, TRIALING, PAST_DUE, GRACE_PERIOD, UNPAID})
      || (op.DoResume? && s.Status() == PAUSED)
    case PAST_DUE => (op.DoRenew? || op.DoCloseUncollectedTrial?) && s.Status() == TRIALING
    case GRACE_PERIOD =>
      (op.DoFailInvoice? || (op.DoApplyResult? && op.result.status in {Failed, Canceled})) && s.Status() in {TRIALING, ACTIVE, PAST_DUE}
    case UNPAID => op.DoCloseGrace? && s.Status() == GRACE_PERIOD
    case PAUSED => (op.DoPause? && s.Status() in {TRIALING, ACTIVE, PAST_DUE, GRACE_PERIOD}) || (op.DoCloseGrace? && s.Status() == GRACE_PERIOD)
    case CANCELED =>
      && s.Status() !in {CANCELED, EXPIRED}
      && ((op.DoCancel? && !op.atPeriodEnd) || (op.DoCloseGrace? && s.Status() == GRACE_PERIOD)
          || (op.DoRenew? && s.sub.cancelAtPeriodEnd && s.Status() !in {PAUSED, INCOMPLETE}))
    case EXPIRED => op.DoExpireIncomplete? && s.Status() == INCOMPLETE
    case _ => false
  }

  lemma RecordMoves(s: State, k: nat, invoice: nat, result: PaymentResult, at: int)
    requires invoice < |s.invoices| && RecordPayment(s, k, invoice, result, at).Ok?
    ensures var to := RecordPayment(s, k, invoice, result, at).value.Status();
            to != s.Status() ==> to == ACTIVE && s.Status() in {INCOMPLETE, TRIALING, PAST_DUE, GRACE_PERIOD, UNPAID}
  {
    hide Recover;
    var paid := PayInvoice(s.invoices[invoice], result.amount).value;
    var credited := s.(invoices := s.invoices[invoice := paid],
                       credits := s.credits + [Credit(k, invoice, result.amount)],
                       sub := s.sub.(hasMethod := s.sub.hasMethod || result.savesMethod));
    if paid.status == Paid { RecoverMovesTo(credited, result.paidAt.Or(at)); }
  }

  lemma RecoverMovesTo(s: State, recoveredAt: int)
    requires Recover(s, recoveredAt).Ok?
    ensures var to := Recover(s, recoveredAt).value.Status();
            to != s.Status() ==> to == ACTIVE && s.Status() in {INCOMPLETE, TRIALING, PAST_DUE, GRACE_PERIOD, UNPAID}
  {
    hide AddInterval, DayOfMonth;
  }

  lemma DeliveryMoves(s: State, op: Op)
    requires op.DoApplyResult? && Try(s, op).Ok?
    ensures var to := Try(s, op).value.Status(); to != s.Status() ==> MovesBy(s, op, to)
  {
    hide RecordPayment, FailInvoice;
    var attempt := s.attempts[op.attempt];
    var marked := s.(attempts := s.attempts[op.attempt := attempt.(status := op.result.status)]);
    if !Settled(attempt.status) {
      if op.result.status == Succeeded {
        RecordMoves(marked, op.attempt, attempt.invoice, op.result, op.at);
      } else if op.result.status in {Failed, Canceled} {
        Failover.FailInvoiceLapses(marked, attempt.invoice, op.at);
      }
    }
  }

  lemma RenewalMoves(s: State, op: Op)
    requires op.DoRenew? && Try(s, op).Ok?
    ensures var to := Try(s, op).value.Status(); to != s.Status() ==> MovesBy(s, op, to)
  {
    hide OpenNextPeriod, BillingPrice, Billable;
    OpensExactlyWhen(s, BillingPrice(s.sub, op.current), op.flush, op.at);
  }

  /**
   * Every move of a status has one of these causes, whatever transaction is
   * tried in whatever state. So nothing but a signup nobody paid for expires,
   * only a grace period that ran out leaves a subscription unpaid, and only a
   * payment or a resumption makes one active.
   */
  lemma StatusMovesOnlyBy(s: State, op: Op)
    requires Step(s, op).Status() != s.Status()
    ensures MovesBy(s, op, Step(s, op).Status())
  {
    hide Renew, ApplyPaymentResult, FailInvoice, Prorate, ProrateSeats, RecurringAmount, InFlight, InsertEvent, VoidUnpaid;
    match op {
      case DoRenew(_, _, _, _, _, _) => RenewalMoves(s, op);
      case DoApplyResult(_, _, _) => DeliveryMoves(s, op);
      case DoFailInvoice(k, at) => FailInvoiceMovesTo(s, k, at);
      case _ =>
    }
  }

  lemma FailInvoiceMovesTo(s: State, k: nat, at: int)
    ensures FailInvoice(s, k, at).Ok?
    ensures var to := FailInvoice(s, k, at).value.Status(); to != s.Status() ==> to == GRACE_PERIOD && s.Status() in {TRIALING, ACTIVE, PAST_DUE}
  {}

  // -- ending, pausing and resuming -------------------------------------------------------------

  /**
   * A cancellation at once ends the subscription, from every status but the two
   * it cannot leave; one at the period's end only says so on the row, and even
   * an expired subscription takes it. Resuming takes back the second while the
   * period lasts and restarts a paused subscription; nothing else is resumed.
   */
  lemma EndingExactlyWhen(s: State, now: int)
    ensures Cancel(s, false).Ok? <==> s.Status() !in {CANCELED, EXPIRED}
    ensures Cancel(s, false).Ok? ==>
              var s' := Cancel(s, false).value;
              s'.Status() == CANCELED && s' == s.(history := s'.history, sub := s.sub.(cancelAtPeriodEnd := false))
              && s'.history.log == s.history.log + [Applied(s.Status(), CANCELED)]
    ensures Cancel(s, true).Ok? <==> s.Status() != CANCELED
    ensures Cancel(s, true).Ok? ==>
              var s' := Cancel(s, true).value;
              s'.Status() == s.Status() && s' == s.(history := s'.history, sub := s.sub.(cancelAtPeriodEnd := true))
              && s'.history.log == s.history.log + [Noted(s.Status())]
    ensures Resume(s, now).Ok? <==> s.Status() == PAUSED || (s.sub.cancelAtPeriodEnd && now < s.sub.period.end)
    ensures Resume(s, now).Ok? ==>
              var s' := Resume(s, now).value;
              if s.Status() == PAUSED then s'.Status() == ACTIVE && s' == s.(history := s'.history)
              else s'.Status() == s.Status() && s' == s.(history := s'.history, sub := s.sub.(cancelAtPeriodEnd := false))
                   && s'.history.log == s.history.log + [Noted(s.Status())]
    ensures Pause(s).Ok? <==> s.Status() in {TRIALING, ACTIVE, PAST_DUE, GRACE_PERIOD}
    ensures Pause(s).Ok? ==> var s' := Pause(s).value; s'.Status() == PAUSED && s' == s.(history := s'.history)
  {}

  // -- dunning ----------------------------------------------------------------------------------

  /**
   * A signup that was never paid expires once the policy's hours are over, if it
   * sets any, and not before: then its invoices are void.
   */
  lemma UnpaidSignupExpiresExactlyWhen(s: State, now: int)
    requires s.Status() == INCOMPLETE
    ensures var s' := Step(Step(s, DoSelectIncomplete(now)), DoExpireIncomplete(|s.selections|));
            && (s'.Status() == EXPIRED
                <==> s.policy.incompleteExpiryHours > 0 && s.sub.createdAt + s.policy.incompleteExpiryHours * 3_600_000 <= now)
            && (s'.Status() != EXPIRED ==> s'.Status() == INCOMPLETE && s'.invoices == s.invoices)
            && (s'.Status() == EXPIRED ==>
                  && |s'.invoices| == |s.invoices|
                  && forall k :: 0 <= k < |s.invoices| ==>
                       s'.invoices[k].status == if s.invoices[k].status in {Draft, Open} then Void else s.invoices[k].status)
  {}

  /** From a failed payment to the end of grace: the window is the policy's days, and its action is the one taken. */
  lemma GraceRunsItsCourse(s: State, invoice: nat, failedAt: int, now: int)
    requires s.Status() in {TRIALING, ACTIVE, PAST_DUE} && invoice < |s.invoices|
    ensures var failed := Step(s, DoFailInvoice(invoice, failedAt));
            var closed := Step(Step(failed, DoSelectGrace(now)), DoCloseGrace(|s.selections|));
            && failed.Status() == GRACE_PERIOD
            && closed.Status() == (if now < failedAt + s.policy.gracePeriodDays * 86_400_000 then GRACE_PERIOD
                                   else match s.policy.failureAction
                                        case MARK_UNPAID => UNPAID
                                        case CANCEL => CANCELED
                                        case PAUSE => PAUSED)
  {
    Failover.FailInvoiceLapses(s, invoice, failedAt);
  }

  // -- charging ---------------------------------------------------------------------------------

  /** A charge may be opened exactly when no other for its invoice has been processing for five minutes or less. */
  lemma ChargeOpensExactlyWhen(s: State, q: nat, at: int)
    ensures OpenAttempt(s, q, at).Ok? <==>
              && q < |s.quotes|
              && forall i :: 0 <= i < |s.attempts| && s.attempts[i].invoice == s.quotes[q].invoice && s.attempts[i].status == Processing
                   ==> s.attempts[i].createdAt + 300_000 < at
    ensures OpenAttempt(s, q, at).Ok? ==>
              OpenAttempt(s, q, at).value
              == s.(attempts := s.attempts + [Attempt(s.quotes[q].invoice, s.quotes[q].amount, Processing, at)])
  {}

  /** A delivered verdict that is not a success settles the attempt, and puts the subscription in grace if it was a failure. */
  lemma DeliveryDecides(s: State, k: nat, result: PaymentResult, at: int)
    requires k < |s.attempts| && s.attempts[k].invoice < |s.invoices| && !Settled(s.attempts[k].status) && result.status != Succeeded
    ensures ApplyPaymentResult(s, k, result, at).Ok?
    ensures var s' := ApplyPaymentResult(s, k, result, at).value;
            && s'.attempts == s.attempts[k := s.attempts[k].(status := result.status)]
            && s'.invoices == s.invoices && s'.credits == s.credits && s'.quotes == s.quotes
            && s'.Status() == if result.status in {Failed, Canceled} && s.Status() in {TRIALING, ACTIVE, PAST_DUE} then GRACE_PERIOD else s.Status()
  {
    hide FailInvoice;
    Failover.FailInvoiceLapses(s.(attempts := s.attempts[k := s.attempts[k].(status := result.status)]), s.attempts[k].invoice, at);
  }

  /** An invoice is voided unless it has been paid, and cannot be quoted from then on, whatever happens. */
  lemma VoidedForGood(s: State, k: nat, ops: seq<Op>)
    requires Ledger.Sound(Ledger.BooksOf(s))
    ensures VoidInvoice(s, k).Ok? <==> k < |s.invoices| && s.invoices[k].status != Paid
    ensures VoidInvoice(s, k).Ok? ==>
              var later := Run(VoidInvoice(s, k).value, ops);
              k < |later.invoices| && later.invoices[k].status == Void && ReadQuote(later, k) == Err(InvoiceNotPayable)
  {
    hide Run, Ledger.Sound;
    if VoidInvoice(s, k).Ok? {
      Ledger.VoidKeepsSound(Ledger.BooksOf(s), k);
      Ledger.RunExtends(VoidInvoice(s, k).value, ops);
      assert Ledger.BooksOf(Run(VoidInvoice(s, k).value, ops)).invoices[k].status == Void;
    }
  }

  // -- usage ------------------------------------------------------------------------------------

  /** Usage is recorded once an id, for zero to 2^31 - 1 units; a repeat is acknowledged and changes nothing. */
  lemma UsageRecordedExactlyWhen(s: State, e: UsageEvent)
    ensures TrackUsage(s, e).Ok? <==> 0 <= e.units <= 2_147_483_647
    ensures TrackUsage(s, e).Ok? ==>
              TrackUsage(s, e).value == s.(events := if exists i :: 0 <= i < |s.events| && s.events[i].id == e.id then s.events else s.events + [e])
  {}

  /** Units belong to the window their moment is in: its start included, its end not. */
  lemma UsageByMoment(events: seq<UsageEvent>, e: UsageEvent, meter: MeterId, start: int, end: int)
    ensures PeriodUsage(events + [e], meter, start, end)
            == PeriodUsage(events, meter, start, end) + if e.meter == meter && start <= e.timestamp && e.timestamp < end then e.units else 0
    ensures PeriodUsage([], meter, start, end) == 0
  {
    assert (events + [e])[..|events|] == events;
  }
}
