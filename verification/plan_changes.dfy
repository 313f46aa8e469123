/** Plan and seat changes on a running subscription: what they invoice, and what scheduling one does. */
module PlanChanges {
  import opened Basics
  import opened Money
  import opened InvoiceLines
  import opened Interval
  import opened Pricing
  import opened Proration
  import opened Billing
  import opened Cycle
  import opened StateMachine
  import Recovery
  import Calendar
  import StatusHistory
  import Replay

  /** The full-period value of a price and quantity. */
  function FullValue(p: Economics, quantity: int): int {
    match p.model
    case USAGE_METERED => 0
    case PER_SEAT => p.unitAmount.Or(0) * quantity
    case _ => p.unitAmount.Or(0)
  }

  function HeldValue(s: State): int { FullValue(s.sub.price, s.sub.quantity) }

  lemma RecurringIsFullValue(p: Economics, quantity: int)
    requires RecurringAmount(p, quantity).Ok?
    ensures RecurringAmount(p, quantity).value == FullValue(p, quantity)
  {}

  /** Totals of the invoices after the first `n`. */
  function TotalsSince(invoices: seq<Invoice>, n: nat): int {
    if |invoices| <= n then 0 else TotalsSince(invoices[..|invoices| - 1], n) + invoices[|invoices| - 1].total
  }

  /** A plan change that waits for the next period. */
  predicate Deferred(s: State, op: Op)
    requires op.DoChangePlan?
  {
    var current := RecurringAmount(s.sub.price, s.sub.quantity);
    var next := RecurringAmount(op.newPrice, op.quantity.Or(s.sub.quantity));
    op.timing.Or(if current.Ok? && next.Ok? && next.value >= current.value then IMMEDIATE else NEXT_PERIOD) == NEXT_PERIOD
  }

  /** The change a transaction put into effect at once, if it did. */
  function ChangeMade(s: State, op: Op): seq<Change> {
    if Try(s, op).Err? then []
    else if op.DoChangePlan? && !Deferred(s, op) then [ToPlan(op.now, HeldValue(Step(s, op)))]
    else if op.DoChangeQuantity? && op.newQuantity > s.sub.quantity then [ToSeats(op.now, HeldValue(Step(s, op)))]
    else []
  }

  /** All changes a run put into effect, in order. */
  function ChangesMade(s: State, ops: seq<Op>): seq<Change> {
    if ops == [] then []
    else ChangesMade(s, ops[..|ops| - 1]) + ChangeMade(Run(s, ops[..|ops| - 1]), ops[|ops| - 1])
  }

  /** The value held after a list of changes. */
  function HeldAfter(held: int, changes: seq<Change>): int {
    if changes == [] then held else changes[|changes| - 1].newAmount
  }

  lemma {:induction false} InvoicedOneMore(periodStart: int, periodEnd: int, held: int, changes: seq<Change>, change: Change)
    requires periodStart < periodEnd
    ensures Invoiced(periodStart, periodEnd, held, changes + [change])
            == Invoiced(periodStart, periodEnd, held, changes) + NetOf(periodStart, periodEnd, HeldAfter(held, changes), change)
    decreases |changes|
  {
    hide NetOf;
    if changes == [] {
      assert [change][1..] == [];
    } else {
      InvoicedOneMore(periodStart, periodEnd, changes[0].newAmount, changes[1..], change);
      assert (changes + [change])[1..] == changes[1..] + [change];
    }
  }

  lemma TotalsAppend(invoices: seq<Invoice>, inv: Invoice, n: nat)
    requires n <= |invoices|
    ensures TotalsSince(invoices + [inv], n) == TotalsSince(invoices, n) + inv.total
  {
    assert (invoices + [inv])[..|invoices|] == invoices;
  }

  /** Rewriting invoices without touching their totals keeps the sum. */
  lemma {:induction false} TotalsFixed(a: seq<Invoice>, b: seq<Invoice>, n: nat)
    requires |a| == |b| && forall i :: 0 <= i < |a| ==> a[i].total == b[i].total
    ensures TotalsSince(a, n) == TotalsSince(b, n)
    decreases |a|
  {
    if |a| > n { TotalsFixed(a[..|a| - 1], b[..|b| - 1], n); }
  }

  lemma IssueProrationTotals(s: State, lines: seq<Line>, currency: Currency, now: int, reason: Recovery.InvoiceReason, at: int, n: nat)
    requires n <= |s.invoices|
    ensures TotalsSince(IssueProration(s, lines, currency, now, reason, at).invoices, n) == TotalsSince(s.invoices, n) + LinesTotal(lines)
  {
    hide TotalsSince;
    if lines != [] {
      var inv := FinalizeInvoice(DraftInvoice(lines, currency, now, s.sub.period.end, Some(reason), at, None));
      TotalsAppend(s.invoices, inv, n);
    }
  }

  lemma ChangePlanInvoices(s: State, op: Op, n: nat)
    requires op.DoChangePlan? && Try(s, op).Ok? && n <= |s.invoices| && s.sub.period.start < s.sub.period.end
    ensures var s' := Step(s, op);
            && s'.sub.period == s.sub.period && n <= |s'.invoices|
            && (ChangeMade(s, op) == [] ==> s'.invoices == s.invoices && HeldValue(s') == HeldValue(s))
            && (ChangeMade(s, op) != [] ==>
                  TotalsSince(s'.invoices, n)
                  == TotalsSince(s.invoices, n) + NetOf(s.sub.period.start, s.sub.period.end, HeldValue(s), ChangeMade(s, op)[0]))
  {
    hide TotalsSince, RecurringAmount, FullValue, Rounded, LinesTotal, Billable;
    var quantity := op.quantity.Or(s.sub.quantity);
    RecurringIsFullValue(s.sub.price, s.sub.quantity);
    RecurringIsFullValue(op.newPrice, quantity);
    if !Deferred(s, op) {
      var p, current, next := s.sub.period, RecurringAmount(s.sub.price, s.sub.quantity).value, RecurringAmount(op.newPrice, quantity).value;
      var pr := Prorate(p.start, p.end, op.now, Cash(current, op.newPrice.currency), Cash(next, op.newPrice.currency)).value;
      ProrationLinesTotal(pr.unusedCredit, pr.newPeriodCharge, op.now, p.end);
      var moved := s.(history := StatusHistory.Note(s.history, s.Status()), sub := s.sub.(price := op.newPrice, quantity := quantity));
      IssueProrationTotals(moved, pr.lines, op.newPrice.currency, op.now, Recovery.PlanChange, op.at, n);
    }
  }

  lemma SeatLine(quantity: int, unitAmount: int, amount: int, changeAt: int, periodEnd: int)
    ensures LinesTotal([ProrationLine(quantity, unitAmount, amount, changeAt, periodEnd)]) == amount
  {
    var line := ProrationLine(quantity, unitAmount, amount, changeAt, periodEnd);
    assert [line][..0] == [];
  }

  lemma ChangeQuantityInvoices(s: State, op: Op, n: nat)
    requires op.DoChangeQuantity? && Try(s, op).Ok? && n <= |s.invoices| && s.sub.period.start < s.sub.period.end
    ensures var s' := Step(s, op);
            && s'.sub.period == s.sub.period && n <= |s'.invoices|
            && (ChangeMade(s, op) == [] ==> s'.invoices == s.invoices && HeldValue(s') == HeldValue(s))
            && (ChangeMade(s, op) != [] ==>
                  TotalsSince(s'.invoices, n)
                  == TotalsSince(s.invoices, n) + NetOf(s.sub.period.start, s.sub.period.end, HeldValue(s), ChangeMade(s, op)[0]))
  {
    hide TotalsSince, Rounded, LinesTotal;
    if op.newQuantity > s.sub.quantity {
      var p, unit, delta := s.sub.period, s.sub.price.unitAmount.Or(0), op.newQuantity - s.sub.quantity;
      var pr := ProrateSeats(p.start, p.end, op.now, Cash(unit, s.sub.price.currency), s.sub.quantity, op.newQuantity).value;
      assert unit * op.newQuantity - unit * s.sub.quantity == unit * delta;
      SeatLine(delta, pr.lines[0].unitAmount, pr.netAmount, op.now, p.end);
      IssueProrationTotals(s.(sub := s.sub.(quantity := op.newQuantity)), pr.lines, s.sub.price.currency, op.now, Recovery.SeatChange, op.at, n);
    }
  }

  /** Nothing is issued, no total moves, and the price and quantity stay. */
  ghost predicate KeepsValue(s: State, s': State) {
    && s'.sub.price == s.sub.price && s'.sub.quantity == s.sub.quantity && s'.sub.period == s.sub.period
    && |s'.invoices| == |s.invoices|
    && forall i :: 0 <= i < |s.invoices| ==> s'.invoices[i].total == s.invoices[i].total
  }

  lemma FailInvoiceKeepsValue(s: State, k: nat, at: int)
    ensures FailInvoice(s, k, at).Ok? && KeepsValue(s, FailInvoice(s, k, at).value)
  {}

  lemma RecoverKeepsValue(s: State, recoveredAt: int)
    requires Recover(s, recoveredAt).Ok? && s.Status() != UNPAID
    ensures KeepsValue(s, Recover(s, recoveredAt).value)
  {
    hide AddInterval;
  }

  lemma RecoverActivates(s: State, recoveredAt: int)
    requires Recover(s, recoveredAt).Ok? && s.Status() == UNPAID
    ensures Recover(s, recoveredAt).value.Status() == ACTIVE
  {
    hide AddInterval;
  }

  lemma ApplyResultKeepsValue(s: State, k: nat, result: PaymentResult, at: int)
    requires ApplyPaymentResult(s, k, result, at).Ok?
    requires !(s.Status() == UNPAID && ApplyPaymentResult(s, k, result, at).value.Status() == ACTIVE)
    ensures KeepsValue(s, ApplyPaymentResult(s, k, result, at).value)
  {
    hide Recover, FailInvoice;
    var attempt := s.attempts[k];
    if !Settled(attempt.status) {
      var marked := s.(attempts := s.attempts[k := attempt.(status := result.status)]);
      if result.status in {Failed, Canceled} {
        FailInvoiceKeepsValue(marked, attempt.invoice, at);
      } else if result.status == Succeeded {
        var paid := PayInvoice(s.invoices[attempt.invoice], result.amount).value;
        var credited := marked.(
          invoices := s.invoices[attempt.invoice := paid],
          credits := s.credits + [Credit(k, attempt.invoice, result.amount)],
          sub := s.sub.(hasMethod := s.sub.hasMethod || result.savesMethod));
        if paid.status == Paid {
          if s.Status() == UNPAID { RecoverActivates(credited, result.paidAt.Or(at)); }
          RecoverKeepsValue(credited, result.paidAt.Or(at));
        }
      }
    }
  }

  lemma OthersKeepValue(s: State, op: Op)
    requires Try(s, op).Ok? && !Recovers(s, op) && !op.DoRenew? && !op.DoChangePlan? && !op.DoChangeQuantity?
    ensures KeepsValue(s, Step(s, op))
  {
    hide ApplyPaymentResult, FailInvoice, InFlight, InsertEvent, StatusHistory.ApplyTransition;
    match op {
      case DoApplyResult(k, result, at) => ApplyResultKeepsValue(s, k, result, at);
      case DoFailInvoice(k, at) => FailInvoiceKeepsValue(s, k, at);
      case _ =>
    }
  }

  predicate NoRenewal(ops: seq<Op>) { forall i :: 0 <= i < |ops| ==> !ops[i].DoRenew? }

  lemma StepInvoices(s: State, op: Op, n: nat)
    requires !Recovers(s, op) && !op.DoRenew? && n <= |s.invoices| && s.sub.period.start < s.sub.period.end
    ensures var s', made := Step(s, op), ChangeMade(s, op);
            && s'.sub.period == s.sub.period && n <= |s'.invoices|
            && |made| <= 1
            && HeldValue(s') == HeldAfter(HeldValue(s), made)
            && TotalsSince(s'.invoices, n) == TotalsSince(s.invoices, n)
               + (if made == [] then 0 else NetOf(s.sub.period.start, s.sub.period.end, HeldValue(s), made[0]))
  {
    hide Try, TotalsSince, NetOf, Deferred;
    if Try(s, op).Ok? {
      if op.DoChangePlan? {
        ChangePlanInvoices(s, op, n);
      } else if op.DoChangeQuantity? {
        ChangeQuantityInvoices(s, op, n);
      } else {
        OthersKeepValue(s, op);
        TotalsFixed(s.invoices, Step(s, op).invoices, n);
      }
    }
  }

  lemma {:induction false} RunInvoices(s: State, ops: seq<Op>, n: nat)
    requires NoRecovery(s, ops) && NoRenewal(ops) && n <= |s.invoices| && s.sub.period.start < s.sub.period.end
    ensures var s', made := Run(s, ops), ChangesMade(s, ops);
            && s'.sub.period == s.sub.period && n <= |s'.invoices|
            && HeldValue(s') == HeldAfter(HeldValue(s), made)
            && TotalsSince(s'.invoices, n) == TotalsSince(s.invoices, n)
               + Invoiced(s.sub.period.start, s.sub.period.end, HeldValue(s), made)
    decreases |ops|
  {
    hide Step, Recovers, ChangeMade, HeldValue, NetOf, TotalsSince;
    if ops != [] {
      var earlier, op := ops[..|ops| - 1], ops[|ops| - 1];
      RunInvoices(s, earlier, n);
      var before := Run(s, earlier);
      StepInvoices(before, op, n);
      var made := ChangeMade(before, op);
      if made == [] {
        assert ChangesMade(s, ops) == ChangesMade(s, earlier);
      } else {
        assert made == [made[0]];
        InvoicedOneMore(s.sub.period.start, s.sub.period.end, HeldValue(s), ChangesMade(s, earlier), made[0]);
      }
    }
  }

  /** `charged` stays within one minor unit per change of the time-weighted value of the plans and seats held. */
  predicate Conserves(s: State, ops: seq<Op>, charged: int) {
    var p, made := s.sub.period, ChangesMade(s, ops);
    Abs((p.end - p.start) * charged - TimeWeighted(p.start, p.end, HeldValue(s), made)) <= |made| * (p.end - p.start)
  }

  /** The transactions of one period, its changes inside it and in order. */
  ghost predicate WithinPeriod(s: State, ops: seq<Op>) {
    NoRecovery(s, ops) && NoRenewal(ops) && s.sub.period.start < s.sub.period.end
    && InOrder(s.sub.period.start, s.sub.period.end, ChangesMade(s, ops))
  }

  lemma ChangesConserve(s: State, ops: seq<Op>, n: nat)
    requires WithinPeriod(s, ops) && n <= |s.invoices|
    ensures Conserves(s, ops, HeldValue(s) + TotalsSince(Run(s, ops).invoices, n) - TotalsSince(s.invoices, n))
  {
    hide Run, HeldValue, ChangesMade, TotalsSince, NoRecovery;
    RunInvoices(s, ops, n);
    ChangesConserveValue(s.sub.period.start, s.sub.period.end, HeldValue(s), ChangesMade(s, ops));
  }

  // -- the charge up front ----------------------------------------------------------------------

  lemma OneInvoice(inv: Invoice, invoices: seq<Invoice>)
    ensures TotalsSince(invoices + [inv], |invoices|) == inv.total
  {
    assert (invoices + [inv])[..|invoices|] == invoices;
  }

  lemma RecurringLinesAreFullValue(p: Economics, quantity: int, start: int, end: int)
    requires RecurringLines(p, quantity, start, end).Ok?
    ensures LinesTotal(RecurringLines(p, quantity, start, end).value) == FullValue(p, quantity)
  {
    hide RecurringLines, RecurringAmount, FullValue, LinesTotal;
    RecurringLinesTotal(p, quantity, start, end);
    RecurringIsFullValue(p, quantity);
  }

  /** What a renewal's invoice charges for usage of the period just closed. */
  function UsageCharge(s: State, op: Op): int
    requires op.DoRenew?
  {
    LinesTotal(MeterClosedPeriod(s, BillingPrice(s.sub, op.current), op.flush).lines)
  }

  lemma OpenedPeriodCharges(s: State, price: Economics, flush: seq<UsageEvent>, at: int)
    requires OpenNextPeriod(s, price, flush, at).Ok?
    ensures var s' := OpenNextPeriod(s, price, flush, at).value;
            && TotalsSince(s'.invoices, |s.invoices|) == HeldValue(s') + LinesTotal(MeterClosedPeriod(s, price, flush).lines)
            && s'.sub.period.start < s'.sub.period.end && |s'.invoices| == |s.invoices| + 1
  {
    hide AddInterval, RecurringLines, MeterClosedPeriod, FullValue, TotalsSince, LinesTotal, RenewalAnchor;
    var p, anchor := s.sub.period, RenewalAnchor(s);
    var end := AddInterval(p.end, price.interval, anchor).value;
    var recurring, metered := RecurringLines(price, s.sub.quantity, p.end, end).value, MeterClosedPeriod(s, price, flush);
    IntervalIsValid(p.end, price.interval, anchor);
    IntervalAdvancesADay(p.end, price.interval, anchor);
    RecurringLinesAreFullValue(price, s.sub.quantity, p.end, end);
    LinesTotalAppend(recurring, metered.lines);
    OneInvoice(FinalizeInvoice(DraftInvoice(recurring + metered.lines, price.currency, p.end, end, None, at, metered.usage)), s.invoices);
  }

  lemma RenewalCharges(s: State, op: Op)
    requires op.DoRenew? && |Step(s, op).invoices| > |s.invoices|
    ensures var s' := Step(s, op);
            && TotalsSince(s'.invoices, |s.invoices|) == HeldValue(s') + UsageCharge(s, op)
            && s'.sub.period.start < s'.sub.period.end
  {
    hide OpenNextPeriod, HeldValue, TotalsSince, MeterClosedPeriod, LinesTotal, Billable;
    OpenedPeriodCharges(s, BillingPrice(s.sub, op.current), op.flush, op.at);
    HeldIgnoresStatus(OpenNextPeriod(s, BillingPrice(s.sub, op.current), op.flush, op.at).value, Step(s, op));
  }

  lemma HeldIgnoresStatus(a: State, b: State)
    ensures a.sub == b.sub ==> HeldValue(a) == HeldValue(b)
  {}

  /**
   * Plan changes conserve value: from one renewal to the next, whatever else
   * happens, the invoice that opened the period, less the usage it bills in
   * arrears, and every invoice since come to within one minor unit per change of
   * the time-weighted value held.
   */
  lemma RenewedPeriodConservesValue(s: State, op: Op, ops: seq<Op>)
    requires op.DoRenew? && |Step(s, op).invoices| > |s.invoices| && WithinPeriod(Step(s, op), ops)
    ensures Conserves(Step(s, op), ops, TotalsSince(Run(Step(s, op), ops).invoices, |s.invoices|) - UsageCharge(s, op))
  {
    hide Run, Step, HeldValue, TotalsSince, UsageCharge, Conserves, WithinPeriod;
    RenewalCharges(s, op);
    ChangesConserve(Step(s, op), ops, |s.invoices|);
  }

  lemma CreationCharges(price: Economics, quantity: int, trialDays: int, start: int, policy: Policy, hasMethod: bool, at: int)
    requires Create(price, quantity, trialDays, start, policy, hasMethod, at).Ok?
    ensures var s := Create(price, quantity, trialDays, start, policy, hasMethod, at).value;
            && s.sub.period.start < s.sub.period.end
            && TotalsSince(s.invoices, 0) == (if trialDays > 0 then 0 else HeldValue(s))
            && (trialDays > 0 ==> s.invoices == [])
  {
    hide AddInterval, RecurringLines, FullValue, LinesTotal, Calendar.DayOfMonth, Billable, StatusHistory.ApplyTransition;
    if trialDays <= 0 {
      var anchor := Some(Calendar.DayOfMonth(start));
      IntervalIsValid(start, price.interval, anchor);
      IntervalAdvancesADay(start, price.interval, anchor);
      var end := AddInterval(start, price.interval, anchor).value;
      RecurringLinesAreFullValue(price, quantity, start, end);
      OneInvoice(FinalizeInvoice(DraftInvoice(RecurringLines(price, quantity, start, end).value, price.currency, start, end, None, at, None)), []);
    }
  }

  /** The first period conserves value in the same way, from the invoice that creation issued. */
  lemma FirstPeriodConservesValue(price: Economics, quantity: int, trialDays: int, start: int, policy: Policy, hasMethod: bool, at: int, ops: seq<Op>)
    requires Create(price, quantity, trialDays, start, policy, hasMethod, at).Ok? && trialDays <= 0
    requires WithinPeriod(Create(price, quantity, trialDays, start, policy, hasMethod, at).value, ops)
    ensures var s := Create(price, quantity, trialDays, start, policy, hasMethod, at).value;
            Conserves(s, ops, TotalsSince(Run(s, ops).invoices, 0))
  {
    hide Create, Run, HeldValue, TotalsSince, Conserves, WithinPeriod;
    CreationCharges(price, quantity, trialDays, start, policy, hasMethod, at);
    ChangesConserve(Create(price, quantity, trialDays, start, policy, hasMethod, at).value, ops, 0);
  }

  /** A trial has charged nothing up front, so its invoices are short by the full value of what it started on ... */
  lemma TrialIsShortByItsValue(price: Economics, quantity: int, trialDays: int, start: int, policy: Policy, hasMethod: bool, at: int, ops: seq<Op>)
    requires Create(price, quantity, trialDays, start, policy, hasMethod, at).Ok? && trialDays > 0
    requires WithinPeriod(Create(price, quantity, trialDays, start, policy, hasMethod, at).value, ops)
    ensures var s := Create(price, quantity, trialDays, start, policy, hasMethod, at).value;
            Conserves(s, ops, HeldValue(s) + TotalsSince(Run(s, ops).invoices, 0))
  {
    hide Create, Run, HeldValue, TotalsSince, Conserves, WithinPeriod;
    CreationCharges(price, quantity, trialDays, start, policy, hasMethod, at);
    ChangesConserve(Create(price, quantity, trialDays, start, policy, hasMethod, at).value, ops, 0);
  }

  /** ... and they conserve value for every course of changes exactly when that value is nothing. */
  lemma TrialConservesExactlyWhenFree(price: Economics, quantity: int, trialDays: int, start: int, policy: Policy, hasMethod: bool, at: int)
    requires Create(price, quantity, trialDays, start, policy, hasMethod, at).Ok? && trialDays > 0
    ensures var s := Create(price, quantity, trialDays, start, policy, hasMethod, at).value;
            (forall ops :: WithinPeriod(s, ops) ==> Conserves(s, ops, TotalsSince(Run(s, ops).invoices, 0)))
            <==> FullValue(price, quantity) == 0
  {
    hide Create, Conserves, WithinPeriod, FullValue, HeldValue, TotalsSince, Run;
    CreationCharges(price, quantity, trialDays, start, policy, hasMethod, at);
    CreatedHolds(price, quantity, trialDays, start, policy, hasMethod, at);
    UpFrontConservesExactlyWhen(Create(price, quantity, trialDays, start, policy, hasMethod, at).value, 0);
  }

  lemma CreatedHolds(price: Economics, quantity: int, trialDays: int, start: int, policy: Policy, hasMethod: bool, at: int)
    requires Create(price, quantity, trialDays, start, policy, hasMethod, at).Ok?
    ensures HeldValue(Create(price, quantity, trialDays, start, policy, hasMethod, at).value) == FullValue(price, quantity)
  {
    hide AddInterval, RecurringLines, FinalizeInvoice, DraftInvoice, StatusHistory.ApplyTransition, FullValue, Calendar.DayOfMonth, Billable;
  }

  // -- periods opened by a recovery ------------------------------------------------------------

  /** A charge for a period conserves value over every course of changes exactly when it is the value held at its start. */
  lemma UpFrontConservesExactlyWhen(s: State, charge: int)
    requires s.sub.period.start < s.sub.period.end
    ensures (forall ops :: WithinPeriod(s, ops) ==> Conserves(s, ops, charge + TotalsSince(Run(s, ops).invoices, |s.invoices|)))
            <==> charge == HeldValue(s)
  {
    hide Conserves, WithinPeriod, HeldValue, TotalsSince;
    NothingSince(s.invoices);
    if charge == HeldValue(s) {
      forall ops | WithinPeriod(s, ops) ensures Conserves(s, ops, charge + TotalsSince(Run(s, ops).invoices, |s.invoices|)) {
        ChangesConserve(s, ops, |s.invoices|);
      }
    } else {
      NoChanges(s, charge);
      RunNone(s);
      assert WithinPeriod(s, []);
    }
  }

  lemma NothingSince(invoices: seq<Invoice>)
    ensures TotalsSince(invoices, |invoices|) == 0
  {}

  lemma NoChanges(s: State, charge: int)
    requires s.sub.period.start < s.sub.period.end
    ensures WithinPeriod(s, [])
    ensures Conserves(s, [], charge) <==> charge == HeldValue(s)
  {
    hide HeldValue;
    SameArea(charge, HeldValue(s), s.sub.period.end - s.sub.period.start);
  }

  lemma SameArea(a: int, b: int, length: int)
    requires length > 0
    ensures length * a == b * length <==> a == b
  {}

  lemma RecoveryKeepsHolding(s: State, k: nat, result: PaymentResult, at: int)
    requires ApplyPaymentResult(s, k, result, at).Ok?
    ensures var s' := ApplyPaymentResult(s, k, result, at).value; s'.sub.price == s.sub.price && s'.sub.quantity == s.sub.quantity
  {
    hide Recovery.PlanPaymentRecovery, StatusHistory.ApplyTransition;
  }

  lemma ApplyHasRows(s: State, k: nat, result: PaymentResult, at: int)
    requires ApplyPaymentResult(s, k, result, at).Ok?
    ensures k < |s.attempts| && s.attempts[k].invoice < |s.invoices|
  {}

  /**
   * A recovery from UNPAID opens a whole period and issues no invoice for it: the
   * payment is for whatever invoice was outstanding, a small proration included.
   * Taking that invoice as the charge for the period, value is conserved over
   * every course of changes exactly when its total is the value held.
   */
  lemma RebasedPeriodConservesExactlyWhen(s: State, op: Op)
    requires Recovers(s, op)
    ensures op.DoApplyResult? && op.attempt < |s.attempts| && s.attempts[op.attempt].invoice < |s.invoices|
    ensures var s' := Step(s, op);
            var outstanding := s.invoices[s.attempts[op.attempt].invoice].total;
            && |s'.invoices| == |s.invoices| && HeldValue(s') == HeldValue(s)
            && ((forall ops :: WithinPeriod(s', ops) ==> Conserves(s', ops, outstanding + TotalsSince(Run(s', ops).invoices, |s.invoices|)))
                <==> outstanding == HeldValue(s))
  {
    hide ApplyPaymentResult, Conserves, WithinPeriod, FullValue, TotalsSince, Run;
    Replay.RecoveryRebases(s, op);
    var s' := Step(s, op);
    ApplyHasRows(s, op.attempt, op.result, op.at);
    RecoveryKeepsHolding(s, op.attempt, op.result, op.at);
    assert |IssuedOf(s'.invoices)| == |IssuedOf(s.invoices)|;
    UpFrontConservesExactlyWhen(s', s.invoices[s.attempts[op.attempt].invoice].total);
  }

  // -- scheduled changes ----------------------------------------------------------------------

  /** The state with its scheduled changes forgotten. */
  function Unscheduled(s: State): State {
    s.(sub := s.sub.(pendingPrice := None, pendingQuantity := None))
  }

  /** Two outcomes that differ at most in what is scheduled. */
  predicate SameOutcome(a: Result<State>, b: Result<State>) {
    if a.Ok? && b.Ok? then Unscheduled(a.value) == Unscheduled(b.value) else a == b
  }

  lemma RenewIgnoresSchedule(s: State, op: Op)
    requires op.DoRenew?
    ensures SameOutcome(Try(s, op), Try(Unscheduled(s), op))
  {
    hide BillingPrice, OpenNextPeriod;
    BillingPriceIgnoresSchedule(s, op.current);
    OpenNextPeriodIgnoresSchedule(s, BillingPrice(s.sub, op.current), op.flush, op.at);
  }

  lemma BillingPriceIgnoresSchedule(s: State, current: Option<Economics>)
    ensures BillingPrice(Unscheduled(s).sub, current) == BillingPrice(s.sub, current)
  {}

  lemma MeteringIgnoresSchedule(s: State, price: Economics, flush: seq<UsageEvent>)
    ensures MeterClosedPeriod(Unscheduled(s), price, flush) == MeterClosedPeriod(s, price, flush)
    ensures RenewalAnchor(Unscheduled(s)) == RenewalAnchor(s)
  {
    hide UsageLines, UsageSnapshot, PeriodUsage, InsertEvents;
  }

  lemma OpenNextPeriodIgnoresSchedule(s: State, price: Economics, flush: seq<UsageEvent>, at: int)
    ensures var a, b := OpenNextPeriod(s, price, flush, at), OpenNextPeriod(Unscheduled(s), price, flush, at);
            && SameOutcome(a, b)
            && (a.Ok? ==> a.value.history == b.value.history)
  {
    hide AddInterval, RecurringLines, MeterClosedPeriod, RenewalAnchor, FinalizeInvoice, DraftInvoice;
    MeteringIgnoresSchedule(s, price, flush);
  }

  /** A failure touches the status and the grace period, and looks at nothing that is scheduled. */
  lemma FailInvoiceFrame(s: State, k: nat, at: int)
    ensures var r := FailInvoice(s, k, at);
            r.Ok? && r.value == s.(history := r.value.history, sub := s.sub.(grace := r.value.sub.grace))
  {
    hide StatusHistory.ApplyTransition;
    FailInvoiceKeepsValue(s, k, at);
  }

  lemma FailInvoiceIgnoresSchedule(s: State, k: nat, at: int)
    ensures SameOutcome(FailInvoice(s, k, at), FailInvoice(Unscheduled(s), k, at))
  {
    hide FailInvoice;
    FailInvoiceFrame(s, k, at);
    FailInvoiceFrame(Unscheduled(s), k, at);
    FailInvoiceReads(s, k, at);
  }

  lemma FailInvoiceReads(s: State, k: nat, at: int)
    ensures var a, b := FailInvoice(s, k, at), FailInvoice(Unscheduled(s), k, at);
            a.Ok? && b.Ok? && a.value.history == b.value.history && a.value.sub.grace == b.value.sub.grace
  {
    FailInvoiceKeepsValue(s, k, at);
    FailInvoiceKeepsValue(Unscheduled(s), k, at);
  }

  lemma RecoverIgnoresSchedule(s: State, recoveredAt: int)
    ensures SameOutcome(Recover(s, recoveredAt), Recover(Unscheduled(s), recoveredAt))
  {
    hide AddInterval;
  }

  lemma PaymentIgnoresSchedule(s: State, k: nat, result: PaymentResult, at: int)
    requires k < |s.attempts| && s.attempts[k].invoice < |s.invoices|
    ensures var invoice := s.attempts[k].invoice;
            SameOutcome(RecordPayment(s, k, invoice, result, at), RecordPayment(Unscheduled(s), k, invoice, result, at))
  {
    hide Recover;
    var invoice := s.attempts[k].invoice;
    var paid := PayInvoice(s.invoices[invoice], result.amount);
    if paid.Ok? {
      RecoverIgnoresSchedule(
        s.(invoices := s.invoices[invoice := paid.value],
           credits := s.credits + [Credit(k, invoice, result.amount)],
           sub := s.sub.(hasMethod := s.sub.hasMethod || result.savesMethod)),
        result.paidAt.Or(at));
    }
  }

  lemma ApplyResultIgnoresSchedule(s: State, k: nat, result: PaymentResult, at: int)
    ensures SameOutcome(ApplyPaymentResult(s, k, result, at), ApplyPaymentResult(Unscheduled(s), k, result, at))
  {
    hide RecordPayment, FailInvoice;
    if k < |s.attempts| && s.attempts[k].invoice < |s.invoices| {
      var attempt := s.attempts[k];
      var marked := s.(attempts := s.attempts[k := attempt.(status := result.status)]);
      FailInvoiceIgnoresSchedule(marked, attempt.invoice, at);
      PaymentIgnoresSchedule(marked, k, result, at);
    }
  }

  lemma IssueProrationIgnoresSchedule(s: State, lines: seq<Line>, currency: Currency, now: int, reason: Recovery.InvoiceReason, at: int)
    ensures Unscheduled(IssueProration(s, lines, currency, now, reason, at))
            == Unscheduled(IssueProration(Unscheduled(s), lines, currency, now, reason, at))
  {
    hide FinalizeInvoice, DraftInvoice;
  }

  lemma MoveToPlanIgnoresSchedule(s: State, newPrice: Economics, quantity: int, lines: seq<Line>, now: int, at: int)
    ensures Unscheduled(MoveToPlan(s, newPrice, quantity, lines, now, at))
            == Unscheduled(MoveToPlan(Unscheduled(s), newPrice, quantity, lines, now, at))
  {
    hide IssueProration;
    IssueProrationIgnoresSchedule(
      s.(history := StatusHistory.Note(s.history, s.Status()), sub := s.sub.(price := newPrice, quantity := quantity)),
      lines, newPrice.currency, now, Recovery.PlanChange, at);
  }

  lemma DecisionIgnoresSchedule(s: State, newPrice: Economics, newQuantity: Option<int>, timing: Option<Timing>, now: int)
    ensures DecidePlanChange(Unscheduled(s), newPrice, newQuantity, timing, now) == DecidePlanChange(s, newPrice, newQuantity, timing, now)
  {
    hide Prorate, RecurringAmount, Billable;
  }

  lemma ChangePlanIgnoresSchedule(s: State, op: Op)
    requires op.DoChangePlan?
    ensures SameOutcome(Try(s, op), Try(Unscheduled(s), op))
  {
    hide MoveToPlan, DecidePlanChange;
    DecisionIgnoresSchedule(s, op.newPrice, op.quantity, op.timing, op.now);
    var move := DecidePlanChange(s, op.newPrice, op.quantity, op.timing, op.now);
    if move.Ok? && move.value.AtOnce? {
      MoveToPlanIgnoresSchedule(s, op.newPrice, move.value.quantity, move.value.lines, op.now, op.at);
    }
  }

  lemma ChangeQuantityIgnoresSchedule(s: State, op: Op)
    requires op.DoChangeQuantity?
    ensures SameOutcome(Try(s, op), Try(Unscheduled(s), op))
  {
    hide IssueProration, ProrateSeats;
    if op.newQuantity > s.sub.quantity {
      var pr := ProrateSeats(s.sub.period.start, s.sub.period.end, op.now,
                             Cash(s.sub.price.unitAmount.Or(0), s.sub.price.currency), s.sub.quantity, op.newQuantity);
      if pr.Ok? {
        IssueProrationIgnoresSchedule(
          s.(sub := s.sub.(quantity := op.newQuantity)), pr.value.lines, s.sub.price.currency, op.now, Recovery.SeatChange, op.at);
      }
    }
  }

  lemma TransitionIgnoresSchedule(s: State, from: Status, to: Status)
    ensures SameOutcome(Transition(s, from, to), Transition(Unscheduled(s), from, to))
    ensures Transition(s, from, to).Ok? ==> Transition(s, from, to).value.sub == s.sub && Transition(s, from, to).value.invoices == s.invoices
  {
    hide StatusHistory.ApplyTransition;
  }

  lemma SweepsIgnoreSchedule(s: State, op: Op)
    requires op.DoPause? || op.DoCloseGrace? || op.DoExpireIncomplete? || op.DoCloseUncollectedTrial?
    ensures SameOutcome(Try(s, op), Try(Unscheduled(s), op))
  {
    hide Transition;
    match op {
      case DoPause => TransitionIgnoresSchedule(s, s.Status(), PAUSED);
      case DoCloseGrace(i) =>
        if i < |s.selections| && s.selections[i].GraceDue? {
          TransitionIgnoresSchedule(s, GRACE_PERIOD, StatusForFailureAction(s.selections[i].policy.Or(s.policy).failureAction));
        }
      case DoExpireIncomplete(_) => TransitionIgnoresSchedule(s, INCOMPLETE, EXPIRED);
      case DoCloseUncollectedTrial => TransitionIgnoresSchedule(s, TRIALING, PAST_DUE);
    }
  }

  lemma CancelIgnoresSchedule(s: State, atPeriodEnd: bool)
    ensures SameOutcome(Cancel(s, atPeriodEnd), Cancel(Unscheduled(s), atPeriodEnd))
  {
    hide Transition;
    TransitionIgnoresSchedule(s, s.Status(), CANCELED);
  }

  lemma ResumeIgnoresSchedule(s: State, now: int)
    ensures SameOutcome(Resume(s, now), Resume(Unscheduled(s), now))
  {
    hide Transition;
    TransitionIgnoresSchedule(s, PAUSED, ACTIVE);
  }

  lemma RowsIgnoreSchedule(s: State, op: Op)
    requires op.DoReadQuote? || op.DoFailAttempt? || op.DoSelectGrace? || op.DoSelectIncomplete?
    ensures SameOutcome(Try(s, op), Try(Unscheduled(s), op))
  {}

  lemma SettingsIgnoreSchedule(s: State, op: Op)
    requires op.DoVoidInvoice? || op.DoTrackUsage? || op.DoEditPolicy? || op.DoPinPrice?
    ensures SameOutcome(Try(s, op), Try(Unscheduled(s), op))
  {
    hide InsertEvent;
  }

  lemma CallsIgnoreSchedule(s: State, op: Op)
    requires op.DoApplyResult? || op.DoFailInvoice? || op.DoCancel? || op.DoResume?
    ensures SameOutcome(Try(s, op), Try(Unscheduled(s), op))
  {
    hide ApplyPaymentResult, FailInvoice, Cancel, Resume, SameOutcome, Unscheduled;
    match op {
      case DoApplyResult(k, result, at) => ApplyResultIgnoresSchedule(s, k, result, at);
      case DoFailInvoice(k, at) => FailInvoiceIgnoresSchedule(s, k, at);
      case DoCancel(atPeriodEnd) => CancelIgnoresSchedule(s, atPeriodEnd);
      case DoResume(now) => ResumeIgnoresSchedule(s, now);
    }
  }

  lemma TryIgnoresSchedule(s: State, op: Op)
    ensures SameOutcome(Try(s, op), Try(Unscheduled(s), op))
  {
    hide Try, SameOutcome, Unscheduled;
    match op {
      case DoRenew(_, _, _, _, _, _) => RenewIgnoresSchedule(s, op);
      case DoApplyResult(_, _, _) => CallsIgnoreSchedule(s, op);
      case DoFailInvoice(_, _) => CallsIgnoreSchedule(s, op);
      case DoCancel(_) => CallsIgnoreSchedule(s, op);
      case DoResume(_) => CallsIgnoreSchedule(s, op);
      case DoChangePlan(_, _, _, _, _) => ChangePlanIgnoresSchedule(s, op);
      case DoChangeQuantity(_, _, _) => ChangeQuantityIgnoresSchedule(s, op);
      case DoOpenAttempt(_, _) => OpenAttemptIgnoresSchedule(s, op);
      case DoReadQuote(_) => RowsIgnoreSchedule(s, op);
      case DoFailAttempt(_) => RowsIgnoreSchedule(s, op);
      case DoSelectGrace(_) => RowsIgnoreSchedule(s, op);
      case DoSelectIncomplete(_) => RowsIgnoreSchedule(s, op);
      case DoVoidInvoice(_) => SettingsIgnoreSchedule(s, op);
      case DoTrackUsage(_) => SettingsIgnoreSchedule(s, op);
      case DoEditPolicy(_) => SettingsIgnoreSchedule(s, op);
      case DoPinPrice(_) => SettingsIgnoreSchedule(s, op);
      case _ => SweepsIgnoreSchedule(s, op);
    }
  }

  lemma OpenAttemptIgnoresSchedule(s: State, op: Op)
    requires op.DoOpenAttempt?
    ensures SameOutcome(Try(s, op), Try(Unscheduled(s), op))
  {}

  /**
   * A scheduled plan change or seat decrease never takes effect: forgetting what
   * is scheduled changes nothing else in any run, however many periods it spans.
   */
  lemma {:induction false} ScheduledChangesNeverApply(s: State, ops: seq<Op>)
    ensures Unscheduled(Run(s, ops)) == Unscheduled(Run(Unscheduled(s), ops))
    decreases |ops|
  {
    hide Try, Unscheduled;
    if ops == [] {
      UnscheduledTwice(s);
    } else {
      ScheduledChangesNeverApply(s, ops[..|ops| - 1]);
      var a, b, op := Run(s, ops[..|ops| - 1]), Run(Unscheduled(s), ops[..|ops| - 1]), ops[|ops| - 1];
      TryIgnoresSchedule(a, op);
      TryIgnoresSchedule(b, op);
    }
  }

  lemma UnscheduledTwice(s: State)
    ensures Unscheduled(Unscheduled(s)) == Unscheduled(s)
  {}

  // -- what renewals may change -----------------------------------------------------------------

  lemma RenewKeepsTerms(s: State, op: Op)
    requires op.DoRenew? && Try(s, op).Ok?
    ensures var s' := Try(s, op).value;
            && s'.sub.pricePinned == s.sub.pricePinned
            && CanRollForward(s.sub.price, s'.sub.price)
            && (s.sub.pricePinned ==> s'.sub.price == s.sub.price)
  {
    hide OpenNextPeriod, Billable, StatusHistory.ApplyTransition;
    OpenNextPeriodPrices(s, BillingPrice(s.sub, op.current), op.flush, op.at);
  }

  lemma OpenNextPeriodPrices(s: State, price: Economics, flush: seq<UsageEvent>, at: int)
    ensures var r := OpenNextPeriod(s, price, flush, at);
            r.Ok? ==> r.value.sub.price == price && r.value.sub.pricePinned == s.sub.pricePinned
  {
    hide MeterClosedPeriod, RenewalAnchor, AddInterval, RecurringLines, FinalizeInvoice, DraftInvoice;
  }

  lemma ApplyResultKeepsPrice(s: State, k: nat, result: PaymentResult, at: int)
    requires ApplyPaymentResult(s, k, result, at).Ok?
    ensures var s' := ApplyPaymentResult(s, k, result, at).value;
            s'.sub.price == s.sub.price && s'.sub.pricePinned == s.sub.pricePinned
  {
    hide Recovery.PlanPaymentRecovery, StatusHistory.ApplyTransition;
  }

  lemma OthersKeepPrice(s: State, op: Op)
    requires Try(s, op).Ok? && !op.DoRenew? && !op.DoChangePlan?
    ensures Try(s, op).value.sub.price == s.sub.price
    ensures !op.DoPinPrice? ==> Try(s, op).value.sub.pricePinned == s.sub.pricePinned
  {
    hide Renew, ApplyPaymentResult, ChangePlan, ProrateSeats, InFlight, InsertEvent, DraftInvoice, FinalizeInvoice,
         StatusHistory.ApplyTransition;
    if op.DoApplyResult? { ApplyResultKeepsPrice(s, op.attempt, op.result, op.at); }
  }

  /**
   * Nobody's terms change behind their back: without a plan change, whatever
   * newer versions renewals are offered, the currency and the billing interval
   * stay what they were; and a pinned price stays itself until it is unpinned.
   */
  lemma {:induction false} TermsHold(s: State, ops: seq<Op>)
    requires forall i :: 0 <= i < |ops| ==> !ops[i].DoChangePlan?
    ensures var s' := Run(s, ops);
            && s'.sub.price.currency == s.sub.price.currency && s'.sub.price.interval == s.sub.price.interval
            && (s.sub.pricePinned && (forall i :: 0 <= i < |ops| && ops[i].DoPinPrice? ==> ops[i].pinned)
                ==> s'.sub.pricePinned && s'.sub.price == s.sub.price)
    decreases |ops|
  {
    hide Try;
    if ops != [] {
      TermsHold(s, ops[..|ops| - 1]);
      var before, op := Run(s, ops[..|ops| - 1]), ops[|ops| - 1];
      if Try(before, op).Ok? {
        if op.DoRenew? {
          RenewKeepsTerms(before, op);
        } else {
          OthersKeepPrice(before, op);
          PinIsSet(before, op);
        }
      }
    }
  }

  lemma PinIsSet(s: State, op: Op)
    ensures op.DoPinPrice? ==> Step(s, op).sub.pricePinned == op.pinned
  {}
}
