/**
 * The subscription's statuses over every run of transactions: the audit rows,
 * the frozen grace policy, and what a subscription must have paid for.
 */
module Lifecycle {
  import opened Basics
  import opened StateMachine
  import opened StatusHistory
  import opened Billing
  import opened Ledger
  import Calendar
  import Interval
  import InvoiceLines
  import Pricing
  import Proration
  import Recovery

  // -- every transaction moves along the table ----------------------------------------

  /** The two moves of a failed collection. */
  predicate Lapses(h: History, h': History) {
    var pastDue := ApplyTransition(h, h.status, PAST_DUE);
    pastDue.Ok? && ApplyTransition(pastDue.value, PAST_DUE, GRACE_PERIOD) == Ok(h')
  }

  /** What one transaction does to the status and its audit rows. */
  predicate Moved(h: History, h': History) {
    || h' == h
    || h' == Note(h, h.status)
    || ApplyTransition(h, h.status, h'.status) == Ok(h')
    || Lapses(h, h')
  }

  lemma FailInvoiceMoves(s: State, k: nat, at: int)
    ensures FailInvoice(s, k, at).Ok?
    ensures Moved(s.history, FailInvoice(s, k, at).value.history)
  {}

  lemma RecoverMoves(s: State, recoveredAt: int)
    requires Recover(s, recoveredAt).Ok?
    ensures Moved(s.history, Recover(s, recoveredAt).value.history)
  {
    hide Interval.AddInterval;
  }

  lemma ApplyResultMoves(s: State, k: nat, result: PaymentResult, at: int)
    requires ApplyPaymentResult(s, k, result, at).Ok?
    ensures Moved(s.history, ApplyPaymentResult(s, k, result, at).value.history)
  {
    hide Recover, FailInvoice, Moved;
    assert Moved(s.history, s.history) by { Still(s.history); }
    var attempt := s.attempts[k];
    if !Settled(attempt.status) {
      var marked := s.(attempts := s.attempts[k := attempt.(status := result.status)]);
      if result.status in {Failed, Canceled} {
        FailInvoiceMoves(marked, attempt.invoice, at);
      } else if result.status == Succeeded {
        var credited := Credited'(s, k, result);
        if credited.invoices[attempt.invoice].status == Paid {
          RecoverMoves(credited, result.paidAt.Or(at));
        }
      }
    }
  }

  /** The state just after an applied success credited its invoice. */
  function Credited'(s: State, k: nat, result: PaymentResult): State
    requires k < |s.attempts| && s.attempts[k].invoice < |s.invoices|
    requires PayInvoice(s.invoices[s.attempts[k].invoice], result.amount).Ok?
  {
    var j := s.attempts[k].invoice;
    s.(attempts := s.attempts[k := s.attempts[k].(status := result.status)],
       invoices := s.invoices[j := PayInvoice(s.invoices[j], result.amount).value],
       credits := s.credits + [Credit(k, j, result.amount)],
       sub := s.sub.(hasMethod := s.sub.hasMethod || result.savesMethod))
  }

  lemma Still(h: History)
    ensures Moved(h, h)
  {}

  lemma RenewMoves(s: State, op: Op)
    requires op.DoRenew? && Try(s, op).Ok?
    ensures Moved(s.history, Try(s, op).value.history)
  {
    hide BillingPrice, MeterClosedPeriod, RenewalAnchor, Interval.AddInterval, Pricing.RecurringLines, FinalizeInvoice;
  }

  lemma TryMoves(s: State, op: Op)
    requires Try(s, op).Ok?
    ensures Moved(s.history, Try(s, op).value.history)
  {
    hide Renew, ApplyPaymentResult, FailInvoice, Proration.Prorate, Proration.ProrateSeats, Pricing.RecurringAmount, InFlight, InsertEvent;
    match op {
      case DoRenew(_, _, _, _, _, _) => RenewMoves(s, op);
      case DoApplyResult(k, result, at) => ApplyResultMoves(s, k, result, at);
      case DoFailInvoice(k, at) => FailInvoiceMoves(s, k, at);
      case _ =>
    }
  }

  lemma MovedKeepsPath(h: History, h': History)
    requires LegalPath(h) && Moved(h, h')
    ensures LegalPath(h')
  {
    if Lapses(h, h') && h' != h {
      var mid := ApplyTransition(h, h.status, PAST_DUE).value;
      assert mid.log[..|mid.log| - 1] == h.log;
      assert h'.log[..|h'.log| - 1] == mid.log;
    } else if h'.log != h.log {
      assert h'.log[..|h'.log| - 1] == h.log;
    }
  }

  lemma CreateBegins(price: Pricing.Economics, quantity: int, trialDays: int, start: int, policy: Policy, hasMethod: bool, at: int)
    requires Create(price, quantity, trialDays, start, policy, hasMethod, at).Ok?
    ensures var s := Create(price, quantity, trialDays, start, policy, hasMethod, at).value;
            var initial := Begin(if s.sub.trialed then TRIALING else INCOMPLETE);
            && s.sub.grace.None?
            && (s.history == initial
                || (!s.sub.trialed && ApplyTransition(initial, INCOMPLETE, ACTIVE) == Ok(s.history)
                    && |s.invoices| == 1 && s.invoices[0].status == Paid))
  {
    hide InvoiceLines.LinesTotal, Interval.AddInterval, Pricing.RecurringLines, Calendar.DayOfMonth, Pricing.Billable;
  }

  /** The audit rows of a subscription are a legal path to its status, after every run. */
  lemma {:induction false} AuditRowsAreALegalPath(s: State, ops: seq<Op>)
    requires Created(s)
    ensures LegalPath(Run(s, ops).history)
    decreases |ops|
  {
    hide Moved, Try, LegalPath;
    if ops == [] {
      var price, quantity, trialDays, start, policy, hasMethod, at :|
        Create(price, quantity, trialDays, start, policy, hasMethod, at) == Ok(s);
      CreateBegins(price, quantity, trialDays, start, policy, hasMethod, at);
      BeginIsLegal(s.history, Begin(if s.sub.trialed then TRIALING else INCOMPLETE));
    } else {
      AuditRowsAreALegalPath(s, ops[..|ops| - 1]);
      var before, op := Run(s, ops[..|ops| - 1]), ops[|ops| - 1];
      if Try(before, op).Ok? {
        TryMoves(before, op);
        MovedKeepsPath(before.history, Step(before, op).history);
      }
    }
  }

  lemma BeginIsLegal(h: History, initial: History)
    requires initial == Begin(initial.status)
    requires h == initial || ApplyTransition(initial, initial.status, ACTIVE) == Ok(h)
    ensures LegalPath(h)
  {
    if h != initial { assert h.log[..1] == initial.log; }
  }

  /** A canceled or expired subscription stays so, whatever happens. */
  lemma {:induction false} EndedStaysEnded(s: State, ops: seq<Op>)
    requires IsTerminal(s.Status())
    ensures Run(s, ops).Status() == s.Status()
    decreases |ops|
  {
    hide Try;
    if ops != [] {
      EndedStaysEnded(s, ops[..|ops| - 1]);
      var before, op := Run(s, ops[..|ops| - 1]), ops[|ops| - 1];
      if Try(before, op).Ok? { TryMoves(before, op); }
    }
  }

  /**
   * Every status the payment, failure and expiry paths aim for is an edge of
   * the table: a failed collection always goes through, a settled payment is
   * never refused for its status, and closing a grace period is refused only
   * when the subscription is no longer in one.
   */
  lemma EngineTargetsAreEdges(s: State, k: nat, i: nat, recoveredAt: int, at: int)
    ensures FailInvoice(s, k, at).Ok?
    ensures Interval.ValidInterval(s.sub.price.interval) ==> Recover(s, recoveredAt).Ok?
    ensures i < |s.selections| && s.selections[i].GraceDue? ==> (CloseGrace(s, i).Ok? <==> s.Status() == GRACE_PERIOD)
    ensures i < |s.selections| && s.selections[i].IncompleteDue? ==> (ExpireIncomplete(s, i).Ok? <==> s.Status() == INCOMPLETE)
  {
    hide Recover;
    FailInvoiceMoves(s, 0, at);
    RecoveryIsAnEdge(s, recoveredAt);
  }

  lemma RecoveryIsAnEdge(s: State, recoveredAt: int)
    ensures Interval.ValidInterval(s.sub.price.interval) ==> Recover(s, recoveredAt).Ok?
  {
    hide Interval.AddMonths, Calendar.DayOfMonth;
  }

  // -- grace periods --------------------------------------------------------------------

  /** In a grace period the row holds a frozen policy and the window that policy gave. */
  predicate GraceSound(s: State) {
    s.Status() == GRACE_PERIOD ==>
      && s.sub.grace.Some?
      && s.sub.grace.value.end == s.sub.grace.value.start + s.sub.grace.value.policy.gracePeriodDays * Calendar.DAY_MS
  }

  /** A transaction that stays in the grace period keeps its window and policy to the letter. */
  predicate GraceStep(s: State, s': State) {
    && (GraceSound(s) ==> GraceSound(s'))
    && (s.Status() == GRACE_PERIOD && s'.Status() == GRACE_PERIOD ==> s'.sub.grace == s.sub.grace)
  }

  lemma FailInvoiceGraceStep(s: State, k: nat, at: int)
    ensures FailInvoice(s, k, at).Ok? && GraceStep(s, FailInvoice(s, k, at).value)
  {}

  lemma RecoverGraceStep(s: State, recoveredAt: int)
    requires Recover(s, recoveredAt).Ok?
    ensures GraceStep(s, Recover(s, recoveredAt).value)
  {
    hide Interval.AddInterval;
  }

  lemma ApplyResultGraceStep(s: State, k: nat, result: PaymentResult, at: int)
    requires ApplyPaymentResult(s, k, result, at).Ok?
    ensures GraceStep(s, ApplyPaymentResult(s, k, result, at).value)
  {
    hide Recover, FailInvoice;
    var attempt := s.attempts[k];
    if !Settled(attempt.status) {
      if result.status in {Failed, Canceled} {
        FailInvoiceGraceStep(s.(attempts := s.attempts[k := attempt.(status := result.status)]), attempt.invoice, at);
      } else if result.status == Succeeded {
        var credited := Credited'(s, k, result);
        if credited.invoices[attempt.invoice].status == Paid {
          RecoverGraceStep(credited, result.paidAt.Or(at));
        }
      }
    }
  }

  lemma TryGraceStep(s: State, op: Op)
    requires Try(s, op).Ok?
    ensures GraceStep(s, Try(s, op).value)
  {
    hide Renew, ApplyPaymentResult, FailInvoice, Proration.Prorate, Proration.ProrateSeats, Pricing.RecurringAmount, InFlight, InsertEvent;
    match op {
      case DoRenew(_, _, _, _, _, _) => RenewGraceStep(s, op);
      case DoApplyResult(k, result, at) => ApplyResultGraceStep(s, k, result, at);
      case DoFailInvoice(k, at) => FailInvoiceGraceStep(s, k, at);
      case _ =>
    }
  }

  lemma RenewGraceStep(s: State, op: Op)
    requires op.DoRenew? && Try(s, op).Ok?
    ensures GraceStep(s, Try(s, op).value)
  {
    hide BillingPrice, MeterClosedPeriod, RenewalAnchor, Interval.AddInterval, Pricing.RecurringLines, FinalizeInvoice;
  }

  /** The status is this one before and after every one of these transactions. */
  predicate Throughout(s: State, ops: seq<Op>, status: Status)
    decreases |ops|
  {
    && Run(s, ops).Status() == status
    && (ops != [] ==> Throughout(s, ops[..|ops| - 1], status))
  }

  /**
   * A grace period always carries its frozen policy, and while it lasts nothing
   * changes it: not settings edits, not further failures, not renewals.
   */
  lemma {:induction false} GraceIsFrozen(s: State, ops: seq<Op>)
    requires GraceSound(s)
    ensures GraceSound(Run(s, ops))
    ensures Throughout(s, ops, GRACE_PERIOD) ==> Run(s, ops).sub.grace == s.sub.grace
    decreases |ops|
  {
    hide Try, GraceSound;
    if ops != [] {
      GraceIsFrozen(s, ops[..|ops| - 1]);
      var before, op := Run(s, ops[..|ops| - 1]), ops[|ops| - 1];
      if Try(before, op).Ok? { TryGraceStep(before, op); }
    }
  }

  lemma GraceSoundFromCreation(s: State, ops: seq<Op>)
    requires Created(s)
    ensures GraceSound(Run(s, ops))
  {
    hide Run;
    var price, quantity, trialDays, start, policy, hasMethod, at :|
      Create(price, quantity, trialDays, start, policy, hasMethod, at) == Ok(s);
    CreateBegins(price, quantity, trialDays, start, policy, hasMethod, at);
    GraceIsFrozen(s, ops);
  }

  /** Selections are never taken back. */
  lemma {:induction false} SelectionsStay(s: State, ops: seq<Op>)
    ensures s.selections <= Run(s, ops).selections
    decreases |ops|
  {
    hide Try;
    if ops != [] {
      SelectionsStay(s, ops[..|ops| - 1]);
      var before, op := Run(s, ops[..|ops| - 1]), ops[|ops| - 1];
      if Try(before, op).Ok? { TryKeepsSelections(before, op); }
    }
  }

  lemma TryKeepsSelections(s: State, op: Op)
    requires Try(s, op).Ok?
    ensures s.selections <= Try(s, op).value.selections
  {
    hide Proration.Prorate, Proration.ProrateSeats, Pricing.RecurringAmount, InFlight, InsertEvent, BillingPrice,
         MeterClosedPeriod, RenewalAnchor, Interval.AddInterval, Pricing.RecurringLines, FinalizeInvoice, Pricing.Billable,
         StatusHistory.ApplyTransition;
  }

  /**
   * Expiry takes the frozen action. If a sweep selects the subscription and the
   * same grace period is still running when it writes, whatever happened in
   * between, the status it writes is the one the frozen policy names.
   */
  lemma ExpiryTakesFrozenAction(s: State, now: int, ops: seq<Op>)
    requires GraceSound(s) && s.Status() == GRACE_PERIOD && s.sub.grace.value.end <= now
    requires Throughout(SelectGrace(s, now).value, ops, GRACE_PERIOD)
    ensures var later := Run(SelectGrace(s, now).value, ops);
            var closed := CloseGrace(later, |s.selections|);
            && later.sub.grace.Some? && closed.Ok?
            && closed.value.Status() == StatusForFailureAction(later.sub.grace.value.policy.failureAction)
  {
    hide Run;
    var selected := SelectGrace(s, now).value;
    GraceIsFrozen(selected, ops);
    SelectionsStay(selected, ops);
    StillInGrace(selected, ops);
    assert Run(selected, ops).selections[|s.selections|] == selected.selections[|s.selections|];
  }

  lemma StillInGrace(s: State, ops: seq<Op>)
    requires Throughout(s, ops, GRACE_PERIOD)
    ensures Run(s, ops).Status() == GRACE_PERIOD
  {}

  /**
   * For any run in between: the sweep's write lands exactly when the row says
   * GRACE_PERIOD again, and takes the running period's frozen action exactly
   * when the policies agree on it. A recovery followed by a new failure between
   * read and write is what makes them differ.
   */
  lemma StaleExpiry(s: State, i: nat)
    requires GraceSound(s) && i < |s.selections| && s.selections[i].GraceDue? && s.selections[i].policy.Some?
    ensures CloseGrace(s, i).Ok? <==> s.Status() == GRACE_PERIOD
    ensures s.Status() == GRACE_PERIOD ==>
              (CloseGrace(s, i).value.Status() == StatusForFailureAction(s.sub.grace.value.policy.failureAction)
               <==> s.selections[i].policy.value.failureAction == s.sub.grace.value.policy.failureAction)
  {}

  lemma RunThree(s: State, a: Op, b: Op, c: Op)
    ensures Run(s, [a, b, c]) == Step(Step(Step(s, a), b), c)
  {
    hide Step;
    assert [a, b, c] == [a, b] + [c];
    RunMore(s, [a, b], c);
    RunTwo(s, a, b);
  }

  /**
   * Exactly when a sweep closes a grace period early: the subscription is in one
   * again when the write lands, and that one ends later. It must then have left
   * the one the sweep selected.
   */
  lemma ClosesEarlyExactlyWhen(s: State, selectedAt: int, ops: seq<Op>, closedAt: int)
    requires GraceSound(s) && s.Status() == GRACE_PERIOD && s.sub.grace.value.end <= selectedAt <= closedAt
    ensures var selected := SelectGrace(s, selectedAt).value;
            var later := Run(selected, ops);
            var early := CloseGrace(later, |s.selections|).Ok? && later.sub.grace.Some? && closedAt < later.sub.grace.value.end;
            && (later.Status() == GRACE_PERIOD ==>
                  && later.sub.grace.Some? && CloseGrace(later, |s.selections|).Ok?
                  && CloseGrace(later, |s.selections|).value.Status() == StatusForFailureAction(s.sub.grace.value.policy.failureAction))
            && (early <==> later.Status() == GRACE_PERIOD && closedAt < later.sub.grace.value.end)
            && (early ==> !Throughout(selected, ops, GRACE_PERIOD))
  {
    hide Run, Throughout;
    var selected := SelectGrace(s, selectedAt).value;
    GraceIsFrozen(selected, ops);
    SelectionsStay(selected, ops);
    assert Run(selected, ops).selections[|s.selections|] == selected.selections[|s.selections|];
  }

  /**
   * Early closing is reachable from every expired grace period that a pending
   * payment could still settle: recovered after the sweep read it, failed again,
   * and closed with the action frozen for the old period although the new one
   * has not run out, whatever the policy says by then.
   */
  lemma ExpiryCanCutShortALaterGracePeriod(s: State, now: int, k: nat, result: PaymentResult, other: Policy, failedAt: int)
    requires Sound(BooksOf(s)) && GraceSound(s) && s.Status() == GRACE_PERIOD && s.sub.grace.value.end <= now <= failedAt
    requires k < |s.attempts| && !Settled(s.attempts[k].status) && result.status == Succeeded
    requires ApplyPaymentResult(SelectGrace(s, now).value, k, result, now).Ok?
    requires other.gracePeriodDays >= 1
    ensures var frozen := s.sub.grace.value.policy;
            var ops := [DoApplyResult(k, result, now), DoEditPolicy(other), DoFailInvoice(s.attempts[k].invoice, failedAt)];
            var later := Run(SelectGrace(s, now).value, ops);
            var closed := CloseGrace(later, |s.selections|);
            && later.sub.grace == Some(OpenGracePeriod(other, failedAt)) && later.sub.grace.value.end > failedAt
            && closed.Ok? && closed.value.Status() == StatusForFailureAction(frozen.failureAction)
            && (closed.value.Status() != StatusForFailureAction(other.failureAction) <==> frozen.failureAction != other.failureAction)
  {
    hide Run, Sound, ApplyPaymentResult;
    var j := s.attempts[k].invoice;
    var selected := SelectGrace(s, now).value;
    RunThree(selected, DoApplyResult(k, result, now), DoEditPolicy(other), DoFailInvoice(j, failedAt));
    PaidFromGrace(selected, k, result, now);
  }

  lemma PaidFromGrace(s: State, k: nat, result: PaymentResult, at: int)
    requires Sound(BooksOf(s)) && s.Status() == GRACE_PERIOD
    requires k < |s.attempts| && !Settled(s.attempts[k].status) && result.status == Succeeded
    requires ApplyPaymentResult(s, k, result, at).Ok?
    ensures var r := ApplyPaymentResult(s, k, result, at);
            && r.value.Status() == ACTIVE && s.attempts[k].invoice < |s.invoices|
            && r.value.selections == s.selections && |r.value.invoices| == |s.invoices|
  {
    PayKeepsSound(BooksOf(s), k, result.amount);
  }

  // -- first payments that never came -----------------------------------------------------

  /** A status that is not INCOMPLETE never becomes it. */
  lemma {:induction false} NeverIncompleteAgain(s: State, ops: seq<Op>)
    requires s.Status() != INCOMPLETE
    ensures Run(s, ops).Status() != INCOMPLETE
    decreases |ops|
  {
    hide Try;
    if ops != [] {
      NeverIncompleteAgain(s, ops[..|ops| - 1]);
      var before, op := Run(s, ops[..|ops| - 1]), ops[|ops| - 1];
      if Try(before, op).Ok? { TryMoves(before, op); }
    }
  }

  lemma {:induction false} IncompleteSoFar(s: State, ops: seq<Op>)
    ensures Run(s, ops).Status() == INCOMPLETE <==> Throughout(s, ops, INCOMPLETE)
    decreases |ops|
  {
    hide Step;
    if ops != [] {
      IncompleteSoFar(s, ops[..|ops| - 1]);
      var before := Run(s, ops[..|ops| - 1]);
      if before.Status() != INCOMPLETE {
        NeverIncompleteAgain(before, [ops[|ops| - 1]]);
        RunOne(before, ops[|ops| - 1]);
      }
    }
  }

  /**
   * The sweep that expires unpaid signups acts exactly when nothing has moved
   * the subscription since it was selected; a lost race changes nothing. When it
   * acts, no invoice is left that could be collected.
   */
  lemma ExpiryOfUnpaidSignups(s: State, now: int, ops: seq<Op>)
    requires Sound(BooksOf(s)) && |SelectIncomplete(s, now).value.selections| > |s.selections|
    ensures var selected := SelectIncomplete(s, now).value;
            var expired := ExpireIncomplete(Run(selected, ops), |s.selections|);
            && (expired.Ok? <==> Throughout(selected, ops, INCOMPLETE))
            && (expired.Ok? ==> expired.value.Status() == EXPIRED
                                && forall k :: 0 <= k < |expired.value.invoices| ==> AssertPayable(expired.value.invoices[k]).Err?)
  {
    hide Run, Throughout, Sound;
    var selected := SelectIncomplete(s, now).value;
    SelectionsStay(selected, ops);
    IncompleteSoFar(selected, ops);
    assert Run(selected, ops).selections[|s.selections|] == selected.selections[|s.selections|];
    RunExtends(selected, ops);
    VoidedIsNotPayable(Run(selected, ops).invoices);
  }

  lemma VoidedIsNotPayable(invoices: seq<Invoice>)
    ensures forall k :: 0 <= k < |invoices| ==> AssertPayable(VoidUnpaid(invoices)[k]).Err?
  {}

  // -- what a subscription has paid for ---------------------------------------------------

  ghost predicate HasPaidInvoice(s: State) {
    exists k :: 0 <= k < |s.invoices| && s.invoices[k].status == Paid
  }

  ghost predicate Activated(log: seq<LogRow>) {
    exists i :: 0 <= i < |log| && log[i].Applied? && log[i].to == ACTIVE
  }

  /** Every move into PAST_DUE or GRACE_PERIOD comes after a move to ACTIVE. */
  ghost predicate LapsesFollowActivation(log: seq<LogRow>) {
    forall i :: 0 <= i < |log| && log[i].Applied? && log[i].to in {PAST_DUE, GRACE_PERIOD} ==> Activated(log[..i])
  }

  /** A subscription without a trial is either not yet started, over, or paid for. */
  ghost predicate Earned(h: History, paid: bool) {
    && h.status != TRIALING
    && (h.status !in {INCOMPLETE, CANCELED, EXPIRED} ==> paid && Activated(h.log))
    && LapsesFollowActivation(h.log)
  }

  lemma ApplyKeepsEarned(h: History, from: Status, to: Status, paid: bool)
    requires Earned(h, paid) && ApplyTransition(h, from, to).Ok?
    requires h.status == INCOMPLETE && to == ACTIVE ==> paid
    ensures Earned(ApplyTransition(h, from, to).value, paid)
  {
    var h' := ApplyTransition(h, from, to).value;
    RowsStay(h.log, h'.log);
    if to == ACTIVE { assert h'.log[|h.log|].to == ACTIVE; }
    assert h'.log[..|h.log|] == h.log;
  }

  lemma RowsStay(log: seq<LogRow>, log': seq<LogRow>)
    requires log <= log'
    ensures Activated(log) ==> Activated(log')
    ensures LapsesFollowActivation(log) ==>
              forall i :: 0 <= i < |log| && log'[i].Applied? && log'[i].to in {PAST_DUE, GRACE_PERIOD} ==> Activated(log'[..i])
  {
    if Activated(log) {
      var i :| 0 <= i < |log| && log[i].Applied? && log[i].to == ACTIVE;
      assert log'[i] == log[i];
    }
    forall i | 0 <= i < |log| ensures log'[i] == log[i] && log'[..i] == log[..i] {}
  }

  lemma MovedKeepsEarned(h: History, h': History, paid: bool)
    requires Earned(h, paid) && Moved(h, h')
    requires h.status == INCOMPLETE && h'.status == ACTIVE ==> paid
    ensures Earned(h', paid)
  {
    if h' == h {
    } else if h' == Note(h, h.status) {
      RowsStay(h.log, h'.log);
    } else if ApplyTransition(h, h.status, h'.status) == Ok(h') {
      ApplyKeepsEarned(h, h.status, h'.status, paid);
    } else {
      ApplyKeepsEarned(h, h.status, PAST_DUE, paid);
      ApplyKeepsEarned(ApplyTransition(h, h.status, PAST_DUE).value, PAST_DUE, GRACE_PERIOD, paid);
    }
  }

  /** Only a settled payment starts a subscription that had not started. */
  lemma StartNeedsPayment(s: State, op: Op)
    requires Sound(BooksOf(s)) && Try(s, op).Ok? && s.Status() == INCOMPLETE && Try(s, op).value.Status() == ACTIVE
    ensures HasPaidInvoice(Try(s, op).value)
  {
    hide Sound, Renew, FailInvoice, ApplyPaymentResult, Proration.Prorate, Proration.ProrateSeats, Pricing.RecurringAmount, InFlight, InsertEvent;
    if op.DoRenew? { RenewNeedsStart(s, op); }
    if op.DoFailInvoice? { IncompleteNeverLapses(s, op.invoice, op.at); }
    assert op.DoApplyResult?;
    StartIsPaid(s, op.attempt, op.result, op.at);
  }

  lemma RenewNeedsStart(s: State, op: Op)
    requires op.DoRenew? && s.Status() == INCOMPLETE
    ensures Try(s, op).Err?
  {}

  lemma IncompleteNeverLapses(s: State, k: nat, at: int)
    requires s.Status() == INCOMPLETE
    ensures FailInvoice(s, k, at) == Ok(s)
  {}

  lemma StartIsPaid(s: State, k: nat, result: PaymentResult, at: int)
    requires Sound(BooksOf(s)) && s.Status() == INCOMPLETE
    requires ApplyPaymentResult(s, k, result, at).Ok? && ApplyPaymentResult(s, k, result, at).value.Status() == ACTIVE
    ensures HasPaidInvoice(ApplyPaymentResult(s, k, result, at).value)
  {
    hide Recover, Sound;
    AppliedSuccessPays(s, k, result, at);
    var s' := ApplyPaymentResult(s, k, result, at).value;
    ApplyResultExtends(s, k, result, at);
    assert s'.invoices[s.attempts[k].invoice].status == Paid;
  }

  lemma TryKeepsTrial(s: State, op: Op)
    requires Try(s, op).Ok?
    ensures Try(s, op).value.sub.trialed == s.sub.trialed
  {
    hide Renew, ApplyPaymentResult, Proration.Prorate, Proration.ProrateSeats, Pricing.RecurringAmount, InFlight, InsertEvent,
         DraftInvoice, FinalizeInvoice, Pricing.Billable, StatusHistory.ApplyTransition;
    match op {
      case DoRenew(_, _, _, _, _, _) => RenewKeepsTrial(s, op);
      case DoApplyResult(k, result, at) => ApplyResultKeepsTrial(s, k, result, at);
      case _ =>
    }
  }

  lemma RenewKeepsTrial(s: State, op: Op)
    requires op.DoRenew? && Try(s, op).Ok?
    ensures Try(s, op).value.sub.trialed == s.sub.trialed
  {
    hide BillingPrice, MeterClosedPeriod, RenewalAnchor, Interval.AddInterval, Pricing.RecurringLines, DraftInvoice, FinalizeInvoice,
         Pricing.Billable, StatusHistory.ApplyTransition;
  }

  lemma ApplyResultKeepsTrial(s: State, k: nat, result: PaymentResult, at: int)
    requires ApplyPaymentResult(s, k, result, at).Ok?
    ensures ApplyPaymentResult(s, k, result, at).value.sub.trialed == s.sub.trialed
  {
    hide Recovery.PlanPaymentRecovery, StatusHistory.ApplyTransition;
  }

  /**
   * Never entitled without paying: a subscription created without a trial that
   * is not INCOMPLETE, CANCELED or EXPIRED owns a PAID invoice and has been
   * ACTIVE, and was ACTIVE before it ever was PAST_DUE or in a grace period.
   */
  lemma {:induction false} StandingIsPaidFor(s: State, ops: seq<Op>)
    requires Created(s) && !s.sub.trialed
    ensures Sound(BooksOf(Run(s, ops))) && !Run(s, ops).sub.trialed
    ensures Earned(Run(s, ops).history, HasPaidInvoice(Run(s, ops)))
    decreases |ops|
  {
    hide Try, Moved, Sound, Earned, HasPaidInvoice;
    LedgerAlwaysBalances(s, ops);
    if ops == [] {
      CreationIsEarned(s);
    } else {
      StandingIsPaidFor(s, ops[..|ops| - 1]);
      var before, op := Run(s, ops[..|ops| - 1]), ops[|ops| - 1];
      if Try(before, op).Ok? {
        var after := Try(before, op).value;
        TryMoves(before, op);
        TryExtends(before, op);
        TryKeepsTrial(before, op);
        PaidStaysPaid(before, after);
        if before.Status() == INCOMPLETE && after.Status() == ACTIVE { StartNeedsPayment(before, op); }
        EarnedGrows(before.history, HasPaidInvoice(before), HasPaidInvoice(after));
        MovedKeepsEarned(before.history, after.history, HasPaidInvoice(after));
      }
    }
  }

  lemma EarnedGrows(h: History, paid: bool, paid': bool)
    requires Earned(h, paid) && (paid ==> paid')
    ensures Earned(h, paid')
  {}

  lemma PaidStaysPaid(s: State, s': State)
    requires Extends(BooksOf(s), BooksOf(s'))
    ensures HasPaidInvoice(s) ==> HasPaidInvoice(s')
  {
    if HasPaidInvoice(s) {
      var k :| 0 <= k < |s.invoices| && s.invoices[k].status == Paid;
      assert BooksOf(s').invoices[k].total == BooksOf(s).invoices[k].total;
      assert s'.invoices[k].status == Paid;
    }
  }

  lemma CreationIsEarned(s: State)
    requires Created(s) && !s.sub.trialed
    ensures Earned(s.history, HasPaidInvoice(s))
  {
    hide Create;
    var price, quantity, trialDays, start, policy, hasMethod, at :|
      Create(price, quantity, trialDays, start, policy, hasMethod, at) == Ok(s);
    CreateBegins(price, quantity, trialDays, start, policy, hasMethod, at);
    if s.history != Begin(INCOMPLETE) {
      assert s.invoices[0].status == Paid;
      ApplyKeepsEarned(Begin(INCOMPLETE), INCOMPLETE, ACTIVE, true);
    }
  }
}
