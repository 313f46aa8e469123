/**
 * Collecting an invoice across payment providers, and how far the in-flight
 * check keeps charges apart: it sees attempts that are PROCESSING, and no others
 * (packages/billing/src/payments.ts).
 */
module Collection {
  import opened Basics
  import opened StateMachine
  import opened Billing
  import opened Accounts
  import StatusHistory
  import Pricing
  import Proration
  import Recovery
  import Interval
  import opened Ledger

  // -- charges being processed ------------------------------------------------------------

  predicate InProcess(a: Attempt) { a.status == Processing }

  /** Two attempts for one invoice, both PROCESSING, the later opened no more than the in-flight window after the earlier. */
  predicate Close(attempts: seq<Attempt>, i: nat, j: nat)
    requires i < |attempts| && j < |attempts|
  {
    InProcess(attempts[i]) && InProcess(attempts[j]) && attempts[i].invoice == attempts[j].invoice
    && attempts[j].createdAt <= attempts[i].createdAt + IN_FLIGHT_MS
  }

  /** Attempts PROCESSING for one invoice were opened more than the in-flight window apart. */
  ghost predicate Spaced(attempts: seq<Attempt>) {
    forall i, j :: 0 <= i < j < |attempts| ==> !Close(attempts, i, j)
  }

  /** Attempt `k`, were it PROCESSING, is close to another that is. */
  ghost predicate Crowded(attempts: seq<Attempt>, k: nat)
    requires k < |attempts|
  {
    var revived := attempts[k := attempts[k].(status := Processing)];
    exists i: nat :: i < |attempts| && ((i < k && Close(revived, i, k)) || (k < i && Close(revived, k, i)))
  }

  /** A provider's PROCESSING answer to an attempt that had gone on to PENDING. */
  predicate Revives(s: State, op: Op) {
    op.DoApplyResult? && op.result.status == Processing && op.attempt < |s.attempts|
    && s.attempts[op.attempt].status == Pending && s.attempts[op.attempt].invoice < |s.invoices|
  }

  /** Rows are only added, and no row comes back into process. */
  ghost predicate Resolving(a: seq<Attempt>, b: seq<Attempt>) {
    && |a| <= |b|
    && forall i :: 0 <= i < |a| ==>
         b[i].invoice == a[i].invoice && b[i].createdAt == a[i].createdAt && b[i].amount == a[i].amount && (InProcess(b[i]) ==> InProcess(a[i]))
  }

  lemma RecordKeepsAttempts(s: State, k: nat, invoice: nat, result: PaymentResult, at: int)
    requires invoice < |s.invoices| && RecordPayment(s, k, invoice, result, at).Ok?
    ensures RecordPayment(s, k, invoice, result, at).value.attempts == s.attempts
  {
    hide Recovery.PlanPaymentRecovery;
  }

  lemma ApplyAttempts(s: State, k: nat, result: PaymentResult, at: int)
    requires ApplyPaymentResult(s, k, result, at).Ok?
    ensures var after := ApplyPaymentResult(s, k, result, at).value.attempts;
            && |after| == |s.attempts|
            && after == (if Settled(s.attempts[k].status) then s.attempts else s.attempts[k := s.attempts[k].(status := result.status)])
  {
    hide RecordPayment;
    var attempt := s.attempts[k];
    if !Settled(attempt.status) && result.status == Succeeded {
      RecordKeepsAttempts(s.(attempts := s.attempts[k := attempt.(status := result.status)]), k, attempt.invoice, result, at);
    }
  }

  lemma TryAttempts(s: State, op: Op)
    requires Try(s, op).Ok?
    ensures var after := Try(s, op).value.attempts;
            && |s.attempts| <= |after|
            && (|after| != |s.attempts| ==> op.DoOpenAttempt?)
            && (!op.DoOpenAttempt? ==> forall i :: 0 <= i < |s.attempts| && !Resolves(op, i) ==> after[i] == s.attempts[i])
            && (!Revives(s, op) ==> Resolving(s.attempts, after))
            && (Revives(s, op) ==> after == s.attempts[op.attempt := s.attempts[op.attempt].(status := Processing)])
  {
    hide ApplyPaymentResult, InFlight, InsertEvent, StatusHistory.ApplyTransition, Pricing.RecurringAmount, Proration.Prorate, Proration.ProrateSeats, OpenNextPeriod;
    match op {
      case DoRenew(_, _, current, flush, _, at) =>
        RenewKeepsAttempts(s, BillingPrice(s.sub, current), flush, at);
      case DoApplyResult(k, result, at) => AppliedHasRows(s, k, result, at); ApplyAttempts(s, k, result, at);
      case _ =>
    }
  }

  lemma AppliedHasRows(s: State, k: nat, result: PaymentResult, at: int)
    requires ApplyPaymentResult(s, k, result, at).Ok?
    ensures k < |s.attempts| && s.attempts[k].invoice < |s.invoices|
  {}

  lemma RenewKeepsAttempts(s: State, price: Pricing.Economics, flush: seq<UsageEvent>, at: int)
    ensures OpenNextPeriod(s, price, flush, at).Ok? ==> OpenNextPeriod(s, price, flush, at).value.attempts == s.attempts
  {
    hide MeterClosedPeriod, RenewalAnchor, FinalizeInvoice, DraftInvoice;
  }

  /** The transactions that can decide attempt `k`. */
  predicate Resolves(op: Op, k: nat) {
    (op.DoApplyResult? && op.attempt == k) || (op.DoFailAttempt? && op.attempt == k)
  }

  lemma OpenKeepsSpaced(s: State, q: nat, at: int)
    requires Spaced(s.attempts) && OpenAttempt(s, q, at).Ok?
    ensures Spaced(OpenAttempt(s, q, at).value.attempts)
  {
    var invoice, after := s.quotes[q].invoice, OpenAttempt(s, q, at).value.attempts;
    assert forall i :: 0 <= i < |s.attempts| && InProcess(s.attempts[i]) && s.attempts[i].invoice == invoice
             ==> !(s.attempts[i].createdAt >= at - IN_FLIGHT_MS);
    forall i: nat, j: nat | i < j < |after| ensures !Close(after, i, j) {
      if j < |s.attempts| { assert !Close(s.attempts, i, j); }
    }
  }

  /**
   * One transaction keeps attempts that are PROCESSING apart, unless it puts a
   * PENDING one back to PROCESSING close to another: then, and only then, it
   * does not.
   */
  lemma SpacingBreaksExactlyWhen(s: State, op: Op)
    requires Spaced(s.attempts)
    ensures Spaced(Step(s, op).attempts) <==> !(Revives(s, op) && Crowded(s.attempts, op.attempt))
  {
    hide OpenAttempt, Spaced, Crowded, Resolving;
    if Try(s, op).Ok? {
      if op.DoOpenAttempt? {
        OpenKeepsSpaced(s, op.quote, op.at);
        NoRevival(s, op);
      } else {
        hide Try;
        TryAttempts(s, op);
        if Revives(s, op) {
          RevivalCrowds(s.attempts, op.attempt);
        } else {
          ResolvingKeepsSpaced(s.attempts, Step(s, op).attempts);
        }
      }
    } else {
      if Revives(s, op) { RevivalIsApplied(s, op); }
    }
  }

  lemma NoRevival(s: State, op: Op)
    requires op.DoOpenAttempt?
    ensures !Revives(s, op)
  {}

  lemma RevivalIsApplied(s: State, op: Op)
    requires Revives(s, op)
    ensures Try(s, op).Ok?
  {}

  lemma ResolvingKeepsSpaced(a: seq<Attempt>, b: seq<Attempt>)
    requires Spaced(a) && Resolving(a, b) && |a| == |b|
    ensures Spaced(b)
  {
    forall i: nat, j: nat | i < j < |b| ensures !Close(b, i, j) {
      assert !Close(a, i, j);
    }
  }

  lemma RevivalCrowds(a: seq<Attempt>, k: nat)
    requires Spaced(a) && k < |a|
    ensures Spaced(a[k := a[k].(status := Processing)]) <==> !Crowded(a, k)
  {
    var b := a[k := a[k].(status := Processing)];
    if !Crowded(a, k) {
      forall i: nat, j: nat | i < j < |b| ensures !Close(b, i, j) {
        assert !Close(a, i, j);
      }
    }
  }

  /** No transaction of the run does that. */
  ghost predicate NeverCrowds(s: State, ops: seq<Op>) {
    ops == [] || (NeverCrowds(s, ops[..|ops| - 1])
                  && var before, op := Run(s, ops[..|ops| - 1]), ops[|ops| - 1];
                     !(Revives(before, op) && Crowded(before.attempts, op.attempt)))
  }

  /**
   * However retries, clicks, webhooks and sweeps interleave, two attempts for
   * one invoice that are both PROCESSING were opened more than the in-flight
   * window apart. Attempts that are PENDING are not kept apart at all.
   */
  lemma {:induction false} OneChargeInProcess(s: State, ops: seq<Op>)
    requires Spaced(s.attempts) && NeverCrowds(s, ops)
    ensures Spaced(Run(s, ops).attempts)
    decreases |ops|
  {
    hide Step, Spaced, Crowded, Revives;
    if ops != [] {
      OneChargeInProcess(s, ops[..|ops| - 1]);
      SpacingBreaksExactlyWhen(Run(s, ops[..|ops| - 1]), ops[|ops| - 1]);
    }
  }

  predicate LeavesInProcess(ops: seq<Op>, k: nat) { forall i :: 0 <= i < |ops| ==> !Resolves(ops[i], k) }

  /**
   * A charge left PROCESSING by a provider timeout blocks every other charge for
   * its invoice until the window has passed, whatever else happens meanwhile.
   */
  lemma {:induction false} DoubtBlocksNewCharges(s: State, ops: seq<Op>, k: nat, q: nat, at: int)
    requires k < |s.attempts| && InProcess(s.attempts[k])
    requires LeavesInProcess(ops, k)
    requires at <= s.attempts[k].createdAt + IN_FLIGHT_MS
    ensures var now := Run(s, ops);
            && k < |now.attempts| && now.attempts[k] == s.attempts[k]
            && (q < |now.quotes| && now.quotes[q].invoice == s.attempts[k].invoice ==> OpenAttempt(now, q, at) == Err(RequestInProgress))
    decreases |ops|
  {
    if ops != [] {
      var earlier, op := ops[..|ops| - 1], ops[|ops| - 1];
      DoubtBlocksNewCharges(s, earlier, k, q, at);
      DoubtLasts(Run(s, earlier), op, k);
    }
  }

  lemma DoubtLasts(s: State, op: Op, k: nat)
    requires k < |s.attempts| && InProcess(s.attempts[k]) && !Resolves(op, k)
    ensures k < |Step(s, op).attempts| && Step(s, op).attempts[k] == s.attempts[k]
  {
    if Try(s, op).Ok? && !op.DoOpenAttempt? {
      hide Try;
      TryAttempts(s, op);
    }
  }

  // -- the candidate loop ---------------------------------------------------------------

  /** What calling one provider came to. */
  datatype Answer = Replies(result: PaymentResult) | Breaks(code: ErrorCode)

  /** One eligible provider, with the times its attempt is opened and answered. */
  datatype Candidate = Candidate(openedAt: int, answer: Answer, answeredAt: int)

  /**
   * How a collection call ends. It returns a provider's reply, or it throws:
   * the invoice cannot be paid, no method or provider could be selected, an
   * attempt was refused, a provider timed out, or every provider failed, which
   * alone is put to the subscription as a failed payment.
   */
  datatype Outcome =
    | Returned(status: AttemptStatus)
    | Unpayable(code: ErrorCode)
    | NoProvider(code: ErrorCode)
    | AttemptRefused(code: ErrorCode)
    | TimedOut
    | Exhausted(code: ErrorCode)

  /** The transactions one collection call performs, and how it ends. */
  datatype Collected = Collected(ops: seq<Op>, outcome: Outcome)
  {
    function After(earlier: seq<Op>): Collected { Collected(earlier + ops, outcome) }
  }

  /** The transactions that put one candidate's failure on record. */
  function Failing(s: State, quote: nat, c: Candidate): seq<Op> {
    [DoOpenAttempt(quote, c.openedAt), DoFailAttempt(|s.attempts|)]
  }

  /** The error a candidate's call threw, if its answer could not be applied. */
  function AnswerError(s: State, quote: nat, c: Candidate): Option<ErrorCode> {
    match c.answer
    case Breaks(code) => Some(code)
    case Replies(result) =>
      var r := ApplyPaymentResult(Step(s, DoOpenAttempt(quote, c.openedAt)), |s.attempts|, result, c.answeredAt);
      if r.Err? then Some(r.error) else None
  }

  /**
   * The loop over candidates: an attempt is opened before its provider is
   * called; a reply ends the call; a timeout ends it with the attempt in doubt;
   * any other error fails the attempt and moves to the next provider, unless
   * the charge is pinned to a stored method.
   */
  function Candidates(s: State, quote: nat, invoice: nat, cs: seq<Candidate>, stored: bool, last: Option<ErrorCode>, failedAt: int): Collected
    decreases |cs|
  {
    if cs == [] then Collected([DoFailInvoice(invoice, failedAt)], Exhausted(last.Or(PaymentFailed)))
    else
      var c := cs[0];
      var opening := DoOpenAttempt(quote, c.openedAt);
      var refused := Try(s, opening);
      if refused.Err? then Collected([], AttemptRefused(refused.error))
      else
        var error := AnswerError(s, quote, c);
        if error.None? then Collected([opening, DoApplyResult(|s.attempts|, c.answer.result, c.answeredAt)], Returned(c.answer.result.status))
        else if error.value == ProviderTimeout then Collected([opening], TimedOut)
        else Candidates(Run(s, Failing(s, quote, c)), quote, invoice, if stored then [] else cs[1..], stored, error, failedAt)
             .After(Failing(s, quote, c))
  }

  /**
   * `attemptInvoicePayment`: quote what is due, select a method and the eligible
   * providers, then work through them. When the selection throws, or finds no
   * provider, the call ends there and nothing lapses.
   */
  function CollectInvoice(s: State, invoice: nat, providers: Result<seq<Candidate>>, stored: bool, failedAt: int): Collected {
    var quoted := ReadQuote(s, invoice);
    if quoted.Err? then Collected([], Unpayable(quoted.error))
    else if providers.Err? then Collected([DoReadQuote(invoice)], NoProvider(providers.error))
    else if providers.value == [] then Collected([DoReadQuote(invoice)], NoProvider(NoEligiblePaymentProvider))
    else Candidates(quoted.value, |s.quotes|, invoice, providers.value, stored, None, failedAt).After([DoReadQuote(invoice)])
  }

  /** A failed candidate leaves one failed attempt and nothing else. */
  lemma FailingLeavesOneAttempt(s: State, quote: nat, c: Candidate)
    requires OpenAttempt(s, quote, c.openedAt).Ok?
    ensures Run(s, Failing(s, quote, c))
            == s.(attempts := s.attempts + [Attempt(s.quotes[quote].invoice, s.quotes[quote].amount, Failed, c.openedAt)])
  {
    hide InFlight;
    var open, fail := DoOpenAttempt(quote, c.openedAt), DoFailAttempt(|s.attempts|);
    RunTwo(s, open, fail);
    assert Step(s, open).attempts[..|s.attempts|] == s.attempts;
  }

  /** A call that ends in a timeout has moved nothing but attempts, and left one in doubt. */
  lemma {:induction false} TimeoutLeavesDoubt(s: State, quote: nat, invoice: nat, cs: seq<Candidate>, stored: bool,
                                              last: Option<ErrorCode>, failedAt: int)
    requires quote < |s.quotes| && s.quotes[quote].invoice == invoice && last != Some(ProviderTimeout)
    requires Candidates(s, quote, invoice, cs, stored, last, failedAt).outcome == TimedOut
    ensures var after := Run(s, Candidates(s, quote, invoice, cs, stored, last, failedAt).ops);
            && after == s.(attempts := after.attempts)
            && |after.attempts| > |s.attempts|
            && var doubt := after.attempts[|after.attempts| - 1];
               InProcess(doubt) && doubt.invoice == invoice && doubt.amount == s.quotes[quote].amount
               && exists c :: c in cs && doubt.createdAt == c.openedAt
    decreases |cs|
  {
    hide AnswerError, InFlight, Run;
    var c := cs[0];
    var error := AnswerError(s, quote, c);
    if error == Some(ProviderTimeout) {
      RunOne(s, DoOpenAttempt(quote, c.openedAt));
    } else {
      var failing := Failing(s, quote, c);
      FailingLeavesOneAttempt(s, quote, c);
      var mid := Run(s, failing);
      var others := if stored then [] else cs[1..];
      TimeoutLeavesDoubt(mid, quote, invoice, others, stored, error, failedAt);
      RunAppend(s, failing, Candidates(mid, quote, invoice, others, stored, error, failedAt).ops);
    }
  }

  predicate OpensNoCharge(ops: seq<Op>) { forall i :: 0 <= i < |ops| ==> !ops[i].DoOpenAttempt? }

  /**
   * After a timeout nobody is charged twice: whatever happens in between short
   * of a verdict on the doubtful charge, a later collection of that invoice
   * inside the in-flight window opens no charge at all.
   */
  lemma NoSecondChargeAfterTimeout(s: State, invoice: nat, providers: Result<seq<Candidate>>, stored: bool, failedAt: int,
                                   ops: seq<Op>, again: Result<seq<Candidate>>, againStored: bool, againFailedAt: int)
    requires CollectInvoice(s, invoice, providers, stored, failedAt).outcome == TimedOut
    requires var after := Run(s, CollectInvoice(s, invoice, providers, stored, failedAt).ops);
             && |after.attempts| > 0
             && LeavesInProcess(ops, |after.attempts| - 1)
             && (again.Ok? && again.value != [] ==> again.value[0].openedAt <= after.attempts[|after.attempts| - 1].createdAt + IN_FLIGHT_MS)
    ensures var after := Run(s, CollectInvoice(s, invoice, providers, stored, failedAt).ops);
            OpensNoCharge(CollectInvoice(Run(after, ops), invoice, again, againStored, againFailedAt).ops)
  {
    hide Run, Candidates, OpenAttempt;
    var cs := providers.value;
    var quoted := Step(s, DoReadQuote(invoice));
    var rest := Candidates(quoted, |s.quotes|, invoice, cs, stored, None, failedAt);
    TimeoutLeavesDoubt(quoted, |s.quotes|, invoice, cs, stored, None, failedAt);
    RunAppend(s, [DoReadQuote(invoice)], rest.ops);
    RunOne(s, DoReadQuote(invoice));
    var after := Run(s, CollectInvoice(s, invoice, providers, stored, failedAt).ops);
    var later := Run(after, ops);
    if again.Ok? && again.value != [] && ReadQuote(later, invoice).Ok? {
      var requoted := DoReadQuote(invoice);
      assert Run(after, ops + [requoted]) == Step(later, requoted) by { RunAppend(after, ops, [requoted]); RunOne(later, requoted); }
      DoubtBlocksNewCharges(after, ops + [requoted], |after.attempts| - 1, |later.quotes|, again.value[0].openedAt);
      RefusedAtOnce(Step(later, requoted), |later.quotes|, invoice, again.value, againStored, None, againFailedAt);
    }
  }

  lemma RefusedAtOnce(s: State, quote: nat, invoice: nat, cs: seq<Candidate>, stored: bool, last: Option<ErrorCode>, failedAt: int)
    requires cs != [] && OpenAttempt(s, quote, cs[0].openedAt).Err?
    ensures Candidates(s, quote, invoice, cs, stored, last, failedAt) == Collected([], AttemptRefused(OpenAttempt(s, quote, cs[0].openedAt).error))
  {}

  lemma NoCandidates(s: State, quote: nat, invoice: nat, stored: bool, last: Option<ErrorCode>, failedAt: int)
    ensures Candidates(s, quote, invoice, [], stored, last, failedAt) == Collected([DoFailInvoice(invoice, failedAt)], Exhausted(last.Or(PaymentFailed)))
  {}

  function Charges(ops: seq<Op>): nat {
    if ops == [] then 0 else Charges(ops[..|ops| - 1]) + (if ops[|ops| - 1].DoOpenAttempt? then 1 else 0)
  }

  /** A charge pinned to a stored method never falls through to another provider. */
  lemma StoredMethodIsChargedAtMostOnce(s: State, invoice: nat, providers: Result<seq<Candidate>>, failedAt: int)
    ensures Charges(CollectInvoice(s, invoice, providers, true, failedAt).ops) <= 1
  {
    hide AnswerError, OpenAttempt, Candidates, Run;
    var quoted, quote := ReadQuote(s, invoice), |s.quotes|;
    if quoted.Ok? && providers.Ok? && providers.value != [] {
      var cs := providers.value;
      var rest := Candidates(quoted.value, quote, invoice, cs, true, None, failedAt);
      assert |rest.ops| <= 3 && forall i :: 1 <= i < |rest.ops| ==> !rest.ops[i].DoOpenAttempt? by {
        if OpenAttempt(quoted.value, quote, cs[0].openedAt).Err? {
          RefusedAtOnce(quoted.value, quote, invoice, cs, true, None, failedAt);
        } else {
          CandidateRound(quoted.value, quote, invoice, cs, true, None, failedAt);
          NoCandidates(Run(quoted.value, Failing(quoted.value, quote, cs[0])), quote, invoice, true,
                       AnswerError(quoted.value, quote, cs[0]), failedAt);
        }
      }
      OnlyTheSecondCharges([DoReadQuote(invoice)] + rest.ops);
    } else {
      OnlyTheSecondCharges([]);
      OnlyTheSecondCharges([DoReadQuote(invoice)]);
    }
  }

  lemma {:induction false} OnlyTheSecondCharges(ops: seq<Op>)
    requires forall i :: 0 <= i < |ops| && i != 1 ==> !ops[i].DoOpenAttempt?
    ensures Charges(ops) <= if |ops| > 1 then 1 else 0
    decreases |ops|
  {
    if ops != [] { OnlyTheSecondCharges(ops[..|ops| - 1]); }
  }

  /**
   * A candidate the loop gives up on is given up for good: whatever its call
   * threw short of a timeout, its attempt ends FAILED, and no later delivery for
   * it, after any run, is credited, though its checkout may still be open and
   * take the money.
   */
  lemma FailedCandidateIsNeverCredited(s: State, quote: nat, c: Candidate, ops: seq<Op>, result: PaymentResult, at: int)
    requires Sound(BooksOf(s)) && OpenAttempt(s, quote, c.openedAt).Ok?
    ensures var failed := Run(s, Failing(s, quote, c));
            && |failed.attempts| == |s.attempts| + 1 && failed.attempts[|s.attempts|].status == Failed && failed.credits == s.credits
            && ApplyPaymentResult(Run(failed, ops), |s.attempts|, result, at) == Ok(Run(failed, ops))
  {
    hide Run, Sound, InFlight, ApplyPaymentResult;
    FailingLeavesOneAttempt(s, quote, c);
    RunExtends(s, Failing(s, quote, c));
    RedeliveryHasNoEffect(Run(s, Failing(s, quote, c)), ops, |s.attempts|, result, at);
  }

  /** The loop gives up on a candidate exactly when its call threw something other than a timeout. */
  lemma GivesUpExactlyWhen(s: State, quote: nat, invoice: nat, cs: seq<Candidate>, stored: bool, last: Option<ErrorCode>, failedAt: int)
    requires cs != [] && OpenAttempt(s, quote, cs[0].openedAt).Ok?
    ensures var ops := Candidates(s, quote, invoice, cs, stored, last, failedAt).ops;
            (|ops| >= 2 && ops[..2] == Failing(s, quote, cs[0])) <==> AnswerError(s, quote, cs[0]) !in {None, Some(ProviderTimeout)}
  {
    hide Candidates, AnswerError, Run;
    CandidateRound(s, quote, invoice, cs, stored, last, failedAt);
    var failing, error := Failing(s, quote, cs[0]), AnswerError(s, quote, cs[0]);
    var ops := Candidates(s, quote, invoice, cs, stored, last, failedAt).ops;
    if error.None? {
      assert ops[..2][1] == ops[1] && failing[1].DoFailAttempt? && ops[1].DoApplyResult?;
    } else if error.value != ProviderTimeout {
      var rest := Candidates(Run(s, failing), quote, invoice, if stored then [] else cs[1..], stored, error, failedAt);
      assert ops == failing + rest.ops;
    }
  }

  /**
   * A provider's success is credited by the call exactly when it is in the
   * invoice's currency, covers what was asked, and the invoice has not been
   * voided meanwhile. Otherwise it is treated as a failed candidate, and what
   * was taken is never credited.
   */
  lemma SuccessIsCreditedExactlyWhen(s: State, quote: nat, c: Candidate, ops: seq<Op>, result: PaymentResult, at: int)
    requires Sound(BooksOf(s)) && OpenAttempt(s, quote, c.openedAt).Ok?
    requires c.answer.Replies? && c.answer.result.status == Succeeded
    requires s.Status() == UNPAID ==> Interval.ValidInterval(s.sub.price.interval)
    ensures s.quotes[quote].invoice < |s.invoices|
    ensures var invoice, paid := s.invoices[s.quotes[quote].invoice], c.answer.result;
            AnswerError(s, quote, c).None?
            <==> paid.currency == invoice.currency && paid.amount >= s.quotes[quote].amount && invoice.status != Void
    ensures AnswerError(s, quote, c).Some? ==>
              && AnswerError(s, quote, c).value in {CurrencyMismatch, PaymentFailed, InvoiceNotPayable}
              && var failed := Run(s, Failing(s, quote, c));
                 && |failed.attempts| == |s.attempts| + 1 && failed.attempts[|s.attempts|].status == Failed && failed.credits == s.credits
                 && ApplyPaymentResult(Run(failed, ops), |s.attempts|, result, at) == Ok(Run(failed, ops))
  {
    hide Run, Sound, InFlight, ApplyPaymentResult;
    QuotesAreCovered(s, quote);
    var begun := Step(s, DoOpenAttempt(quote, c.openedAt));
    TryKeepsSound(s, DoOpenAttempt(quote, c.openedAt));
    SuccessIsAppliedExactlyWhen(begun, |s.attempts|, c.answer.result, c.answeredAt);
    RefusalCodes(begun, |s.attempts|, c.answer.result, c.answeredAt);
    FailedCandidateIsNeverCredited(s, quote, c, ops, result, at);
  }

  lemma RefusalCodes(s: State, k: nat, result: PaymentResult, at: int)
    requires k < |s.attempts| && s.attempts[k].invoice < |s.invoices| && !Settled(s.attempts[k].status) && result.status == Succeeded
    requires s.Status() == UNPAID ==> Interval.ValidInterval(s.sub.price.interval)
    ensures var r := ApplyPaymentResult(s, k, result, at);
            r.Err? ==> r.error in {CurrencyMismatch, PaymentFailed, InvoiceNotPayable}
  {
    hide Interval.AddMonths;
  }

  lemma QuotesAreCovered(s: State, quote: nat)
    requires Sound(BooksOf(s)) && quote < |s.quotes|
    ensures Covers(BooksOf(s), s.quotes[quote].invoice, s.quotes[quote].amount)
  {}

  /** The loop over candidates, one round: the transactions it performs, and the error it leaves if it goes on. */
  lemma CandidateRound(s: State, quote: nat, invoice: nat, cs: seq<Candidate>, stored: bool, last: Option<ErrorCode>, failedAt: int)
    requires cs != [] && OpenAttempt(s, quote, cs[0].openedAt).Ok?
    ensures var opening := DoOpenAttempt(quote, cs[0].openedAt);
            var error := AnswerError(s, quote, cs[0]);
            Candidates(s, quote, invoice, cs, stored, last, failedAt)
            == if error.None? then Collected([opening] + [DoApplyResult(|s.attempts|, cs[0].answer.result, cs[0].answeredAt)],
                                             Returned(cs[0].answer.result.status))
               else if error.value == ProviderTimeout then Collected([opening], TimedOut)
               else Candidates(Run(s, Failing(s, quote, cs[0])), quote, invoice, if stored then [] else cs[1..], stored, error, failedAt)
                    .After(Failing(s, quote, cs[0]))
  {}

  /** One candidate on the row: open its attempt, call it, and apply its reply. */
  method TryCandidate(account: Account, quote: nat, c: Candidate) returns (refused: Option<ErrorCode>, error: Option<ErrorCode>)
    modifies account
    ensures var before, opening := old(account.State()), DoOpenAttempt(quote, c.openedAt);
            match OpenAttempt(before, quote, c.openedAt)
            case Err(code) => refused == Some(code) && account.State() == before
            case Ok(_) =>
              && refused == None && error == AnswerError(before, quote, c) && (error == None ==> c.answer.Replies?)
              && account.State() == if error == None
                                    then Run(before, [opening] + [DoApplyResult(|before.attempts|, c.answer.result, c.answeredAt)])
                                    else Run(before, [opening])
  {
    hide Run, OpenAttempt, ApplyPaymentResult;
    ghost var before, opening := account.State(), DoOpenAttempt(quote, c.openedAt);
    var attempt := |account.attempts|;
    error := None;
    refused := account.OpenAttempt(quote, c.openedAt);
    if refused.Some? { return; }
    RunOne(before, opening);
    if c.answer.Replies? {
      error := account.ApplyPaymentResult(attempt, c.answer.result, c.answeredAt);
      RunMore(before, [opening], DoApplyResult(attempt, c.answer.result, c.answeredAt));
    } else {
      error := Some(c.answer.code);
    }
  }

  /** The candidate loop on the row itself performs exactly the transactions above. */
  method AttemptInvoicePayment(account: Account, invoice: nat, providers: Result<seq<Candidate>>, stored: bool, failedAt: int) returns (outcome: Outcome)
    modifies account
    ensures var spec := CollectInvoice(old(account.State()), invoice, providers, stored, failedAt);
            outcome == spec.outcome && account.State() == Run(old(account.State()), spec.ops)
  {
    hide Run, Candidates, AnswerError, OpenAttempt, ApplyPaymentResult, FailInvoice, FailAttempt, ReadQuote;
    ghost var start := account.State();
    var quote := |account.quotes|;
    var error := account.ReadQuote(invoice);
    ghost var done := [DoReadQuote(invoice)];
    RunOne(start, DoReadQuote(invoice));
    if error.Some? {
      RunNone(start);
      return Unpayable(error.value);
    }
    if providers.Err? { return NoProvider(providers.error); }
    if providers.value == [] { return NoProvider(NoEligiblePaymentProvider); }
    ghost var spec := CollectInvoice(start, invoice, providers, stored, failedAt);
    var last: Option<ErrorCode> := None;
    var remaining := providers.value;
    while remaining != []
      invariant account.State() == Run(start, done)
      invariant Candidates(account.State(), quote, invoice, remaining, stored, last, failedAt).After(done) == spec
      decreases |remaining|
    {
      ghost var before := account.State();
      var c, attempt := remaining[0], |account.attempts|;
      ghost var opening := DoOpenAttempt(quote, c.openedAt);
      var refused;
      refused, error := TryCandidate(account, quote, c);
      if refused.Some? {
        RefusedAtOnce(before, quote, invoice, remaining, stored, last, failedAt);
        assert done + [] == done;
        return AttemptRefused(refused.value);
      }
      CandidateRound(before, quote, invoice, remaining, stored, last, failedAt);
      last := error;
      if last == None {
        RunAppend(start, done, [opening] + [DoApplyResult(attempt, c.answer.result, c.answeredAt)]);
        return Returned(c.answer.result.status);
      }
      if last == Some(ProviderTimeout) {
        RunAppend(start, done, [opening]);
        return TimedOut;
      }
      var marked := account.FailAttempt(attempt);
      RunMore(before, [opening], DoFailAttempt(attempt));
      assert [opening] + [DoFailAttempt(attempt)] == Failing(before, quote, c);
      RunAppend(start, done, Failing(before, quote, c));
      remaining := if stored then [] else remaining[1..];
      AfterAfter(Candidates(account.State(), quote, invoice, remaining, stored, last, failedAt), done, Failing(before, quote, c));
      done := done + Failing(before, quote, c);
    }
    NoCandidates(account.State(), quote, invoice, stored, last, failedAt);
    RunMore(start, done, DoFailInvoice(invoice, failedAt));
    var dunned := account.FailInvoice(invoice, failedAt);
    outcome := Exhausted(last.Or(PaymentFailed));
  }

  lemma AfterAfter(c: Collected, a: seq<Op>, b: seq<Op>)
    ensures c.After(b).After(a) == c.After(a + b)
  {
    assert a + (b + c.ops) == a + b + c.ops;
  }
}
