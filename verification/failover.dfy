/**
 * Which providers a charge goes to and what it leaves behind, from the
 * providers' answers alone (packages/billing/src/payments.ts).
 */
module Failover {
  import opened Basics
  import opened StateMachine
  import opened Billing
  import opened Collection
  import Accounts
  import Activation
  import Interval
  import Ledger
  import Pricing
  import StatusHistory

  // -- one answer -----------------------------------------------------------------------------

  /** An issued invoice that still owes what is unpaid. */
  predicate Owing(s: State, invoice: nat) {
    && invoice < |s.invoices|
    && var inv := s.invoices[invoice]; inv.status == Open && inv.amountDue == inv.total - inv.amountPaid > 0
  }

  /** ... quoted for exactly that. */
  predicate Quoted(s: State, quote: nat, invoice: nat) {
    Owing(s, invoice) && quote < |s.quotes| && s.quotes[quote] == Quote(invoice, s.invoices[invoice].amountDue)
  }

  /** A bad interval is the one thing that can keep a payment from bringing an unpaid subscription back. */
  predicate CanRebase(s: State) { s.Status() == UNPAID ==> Interval.ValidInterval(s.sub.price.interval) }

  /** The reply is kept: any verdict but a success in the wrong currency or for too little. */
  predicate Kept(inv: Invoice, answer: Answer) {
    answer.Replies? && (answer.result.status == Succeeded ==> answer.result.currency == inv.currency && answer.result.amount >= inv.amountDue)
  }

  predicate TimesOut(answer: Answer) { answer == Breaks(ProviderTimeout) }

  /** The charge goes on to the next provider. */
  predicate GivenUp(inv: Invoice, answer: Answer) { !Kept(inv, answer) && !TimesOut(answer) }

  /** The error a given-up provider leaves. */
  function GivenUpWith(inv: Invoice, answer: Answer): ErrorCode {
    match answer
    case Breaks(code) => code
    case Replies(result) => if result.currency != inv.currency then CurrencyMismatch else PaymentFailed
  }

  /** Where a collection that came to `outcome` leaves the subscription. */
  function Decided(status: Status, outcome: Outcome): Status {
    match outcome
    case Returned(Succeeded) => if status in {PAUSED, CANCELED, EXPIRED} then status else ACTIVE
    case Returned(reply) => if reply in {Failed, Canceled} then Lapsed(status) else status
    case Exhausted(_) => Lapsed(status)
    case _ => status
  }

  /** The grace period that a failure at a moment opens. */
  predicate GraceFrom(s: State, failedAt: int, policy: Policy) {
    s.sub.grace == Some(Grace(failedAt, failedAt + policy.gracePeriodDays * 86_400_000, policy))
  }

  function Lapsed(status: Status): Status { if status in {TRIALING, ACTIVE, PAST_DUE} then GRACE_PERIOD else status }

  lemma FailInvoiceLapses(s: State, invoice: nat, at: int)
    requires invoice < |s.invoices|
    ensures FailInvoice(s, invoice, at).Ok?
    ensures var s' := FailInvoice(s, invoice, at).value;
            && s'.Status() == Lapsed(s.Status())
            && s' == s.(history := s'.history, sub := s.sub.(grace := s'.sub.grace))
            && (s'.Status() != s.Status() ==> GraceFrom(s', at, s.policy))
  {}

  /** What a provider's reply to a fresh attempt comes to. */
  lemma ReplyIs(s: State, quote: nat, invoice: nat, openedAt: int, result: PaymentResult, at: int)
    requires Quoted(s, quote, invoice) && OpenAttempt(s, quote, openedAt).Ok? && CanRebase(s)
    ensures var n, inv, r := |s.attempts|, s.invoices[invoice], ApplyPaymentResult(OpenAttempt(s, quote, openedAt).value, |s.attempts|, result, at);
            && (r.Ok? <==> Kept(inv, Replies(result)))
            && (r.Err? ==> r.error == GivenUpWith(inv, Replies(result)))
            && (r.Ok? ==>
                  && r.value.Status() == Decided(s.Status(), Returned(result.status))
                  && (r.value.Status() == GRACE_PERIOD != s.Status() ==> GraceFrom(r.value, at, s.policy))
                  && (result.status == Succeeded && s.Status() == UNPAID ==> r.value.sub.period.start == result.paidAt.Or(at))
                  && r.value.quotes == s.quotes
                  && r.value.attempts == s.attempts + [Attempt(invoice, inv.amountDue, result.status, openedAt)]
                  && |r.value.invoices| == |s.invoices|
                  && (if result.status == Succeeded
                      then r.value.invoices[invoice].status == Paid && r.value.credits == s.credits + [Credit(n, invoice, result.amount)]
                      else r.value.invoices == s.invoices && r.value.credits == s.credits))
  {
    hide InFlight, FailInvoice, RecordPayment;
    var k, begun := |s.attempts|, OpenAttempt(s, quote, openedAt).value;
    var marked := begun.(attempts := begun.attempts[k := begun.attempts[k].(status := result.status)]);
    FailInvoiceLapses(marked, invoice, at);
    if result.status == Succeeded && Kept(s.invoices[invoice], Replies(result)) {
      Activation.RecordOutcome(marked, k, invoice, result, at);
      RecordedRows(marked, k, invoice, result, at);
    }
  }

  lemma RecordedRows(s: State, k: nat, invoice: nat, result: PaymentResult, at: int)
    requires invoice < |s.invoices| && RecordPayment(s, k, invoice, result, at).Ok?
    ensures var s', paid := RecordPayment(s, k, invoice, result, at).value, PayInvoice(s.invoices[invoice], result.amount);
            && s'.quotes == s.quotes && s'.attempts == s.attempts && paid.Ok? && s'.invoices == s.invoices[invoice := paid.value]
            && s'.credits == s.credits + [Credit(k, invoice, result.amount)]
  {
    hide Recover;
    var paid := PayInvoice(s.invoices[invoice], result.amount).value;
    var credited := s.(invoices := s.invoices[invoice := paid],
                       credits := s.credits + [Credit(k, invoice, result.amount)],
                       sub := s.sub.(hasMethod := s.sub.hasMethod || result.savesMethod));
    if paid.status == Paid { Ledger.RecoverKeepsBooks(credited, result.paidAt.Or(at)); }
  }

  lemma AnswerErrorIs(s: State, quote: nat, invoice: nat, c: Candidate)
    requires Quoted(s, quote, invoice) && OpenAttempt(s, quote, c.openedAt).Ok? && CanRebase(s)
    ensures var inv := s.invoices[invoice];
            AnswerError(s, quote, c)
            == if Kept(inv, c.answer) then None else Some(GivenUpWith(inv, c.answer))
  {
    hide OpenAttempt, ApplyPaymentResult;
    if c.answer.Replies? { ReplyIs(s, quote, invoice, c.openedAt, c.answer.result, c.answeredAt); }
  }

  // -- the providers in turn ------------------------------------------------------------------

  /** The providers a charge may go to: all of them, or the stored method's own. */
  function Tried(cs: seq<Candidate>, stored: bool): seq<Candidate> { if stored && |cs| > 1 then cs[..1] else cs }

  /** The first `i` providers were each called and given up on. */
  predicate Reaches(s: State, invoice: nat, tried: seq<Candidate>, i: nat) {
    && i <= |tried| && invoice < |s.invoices|
    && forall j :: 0 <= j < i ==> !InFlight(s, invoice, tried[j].openedAt) && GivenUp(s.invoices[invoice], tried[j].answer)
  }

  /** ... and the charge goes no further: nobody is left, a charge is in flight, or the provider is not given up on. */
  predicate StopsAt(s: State, invoice: nat, tried: seq<Candidate>, i: nat) {
    Reaches(s, invoice, tried, i)
    && (i == |tried| || InFlight(s, invoice, tried[i].openedAt) || !GivenUp(s.invoices[invoice], tried[i].answer))
  }

  /** What a charge that stops at provider `i` has left, and how it ends there. */
  ghost predicate EndsAt(s: State, invoice: nat, tried: seq<Candidate>, i: nat, last: Option<ErrorCode>, failedAt: int,
                         outcome: Outcome, after: State)
    requires i <= |tried| && invoice < |s.invoices|
  {
    var n, inv := |s.attempts|, s.invoices[invoice];
    && n + i <= |after.attempts| && after.attempts[..n] == s.attempts && after.quotes == s.quotes
    && (forall j :: 0 <= j < i ==> after.attempts[n + j] == Attempt(invoice, inv.amountDue, Failed, tried[j].openedAt))
    && after.Status() == Decided(s.Status(), outcome)
    && (after.Status() == GRACE_PERIOD != s.Status() ==>
          GraceFrom(after, if i == |tried| then failedAt else tried[i].answeredAt, s.policy))
    && if i == |tried| then
         && |after.attempts| == n + i && after.invoices == s.invoices && after.credits == s.credits
         && outcome == Exhausted(if i == 0 then last.Or(PaymentFailed) else GivenUpWith(inv, tried[i - 1].answer))
       else if InFlight(s, invoice, tried[i].openedAt) then
         && |after.attempts| == n + i && after == s.(attempts := after.attempts)
         && outcome == AttemptRefused(RequestInProgress)
       else if TimesOut(tried[i].answer) then
         && after == s.(attempts := after.attempts)
         && after.attempts[n + i..] == [Attempt(invoice, inv.amountDue, Processing, tried[i].openedAt)]
         && outcome == TimedOut
       else
         Kept(inv, tried[i].answer) &&
         var result := tried[i].answer.result;
         && after.attempts[n + i..] == [Attempt(invoice, inv.amountDue, result.status, tried[i].openedAt)]
         && outcome == Returned(result.status)
         && |after.invoices| == |s.invoices|
         && (if result.status == Succeeded
             then && after.invoices[invoice].status == Paid && after.credits == s.credits + [Credit(n + i, invoice, result.amount)]
                  && (s.Status() == UNPAID ==> after.sub.period.start == result.paidAt.Or(tried[i].answeredAt))
             else after.invoices == s.invoices && after.credits == s.credits)
  }

  lemma FailedIsNotInFlight(s: State, invoice: nat, amount: int, createdAt: int, at: int)
    ensures InFlight(s.(attempts := s.attempts + [Attempt(invoice, amount, Failed, createdAt)]), invoice, at) == InFlight(s, invoice, at)
  {
    var after := s.(attempts := s.attempts + [Attempt(invoice, amount, Failed, createdAt)]);
    if InFlight(s, invoice, at) {
      var i :| 0 <= i < |s.attempts| && s.attempts[i].invoice == invoice && s.attempts[i].status == Processing
               && s.attempts[i].createdAt >= at - IN_FLIGHT_MS;
      assert after.attempts[i] == s.attempts[i];
    }
  }

  /** The first provider's attempt. */
  lemma FirstAttempt(s: State, invoice: nat, tried: seq<Candidate>, i: nat, last: Option<ErrorCode>, failedAt: int, outcome: Outcome, after: State)
    requires i <= |tried| && invoice < |s.invoices| && tried != [] && EndsAt(s, invoice, tried, i, last, failedAt, outcome, after)
    requires !InFlight(s, invoice, tried[0].openedAt)
    requires i > 0 ==> GivenUp(s.invoices[invoice], tried[0].answer)
    ensures var n, inv := |s.attempts|, s.invoices[invoice];
            && |after.attempts| > n && after.attempts[..n] == s.attempts
            && (GivenUp(inv, tried[0].answer) || TimesOut(tried[0].answer) || tried[0].answer.Replies?)
            && after.attempts[n] == Attempt(invoice, inv.amountDue,
                                            if GivenUp(inv, tried[0].answer) then Failed
                                            else if TimesOut(tried[0].answer) then Processing else tried[0].answer.result.status,
                                            tried[0].openedAt)
  {
    hide InFlight, Decided, GivenUpWith;
    if i > 0 {
      assert after.attempts[|s.attempts| + 0] == Attempt(invoice, s.invoices[invoice].amountDue, Failed, tried[0].openedAt);
    } else {
      assert after.attempts[|s.attempts| + 0..][0] == after.attempts[|s.attempts|];
    }
  }

  /** The loop over providers, from the first of those left. */
  lemma {:induction false} LoopEnds(s: State, quote: nat, invoice: nat, cs: seq<Candidate>, stored: bool,
                                    last: Option<ErrorCode>, failedAt: int, i: nat)
    requires Quoted(s, quote, invoice) && CanRebase(s) && StopsAt(s, invoice, Tried(cs, stored), i)
    ensures var c := Candidates(s, quote, invoice, cs, stored, last, failedAt);
            EndsAt(s, invoice, Tried(cs, stored), i, last, failedAt, c.outcome, Run(s, c.ops))
    decreases i
  {
    hide Run, Candidates, OpenAttempt, InFlight, EndsAt, AnswerError, Failing, Decided;
    if i == 0 {
      FirstEnds(s, quote, invoice, cs, stored, last, failedAt);
    } else {
      OpensUnlessInFlight(s, quote, cs[0].openedAt);
      AnswerErrorIs(s, quote, invoice, cs[0]);
      CandidateRound(s, quote, invoice, cs, stored, last, failedAt);
      FailingLeavesOneAttempt(s, quote, cs[0]);
      var mid, others, error := Run(s, Failing(s, quote, cs[0])), if stored then [] else cs[1..], AnswerError(s, quote, cs[0]);
      var rest := Candidates(mid, quote, invoice, others, stored, error, failedAt);
      RunAppend(s, Failing(s, quote, cs[0]), rest.ops);
      StillStops(s, invoice, Tried(cs, stored), i);
      assert Tried(others, stored) == Tried(cs, stored)[1..];
      LoopEnds(mid, quote, invoice, others, stored, error, failedAt, i - 1);
      GivenUpAddsOne(s, mid, invoice, Tried(cs, stored), i, last, error, failedAt, rest.outcome, Run(mid, rest.ops));
    }
  }

  lemma StillStops(s: State, invoice: nat, tried: seq<Candidate>, i: nat)
    requires StopsAt(s, invoice, tried, i) && i > 0
    ensures var mid := s.(attempts := s.attempts + [Attempt(invoice, s.invoices[invoice].amountDue, Failed, tried[0].openedAt)]);
            StopsAt(mid, invoice, tried[1..], i - 1)
  {
    hide InFlight, GivenUp;
    if i < |tried| { FailedIsNotInFlight(s, invoice, s.invoices[invoice].amountDue, tried[0].openedAt, tried[i].openedAt); }
    forall j | 0 <= j < i - 1
      ensures !InFlight(s.(attempts := s.attempts + [Attempt(invoice, s.invoices[invoice].amountDue, Failed, tried[0].openedAt)]),
                        invoice, tried[1..][j].openedAt)
    {
      FailedIsNotInFlight(s, invoice, s.invoices[invoice].amountDue, tried[0].openedAt, tried[j + 1].openedAt);
    }
  }

  /** What follows a given-up provider, counted from before it. */
  lemma GivenUpAddsOne(s: State, mid: State, invoice: nat, tried: seq<Candidate>, i: nat, last: Option<ErrorCode>, error: Option<ErrorCode>, failedAt: int,
                       outcome: Outcome, after: State)
    requires 0 < i <= |tried| && invoice < |s.invoices|
    requires mid == s.(attempts := s.attempts + [Attempt(invoice, s.invoices[invoice].amountDue, Failed, tried[0].openedAt)])
    requires error == Some(GivenUpWith(s.invoices[invoice], tried[0].answer))
    requires EndsAt(mid, invoice, tried[1..], i - 1, error, failedAt, outcome, after)
    ensures EndsAt(s, invoice, tried, i, last, failedAt, outcome, after)
  {
    hide InFlight, Decided, GivenUpWith, Kept;
    var n := |s.attempts|;
    if i < |tried| { FailedIsNotInFlight(s, invoice, s.invoices[invoice].amountDue, tried[0].openedAt, tried[i].openedAt); }
    assert after.attempts[..n] == after.attempts[..n + 1][..n] == s.attempts;
    forall j | 0 <= j < i
      ensures after.attempts[n + j] == Attempt(invoice, s.invoices[invoice].amountDue, Failed, tried[j].openedAt)
    {
      if j == 0 {
        assert after.attempts[..n + 1][n] == mid.attempts[n];
      } else {
        assert tried[1..][j - 1] == tried[j];
        assert after.attempts[n + j] == after.attempts[|mid.attempts| + (j - 1)];
      }
    }
  }

  lemma OpensUnlessInFlight(s: State, quote: nat, at: int)
    requires quote < |s.quotes|
    ensures OpenAttempt(s, quote, at)
            == if InFlight(s, s.quotes[quote].invoice, at) then Err(RequestInProgress)
               else Ok(s.(attempts := s.attempts + [Attempt(s.quotes[quote].invoice, s.quotes[quote].amount, Processing, at)]))
  {}

  /** The round in which the loop ends: nobody left, a refused attempt, a timeout or a reply that is kept. */
  lemma FirstEnds(s: State, quote: nat, invoice: nat, cs: seq<Candidate>, stored: bool, last: Option<ErrorCode>, failedAt: int)
    requires Quoted(s, quote, invoice) && CanRebase(s) && StopsAt(s, invoice, Tried(cs, stored), 0)
    ensures var c := Candidates(s, quote, invoice, cs, stored, last, failedAt);
            EndsAt(s, invoice, Tried(cs, stored), 0, last, failedAt, c.outcome, Run(s, c.ops))
  {
    hide Run, Candidates, OpenAttempt, InFlight, ApplyPaymentResult, FailInvoice, AnswerError;
    if cs == [] {
      NoCandidates(s, quote, invoice, stored, last, failedAt);
      FailInvoiceLapses(s, invoice, failedAt);
      RunOne(s, DoFailInvoice(invoice, failedAt));
    } else {
      OpensUnlessInFlight(s, quote, cs[0].openedAt);
      if InFlight(s, invoice, cs[0].openedAt) {
        RefusedAtOnce(s, quote, invoice, cs, stored, last, failedAt);
        RunNone(s);
      } else {
        AnswerErrorIs(s, quote, invoice, cs[0]);
        CandidateRound(s, quote, invoice, cs, stored, last, failedAt);
        var opening := DoOpenAttempt(quote, cs[0].openedAt);
        if TimesOut(cs[0].answer) {
          RunOne(s, opening);
        } else {
          var apply := DoApplyResult(|s.attempts|, cs[0].answer.result, cs[0].answeredAt);
          ReplyIs(s, quote, invoice, cs[0].openedAt, cs[0].answer.result, cs[0].answeredAt);
          RunTwo(s, opening, apply);
          assert [opening] + [apply] == [opening, apply];
        }
      }
    }
  }

  // -- a whole collection ---------------------------------------------------------------------

  /** Where a charge stops. */
  function Stop(s: State, invoice: nat, tried: seq<Candidate>, from: nat): (i: nat)
    requires Reaches(s, invoice, tried, from)
    ensures StopsAt(s, invoice, tried, i)
    decreases |tried| - from
  {
    if from == |tried| || InFlight(s, invoice, tried[from].openedAt) || !GivenUp(s.invoices[invoice], tried[from].answer) then from
    else Stop(s, invoice, tried, from + 1)
  }

  /** It stops at one provider only. */
  lemma ReachesUpToStop(s: State, invoice: nat, tried: seq<Candidate>, stop: nat, i: nat)
    requires StopsAt(s, invoice, tried, stop)
    ensures Reaches(s, invoice, tried, i) <==> i <= stop
  {
    hide InFlight, GivenUp;
  }

  function WithQuote(s: State, invoice: nat): State
    requires invoice < |s.invoices|
  {
    s.(quotes := s.quotes + [Quote(invoice, s.invoices[invoice].amountDue)])
  }

  lemma QuotesOwing(s: State, invoice: nat)
    requires Owing(s, invoice)
    ensures ReadQuote(s, invoice) == Ok(WithQuote(s, invoice)) && Quoted(WithQuote(s, invoice), |s.quotes|, invoice)
    ensures Run(s, [DoReadQuote(invoice)]) == WithQuote(s, invoice)
  {
    RunOne(s, DoReadQuote(invoice));
  }

  lemma StopsWithQuote(s: State, invoice: nat, tried: seq<Candidate>, i: nat)
    requires StopsAt(s, invoice, tried, i)
    ensures StopsAt(WithQuote(s, invoice), invoice, tried, i)
  {}

  /**
   * How a collection goes, whatever its providers answer. The providers up to
   * the first that is not given up on were called in order, each leaving a
   * failed attempt for the whole amount due; that provider's reply or timeout,
   * a charge in flight, or the end of the list decides the rest.
   */
  lemma CollectionEndsAt(s: State, invoice: nat, cs: seq<Candidate>, stored: bool, failedAt: int, i: nat)
    requires Owing(s, invoice) && CanRebase(s) && cs != [] && StopsAt(s, invoice, Tried(cs, stored), i)
    ensures var c := CollectInvoice(s, invoice, Ok(cs), stored, failedAt);
            EndsAt(WithQuote(s, invoice), invoice, Tried(cs, stored), i, None, failedAt, c.outcome, Run(s, c.ops))
  {
    hide Run, Candidates, EndsAt, StopsAt;
    QuotesOwing(s, invoice);
    StopsWithQuote(s, invoice, Tried(cs, stored), i);
    LoopEnds(WithQuote(s, invoice), |s.quotes|, invoice, cs, stored, None, failedAt, i);
    RunAppend(s, [DoReadQuote(invoice)], Candidates(WithQuote(s, invoice), |s.quotes|, invoice, cs, stored, None, failedAt).ops);
  }

  lemma SameInFlight(s: State, invoice: nat, at: int)
    requires invoice < |s.invoices|
    ensures InFlight(WithQuote(s, invoice), invoice, at) == InFlight(s, invoice, at)
  {}

  /**
   * An unpinned charge goes on to provider `i` if and only if every provider
   * before it was called and given up on, and no other charge for the invoice is
   * in flight when its turn comes.
   */
  lemma NextProviderIsTriedExactlyWhen(s: State, invoice: nat, cs: seq<Candidate>, failedAt: int, i: nat)
    requires Owing(s, invoice) && CanRebase(s) && cs != []
    ensures |Run(s, CollectInvoice(s, invoice, Ok(cs), false, failedAt).ops).attempts| > |s.attempts| + i
            <==> i < |cs| && Reaches(s, invoice, cs, i) && !InFlight(s, invoice, cs[i].openedAt)
  {
    hide Run, CollectInvoice, Decided, GivenUp, Kept, GivenUpWith, InFlight;
    var stop := Stop(s, invoice, cs, 0);
    CollectionEndsAt(s, invoice, cs, false, failedAt, stop);
    ReachesUpToStop(s, invoice, cs, stop, i);
    if stop < |cs| { SameInFlight(s, invoice, cs[stop].openedAt); }
  }

  /**
   * A charge fails for good if and only if every provider it may go to was
   * given up on: the attempts are then one FAILED attempt a provider, in order,
   * and nothing was credited. The subscription lapses if it was still in
   * standing.
   */
  lemma FailsExactlyWhenAllFail(s: State, invoice: nat, cs: seq<Candidate>, stored: bool, failedAt: int)
    requires Owing(s, invoice) && CanRebase(s) && cs != []
    ensures var c, tried := CollectInvoice(s, invoice, Ok(cs), stored, failedAt), Tried(cs, stored);
            var after := Run(s, c.ops);
            && (c.outcome.Exhausted? <==> Reaches(s, invoice, tried, |tried|))
            && (c.outcome.Exhausted? ==>
                  && |after.attempts| == |s.attempts| + |tried| && after.credits == s.credits
                  && after.invoices == s.invoices && after.Status() == Lapsed(s.Status())
                  && forall j :: 0 <= j < |tried| ==>
                       after.attempts[|s.attempts| + j] == Attempt(invoice, s.invoices[invoice].amountDue, Failed, tried[j].openedAt))
  {
    hide Run, CollectInvoice, GivenUp, Kept, GivenUpWith, InFlight;
    var tried := Tried(cs, stored);
    var stop := Stop(s, invoice, tried, 0);
    CollectionEndsAt(s, invoice, cs, stored, failedAt, stop);
    ReachesUpToStop(s, invoice, tried, stop, |tried|);
  }

  /**
   * A provider's payment in full is taken however many providers broke before
   * it: the call returns it, the invoice is PAID by that attempt alone, and the
   * subscription is active unless it was paused or over.
   */
  lemma FailoverSucceeds(s: State, invoice: nat, cs: seq<Candidate>, failedAt: int, i: nat)
    requires Owing(s, invoice) && CanRebase(s) && i < |cs|
    requires Reaches(s, invoice, cs, i) && !InFlight(s, invoice, cs[i].openedAt)
    requires cs[i].answer.Replies? && cs[i].answer.result.status == Succeeded
    requires cs[i].answer.result.currency == s.invoices[invoice].currency && cs[i].answer.result.amount >= s.invoices[invoice].amountDue
    ensures var c := CollectInvoice(s, invoice, Ok(cs), false, failedAt);
            var after := Run(s, c.ops);
            && c.outcome == Returned(Succeeded)
            && |after.invoices| == |s.invoices| && after.invoices[invoice].status == Paid
            && after.credits == s.credits + [Credit(|s.attempts| + i, invoice, cs[i].answer.result.amount)]
            && after.Status() == if s.Status() in {PAUSED, CANCELED, EXPIRED} then s.Status() else ACTIVE
  {
    hide Run, CollectInvoice, InFlight;
    SameInFlight(s, invoice, cs[i].openedAt);
    CollectionEndsAt(s, invoice, cs, false, failedAt, i);
  }

  /**
   * Nothing is charged, and nothing lapses, when the invoice cannot be paid or
   * nobody can be asked to pay it.
   */
  lemma NobodyToCharge(s: State, invoice: nat, providers: Result<seq<Candidate>>, stored: bool, failedAt: int)
    requires !(invoice < |s.invoices| && s.invoices[invoice].status in {Draft, Open} && s.invoices[invoice].amountDue > 0)
             || providers.Err? || providers.value == []
    ensures var c := CollectInvoice(s, invoice, providers, stored, failedAt);
            && Run(s, c.ops) == s.(quotes := Run(s, c.ops).quotes)
            && c.outcome == if invoice >= |s.invoices| then Unpayable(InvoiceNotFound)
                            else if s.invoices[invoice].status == Paid then Unpayable(InvoiceAlreadyPaid)
                            else if s.invoices[invoice].status !in {Draft, Open} || s.invoices[invoice].amountDue <= 0 then Unpayable(InvoiceNotPayable)
                            else NoProvider(if providers.Err? then providers.error else NoEligiblePaymentProvider)
  {
    hide Run, Candidates;
    RunNone(s);
    RunOne(s, DoReadQuote(invoice));
  }
}
