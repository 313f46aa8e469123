/**
 * The renewal sweep over a batch of subscriptions (workers/billing-worker/src/jobs.ts).
 */
module Sweeps {
  import opened Basics
  import opened Pricing
  import opened StateMachine
  import opened Billing
  import opened Accounts
  import opened Collection
  import opened Failover
  import InvoiceLines
  import Interval
  import Ledger

  // -- renewing one subscription ----------------------------------------------------------

  /** Everything the sweep meets at one subscription: what it reads, and how its providers answer. */
  datatype Visit = Visit(current: Option<Economics>, flush: seq<UsageEvent>, otherMethod: bool, at: int,
                         providers: Result<seq<Candidate>>, stored: bool, failedAt: int)

  datatype Tally = Tally(renewed: nat, collected: nat, failed: nat)
  {
    function Plus(t: Tally): Tally { Tally(renewed + t.renewed, collected + t.collected, failed + t.failed) }
  }

  datatype Swept = Swept(ops: seq<Op>, tally: Tally)

  function Renewal(now: int, v: Visit): Op { DoRenew(now, true, v.current, v.flush, v.otherMethod, v.at) }

  /** The renewal opened a period, rather than finding nothing due or ending the subscription. */
  predicate Opened(s: State, now: int, v: Visit) {
    Try(s, Renewal(now, v)).Ok? && |Step(s, Renewal(now, v)).invoices| > |s.invoices|
  }

  function CollectRenewal(s: State, now: int, v: Visit): Collected {
    CollectInvoice(Step(s, Renewal(now, v)), |s.invoices|, v.providers, v.stored, v.failedAt)
  }

  /** One round of `runRenewals`: renew, collect, and close a trial that could not be collected. */
  function RenewAndCollect(s: State, now: int, v: Visit): Swept {
    if Try(s, Renewal(now, v)).Err? then Swept([], Tally(0, 0, 1))
    else if !Opened(s, now, v) then Swept([Renewal(now, v)], Tally(0, 0, 0))
    else
      var c := CollectRenewal(s, now, v);
      if c.outcome.Returned? then Swept([Renewal(now, v)] + c.ops, Tally(1, 1, 0))
      else Swept([Renewal(now, v)] + c.ops + (if s.Status() == TRIALING then [DoCloseUncollectedTrial] else []), Tally(1, 0, 1))
  }

  function After(s: State, now: int, v: Visit): State { Run(s, RenewAndCollect(s, now, v).ops) }

  /** One round of the sweep on the row itself. */
  method Visited(account: Account, now: int, v: Visit) returns (tally: Tally)
    modifies account
    ensures account.State() == After(old(account.State()), now, v)
    ensures tally == RenewAndCollect(old(account.State()), now, v).tally
  {
    hide Run, Renew, CollectInvoice, CloseUncollectedTrial;
    ghost var start := account.State();
    var previousStatus, issued := account.status, |account.invoices|;
    var error := account.Renew(now, true, v.current, v.flush, v.otherMethod, v.at);
    if error != None {
      RunNone(start);
      return Tally(0, 0, 1);
    }
    RunOne(start, Renewal(now, v));
    if |account.invoices| <= issued { return Tally(0, 0, 0); }
    ghost var c := CollectRenewal(start, now, v);
    RunAppend(start, [Renewal(now, v)], c.ops);
    var outcome := AttemptInvoicePayment(account, issued, v.providers, v.stored, v.failedAt);
    if outcome.Returned? { return Tally(1, 1, 0); }
    if previousStatus == TRIALING {
      RunMore(start, [Renewal(now, v)] + c.ops, DoCloseUncollectedTrial);
      var refused := account.CloseUncollectedTrial();
    } else {
      assert [Renewal(now, v)] + c.ops + [] == [Renewal(now, v)] + c.ops;
    }
    tally := Tally(1, 0, 1);
  }

  // -- the batch ----------------------------------------------------------------------------

  function Total(states: seq<State>, now: int, visits: seq<Visit>): Tally
    requires |states| == |visits|
  {
    if states == [] then Tally(0, 0, 0)
    else
      var n := |states| - 1;
      Total(states[..n], now, visits[..n]).Plus(RenewAndCollect(states[n], now, visits[n]).tally)
  }

  predicate Distinct<T(==)>(xs: seq<T>) { forall i, j :: 0 <= i < j < |xs| ==> xs[i] != xs[j] }

  function StatesOf(batch: seq<Account>): (r: seq<State>)
    reads batch
    ensures |r| == |batch| && forall i :: 0 <= i < |batch| ==> r[i] == batch[i].State()
  {
    seq(|batch|, i requires 0 <= i < |batch| reads batch => batch[i].State())
  }

  /**
   * The loop over a batch: every subscription ends where its own round takes it,
   * whatever its neighbours' renewals and charges do, and the counters are the
   * totals of the rounds.
   */
  method RenewBatch(batch: seq<Account>, now: int, visits: seq<Visit>) returns (tally: Tally)
    requires |visits| == |batch| && Distinct(batch)
    modifies batch
    ensures forall i :: 0 <= i < |batch| ==> batch[i].State() == After(old(batch[i].State()), now, visits[i])
    ensures tally == Total(old(StatesOf(batch)), now, visits)
  {
    hide After, RenewAndCollect, Account.State;
    ghost var start := StatesOf(batch);
    tally := Tally(0, 0, 0);
    for k := 0 to |batch|
      invariant forall i :: 0 <= i < k ==> batch[i].State() == After(start[i], now, visits[i])
      invariant forall i :: k <= i < |batch| ==> batch[i].State() == start[i]
      invariant tally == Total(start[..k], now, visits[..k])
    {
      assert start[..k + 1][..k] == start[..k] && visits[..k + 1][..k] == visits[..k];
      var one := Visited(batch[k], now, visits[k]);
      tally := tally.Plus(one);
    }
    assert start[..|batch|] == start && visits[..|batch|] == visits;
  }

  // -- which subscriptions a batch holds --------------------------------------------------------

  predicate DueAt(s: State, now: int) { s.Status() in {ACTIVE, TRIALING} && s.sub.period.end <= now }

  /** Period ends never fall along the batch. */
  predicate Rises(states: seq<State>, batch: seq<nat>)
    requires forall p :: 0 <= p < |batch| ==> batch[p] < |states|
  {
    forall p, q :: 0 <= p < q < |batch| ==> states[batch[p]].sub.period.end <= states[batch[q]].sub.period.end
  }

  /** The query's answer: due rows, each once, oldest period end first, and none left out that ended before one taken. */
  ghost predicate IsBatch(states: seq<State>, now: int, take: nat, batch: seq<nat>) {
    && |batch| <= take && Distinct(batch)
    && (forall p :: 0 <= p < |batch| ==> batch[p] < |states| && DueAt(states[batch[p]], now))
    && Rises(states, batch)
    && (forall i: nat :: i < |states| && DueAt(states[i], now) && i !in batch ==>
          |batch| == take && forall p :: 0 <= p < |batch| ==> states[batch[p]].sub.period.end <= states[i].sub.period.end)
  }

  /** All due rows below `n`, in order. */
  ghost predicate Ordered(states: seq<State>, now: int, n: nat, order: seq<nat>)
    requires n <= |states|
  {
    && Distinct(order)
    && (forall p :: 0 <= p < |order| ==> order[p] < n && DueAt(states[order[p]], now))
    && Rises(states, order)
    && (forall i: nat :: i < n && DueAt(states[i], now) ==> i in order)
  }

  function Inserted(order: seq<nat>, n: nat, at: nat): (more: seq<nat>)
    requires at <= |order|
    ensures |more| == |order| + 1
    ensures forall p :: 0 <= p < |more| ==> more[p] == if p < at then order[p] else if p == at then n else order[p - 1]
  {
    order[..at] + [n] + order[at..]
  }

  lemma InsertedKeeps(order: seq<nat>, n: nat, at: nat, i: nat)
    requires at <= |order| && (i == n || i in order)
    ensures i in Inserted(order, n, at)
  {
    var more := Inserted(order, n, at);
    if i == n {
      assert more[at] == n;
    } else {
      var p :| 0 <= p < |order| && order[p] == i;
      assert more[if p < at then p else p + 1] == i;
    }
  }

  lemma InsertedIsDistinct(order: seq<nat>, n: nat, at: nat)
    requires at <= |order| && Distinct(order) && forall p :: 0 <= p < |order| ==> order[p] < n
    ensures Distinct(Inserted(order, n, at))
  {
  }

  lemma InsertedRises(states: seq<State>, order: seq<nat>, n: nat, at: nat)
    requires at <= |order| && n < |states| && (forall p :: 0 <= p < |order| ==> order[p] < |states|) && Rises(states, order)
    requires forall p :: 0 <= p < at ==> states[order[p]].sub.period.end <= states[n].sub.period.end
    requires forall p :: at <= p < |order| ==> states[n].sub.period.end <= states[order[p]].sub.period.end
    ensures Rises(states, Inserted(order, n, at))
  {
  }

  lemma PutInOrder(states: seq<State>, now: int, n: nat, order: seq<nat>, at: nat)
    requires n < |states| && Ordered(states, now, n, order) && DueAt(states[n], now) && at <= |order|
    requires forall p :: 0 <= p < at ==> states[order[p]].sub.period.end <= states[n].sub.period.end
    requires forall p :: at <= p < |order| ==> states[n].sub.period.end <= states[order[p]].sub.period.end
    ensures Ordered(states, now, n + 1, Inserted(order, n, at))
  {
    hide DueAt, Distinct, Rises;
    InsertedIsDistinct(order, n, at);
    InsertedRises(states, order, n, at);
    forall i: nat | i < n + 1 && DueAt(states[i], now) ensures i in Inserted(order, n, at) {
      InsertedKeeps(order, n, at, i);
    }
  }

  /** The first `take` of an order, or all of it. */
  function First(order: seq<nat>, take: nat): (batch: seq<nat>)
    ensures |batch| == if |order| <= take then |order| else take
    ensures forall p :: 0 <= p < |batch| ==> batch[p] == order[p]
  {
    if |order| <= take then order else order[..take]
  }

  /** A row left out comes after every row taken. */
  lemma LeftOut(states: seq<State>, order: seq<nat>, take: nat, i: nat)
    requires (forall p :: 0 <= p < |order| ==> order[p] < |states|) && Rises(states, order)
    requires i < |states| && i in order && i !in First(order, take)
    ensures var batch := First(order, take);
            |batch| == take && forall p :: 0 <= p < |batch| ==> states[batch[p]].sub.period.end <= states[i].sub.period.end
  {
    var batch := First(order, take);
    var q :| 0 <= q < |order| && order[q] == i;
    if q < |batch| { assert false; }
  }

  lemma FirstInOrder(states: seq<State>, now: int, take: nat, order: seq<nat>)
    requires Ordered(states, now, |states|, order)
    ensures IsBatch(states, now, take, First(order, take))
  {
    hide DueAt;
    var batch := First(order, take);
    forall i: nat | i < |states| && DueAt(states[i], now) && i !in batch
      ensures |batch| == take && forall p :: 0 <= p < |batch| ==> states[batch[p]].sub.period.end <= states[i].sub.period.end
    {
      LeftOut(states, order, take, i);
    }
  }

  /** Where row `i` goes in an order of earlier rows. */
  method FindPlace(states: seq<State>, now: int, i: nat, order: seq<nat>) returns (at: nat)
    requires i < |states| && Ordered(states, now, i, order)
    ensures at <= |order|
    ensures forall p :: 0 <= p < at ==> states[order[p]].sub.period.end <= states[i].sub.period.end
    ensures forall p :: at <= p < |order| ==> states[i].sub.period.end <= states[order[p]].sub.period.end
  {
    hide DueAt, Distinct;
    at := |order|;
    while at > 0 && states[order[at - 1]].sub.period.end > states[i].sub.period.end
      invariant at <= |order|
      invariant forall p :: at <= p < |order| ==> states[i].sub.period.end <= states[order[p]].sub.period.end
    {
      at := at - 1;
    }
  }

  /** The query at the head of `runRenewals`. */
  method SelectDue(states: seq<State>, now: int, take: nat) returns (batch: seq<nat>)
    ensures IsBatch(states, now, take, batch)
  {
    hide DueAt, Distinct, Rises;
    var order: seq<nat> := [];
    NoneInOrder(states, now);
    for i := 0 to |states|
      invariant Ordered(states, now, i, order)
    {
      if DueAt(states[i], now) {
        var at := FindPlace(states, now, i, order);
        PutInOrder(states, now, i, order, at);
        order := Inserted(order, i, at);
      }
    }
    FirstInOrder(states, now, take, order);
    batch := First(order, take);
  }

  lemma NoneInOrder(states: seq<State>, now: int)
    ensures Ordered(states, now, 0, [])
  {}

  /** The elements at some positions. */
  function Pick<T>(xs: seq<T>, at: seq<nat>): (r: seq<T>)
    requires forall p :: 0 <= p < |at| ==> at[p] < |xs|
    ensures |r| == |at| && forall p :: 0 <= p < |at| ==> r[p] == xs[at[p]]
  {
    seq(|at|, p requires 0 <= p < |at| => xs[at[p]])
  }

  /**
   * `runRenewals`: the rows that are due, oldest first and no more than a batch,
   * are each taken where their own round takes them; every other row is left
   * alone; and the counters are the totals of the rounds.
   */
  method RunRenewals(rows: seq<Account>, now: int, take: nat, visits: seq<Visit>) returns (batch: seq<nat>, tally: Tally)
    requires |visits| == |rows| && Distinct(rows)
    modifies rows
    ensures IsBatch(old(StatesOf(rows)), now, take, batch)
    ensures forall i :: 0 <= i < |rows| ==>
              rows[i].State() == if i in batch then After(old(rows[i].State()), now, visits[i]) else old(rows[i].State())
    ensures tally == Total(Pick(old(StatesOf(rows)), batch), now, Pick(visits, batch))
  {
    hide After, RenewAndCollect, Account.State, DueAt;
    batch := SelectDue(StatesOf(rows), now, take);
    var chosen := Pick(rows, batch);
    ghost var states := StatesOf(rows);
    assert StatesOf(chosen) == Pick(states, batch);
    tally := RenewBatch(chosen, now, Pick(visits, batch));
    forall i | 0 <= i < |rows|
      ensures rows[i].State() == if i in batch then After(states[i], now, visits[i]) else states[i]
    {
      PickedOrNot(rows, batch, i);
    }
  }

  /** An element is picked where its position is, and nowhere else. */
  lemma PickedOrNot<T>(xs: seq<T>, at: seq<nat>, i: nat)
    requires Distinct(xs) && i < |xs| && forall p :: 0 <= p < |at| ==> at[p] < |xs|
    ensures i in at ==> exists p :: 0 <= p < |at| && at[p] == i && Pick(xs, at)[p] == xs[i]
    ensures i !in at ==> xs[i] !in Pick(xs, at)
  {
    if i in at {
      var p :| 0 <= p < |at| && at[p] == i;
      assert Pick(xs, at)[p] == xs[i];
    }
  }

  // -- which rounds renew -----------------------------------------------------------------------

  /**
   * Among subscriptions in standing the sweep selects exactly those a renewal
   * would do something to, or be refused for; the others it leaves out altogether,
   * lapsed ones included.
   */
  lemma SelectsExactlyWhatRenews(s: State, now: int, v: Visit)
    ensures s.Status() in {ACTIVE, TRIALING} ==> (DueAt(s, now) <==> Try(s, Renewal(now, v)) != Ok(s))
    ensures s.Status() !in {ACTIVE, TRIALING} ==> !DueAt(s, now)
  {
    hide OpenNextPeriod, BillingPrice, Billable;
    var price := BillingPrice(s.sub, v.current);
    if OpenNextPeriod(s, price, v.flush, v.at).Ok? { RenewalIssues(s, price, v.flush, v.at); }
  }

  /** A round that opens no period collects nothing: a refused renewal counts as failed, one that ends the subscription or finds nothing due as nothing. */
  lemma UnopenedRound(s: State, now: int, v: Visit)
    requires !Opened(s, now, v)
    ensures After(s, now, v) == Step(s, Renewal(now, v)) && After(s, now, v).invoices == s.invoices
    ensures RenewAndCollect(s, now, v).tally == (if Try(s, Renewal(now, v)).Err? then Tally(0, 0, 1) else Tally(0, 0, 0))
  {
    hide Run, OpenNextPeriod, BillingPrice, Billable;
    RunNone(s);
    RunOne(s, Renewal(now, v));
    var price := BillingPrice(s.sub, v.current);
    if OpenNextPeriod(s, price, v.flush, v.at).Ok? { RenewalIssues(s, price, v.flush, v.at); }
  }

  // -- what a renewal leaves to collect ---------------------------------------------------------

  lemma RenewalIssues(s: State, price: Economics, flush: seq<UsageEvent>, at: int)
    requires OpenNextPeriod(s, price, flush, at).Ok?
    ensures var s' := OpenNextPeriod(s, price, flush, at).value;
            && s'.history == s.history && s'.quotes == s.quotes && s'.attempts == s.attempts && s'.credits == s.credits
            && Interval.ValidInterval(s'.sub.price.interval)
            && |s'.invoices| == |s.invoices| + 1 && s'.invoices[..|s.invoices|] == s.invoices
            && var inv := s'.invoices[|s.invoices|];
               inv.amountPaid == 0 && (if inv.total <= 0 then inv.status == Paid else inv.status == Open && inv.amountDue == inv.total)
  {
    hide MeterClosedPeriod, RenewalAnchor, Interval.AddMonths, RecurringLines, InvoiceLines.LinesTotal;
  }

  /** The sweep's renewal issues one invoice, open for its whole total or settled already, and parts with a trial it cannot charge. */
  lemma RenewalLeaves(s: State, now: int, v: Visit)
    requires Opened(s, now, v)
    ensures var s', collectable := Step(s, Renewal(now, v)), s.sub.hasMethod || v.otherMethod;
            && s'.quotes == s.quotes && s'.attempts == s.attempts && s'.credits == s.credits
            && s'.Status() == (if s.Status() == TRIALING && !collectable then PAST_DUE else s.Status())
            && Interval.ValidInterval(s'.sub.price.interval)
            && |s'.invoices| == |s.invoices| + 1 && s'.invoices[..|s.invoices|] == s.invoices
            && var inv := s'.invoices[|s.invoices|];
               inv.amountPaid == 0 && (if inv.total <= 0 then inv.status == Paid else inv.status == Open && inv.amountDue == inv.total)
  {
    hide OpenNextPeriod, BillingPrice, Billable;
    RenewalIssues(s, BillingPrice(s.sub, v.current), v.flush, v.at);
  }

  /** The invoice a sweep's renewal just issued. */
  function Renewed(s: State, now: int, v: Visit): Invoice
    requires Opened(s, now, v)
  {
    Step(s, Renewal(now, v)).invoices[|s.invoices|]
  }

  /** Something is owed and there is a provider to ask for it. */
  predicate Charged(s: State, now: int, v: Visit)
    requires Opened(s, now, v)
  {
    Renewed(s, now, v).total > 0 && v.providers.Ok? && v.providers.value != []
  }

  /** The providers the sweep may charge, and where the charge stops. */
  function Asked(v: Visit): seq<Candidate>
    requires v.providers.Ok?
  {
    Tried(v.providers.value, v.stored)
  }

  function StopOf(s: State, now: int, v: Visit): nat
    requires Opened(s, now, v) && Charged(s, now, v)
  {
    Stop(Step(s, Renewal(now, v)), |s.invoices|, Asked(v), 0)
  }

  /** Collecting a renewal's invoice is quoting it for its whole total and asking the providers in turn. */
  lemma RenewalCharges(s: State, now: int, v: Visit)
    requires Opened(s, now, v) && Charged(s, now, v)
    ensures var s', n, c := Step(s, Renewal(now, v)), |s.invoices|, CollectRenewal(s, now, v);
            && Owing(s', n) && StopsAt(s', n, Asked(v), StopOf(s, now, v))
            && WithQuote(s', n).quotes == s.quotes + [Quote(n, Renewed(s, now, v).total)]
            && EndsAt(WithQuote(s', n), n, Asked(v), StopOf(s, now, v), None, v.failedAt, c.outcome, Run(s', c.ops))
  {
    hide Run, CollectInvoice, EndsAt, StopsAt, Try;
    RenewalLeaves(s, now, v);
    CollectionEndsAt(Step(s, Renewal(now, v)), |s.invoices|, v.providers.value, v.stored, v.failedAt, StopOf(s, now, v));
  }

  /** It is refused, with nothing charged, when the invoice is settled already or there is nobody to ask. */
  lemma RenewalUncharged(s: State, now: int, v: Visit)
    requires Opened(s, now, v) && !Charged(s, now, v)
    ensures var s', c, total := Step(s, Renewal(now, v)), CollectRenewal(s, now, v), Renewed(s, now, v).total;
            && Run(s', c.ops) == s'.(quotes := s.quotes + if total > 0 then [Quote(|s.invoices|, total)] else [])
            && c.outcome == if total <= 0 then Unpayable(InvoiceAlreadyPaid)
                            else NoProvider(if v.providers.Err? then v.providers.error else NoEligiblePaymentProvider)
  {
    hide Run, Candidates, Try;
    var s' := Step(s, Renewal(now, v));
    RenewalLeaves(s, now, v);
    NobodyToCharge(s', |s.invoices|, v.providers, v.stored, v.failedAt);
    if Renewed(s, now, v).total > 0 {
      QuotesOwing(s', |s.invoices|);
    } else {
      RunNone(s');
    }
  }

  /** Where the renewal and the collection of its invoice leave the subscription. */
  lemma RenewalCollection(s: State, now: int, v: Visit)
    requires Opened(s, now, v)
    ensures var s', c, total := Step(s, Renewal(now, v)), CollectRenewal(s, now, v), Renewed(s, now, v).total;
            var after := Run(s, [Renewal(now, v)] + c.ops);
            && after == Run(s', c.ops)
            && after.Status() == Decided(s'.Status(), c.outcome)
            && after.quotes == s.quotes + (if total > 0 then [Quote(|s.invoices|, total)] else [])
            && (c.outcome.Unpayable? <==> total <= 0)
            && (c.outcome.Unpayable? || c.outcome.NoProvider? <==> !Charged(s, now, v))
  {
    hide Run, CollectRenewal, Try, InFlight;
    var c := CollectRenewal(s, now, v);
    RenewalLeaves(s, now, v);
    RunOne(s, Renewal(now, v));
    RunAppend(s, [Renewal(now, v)], c.ops);
    if Charged(s, now, v) { RenewalCharges(s, now, v); } else { RenewalUncharged(s, now, v); }
  }

  // -- what becomes of a subscription that was active -------------------------------------------

  /** Sound books hold no charge for an invoice that is only now issued. */
  lemma NewInvoiceHasNoCharges(s: State, at: int)
    requires Ledger.Sound(Ledger.BooksOf(s))
    ensures !InFlight(s, |s.invoices|, at)
  {
    forall i | 0 <= i < |s.attempts| ensures s.attempts[i].invoice < |s.invoices| {
      assert Ledger.Covers(Ledger.BooksOf(s), s.attempts[i].invoice, s.attempts[i].amount);
    }
  }

  lemma SameAttemptsInFlight(s: State, s': State, invoice: nat, at: int)
    requires s'.attempts == s.attempts
    ensures InFlight(s', invoice, at) == InFlight(s, invoice, at)
  {}

  /**
   * What becomes of a subscription, not a trial, whose period the sweep has
   * closed, exactly. What the renewal owes is quoted whole and charged at once:
   * each provider up to the first that is not given up on is asked for all of it
   * in turn. The subscription keeps its status, or lapses into a grace period if
   * a provider declined or all of them were given up on (an unpaid one comes
   * back when it is paid). It counts as collected if and only if some provider's
   * reply was kept, and as failed otherwise, even when nothing was owed.
   */
  lemma SweptRenewalEndsExactly(s: State, now: int, v: Visit)
    requires s.Status() != TRIALING && Opened(s, now, v)
    ensures var outcome, after, total := CollectRenewal(s, now, v).outcome, After(s, now, v), Renewed(s, now, v).total;
            && RenewAndCollect(s, now, v).tally == Tally(1, if outcome.Returned? then 1 else 0, if outcome.Returned? then 0 else 1)
            && after.quotes == s.quotes + (if total > 0 then [Quote(|s.invoices|, total)] else [])
            && after.Status() == Decided(s.Status(), outcome)
            && (Charged(s, now, v) ==>
                  && StopsAt(Step(s, Renewal(now, v)), |s.invoices|, Asked(v), StopOf(s, now, v))
                  && EndsAt(WithQuote(Step(s, Renewal(now, v)), |s.invoices|), |s.invoices|, Asked(v), StopOf(s, now, v), None, v.failedAt, outcome, after))
            && (!Charged(s, now, v) ==>
                  && (outcome.Unpayable? || outcome.NoProvider?) && (outcome.Unpayable? <==> total <= 0)
                  && after == Step(s, Renewal(now, v)).(quotes := after.quotes))
  {
    hide Run, CollectRenewal, Try, InFlight, Decided, EndsAt, StopsAt;
    RenewalCollection(s, now, v);
    RenewalLeaves(s, now, v);
    assert [Renewal(now, v)] + CollectRenewal(s, now, v).ops + [] == [Renewal(now, v)] + CollectRenewal(s, now, v).ops;
    if Charged(s, now, v) { RenewalCharges(s, now, v); } else { RenewalUncharged(s, now, v); }
  }

  /** Provider `i` answers the charge: those before it were given up on, and its reply was kept. */
  predicate Answers(inv: Invoice, asked: seq<Candidate>, i: nat) {
    i < |asked| && (forall j :: 0 <= j < i ==> GivenUp(inv, asked[j].answer)) && Kept(inv, asked[i].answer)
  }

  predicate AllGivenUp(inv: Invoice, asked: seq<Candidate>) { forall j :: 0 <= j < |asked| ==> GivenUp(inv, asked[j].answer) }

  lemma StopDecides(inv: Invoice, asked: seq<Candidate>, stop: nat)
    requires stop <= |asked| && forall j :: 0 <= j < stop ==> GivenUp(inv, asked[j].answer)
    requires stop < |asked| ==> !GivenUp(inv, asked[stop].answer)
    ensures AllGivenUp(inv, asked) <==> stop == |asked|
    ensures forall i: nat :: Answers(inv, asked, i) <==> i == stop < |asked| && !TimesOut(asked[i].answer)
    ensures forall i :: 0 <= i < |asked| && Kept(inv, asked[i].answer) ==> asked[i].answer.Replies?
  {
    hide Kept, TimesOut;
    forall i: nat ensures Answers(inv, asked, i) <==> i == stop < |asked| && !TimesOut(asked[i].answer) {
      if i < |asked| { KeptIsNotGivenUp(inv, asked[i].answer); }
    }
    forall i | 0 <= i < |asked| ensures Kept(inv, asked[i].answer) ==> asked[i].answer.Replies? { KeptIsNotGivenUp(inv, asked[i].answer); }
  }

  lemma KeptIsNotGivenUp(inv: Invoice, answer: Answer)
    ensures GivenUp(inv, answer) <==> !Kept(inv, answer) && !TimesOut(answer)
    ensures Kept(inv, answer) ==> answer.Replies? && !TimesOut(answer)
  {}

  /** A charge for an invoice only now issued stops where its providers' answers say. */
  lemma NewChargeStops(s: State, now: int, v: Visit)
    requires Ledger.Sound(Ledger.BooksOf(s)) && Opened(s, now, v) && Charged(s, now, v)
    ensures var s', n, asked, stop := Step(s, Renewal(now, v)), |s.invoices|, Asked(v), StopOf(s, now, v);
            var inv := Renewed(s, now, v);
            && StopsAt(s', n, asked, stop) && inv.amountDue == inv.total
            && (forall i :: 0 <= i < |asked| ==> !InFlight(WithQuote(s', n), n, asked[i].openedAt))
            && (AllGivenUp(inv, asked) <==> stop == |asked|)
            && (forall i: nat :: Answers(inv, asked, i) <==> i == stop < |asked| && !TimesOut(asked[i].answer))
            && (forall i :: 0 <= i < |asked| && Kept(inv, asked[i].answer) ==> asked[i].answer.Replies?)
  {
    hide Run, Try, InFlight, CollectRenewal, GivenUp, Kept, TimesOut, Answers, AllGivenUp;
    RenewalLeaves(s, now, v);
    RenewalCharges(s, now, v);
    var s', n, asked, stop := Step(s, Renewal(now, v)), |s.invoices|, Asked(v), StopOf(s, now, v);
    forall at ensures !InFlight(s', n, at) && !InFlight(WithQuote(s', n), n, at) {
      NewInvoiceHasNoCharges(s, at);
      SameAttemptsInFlight(s, s', n, at);
      SameAttemptsInFlight(s, WithQuote(s', n), n, at);
    }
    StopDecides(s'.invoices[n], asked, stop);
  }

  /**
   * So an active subscription that owes something is charged in the round that
   * renews it: its first provider is asked for the whole invoice.
   */
  lemma SweptActiveIsCharged(s: State, now: int, v: Visit)
    requires s.Status() == ACTIVE && Ledger.Sound(Ledger.BooksOf(s))
    requires Opened(s, now, v) && Charged(s, now, v)
    ensures var after, n, m, asked := After(s, now, v), |s.invoices|, |s.attempts|, Asked(v);
            var inv := Renewed(s, now, v);
            && after.quotes == s.quotes + [Quote(n, inv.total)]
            && |after.attempts| > m && after.attempts[..m] == s.attempts
            && after.attempts[m] == Attempt(n, inv.total,
                                            if GivenUp(inv, asked[0].answer) then Failed
                                            else if TimesOut(asked[0].answer) then Processing else asked[0].answer.result.status,
                                            asked[0].openedAt)
  {
    hide Run, Try, InFlight, RenewAndCollect, CollectRenewal, After, Answers, AllGivenUp, GivenUpWith, Decided;
    SweptRenewalEndsExactly(s, now, v);
    NewChargeStops(s, now, v);
    hide StopsAt, EndsAt;
    var s', n := Step(s, Renewal(now, v)), |s.invoices|;
    RenewalLeaves(s, now, v);
    FirstAttempt(WithQuote(s', n), n, Asked(v), StopOf(s, now, v), None, v.failedAt, CollectRenewal(s, now, v).outcome, After(s, now, v));
  }

  /**
   * It stays active, unless the charge was declined or every provider was given
   * up on: then, and only then, it lapses into a grace period. It counts as
   * collected exactly when some provider answered.
   */
  lemma SweptActiveEndsExactly(s: State, now: int, v: Visit)
    requires s.Status() == ACTIVE && Ledger.Sound(Ledger.BooksOf(s))
    requires Opened(s, now, v) && Charged(s, now, v)
    ensures var after, asked, inv := After(s, now, v), Asked(v), Renewed(s, now, v);
            && after.Status() in {ACTIVE, GRACE_PERIOD}
            && (after.Status() == GRACE_PERIOD <==>
                  AllGivenUp(inv, asked) || exists i: nat :: Answers(inv, asked, i) && asked[i].answer.result.status in {Failed, Canceled})
            && RenewAndCollect(s, now, v).tally == (if exists i: nat :: Answers(inv, asked, i) then Tally(1, 1, 0) else Tally(1, 0, 1))
  {
    hide Run, Try, InFlight, RenewAndCollect, CollectRenewal, After, AllGivenUp, GivenUp, Kept, TimesOut, GivenUpWith;
    SweptRenewalEndsExactly(s, now, v);
    NewChargeStops(s, now, v);
    hide Answers;
    var stop, asked := StopOf(s, now, v), Asked(v);
    if stop < |asked| && !TimesOut(asked[stop].answer) { assert Answers(Renewed(s, now, v), asked, stop); }
  }

  // -- what becomes of a trial ----------------------------------------------------------------

  lemma CloseTrialMovesStatusOnly(s: State)
    ensures var s' := Step(s, DoCloseUncollectedTrial);
            && s'.attempts == s.attempts && s'.invoices == s.invoices && s'.credits == s.credits && s'.quotes == s.quotes
            && s'.Status() == if s.Status() == TRIALING then PAST_DUE else s.Status()
  {}

  /**
   * A trial is charged like any other: what its first paid period costs is quoted
   * whole and its providers asked in turn, and closing it afterwards moves no
   * money. It counts as collected exactly when a provider's reply was kept.
   */
  lemma SweptTrialIsCharged(s: State, now: int, v: Visit)
    requires s.Status() == TRIALING && Opened(s, now, v)
    ensures var s', c, after, total := Step(s, Renewal(now, v)), CollectRenewal(s, now, v), After(s, now, v), Renewed(s, now, v).total;
            var charged := Run(s', c.ops);
            && after.attempts == charged.attempts && after.invoices == charged.invoices && after.credits == charged.credits
            && after.quotes == s.quotes + (if total > 0 then [Quote(|s.invoices|, total)] else [])
            && RenewAndCollect(s, now, v).tally == Tally(1, if c.outcome.Returned? then 1 else 0, if c.outcome.Returned? then 0 else 1)
            && (Charged(s, now, v) ==>
                  && StopsAt(s', |s.invoices|, Asked(v), StopOf(s, now, v))
                  && EndsAt(WithQuote(s', |s.invoices|), |s.invoices|, Asked(v), StopOf(s, now, v), None, v.failedAt, c.outcome, charged))
            && (!Charged(s, now, v) ==> after.attempts == s.attempts && after.credits == s.credits)
  {
    hide Run, Try, CollectRenewal, EndsAt, StopsAt, Decided;
    var c := CollectRenewal(s, now, v);
    RenewalCollection(s, now, v);
    RenewalLeaves(s, now, v);
    if Charged(s, now, v) { RenewalCharges(s, now, v); } else { RenewalUncharged(s, now, v); }
    if !c.outcome.Returned? {
      RunMore(s, [Renewal(now, v)] + c.ops, DoCloseUncollectedTrial);
      CloseTrialMovesStatusOnly(Run(s, [Renewal(now, v)] + c.ops));
    }
  }

  /**
   * What becomes of a trial the sweep renews, exactly. It stays TRIALING when it
   * can be charged and a provider has the charge pending, becomes ACTIVE when
   * the charge succeeded, and lapses into a grace period when it failed. It
   * becomes PAST_DUE when nothing was owed, no provider could be selected, the
   * attempt was refused, a provider timed out, or the charge is pending and
   * there is no method to count on.
   */
  lemma SweptTrialEndsExactly(s: State, now: int, v: Visit)
    requires s.Status() == TRIALING && Opened(s, now, v)
    ensures var outcome, status, chargeable := CollectRenewal(s, now, v).outcome, After(s, now, v).Status(), s.sub.hasMethod || v.otherMethod;
            var pending := outcome.Returned? && outcome.status in {Pending, Processing};
            && (status == TRIALING <==> chargeable && pending)
            && (status == ACTIVE <==> outcome == Returned(Succeeded))
            && (status == GRACE_PERIOD <==> outcome.Exhausted? || outcome in {Returned(Failed), Returned(Canceled)})
            && (status == PAST_DUE <==>
                  outcome.Unpayable? || outcome.NoProvider? || outcome.AttemptRefused? || outcome.TimedOut? || (!chargeable && pending))
            && (outcome.Unpayable? <==> Renewed(s, now, v).total <= 0)
  {
    hide Run, Try, CollectRenewal;
    var c := CollectRenewal(s, now, v);
    RenewalLeaves(s, now, v);
    RenewalCollection(s, now, v);
    if c.outcome.Returned? {
      assert After(s, now, v) == Run(s, [Renewal(now, v)] + c.ops);
    } else {
      RunMore(s, [Renewal(now, v)] + c.ops, DoCloseUncollectedTrial);
      CloseTrialMovesStatusOnly(Run(s, [Renewal(now, v)] + c.ops));
      assert After(s, now, v) == Step(Run(s, [Renewal(now, v)] + c.ops), DoCloseUncollectedTrial);
    }
  }

  /**
   * A trial whose charge timed out is closed although the charge was attempted
   * and is still undecided: its attempt for the whole invoice stays PROCESSING.
   */
  lemma TimedOutTrialLapses(s: State, now: int, v: Visit)
    requires s.Status() == TRIALING && Opened(s, now, v) && CollectRenewal(s, now, v).outcome == TimedOut
    ensures var after := After(s, now, v);
            && after.Status() == PAST_DUE && |after.attempts| > |s.attempts|
            && var last := after.attempts[|after.attempts| - 1];
               last.status == Processing && last.invoice == |s.invoices| && last.amount == Renewed(s, now, v).total > 0
  {
    hide Run, Try, CollectRenewal, InFlight, Decided;
    SweptTrialEndsExactly(s, now, v);
    RenewalCollection(s, now, v);
    RenewalLeaves(s, now, v);
    RenewalCharges(s, now, v);
    var c := CollectRenewal(s, now, v);
    RunMore(s, [Renewal(now, v)] + c.ops, DoCloseUncollectedTrial);
    CloseTrialMovesStatusOnly(Run(s, [Renewal(now, v)] + c.ops));
    var charged := Run(Step(s, Renewal(now, v)), c.ops);
    assert charged.attempts[|s.attempts| + StopOf(s, now, v)..][0] == charged.attempts[|charged.attempts| - 1];
  }

  /**
   * A converting trial that owes nothing lapses all the same: its invoice is
   * settled when it is issued, collecting it throws, and the sweep counts that
   * as a failure and closes the trial as uncollected.
   */
  lemma FreeConversionLapses(s: State, now: int, v: Visit)
    requires s.Status() == TRIALING && Opened(s, now, v) && Renewed(s, now, v).total <= 0
    ensures After(s, now, v).Status() == PAST_DUE
    ensures RenewAndCollect(s, now, v).tally == Tally(1, 0, 1)
    ensures After(s, now, v).attempts == s.attempts
    ensures After(s, now, v).invoices == s.invoices + [Renewed(s, now, v)] && Renewed(s, now, v).status == Paid
  {
    hide Run, Try, CollectRenewal;
    RenewalLeaves(s, now, v);
    RenewalUncharged(s, now, v);
    RenewalCollection(s, now, v);
    var collected := [Renewal(now, v)] + CollectRenewal(s, now, v).ops;
    RunMore(s, collected, DoCloseUncollectedTrial);
    CloseTrialMovesStatusOnly(Run(s, collected));
  }
}
