/** What a recovery may bill afterwards, and what skipping the rebase would replay. */
module Replay {
  import opened Basics
  import opened Calendar
  import opened Interval
  import opened StateMachine
  import opened StatusHistory
  import opened Recovery
  import opened Billing
  import opened Cycle
  import Pricing
  import Proration

  /** An issued invoice as the recovery audit reads it. */
  function Audited(i: Issued): AuditedInvoice { AuditedInvoice(i.createdAt, Some(i.start), i.reason) }

  /** Windows are exactly the invoices without a proration reason. */
  lemma {:induction false} WindowsAreInvoices(issued: seq<Issued>)
    ensures forall i :: 0 <= i < |issued| && issued[i].reason.None? ==> Window(issued[i].start, issued[i].end) in Windows(issued)
    ensures forall w :: w in Windows(issued) ==>
              exists i :: 0 <= i < |issued| && issued[i].reason.None? && Window(issued[i].start, issued[i].end) == w
    decreases |issued|
  {
    if issued != [] {
      var n := |issued| - 1;
      WindowsAreInvoices(issued[..n]);
      forall w | w in Windows(issued)
        ensures exists i :: 0 <= i < |issued| && issued[i].reason.None? && Window(issued[i].start, issued[i].end) == w
      {
        if w in Windows(issued[..n]) {
          var i :| 0 <= i < n && issued[..n][i].reason.None? && Window(issued[..n][i].start, issued[..n][i].end) == w;
          assert issued[i] == issued[..n][i];
        } else {
          assert issued[n].reason.None? && Window(issued[n].start, issued[n].end) == w;
        }
      }
      forall i | 0 <= i < |issued| && issued[i].reason.None? ensures Window(issued[i].start, issued[i].end) in Windows(issued) {
        if i < n { assert issued[..n][i] == issued[i]; }
      }
    }
  }

  /** A recovery from UNPAID starts a whole new window at the payment. */
  lemma RecoveryRebases(s: State, op: Op)
    requires Recovers(s, op)
    ensures op.DoApplyResult?
    ensures var s', paidAt := Step(s, op), op.result.paidAt.Or(op.at);
            && s'.sub.period.start == paidAt && paidAt + DAY_MS <= s'.sub.period.end
            && IssuedOf(s'.invoices) == IssuedOf(s.invoices)
  {
    hide Renew, ApplyPaymentResult, FailInvoice, InFlight, InsertEvent, Proration.Prorate, Proration.ProrateSeats,
         Pricing.RecurringAmount, IssuedOf;
    if op.DoRenew? { RenewKeepsUnpaid(s, op); }
    if op.DoFailInvoice? { UnpaidNeverLapses(s, op.invoice, op.at); }
    ApplyResultRebases(s, op.attempt, op.result, op.at);
  }

  lemma RenewKeepsUnpaid(s: State, op: Op)
    requires op.DoRenew? && s.Status() == UNPAID
    ensures Step(s, op).Status() != ACTIVE
  {
    hide BillingPrice, MeterClosedPeriod, RenewalAnchor, AddInterval, Pricing.RecurringLines, FinalizeInvoice;
  }

  lemma UnpaidNeverLapses(s: State, k: nat, at: int)
    requires s.Status() == UNPAID
    ensures FailInvoice(s, k, at) == Ok(s)
  {}

  lemma ApplyResultRebases(s: State, k: nat, result: PaymentResult, at: int)
    requires s.Status() == UNPAID && ApplyPaymentResult(s, k, result, at).Ok?
    requires ApplyPaymentResult(s, k, result, at).value.Status() == ACTIVE
    ensures var s', paidAt := ApplyPaymentResult(s, k, result, at).value, result.paidAt.Or(at);
            && s'.sub.period.start == paidAt && paidAt + DAY_MS <= s'.sub.period.end
            && IssuedOf(s'.invoices) == IssuedOf(s.invoices)
  {
    hide Recover, FailInvoice;
    var attempt := s.attempts[k];
    var marked := s.(attempts := s.attempts[k := attempt.(status := result.status)]);
    UnpaidNeverLapses(marked, attempt.invoice, at);
    var paid := PayInvoice(s.invoices[attempt.invoice], result.amount).value;
    var credited := marked.(
      invoices := s.invoices[attempt.invoice := paid],
      credits := s.credits + [Credit(k, attempt.invoice, result.amount)],
      sub := s.sub.(hasMethod := s.sub.hasMethod || result.savesMethod));
    assert IssuedOf(credited.invoices) == IssuedOf(s.invoices);
    RecoverRebases(credited, result.paidAt.Or(at));
  }

  lemma RecoverRebases(s: State, paidAt: int)
    requires s.Status() == UNPAID && Recover(s, paidAt).Ok?
    ensures var s' := Recover(s, paidAt).value;
            s'.invoices == s.invoices && s'.sub.period.start == paidAt && paidAt + DAY_MS <= s'.sub.period.end
  {
    hide AddInterval;
    var anchor := if Calendrical(s.sub.price.interval) then Some(DayOfMonth(paidAt)) else s.sub.period.anchor;
    IntervalIsValid(paidAt, s.sub.price.interval, anchor);
    IntervalAdvancesADay(paidAt, s.sub.price.interval, anchor);
  }

  /**
   * No replay after a recovery: until the next one, every invoice issued either
   * opens after the payment or is a marked proration, so the audit flags none.
   */
  lemma NothingReplayed(s: State, op: Op, ops: seq<Op>, nextRecoveryAt: Option<int>)
    requires Recovers(s, op) && NoRecovery(Step(s, op), ops)
    ensures op.DoApplyResult?
    ensures var paidAt := op.result.paidAt.Or(op.at);
            var issued := IssuedSince(Run(Step(s, op), ops), |s.invoices|);
            forall i :: 0 <= i < |issued| ==>
              && (issued[i].reason.Some? || issued[i].start > paidAt)
              && !IsCatchUpInvoice(Audited(issued[i]), paidAt, nextRecoveryAt)
  {
    hide Run, Step, Recovers, Windows, Tiles;
    RecoveryRebases(s, op);
    var s1 := Step(s, op);
    assert |s1.invoices| == |s.invoices|;
    RenewalsTile(s1, ops);
    var issued := IssuedSince(Run(s1, ops), |s.invoices|);
    var ws := Windows(issued);
    TilesInOrder(ws, s1.sub.period.end, Run(s1, ops).sub.period.end);
    WindowsAreInvoices(issued);
    forall i | 0 <= i < |issued| && issued[i].reason.None? ensures issued[i].start > op.result.paidAt.Or(op.at) {
      assert Window(issued[i].start, issued[i].end) in ws;
    }
  }

  /**
   * Without the rebase the lapse is billed forward: renewing from a period end
   * before the recovery until past it issues, for every moment of the lapse, an
   * invoice the audit flags; and it flags exactly the windows that start before
   * the recovery.
   */
  lemma UnrebasedRenewalReplaysTheLapse(s: State, ops: seq<Op>, recoveredAt: int, moment: int)
    requires NoRecovery(s, ops) && s.sub.period.end <= moment < recoveredAt <= Run(s, ops).sub.period.end
    requires var issued := IssuedSince(Run(s, ops), |s.invoices|);
             forall i :: 0 <= i < |issued| ==> issued[i].createdAt > recoveredAt
    ensures var issued := IssuedSince(Run(s, ops), |s.invoices|);
            && (forall i :: 0 <= i < |issued| ==>
                  (IsCatchUpInvoice(Audited(issued[i]), recoveredAt, None)
                   <==> issued[i].reason.None? && issued[i].start < recoveredAt))
            && (exists i :: 0 <= i < |issued| && IsCatchUpInvoice(Audited(issued[i]), recoveredAt, None)
                            && issued[i].start <= moment < issued[i].end)
  {
    hide Run, Windows, Tiles, NoRecovery;
    RenewalsTile(s, ops);
    var issued := IssuedSince(Run(s, ops), |s.invoices|);
    var ws := Windows(issued);
    WindowsAreInvoices(issued);
    TilesCoverOnce(ws, s.sub.period.end, Run(s, ops).sub.period.end, moment);
    var j :| 0 <= j < |ws| && ws[j].start <= moment < ws[j].end;
    assert ws[j] in ws;
    var i :| 0 <= i < |issued| && issued[i].reason.None? && Window(issued[i].start, issued[i].end) == ws[j];
    assert IsCatchUpInvoice(Audited(issued[i]), recoveredAt, None);
  }

  /** The first window opened starts where the run found the period ending. */
  lemma {:induction false} FirstWindow(ws: seq<Window>, from: int, to: int)
    requires Tiles(ws, from, to) && ws != []
    ensures ws[0].start == from
    decreases |ws|
  {
    if |ws| > 1 { FirstWindow(ws[..|ws| - 1], from, ws[|ws| - 1].start); }
  }

  /**
   * The classifier against the invoices, for a recovery that kept the old
   * period: once something has been renewed, a verdict of affected means some
   * invoice is flagged, and clean means none is, except when the period ended
   * at the very moment of the recovery: then nothing was replayed although the
   * verdict says affected.
   */
  lemma VerdictAgainstInvoices(s: State, ops: seq<Op>, recoveredAt: int)
    requires NoRecovery(s, ops)
    requires var issued := IssuedSince(Run(s, ops), |s.invoices|);
             && Windows(issued) != []
             && forall i :: 0 <= i < |issued| ==> issued[i].createdAt > recoveredAt
    ensures var issued := IssuedSince(Run(s, ops), |s.invoices|);
            var verdict := ClassifyHistoricalRecovery(false, Some(s.sub.period.end), Run(s, ops).sub.period.start, recoveredAt);
            var flagged := exists i :: 0 <= i < |issued| && IsCatchUpInvoice(Audited(issued[i]), recoveredAt, None);
            && verdict in {CleanInPeriod, AffectedReplaying, AffectedCaughtUp}
            && (flagged <==> verdict != CleanInPeriod && s.sub.period.end != recoveredAt)
            && (verdict == AffectedReplaying <==> s.sub.period.end <= recoveredAt && Run(s, ops).sub.period.start < recoveredAt)
  {
    hide Run, Windows, Tiles, NoRecovery;
    RenewalsTile(s, ops);
    var issued := IssuedSince(Run(s, ops), |s.invoices|);
    var ws, from := Windows(issued), s.sub.period.end;
    WindowsAreInvoices(issued);
    TilesInOrder(ws, from, Run(s, ops).sub.period.end);
    FirstWindow(ws, from, Run(s, ops).sub.period.end);
    if from < recoveredAt {
      assert ws[0] in ws;
      var i :| 0 <= i < |issued| && issued[i].reason.None? && Window(issued[i].start, issued[i].end) == ws[0];
      assert IsCatchUpInvoice(Audited(issued[i]), recoveredAt, None);
    } else {
      forall i | 0 <= i < |issued| ensures !IsCatchUpInvoice(Audited(issued[i]), recoveredAt, None) {
        if issued[i].reason.None? { assert Window(issued[i].start, issued[i].end) in ws; }
      }
    }
  }

  /** An invoice is held against one recovery at most: the last one before it was issued. */
  lemma FlaggedForOneRecovery(invoice: AuditedInvoice, first: int, second: int, next: Option<int>)
    requires first < second
    ensures IsCatchUpInvoice(invoice, first, next) ==> first < invoice.createdAt
    ensures IsCatchUpInvoice(invoice, first, Some(second)) <==> IsCatchUpInvoice(invoice, first, None) && invoice.createdAt < second
    ensures !(IsCatchUpInvoice(invoice, first, Some(second)) && IsCatchUpInvoice(invoice, second, next))
  {}
}
