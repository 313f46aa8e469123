/**
 * The usage a renewal bills in arrears: the flush that runs inside it, the meter
 * it then reads, and the rate it applies (packages/billing/src/subscriptions.ts,
 * platform-metering.ts).
 */
module RenewalVolume {
  import opened Basics
  import opened Money
  import opened Pricing
  import opened Billing
  import opened Metering
  import opened PlanChanges
  import Proration
  import Interval
  import InvoiceLines
  import StatusHistory

  /** The renewal moves the subscription onto a newer version of its price. */
  predicate RollsForward(sub: Subscription, current: Option<Economics>) {
    !sub.pricePinned && current.Some? && CanRollForward(sub.price, current.value)
  }

  // -- which volume is read -----------------------------------------------------------------

  /**
   * The subscription's events so far come from earlier passes beside `base`, and
   * the renewal flushes the period it closes to the meter of the price held, or
   * flushes nothing where that price, or its enrolment, is not metered.
   */
  ghost predicate Flushes(s: State, op: Op, base: seq<UsageEvent>, ps: seq<Pass>, flush: Pass, flushed: bool, currency: Currency)
    requires op.DoRenew?
  {
    && Foreign(base, flush.seen) && AllSaw(ps, flush.seen) && Saw(flush, flush.seen)
    && s.events == RunPasses(base, ps, currency)
    && flush.since == s.sub.period.start && flush.until == s.sub.period.end
    && op.flush == (if flushed then PassRows(flush, currency) else [])
    && (flushed ==> s.sub.price.usageMeter == Some(flush.meter))
  }

  function AllPasses(ps: seq<Pass>, flush: Pass, flushed: bool): seq<Pass> { if flushed then ps + [flush] else ps }

  lemma FlushIsAPass(base: seq<UsageEvent>, ps: seq<Pass>, flush: Pass, flushed: bool, currency: Currency)
    ensures RunPasses(base, AllPasses(ps, flush, flushed), currency)
            == InsertEvents(RunPasses(base, ps, currency), if flushed then PassRows(flush, currency) else [])
  {
    hide PassRows;
    assert (ps + [flush])[..|ps|] == ps;
  }

  lemma AllSawAll(ps: seq<Pass>, flush: Pass, flushed: bool)
    requires AllSaw(ps, flush.seen) && Saw(flush, flush.seen)
    ensures AllSaw(AllPasses(ps, flush, flushed), flush.seen)
  {
    hide Saw;
  }

  lemma UsageOfOpening(s: State, price: Economics, flush: seq<UsageEvent>, at: int)
    requires OpenNextPeriod(s, price, flush, at).Ok?
    ensures var s' := OpenNextPeriod(s, price, flush, at).value;
            |s'.invoices| == |s.invoices| + 1 && s'.invoices[|s.invoices|].usage == MeterClosedPeriod(s, price, flush).usage
  {
    hide Interval.AddInterval, RecurringLines, InvoiceLines.LinesTotal, MeterClosedPeriod, RenewalAnchor;
  }

  lemma UsageOfRenewal(s: State, op: Op)
    requires op.DoRenew? && |Step(s, op).invoices| > |s.invoices|
    ensures Step(s, op).invoices[|s.invoices|].usage == MeterClosedPeriod(s, BillingPrice(s.sub, op.current), op.flush).usage
  {
    hide OpenNextPeriod, MeterClosedPeriod, BillingPrice, Billable, StatusHistory.ApplyTransition;
    UsageOfOpening(s, BillingPrice(s.sub, op.current), op.flush, op.at);
  }

  /** A payment of the closed period will be read: an earlier pass put it on the billed meter, or none did and the flush does. */
  predicate Read(ps: seq<Pass>, flush: Pass, flushed: bool, billed: MeterId, a: Settled) {
    var first := FirstMeter(ps, a);
    if first.Some? then first.value == billed else flushed && flush.meter == billed
  }

  /** What the renewal's invoice records as used on the billed meter. */
  lemma RenewalReads(s: State, op: Op, base: seq<UsageEvent>, ps: seq<Pass>, flush: Pass, flushed: bool, billed: MeterId, currency: Currency)
    requires op.DoRenew? && |Step(s, op).invoices| > |s.invoices|
    requires BillingPrice(s.sub, op.current).usageMeter == Some(billed) && Flushes(s, op, base, ps, flush, flushed, currency)
    ensures var on := OnMeter(AllPasses(ps, flush, flushed), Matching(flush.seen, flush.since, flush.until), billed);
            Step(s, op).invoices[|s.invoices|].usage
            == Some(UsageRecord(billed, s.sub.period.start, s.sub.period.end,
                                PeriodUsage(base, billed, flush.since, flush.until) + UnitsTotal(on, currency)))
  {
    hide Step, PeriodUsage, InsertEvents, RunPasses, PassRows, Foreign, AllSaw, UnitsTotal, Matching, OnMeter, UsageLines, UsageSnapshot, BillingPrice, AllPasses;
    UsageOfRenewal(s, op);
    FlushIsAPass(base, ps, flush, flushed, currency);
    AllSawAll(ps, flush, flushed);
    UsageAfterPasses(base, AllPasses(ps, flush, flushed), flush.seen, billed, currency, flush.since, flush.until);
  }

  lemma FirstOfAll(ps: seq<Pass>, flush: Pass, flushed: bool, billed: MeterId, a: Settled)
    requires CoveredBy(flush, a)
    ensures FirstMeter(AllPasses(ps, flush, flushed), a) == Some(billed) <==> Read(ps, flush, flushed, billed, a)
  {
    hide CoveredBy;
    assert (ps + [flush])[..|ps|] == ps;
  }

  /**
   * Exactly when a renewal bills the volume its closed period settled, beside
   * what the meter held otherwise: when every payment of the period that measures
   * something was put on the billed meter by an earlier pass, or by none and the
   * flush writes the billed meter.
   */
  lemma RenewalBillsSettledVolumeExactlyWhen(s: State, op: Op, base: seq<UsageEvent>, ps: seq<Pass>, flush: Pass, flushed: bool, billed: MeterId, currency: Currency)
    requires op.DoRenew? && |Step(s, op).invoices| > |s.invoices|
    requires BillingPrice(s.sub, op.current).usageMeter == Some(billed) && Flushes(s, op, base, ps, flush, flushed, currency)
    ensures var matching := Matching(flush.seen, flush.since, flush.until);
            var settled := PeriodUsage(base, billed, flush.since, flush.until) + UnitsTotal(matching, currency);
            Step(s, op).invoices[|s.invoices|].usage == Some(UsageRecord(billed, s.sub.period.start, s.sub.period.end, settled))
            <==> forall i :: 0 <= i < |matching| && Measures(matching[i], currency) ==> Read(ps, flush, flushed, billed, matching[i])
  {
    hide Step, PeriodUsage, RunPasses, Foreign, AllSaw, UnitsTotal, Matching, OnMeter, BillingPrice, AllPasses, Read, Measures, InWindow, PassRows, FirstMeter;
    var matching := Matching(flush.seen, flush.since, flush.until);
    RenewalReads(s, op, base, ps, flush, flushed, billed, currency);
    AllOnMeter(AllPasses(ps, flush, flushed), matching, billed, currency);
    MatchingAre(flush.seen, flush.since, flush.until);
    forall i | 0 <= i < |matching|
      ensures FirstMeter(AllPasses(ps, flush, flushed), matching[i]) == Some(billed) <==> Read(ps, flush, flushed, billed, matching[i])
    {
      assert matching[i] in matching;
      FirstOfAll(ps, flush, flushed, billed, matching[i]);
    }
  }

  /** None of the volume is billed exactly when none of it is read. */
  lemma RenewalMissesAllVolumeExactlyWhen(s: State, op: Op, base: seq<UsageEvent>, ps: seq<Pass>, flush: Pass, flushed: bool, billed: MeterId, currency: Currency)
    requires op.DoRenew? && |Step(s, op).invoices| > |s.invoices|
    requires BillingPrice(s.sub, op.current).usageMeter == Some(billed) && Flushes(s, op, base, ps, flush, flushed, currency)
    ensures var matching := Matching(flush.seen, flush.since, flush.until);
            Step(s, op).invoices[|s.invoices|].usage
            == Some(UsageRecord(billed, s.sub.period.start, s.sub.period.end, PeriodUsage(base, billed, flush.since, flush.until)))
            <==> forall i :: 0 <= i < |matching| && Measures(matching[i], currency) ==> !Read(ps, flush, flushed, billed, matching[i])
  {
    hide Step, PeriodUsage, RunPasses, Foreign, AllSaw, UnitsTotal, Matching, OnMeter, BillingPrice, AllPasses, Read, Measures, InWindow, PassRows, FirstMeter;
    var matching := Matching(flush.seen, flush.since, flush.until);
    RenewalReads(s, op, base, ps, flush, flushed, billed, currency);
    AllOnMeter(AllPasses(ps, flush, flushed), matching, billed, currency);
    MatchingAre(flush.seen, flush.since, flush.until);
    forall i | 0 <= i < |matching|
      ensures FirstMeter(AllPasses(ps, flush, flushed), matching[i]) == Some(billed) <==> Read(ps, flush, flushed, billed, matching[i])
    {
      assert matching[i] in matching;
      FirstOfAll(ps, flush, flushed, billed, matching[i]);
    }
  }

  /**
   * A plan change between a scheduled pass and the renewal loses volume without
   * any roll-forward: the pass recorded the period's payments on the old price's
   * meter, and the renewal on the new one skips them as known and reads nothing.
   */
  lemma PlanChangeMissesVolume(s: State, change: Op, op: Op, base: seq<UsageEvent>, pass: Pass, flush: Pass, currency: Currency)
    requires change.DoChangePlan? && Try(s, change).Ok? && !Deferred(s, change)
    requires s.sub.price.usageMeter == Some(pass.meter) && change.newPrice.usageMeter == Some(flush.meter) && pass.meter != flush.meter
    requires s.events == RunPasses(base, [pass], currency)
    requires var moved := Step(s, change);
             && op.DoRenew? && !RollsForward(moved.sub, op.current) && |Step(moved, op).invoices| > |moved.invoices|
             && Flushes(moved, op, base, [pass], flush, true, currency)
    requires forall a :: a in Matching(flush.seen, flush.since, flush.until) ==> CoveredBy(pass, a)
    ensures var moved := Step(s, change);
            Step(moved, op).invoices[|moved.invoices|].usage
            == Some(UsageRecord(flush.meter, moved.sub.period.start, moved.sub.period.end,
                                PeriodUsage(base, flush.meter, flush.since, flush.until)))
  {
    hide Step, Deferred, PeriodUsage, RunPasses, Foreign, AllSaw, Matching, Measures, InWindow, CoveredBy, Flushes;
    var moved := Step(s, change);
    ChangedPrice(s, change);
    RenewalMissesAllVolumeExactlyWhen(moved, op, base, [pass], flush, true, flush.meter, currency);
    var matching := Matching(flush.seen, flush.since, flush.until);
    forall i | 0 <= i < |matching| ensures FirstMeter([pass], matching[i]) == Some(pass.meter) {
      assert matching[i] in matching;
      OnePass(pass, matching[i]);
    }
  }

  lemma OnePass(pass: Pass, a: Settled)
    requires CoveredBy(pass, a)
    ensures FirstMeter([pass], a) == Some(pass.meter)
  {
    hide CoveredBy;
    assert [pass][..0] == [];
  }

  lemma ChangedPrice(s: State, op: Op)
    requires op.DoChangePlan? && Try(s, op).Ok? && !Deferred(s, op)
    ensures Step(s, op).sub.price == op.newPrice
  {
    hide RecurringAmount, Proration.Prorate, Billable;
  }

  // -- which rate is applied ------------------------------------------------------------------

  /** What a price charges for usage. */
  function Fee(p: Economics, used: int): int {
    var overage := ComputeQuota(used, p.includedUnits).overage;
    if overage > 0 && p.usageUnitAmount.Or(0) > 0
    then CappedFee(BillableBlocks(overage, BlockSize(p)) * p.usageUnitAmount.Or(0), p.usageMaxAmount) else 0
  }

  /** What a price would charge for the period being closed. */
  function Arrears(s: State, p: Economics, flush: seq<UsageEvent>): int {
    if p.usageMeter.None? then 0
    else Fee(p, PeriodUsage(InsertEvents(s.events, flush), p.usageMeter.value, s.sub.period.start, s.sub.period.end))
  }

  lemma LinesChargeArrears(s: State, p: Economics, flush: seq<UsageEvent>)
    ensures InvoiceLines.LinesTotal(MeterClosedPeriod(s, p, flush).lines) == Arrears(s, p, flush)
  {
    hide PeriodUsage, InsertEvents, UsageLines, BillableBlocks, BlockSize;
    if p.usageMeter.Some? {
      var used := PeriodUsage(InsertEvents(s.events, flush), p.usageMeter.value, s.sub.period.start, s.sub.period.end);
      UsageLinesTotal(p, UsageSnapshot(p, used), s.sub.period.start, s.sub.period.end);
    }
  }

  lemma BilledPrice(sub: Subscription, current: Option<Economics>)
    ensures BillingPrice(sub, current) == if RollsForward(sub, current) then current.value else sub.price
  {}

  /**
   * A renewal that rolls forward bills the period just closed at the new
   * version's rate. Its invoice charges the new period and the held price's fee
   * for the old one exactly when it does not roll forward, or the two versions
   * charge the same for that usage.
   */
  lemma ArrearsAtHeldRateExactlyWhen(s: State, op: Op)
    requires op.DoRenew? && |Step(s, op).invoices| > |s.invoices|
    ensures var s' := Step(s, op);
            && |s'.invoices| == |s.invoices| + 1
            && s'.invoices[|s.invoices|].total == HeldValue(s') + Arrears(s, BillingPrice(s.sub, op.current), op.flush)
            && (s'.invoices[|s.invoices|].total == HeldValue(s') + Arrears(s, s.sub.price, op.flush)
                <==> (RollsForward(s.sub, op.current) ==> Arrears(s, op.current.value, op.flush) == Arrears(s, s.sub.price, op.flush)))
  {
    hide Step, Arrears, BillingPrice, HeldValue, TotalsSince, MeterClosedPeriod, RollsForward, InvoiceLines.LinesTotal;
    BilledPrice(s.sub, op.current);
    RenewalCharges(s, op);
    UsageOfRenewalCount(s, op);
    LinesChargeArrears(s, BillingPrice(s.sub, op.current), op.flush);
    LastTotal(Step(s, op).invoices, |s.invoices|);
  }

  lemma UsageOfRenewalCount(s: State, op: Op)
    requires op.DoRenew? && |Step(s, op).invoices| > |s.invoices|
    ensures |Step(s, op).invoices| == |s.invoices| + 1
  {
    hide OpenNextPeriod, MeterClosedPeriod, BillingPrice, Billable, StatusHistory.ApplyTransition;
    UsageOfOpening(s, BillingPrice(s.sub, op.current), op.flush, op.at);
  }

  lemma LastTotal(invoices: seq<Invoice>, n: nat)
    requires |invoices| == n + 1
    ensures TotalsSince(invoices, n) == invoices[n].total
  {
    assert |invoices[..n]| == n;
  }
}
