/**
 * Price arithmetic: recurring charges and metered fees
 * (packages/billing/src/pricing.ts, packages/usage/src/quota.ts).
 */
module Pricing {
  import opened Basics
  import opened Money
  import opened InvoiceLines
  import opened Interval

  datatype PricingModel = FLAT_RECURRING | PER_SEAT | USAGE_METERED | HYBRID

  type MeterId = nat

  /** Every field that decides what a subscriber pays. */
  datatype Economics = Economics(
    model: PricingModel, currency: Currency, unitAmount: Option<int>, interval: BillingInterval,
    usageMeter: Option<MeterId>, usageUnitAmount: Option<int>, usageUnitSize: Option<int>,
    includedUnits: Option<int>, usageMaxAmount: Option<int>)

  /** `assertBillablePriceModel`. */
  predicate Billable(p: Economics) {
    && (p.model in {USAGE_METERED, HYBRID} ==> p.usageMeter.Some?)
    && (p.model == USAGE_METERED ==> p.usageUnitAmount.Some? && p.usageUnitAmount.value != 0)
  }

  function RequireUnitAmount(p: Economics): Result<int> {
    if p.unitAmount.Some? then Ok(p.unitAmount.value) else Err(InvalidRequest)
  }

  /** `recurringAmount`: the charge for one full period. */
  function RecurringAmount(p: Economics, quantity: int): Result<int> {
    match p.model
    case FLAT_RECURRING => RequireUnitAmount(p)
    case HYBRID => RequireUnitAmount(p)
    case PER_SEAT => var unit :- RequireUnitAmount(p); MultiplyMoney(unit, quantity)
    case USAGE_METERED => Ok(0)
  }

  /** `buildRecurringLines`. */
  function RecurringLines(p: Economics, quantity: int, periodStart: int, periodEnd: int): Result<seq<Line>> {
    match p.model
    case USAGE_METERED => Ok([])
    case PER_SEAT =>
      var unit :- RequireUnitAmount(p);
      var amount :- MultiplyMoney(unit, quantity);
      Ok([Line(SEAT, quantity, unit, amount, periodStart, periodEnd)])
    case _ =>
      var unit :- RequireUnitAmount(p);
      Ok([Line(SUBSCRIPTION, 1, unit, unit, periodStart, periodEnd)])
  }

  /** The recurring lines of an invoice add up to the recurring amount, and fail when it fails. */
  lemma RecurringLinesTotal(p: Economics, quantity: int, periodStart: int, periodEnd: int)
    ensures RecurringLines(p, quantity, periodStart, periodEnd).Ok? == RecurringAmount(p, quantity).Ok?
    ensures RecurringAmount(p, quantity).Ok? ==>
              LinesTotal(RecurringLines(p, quantity, periodStart, periodEnd).value) == RecurringAmount(p, quantity).value
  {
    var lines := RecurringLines(p, quantity, periodStart, periodEnd);
    if lines.Ok? && lines.value != [] {
      assert lines.value[..0] == [];
      assert LinesTotal(lines.value) == LinesTotal(lines.value[..0]) + lines.value[0].amount;
    }
  }

  // -- metered usage --------------------------------------------------------------

  datatype Quota = Quota(used: int, included: int, remaining: int, overage: int, exhausted: bool)

  function ComputeQuota(used: int, includedUnits: Option<int>): Quota {
    var included := Max(includedUnits.Or(0), 0);
    var consumed := Max(used, 0);
    Quota(consumed, included, Max(included - consumed, 0), Max(consumed - included, 0), consumed >= included)
  }

  function BlockSize(p: Economics): (size: int)
    ensures size >= 1
  {
    Max(p.usageUnitSize.Or(1), 1)
  }

  /** `billableBlocks`: a started block is charged in full. */
  function BillableBlocks(overage: int, size: int): int
    requires size >= 1
  {
    if overage <= 0 then 0 else (overage + size - 1) / size
  }

  /** The money side of `getUsageSnapshot`: what the dashboard quotes for a period. */
  datatype Snapshot = Snapshot(quota: Quota, overageBlocks: int, overageAmount: Option<int>,
                               uncappedOverageAmount: Option<int>, capApplied: bool)

  function UsageSnapshot(p: Economics, used: int): Snapshot {
    var quota := ComputeQuota(used, p.includedUnits);
    var blocks := BillableBlocks(quota.overage, BlockSize(p));
    if p.usageUnitAmount.None? then Snapshot(quota, blocks, None, None, false)
    else
      var uncapped := blocks * p.usageUnitAmount.value;
      var charged := CappedFee(uncapped, p.usageMaxAmount);
      Snapshot(quota, blocks, Some(charged), Some(uncapped), charged < uncapped)
  }

  /** The lines `buildUsageLines` issues for a closed period with this snapshot. */
  function UsageLines(p: Economics, s: Snapshot, periodStart: int, periodEnd: int): seq<Line> {
    var rate := p.usageUnitAmount.Or(0);
    var uncapped := s.overageBlocks * rate;
    var charged := CappedFee(uncapped, p.usageMaxAmount);
    (if s.quota.included > 0
     then [Line(USAGE, Min(s.quota.used, s.quota.included), 0, 0, periodStart, periodEnd)] else [])
    + (if s.quota.overage > 0 && rate > 0
       then [if charged < uncapped then Line(OVERAGE, 1, charged, charged, periodStart, periodEnd)
             else Line(OVERAGE, s.overageBlocks, rate, charged, periodStart, periodEnd)] else [])
  }

  /** `buildUsageLines`: quantity times unit amount equals amount on every line. */
  method BuildUsageLines(p: Economics, used: int, included: int, overage: int, blocks: int, periodStart: int, periodEnd: int)
    returns (lines: seq<Line>)
    ensures forall i :: 0 <= i < |lines| ==> lines[i].quantity * lines[i].unitAmount == lines[i].amount
    ensures forall s: Snapshot {:trigger UsageLines(p, s, periodStart, periodEnd)} ::
              s.quota.used == used && s.quota.included == included && s.quota.overage == overage && s.overageBlocks == blocks
              ==> lines == UsageLines(p, s, periodStart, periodEnd)
  {
    var rate := p.usageUnitAmount.Or(0);
    var uncapped := blocks * rate;
    var charged := CappedFee(uncapped, p.usageMaxAmount);
    var capped := charged < uncapped;
    lines := [];
    if included > 0 {
      lines := lines + [Line(USAGE, Min(used, included), 0, 0, periodStart, periodEnd)];
    }
    if overage > 0 && rate > 0 {
      lines := lines + [Line(OVERAGE, if capped then 1 else blocks, if capped then charged else rate, charged, periodStart, periodEnd)];
    }
  }

  /** The charge on the lines: the capped fee, or nothing without overage or a positive rate. */
  lemma UsageLinesTotal(p: Economics, s: Snapshot, periodStart: int, periodEnd: int)
    ensures LinesTotal(UsageLines(p, s, periodStart, periodEnd))
            == if s.quota.overage > 0 && p.usageUnitAmount.Or(0) > 0
               then CappedFee(s.overageBlocks * p.usageUnitAmount.Or(0), p.usageMaxAmount) else 0
  {
    var rate := p.usageUnitAmount.Or(0);
    var uncapped := s.overageBlocks * rate;
    var charged := CappedFee(uncapped, p.usageMaxAmount);
    var a := if s.quota.included > 0 then [Line(USAGE, Min(s.quota.used, s.quota.included), 0, 0, periodStart, periodEnd)] else [];
    var b := if s.quota.overage > 0 && rate > 0
             then [if charged < uncapped then Line(OVERAGE, 1, charged, charged, periodStart, periodEnd)
                   else Line(OVERAGE, s.overageBlocks, rate, charged, periodStart, periodEnd)] else [];
    LinesTotalAppend(a, b);
    assert a != [] ==> a[..0] == [];
    assert b != [] ==> b[..0] == [];
  }

  /**
   * The invoice charges exactly what the snapshot quotes, unless the price has
   * a negative usage rate and there is overage to apply it to.
   */
  lemma InvoiceEqualsQuote(p: Economics, used: int, periodStart: int, periodEnd: int)
    ensures var s := UsageSnapshot(p, used);
            LinesTotal(UsageLines(p, s, periodStart, periodEnd)) == s.overageAmount.Or(0)
            <==> p.usageUnitAmount.Or(0) >= 0 || s.quota.overage == 0
  {
    var s := UsageSnapshot(p, used);
    var size, rate := BlockSize(p), p.usageUnitAmount.Or(0);
    UsageLinesTotal(p, s, periodStart, periodEnd);
    BlocksCover(s.quota.overage, size);
    SignOfProduct(s.overageBlocks, rate);
  }

  lemma SignOfProduct(blocks: int, rate: int)
    requires blocks >= 0
    ensures rate == 0 || blocks == 0 ==> blocks * rate == 0
    ensures rate < 0 && blocks >= 1 ==> blocks * rate < 0
  {}

  /** Blocks cover the overage and waste less than one block. */
  lemma BlocksCover(overage: int, size: int)
    requires size >= 1
    ensures var blocks := BillableBlocks(overage, size);
            && blocks >= 0
            && (overage > 0 ==> blocks >= 1 && overage <= blocks * size < overage + size)
            && (overage <= 0 ==> blocks == 0)
  {
    var n := overage + size - 1;
    assert n / size * size <= n < n / size * size + size;
  }

  /**
   * The quota adds up: what was used and what is left make what is included and
   * what is over, one of the two being nothing; and the fee is the started
   * blocks at the rate, held to the ceiling if there is one.
   */
  lemma SnapshotAddsUp(p: Economics, used: int)
    ensures var s, rate, size := UsageSnapshot(p, used), p.usageUnitAmount.Or(0), Max(p.usageUnitSize.Or(1), 1);
            var q, blocks := s.quota, s.overageBlocks;
            && q.used == Max(used, 0) && q.included == Max(p.includedUnits.Or(0), 0)
            && q.used + q.remaining == q.included + q.overage
            && q.remaining >= 0 && q.overage >= 0 && (q.remaining == 0 || q.overage == 0)
            && (q.exhausted <==> q.remaining == 0)
            && q.overage <= blocks * size < q.overage + size
            && (p.usageUnitAmount.None? ==> s.overageAmount.None? && !s.capApplied)
            && (p.usageUnitAmount.Some? ==>
                  var ceiling := Max(p.usageMaxAmount.Or(0), 0);
                  && (s.capApplied <==> p.usageMaxAmount.Some? && ceiling < blocks * rate)
                  && s.uncappedOverageAmount == Some(blocks * rate)
                  && s.overageAmount == Some(if s.capApplied then ceiling else blocks * rate))
  {
    hide BillableBlocks;
    BlocksCover(ComputeQuota(used, p.includedUnits).overage, BlockSize(p));
  }

  /** An invoice shows what was used of the allowance, free, and then the overage, if it is charged. */
  lemma UsageLinesShow(p: Economics, used: int, periodStart: int, periodEnd: int)
    ensures var s := UsageSnapshot(p, used);
            var lines, allowance := UsageLines(p, s, periodStart, periodEnd), if s.quota.included > 0 then 1 else 0;
            && |lines| == allowance + (if s.quota.overage > 0 && p.usageUnitAmount.Or(0) > 0 then 1 else 0)
            && (allowance == 1 ==> lines[0] == Line(USAGE, s.quota.used - s.quota.overage, 0, 0, periodStart, periodEnd))
            && (|lines| > allowance ==>
                  && lines[allowance].kind == OVERAGE && Some(lines[allowance].amount) == s.overageAmount
                  && (lines[allowance].quantity == 1 || (!s.capApplied && lines[allowance].quantity == s.overageBlocks)))
  {}

  lemma BlocksMonotone(overage: int, overage': int, size: int)
    requires size >= 1 && overage <= overage'
    ensures BillableBlocks(overage, size) <= BillableBlocks(overage', size)
  {
    BlocksCover(overage, size);
    BlocksCover(overage', size);
    if 0 < overage { QuotientMonotone(overage + size - 1, overage' + size - 1, size); }
  }

  lemma ProductMonotone(a: int, b: int, x: int)
    requires a <= b && 0 <= x
    ensures a * x <= b * x
  {}

  /** The quoted fee never falls as usage grows. */
  lemma FeeMonotone(p: Economics, used: int, used': int)
    requires p.usageUnitAmount.Some? && p.usageUnitAmount.value >= 0 && used <= used'
    ensures UsageSnapshot(p, used).overageAmount.value <= UsageSnapshot(p, used').overageAmount.value
  {
    hide BillableBlocks, BlockSize;
    var o, o' := ComputeQuota(used, p.includedUnits).overage, ComputeQuota(used', p.includedUnits).overage;
    BlocksMonotone(o, o', BlockSize(p));
    var b, b', rate := BillableBlocks(o, BlockSize(p)), BillableBlocks(o', BlockSize(p)), p.usageUnitAmount.value;
    ProductMonotone(b, b', rate);
  }

  /**
   * The fee is never above the ceiling, and before the ceiling it exceeds the
   * exact pro rata charge by less than the rate of one block.
   */
  lemma FeeBounds(p: Economics, used: int)
    requires p.usageUnitAmount.Some? && p.usageUnitAmount.value > 0
    ensures var s := UsageSnapshot(p, used);
            var rate, size := p.usageUnitAmount.value, BlockSize(p);
            && (p.usageMaxAmount.Some? ==> s.overageAmount.value <= Max(p.usageMaxAmount.value, 0))
            && s.overageAmount.value <= s.uncappedOverageAmount.value
            && 0 <= s.uncappedOverageAmount.value * size - s.quota.overage * rate < rate * size
  {
    hide BillableBlocks, BlockSize;
    var s := UsageSnapshot(p, used);
    BlocksCover(s.quota.overage, BlockSize(p));
    WasteBelowOneBlock(s.overageBlocks, BlockSize(p), s.quota.overage, p.usageUnitAmount.value);
  }

  lemma WasteBelowOneBlock(blocks: int, size: int, overage: int, rate: int)
    requires rate > 0 && 0 <= blocks * size - overage < size
    ensures 0 <= blocks * rate * size - overage * rate < rate * size
  {
    var waste := blocks * size - overage;
    assert blocks * rate * size == (waste + overage) * rate;
    assert (waste + overage) * rate == waste * rate + overage * rate;
    assert waste * rate <= (size - 1) * rate;
  }
}
