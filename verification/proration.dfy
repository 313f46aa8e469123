/** Mid-period plan and seat changes (packages/billing/src/proration.ts). */
module Proration {
  import opened Basics
  import opened Money
  import opened InvoiceLines

  datatype Cash = Cash(amount: int, currency: Currency)

  datatype ProrationResult = ProrationResult(
    remainingMs: int, totalMs: int, unusedCredit: int, newPeriodCharge: int, netAmount: int, lines: seq<Line>)

  /** Milliseconds of the period still to run, clamped to the period. */
  function Remaining(periodStart: int, periodEnd: int, changeAt: int): int {
    Min(Max(periodEnd - changeAt, 0), periodEnd - periodStart)
  }

  /** The unused or remaining part of a full-period amount. */
  function Part(amount: int, remaining: int, total: int): int
    requires total > 0
  {
    Rounded(amount * remaining, total, HALF_UP)
  }

  function ProrationLine(quantity: int, unitAmount: int, amount: int, changeAt: int, periodEnd: int): Line {
    Line(PRORATION, quantity, unitAmount, amount, changeAt, periodEnd)
  }

  /** A credit line and a charge line, zero lines omitted. */
  function ProrationLines(credit: int, charge: int, changeAt: int, periodEnd: int): seq<Line> {
    (if credit != 0 then [ProrationLine(1, -credit, -credit, changeAt, periodEnd)] else [])
    + (if charge != 0 then [ProrationLine(1, charge, charge, changeAt, periodEnd)] else [])
  }

  function Prorate(periodStart: int, periodEnd: int, changeAt: int, current: Cash, new_: Cash): Result<ProrationResult> {
    if current.currency != new_.currency then Err(CurrencyMismatch)
    else if periodEnd - periodStart <= 0 then Err(InvalidRequest)
    else
      var total := periodEnd - periodStart;
      var remaining := Remaining(periodStart, periodEnd, changeAt);
      var credit :- ScaleMoney(current.amount, remaining, total, HALF_UP);
      var charge :- ScaleMoney(new_.amount, remaining, total, HALF_UP);
      Ok(ProrationResult(remaining, total, credit, charge, charge - credit,
                         ProrationLines(credit, charge, changeAt, periodEnd)))
  }

  /** `calculateProration`, pushing its lines as it goes. */
  method CalculateProration(periodStart: int, periodEnd: int, changeAt: int, current: Cash, new_: Cash)
    returns (r: Result<ProrationResult>)
    ensures r == Prorate(periodStart, periodEnd, changeAt, current, new_)
    ensures r.Ok? ==> LinesTotal(r.value.lines) == r.value.netAmount
  {
    hide ScaleMoney, LinesTotal;
    if current.currency != new_.currency { return Err(CurrencyMismatch); }
    var totalMs := periodEnd - periodStart;
    if totalMs <= 0 { return Err(InvalidRequest); }
    var remainingMs := Min(Max(periodEnd - changeAt, 0), totalMs);
    var credit := ScaleMoney(current.amount, remainingMs, totalMs, HALF_UP);
    if credit.Err? { return Err(credit.error); }
    var charge := ScaleMoney(new_.amount, remainingMs, totalMs, HALF_UP);
    if charge.Err? { return Err(charge.error); }
    var lines := [];
    if credit.value != 0 {
      lines := lines + [ProrationLine(1, -credit.value, -credit.value, changeAt, periodEnd)];
    }
    if charge.value != 0 {
      lines := lines + [ProrationLine(1, charge.value, charge.value, changeAt, periodEnd)];
    }
    assert lines == ProrationLines(credit.value, charge.value, changeAt, periodEnd);
    ProrationLinesTotal(credit.value, charge.value, changeAt, periodEnd);
    r := Ok(ProrationResult(remainingMs, totalMs, credit.value, charge.value, charge.value - credit.value, lines));
  }

  lemma ProrationLinesTotal(credit: int, charge: int, changeAt: int, periodEnd: int)
    ensures LinesTotal(ProrationLines(credit, charge, changeAt, periodEnd)) == charge - credit
  {
    var a := if credit != 0 then [ProrationLine(1, -credit, -credit, changeAt, periodEnd)] else [];
    var b := if charge != 0 then [ProrationLine(1, charge, charge, changeAt, periodEnd)] else [];
    LinesTotalAppend(a, b);
  }

  /** `scaleUnit`: Math.round of a share, halves towards positive infinity. */
  function ScaleUnit(total: int, quantity: int): int {
    if quantity <= 0 then 0 else (2 * total + quantity) / (2 * quantity)
  }

  /** `calculateSeatProration`: only the seats added or removed are prorated. */
  function ProrateSeats(periodStart: int, periodEnd: int, changeAt: int, unit: Cash, from: int, to: int): Result<ProrationResult> {
    var delta := to - from;
    var base :- Prorate(periodStart, periodEnd, changeAt, Cash(0, unit.currency), Cash(unit.amount * Abs(delta), unit.currency));
    if delta == 0 then
      Ok(base.(unusedCredit := 0, newPeriodCharge := 0, netAmount := 0, lines := []))
    else
      var magnitude := base.newPeriodCharge;
      var signed := if delta > 0 then magnitude else -magnitude;
      var perSeat := ScaleUnit(magnitude, Abs(delta));
      Ok(base.(unusedCredit := if delta > 0 then 0 else magnitude,
               newPeriodCharge := if delta > 0 then magnitude else 0,
               netAmount := signed,
               lines := [ProrationLine(Abs(delta), if delta > 0 then perSeat else -perSeat, signed, changeAt, periodEnd)]))
  }

  // -- one change -----------------------------------------------------------------

  lemma RemainingWithin(periodStart: int, periodEnd: int, changeAt: int)
    requires periodStart < periodEnd
    ensures 0 <= Remaining(periodStart, periodEnd, changeAt) <= periodEnd - periodStart
  {}

  /** A dearer (or equal) plan never nets a credit, a cheaper one never a charge. */
  lemma UpgradeNeverCredits(periodStart: int, periodEnd: int, changeAt: int, current: Cash, new_: Cash)
    requires Prorate(periodStart, periodEnd, changeAt, current, new_).Ok?
    ensures var net := Prorate(periodStart, periodEnd, changeAt, current, new_).value.netAmount;
            && (new_.amount >= current.amount ==> net >= 0)
            && (new_.amount <= current.amount ==> net <= 0)
  {
    var total, rem := periodEnd - periodStart, Remaining(periodStart, periodEnd, changeAt);
    RemainingWithin(periodStart, periodEnd, changeAt);
    if new_.amount >= current.amount {
      ProductMonotone(current.amount, new_.amount, rem);
      HalfUpMonotone(current.amount * rem, new_.amount * rem, total);
    }
    if new_.amount <= current.amount {
      ProductMonotone(new_.amount, current.amount, rem);
      HalfUpMonotone(new_.amount * rem, current.amount * rem, total);
    }
  }

  lemma ProductMonotone(a: int, b: int, x: int)
    requires a <= b && 0 <= x
    ensures a * x <= b * x
  {}

  /**
   * What a change shows on the invoice: the unused time of the old price given
   * back, then the remaining time of the new one charged, a line for each that
   * is not nothing, for the time from the change to the period's end.
   */
  lemma ChangeLinesShow(periodStart: int, periodEnd: int, changeAt: int, current: Cash, new_: Cash)
    requires Prorate(periodStart, periodEnd, changeAt, current, new_).Ok?
    ensures var r := Prorate(periodStart, periodEnd, changeAt, current, new_).value;
            && r.lines == (if r.unusedCredit == 0 then [] else [Line(PRORATION, 1, -r.unusedCredit, -r.unusedCredit, changeAt, periodEnd)])
                          + (if r.newPeriodCharge == 0 then [] else [Line(PRORATION, 1, r.newPeriodCharge, r.newPeriodCharge, changeAt, periodEnd)])
            && 2 * Abs(r.unusedCredit * r.totalMs - current.amount * r.remainingMs) <= r.totalMs
            && 2 * Abs(r.newPeriodCharge * r.totalMs - new_.amount * r.remainingMs) <= r.totalMs
            && r.totalMs == periodEnd - periodStart && r.netAmount == r.newPeriodCharge - r.unusedCredit
            && r.remainingMs == (if changeAt <= periodStart then r.totalMs else if changeAt >= periodEnd then 0 else periodEnd - changeAt)
  {
    hide Rounded;
    var total, remaining := periodEnd - periodStart, Remaining(periodStart, periodEnd, changeAt);
    HalfUpError(current.amount * remaining, total);
    HalfUpError(new_.amount * remaining, total);
  }

  /** Switching and switching back at one instant leaves nothing owed. */
  lemma ThereAndBackIsFree(periodStart: int, periodEnd: int, changeAt: int, a: Cash, b: Cash)
    requires Prorate(periodStart, periodEnd, changeAt, a, b).Ok?
    ensures Prorate(periodStart, periodEnd, changeAt, b, a).Ok?
    ensures Prorate(periodStart, periodEnd, changeAt, a, b).value.netAmount
            + Prorate(periodStart, periodEnd, changeAt, b, a).value.netAmount == 0
  {}

  /** A per-seat price rounded from the line's amount is within half a unit per seat of it. */
  lemma ScaleUnitWithin(total: int, quantity: int)
    requires quantity > 0
    ensures 2 * Abs(ScaleUnit(total, quantity) * quantity - total) <= quantity
  {
    var n, d, q := 2 * total + quantity, 2 * quantity, ScaleUnit(total, quantity);
    assert q * d <= n < q * d + d;
    assert q * d == 2 * (q * quantity);
  }

  /**
   * Seat changes bill one line for the seats that differ: it carries the net
   * amount, its per-seat price is as close as whole units allow, and taking the
   * same seats away again nets exactly the opposite.
   */
  lemma SeatChangesMirror(periodStart: int, periodEnd: int, changeAt: int, unit: Cash, from: int, to: int)
    requires from != to && ProrateSeats(periodStart, periodEnd, changeAt, unit, from, to).Ok?
    ensures var back := ProrateSeats(periodStart, periodEnd, changeAt, unit, to, from);
            var there := ProrateSeats(periodStart, periodEnd, changeAt, unit, from, to).value;
            && back.Ok? && back.value.netAmount == -there.netAmount
            && LinesTotal(there.lines) == there.netAmount
            && |there.lines| == 1 && there.lines[0].quantity == Abs(to - from)
            && 2 * Abs(there.lines[0].quantity * there.lines[0].unitAmount - there.netAmount) <= there.lines[0].quantity
            && (unit.amount >= 0 && from < to ==> there.netAmount >= 0)
  {
    hide Rounded;
    var seats: int := Abs(to - from);
    assert Abs(from - to) == seats;
    var base := Prorate(periodStart, periodEnd, changeAt, Cash(0, unit.currency), Cash(unit.amount * seats, unit.currency)).value;
    var there := ProrateSeats(periodStart, periodEnd, changeAt, unit, from, to).value;
    ScaleUnitWithin(base.newPeriodCharge, seats);
    assert there.lines[..0] == [] && LinesTotal(there.lines) == LinesTotal(there.lines[..0]) + there.lines[0].amount;
    Swap(ScaleUnit(base.newPeriodCharge, seats), seats);
    if unit.amount >= 0 { SeatChargeIsPositive(periodStart, periodEnd, changeAt, unit, seats); }
  }

  lemma Swap(a: int, b: int)
    ensures a * b == b * a && b * -a == -(a * b)
  {}

  lemma SeatChargeIsPositive(periodStart: int, periodEnd: int, changeAt: int, unit: Cash, seats: nat)
    requires unit.amount >= 0
    requires Prorate(periodStart, periodEnd, changeAt, Cash(0, unit.currency), Cash(unit.amount * seats, unit.currency)).Ok?
    ensures Prorate(periodStart, periodEnd, changeAt, Cash(0, unit.currency), Cash(unit.amount * seats, unit.currency)).value.newPeriodCharge >= 0
  {
    RemainingWithin(periodStart, periodEnd, changeAt);
    var total, rem := periodEnd - periodStart, Remaining(periodStart, periodEnd, changeAt);
    ProductMonotone(0, unit.amount, seats);
    ProductMonotone(0, unit.amount * seats, rem);
    HalfUpMonotone(0, unit.amount * seats * rem, total);
  }

  // -- many changes ---------------------------------------------------------------

  /** A change of the full-period amount: a new plan, or more seats on the same one. */
  datatype Change = ToPlan(at: int, newAmount: int) | ToSeats(at: int, newAmount: int)

  /** What one change invoices, given the amount held before it. */
  function NetOf(periodStart: int, periodEnd: int, held: int, change: Change): int
    requires periodStart < periodEnd
  {
    var total, rem := periodEnd - periodStart, Remaining(periodStart, periodEnd, change.at);
    match change
    case ToPlan(_, new_) => Part(new_, rem, total) - Part(held, rem, total)
    case ToSeats(_, new_) => Part(new_ - held, rem, total)
  }

  /** What all changes together invoice. */
  function Invoiced(periodStart: int, periodEnd: int, held: int, changes: seq<Change>): int
    requires periodStart < periodEnd
    decreases |changes|
  {
    if changes == [] then 0
    else NetOf(periodStart, periodEnd, held, changes[0])
         + Invoiced(periodStart, periodEnd, changes[0].newAmount, changes[1..])
  }

  /** The changes happen inside the period, one after the other, from `since` on. */
  predicate InOrder(since: int, periodEnd: int, changes: seq<Change>)
    decreases |changes|
  {
    if changes == [] then since <= periodEnd
    else since <= changes[0].at && InOrder(changes[0].at, periodEnd, changes[1..])
  }

  /** Amount-milliseconds: each amount held, times how long it was held. */
  function TimeWeighted(since: int, periodEnd: int, held: int, changes: seq<Change>): int
    decreases |changes|
  {
    if changes == [] then held * (periodEnd - since)
    else held * (changes[0].at - since)
         + TimeWeighted(changes[0].at, periodEnd, changes[0].newAmount, changes[1..])
  }

  lemma TwoRoundings(total: int, x: int, y: int, a: int, b: int)
    requires 2 * Abs(a * total - x) <= total && 2 * Abs(b * total - y) <= total
    ensures Abs(total * (a - b) - (x - y)) <= total
  {
    assert total * (a - b) == a * total - b * total;
  }

  lemma OneChangeError(periodStart: int, periodEnd: int, held: int, change: Change)
    requires periodStart < periodEnd && periodStart <= change.at <= periodEnd
    ensures var total := periodEnd - periodStart;
            Abs(total * NetOf(periodStart, periodEnd, held, change)
                - (change.newAmount - held) * (periodEnd - change.at)) <= total
  {
    hide Rounded;
    var total, rem, new_ := periodEnd - periodStart, periodEnd - change.at, change.newAmount;
    assert Remaining(periodStart, periodEnd, change.at) == rem;
    if change.ToPlan? {
      HalfUpError(new_ * rem, total);
      HalfUpError(held * rem, total);
      TwoRoundings(total, new_ * rem, held * rem, Part(new_, rem, total), Part(held, rem, total));
      assert (new_ - held) * rem == new_ * rem - held * rem;
    } else {
      HalfUpError((new_ - held) * rem, total);
      TwoRoundings(total, (new_ - held) * rem, 0, Part(new_ - held, rem, total), 0);
    }
  }

  lemma InOrderEnds(since: int, periodEnd: int, changes: seq<Change>)
    requires InOrder(since, periodEnd, changes)
    ensures since <= periodEnd
    decreases |changes|
  {
    if changes != [] { InOrderEnds(changes[0].at, periodEnd, changes[1..]); }
  }

  lemma {:induction false} InvoicedError(periodStart: int, periodEnd: int, since: int, held: int, changes: seq<Change>)
    requires periodStart < periodEnd && periodStart <= since && InOrder(since, periodEnd, changes)
    ensures var total := periodEnd - periodStart;
            Abs(total * Invoiced(periodStart, periodEnd, held, changes)
                - (TimeWeighted(since, periodEnd, held, changes) - held * (periodEnd - since))) <= |changes| * total
    decreases |changes|
  {
    if changes != [] {
      var c, rest, total := changes[0], changes[1..], periodEnd - periodStart;
      InOrderEnds(c.at, periodEnd, rest);
      OneChangeError(periodStart, periodEnd, held, c);
      InvoicedError(periodStart, periodEnd, c.at, c.newAmount, rest);
      InvoicedErrorStep(total, NetOf(periodStart, periodEnd, held, c), Invoiced(periodStart, periodEnd, c.newAmount, rest),
                        TimeWeighted(c.at, periodEnd, c.newAmount, rest), held, c.newAmount, since, c.at, periodEnd, |rest|);
    }
  }

  lemma InvoicedErrorStep(total: int, net: int, later: int, weighted: int, held: int, new_: int,
                          since: int, at: int, end: int, n: nat)
    requires total > 0
    requires Abs(total * net - (new_ - held) * (end - at)) <= total
    requires Abs(total * later - (weighted - new_ * (end - at))) <= n * total
    ensures Abs(total * (net + later) - (held * (at - since) + weighted - held * (end - since))) <= (n + 1) * total
  {
    assert total * (net + later) == total * net + total * later;
    assert (new_ - held) * (end - at) == new_ * (end - at) - held * (end - at);
    assert held * (at - since) - held * (end - since) == -(held * (end - at));
    assert (n + 1) * total == n * total + total;
  }

  lemma Distribute(t: int, a: int, b: int)
    ensures t * (a + b) == a * t + t * b
  {}

  /**
   * Value is conserved across any number of changes in one period: the amount
   * charged up front plus everything the changes invoice differs from the
   * time-weighted value of what was held by at most one minor unit per change.
   */
  lemma ChangesConserveValue(periodStart: int, periodEnd: int, upFront: int, changes: seq<Change>)
    requires periodStart < periodEnd && InOrder(periodStart, periodEnd, changes)
    ensures var total := periodEnd - periodStart;
            Abs(total * (upFront + Invoiced(periodStart, periodEnd, upFront, changes))
                - TimeWeighted(periodStart, periodEnd, upFront, changes)) <= |changes| * total
  {
    hide Invoiced, TimeWeighted;
    InvoicedError(periodStart, periodEnd, periodStart, upFront, changes);
    Distribute(periodEnd - periodStart, upFront, Invoiced(periodStart, periodEnd, upFront, changes));
  }
}
