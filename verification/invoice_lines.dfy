/** Invoice line items and the totals derived from them (packages/billing/src/invoice.ts). */
module InvoiceLines {
  import opened Basics

  datatype LineType = SUBSCRIPTION | SEAT | USAGE | OVERAGE | COUPON | CREDIT | PRORATION | TAX

  datatype Line = Line(kind: LineType, quantity: int, unitAmount: int, amount: int, periodStart: int, periodEnd: int)

  datatype Totals = Totals(subtotal: int, discountAmount: int, creditAmount: int, taxAmount: int, total: int, amountDue: int)

  function LinesTotal(lines: seq<Line>): int {
    if lines == [] then 0 else LinesTotal(lines[..|lines| - 1]) + lines[|lines| - 1].amount
  }

  function TotalOfKinds(lines: seq<Line>, kinds: set<LineType>): int {
    if lines == [] then 0
    else TotalOfKinds(lines[..|lines| - 1], kinds)
         + (if lines[|lines| - 1].kind in kinds then lines[|lines| - 1].amount else 0)
  }

  const REDUCTIONS_AND_TAX := {COUPON, CREDIT, TAX}

  /**
   * `computeTotals`: whatever way the lines split into charges, reductions and
   * tax, the total is the plain sum of the line amounts.
   */
  method ComputeTotals(lines: seq<Line>, amountPaid: int) returns (t: Totals)
    ensures t.total == LinesTotal(lines)
    ensures t.amountDue == Max(LinesTotal(lines) - amountPaid, 0)
    ensures t.discountAmount == -TotalOfKinds(lines, {COUPON})
    ensures t.creditAmount == -TotalOfKinds(lines, {CREDIT})
    ensures t.taxAmount == TotalOfKinds(lines, {TAX})
    ensures t.subtotal == t.total + t.discountAmount + t.creditAmount - t.taxAmount
  {
    var subtotal, discountAmount, creditAmount, taxAmount := 0, 0, 0, 0;
    for i := 0 to |lines|
      invariant discountAmount == -TotalOfKinds(lines[..i], {COUPON})
      invariant creditAmount == -TotalOfKinds(lines[..i], {CREDIT})
      invariant taxAmount == TotalOfKinds(lines[..i], {TAX})
      invariant subtotal - discountAmount - creditAmount + taxAmount == LinesTotal(lines[..i])
    {
      assert lines[..i + 1][..i] == lines[..i];
      var line := lines[i];
      match line.kind {
        case COUPON => discountAmount := discountAmount - line.amount;
        case CREDIT => creditAmount := creditAmount - line.amount;
        case TAX => taxAmount := taxAmount + line.amount;
        case _ => subtotal := subtotal + line.amount;
      }
    }
    assert lines[..|lines|] == lines;
    var total := subtotal - discountAmount - creditAmount + taxAmount;
    t := Totals(subtotal, discountAmount, creditAmount, taxAmount, total, Max(total - amountPaid, 0));
  }

  lemma {:induction false} LinesTotalAppend(a: seq<Line>, b: seq<Line>)
    ensures LinesTotal(a + b) == LinesTotal(a) + LinesTotal(b)
    decreases |b|
  {
    if b == [] {
      assert a + b == a;
    } else {
      var n := |b| - 1;
      assert (a + b)[..|a + b| - 1] == a + b[..n];
      LinesTotalAppend(a, b[..n]);
    }
  }
}
