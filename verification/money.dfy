/**
 * Minor-unit money (packages/shared/src/money.ts): rounded rational scaling,
 * exact allocation and fee caps. BigInt arithmetic is `int`; narrowing back to a
 * safe integer is a failure result.
 */
module Money {
  import opened Basics

  datatype Currency = NGN | USD | KES | GHS | ZAR

  const MAX_SAFE: int := 9_007_199_254_740_991

  predicate Safe(x: int) { -MAX_SAFE <= x <= MAX_SAFE }

  function ToSafeNumber(x: int): Result<int> {
    if Safe(x) then Ok(x) else Err(InvalidRequest)
  }

  function Abs(x: int): nat { if x < 0 then -x else x }

  // -- rounded division ---------------------------------------------------------

  datatype RoundingMode = HALF_UP | FLOOR | CEIL

  /** Rounding of n / d for a positive d: towards -inf, towards +inf, or to nearest with ties away from zero. */
  function Rounded(n: int, d: int, mode: RoundingMode): int
    requires d > 0
  {
    match mode
    case FLOOR => n / d
    case CEIL => -((-n) / d)
    case HALF_UP => if n >= 0 then (2 * n + d) / (2 * d) else -((-2 * n + d) / (2 * d))
  }

  lemma QuotientIs(n: int, d: int, q: int)
    requires d > 0 && q * d <= n < (q + 1) * d
    ensures n / d == q
  {
    var k := n / d;
    assert k * d <= n < (k + 1) * d;
    assert k + 1 <= q ==> (k + 1) * d <= q * d;
    assert q + 1 <= k ==> (q + 1) * d <= k * d;
  }

  /** Rounding a non-negative n and its negation, from quotient and remainder. */
  lemma FlooredFromParts(n: int, d: int, q: int, rem: int)
    requires n >= 0 && d > 0 && n == q * d + rem && 0 <= rem < d
    ensures n / d == q && (-n) / d == if rem > 0 then -q - 1 else -q
  {
    assert (q + 1) * d == q * d + d;
    QuotientIs(n, d, q);
    var low := if rem > 0 then -q - 1 else -q;
    assert low * d == if rem > 0 then -(q * d) - d else -(q * d);
    assert (low + 1) * d == low * d + d;
    QuotientIs(-n, d, low);
  }

  lemma NearestFromParts(n: int, d: int, q: int, rem: int)
    requires n >= 0 && d > 0 && n == q * d + rem && 0 <= rem < d
    ensures (2 * n + d) / (2 * d) == if 2 * rem >= d then q + 1 else q
  {
    var near := if 2 * rem >= d then q + 1 else q;
    assert near * (2 * d) == if 2 * rem >= d then 2 * (q * d) + 2 * d else 2 * (q * d);
    assert (near + 1) * (2 * d) == near * (2 * d) + 2 * d;
    QuotientIs(2 * n + d, 2 * d, near);
  }

  /** What each mode makes of the magnitudes, by the sign of the quotient. */
  function SignedMagnitude(negative: bool, n: int, d: int, mode: RoundingMode): int
    requires n >= 0 && d > 0
  {
    var up := match mode
      case HALF_UP => n % d * 2 >= d
      case CEIL => !negative && n % d > 0
      case FLOOR => negative && n % d > 0;
    var magnitude := if up then n / d + 1 else n / d;
    if negative then -magnitude else magnitude
  }

  lemma SignedMagnitudeRounds(negative: bool, n: int, d: int, mode: RoundingMode)
    requires n >= 0 && d > 0
    ensures SignedMagnitude(negative, n, d, mode) == Rounded(if negative then -n else n, d, mode)
  {
    FlooredFromParts(n, d, n / d, n % d);
    NearestFromParts(n, d, n / d, n % d);
    if n == 0 { NearestFromParts(0, d, 0, 0); }
  }

  /** Sign-and-magnitude division, as the BigInt code does it. */
  method DivideRounded(numerator: int, denominator: int, mode: RoundingMode) returns (r: int)
    requires denominator != 0
    ensures r == if denominator > 0 then Rounded(numerator, denominator, mode)
                 else Rounded(-numerator, -denominator, mode)
  {
    var negative := (numerator < 0) != (denominator < 0);
    var absNum: int, absDen: int := Abs(numerator), Abs(denominator);
    ghost var signed := if denominator > 0 then numerator else -numerator;
    assert signed == (if negative then -absNum else absNum);
    var quotient, remainder := absNum / absDen, absNum % absDen;
    SignedMagnitudeRounds(negative, absNum, absDen, mode);
    hide Rounded;
    var magnitude := quotient;
    match mode {
      case HALF_UP =>
        if remainder * 2 >= absDen { magnitude := quotient + 1; }
      case CEIL =>
        if !negative && remainder > 0 { magnitude := quotient + 1; }
      case FLOOR =>
        if negative && remainder > 0 { magnitude := quotient + 1; }
    }
    r := if negative then -magnitude else magnitude;
  }

  /** Half-up is within half a unit of the exact quotient. */
  lemma HalfUpError(n: int, d: int)
    requires d > 0
    ensures 2 * Abs(Rounded(n, d, HALF_UP) * d - n) <= d
  {
    var m: int := Abs(n);
    var q, rem := m / d, m % d;
    NearestFromParts(m, d, q, rem);
    var near := if 2 * rem >= d then q + 1 else q;
    assert near * d == if 2 * rem >= d then q * d + d else q * d;
    assert (-near) * d == -(near * d);
    assert Rounded(n, d, HALF_UP) == if n >= 0 then near else -near;
  }

  lemma QuotientMonotone(a: int, b: int, d: int)
    requires d > 0 && a <= b
    ensures a / d <= b / d
  {
    var p, q := a / d, b / d;
    assert p * d <= a && b < (q + 1) * d;
    assert q + 1 <= p ==> (q + 1) * d <= p * d;
  }

  /** A larger numerator never rounds to less. */
  lemma HalfUpMonotone(n: int, n': int, d: int)
    requires d > 0 && n <= n'
    ensures Rounded(n, d, HALF_UP) <= Rounded(n', d, HALF_UP)
  {
    QuotientMonotone(2 * n + d, 2 * n' + d, 2 * d);
    QuotientMonotone(-2 * n' + d, -2 * n + d, 2 * d);
    if n < 0 <= n' {
      QuotientMonotone(0, -2 * n + d, 2 * d);
      QuotientMonotone(0, 2 * n' + d, 2 * d);
    }
  }

  /** `scaleMoney`: amount * numerator / denominator, rounded, or an error. */
  function ScaleMoney(amount: int, numerator: int, denominator: int, mode: RoundingMode): Result<int> {
    if denominator == 0 then Err(InvalidRequest)
    else ToSafeNumber(if denominator > 0 then Rounded(amount * numerator, denominator, mode)
                      else Rounded(-(amount * numerator), -denominator, mode))
  }

  /** `multiplyMoney`: exact, unless the product leaves the safe range. */
  function MultiplyMoney(amount: int, quantity: int): Result<int> { ToSafeNumber(amount * quantity) }

  // -- allocation ---------------------------------------------------------------

  function Sum(xs: seq<int>): int {
    if xs == [] then 0 else Sum(xs[..|xs| - 1]) + xs[|xs| - 1]
  }

  lemma {:induction false} SumUpdate(xs: seq<int>, i: nat, x: int)
    requires i < |xs|
    ensures Sum(xs[i := x]) == Sum(xs) - xs[i] + x
    decreases |xs|
  {
    var n := |xs| - 1;
    assert xs[i := x][..n] == if i < n then xs[..n][i := x] else xs[..n];
    if i < n { SumUpdate(xs[..n], i, x); }
  }

  /** Index i is served before index j: larger weight first, ties in list order. */
  predicate Before(w: seq<int>, i: nat, j: nat)
    requires i < |w| && j < |w|
  {
    w[i] > w[j] || (w[i] == w[j] && i < j)
  }

  /** `order` lists the indices below k, each once, in serving order. */
  ghost predicate IsOrder(w: seq<int>, order: seq<nat>, k: nat)
    requires k <= |w|
  {
    && |order| == k
    && (forall p :: 0 <= p < k ==> order[p] < k)
    && (forall i :: 0 <= i < k ==> i in order)
    && (forall p, q :: 0 <= p < q < k ==> Before(w, order[p], order[q]))
  }

  /** Stable sort of the indices by descending weight, as an insertion sort. */
  method SortByWeight(w: seq<int>) returns (order: seq<nat>)
    ensures IsOrder(w, order, |w|)
  {
    order := [];
    for k := 0 to |w|
      invariant IsOrder(w, order, k)
    {
      var at := 0;
      while at < k && w[order[at]] >= w[k]
        invariant 0 <= at <= k
        invariant forall p :: 0 <= p < at ==> Before(w, order[p], k)
      {
        at := at + 1;
      }
      InsertedIsOrder(w, order, k, at);
      order := order[..at] + [k] + order[at..];
    }
  }

  lemma InsertedIsOrder(w: seq<int>, order: seq<nat>, k: nat, at: nat)
    requires k < |w| && IsOrder(w, order, k) && at <= k
    requires forall p :: 0 <= p < at ==> Before(w, order[p], k)
    requires at < k ==> w[order[at]] < w[k]
    ensures IsOrder(w, order[..at] + [k] + order[at..], k + 1)
  {
    var longer := order[..at] + [k] + order[at..];
    InsertedIsComplete(w, order, k, at);
    forall p, q | 0 <= p < q < k + 1 ensures Before(w, longer[p], longer[q]) {
      var p', q' := if p < at then p else p - 1, if q < at then q else q - 1;
      if p == at {
        assert longer[q] == order[q'] && at <= q';
        if at < q' { assert Before(w, order[at], order[q']); }
      } else if q == at {
        assert Before(w, order[p'], k);
      } else {
        assert Before(w, order[p'], order[q']);
      }
    }
  }

  lemma InsertedIsComplete(w: seq<int>, order: seq<nat>, k: nat, at: nat)
    requires k < |w| && IsOrder(w, order, k) && at <= k
    ensures var longer := order[..at] + [k] + order[at..];
            && (forall p :: 0 <= p < k + 1 ==> longer[p] < k + 1)
            && (forall i :: 0 <= i < k + 1 ==> i in longer)
  {
    var longer := order[..at] + [k] + order[at..];
    forall i | 0 <= i < k + 1 ensures i in longer {
      if i < k {
        assert i in order;
        var p: nat :| p < |order| && order[p] == i;
        assert longer[if p < at then p else p + 1] == i;
      } else {
        assert longer[at] == i;
      }
    }
  }

  /** The floor of each party's exact share. */
  function FloorShares(amount: int, w: seq<int>, total: int): (shares: seq<int>)
    requires total > 0
    ensures |shares| == |w| && forall i :: 0 <= i < |w| ==> shares[i] == Rounded(amount * w[i], total, FLOOR)
  {
    seq(|w|, i requires 0 <= i < |w| => Rounded(amount * w[i], total, FLOOR))
  }

  /** How many of the first weights are not zero. */
  function NonZero(w: seq<int>): nat {
    if w == [] then 0 else NonZero(w[..|w| - 1]) + (if w[|w| - 1] != 0 then 1 else 0)
  }

  /** The floors lose less than one unit for each party with a weight. */
  lemma {:induction false} FloorLoss(amount: int, w: seq<int>, total: int)
    requires total > 0
    ensures var loss := amount * Sum(w) - total * Sum(FloorShares(amount, w, total));
            0 <= loss <= (total - 1) * NonZero(w)
    decreases |w|
  {
    if w != [] {
      var n := |w| - 1;
      var shares := FloorShares(amount, w, total);
      assert shares[..n] == FloorShares(amount, w[..n], total);
      FloorLoss(amount, w[..n], total);
      hide Rounded;
      FloorLossStep(amount, w[n], total, Sum(w[..n]), Sum(shares[..n]), NonZero(w[..n]));
    }
  }

  lemma FloorLossStep(amount: int, wn: int, total: int, sumW: int, sumShares: int, parties: nat)
    requires total > 0 && 0 <= amount * sumW - total * sumShares <= (total - 1) * parties
    ensures var share := Rounded(amount * wn, total, FLOOR);
            0 <= amount * (sumW + wn) - total * (sumShares + share)
              <= (total - 1) * (parties + (if wn != 0 then 1 else 0))
  {
    var product := amount * wn;
    var share := product / total;
    assert 0 <= product - total * share < total;
    assert amount * (sumW + wn) == amount * sumW + product;
    assert total * (sumShares + share) == total * sumShares + total * share;
    assert (total - 1) * (parties + 1) == (total - 1) * parties + (total - 1);
  }

  /** What is left over after the floors: never negative, and fewer units than weighted parties. */
  lemma LeftoverBound(amount: int, w: seq<int>)
    requires Sum(w) > 0
    ensures 0 <= amount - Sum(FloorShares(amount, w, Sum(w))) < NonZero(w) <= |w|
  {
    hide Sum, FloorShares, NonZero;
    var total, given := Sum(w), Sum(FloorShares(amount, w, Sum(w)));
    FloorLoss(amount, w, total);
    NonZeroAtMost(w);
    SomeWeight(w);
    assert total * (amount - given) == amount * total - total * given;
    LossInUnits(total, amount - given, NonZero(w));
  }

  lemma LossInUnits(total: int, left: int, parties: nat)
    requires total > 0 && 0 <= total * left <= (total - 1) * parties
    ensures 0 <= left && (parties > 0 ==> left < parties)
  {
    assert left >= parties ==> total * left >= total * parties;
  }

  lemma {:induction false} NonZeroAtMost(w: seq<int>)
    ensures NonZero(w) <= |w|
    decreases |w|
  {
    if w != [] { NonZeroAtMost(w[..|w| - 1]); }
  }

  lemma {:induction false} SomeWeight(w: seq<int>)
    requires Sum(w) != 0
    ensures NonZero(w) > 0
    decreases |w|
  {
    if w[|w| - 1] == 0 { SomeWeight(w[..|w| - 1]); }
  }

  ghost function Elements(xs: seq<nat>): set<int> { set x: int | x in xs }

  ghost function Weighted(w: seq<int>): set<int> { set i: int | 0 <= i < |w| && w[i] != 0 }

  lemma {:induction false} ElementsSize(xs: seq<nat>)
    ensures |Elements(xs)| <= |xs|
    decreases |xs|
  {
    if xs != [] {
      var n := |xs| - 1;
      ElementsSize(xs[..n]);
      assert Elements(xs) == Elements(xs[..n]) + {xs[n]};
    }
  }

  lemma {:induction false} WeightedSize(w: seq<int>)
    ensures |Weighted(w)| == NonZero(w)
    decreases |w|
  {
    if w != [] {
      var n := |w| - 1;
      WeightedSize(w[..n]);
      assert Weighted(w) == Weighted(w[..n]) + (if w[n] != 0 then {n} else {});
    }
  }

  lemma {:induction false} SubsetSize<T>(a: set<T>, b: set<T>)
    requires a <= b
    ensures |a| <= |b|
    decreases |a|
  {
    if |a| > 0 {
      var x: T :| x in a;
      assert |a - {x}| < |a|;
      SubsetSize(a - {x}, b - {x});
    }
  }

  /** With no negative weight, as many parties as have a weight come first in the order. */
  lemma WeightedComeFirst(w: seq<int>, order: seq<nat>, p: nat)
    requires IsOrder(w, order, |w|) && (forall i :: 0 <= i < |w| ==> w[i] >= 0)
    requires p < NonZero(w) && p < |w|
    ensures w[order[p]] > 0
  {
    if w[order[p]] == 0 {
      forall i | i in Weighted(w) ensures i in Elements(order[..p]) {
        assert i in order;
        var q: nat :| q < |order| && order[q] == i;
        if q >= p { assert false; }
        assert order[..p][q] == i;
      }
      ElementsSize(order[..p]);
      WeightedSize(w);
      SubsetSize(Weighted(w), Elements(order[..p]));
      assert false;
    }
  }

  /** The share of party i once the first `served` parties of the order had one unit more. */
  ghost predicate Handed(shares: seq<int>, floors: seq<int>, order: seq<nat>, served: nat)
    requires served <= |order|
  {
    && |shares| == |floors|
    && forall i: nat :: i < |floors| ==> shares[i] == floors[i] + (if i in order[..served] then 1 else 0)
  }

  /** What `allocate` promises of its shares. */
  ghost predicate FairShares(amount: int, w: seq<int>, floors: seq<int>, shares: seq<int>)
    requires |floors| == |w|
  {
    && |shares| == |w|
    && Sum(shares) == amount
    && (forall i :: 0 <= i < |w| ==> floors[i] <= shares[i] <= floors[i] + 1)
    && (forall i: nat, j: nat :: i < |w| && j < |w| && Before(w, i, j) && shares[j] > floors[j] ==> shares[i] > floors[i])
    && ((forall i :: 0 <= i < |w| ==> w[i] >= 0) ==> forall i :: 0 <= i < |w| && w[i] == 0 ==> shares[i] == 0)
  }

  ghost predicate AllSafe(xs: seq<int>) { forall i :: 0 <= i < |xs| ==> Safe(xs[i]) }

  method TotalWeight(w: seq<int>) returns (total: int)
    ensures total == Sum(w)
  {
    total := 0;
    for i := 0 to |w|
      invariant total == Sum(w[..i])
    {
      assert w[..i + 1][..i] == w[..i];
      total := total + w[i];
    }
    assert w[..|w|] == w;
  }

  /** The first loop: each party's floor share, and their sum. */
  method FloorPass(amount: int, w: seq<int>, total: int) returns (r: Result<seq<int>>, sum: int)
    requires total > 0
    ensures r.Ok? <==> AllSafe(FloorShares(amount, w, total))
    ensures r.Ok? ==> r.value == FloorShares(amount, w, total) && sum == Sum(r.value)
    ensures r.Err? ==> r.error == InvalidRequest
  {
    hide Rounded;
    ghost var floors := FloorShares(amount, w, total);
    var shares: seq<int> := [];
    sum := 0;
    for i := 0 to |w|
      invariant shares == floors[..i] && sum == Sum(shares)
      invariant forall k :: 0 <= k < i ==> Safe(floors[k])
    {
      var share := DivideRounded(amount * w[i], total, FLOOR);
      if !Safe(share) { return Err(InvalidRequest), sum; }
      assert (shares + [share])[..i] == shares;
      shares := shares + [share];
      sum := sum + share;
    }
    assert floors[..|w|] == floors;
    r := Ok(shares);
  }

  /**
   * `allocate`: shares that add up to the amount exactly, each its floor share
   * or one unit more, the extra units going to the largest weights first and
   * never to a party without a weight.
   */
  method Allocate(amount: int, w: seq<int>) returns (r: Result<seq<int>>)
    ensures w == [] ==> r == Ok([])
    ensures w != [] && Sum(w) <= 0 ==> r == Err(InvalidRequest)
    ensures w != [] && Sum(w) > 0 ==>
              var floors := FloorShares(amount, w, Sum(w));
              && (r.Ok? <==> AllSafe(floors))
              && (r.Ok? ==> FairShares(amount, w, floors, r.value))
  {
    hide FairShares, FloorShares, AllSafe, NonZero;
    if w == [] { return Ok([]); }
    var totalWeight := TotalWeight(w);
    if totalWeight <= 0 { return Err(InvalidRequest); }
    var floored, sum := FloorPass(amount, w, totalWeight);
    if floored.Err? { return Err(floored.error); }

    ghost var floors := FloorShares(amount, w, totalWeight);
    var shares := floored.value;
    var remainder := amount - sum;
    LeftoverBound(amount, w);
    var order := SortByWeight(w);
    var cursor := 0;
    while remainder != 0
      invariant 0 <= cursor && 0 <= remainder && cursor + remainder < NonZero(w) <= |w|
      invariant Handed(shares, floors, order, cursor)
      invariant Sum(shares) + remainder == amount
      decreases remainder
    {
      HandOne(w, shares, floors, order, cursor);
      var target := order[cursor % |order|];
      SumUpdate(shares, target, shares[target] + 1);
      shares := shares[target := shares[target] + 1];
      remainder := remainder - 1;
      cursor := cursor + 1;
    }
    HandedIsFair(amount, w, shares, floors, order, cursor);
    r := Ok(shares);
  }

  lemma HandedIsFair(amount: int, w: seq<int>, shares: seq<int>, floors: seq<int>, order: seq<nat>, cursor: nat)
    requires Sum(w) > 0 && floors == FloorShares(amount, w, Sum(w)) && Sum(shares) == amount
    requires IsOrder(w, order, |w|) && cursor < NonZero(w) <= |w|
    requires Handed(shares, floors, order, cursor)
    ensures FairShares(amount, w, floors, shares)
  {
    HandedInOrder(w, shares, floors, order, cursor);
    if forall i :: 0 <= i < |w| ==> w[i] >= 0 {
      ZeroWeightGetsNothing(amount, w, shares, floors, order, cursor);
    }
  }

  lemma HandOne(w: seq<int>, shares: seq<int>, floors: seq<int>, order: seq<nat>, cursor: nat)
    requires IsOrder(w, order, |w|) && |floors| == |w| && cursor < |w|
    requires Handed(shares, floors, order, cursor)
    ensures cursor % |order| == cursor && order[cursor] < |shares|
    ensures Handed(shares[order[cursor] := shares[order[cursor]] + 1], floors, order, cursor + 1)
  {
    assert order[..cursor + 1] == order[..cursor] + [order[cursor]];
    assert order[cursor] !in order[..cursor] by {
      forall q | 0 <= q < cursor ensures order[q] != order[cursor] {
        assert Before(w, order[q], order[cursor]);
      }
    }
  }

  lemma HandedInOrder(w: seq<int>, shares: seq<int>, floors: seq<int>, order: seq<nat>, cursor: nat)
    requires IsOrder(w, order, |w|) && |floors| == |w| && cursor < |w|
    requires Handed(shares, floors, order, cursor)
    ensures forall i: nat, j: nat :: i < |w| && j < |w| && Before(w, i, j) && shares[j] > floors[j] ==> shares[i] > floors[i]
  {
    forall i: nat, j: nat | i < |w| && j < |w| && Before(w, i, j) && shares[j] > floors[j] ensures shares[i] > floors[i] {
      assert j in order[..cursor];
      var q: nat :| q < cursor && order[q] == j;
      assert i in order;
      var p: nat :| p < |order| && order[p] == i;
      if p >= cursor { assert false; }
      assert order[..cursor][p] == i;
    }
  }

  lemma ZeroWeightGetsNothing(amount: int, w: seq<int>, shares: seq<int>, floors: seq<int>, order: seq<nat>, cursor: nat)
    requires Sum(w) > 0 && floors == FloorShares(amount, w, Sum(w))
    requires IsOrder(w, order, |w|) && cursor < NonZero(w) <= |w| && (forall i :: 0 <= i < |w| ==> w[i] >= 0)
    requires Handed(shares, floors, order, cursor)
    ensures forall i :: 0 <= i < |w| && w[i] == 0 ==> shares[i] == 0
  {
    forall i: nat | i < |w| && w[i] == 0 ensures shares[i] == 0 {
      if i in order[..cursor] {
        var p: nat :| p < cursor && order[p] == i;
        WeightedComeFirst(w, order, p);
        assert false;
      }
      assert floors[i] == 0 / Sum(w);
    }
  }

  /** The part of a unit the division left party i short of. */
  function ShortBy(amount: int, w: seq<int>, i: nat): int
    requires i < |w| && Sum(w) > 0
  {
    amount * w[i] % Sum(w)
  }

  /** Nobody who went without an extra unit was further short than somebody who got one. */
  ghost predicate LargestRemainder(amount: int, w: seq<int>, floors: seq<int>, shares: seq<int>)
    requires Sum(w) > 0 && |floors| == |w| == |shares|
  {
    forall i: nat, j: nat :: i < |w| && j < |w| && shares[i] > floors[i] && shares[j] <= floors[j] ==> ShortBy(amount, w, i) >= ShortBy(amount, w, j)
  }

  /** The parties before i in weight order. */
  ghost function Ahead(w: seq<int>, i: nat): set<nat>
    requires i < |w|
  {
    set j: nat | j < |w| && Before(w, j, i)
  }

  /** Party i is among the first r in weight order. */
  ghost predicate AmongFirst(w: seq<int>, i: nat, r: int)
    requires i < |w|
  {
    |Ahead(w, i)| < r
  }

  ghost function Raised(floors: seq<int>, shares: seq<int>): set<nat>
    requires |floors| == |shares|
  {
    set i: nat | i < |floors| && shares[i] > floors[i]
  }

  lemma {:induction false} RaisedCount(floors: seq<int>, shares: seq<int>)
    requires |floors| == |shares| && forall i :: 0 <= i < |floors| ==> floors[i] <= shares[i] <= floors[i] + 1
    ensures |Raised(floors, shares)| == Sum(shares) - Sum(floors)
    decreases |floors|
  {
    if floors == [] {
      assert Raised(floors, shares) == {};
    } else {
      var n := |floors| - 1;
      RaisedCount(floors[..n], shares[..n]);
      var earlier := Raised(floors[..n], shares[..n]);
      assert Raised(floors, shares) == earlier + (if shares[n] > floors[n] then {n} else {});
      assert n !in earlier;
    }
  }

  /** A fair allocation raises exactly the first parties in weight order, as many as there are units left over. */
  lemma ExtraUnitsGoToTheFirst(amount: int, w: seq<int>, shares: seq<int>, i: nat)
    requires Sum(w) > 0 && FairShares(amount, w, FloorShares(amount, w, Sum(w)), shares) && i < |w|
    ensures var floors := FloorShares(amount, w, Sum(w));
            shares[i] > floors[i] <==> AmongFirst(w, i, amount - Sum(floors))
  {
    hide Sum, FloorShares;
    var floors := FloorShares(amount, w, Sum(w));
    var raised, ahead := Raised(floors, shares), Ahead(w, i);
    RaisedCount(floors, shares);
    if shares[i] > floors[i] {
      assert ahead + {i} <= raised && i !in ahead;
      SubsetSize(ahead + {i}, raised);
    } else {
      assert raised <= ahead;
      SubsetSize(raised, ahead);
    }
  }

  /**
   * `allocate` hands its extra units out by weight. The result is a
   * largest-remainder allocation exactly when the weights happen to rank the
   * parties as their remainders do: with r units left over, none of the first r
   * parties in weight order is less short than a later one.
   */
  lemma LargestRemainderExactlyWhen(amount: int, w: seq<int>, shares: seq<int>)
    requires Sum(w) > 0 && FairShares(amount, w, FloorShares(amount, w, Sum(w)), shares)
    ensures var floors := FloorShares(amount, w, Sum(w));
            var r := amount - Sum(floors);
            LargestRemainder(amount, w, floors, shares)
            <==> forall i: nat, j: nat :: i < |w| && j < |w| && AmongFirst(w, i, r) && !AmongFirst(w, j, r)
                                          ==> ShortBy(amount, w, i) >= ShortBy(amount, w, j)
  {
    hide Sum, FloorShares, AmongFirst, ShortBy;
    forall i: nat | i < |w|
      ensures shares[i] > FloorShares(amount, w, Sum(w))[i] <==> AmongFirst(w, i, amount - Sum(FloorShares(amount, w, Sum(w))))
    {
      ExtraUnitsGoToTheFirst(amount, w, shares, i);
    }
  }

  /**
   * The extra units follow the weights, not the remainders the division left: of
   * 5 units over weights 2 and 1 the second party is short by two thirds of a
   * unit and the first by one third, and the unit goes to the first.
   */
  lemma ExtraUnitsFollowWeights(shares: seq<int>)
    requires FairShares(5, [2, 1], FloorShares(5, [2, 1], 3), shares)
    ensures shares == [4, 1]
  {
    var floors := FloorShares(5, [2, 1], 3);
    assert floors == [3, 1];
    assert |shares| == 2 && shares[..1][..0] == [];
    assert Sum(shares[..1]) == Sum(shares[..1][..0]) + shares[0];
    assert Sum(shares) == Sum(shares[..1]) + shares[1];
    assert Before([2, 1], 0, 1);
  }

  /** A safe amount over non-negative weights never overflows a share. */
  lemma SafeAmountsAllocate(amount: int, w: seq<int>, i: nat)
    requires Safe(amount) && i < |w| && 0 <= w[i] <= Sum(w) && Sum(w) > 0
    ensures Safe(FloorShares(amount, w, Sum(w))[i])
  {
    hide Sum;
    SafeQuotient(amount, w[i], Sum(w));
  }

  lemma SafeQuotient(amount: int, weight: int, total: int)
    requires Safe(amount) && 0 <= weight <= total && total > 0
    ensures Safe(amount * weight / total)
  {
    ProductWithin(amount, weight, MAX_SAFE);
    TimesWithin(weight, total, MAX_SAFE);
    QuotientMonotone(-(MAX_SAFE * total), amount * weight, total);
    QuotientMonotone(amount * weight, MAX_SAFE * total, total);
    QuotientIs(-(MAX_SAFE * total), total, -MAX_SAFE);
    QuotientIs(MAX_SAFE * total, total, MAX_SAFE);
  }

  lemma ProductWithin(amount: int, weight: int, bound: int)
    requires -bound <= amount <= bound && 0 <= weight
    ensures -(bound * weight) <= amount * weight <= bound * weight
  {}

  lemma TimesWithin(weight: int, total: int, bound: int)
    requires 0 <= weight <= total && 0 <= bound
    ensures bound * weight <= bound * total
  {}

  // -- fee ceilings -------------------------------------------------------------

  /** `cappedFee`: a charge held to a ceiling; a negative ceiling counts as zero. */
  function CappedFee(amount: int, cap: Option<int>): int {
    if cap.None? then amount else Min(amount, Max(cap.value, 0))
  }
}
