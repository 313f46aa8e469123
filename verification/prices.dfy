/**
 * Price rows, their versions, and the subscriptions bound to them
 * (packages/billing/src/prices.ts).
 */
module Prices {
  import opened Basics
  import opened Money
  import opened Interval
  import opened Pricing

  // -- edits --------------------------------------------------------------------------------

  /** The economic fields of an update request; None leaves a field alone. */
  datatype Patch = Patch(
    model: Option<PricingModel>, currency: Option<Currency>, unitAmount: Option<Option<int>>,
    intervalUnit: Option<Unit>, intervalCount: Option<int>, usageMeter: Option<Option<MeterId>>,
    usageUnitAmount: Option<Option<int>>, usageUnitSize: Option<Option<int>>,
    includedUnits: Option<Option<int>>, usageMaxAmount: Option<Option<int>>)

  datatype Field =
    | ModelField | CurrencyField | UnitAmountField | IntervalUnitField | IntervalCountField | UsageMeterField
    | UsageUnitAmountField | UsageUnitSizeField | IncludedUnitsField | UsageMaxAmountField

  function If<T>(condition: bool, field: T): seq<T> { if condition then [field] else [] }

  /** `changedEconomics`: a field that is absent, or posted with the value it has, is not a change. */
  function ChangedEconomics(e: Economics, p: Patch): seq<Field> {
    If(p.model.Or(e.model) != e.model, ModelField)
    + If(p.currency.Or(e.currency) != e.currency, CurrencyField)
    + If(p.unitAmount.Or(e.unitAmount) != e.unitAmount, UnitAmountField)
    + If(p.intervalUnit.Or(e.interval.unit) != e.interval.unit, IntervalUnitField)
    + If(p.intervalCount.Or(e.interval.count) != e.interval.count, IntervalCountField)
    + If(p.usageMeter.Or(e.usageMeter) != e.usageMeter, UsageMeterField)
    + If(p.usageUnitAmount.Or(e.usageUnitAmount) != e.usageUnitAmount, UsageUnitAmountField)
    + If(p.usageUnitSize.Or(e.usageUnitSize) != e.usageUnitSize, UsageUnitSizeField)
    + If(p.includedUnits.Or(e.includedUnits) != e.includedUnits, IncludedUnitsField)
    + If(p.usageMaxAmount.Or(e.usageMaxAmount) != e.usageMaxAmount, UsageMaxAmountField)
  }

  function Patched(e: Economics, p: Patch): Economics {
    Economics(p.model.Or(e.model), p.currency.Or(e.currency), p.unitAmount.Or(e.unitAmount),
              BillingInterval(p.intervalUnit.Or(e.interval.unit), p.intervalCount.Or(e.interval.count)),
              p.usageMeter.Or(e.usageMeter), p.usageUnitAmount.Or(e.usageUnitAmount), p.usageUnitSize.Or(e.usageUnitSize),
              p.includedUnits.Or(e.includedUnits), p.usageMaxAmount.Or(e.usageMaxAmount))
  }

  /** No field counts as changed exactly when applying the patch changes nothing. */
  lemma NothingChanged(e: Economics, p: Patch)
    ensures ChangedEconomics(e, p) == [] <==> Patched(e, p) == e
  {
    var size := |ChangedEconomics(e, p)|;
    assert size == 0 <==> ChangedEconomics(e, p) == [];
  }

  // -- the catalogue --------------------------------------------------------------------------

  /** A price row; its id is its position, and `supersedes` the id of the version it replaced. */
  datatype Price = Price(economics: Economics, active: bool, version: nat, supersedes: Option<nat>)

  /** A subscription's hold on a price. */
  datatype Holder = Holder(price: nat, live: bool)

  datatype Catalogue = Catalogue(prices: seq<Price>, holders: seq<Holder>)

  /** Some subscription that has not ended is on this row. */
  predicate Bound(c: Catalogue, k: nat) {
    exists i :: 0 <= i < |c.holders| && c.holders[i].live && c.holders[i].price == k
  }

  /** `updatePrice`, once the row has been found. */
  function UpdatePrice(c: Catalogue, k: nat, patch: Patch, active: Option<bool>): Result<Catalogue> {
    if k >= |c.prices| then Err(InvalidRequest)
    else
      var price := c.prices[k];
      if ChangedEconomics(price.economics, patch) == [] then
        Ok(c.(prices := c.prices[k := price.(active := active.Or(price.active))]))
      else if !Bound(c, k) then
        Ok(c.(prices := c.prices[k := price.(economics := Patched(price.economics, patch), active := active.Or(price.active))]))
      else if patch.currency.Or(price.economics.currency) != price.economics.currency then Err(InvalidRequest)
      else
        var next := Price(Patched(price.economics, patch), active.Or(true), price.version + 1, Some(k));
        Ok(c.(prices := c.prices[k := price.(active := false)] + [next]))
  }

  datatype Edit =
    | DoUpdate(price: nat, patch: Patch, active: Option<bool>)
    | DoSubscribe(price: nat)
    | DoMove(holder: nat, price: nat)
    | DoEnd(holder: nat)

  /** An edit, a signup, a renewal or plan change that repoints a subscription, or its end. */
  function Try(c: Catalogue, e: Edit): Result<Catalogue> {
    match e
    case DoUpdate(k, patch, active) => UpdatePrice(c, k, patch, active)
    case DoSubscribe(k) =>
      if k >= |c.prices| || !c.prices[k].active then Err(InvalidRequest)
      else Ok(c.(holders := c.holders + [Holder(k, true)]))
    case DoMove(i, k) =>
      if i >= |c.holders| || !c.holders[i].live || k >= |c.prices| then Err(InvalidRequest)
      else Ok(c.(holders := c.holders[i := c.holders[i].(price := k)]))
    case DoEnd(i) =>
      if i >= |c.holders| then Err(InvalidRequest)
      else Ok(c.(holders := c.holders[i := c.holders[i].(live := false)]))
  }

  function Step(c: Catalogue, e: Edit): Catalogue {
    var r := Try(c, e);
    if r.Ok? then r.value else c
  }

  function Run(c: Catalogue, es: seq<Edit>): Catalogue {
    if es == [] then c else Step(Run(c, es[..|es| - 1]), es[|es| - 1])
  }

  /** The catalogue as the database keeps it. */
  class PriceTable {
    var prices: seq<Price>
    var holders: seq<Holder>

    function Contents(): Catalogue
      reads this
    {
      Catalogue(prices, holders)
    }

    constructor ()
      ensures Contents() == Catalogue([], [])
    {
      prices, holders := [], [];
    }

    /** How many subscriptions that have not ended are on the row. */
    method CountBound(k: nat) returns (bound: nat)
      ensures bound > 0 <==> Bound(Contents(), k)
      ensures bound <= |holders|
    {
      bound := 0;
      for i := 0 to |holders|
        invariant bound <= i
        invariant bound > 0 <==> exists j :: 0 <= j < i && holders[j].live && holders[j].price == k
      {
        if holders[i].live && holders[i].price == k { bound := bound + 1; }
      }
    }

    method Update(k: nat, patch: Patch, active: Option<bool>) returns (r: Result<nat>)
      modifies this
      ensures match UpdatePrice(old(Contents()), k, patch, active)
              case Ok(c) => Contents() == c && r == Ok(if |c.prices| > |old(prices)| then |old(prices)| else k)
              case Err(code) => r == Err(code) && Contents() == old(Contents())
    {
      hide ChangedEconomics, Patched;
      if k >= |prices| { return Err(InvalidRequest); }
      var price := prices[k];
      var changed := ChangedEconomics(price.economics, patch);
      if changed == [] {
        prices := prices[k := price.(active := active.Or(price.active))];
        return Ok(k);
      }
      var bound := CountBound(k);
      if bound == 0 {
        prices := prices[k := price.(economics := Patched(price.economics, patch), active := active.Or(price.active))];
        return Ok(k);
      }
      if patch.currency.Or(price.economics.currency) != price.economics.currency { return Err(InvalidRequest); }
      prices := prices[k := price.(active := false)];
      prices := prices + [Price(Patched(price.economics, patch), active.Or(true), price.version + 1, Some(k))];
      r := Ok(|prices| - 1);
    }
  }

  // -- no silent repricing ----------------------------------------------------------------------

  /** After every prefix of the edits, subscription `i` is live and on row `k`. */
  predicate HeldThroughout(c: Catalogue, es: seq<Edit>, i: nat, k: nat) {
    var now := Run(c, es);
    && i < |now.holders| && now.holders[i] == Holder(k, true)
    && (es == [] || HeldThroughout(c, es[..|es| - 1], i, k))
  }

  lemma StepNeverReprices(c: Catalogue, e: Edit, k: nat)
    requires k < |c.prices| && Bound(c, k)
    ensures k < |Step(c, e).prices| && Step(c, e).prices[k].economics == c.prices[k].economics
  {
    hide ChangedEconomics;
    if e.DoUpdate? && e.price == k {
      NothingChanged(c.prices[k].economics, e.patch);
    }
  }

  /**
   * No silent repricing: while a live subscription stays on a row, no sequence
   * of edits, signups, moves and cancellations changes what that row charges.
   */
  lemma {:induction false} NoSilentRepricing(c: Catalogue, es: seq<Edit>, i: nat, k: nat)
    requires k < |c.prices| && HeldThroughout(c, es, i, k)
    ensures k < |Run(c, es).prices| && Run(c, es).prices[k].economics == c.prices[k].economics
    decreases |es|
  {
    hide Step;
    if es != [] {
      NoSilentRepricing(c, es[..|es| - 1], i, k);
      StepNeverReprices(Run(c, es[..|es| - 1]), es[|es| - 1], k);
    }
  }

  /** An edit touches one row; nobody's subscription moves. */
  predicate OnlyRow(c: Catalogue, c': Catalogue, k: nat) {
    && c'.holders == c.holders && |c.prices| <= |c'.prices|
    && forall j :: 0 <= j < |c.prices| && j != k ==> c'.prices[j] == c.prices[j]
  }

  /**
   * What an edit that changes the economics does, in one of its three outcomes:
   * the row changes in place, or it is refused, or the row goes off sale as it is
   * and a version with the new economics, on sale unless asked otherwise, follows it.
   */
  lemma EditOutcomes(c: Catalogue, k: nat, patch: Patch, active: Option<bool>)
    requires k < |c.prices| && Patched(c.prices[k].economics, patch) != c.prices[k].economics
    ensures var r, old_ := UpdatePrice(c, k, patch, active), c.prices[k];
            if forall i :: 0 <= i < |c.holders| && c.holders[i].live ==> c.holders[i].price != k then
              && r.Ok? && |r.value.prices| == |c.prices| && OnlyRow(c, r.value, k)
              && r.value.prices[k].economics == Patched(old_.economics, patch)
              && r.value.prices[k].active == (if active.Some? then active.value else old_.active)
              && r.value.prices[k].version == old_.version && r.value.prices[k].supersedes == old_.supersedes
            else if Patched(old_.economics, patch).currency != old_.economics.currency then r == Err(InvalidRequest)
            else && r.Ok? && |r.value.prices| == |c.prices| + 1 && OnlyRow(c, r.value, k)
                 && r.value.prices[k] == Price(old_.economics, false, old_.version, old_.supersedes)
                 && var next := r.value.prices[|c.prices|];
                    && next.economics == Patched(old_.economics, patch) && next.supersedes == Some(k) && next.version == old_.version + 1
                    && (next.active <==> active != Some(false))
  {
    hide ChangedEconomics;
    NothingChanged(c.prices[k].economics, patch);
  }

  /** An edit that changes no economics is an in-place edit of whether the row is on sale, held or not. */
  lemma OtherEdits(c: Catalogue, k: nat, patch: Patch, active: Option<bool>)
    requires k < |c.prices| && Patched(c.prices[k].economics, patch) == c.prices[k].economics
    ensures var r, old_ := UpdatePrice(c, k, patch, active), c.prices[k];
            && r.Ok? && |r.value.prices| == |c.prices| && OnlyRow(c, r.value, k)
            && r.value.prices[k] == Price(old_.economics, if active.Some? then active.value else old_.active, old_.version, old_.supersedes)
  {
    hide ChangedEconomics, Patched;
    NothingChanged(c.prices[k].economics, patch);
  }

  /**
   * After an edit that makes a version, signups go to the new row and the old
   * one takes none, while everyone on the old row stays on it and it leads to
   * the new one.
   */
  lemma SignupsGoToTheNewVersion(c: Catalogue, k: nat, patch: Patch, active: Option<bool>)
    requires Versions(c, DoUpdate(k, patch, active)) && active != Some(false)
    ensures var c' := Step(c, DoUpdate(k, patch, active));
            && Try(c', DoSubscribe(|c.prices|)) == Ok(c'.(holders := c.holders + [Holder(|c.prices|, true)]))
            && Try(c', DoSubscribe(k)) == Err(InvalidRequest)
            && c'.holders == c.holders && Supersedes(c'.prices, |c.prices|, k)
  {
    hide UpdatePrice, Patched;
    EditOutcomes(c, k, patch, active);
  }

  // -- versions ---------------------------------------------------------------------------------

  /** Supersede links point to older rows, one version back. */
  predicate Linked(prices: seq<Price>) {
    forall k :: 0 <= k < |prices| && prices[k].supersedes.Some? ==>
      prices[k].supersedes.value < k && prices[k].version == prices[prices[k].supersedes.value].version + 1
  }

  lemma StepKeepsLinks(c: Catalogue, e: Edit)
    requires Linked(c.prices)
    ensures Linked(Step(c, e).prices)
  {
    hide ChangedEconomics, Patched;
  }

  lemma {:induction false} LinksStaySound(c: Catalogue, es: seq<Edit>)
    requires Linked(c.prices)
    ensures Linked(Run(c, es).prices)
    decreases |es|
  {
    hide Step, Linked;
    if es != [] {
      LinksStaySound(c, es[..|es| - 1]);
      StepKeepsLinks(Run(c, es[..|es| - 1]), es[|es| - 1]);
    }
  }

  predicate Supersedes(prices: seq<Price>, next: nat, k: nat) {
    next < |prices| && prices[next].supersedes == Some(k)
  }

  predicate Superseded(prices: seq<Price>, k: nat) { exists next :: 0 <= next < |prices| && Supersedes(prices, next, k) }

  /** A path of later versions starting after `k`. */
  predicate Later(prices: seq<Price>, k: nat, path: seq<nat>)
    decreases |path|
  {
    path == [] || (Later(prices, k, path[..|path| - 1]) && Supersedes(prices, path[|path| - 1], EndOf(k, path[..|path| - 1])))
  }

  function EndOf(k: nat, path: seq<nat>): nat { if path == [] then k else path[|path| - 1] }

  /** Links cannot cycle: along any path ids and versions strictly rise. */
  lemma {:induction false} PathsRise(prices: seq<Price>, k: nat, path: seq<nat>)
    requires Linked(prices) && k < |prices| && Later(prices, k, path)
    ensures EndOf(k, path) < |prices| && k + |path| <= EndOf(k, path)
    ensures prices[EndOf(k, path)].version == prices[k].version + |path|
    decreases |path|
  {
    if path != [] { PathsRise(prices, k, path[..|path| - 1]); }
  }

  const MAX_HOPS := 20

  /**
   * `resolveCurrentPrice`: at each hop any row that supersedes the last one may
   * be found. It stops within the hop limit, on a later version or on None, and
   * at an unsuperseded row unless some path of later versions is longer than
   * the limit.
   */
  method ResolveCurrentPrice(prices: seq<Price>, priceId: nat) returns (current: Option<nat>, ghost path: seq<nat>)
    ensures Later(prices, priceId, path) && |path| <= 20
    ensures current == if path == [] then None else Some(EndOf(priceId, path))
    ensures (forall p :: Later(prices, priceId, p) ==> |p| <= 20) ==> !Superseded(prices, current.Or(priceId))
  {
    current, path := None, [];
    var cursor := priceId;
    for hop := 0 to MAX_HOPS
      invariant Later(prices, priceId, path) && |path| == hop && cursor == EndOf(priceId, path)
      invariant current == if path == [] then None else Some(cursor)
    {
      var next := FindSuccessor(prices, cursor);
      if next.None? { return; }
      assert (path + [next.value])[..|path|] == path;
      path := path + [next.value];
      current, cursor := next, next.value;
    }
    if Superseded(prices, cursor) {
      var next :| 0 <= next < |prices| && Supersedes(prices, next, cursor);
      assert (path + [next])[..|path|] == path;
      assert Later(prices, priceId, path + [next]);
    }
  }

  /** A query for a row that supersedes `k`, in no particular order. */
  method FindSuccessor(prices: seq<Price>, k: nat) returns (next: Option<nat>)
    ensures match next
            case Some(n) => Supersedes(prices, n, k)
            case None => !Superseded(prices, k)
  {
    if i :| 0 <= i < |prices| && Supersedes(prices, i, k) {
      next := Some(i);
    } else {
      next := None;
    }
  }

  // -- branching lineages -------------------------------------------------------------------------

  /** No row has two successors. */
  predicate Unbranched(prices: seq<Price>) {
    forall i, j :: 0 <= i < j < |prices| && prices[i].supersedes.Some? ==> prices[i].supersedes != prices[j].supersedes
  }

  /** The edit changes what the row charges, in the same currency, while somebody live is on the row: it makes a version. */
  predicate Versions(c: Catalogue, e: Edit) {
    && e.DoUpdate? && e.price < |c.prices|
    && var now, then_ := c.prices[e.price].economics, Patched(c.prices[e.price].economics, e.patch);
       then_ != now && then_.currency == now.currency && Bound(c, e.price)
  }

  /** ... of a row that already has a newer one. */
  predicate Branches(c: Catalogue, e: Edit) { Versions(c, e) && Superseded(c.prices, e.price) }

  lemma StepSuccessors(c: Catalogue, e: Edit)
    ensures var after := Step(c, e).prices;
            && |c.prices| <= |after|
            && (forall i :: 0 <= i < |c.prices| ==> after[i].supersedes == c.prices[i].supersedes)
            && (if Versions(c, e) then |after| == |c.prices| + 1 && after[|c.prices|].supersedes == Some(e.price) else |after| == |c.prices|)
  {
    hide ChangedEconomics, Patched, Bound;
    if e.DoUpdate? && e.price < |c.prices| {
      NothingChanged(c.prices[e.price].economics, e.patch);
      PatchedCurrency(c.prices[e.price].economics, e.patch);
    }
  }

  /**
   * An edit branches an unbranched lineage exactly when it versions a row that
   * has already been superseded, which takes live subscribers left on it.
   */
  lemma EditBranchesExactlyWhen(c: Catalogue, e: Edit)
    requires Unbranched(c.prices)
    ensures Unbranched(Step(c, e).prices) <==> !Branches(c, e)
  {
    hide Step, Patched, Bound;
    StepSuccessors(c, e);
    var after, n := Step(c, e).prices, |c.prices|;
    if Branches(c, e) {
      var i :| 0 <= i < n && Supersedes(c.prices, i, e.price);
      assert after[i].supersedes == after[n].supersedes;
    } else if Versions(c, e) {
      forall i | 0 <= i < n ensures after[i].supersedes != after[n].supersedes {
        assert Supersedes(c.prices, i, e.price) <==> c.prices[i].supersedes == Some(e.price);
      }
    }
  }

  /** A branch never grows back together. */
  lemma BranchesStay(c: Catalogue, e: Edit)
    requires !Unbranched(c.prices)
    ensures !Unbranched(Step(c, e).prices)
  {
    hide Step, Versions;
    StepSuccessors(c, e);
    var i: nat, j: nat :| i < j < |c.prices| && c.prices[i].supersedes.Some? && c.prices[i].supersedes == c.prices[j].supersedes;
    var after := Step(c, e).prices;
    assert after[i].supersedes == after[j].supersedes;
  }

  /** No edit of the run branches a lineage. */
  predicate NeverBranches(c: Catalogue, es: seq<Edit>) {
    es == [] || (NeverBranches(c, es[..|es| - 1]) && !Branches(Run(c, es[..|es| - 1]), es[|es| - 1]))
  }

  /** Over any run, lineages are still single lines exactly when no edit versioned a superseded row. */
  lemma {:induction false} LineagesStayLinearExactlyWhen(c: Catalogue, es: seq<Edit>)
    requires Unbranched(c.prices)
    ensures Unbranched(Run(c, es).prices) <==> NeverBranches(c, es)
    decreases |es|
  {
    hide Step, Unbranched, Branches;
    if es != [] {
      LineagesStayLinearExactlyWhen(c, es[..|es| - 1]);
      var before := Run(c, es[..|es| - 1]);
      if Unbranched(before.prices) {
        EditBranchesExactlyWhen(before, es[|es| - 1]);
      } else {
        BranchesStay(before, es[|es| - 1]);
      }
    }
  }

  /** Two successors of one row carry the same version number, and the resolver may follow either. */
  lemma BranchesShareAVersion(prices: seq<Price>, k: nat, i: nat, j: nat)
    requires Linked(prices) && Supersedes(prices, i, k) && Supersedes(prices, j, k)
    ensures prices[i].version == prices[j].version
  {}

  /** It takes two edits: version any row a live subscription holds, then version the archived row again. */
  lemma ArchivedRowBranches(c: Catalogue, first: Edit, second: Edit)
    requires Unbranched(c.prices) && Versions(c, first)
    requires second.DoUpdate? && second.price == first.price && Versions(Step(c, first), second)
    ensures Branches(Step(c, first), second)
    ensures !Unbranched(Step(Step(c, first), second).prices)
  {
    hide Step, Versions;
    StepSuccessors(c, first);
    StepSuccessors(Step(c, first), second);
    FirstPrice(c, first);
    var after := Step(c, first).prices;
    assert Supersedes(after, |c.prices|, second.price);
    var n, twice := |c.prices|, Step(Step(c, first), second).prices;
    assert twice[n].supersedes == after[n].supersedes == twice[n + 1].supersedes;
  }

  lemma FirstPrice(c: Catalogue, e: Edit)
    requires Versions(c, e)
    ensures e.DoUpdate? && e.price < |c.prices|
  {}

  lemma PatchedCurrency(e: Economics, patch: Patch)
    ensures Patched(e, patch).currency == patch.currency.Or(e.currency)
  {}
}
