/**
 * Metering the volume an enrolled organization collects: which usage event each
 * settled payment becomes, the paged pass that records them, and the renewal
 * flush that makes an invoice exact (packages/billing/src/platform-metering.ts).
 */
module Metering {
  import opened Basics
  import opened Money
  import opened Pricing
  import opened Billing

  const SCAN_PAGE := 1_000
  const MAX_RETAINED_REJECTIONS := 100

  /** A succeeded payment attempt, as the scan selects it. */
  datatype Settled = Settled(id: nat, amount: int, currency: Currency, paidAt: Option<int>, completedAt: Option<int>)

  /** What an enrolment measures its organization's collections with. */
  datatype Context = Context(meter: MeterId, currency: Currency, now: int)

  // -- one payment ------------------------------------------------------------------------

  /** `volumeUnits`: major units, halves rounded up. Every supported currency has two decimals. */
  function VolumeUnits(amountMinor: int): int { (amountMinor + 50) / 100 }

  lemma VolumeWithinHalfAUnit(amountMinor: int)
    ensures -50 < VolumeUnits(amountMinor) * 100 - amountMinor <= 50
  {}

  function SettledAt(a: Settled, now: int): int { a.paidAt.Or(a.completedAt.Or(now)) }

  datatype Volume = Rejected | TooSmall | Measured(event: UsageEvent)

  function VolumeOf(a: Settled, ctx: Context): Volume {
    if a.currency != ctx.currency then Rejected
    else if VolumeUnits(a.amount) > MAX_UNITS then Rejected
    else if VolumeUnits(a.amount) <= 0 then TooSmall
    else Measured(UsageEvent(a.id, ctx.meter, VolumeUnits(a.amount), SettledAt(a, ctx.now)))
  }

  /**
   * A payment is measured exactly when it is in the meter's currency and comes
   * to at least half a major unit and no more than 2^31 - 1 units; it is rejected
   * for its currency or for being above that. Its event is stamped with the
   * moment it settled, which is inside every window that selects it.
   */
  lemma MeasuredExactlyWhen(a: Settled, ctx: Context, since: int, until: int)
    ensures var v := VolumeOf(a, ctx);
            && (v.Measured? <==> a.currency == ctx.currency && 50 <= a.amount < 214_748_364_750)
            && (v.Rejected? <==> a.currency != ctx.currency || a.amount >= 214_748_364_750)
            && (v.Measured? ==>
                  && v.event.id == a.id && v.event.meter == ctx.meter && -50 < v.event.units * 100 - a.amount <= 50
                  && (InWindow(a, since, until) <==>
                        (a.paidAt.Some? || a.completedAt.Some?) && since <= v.event.timestamp && v.event.timestamp < until)
                  && (a.paidAt.Some? ==> v.event.timestamp == a.paidAt.value)
                  && (a.paidAt.None? && a.completedAt.None? ==> v.event.timestamp == ctx.now))
  {}

  /** The usage events a list of payments implies. */
  function Rows(attempts: seq<Settled>, ctx: Context): seq<UsageEvent> {
    if attempts == [] then []
    else
      var n := |attempts| - 1;
      var v := VolumeOf(attempts[n], ctx);
      Rows(attempts[..n], ctx) + (if v.Measured? then [v.event] else [])
  }

  function Rejections(attempts: seq<Settled>, ctx: Context): seq<nat> {
    if attempts == [] then []
    else
      var n := |attempts| - 1;
      Rejections(attempts[..n], ctx) + (if VolumeOf(attempts[n], ctx).Rejected? then [attempts[n].id] else [])
  }

  /** `buildVolumeEvents`. */
  method BuildVolumeEvents(attempts: seq<Settled>, ctx: Context) returns (rows: seq<UsageEvent>, rejected: seq<nat>)
    ensures rows == Rows(attempts, ctx) && rejected == Rejections(attempts, ctx)
  {
    rows, rejected := [], [];
    for i := 0 to |attempts|
      invariant rows == Rows(attempts[..i], ctx) && rejected == Rejections(attempts[..i], ctx)
    {
      assert attempts[..i + 1][..i] == attempts[..i];
      var attempt := attempts[i];
      if attempt.currency != ctx.currency {
        rejected := rejected + [attempt.id];
        continue;
      }
      var units := VolumeUnits(attempt.amount);
      if units > MAX_UNITS {
        rejected := rejected + [attempt.id];
        continue;
      }
      if units <= 0 { continue; }
      rows := rows + [UsageEvent(attempt.id, ctx.meter, units, SettledAt(attempt, ctx.now))];
    }
    assert attempts[..|attempts|] == attempts;
  }

  lemma {:induction false} RowsAppend(a: seq<Settled>, b: seq<Settled>, ctx: Context)
    ensures Rows(a + b, ctx) == Rows(a, ctx) + Rows(b, ctx)
    ensures Rejections(a + b, ctx) == Rejections(a, ctx) + Rejections(b, ctx)
    decreases |b|
  {
    hide VolumeOf;
    if b == [] {
      assert a + b == a;
    } else {
      assert (a + b)[..|a + b| - 1] == a + b[..|b| - 1];
      RowsAppend(a, b[..|b| - 1], ctx);
    }
  }

  /** The rows are exactly the events of the payments that measure something. */
  lemma {:induction false} RowsAre(attempts: seq<Settled>, ctx: Context, e: UsageEvent)
    ensures e in Rows(attempts, ctx) <==> exists a :: a in attempts && VolumeOf(a, ctx) == Measured(e)
    decreases |attempts|
  {
    hide VolumeOf;
    if attempts != [] {
      var n := |attempts| - 1;
      RowsAre(attempts[..n], ctx, e);
      assert attempts == attempts[..n] + [attempts[n]];
    }
  }

  // -- inserting --------------------------------------------------------------------------

  lemma {:induction false} InsertAppend(events: seq<UsageEvent>, a: seq<UsageEvent>, b: seq<UsageEvent>)
    ensures InsertEvents(events, a + b) == InsertEvents(InsertEvents(events, a), b)
    decreases |b|
  {
    hide InsertEvent;
    if b == [] {
      assert a + b == a;
    } else {
      assert (a + b)[..|a + b| - 1] == a + b[..|b| - 1];
      InsertAppend(events, a, b[..|b| - 1]);
    }
  }

  ghost predicate UniqueIds(events: seq<UsageEvent>) {
    forall i, j :: 0 <= i < j < |events| ==> events[i].id != events[j].id
  }

  /** An insert keeps what is there, ids stay unique, and every new id is known afterwards. */
  lemma {:induction false} InsertsKeep(events: seq<UsageEvent>, rows: seq<UsageEvent>)
    requires UniqueIds(events)
    ensures var after := InsertEvents(events, rows);
            && UniqueIds(after)
            && |events| <= |after| <= |events| + |rows| && after[..|events|] == events
            && (forall e :: e in after ==> e in events || (e in rows && !Known(events, e.id)))
            && (forall i :: 0 <= i < |rows| ==> Known(after, rows[i].id))
    decreases |rows|
  {
    hide InsertEvent, UniqueIds, Known;
    if rows != [] {
      var n := |rows| - 1;
      InsertsKeep(events, rows[..n]);
      var before := InsertEvents(events, rows[..n]);
      InsertOne(before, rows[n]);
      var after := InsertEvent(before, rows[n]);
      forall i | 0 <= i < |rows| ensures Known(after, rows[i].id) {
        if i < n { assert rows[..n][i] == rows[i]; KnownStays(before, after, rows[i].id); }
      }
      assert after[..|events|] == before[..|events|];
      forall e | e in after ensures e in events || (e in rows && !Known(events, e.id)) {
        if e !in before && Known(events, e.id) { KnownStays(events, before, e.id); }
      }
    }
  }

  lemma InsertOne(events: seq<UsageEvent>, e: UsageEvent)
    requires UniqueIds(events)
    ensures var after := InsertEvent(events, e);
            && UniqueIds(after) && Known(after, e.id)
            && |events| <= |after| <= |events| + 1 && after[..|events|] == events
            && (forall x :: x in after ==> x in events || (x == e && !Known(events, e.id)))
  {
    if !Known(events, e.id) { assert (events + [e])[|events|].id == e.id; }
  }

  lemma KnownStays(events: seq<UsageEvent>, after: seq<UsageEvent>, id: nat)
    requires |events| <= |after| && after[..|events|] == events && Known(events, id)
    ensures Known(after, id)
  {
    var i :| 0 <= i < |events| && events[i].id == id;
    assert after[i] == after[..|events|][i];
  }

  /** Inserting rows whose ids are all known changes nothing. */
  lemma {:induction false} KnownRowsAreSkipped(events: seq<UsageEvent>, rows: seq<UsageEvent>)
    requires forall i :: 0 <= i < |rows| ==> Known(events, rows[i].id)
    ensures InsertEvents(events, rows) == events
    decreases |rows|
  {
    if rows != [] {
      var n := |rows| - 1;
      assert forall i :: 0 <= i < n ==> rows[..n][i] == rows[i];
      KnownRowsAreSkipped(events, rows[..n]);
    }
  }

  // -- the paged pass ---------------------------------------------------------------------

  /** The window is settlement time: paidAt, or completedAt where there is none. */
  predicate InWindow(a: Settled, since: int, until: int) {
    if a.paidAt.Some? then since <= a.paidAt.value < until
    else a.completedAt.Some? && since <= a.completedAt.value < until
  }

  function Matching(attempts: seq<Settled>, since: int, until: int): seq<Settled> {
    if attempts == [] then []
    else
      var n := |attempts| - 1;
      Matching(attempts[..n], since, until) + (if InWindow(attempts[n], since, until) then [attempts[n]] else [])
  }

  ghost predicate ById(attempts: seq<Settled>) {
    forall i, j :: 0 <= i < j < |attempts| ==> attempts[i].id < attempts[j].id
  }

  lemma {:induction false} MatchingAre(attempts: seq<Settled>, since: int, until: int)
    requires ById(attempts)
    ensures var m := Matching(attempts, since, until);
            && ById(m)
            && (forall a :: a in m <==> a in attempts && InWindow(a, since, until))
    decreases |attempts|
  {
    hide InWindow;
    if attempts != [] {
      var n := |attempts| - 1;
      MatchingAre(attempts[..n], since, until);
      assert attempts == attempts[..n] + [attempts[n]];
      var m := Matching(attempts[..n], since, until);
      forall i | 0 <= i < |m| ensures m[i].id < attempts[n].id {
        assert m[i] in attempts[..n];
      }
    }
  }

  /** The rows after the cursor row. */
  function AfterCursor(rows: seq<Settled>, cursor: Option<nat>): seq<Settled> {
    if cursor.None? || rows == [] || rows[0].id > cursor.value then rows else AfterCursor(rows[1..], cursor)
  }

  lemma {:induction false} CursorResumes(rows: seq<Settled>, k: nat)
    requires ById(rows) && 0 < k <= |rows|
    ensures AfterCursor(rows, Some(rows[k - 1].id)) == rows[k..]
    decreases |rows|
  {
    if k == 1 {
      assert rows[1..] == [] || rows[1].id > rows[0].id;
    } else {
      assert rows[0].id <= rows[k - 1].id && rows[1..][k - 2] == rows[k - 1] && rows[1..][k - 1..] == rows[k..];
      CursorResumes(rows[1..], k - 1);
    }
  }

  /** One page: the matching rows after the cursor, at most a page of them. */
  function Page(attempts: seq<Settled>, since: int, until: int, cursor: Option<nat>): seq<Settled> {
    var rest := AfterCursor(Matching(attempts, since, until), cursor);
    if |rest| <= SCAN_PAGE then rest else rest[..SCAN_PAGE]
  }

  datatype MeterResult = MeterResult(recorded: nat, skipped: nat, rejectedCount: nat, rejected: seq<nat>)

  /** The events the platform has recorded, unique by id. */
  class UsageTable {
    var events: seq<UsageEvent>

    constructor ()
      ensures events == []
    {
      events := [];
    }

    /** `createMany` with skipDuplicates. */
    method CreateMany(rows: seq<UsageEvent>) returns (count: nat)
      modifies this
      ensures events == InsertEvents(old(events), rows)
      ensures count == |events| - |old(events)| && count <= |rows|
    {
      count := 0;
      for i := 0 to |rows|
        invariant events == InsertEvents(old(events), rows[..i])
        invariant count == |events| - |old(events)| && count <= i
      {
        assert rows[..i + 1][..i] == rows[..i];
        if !Known(events, rows[i].id) {
          events, count := events + [rows[i]], count + 1;
        }
      }
      assert rows[..|rows|] == rows;
    }

    /**
     * `meterOrganizationVolume`: whatever the paging, the pass inserts what one
     * unpaged pass would, and accounts for every row it built.
     */
    method MeterOrganizationVolume(attempts: seq<Settled>, since: int, until: int, ctx: Context) returns (r: MeterResult)
      requires ById(attempts)
      modifies this
      ensures var matching := Matching(attempts, since, until);
              && events == InsertEvents(old(events), Rows(matching, ctx))
              && r.recorded == |events| - |old(events)|
              && r.recorded + r.skipped == |Rows(matching, ctx)|
              && r.rejectedCount == |Rejections(matching, ctx)|
              && r.rejected == Rejections(matching, ctx)[..Min(r.rejectedCount, 100)]
    {
      hide InsertEvents, Matching, Rows, Rejections;
      ghost var matching := Matching(attempts, since, until);
      MatchingAre(attempts, since, until);
      r := MeterResult(0, 0, 0, []);
      var cursor: Option<nat> := None;
      ghost var read := 0;
      NothingYet(events, ctx);
      assert matching[..0] == [];
      while true
        invariant 0 <= read <= |matching|
        invariant AfterCursor(matching, cursor) == matching[read..]
        invariant events == InsertEvents(old(events), Rows(matching[..read], ctx))
        invariant r.recorded == |events| - |old(events)|
        invariant r.recorded + r.skipped == |Rows(matching[..read], ctx)|
        invariant r.rejectedCount == |Rejections(matching[..read], ctx)|
        invariant r.rejected == Rejections(matching[..read], ctx)[..Min(r.rejectedCount, MAX_RETAINED_REJECTIONS)]
        decreases |matching| - read
      {
        var page := Page(attempts, since, until, cursor);
        if page == [] { break; }
        var rows, rejected := BuildVolumeEvents(page, ctx);
        assert matching[read..][..|page|] == page && matching[..read + |page|] == matching[..read] + page;
        RowsAppend(matching[..read], page, ctx);
        InsertAppend(old(events), Rows(matching[..read], ctx), rows);
        RetainTruncates(Rejections(matching[..read], ctx), rejected);
        r := r.(rejectedCount := r.rejectedCount + |rejected|, rejected := Retain(r.rejected, rejected));
        if rows != [] {
          var written := CreateMany(rows);
          r := r.(recorded := r.recorded + written, skipped := r.skipped + |rows| - written);
        } else {
          NoRows(events);
        }
        read := read + |page|;
        if |page| < SCAN_PAGE { break; }
        cursor := Some(page[|page| - 1].id);
        CursorResumes(matching, read);
      }
      assert matching[..|matching|] == matching;
    }
  }

  lemma NothingYet(events: seq<UsageEvent>, ctx: Context)
    ensures Rows([], ctx) == [] && Rejections([], ctx) == [] && InsertEvents(events, []) == events
  {}

  lemma NoRows(events: seq<UsageEvent>)
    ensures InsertEvents(events, []) == events
  {}

  /** Rejections kept for the caller to log, up to the limit. */
  function Retain(kept: seq<nat>, more: seq<nat>): (r: seq<nat>)
    requires |kept| <= MAX_RETAINED_REJECTIONS
    ensures r == (kept + more)[..Min(|kept| + |more|, MAX_RETAINED_REJECTIONS)]
    decreases |more|
  {
    if more == [] then assert kept + more == kept == kept[..|kept|]; kept
    else if |kept| < MAX_RETAINED_REJECTIONS then
      assert kept + more == kept + [more[0]] + more[1..];
      Retain(kept + [more[0]], more[1..])
    else
      assert (kept + more)[..MAX_RETAINED_REJECTIONS] == kept;
      assert (kept + more[1..])[..MAX_RETAINED_REJECTIONS] == kept;
      Retain(kept, more[1..])
  }

  lemma RetainTruncates(all: seq<nat>, more: seq<nat>)
    ensures Retain(all[..Min(|all|, MAX_RETAINED_REJECTIONS)], more)
            == (all + more)[..Min(|all| + |more|, MAX_RETAINED_REJECTIONS)]
  {
    hide Retain;
    if |all| <= MAX_RETAINED_REJECTIONS { assert all[..|all|] == all; }
  }

  // -- any order of passes ------------------------------------------------------------------

  /** Once a pass has recorded its window, running it again records nothing, whatever ran in between. */
  lemma RepeatPassRecordsNothing(events: seq<UsageEvent>, rows: seq<UsageEvent>, others: seq<UsageEvent>)
    requires UniqueIds(events)
    ensures var after := InsertEvents(InsertEvents(events, rows), others);
            InsertEvents(after, rows) == after
  {
    hide InsertEvents;
    var recorded := InsertEvents(events, rows);
    InsertsKeep(events, rows);
    InsertsKeep(recorded, others);
    forall i | 0 <= i < |rows| ensures Known(InsertEvents(recorded, others), rows[i].id) {
      KnownStays(recorded, InsertEvents(recorded, others), rows[i].id);
    }
    KnownRowsAreSkipped(InsertEvents(recorded, others), rows);
  }

  /** A scheduled pass or a renewal flush: what it saw settled, its window, when it ran, and the meter it wrote. */
  datatype Pass = Pass(seen: seq<Settled>, since: int, until: int, now: int, meter: MeterId)

  function PassRows(p: Pass, currency: Currency): seq<UsageEvent> {
    Rows(Matching(p.seen, p.since, p.until), Context(p.meter, currency, p.now))
  }

  function RunPasses(events: seq<UsageEvent>, ps: seq<Pass>, currency: Currency): seq<UsageEvent> {
    if ps == [] then events
    else InsertEvents(RunPasses(events, ps[..|ps| - 1], currency), PassRows(ps[|ps| - 1], currency))
  }

  /** What a pass saw is part of what was ever settled, and settled payments do not change. */
  ghost predicate Saw(p: Pass, all: seq<Settled>) { ById(p.seen) && forall a :: a in p.seen ==> a in all }

  ghost predicate AllSaw(ps: seq<Pass>, all: seq<Settled>) { forall i :: 0 <= i < |ps| ==> Saw(ps[i], all) }

  predicate CoveredBy(p: Pass, a: Settled) { a in p.seen && InWindow(a, p.since, p.until) }

  /** The meter of the first pass that covered a payment. */
  function FirstMeter(ps: seq<Pass>, a: Settled): Option<MeterId> {
    if ps == [] then None
    else
      var earlier := FirstMeter(ps[..|ps| - 1], a);
      if earlier.Some? then earlier
      else if CoveredBy(ps[|ps| - 1], a) then Some(ps[|ps| - 1].meter)
      else None
  }

  /** The event a settled payment stands for on a meter, whenever it is looked at. */
  predicate Implies(a: Settled, meter: MeterId, currency: Currency, e: UsageEvent) {
    VolumeOf(a, Context(meter, currency, 0)) == Measured(e)
  }

  /** A payment in some window has a settlement time of its own; the pass's clock is never used. */
  lemma ClockIsUnused(a: Settled, since: int, until: int, meter: MeterId, currency: Currency, now: int, e: UsageEvent)
    requires InWindow(a, since, until)
    ensures VolumeOf(a, Context(meter, currency, now)) == Measured(e) <==> Implies(a, meter, currency, e)
  {}

  lemma PassRowsAre(p: Pass, currency: Currency, e: UsageEvent)
    requires ById(p.seen)
    ensures e in PassRows(p, currency) <==> exists a :: CoveredBy(p, a) && Implies(a, p.meter, currency, e)
  {
    hide VolumeOf, InWindow, Matching, Rows;
    var ctx := Context(p.meter, currency, p.now);
    MatchingAre(p.seen, p.since, p.until);
    RowsAre(Matching(p.seen, p.since, p.until), ctx, e);
    forall a | CoveredBy(p, a) ensures VolumeOf(a, ctx) == Measured(e) <==> Implies(a, p.meter, currency, e) {
      ClockIsUnused(a, p.since, p.until, p.meter, currency, p.now, e);
    }
    if e in PassRows(p, currency) {
      var a :| a in Matching(p.seen, p.since, p.until) && VolumeOf(a, ctx) == Measured(e);
      assert CoveredBy(p, a);
    }
  }

  /** Events recorded by other means, none of them under the id of a payment. */
  ghost predicate Foreign(events: seq<UsageEvent>, all: seq<Settled>) {
    UniqueIds(events) && forall e, a :: e in events && a in all ==> e.id != a.id
  }

  lemma ImpliedIds(a: Settled, meter: MeterId, currency: Currency, e: UsageEvent)
    requires Implies(a, meter, currency, e)
    ensures e.id == a.id && e.meter == meter
  {}

  lemma {:induction false} FirstMeterIsCovered(ps: seq<Pass>, a: Settled)
    ensures FirstMeter(ps, a).Some? <==> exists i :: 0 <= i < |ps| && CoveredBy(ps[i], a)
    decreases |ps|
  {
    hide CoveredBy;
    if ps != [] {
      var n := |ps| - 1;
      FirstMeterIsCovered(ps[..n], a);
      if i :| 0 <= i < n && CoveredBy(ps[..n][i], a) { assert CoveredBy(ps[i], a); }
      if i :| 0 <= i < n && CoveredBy(ps[i], a) { assert CoveredBy(ps[..n][i], a); }
    }
  }

  lemma CoveredIsSettled(ps: seq<Pass>, all: seq<Settled>, a: Settled)
    requires AllSaw(ps, all) && FirstMeter(ps, a).Some?
    ensures a in all
  {
    FirstMeterIsCovered(ps, a);
    var i :| 0 <= i < |ps| && CoveredBy(ps[i], a);
    assert Saw(ps[i], all);
  }

  /** After the passes, payment `a` is on record as `e`: on the meter of the first pass that covered it. */
  predicate OnRecord(ps: seq<Pass>, currency: Currency, a: Settled, e: UsageEvent) {
    FirstMeter(ps, a) == Some(e.meter) && Implies(a, e.meter, currency, e)
  }

  /**
   * Metering after any passes and flushes in any order, with whatever overlap
   * and whatever meters: there is exactly one event for every covered payment
   * that measures something, on the meter of the first pass that covered it, and
   * no other.
   */
  lemma {:induction false} OneEventPerPayment(events: seq<UsageEvent>, ps: seq<Pass>, all: seq<Settled>, currency: Currency, e: UsageEvent)
    requires ById(all) && AllSaw(ps, all) && Foreign(events, all)
    ensures var after := RunPasses(events, ps, currency);
            && UniqueIds(after)
            && (e in after <==> e in events || exists a :: OnRecord(ps, currency, a, e))
    decreases |ps|, 2
  {
    hide InsertEvents, PassRows, OnRecord, UniqueIds;
    if ps != [] {
      var n := |ps| - 1;
      var before := RunPasses(events, ps[..n], currency);
      OneEventPerPayment(events, ps[..n], all, currency, e);
      InsertsKeep(before, PassRows(ps[n], currency));
      if e in RunPasses(events, ps, currency) {
        RecordedIsOnRecord(events, ps, all, currency, e);
      } else {
        KeptByInsert(before, RunPasses(events, ps, currency), e);
        forall a ensures !OnRecord(ps, currency, a, e) {
          if OnRecord(ps, currency, a, e) { OnRecordIsRecorded(events, ps, all, currency, e, a); }
        }
      }
    } else {
      NothingOnRecord(currency, e);
    }
  }

  lemma NothingOnRecord(currency: Currency, e: UsageEvent)
    ensures forall a :: !OnRecord([], currency, a, e)
  {}

  /** Later passes leave a payment on record where it was. */
  lemma StaysOnRecord(ps: seq<Pass>, currency: Currency, a: Settled, e: UsageEvent)
    requires ps != []
    ensures OnRecord(ps, currency, a, e)
            <==> OnRecord(ps[..|ps| - 1], currency, a, e)
                 || (FirstMeter(ps[..|ps| - 1], a).None? && CoveredBy(ps[|ps| - 1], a) && e.meter == ps[|ps| - 1].meter && Implies(a, e.meter, currency, e))
  {
    hide CoveredBy, Implies;
  }

  lemma {:induction false} RecordedIsOnRecord(events: seq<UsageEvent>, ps: seq<Pass>, all: seq<Settled>, currency: Currency, e: UsageEvent)
    requires ps != [] && ById(all) && AllSaw(ps, all) && Foreign(events, all) && e in RunPasses(events, ps, currency)
    ensures e in events || exists a :: OnRecord(ps, currency, a, e)
    decreases |ps|, 1
  {
    hide InsertEvents, PassRows, UniqueIds, OnRecord, Implies, CoveredBy;
    var n := |ps| - 1;
    var before := RunPasses(events, ps[..n], currency);
    OneEventPerPayment(events, ps[..n], all, currency, e);
    InsertsKeep(before, PassRows(ps[n], currency));
    if e in before {
      if a :| OnRecord(ps[..n], currency, a, e) { StaysOnRecord(ps, currency, a, e); }
    } else {
      assert Saw(ps[n], all);
      PassRowsAre(ps[n], currency, e);
      var a :| CoveredBy(ps[n], a) && Implies(a, ps[n].meter, currency, e);
      ImpliedIds(a, ps[n].meter, currency, e);
      if FirstMeter(ps[..n], a).Some? {
        FirstRecord(events, ps[..n], all, currency, a, ps[n].meter, e);
        assert false;
      }
      StaysOnRecord(ps, currency, a, e);
    }
  }

  lemma OnEveryMeter(a: Settled, meter: MeterId, other: MeterId, currency: Currency, e: UsageEvent)
    requires Implies(a, meter, currency, e)
    ensures Implies(a, other, currency, e.(meter := other))
  {}

  /** A covered payment that measures something is known by its id. */
  lemma {:induction false} FirstRecord(events: seq<UsageEvent>, ps: seq<Pass>, all: seq<Settled>, currency: Currency,
                                       a: Settled, meter: MeterId, e: UsageEvent)
    requires ById(all) && AllSaw(ps, all) && Foreign(events, all) && FirstMeter(ps, a).Some? && Implies(a, meter, currency, e)
    ensures Known(RunPasses(events, ps, currency), a.id)
    decreases |ps|, 3
  {
    hide InsertEvents, PassRows, UniqueIds, Implies, RunPasses;
    var first := FirstMeter(ps, a).value;
    var e' := e.(meter := first);
    OnEveryMeter(a, meter, first, currency, e);
    ImpliedIds(a, first, currency, e');
    OneEventPerPayment(events, ps, all, currency, e');
    assert OnRecord(ps, currency, a, e');
    var i :| 0 <= i < |RunPasses(events, ps, currency)| && RunPasses(events, ps, currency)[i] == e';
  }

  lemma {:induction false} OnRecordIsRecorded(events: seq<UsageEvent>, ps: seq<Pass>, all: seq<Settled>, currency: Currency, e: UsageEvent, a: Settled)
    requires ps != [] && ById(all) && AllSaw(ps, all) && Foreign(events, all) && OnRecord(ps, currency, a, e)
    ensures e in RunPasses(events, ps, currency)
    decreases |ps|, 1
  {
    hide InsertEvents, PassRows, UniqueIds, CoveredBy, Implies, Foreign;
    var n := |ps| - 1;
    var before, rows := RunPasses(events, ps[..n], currency), PassRows(ps[n], currency);
    var after := InsertEvents(before, rows);
    OneEventPerPayment(events, ps[..n], all, currency, e);
    InsertsKeep(before, rows);
    StaysOnRecord(ps, currency, a, e);
    if OnRecord(ps[..n], currency, a, e) {
      KeptByInsert(before, after, e);
    } else {
      assert Saw(ps[n], all);
      PassRowsAre(ps[n], currency, e);
      assert Known(after, e.id);
      var i :| 0 <= i < |after| && after[i].id == e.id;
      FreshPaymentIsInserted(events, ps, all, currency, e, a, after[i]);
    }
  }

  /** The event found under the id of a payment this pass is the first to cover is that payment's. */
  lemma {:induction false} FreshPaymentIsInserted(events: seq<UsageEvent>, ps: seq<Pass>, all: seq<Settled>, currency: Currency,
                                                  e: UsageEvent, a: Settled, x: UsageEvent)
    requires ps != [] && ById(all) && AllSaw(ps, all) && Foreign(events, all)
    requires FirstMeter(ps[..|ps| - 1], a).None? && CoveredBy(ps[|ps| - 1], a) && Implies(a, ps[|ps| - 1].meter, currency, e)
    requires x in RunPasses(events, ps, currency) && x.id == e.id
    ensures x == e
    decreases |ps|, 0
  {
    hide InsertEvents, PassRows, UniqueIds, Implies, InWindow, RunPasses;
    var n := |ps| - 1;
    assert Saw(ps[n], all);
    ImpliedIds(a, ps[n].meter, currency, e);
    OneEventPerPayment(events, ps[..n], all, currency, x);
    LastInsert(events, ps, currency, x);
    if x in RunPasses(events, ps[..n], currency) {
      var b :| OnRecord(ps[..n], currency, b, x);
      CoveredIsSettled(ps[..n], all, b);
      ImpliedIds(b, x.meter, currency, x);
      assert false;
    } else {
      PassRowsAre(ps[n], currency, x);
      var b :| CoveredBy(ps[n], b) && Implies(b, ps[n].meter, currency, x);
      ImpliedIds(b, ps[n].meter, currency, x);
      assert a == b;
      OneImplied(a, ps[n].meter, currency, x, e);
    }
  }

  lemma OneImplied(a: Settled, meter: MeterId, currency: Currency, x: UsageEvent, e: UsageEvent)
    requires Implies(a, meter, currency, x) && Implies(a, meter, currency, e)
    ensures x == e
  {}

  lemma {:induction false} LastInsert(events: seq<UsageEvent>, ps: seq<Pass>, currency: Currency, x: UsageEvent)
    requires ps != [] && UniqueIds(RunPasses(events, ps[..|ps| - 1], currency)) && x in RunPasses(events, ps, currency)
    ensures x in RunPasses(events, ps[..|ps| - 1], currency) || x in PassRows(ps[|ps| - 1], currency)
  {
    hide InsertEvents, PassRows, UniqueIds;
    InsertsKeep(RunPasses(events, ps[..|ps| - 1], currency), PassRows(ps[|ps| - 1], currency));
  }

  lemma KeptByInsert(before: seq<UsageEvent>, after: seq<UsageEvent>, e: UsageEvent)
    requires |before| <= |after| && after[..|before|] == before
    ensures e in before ==> e in after
  {
    if e in before {
      var i :| 0 <= i < |before| && before[i] == e;
      assert after[i] == after[..|before|][i];
    }
  }

  // -- what a period bills --------------------------------------------------------------------

  predicate Counts(e: UsageEvent, meter: MeterId, start: int, end: int) { e.meter == meter && start <= e.timestamp < end }

  lemma {:induction false} UsageWithout(events: seq<UsageEvent>, j: nat, meter: MeterId, start: int, end: int)
    requires j < |events|
    ensures PeriodUsage(events, meter, start, end)
            == PeriodUsage(events[..j] + events[j + 1..], meter, start, end) + UnitsOf(events[j], meter, start, end)
    decreases |events|
  {
    hide UnitsOf;
    var n := |events| - 1;
    if j == n {
      assert events[..j] + events[j + 1..] == events[..n];
    } else {
      UsageWithout(events[..n], j, meter, start, end);
      var rest := events[..j] + events[j + 1..];
      assert events[..n][..j] + events[..n][j + 1..] == rest[..|rest| - 1];
      assert rest[|rest| - 1] == events[n] && events[..n][j] == events[j];
    }
  }

  /** Period usage depends only on which events count, not on the order they were recorded in. */
  lemma {:induction false} SameEventsSameUsage(a: seq<UsageEvent>, b: seq<UsageEvent>, meter: MeterId, start: int, end: int)
    requires UniqueIds(a) && UniqueIds(b)
    requires forall e :: Counts(e, meter, start, end) ==> (e in a <==> e in b)
    ensures PeriodUsage(a, meter, start, end) == PeriodUsage(b, meter, start, end)
    decreases |a| + |b|
  {
    if a != [] {
      DropLast(a, b, meter, start, end);
    } else if b != [] {
      DropLast(b, a, meter, start, end);
    }
  }

  lemma {:induction false} DropLast(a: seq<UsageEvent>, b: seq<UsageEvent>, meter: MeterId, start: int, end: int)
    requires a != [] && UniqueIds(a) && UniqueIds(b)
    requires forall e :: Counts(e, meter, start, end) ==> (e in a <==> e in b)
    ensures PeriodUsage(a, meter, start, end) == PeriodUsage(b, meter, start, end)
    decreases |a| + |b|, 0
  {
    hide PeriodUsage;
    var n := |a| - 1;
    var last := a[n];
    UsageWithout(a, n, meter, start, end);
    assert a[..n] + a[n + 1..] == a[..n];
    assert a == a[..n] + [last] && last !in a[..n];
    if Counts(last, meter, start, end) {
      assert last in b;
      var j :| 0 <= j < |b| && b[j] == last;
      var rest := b[..j] + b[j + 1..];
      UsageWithout(b, j, meter, start, end);
      RestOf(b, j);
      SameEventsSameUsage(a[..n], rest, meter, start, end);
    } else {
      SameEventsSameUsage(a[..n], b, meter, start, end);
    }
  }

  lemma RestOf(b: seq<UsageEvent>, j: nat)
    requires j < |b| && UniqueIds(b)
    ensures var rest := b[..j] + b[j + 1..];
            UniqueIds(rest) && (forall e :: e in rest <==> e in b && e != b[j])
  {
    var rest := b[..j] + b[j + 1..];
    forall e | e in b && e != b[j] ensures e in rest {
      var i :| 0 <= i < |b| && b[i] == e;
      assert e == if i < j then rest[i] else rest[i - 1];
    }
  }

  /** The major units a list of payments is worth. */
  function UnitsTotal(attempts: seq<Settled>, currency: Currency): int {
    if attempts == [] then 0
    else
      var v := VolumeOf(attempts[|attempts| - 1], Context(0, currency, 0));
      UnitsTotal(attempts[..|attempts| - 1], currency) + (if v.Measured? then v.event.units else 0)
  }

  /** A payment of the window counts with its own units, whatever the meter and clock it is read with. */
  lemma MeasureCounts(a: Settled, meter: MeterId, currency: Currency, now: int, since: int, until: int)
    requires InWindow(a, since, until)
    ensures var v, plain := VolumeOf(a, Context(meter, currency, now)), VolumeOf(a, Context(0, currency, 0));
            && v.Measured? == plain.Measured?
            && (v.Measured? ==> v.event.id == a.id && UnitsOf(v.event, meter, since, until) == v.event.units == plain.event.units)
  {}

  lemma UsageAppend(events: seq<UsageEvent>, e: UsageEvent, meter: MeterId, since: int, until: int)
    ensures PeriodUsage(events + [e], meter, since, until) == PeriodUsage(events, meter, since, until) + UnitsOf(e, meter, since, until)
  {
    assert (events + [e])[..|events|] == events;
  }

  lemma {:induction false} RowsUsage(attempts: seq<Settled>, meter: MeterId, currency: Currency, now: int, since: int, until: int)
    requires forall a :: a in attempts ==> InWindow(a, since, until)
    ensures PeriodUsage(Rows(attempts, Context(meter, currency, now)), meter, since, until) == UnitsTotal(attempts, currency)
    decreases |attempts|
  {
    hide VolumeOf, PeriodUsage, InWindow, UnitsOf;
    if attempts == [] {
      NoUsage(meter, since, until);
    } else {
      var n := |attempts| - 1;
      assert attempts[n] in attempts && forall a :: a in attempts[..n] ==> a in attempts;
      RowsUsage(attempts[..n], meter, currency, now, since, until);
      var before, v := Rows(attempts[..n], Context(meter, currency, now)), VolumeOf(attempts[n], Context(meter, currency, now));
      MeasureCounts(attempts[n], meter, currency, now, since, until);
      if v.Measured? {
        UsageAppend(before, v.event, meter, since, until);
      } else {
        assert before + [] == before;
      }
    }
  }

  lemma NoUsage(meter: MeterId, since: int, until: int)
    ensures PeriodUsage([], meter, since, until) == 0
  {}

  /** Rows of distinct payments have distinct ids. */
  lemma {:induction false} RowsAreUnique(attempts: seq<Settled>, ctx: Context)
    requires ById(attempts)
    ensures UniqueIds(Rows(attempts, ctx))
    ensures forall i :: 0 <= i < |Rows(attempts, ctx)| ==> exists a :: a in attempts && a.id == Rows(attempts, ctx)[i].id
    decreases |attempts|
  {
    hide VolumeOf;
    if attempts != [] {
      var n := |attempts| - 1;
      RowsAreUnique(attempts[..n], ctx);
      var before, v := Rows(attempts[..n], ctx), VolumeOf(attempts[n], ctx);
      assert attempts[n] in attempts && forall a :: a in attempts[..n] ==> a in attempts && a.id < attempts[n].id;
      if v.Measured? { RowKeepsId(attempts[n], ctx); }
    }
  }

  lemma RowKeepsId(a: Settled, ctx: Context)
    requires VolumeOf(a, ctx).Measured?
    ensures VolumeOf(a, ctx).event.id == a.id
  {}

  /** The payments that are on record on one meter. */
  function OnMeter(ps: seq<Pass>, attempts: seq<Settled>, meter: MeterId): seq<Settled> {
    if attempts == [] then []
    else
      var n := |attempts| - 1;
      OnMeter(ps, attempts[..n], meter) + (if FirstMeter(ps, attempts[n]) == Some(meter) then [attempts[n]] else [])
  }

  lemma {:induction false} OnMeterAre(ps: seq<Pass>, attempts: seq<Settled>, meter: MeterId)
    requires ById(attempts)
    ensures var m := OnMeter(ps, attempts, meter);
            ById(m) && forall a :: a in m <==> a in attempts && FirstMeter(ps, a) == Some(meter)
    decreases |attempts|
  {
    hide FirstMeter;
    if attempts != [] {
      var n := |attempts| - 1;
      OnMeterAre(ps, attempts[..n], meter);
      assert attempts == attempts[..n] + [attempts[n]];
      var m := OnMeter(ps, attempts[..n], meter);
      forall i | 0 <= i < |m| ensures m[i].id < attempts[n].id {
        assert m[i] in attempts[..n];
      }
    }
  }

  predicate Measures(a: Settled, currency: Currency) { VolumeOf(a, Context(0, currency, 0)).Measured? }

  /** What is on one meter is everything exactly when no payment that measures something is elsewhere. */
  lemma {:induction false} AllOnMeter(ps: seq<Pass>, attempts: seq<Settled>, meter: MeterId, currency: Currency)
    ensures var on, total := UnitsTotal(OnMeter(ps, attempts, meter), currency), UnitsTotal(attempts, currency);
            on <= total
            && (on == total <==> forall i :: 0 <= i < |attempts| && Measures(attempts[i], currency) ==> FirstMeter(ps, attempts[i]) == Some(meter))
            && (on == 0 <==> forall i :: 0 <= i < |attempts| && Measures(attempts[i], currency) ==> FirstMeter(ps, attempts[i]) != Some(meter))
            && 0 <= on
    decreases |attempts|
  {
    hide FirstMeter, Measures, UnitsTotal;
    if attempts == [] {
      NoUnits(currency);
    } else {
      var n := |attempts| - 1;
      AllOnMeter(ps, attempts[..n], meter, currency);
      assert forall i :: 0 <= i < n ==> attempts[..n][i] == attempts[i];
      var earlier := OnMeter(ps, attempts[..n], meter);
      UnitsOfOne(earlier, attempts[n], currency);
      UnitsOfOne(attempts[..n], attempts[n], currency);
      assert attempts[..n] + [attempts[n]] == attempts && earlier + [] == earlier;
    }
  }

  lemma NoUnits(currency: Currency)
    ensures UnitsTotal([], currency) == 0
  {}

  lemma UnitsOfOne(attempts: seq<Settled>, a: Settled, currency: Currency)
    ensures UnitsTotal(attempts + [a], currency) >= UnitsTotal(attempts, currency)
    ensures UnitsTotal(attempts + [a], currency) == UnitsTotal(attempts, currency) <==> !Measures(a, currency)
    ensures UnitsTotal(attempts + [a], currency) - UnitsTotal(attempts, currency) == UnitsTotal([a], currency)
  {
    assert (attempts + [a])[..|attempts|] == attempts && [a][..0] == [];
  }

  lemma {:induction false} UsageConcat(a: seq<UsageEvent>, b: seq<UsageEvent>, meter: MeterId, since: int, until: int)
    ensures PeriodUsage(a + b, meter, since, until) == PeriodUsage(a, meter, since, until) + PeriodUsage(b, meter, since, until)
    decreases |b|
  {
    hide PeriodUsage;
    if b == [] {
      assert a + b == a;
      NoUsage(meter, since, until);
    } else {
      var n := |b| - 1;
      UsageConcat(a, b[..n], meter, since, until);
      UsageAppend(a + b[..n], b[n], meter, since, until);
      UsageAppend(b[..n], b[n], meter, since, until);
      assert a + b[..n] + [b[n]] == a + b && b[..n] + [b[n]] == b;
    }
  }

  /**
   * What any run of passes leaves on a meter for a window: what was there
   * otherwise, and the volume of the payments settled in the window that a pass
   * for this meter was the first to cover.
   */
  lemma UsageAfterPasses(events: seq<UsageEvent>, ps: seq<Pass>, all: seq<Settled>, meter: MeterId, currency: Currency, since: int, until: int)
    requires ById(all) && AllSaw(ps, all) && Foreign(events, all)
    ensures PeriodUsage(RunPasses(events, ps, currency), meter, since, until)
            == PeriodUsage(events, meter, since, until) + UnitsTotal(OnMeter(ps, Matching(all, since, until), meter), currency)
  {
    hide RunPasses, PeriodUsage, OnRecord, Matching, OnMeter, Rows, UnitsTotal, InWindow, UniqueIds;
    var settled := Matching(all, since, until);
    var on := OnMeter(ps, settled, meter);
    var rows := Rows(on, Context(meter, currency, 0));
    MatchingAre(all, since, until);
    OnMeterAre(ps, settled, meter);
    RowsUsage(on, meter, currency, 0, since, until);
    RowsAreUnique(on, Context(meter, currency, 0));
    UniqueTogether(events, on, Context(meter, currency, 0), all);
    forall e | Counts(e, meter, since, until) ensures e in RunPasses(events, ps, currency) <==> e in events + rows {
      OneEventPerPayment(events, ps, all, currency, e);
      RowsAre(on, Context(meter, currency, 0), e);
      CountedAreOnMeter(ps, all, settled, on, meter, currency, since, until, e);
    }
    OneEventPerPayment(events, ps, all, currency, UsageEvent(0, meter, 0, 0));
    SameEventsSameUsage(RunPasses(events, ps, currency), events + rows, meter, since, until);
    UsageConcat(events, rows, meter, since, until);
  }

  lemma UniqueTogether(events: seq<UsageEvent>, attempts: seq<Settled>, ctx: Context, all: seq<Settled>)
    requires Foreign(events, all) && ById(attempts) && forall a :: a in attempts ==> a in all
    ensures UniqueIds(events + Rows(attempts, ctx))
  {
    hide Rows;
    var rows := Rows(attempts, ctx);
    RowsAreUnique(attempts, ctx);
    forall i, j | 0 <= i < |events| && 0 <= j < |rows| ensures events[i].id != rows[j].id {
      assert exists a :: a in attempts && a.id == Rows(attempts, ctx)[j].id;
      var a :| a in attempts && a.id == rows[j].id;
      assert events[i] in events && a in all;
    }
  }

  /** An event counting in the window is on record exactly when its payment settled in the window and is on the meter. */
  lemma CountedAreOnMeter(ps: seq<Pass>, all: seq<Settled>, settled: seq<Settled>, on: seq<Settled>, meter: MeterId, currency: Currency,
                          since: int, until: int, e: UsageEvent)
    requires AllSaw(ps, all) && Counts(e, meter, since, until)
    requires forall a :: a in settled <==> a in all && InWindow(a, since, until)
    requires forall a :: a in on <==> a in settled && FirstMeter(ps, a) == Some(meter)
    ensures (exists a :: OnRecord(ps, currency, a, e)) <==> exists a :: a in on && VolumeOf(a, Context(meter, currency, 0)) == Measured(e)
  {
    hide FirstMeter, VolumeOf;
    if a :| OnRecord(ps, currency, a, e) {
      CoveredIsSettled(ps, all, a);
      StampedInWindow(ps, a, meter, currency, since, until, e);
      assert a in on;
    }
    if a :| a in on && VolumeOf(a, Context(meter, currency, 0)) == Measured(e) {
      assert OnRecord(ps, currency, a, e);
    }
  }

  lemma StampedInWindow(ps: seq<Pass>, a: Settled, meter: MeterId, currency: Currency, since: int, until: int, e: UsageEvent)
    requires FirstMeter(ps, a).Some? && Implies(a, meter, currency, e) && since <= e.timestamp < until
    ensures InWindow(a, since, until)
  {
    FirstMeterIsCovered(ps, a);
    var i :| 0 <= i < |ps| && CoveredBy(ps[i], a);
  }

  /**
   * Whether a period's usage on a meter is the volume settled in it: exactly when
   * every payment of the period that measures something was first covered by a
   * pass for that meter.
   */
  lemma UsageIsSettledVolumeExactlyWhen(events: seq<UsageEvent>, ps: seq<Pass>, all: seq<Settled>, meter: MeterId, currency: Currency, since: int, until: int)
    requires ById(all) && AllSaw(ps, all) && Foreign(events, all)
    ensures var matching := Matching(all, since, until);
            var base := PeriodUsage(events, meter, since, until);
            PeriodUsage(RunPasses(events, ps, currency), meter, since, until) == base + UnitsTotal(matching, currency)
            <==> forall i :: 0 <= i < |matching| && Measures(matching[i], currency) ==> FirstMeter(ps, matching[i]) == Some(meter)
  {
    hide RunPasses, PeriodUsage, OnMeter, UnitsTotal, FirstMeter, Matching, Measures;
    UsageAfterPasses(events, ps, all, meter, currency, since, until);
    AllOnMeter(ps, Matching(all, since, until), meter, currency);
  }

  /**
   * A flush that sees everything settled in its window makes its meter's usage
   * exact, whichever passes ran before and whatever they missed, unless one of
   * them had put a payment of the window on another meter.
   */
  lemma FlushMakesUsageExact(events: seq<UsageEvent>, ps: seq<Pass>, flush: Pass, currency: Currency)
    requires Saw(flush, flush.seen) && AllSaw(ps, flush.seen) && Foreign(events, flush.seen)
    ensures var after := RunPasses(events, ps + [flush], currency);
            var matching := Matching(flush.seen, flush.since, flush.until);
            PeriodUsage(after, flush.meter, flush.since, flush.until)
            == PeriodUsage(events, flush.meter, flush.since, flush.until) + UnitsTotal(matching, currency)
            <==> forall i :: 0 <= i < |matching| && Measures(matching[i], currency) ==> FirstMeter(ps, matching[i]) in {None, Some(flush.meter)}
  {
    hide RunPasses, PeriodUsage, UnitsTotal, Matching, Measures, InWindow;
    var passes, matching := ps + [flush], Matching(flush.seen, flush.since, flush.until);
    assert forall i :: 0 <= i < |passes| ==> passes[i] == if i < |ps| then ps[i] else flush;
    UsageIsSettledVolumeExactlyWhen(events, passes, flush.seen, flush.meter, currency, flush.since, flush.until);
    MatchingAre(flush.seen, flush.since, flush.until);
    assert passes[..|ps|] == ps;
    forall i | 0 <= i < |matching| ensures FirstMeter(passes, matching[i]) == Some(FirstMeter(ps, matching[i]).Or(flush.meter)) {
      assert matching[i] in matching;
    }
  }

  // -- which enrolment meters -----------------------------------------------------------------

  /** A metered subscription of the platform in an enrolled status; `source` is its customer's organization. */
  datatype Enrolment = Enrolment(id: nat, customer: nat, source: Option<nat>, meter: MeterId, meterActive: bool, currency: Currency)

  /** `enrolmentContext` is not null. */
  predicate Meterable(e: Enrolment, platform: nat) {
    e.source.Some? && e.meterActive && e.source.value != platform
  }

  /** The sweep takes the first meterable enrolment it meets of each customer. */
  predicate Picked(enrolled: seq<Enrolment>, platform: nat, i: nat)
    requires i < |enrolled|
  {
    Meterable(enrolled[i], platform)
    && forall j :: 0 <= j < i && Meterable(enrolled[j], platform) ==> enrolled[j].customer != enrolled[i].customer
  }

  function Chosen(enrolled: seq<Enrolment>, platform: nat): seq<Enrolment> {
    if enrolled == [] then []
    else
      var n := |enrolled| - 1;
      Chosen(enrolled[..n], platform) + (if Picked(enrolled, platform, n) then [enrolled[n]] else [])
  }

  function MeterableCount(enrolled: seq<Enrolment>, platform: nat): nat {
    if enrolled == [] then 0
    else MeterableCount(enrolled[..|enrolled| - 1], platform) + (if Meterable(enrolled[|enrolled| - 1], platform) then 1 else 0)
  }

  const ENROLMENT_PAGE := 500

  /** The paged loop of `runPlatformVolumeMetering` over enrolments in age order. */
  method ChooseEnrolments(enrolled: seq<Enrolment>, platform: nat) returns (chosen: seq<Enrolment>, duplicates: nat)
    ensures chosen == Chosen(enrolled, platform)
    ensures |chosen| + duplicates == MeterableCount(enrolled, platform)
  {
    chosen, duplicates := [], 0;
    var seen: set<nat> := {};
    var read := 0;
    while read < |enrolled|
      invariant read <= |enrolled|
      invariant Progress(enrolled[..read], platform, chosen, duplicates, seen)
    {
      var page := enrolled[read..Min(read + ENROLMENT_PAGE, |enrolled|)];
      for i := 0 to |page|
        invariant Progress(enrolled[..read + i], platform, chosen, duplicates, seen)
      {
        var subscription := page[i];
        assert enrolled[..read + i + 1] == enrolled[..read + i] + [subscription];
        ProgressStep(enrolled[..read + i], subscription, platform, chosen, duplicates, seen);
        if !Meterable(subscription, platform) { continue; }
        if subscription.customer in seen {
          duplicates := duplicates + 1;
          continue;
        }
        seen := seen + {subscription.customer};
        chosen := chosen + [subscription];
      }
      read := read + |page|;
    }
    assert enrolled[..|enrolled|] == enrolled;
  }

  ghost predicate Progress(done: seq<Enrolment>, platform: nat, chosen: seq<Enrolment>, duplicates: nat, seen: set<nat>) {
    && chosen == Chosen(done, platform) && |chosen| + duplicates == MeterableCount(done, platform)
    && forall c :: c in seen <==> Seen(done, platform, c)
  }

  predicate Seen(done: seq<Enrolment>, platform: nat, customer: nat) {
    exists i :: 0 <= i < |done| && Meterable(done[i], platform) && done[i].customer == customer
  }

  lemma ProgressStep(done: seq<Enrolment>, next: Enrolment, platform: nat, chosen: seq<Enrolment>, duplicates: nat, seen: set<nat>)
    requires Progress(done, platform, chosen, duplicates, seen)
    ensures var more := done + [next];
            if !Meterable(next, platform) then Progress(more, platform, chosen, duplicates, seen)
            else if next.customer in seen then Progress(more, platform, chosen, duplicates + 1, seen)
            else Progress(more, platform, chosen + [next], duplicates, seen + {next.customer})
  {
    hide Meterable;
    var more := done + [next];
    assert more[..|done|] == done;
    forall c ensures Seen(more, platform, c) <==> Seen(done, platform, c) || (Meterable(next, platform) && next.customer == c) {
      if i :| 0 <= i < |done| && Meterable(done[i], platform) && done[i].customer == c { assert more[i] == done[i]; }
      if Meterable(next, platform) && next.customer == c { assert more[|done|] == next; }
    }
    assert forall j :: 0 <= j < |done| ==> more[j] == done[j];
  }

  /** `canonicalEnrolmentId`: the customer's oldest enrolment, meterable or not. */
  function Oldest(enrolled: seq<Enrolment>, customer: nat): Option<Enrolment> {
    if enrolled == [] then None
    else if enrolled[0].customer == customer then Some(enrolled[0])
    else Oldest(enrolled[1..], customer)
  }

  /** The enrolment whose renewals flush volume: the canonical one, if it can be metered at all. */
  function Flushed(enrolled: seq<Enrolment>, platform: nat, customer: nat): Option<Enrolment> {
    var oldest := Oldest(enrolled, customer);
    if oldest.Some? && Meterable(oldest.value, platform) then oldest else None
  }

  /** The enrolment the scheduled sweep meters for a customer. */
  function Scheduled(enrolled: seq<Enrolment>, platform: nat, customer: nat): Option<Enrolment> {
    if enrolled == [] then None
    else if enrolled[0].customer == customer && Meterable(enrolled[0], platform) then Some(enrolled[0])
    else Scheduled(enrolled[1..], platform, customer)
  }

  lemma {:induction false} ScheduledIsFirst(enrolled: seq<Enrolment>, platform: nat, customer: nat)
    ensures match Scheduled(enrolled, platform, customer)
            case None => forall i :: 0 <= i < |enrolled| && enrolled[i].customer == customer ==> !Meterable(enrolled[i], platform)
            case Some(e) => exists i :: 0 <= i < |enrolled| && enrolled[i] == e && e.customer == customer && Picked(enrolled, platform, i)
    decreases |enrolled|
  {
    hide Meterable;
    if enrolled != [] {
      var tail := enrolled[1..];
      assert forall j :: 1 <= j < |enrolled| ==> enrolled[j] == tail[j - 1];
      if enrolled[0].customer == customer && Meterable(enrolled[0], platform) {
        assert Picked(enrolled, platform, 0);
      } else {
        ScheduledIsFirst(tail, platform, customer);
        if Scheduled(tail, platform, customer).Some? {
          var i :| 0 <= i < |tail| && tail[i] == Scheduled(tail, platform, customer).value
                   && tail[i].customer == customer && Picked(tail, platform, i);
          assert Picked(enrolled, platform, i + 1);
        }
      }
    }
  }

  lemma {:induction false} ChosenAre(enrolled: seq<Enrolment>, platform: nat, e: Enrolment)
    ensures e in Chosen(enrolled, platform) <==> exists i :: 0 <= i < |enrolled| && enrolled[i] == e && Picked(enrolled, platform, i)
    decreases |enrolled|
  {
    hide Meterable;
    if enrolled != [] {
      var n := |enrolled| - 1;
      ChosenAre(enrolled[..n], platform, e);
      forall i | 0 <= i < n ensures Picked(enrolled, platform, i) <==> Picked(enrolled[..n], platform, i) {
        assert forall j :: 0 <= j <= i ==> enrolled[..n][j] == enrolled[j];
      }
      assert forall i :: 0 <= i < n ==> enrolled[..n][i] == enrolled[i];
    }
  }

  /** What the sweep meters for a customer is the one enrolment it chose. */
  lemma SweepMetersScheduled(enrolled: seq<Enrolment>, platform: nat, e: Enrolment)
    ensures e in Chosen(enrolled, platform) <==> Scheduled(enrolled, platform, e.customer) == Some(e)
  {
    hide Meterable;
    ChosenAre(enrolled, platform, e);
    ScheduledIsFirst(enrolled, platform, e.customer);
    if e in Chosen(enrolled, platform) {
      var i :| 0 <= i < |enrolled| && enrolled[i] == e && Picked(enrolled, platform, i);
      var s := Scheduled(enrolled, platform, e.customer);
      if s.Some? {
        var j :| 0 <= j < |enrolled| && enrolled[j] == s.value && s.value.customer == e.customer && Picked(enrolled, platform, j);
        assert i == j;
      }
    }
  }

  /** One enrolment a customer at most is metered, with an active meter and an organization that is not the platform's own. */
  lemma OneEnrolmentPerCustomer(enrolled: seq<Enrolment>, platform: nat, e: Enrolment, e': Enrolment)
    requires e in Chosen(enrolled, platform)
    ensures e.meterActive && e.source.Some? && e.source.value != platform
    ensures e' in Chosen(enrolled, platform) && e'.customer == e.customer ==> e' == e
    ensures e' in enrolled && e'.meterActive && e'.source.Some? && e'.source.value != platform ==> Scheduled(enrolled, platform, e'.customer).Some?
  {
    SweepMetersScheduled(enrolled, platform, e);
    SweepMetersScheduled(enrolled, platform, e');
    ChosenAre(enrolled, platform, e);
    if e' in enrolled && Meterable(e', platform) { MeterableIsScheduled(enrolled, platform, e'); }
  }

  lemma {:induction false} MeterableIsScheduled(enrolled: seq<Enrolment>, platform: nat, e: Enrolment)
    requires e in enrolled && Meterable(e, platform)
    ensures Scheduled(enrolled, platform, e.customer).Some?
    decreases |enrolled|
  {
    hide Meterable;
    if enrolled[0] != e { MeterableIsScheduled(enrolled[1..], platform, e); }
  }

  /**
   * The renewal flush and the scheduled sweep meter the same enrolment of a
   * customer exactly when the customer's oldest enrolment is meterable, or none
   * is. Otherwise the sweep meters an enrolment whose renewals flush nothing.
   */
  lemma {:induction false} FlushAgreesWithSweep(enrolled: seq<Enrolment>, platform: nat, customer: nat)
    ensures Flushed(enrolled, platform, customer) == Scheduled(enrolled, platform, customer)
            <==> || Scheduled(enrolled, platform, customer).None?
                 || Meterable(Oldest(enrolled, customer).Or(Enrolment(0, 0, None, 0, false, NGN)), platform)
    decreases |enrolled|
  {
    hide Meterable;
    if enrolled != [] && enrolled[0].customer != customer {
      FlushAgreesWithSweep(enrolled[1..], platform, customer);
    }
  }
}
