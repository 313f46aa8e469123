/**
 * The billing cycle over every run of transactions: which windows get invoiced,
 * how far the sweep catches up, what usage is billed, and what a recovery replays.
 */
module Cycle {
  import opened Basics
  import opened Calendar
  import opened Interval
  import opened StateMachine
  import opened StatusHistory
  import opened Recovery
  import opened Pricing
  import opened Billing
  import InvoiceLines
  import Proration

  // -- what an invoice bills ------------------------------------------------------------

  /** The part of an invoice that is fixed when it is issued. */
  datatype Issued = Issued(start: int, end: int, reason: Option<InvoiceReason>, createdAt: int, usage: Option<UsageRecord>)

  function IssuedOf(invoices: seq<Invoice>): (r: seq<Issued>)
    ensures |r| == |invoices|
  {
    seq(|invoices|, i requires 0 <= i < |invoices| =>
      Issued(invoices[i].periodStart, invoices[i].periodEnd, invoices[i].reason, invoices[i].createdAt, invoices[i].usage))
  }

  datatype Window = Window(start: int, end: int)

  /** The billing windows opened by creation and renewal; proration invoices open none. */
  function Windows(issued: seq<Issued>): seq<Window> {
    if issued == [] then []
    else
      var last := issued[|issued| - 1];
      Windows(issued[..|issued| - 1]) + (if last.reason.None? then [Window(last.start, last.end)] else [])
  }

  /** The windows lie end to end from `from` to `to`, each at least a day long. */
  predicate Tiles(ws: seq<Window>, from: int, to: int)
    decreases |ws|
  {
    if ws == [] then from == to
    else
      var last := ws[|ws| - 1];
      last.end == to && last.start + DAY_MS <= last.end && Tiles(ws[..|ws| - 1], from, last.start)
  }

  lemma {:induction false} TilesInOrder(ws: seq<Window>, from: int, to: int)
    requires Tiles(ws, from, to)
    ensures from + |ws| * DAY_MS <= to
    ensures forall i :: 0 <= i < |ws| ==> from <= ws[i].start && ws[i].start + DAY_MS <= ws[i].end <= to
    ensures forall i, j :: 0 <= i < j < |ws| ==> ws[i].end <= ws[j].start
    decreases |ws|
  {
    if ws != [] {
      var n := |ws| - 1;
      TilesInOrder(ws[..n], from, ws[n].start);
      forall i | 0 <= i < n ensures ws[i] == ws[..n][i] {}
    }
  }

  /** Every moment from the first start to the last end is in exactly one window. */
  lemma {:induction false} TilesCoverOnce(ws: seq<Window>, from: int, to: int, t: int)
    requires Tiles(ws, from, to) && from <= t < to
    ensures exists i :: 0 <= i < |ws| && ws[i].start <= t < ws[i].end
    ensures forall i, j :: 0 <= i < |ws| && 0 <= j < |ws| && ws[i].start <= t < ws[i].end && ws[j].start <= t < ws[j].end ==> i == j
    decreases |ws|
  {
    TilesInOrder(ws, from, to);
    var n := |ws| - 1;
    if t < ws[n].start {
      TilesCoverOnce(ws[..n], from, ws[n].start, t);
      var i :| 0 <= i < |ws[..n]| && ws[..n][i].start <= t < ws[..n][i].end;
      assert ws[i].start <= t < ws[i].end;
    } else {
      assert ws[n].start <= t < ws[n].end;
    }
  }

  // -- what one transaction does to the cycle ---------------------------------------------

  /** Opens the window after the current one and bills the closed one's usage. */
  predicate Opens(s: State, s': State) {
    var n := |s.invoices|;
    && s'.sub.period.start == s.sub.period.end
    && s.sub.period.end + DAY_MS <= s'.sub.period.end
    && |s'.invoices| == n + 1
    && IssuedOf(s'.invoices) == IssuedOf(s.invoices) + [IssuedOf(s'.invoices)[n]]
    && s'.invoices[n].reason.None?
    && s'.invoices[n].periodStart == s.sub.period.end && s'.invoices[n].periodEnd == s'.sub.period.end
    && (s'.invoices[n].usage.None? ==> s'.events == s.events)
    && (s'.invoices[n].usage.Some? ==>
          var u := s'.invoices[n].usage.value;
          u == UsageRecord(u.meter, s.sub.period.start, s.sub.period.end,
                           PeriodUsage(s'.events, u.meter, s.sub.period.start, s.sub.period.end)))
  }

  /** Issues a proration invoice, starting at the change, and leaves the window alone. */
  predicate Prorates(s: State, s': State, now: int) {
    var n := |s.invoices|;
    && s'.sub.period == s.sub.period && s'.events == s.events
    && |s'.invoices| == n + 1
    && IssuedOf(s'.invoices) == IssuedOf(s.invoices) + [IssuedOf(s'.invoices)[n]]
    && s'.invoices[n].reason.Some? && s'.invoices[n].usage.None? && s'.invoices[n].periodStart == now
  }

  /** Neither opens nor issues anything. */
  predicate Rests(s: State, s': State) {
    s'.sub.period == s.sub.period && IssuedOf(s'.invoices) == IssuedOf(s.invoices)
  }

  /** A payment brings an UNPAID subscription back: the one thing that rebases the window. */
  predicate Recovers(s: State, op: Op) {
    s.Status() == UNPAID && Step(s, op).Status() == ACTIVE
  }

  lemma IssuedAppend(invoices: seq<Invoice>, inv: Invoice)
    ensures IssuedOf(invoices + [inv]) == IssuedOf(invoices) + [IssuedOf(invoices + [inv])[|invoices|]]
  {}

  lemma OpenNextPeriodOpens(s: State, price: Economics, flush: seq<UsageEvent>, at: int)
    requires OpenNextPeriod(s, price, flush, at).Ok?
    ensures Opens(s, OpenNextPeriod(s, price, flush, at).value)
  {
    hide AddInterval, RecurringLines, UsageLines, UsageSnapshot, PeriodUsage, InvoiceLines.LinesTotal, RenewalAnchor, InsertEvents;
    IntervalIsValid(s.sub.period.end, price.interval, RenewalAnchor(s));
    IntervalAdvancesADay(s.sub.period.end, price.interval, RenewalAnchor(s));
    IssuedAppend(s.invoices, OpenNextPeriod(s, price, flush, at).value.invoices[|s.invoices|]);
  }

  lemma IntervalIsValid(date: int, interval: BillingInterval, anchor: Option<AnchorDay>)
    requires AddInterval(date, interval, anchor).Ok?
    ensures ValidInterval(interval)
  {}

  lemma RenewCycle(s: State, op: Op)
    requires op.DoRenew? && Try(s, op).Ok?
    ensures var s' := Try(s, op).value; Opens(s, s') || (Rests(s, s') && s'.events == s.events)
    ensures Opens(s, Try(s, op).value) && op.onlyWhenDue ==> s.sub.period.end <= op.now
  {
    hide OpenNextPeriod, BillingPrice, Opens;
    var price := BillingPrice(s.sub, op.current);
    if (op.onlyWhenDue && !IsPeriodDue(s.sub.period.end, op.now)) || s.sub.cancelAtPeriodEnd {
      RestIsNotOpening(s, Try(s, op).value);
    } else {
      OpenNextPeriodOpens(s, price, op.flush, op.at);
      OpensIgnoresStatus(s, OpenNextPeriod(s, price, op.flush, op.at).value, Try(s, op).value);
    }
  }

  lemma OpensIgnoresStatus(s: State, s': State, s'': State)
    requires s''.sub == s'.sub && s''.invoices == s'.invoices && s''.events == s'.events
    ensures Opens(s, s') ==> Opens(s, s'')
  {}

  lemma RestIsNotOpening(s: State, s': State)
    requires s'.invoices == s.invoices
    ensures !Opens(s, s')
  {}

  lemma ChangeCycle(s: State, op: Op)
    requires (op.DoChangePlan? || op.DoChangeQuantity?) && Try(s, op).Ok?
    ensures var s' := Try(s, op).value; Prorates(s, s', op.now) || (Rests(s, s') && s'.events == s.events)
  {
    hide InvoiceLines.LinesTotal, Proration.Prorate, Proration.ProrateSeats, RecurringAmount, Billable;
    var s' := Try(s, op).value;
    if |s'.invoices| > |s.invoices| { IssuedAppend(s.invoices, s'.invoices[|s.invoices|]); }
  }

  lemma FailInvoiceRests(s: State, k: nat, at: int)
    ensures FailInvoice(s, k, at).Ok?
    ensures var s' := FailInvoice(s, k, at).value; Rests(s, s') && s'.events == s.events
  {}

  lemma RecoverCycle(s: State, recoveredAt: int)
    requires Recover(s, recoveredAt).Ok?
    ensures var s' := Recover(s, recoveredAt).value;
            && s'.invoices == s.invoices && s'.events == s.events
            && (s.Status() != UNPAID ==> s'.sub.period == s.sub.period)
            && (s.Status() == UNPAID ==> s'.Status() == ACTIVE)
  {
    hide AddInterval;
  }

  lemma ApplyResultCycle(s: State, k: nat, result: PaymentResult, at: int)
    requires ApplyPaymentResult(s, k, result, at).Ok?
    requires !(s.Status() == UNPAID && ApplyPaymentResult(s, k, result, at).value.Status() == ACTIVE)
    ensures var s' := ApplyPaymentResult(s, k, result, at).value; Rests(s, s') && s'.events == s.events
  {
    hide Recover, FailInvoice;
    var attempt := s.attempts[k];
    if !Settled(attempt.status) {
      var marked := s.(attempts := s.attempts[k := attempt.(status := result.status)]);
      if result.status in {Failed, Canceled} {
        FailInvoiceRests(marked, attempt.invoice, at);
      } else if result.status == Succeeded {
        var paid := PayInvoice(s.invoices[attempt.invoice], result.amount).value;
        var credited := marked.(
          invoices := s.invoices[attempt.invoice := paid],
          credits := s.credits + [Credit(k, attempt.invoice, result.amount)],
          sub := s.sub.(hasMethod := s.sub.hasMethod || result.savesMethod));
        assert IssuedOf(credited.invoices) == IssuedOf(s.invoices);
        if paid.status == Paid { RecoverCycle(credited, result.paidAt.Or(at)); }
      }
    }
  }

  /** Every transaction that is not a recovery from UNPAID opens the next window, prorates, or rests. */
  lemma TryCycle(s: State, op: Op)
    requires Try(s, op).Ok? && !Recovers(s, op)
    ensures var s' := Try(s, op).value;
            || (op.DoRenew? && Opens(s, s'))
            || ((op.DoChangePlan? || op.DoChangeQuantity?) && Prorates(s, s', op.now))
            || (Rests(s, s') && (op.DoTrackUsage? || s'.events == s.events))
  {
    hide Renew, ApplyPaymentResult, FailInvoice, ChangePlan, ChangeQuantity, InFlight, InsertEvent, Opens, Prorates, StatusHistory.ApplyTransition;
    match op {
      case DoRenew(_, _, _, _, _, _) => RenewCycle(s, op);
      case DoChangePlan(_, _, _, _, _) => ChangeCycle(s, op);
      case DoChangeQuantity(_, _, _) => ChangeCycle(s, op);
      case DoApplyResult(k, result, at) => ApplyResultCycle(s, k, result, at);
      case DoFailInvoice(k, at) => FailInvoiceRests(s, k, at);
      case _ =>
    }
  }

  // -- windows over a run -------------------------------------------------------------------

  predicate NoRecovery(s: State, ops: seq<Op>)
    decreases |ops|
  {
    ops == [] || (NoRecovery(s, ops[..|ops| - 1]) && !Recovers(Run(s, ops[..|ops| - 1]), ops[|ops| - 1]))
  }

  /** Invoices issued after the first `n`. */
  function IssuedSince(s: State, n: nat): seq<Issued> {
    if n <= |s.invoices| then IssuedOf(s.invoices)[n..] else []
  }

  lemma WindowsAppend(issued: seq<Issued>, last: Issued)
    ensures Windows(issued + [last]) == Windows(issued) + (if last.reason.None? then [Window(last.start, last.end)] else [])
  {
    assert (issued + [last])[..|issued|] == issued;
  }

  lemma StepTiles(s: State, op: Op, n: nat, from: int)
    requires n <= |s.invoices| && !Recovers(s, op)
    requires Tiles(Windows(IssuedSince(s, n)), from, s.sub.period.end)
    ensures var s' := Step(s, op);
            && |s.invoices| <= |s'.invoices|
            && IssuedOf(s.invoices) <= IssuedOf(s'.invoices)
            && Tiles(Windows(IssuedSince(s', n)), from, s'.sub.period.end)
  {
    hide Try, Windows;
    if Try(s, op).Ok? {
      TryCycle(s, op);
      var s' := Step(s, op);
      if |s'.invoices| > |s.invoices| {
        var last := IssuedOf(s'.invoices)[|s.invoices|];
        assert IssuedSince(s', n) == IssuedSince(s, n) + [last];
        WindowsAppend(IssuedSince(s, n), last);
        TilesAppend(Windows(IssuedSince(s, n)), Window(last.start, last.end), from);
      }
    }
  }

  lemma TilesAppend(ws: seq<Window>, w: Window, from: int)
    ensures Tiles(ws + [w], from, w.end) <==> Tiles(ws, from, w.start) && w.start + DAY_MS <= w.end
    ensures ws + [] == ws
  {
    assert (ws + [w])[..|ws|] == ws;
  }

  /**
   * Renewal tiles time: over any run without a rebasing recovery, whatever mix
   * of sweeps, manual renewals and everything else it holds, the windows opened
   * lie end to end from the period end at the start of the run to the one at its
   * end, and what had been issued before stays issued as it was.
   */
  lemma {:induction false} RenewalsTile(s: State, ops: seq<Op>)
    requires NoRecovery(s, ops)
    ensures var s' := Run(s, ops);
            && |s.invoices| <= |s'.invoices|
            && IssuedOf(s.invoices) <= IssuedOf(s'.invoices)
            && Tiles(Windows(IssuedSince(s', |s.invoices|)), s.sub.period.end, s'.sub.period.end)
    decreases |ops|
  {
    hide Step, Recovers;
    if ops == [] {
      assert Windows(IssuedSince(s, |s.invoices|)) == [];
    } else {
      RenewalsTile(s, ops[..|ops| - 1]);
      StepTiles(Run(s, ops[..|ops| - 1]), ops[|ops| - 1], |s.invoices|, s.sub.period.end);
    }
  }

  /** So no window start is ever invoiced twice. */
  lemma NoStartInvoicedTwice(s: State, ops: seq<Op>, i: nat, j: nat)
    requires NoRecovery(s, ops)
    requires var ws := Windows(IssuedSince(Run(s, ops), |s.invoices|)); i < j < |ws|
    ensures var ws := Windows(IssuedSince(Run(s, ops), |s.invoices|));
            s.sub.period.end <= ws[i].start && ws[i].start + DAY_MS <= ws[i].end <= ws[j].start
  {
    hide Run, Windows, Tiles;
    RenewalsTile(s, ops);
    TilesInOrder(Windows(IssuedSince(Run(s, ops), |s.invoices|)), s.sub.period.end, Run(s, ops).sub.period.end);
  }

  /** Without a trial the windows of a whole life start at creation. */
  lemma WholeLifeTiles(price: Economics, quantity: int, start: int, policy: Policy, hasMethod: bool, at: int, ops: seq<Op>)
    requires Create(price, quantity, 0, start, policy, hasMethod, at).Ok?
    requires NoRecovery(Create(price, quantity, 0, start, policy, hasMethod, at).value, ops)
    ensures var s' := Run(Create(price, quantity, 0, start, policy, hasMethod, at).value, ops);
            Tiles(Windows(IssuedOf(s'.invoices)), start, s'.sub.period.end)
  {
    hide Step, Recovers;
    var s := Create(price, quantity, 0, start, policy, hasMethod, at).value;
    CreatedWindow(price, quantity, start, policy, hasMethod, at);
    TilesFromCreation(s, ops, start);
    assert IssuedSince(Run(s, ops), 0) == IssuedOf(Run(s, ops).invoices);
  }

  lemma {:induction false} TilesFromCreation(s: State, ops: seq<Op>, start: int)
    requires NoRecovery(s, ops) && Tiles(Windows(IssuedSince(s, 0)), start, s.sub.period.end)
    ensures Tiles(Windows(IssuedSince(Run(s, ops), 0)), start, Run(s, ops).sub.period.end)
    decreases |ops|
  {
    hide Step, Recovers, Windows, Tiles;
    if ops != [] {
      TilesFromCreation(s, ops[..|ops| - 1], start);
      StepTiles(Run(s, ops[..|ops| - 1]), ops[|ops| - 1], 0, start);
    }
  }

  lemma CreatedWindow(price: Economics, quantity: int, start: int, policy: Policy, hasMethod: bool, at: int)
    requires Create(price, quantity, 0, start, policy, hasMethod, at).Ok?
    ensures var s := Create(price, quantity, 0, start, policy, hasMethod, at).value;
            Tiles(Windows(IssuedSince(s, 0)), start, s.sub.period.end)
  {
    hide InvoiceLines.LinesTotal, AddInterval, RecurringLines, DayOfMonth, Billable;
    var s := Create(price, quantity, 0, start, policy, hasMethod, at).value;
    IntervalIsValid(start, price.interval, Some(DayOfMonth(start)));
    IntervalAdvancesADay(start, price.interval, Some(DayOfMonth(start)));
    var first := IssuedOf(s.invoices)[0];
    assert IssuedSince(s, 0) == [] + [first];
    WindowsAppend([], first);
    assert ([Window(first.start, first.end)])[..0] == [];
  }

  // -- catching up ----------------------------------------------------------------------------

  /** Every renewal in the run is the sweep's, for a moment no later than `now`. */
  predicate SweptBy(ops: seq<Op>, now: int) {
    forall i :: 0 <= i < |ops| && ops[i].DoRenew? ==> ops[i].onlyWhenDue && ops[i].now <= now
  }

  lemma {:induction false} SweptWindowsHaveStarted(s: State, ops: seq<Op>, now: int)
    requires NoRecovery(s, ops) && SweptBy(ops, now)
    ensures |s.invoices| <= |Run(s, ops).invoices|
    ensures var ws := Windows(IssuedSince(Run(s, ops), |s.invoices|));
            forall i :: 0 <= i < |ws| ==> ws[i].start <= now
    decreases |ops|
  {
    hide Step, Recovers, Windows, Tiles;
    if ops == [] {
      assert IssuedSince(s, |s.invoices|) == [];
      NoWindows();
    } else {
      var before, op := Run(s, ops[..|ops| - 1]), ops[|ops| - 1];
      SweptWindowsHaveStarted(s, ops[..|ops| - 1], now);
      StepStartsInTime(before, op, |s.invoices|, now);
    }
  }

  lemma NoWindows()
    ensures Windows([]) == []
  {}

  lemma StepStartsInTime(s: State, op: Op, n: nat, now: int)
    requires n <= |s.invoices| && !Recovers(s, op) && (op.DoRenew? ==> op.onlyWhenDue && op.now <= now)
    requires forall w :: w in Windows(IssuedSince(s, n)) ==> w.start <= now
    ensures |s.invoices| <= |Step(s, op).invoices|
    ensures forall w :: w in Windows(IssuedSince(Step(s, op), n)) ==> w.start <= now
  {
    hide Try, Windows;
    if Try(s, op).Ok? {
      TryCycle(s, op);
      var s' := Step(s, op);
      if |s'.invoices| > |s.invoices| {
        var last := IssuedOf(s'.invoices)[|s.invoices|];
        assert IssuedSince(s', n) == IssuedSince(s, n) + [last];
        WindowsAppend(IssuedSince(s, n), last);
        if op.DoRenew? { RenewCycle(s, op); }
      }
    }
  }

  /**
   * The sweep catches up and stops: repeated at moments up to `now`, it opens no
   * window that starts after `now`, and at most one more than the whole days by
   * which the period end lay behind.
   */
  lemma CatchUpStops(s: State, ops: seq<Op>, now: int)
    requires NoRecovery(s, ops) && SweptBy(ops, now)
    ensures |s.invoices| <= |Run(s, ops).invoices|
    ensures var ws := Windows(IssuedSince(Run(s, ops), |s.invoices|));
            && (forall i :: 0 <= i < |ws| ==> ws[i].start <= now)
            && (ws != [] ==> s.sub.period.end <= now && |ws| <= (now - s.sub.period.end) / DAY_MS + 1)
  {
    hide Run, Windows;
    RenewalsTile(s, ops);
    SweptWindowsHaveStarted(s, ops, now);
    var ws := Windows(IssuedSince(Run(s, ops), |s.invoices|));
    if ws != [] {
      var n := |ws| - 1;
      TilesInOrder(ws[..n], s.sub.period.end, ws[n].start);
      DaysBehind(n, now - s.sub.period.end);
    }
  }

  lemma DaysBehind(n: int, behind: int)
    requires 0 <= n && n * DAY_MS <= behind
    ensures n <= behind / DAY_MS
  {}

  // -- usage ----------------------------------------------------------------------------------

  /** What renewals have billed for a meter. */
  function UsedTotal(issued: seq<Issued>, meter: MeterId): int {
    if issued == [] then 0
    else
      var u := issued[|issued| - 1].usage;
      UsedTotal(issued[..|issued| - 1], meter) + (if u.Some? && u.value.meter == meter then u.value.used else 0)
  }

  /** Every window opened after the first `n` invoices billed this meter. */
  predicate AlwaysMetered(issued: seq<Issued>, meter: MeterId) {
    forall i :: 0 <= i < |issued| && issued[i].reason.None? ==> issued[i].usage.Some? && issued[i].usage.value.meter == meter
  }

  /** Units that arrived during the run for moments whose window had already been billed. */
  function LateUnits(s: State, ops: seq<Op>, meter: MeterId): int
    decreases |ops|
  {
    if ops == [] then 0
    else
      var before, after := Run(s, ops[..|ops| - 1]), Run(s, ops);
      LateUnits(s, ops[..|ops| - 1], meter)
      + PeriodUsage(after.events, meter, s.sub.period.start, before.sub.period.start)
      - PeriodUsage(before.events, meter, s.sub.period.start, before.sub.period.start)
  }

  lemma {:induction false} UsageAdds(events: seq<UsageEvent>, meter: MeterId, a: int, b: int, c: int)
    requires a <= b <= c
    ensures PeriodUsage(events, meter, a, b) + PeriodUsage(events, meter, b, c) == PeriodUsage(events, meter, a, c)
    decreases |events|
  {
    if events != [] { UsageAdds(events[..|events| - 1], meter, a, b, c); }
  }

  lemma {:induction false} NoUsageInNoTime(events: seq<UsageEvent>, meter: MeterId, a: int)
    ensures PeriodUsage(events, meter, a, a) == 0
    decreases |events|
  {
    if events != [] { NoUsageInNoTime(events[..|events| - 1], meter, a); }
  }

  lemma UsedAppend(issued: seq<Issued>, last: Issued, meter: MeterId)
    ensures UsedTotal(issued + [last], meter)
            == UsedTotal(issued, meter) + (if last.usage.Some? && last.usage.value.meter == meter then last.usage.value.used else 0)
  {
    assert (issued + [last])[..|issued|] == issued;
  }

  lemma StepUsage(s: State, op: Op, n: nat, meter: MeterId, from: int)
    requires n <= |s.invoices| && !Recovers(s, op) && from <= s.sub.period.start <= s.sub.period.end
    requires |s.invoices| <= |Step(s, op).invoices| && AlwaysMetered(IssuedSince(Step(s, op), n), meter)
    ensures var s' := Step(s, op);
            && from <= s'.sub.period.start <= s'.sub.period.end
            && UsedTotal(IssuedSince(s', n), meter) - UsedTotal(IssuedSince(s, n), meter)
               == PeriodUsage(s'.events, meter, from, s'.sub.period.start)
                  - PeriodUsage(s'.events, meter, from, s.sub.period.start)
  {
    hide Try, UsedTotal, PeriodUsage;
    if Try(s, op).Ok? {
      TryCycle(s, op);
      var s' := Step(s, op);
      if |s'.invoices| > |s.invoices| {
        var last := IssuedOf(s'.invoices)[|s.invoices|];
        assert IssuedSince(s', n) == IssuedSince(s, n) + [last];
        assert last == IssuedSince(s', n)[|s.invoices| - n];
        UsedAppend(IssuedSince(s, n), last, meter);
        if last.reason.None? {
          UsageAdds(s'.events, meter, from, s.sub.period.start, s.sub.period.end);
        }
      }
    }
  }

  /**
   * Usage is billed exactly once: over any run without a rebase in which every
   * renewal bills the same SUM meter, what the invoices billed plus what arrived
   * too late is precisely the units stamped from the start of the first window
   * closed to the end of the last.
   */
  lemma {:induction false} UsageBilledOnce(s: State, ops: seq<Op>, meter: MeterId)
    requires NoRecovery(s, ops) && s.sub.period.start <= s.sub.period.end
    requires |s.invoices| <= |Run(s, ops).invoices| && AlwaysMetered(IssuedSince(Run(s, ops), |s.invoices|), meter)
    ensures var s' := Run(s, ops);
            && s.sub.period.start <= s'.sub.period.start <= s'.sub.period.end
            && UsedTotal(IssuedSince(s', |s.invoices|), meter) + LateUnits(s, ops, meter)
               == PeriodUsage(s'.events, meter, s.sub.period.start, s'.sub.period.start)
    decreases |ops|
  {
    hide Step, Recovers, PeriodUsage, IssuedOf;
    var n := |s.invoices|;
    if ops == [] {
      NoUsageInNoTime(s.events, meter, s.sub.period.start);
      assert IssuedSince(s, n) == [];
    } else {
      var earlier := ops[..|ops| - 1];
      var before := Run(s, earlier);
      RenewalsTile(s, earlier);
      RenewalsTile(before, [ops[|ops| - 1]]) by { OneStep(before, ops[|ops| - 1]); }
      OneStep(before, ops[|ops| - 1]);
      MeteredBefore(IssuedOf(before.invoices), IssuedOf(Run(s, ops).invoices), n, meter);
      UsageBilledOnce(s, earlier, meter);
      StepUsage(before, ops[|ops| - 1], n, meter, s.sub.period.start);
    }
  }

  // -- usage that arrives late ----------------------------------------------------------------

  lemma {:induction false} InsertsAppend(events: seq<UsageEvent>, new_: seq<UsageEvent>)
    ensures events <= InsertEvents(events, new_)
    ensures forall i :: |events| <= i < |InsertEvents(events, new_)| ==> InsertEvents(events, new_)[i] in new_
    decreases |new_|
  {
    if new_ != [] {
      var n := |new_| - 1;
      InsertsAppend(events, new_[..n]);
      assert new_[n] in new_ && forall e :: e in new_[..n] ==> e in new_;
    }
  }

  lemma OpeningAppends(s: State, price: Economics, flush: seq<UsageEvent>, at: int)
    requires OpenNextPeriod(s, price, flush, at).Ok?
    ensures var after := OpenNextPeriod(s, price, flush, at).value.events;
            s.events <= after && forall i :: |s.events| <= i < |after| ==> after[i] in flush
  {
    hide AddInterval, RecurringLines, UsageLines, UsageSnapshot, PeriodUsage, InvoiceLines.LinesTotal, RenewalAnchor, InsertEvents, FinalizeInvoice, DraftInvoice;
    InsertsAppend(s.events, flush);
  }

  /** Flushed volume never counts down. */
  predicate NonNegative(op: Op) { op.DoRenew? ==> forall i :: 0 <= i < |op.flush| ==> op.flush[i].units >= 0 }

  /** Events are only appended, and a recorded event never counts down. */
  lemma StepAppends(s: State, op: Op)
    ensures s.events <= Step(s, op).events
    ensures NonNegative(op) ==> forall i :: |s.events| <= i < |Step(s, op).events| ==> Step(s, op).events[i].units >= 0
  {
    hide OpenNextPeriod, BillingPrice, ApplyPaymentResult, FailInvoice, ChangePlan, ChangeQuantity, InFlight, StatusHistory.ApplyTransition, Known;
    if Try(s, op).Ok? {
      if op.DoRenew? {
        var price := BillingPrice(s.sub, op.current);
        if OpenNextPeriod(s, price, op.flush, op.at).Ok? { OpeningAppends(s, price, op.flush, op.at); }
      } else if op.DoApplyResult? {
        ApplyKeepsEvents(s, op.attempt, op.result, op.at);
      } else if op.DoFailInvoice? {
        FailInvoiceRests(s, op.invoice, op.at);
      } else if op.DoChangePlan? || op.DoChangeQuantity? {
        ChangeCycle(s, op);
      }
    }
  }

  lemma ApplyKeepsEvents(s: State, k: nat, result: PaymentResult, at: int)
    requires ApplyPaymentResult(s, k, result, at).Ok?
    ensures ApplyPaymentResult(s, k, result, at).value.events == s.events
  {
    hide PlanPaymentRecovery, StatusHistory.ApplyTransition;
  }

  lemma {:induction false} UsageOfAppended(events: seq<UsageEvent>, added: seq<UsageEvent>, meter: MeterId, start: int, end: int)
    requires forall i :: 0 <= i < |added| ==> added[i].units >= 0
    ensures PeriodUsage(events + added, meter, start, end) >= PeriodUsage(events, meter, start, end)
    ensures PeriodUsage(events + added, meter, start, end) == PeriodUsage(events, meter, start, end)
            <==> forall i :: 0 <= i < |added| ==> UnitsOf(added[i], meter, start, end) == 0
    decreases |added|
  {
    hide PeriodUsage, UnitsOf;
    if added == [] {
      assert events + added == events;
    } else {
      var n := |added| - 1;
      UsageOfAppended(events, added[..n], meter, start, end);
      assert (events + added)[..|events + added| - 1] == events + added[..n];
      LastUsage(events + added, meter, start, end);
      assert forall i :: 0 <= i < n ==> added[..n][i] == added[i];
    }
  }

  lemma LastUsage(events: seq<UsageEvent>, meter: MeterId, start: int, end: int)
    requires events != []
    ensures var last := events[|events| - 1];
            && PeriodUsage(events, meter, start, end) == PeriodUsage(events[..|events| - 1], meter, start, end) + UnitsOf(last, meter, start, end)
            && (last.units >= 0 ==> UnitsOf(last, meter, start, end) >= 0)
  {}

  /** No step of the run records units stamped in a window that had been billed by then. */
  ghost predicate OnTime(s: State, ops: seq<Op>, meter: MeterId)
    decreases |ops|
  {
    ops == []
    || (&& OnTime(s, ops[..|ops| - 1], meter)
        && var before, after := Run(s, ops[..|ops| - 1]), Run(s, ops).events;
           forall i :: |before.events| <= i < |after| ==> UnitsOf(after[i], meter, s.sub.period.start, before.sub.period.start) == 0)
  }

  lemma {:induction false} LateUnitsAre(s: State, ops: seq<Op>, meter: MeterId)
    requires forall i :: 0 <= i < |ops| ==> NonNegative(ops[i])
    ensures LateUnits(s, ops, meter) >= 0
    ensures LateUnits(s, ops, meter) == 0 <==> OnTime(s, ops, meter)
    decreases |ops|
  {
    hide Step, PeriodUsage, UnitsOf, NonNegative;
    if ops != [] {
      var earlier, op := ops[..|ops| - 1], ops[|ops| - 1];
      LateUnitsAre(s, earlier, meter);
      var before, after := Run(s, earlier), Run(s, ops).events;
      StepAppends(before, op);
      var added := after[|before.events|..];
      assert after == before.events + added;
      UsageOfAppended(before.events, added, meter, s.sub.period.start, before.sub.period.start);
      assert forall i :: |before.events| <= i < |after| ==> after[i] == added[i - |before.events|];
      assert forall i :: 0 <= i < |added| ==> added[i] == after[i + |before.events|];
    }
  }

  /**
   * Billed usage is exactly the usage stamped, no unit twice and none missing,
   * if and only if every unit was recorded before its window was billed. Units
   * that were not are missing from the invoices; nothing is ever billed beyond
   * what was stamped.
   */
  lemma TimelyUsageIsBilledExactlyOnce(s: State, ops: seq<Op>, meter: MeterId)
    requires NoRecovery(s, ops) && s.sub.period.start <= s.sub.period.end
    requires |s.invoices| <= |Run(s, ops).invoices| && AlwaysMetered(IssuedSince(Run(s, ops), |s.invoices|), meter)
    requires forall i :: 0 <= i < |ops| ==> NonNegative(ops[i])
    ensures var s' := Run(s, ops);
            var billed, stamped := UsedTotal(IssuedSince(s', |s.invoices|), meter), PeriodUsage(s'.events, meter, s.sub.period.start, s'.sub.period.start);
            billed <= stamped && (billed == stamped <==> OnTime(s, ops, meter))
  {
    hide Run, PeriodUsage, LateUnits, OnTime, NonNegative, NoRecovery;
    UsageBilledOnce(s, ops, meter);
    LateUnitsAre(s, ops, meter);
  }

  lemma OneStep(s: State, op: Op)
    ensures Run(s, [op]) == Step(s, op)
    ensures !Recovers(s, op) ==> NoRecovery(s, [op])
  {
    hide Step, Recovers;
    assert [op][..0] == [];
  }

  lemma MeteredBefore(issued: seq<Issued>, issued': seq<Issued>, n: nat, meter: MeterId)
    requires issued <= issued' && n <= |issued| && AlwaysMetered(issued'[n..], meter)
    ensures AlwaysMetered(issued[n..], meter)
  {
    forall i | 0 <= i < |issued[n..]| ensures issued[n..][i] == issued'[n..][i] {}
  }
}
