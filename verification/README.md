# Billing engine model

A Dafny model of a subscription billing engine: the life of a subscription with
its invoices, payment attempts, usage and audit rows; the calendar and money
arithmetic underneath; the volume metering and price versions that feed its
invoices; and the idempotency protocol in front of it.

`dafny verify dfyconfig.toml` checks the whole project.

## How it is built

**Subscriptions.** `Billing` holds one subscription and everything attached to
it as a value, `State`, and gives each database transaction as a function on
it. A transaction that throws is an `Err` and changes nothing. `Run` applies any
list of transactions in any order, so a lemma about `Run` holds for every
interleaving. Where the code reads in one transaction and acts in another, the
value read is kept in the state and may be used at any later step: the amount a
collection call quoted, what an expiry sweep selected.

`Accounts.Account` is the same subscription as columns and rows updated in
place, with rollback. Each of its methods is proved to be the step `Billing`
gives, so the run lemmas hold of it; the table lists those with rollback or
loops. `Collection` adds the loop over payment providers and `Sweeps` the renewal
batch. `Failover` says which providers a charge reaches and what it leaves, from
the providers' answers alone.

The results over runs are in `Ledger` (money), `Lifecycle` (statuses, grace
periods, audit rows), `Activation` (what a payment does to a subscription),
`Cycle` (billing windows and usage), `Anchors` (billing dates), `Currencies`,
`Replay` (recoveries), `OffAnchor` and `IntervalChanges` (runs that lead to a
shortened period), `Overpayment`, `PlanChanges` and `Cancellation`. `StatusHistory`
treats the compare-and-swap of a status on its own, with callers that read early
and write late. `Outcomes` states which requests are accepted, and what they
leave, as conditions on what the caller can see.

**Arithmetic.** `Calendar` and `Interval` are a proleptic Gregorian calendar
over integer milliseconds (section 21.4.1 of ECMA-262). `Money` is exact integer
arithmetic with the safe-integer check as a failure result; `MoneyText` prints
and parses amounts; `Proration` and `Pricing` compute charges.

**Metering and prices.** `Metering` turns settled payments into usage events
and models the paged scan, the renewal flush and the scheduled sweep;
`RenewalVolume` joins them to the renewal that bills them. `Prices` is the
catalogue of price versions and the subscriptions bound to them.

**Idempotency.** `Idempotency` is the protocol for one key on one endpoint as a
state machine whose steps are single database actions of concurrent requests.
`Canonical` is the text of a request body that decides whether two requests are
the same, and `JsonText` the grammar of RFC 8259 it is written in.

Amounts are minor units and moments are milliseconds since the epoch.

## Where the code and its documentation differ

- `packages/shared/src/interval.ts:66-72` promises that anchored billing does not
  drift. `Date.UTC` reads the years 0 to 99 as 1900 to 1999, so it does when the
  steps pass through such a year between ends that lie outside
  (`Interval.NoDrift`, `Interval.DriftExample`). From the year 100 on it holds.
- `packages/billing/src/recovery.ts:76-79` says a rebased period never ends
  earlier than the one it replaces. It can, for any period exactly when
  `Recovery.RebaseShortensExactlyWhen` says. The limits below hold for a period
  opened by the present interval: day and week plans never lose time; a calendar
  period that starts on its anchor day loses at most three days, and one that does
  not up to as many days as the anchor lies past its start, thirty at most
  (`Recovery.RebaseLossBound`). A trial that is paused and resumed gets such a
  period (`OffAnchor.PauseKeepsSignupAnchor`,
  `OffAnchor.RecoveryCanCostSixteenDays`). A plan change keeps the period and may
  change the interval, and then no such limit holds
  (`IntervalChanges.RecoveryAfterChange`, `IntervalChanges.RecoveryCanCostMonths`).
- `packages/billing/src/subscriptions.ts:547-567` and `:653-670` schedule plan
  changes and seat decreases for the next period. Nothing reads what they store
  (`PlanChanges.ScheduledChangesNeverApply`).
- `packages/billing/src/subscriptions.ts:569-611` prorates a plan change in a trial
  against the trial's plan, for which nothing was charged. Invoices then fall
  short of the value held, by the trial plan's full price, unless that is nothing
  (`PlanChanges.TrialIsShortByItsValue`,
  `PlanChanges.TrialConservesExactlyWhenFree`).
- `packages/billing/src/subscriptions.ts:869` closes grace periods per the frozen
  policy. The selection is read before the writing transaction, and a recovery
  and a second failure in between let the old action close a newer grace period
  before it ends (`Lifecycle.ClosesEarlyExactlyWhen`,
  `Lifecycle.ExpiryCanCutShortALaterGracePeriod`).
- `packages/billing/src/subscriptions.ts:334-341` takes a trial's anchor from the
  day it ends, so that its periods stay whole. It does so at every renewal of a
  trial; one renewed again while its first charge is still pending is re-anchored
  on a day that may have been clamped, and its billing date drifts exactly when the
  next month is long enough (`Anchors.SecondTrialRenewalDriftsExactlyWhen`,
  `Anchors.PendingTrialDrifts`).
- `packages/billing/src/payments.ts:131-137` means to keep a customer from being
  charged twice for one invoice. Only PROCESSING attempts are looked for; an open
  checkout is PENDING, and a second one can be opened beside it and paid
  (`Overpayment.TwoCheckoutsPayTwice`, `Overpayment.OverpaidAfterRuns`).
- `packages/billing/src/payments.ts:234-244` marks the attempt of a broken call
  FAILED whatever it has become meanwhile, and goes on to the next provider without
  reading the invoice again. A charge whose success is delivered while its call
  breaks is credited and marked FAILED, and the next provider is charged for the
  paid invoice (`Overpayment.FailoverPaysTwice`).
- `workers/billing-worker/src/jobs.ts:77-95` means to close trials whose charge
  could not be attempted: no provider could be selected, or the attempt was
  refused. It also closes one that owes nothing, because collecting an invoice
  that settled at zero throws, and one whose charge was attempted and timed out,
  which is still undecided (`Sweeps.SweptTrialEndsExactly`,
  `Sweeps.FreeConversionLapses`, `Sweeps.TimedOutTrialLapses`).
- `packages/billing/src/payments.ts:306-321` refuses a success for another
  currency or less than was asked, and `packages/billing/src/invoice.ts:191-193`
  one for an invoice voided meanwhile. Called from the collection loop, the
  refusal marks the attempt FAILED for good although money was taken
  (`Collection.SuccessIsCreditedExactlyWhen`); delivered later, a success for a
  void invoice is refused every time (`Ledger.VoidIsNeverCredited`).
- `packages/billing/src/payments.ts:227-244` keeps only a timed-out charge open.
  A checkout whose verification throws anything else is marked FAILED while its
  link still works, and a payment through it is never credited
  (`Collection.FailedCandidateIsNeverCredited`).
- `packages/shared/src/money.ts:178-182` names the largest-remainder method. The
  extra units go to the largest weights, and the result is a largest-remainder
  allocation exactly when the weights rank the parties as their remainders do
  (`Money.LargestRemainderExactlyWhen`, `Money.ExtraUnitsFollowWeights`).
- `packages/billing/src/pricing.ts` and the usage snapshot agree on a fee except
  for a negative usage rate, which the snapshot quotes and the invoice drops
  (`Pricing.InvoiceEqualsQuote`). The price routes refuse such a rate
  (`apps/api/src/routes/catalogue.ts:42` and `:79`).
- `packages/billing/src/platform-metering.ts:395-397` says the flush and the sweep
  choose one enrolment the same way. They differ when the oldest enrolment cannot
  be metered and a newer one can (`Metering.FlushAgreesWithSweep`).
- `packages/billing/src/subscriptions.ts:367-388` flushes volume so that the read
  after it is complete. The flush writes the meter of the held price, the read is
  of the billed one, and a payment an earlier pass put on another meter is skipped
  as known. The invoice is complete exactly when
  `RenewalVolume.RenewalBillsSettledVolumeExactlyWhen` says; a plan change after a
  scheduled pass is enough to lose the period
  (`RenewalVolume.PlanChangeMissesVolume`).
- `packages/billing/src/subscriptions.ts:308-312` says a new price version takes
  effect from the next period. A renewal that rolls forward also bills the period
  just closed at the new version's usage rate
  (`RenewalVolume.ArrearsAtHeldRateExactlyWhen`).
- `packages/billing/src/recovery.ts:67-74` has a recovering payment buy the period
  it opens. The payment is for whatever invoice was outstanding, and covers the
  period's value exactly when that invoice happens to charge it
  (`PlanChanges.RebasedPeriodConservesExactlyWhen`).
- `packages/billing/src/recovery.ts:162-166` calls a recovery affected when the old
  period ended at the very moment of the recovery; nothing is replayed then
  (`Replay.VerdictAgainstInvoices`).
- `apps/api/src/plugins/idempotency.ts:45-52` rejects a repeated key with a
  different request. The route's parameters are not part of what is compared
  (`Canonical.OnlyTheBodyCounts`).
- `packages/billing/src/subscriptions.ts:508-510` refuses plan changes on an ended
  subscription. Seat changes have no such check and still bill
  (`Cancellation.EndedIsBilledExactlyWhen`).
- `packages/billing/src/prices.ts:237-242` walks a lineage as one line. An archived
  row with subscribers left on it can be edited again, and its lineage then has
  two newest versions; nothing else branches it
  (`Prices.EditBranchesExactlyWhen`, `Prices.LineagesStayLinearExactlyWhen`).

## Model

| member | source | states |
|---|---|---|
| Calendar.FieldsOfMakeTime | packages/shared/src/interval.ts:95-105 | reading year and month, day and time of day of a moment built from fields gives back those fields |
| Calendar.MakeTimeOfFields | packages/shared/src/interval.ts:88-105 | every moment is rebuilt from its own fields |
| Calendar.CalendarOrder | packages/shared/src/interval.ts:88-105 | moments are ordered as their month, day and time of day are, lexicographically |
| Calendar.MonthStartStep | packages/shared/src/interval.ts:91-93 | consecutive months abut over the whole Gregorian calendar, so the last day read by the code is the month's length |
| Calendar.Epoch | packages/shared/src/interval.ts:88-105 | the epoch is moment 0, and 1900 has no leap day while 2000 does |
| Calendar.GregorianCycle | packages/shared/src/interval.ts:88-105 | months and their lengths repeat every 400 years, which are 146,097 days |
| Interval.AddMonthsClamps | packages/shared/src/interval.ts:87-106 | adding months lands on the anchor day clamped to the target month with the time of day unchanged, 1900 years later when a two-digit year is touched |
| Interval.AddMonthsIsAnchored | packages/shared/src/interval.ts:87-106 | one step is the anchored date if and only if neither its start nor its target lies in the years 0 to 99 |
| Interval.IntervalAdvancesADay | packages/shared/src/interval.ts:73-85 | every valid interval moves time forward by at least a whole day |
| Interval.NoDrift | packages/shared/src/interval.ts:66-106 | k renewals on one anchor equal one jump of k times the interval, if and only if no two-digit year is met on the way between ends that are not in one |
| Interval.NoDriftFromYear100 | packages/shared/src/interval.ts:66-106 | from the year 100 on the k-th renewal and the single jump are both the anchored date k intervals later, with no further condition |
| Interval.DriftExample | packages/shared/src/interval.ts:87-106 | a monthly plan opened on 15 December of the year -1 drifts |
| Money.DivideRounded | packages/shared/src/money.ts:146-166 | sign-and-magnitude division is rounding of the exact quotient down, up or to nearest, for either sign of either operand |
| Money.HalfUpError | packages/shared/src/money.ts:124-166 | half-up rounding is within half a unit of the exact quotient |
| Money.HalfUpMonotone | packages/shared/src/money.ts:124-166 | half-up rounding never turns a larger numerator into a smaller result |
| Money.Allocate | packages/shared/src/money.ts:183-213 | shares sum to the amount, each is its floor share or one more, extra units go to larger weights first, a zero weight gets nothing among non-negative weights; fails exactly on a non-positive total weight or a share outside the safe range |
| Money.LeftoverBound | packages/shared/src/money.ts:198-211 | what the floor shares leave over is less than the number of non-zero weights, so the leftover loop never wraps |
| Money.SafeAmountsAllocate | packages/shared/src/money.ts:193-193 | a safe amount over non-negative weights never overflows a share |
| Money.ExtraUnitsGoToTheFirst | packages/shared/src/money.ts:198-211 | exactly the first parties in weight order get an extra unit, as many as units are left over |
| Money.LargestRemainderExactlyWhen | packages/shared/src/money.ts:178-213 | the shares are a largest-remainder allocation if and only if, with r units left over, no party among the first r in weight order has a smaller remainder than a later one |
| Money.ExtraUnitsFollowWeights | packages/shared/src/money.ts:198-211 | an instance where it is not: of 5 units over weights 2 and 1 the extra unit goes to the larger weight though the other remainder is larger |
| MoneyText.FormatThenParse | packages/shared/src/money.ts:267-304 | for every safe amount and currency the customer's text without symbol and separators parses back to the amount |
| MoneyText.GroupedValue | packages/shared/src/money.ts:278-278 | digit grouping only inserts commas: what is left are digits with the number's value |
| MoneyText.FormatTellsAmountsApart | packages/shared/src/money.ts:267-283 | two amounts of one currency never read the same |
| MoneyText.WrittenMatches | packages/shared/src/money.ts:286-303 | an optional sign, digits and, after a point, any more digits survive trimming and match as written |
| MoneyText.ParsesAsWritten | packages/shared/src/money.ts:286-303 | such text, spaces around it aside, parses to its digits in minor units, a missing decimal counting as zero, refused with more than two decimals or outside the safe range |
| MoneyText.NothingElseParses | packages/shared/src/money.ts:286-293 | all other text is refused |
| MoneyText.SpacesAroundAreIgnored | packages/shared/src/money.ts:286-289 | any white space before and after an amount changes nothing |
| Proration.CalculateProration | packages/billing/src/proration.ts:56-103 | the two rounded parts of the remaining time, or the code's errors; its lines always sum to the net amount |
| Proration.ChangeLinesShow | packages/billing/src/proration.ts:56-103 | a change shows the unused time credited and the new time charged, each within half a unit of its exact share of the time left, a line each unless nothing, from the change to the period's end |
| Proration.UpgradeNeverCredits | packages/billing/src/proration.ts:56-103 | a change to an equal or dearer price never nets below zero, to an equal or cheaper one never above |
| Proration.ThereAndBackIsFree | packages/billing/src/proration.ts:56-103 | changing from A to B and back at one instant nets exactly zero |
| Proration.SeatChangesMirror | packages/billing/src/proration.ts:109-168 | a seat change is one line carrying the net amount with a per-seat price within half a unit per seat; adding seats never credits; taking them away again nets the opposite |
| Proration.ChangesConserveValue | packages/billing/src/proration.ts:56-164 | after any ordered plan and seat changes in a period, the charge up front plus all nets differs from the time-weighted value held by at most one minor unit per change |
| InvoiceLines.ComputeTotals | packages/billing/src/invoice.ts:60-91 | the total is the plain sum of all line amounts however they split into charges, reductions and tax; amount due is the unpaid part, never negative |
| Pricing.RecurringLinesTotal | packages/billing/src/pricing.ts:110-185 | the recurring lines fail when the recurring amount fails and otherwise sum to it |
| Pricing.BuildUsageLines | packages/billing/src/pricing.ts:219-317 | quantity times unit amount equals amount on every line, and the lines are those of the usage snapshot with the same figures |
| Pricing.InvoiceEqualsQuote | packages/usage/src/service.ts:223-248 | the usage lines sum to the snapshot's overage amount if and only if the rate is not negative or there is no overage |
| Pricing.BlocksCover | packages/usage/src/quota.ts:53-57 | billable blocks cover the overage and waste less than one block |
| Pricing.FeeMonotone | packages/usage/src/service.ts:223-233 | with a non-negative rate the fee never falls as usage grows |
| Pricing.FeeBounds | packages/usage/src/service.ts:223-233 | the fee never exceeds its ceiling, and uncapped it exceeds exact pro rata by less than one block's rate |
| Pricing.SnapshotAddsUp | packages/usage/src/quota.ts:23-57 | used and remaining make included and over, one of remaining and over being nothing; the fee is the started blocks at the rate, or the ceiling when that is less |
| Pricing.UsageLinesShow | packages/billing/src/pricing.ts:219-317 | the lines are the used part of the allowance, free, and then the overage for the quoted amount when there is a positive rate |
| StatusHistory.HistoryIsALegalPath | packages/billing/src/transitions.ts:18-60 | whatever callers read early and however their late writes interleave, the audit rows chain along table edges to the current status |
| StatusHistory.TerminalIsAbsorbing | packages/billing/src/state-machine.ts:29-30 | no run of writes leaves CANCELED or EXPIRED |
| StatusHistory.NoReentry | packages/billing/src/state-machine.ts:19-31 | a caller that read INCOMPLETE or TRIALING and still finds it has raced nobody: neither status is ever entered again |
| StatusHistory.RunsFollowTheTable | packages/billing/src/state-machine.ts:19-31 | every status a run of writes produces is reachable along table edges |
| StatusHistory.AcceptedExactlyWhen | packages/billing/src/state-machine.ts:19-31 | a status write is accepted if and only if the row still holds what its writer read and that status may come before the target, given target by target |
| Accounts.Account.Renew | packages/billing/src/subscriptions.ts:261-477 | exactly the renewal step on every column, rolled back whole when it throws |
| Accounts.Account.RecordPayment | packages/billing/src/payments.ts:359-448 | exactly the payment step on every column: credit, invoice and recovery commit together or are rolled back, the saved payment method included; what the step does to the subscription is AppliedSuccessActivatesExactlyWhen |
| Accounts.Account.FindInFlight | packages/billing/src/payments.ts:141-154 | true exactly when the invoice has a processing attempt younger than the window |
| Accounts.Account.ApplyPaymentResult | packages/billing/src/payments.ts:278-450 | exactly the delivery step: attempt, invoice, credit and subscription move together or not at all, and a settled attempt is acknowledged unchanged; what the step comes to is AppliedSuccessActivatesExactlyWhen for a success and DeliveryDecides for anything else |
| Activation.AppliedSuccessActivatesExactlyWhen | packages/billing/src/payments.ts:359-448 | an applied success on an open attempt ends ACTIVE if and only if the subscription was not PAUSED, CANCELED or EXPIRED, and otherwise leaves its status; it clears the grace period whenever it recovers, moves the period only out of UNPAID, to one from the moment the money was taken, and keeps the saved method |
| Activation.SignupIs | packages/billing/src/subscriptions.ts:88-210 | what a signup stores: the terms asked for, the start day as anchor, and a trial without invoices or one invoice for the whole first period, owed while INCOMPLETE or settled and ACTIVE |
| Activation.FirstPaymentActivates | packages/billing/src/payments.ts:74-448 | from every INCOMPLETE signup, quoting, charging and receiving its first invoice ends ACTIVE with the invoice PAID and the method on file, and no run afterwards lets the signup sweep expire it |
| Failover.FailInvoiceLapses | packages/billing/src/payments.ts:536-631 | a failed collection puts a TRIALING, ACTIVE or PAST_DUE subscription in GRACE_PERIOD, for the policy's days from the failure under a copy of the policy, and touches nothing else |
| Ledger.LedgerAlwaysBalances | packages/billing/src/payments.ts:282-369 | after every run each invoice's paid amount is the sum credited to it, no attempt is credited twice, what is due is what is unpaid, and every attempt and quote covers what its invoice owes |
| Ledger.AppliedSuccessPays | packages/billing/src/payments.ts:306-369 | any applied success leaves its invoice PAID and credits exactly once |
| Ledger.SuccessIsAppliedExactlyWhen | packages/billing/src/payments.ts:306-369 | a success reaching an open attempt is applied if and only if its currency is the invoice's, it covers what was asked and the invoice is not void (and a rebase has a valid interval) |
| Ledger.VoidIsNeverCredited | packages/billing/src/invoice.ts:191-193 | after any run a success for an attempt on a void invoice changes nothing |
| Overpayment.OverpaidAfterRuns | packages/billing/src/payments.ts:282-369 | after every run an invoice with a positive total is paid beyond it if and only if two attempts were credited to it, or one with more than the total |
| Overpayment.DeliveryOverpaysExactlyWhen | packages/billing/src/payments.ts:306-369 | an applied success overpays if and only if the invoice was already PAID or the provider took more than the attempt asked |
| Overpayment.AmountsStayFull | packages/billing/src/payments.ts:86-87 | over every run quotes and attempts ask for the invoice's whole total and credits cover it: there are no part payments |
| Overpayment.TwoCheckoutsPayTwice | packages/billing/src/payments.ts:131-160 | on every collectable invoice two checkouts can be opened at one instant, and both succeeding credit it twice |
| Overpayment.FailoverPaysTwice | packages/billing/src/payments.ts:196-247 | on every collectable invoice a delivery credited while its call breaks leaves the attempt FAILED and the invoice PAID, and the next provider can still be charged and credited for all of it |
| Ledger.RedeliveryHasNoEffect | packages/billing/src/payments.ts:293-302 | once an attempt has settled, any later result for it after any run changes nothing |
| Ledger.RunExtends | packages/billing/src/invoice.ts:156-221 | no run undoes a settlement, a payment, a void or a credit |
| Lifecycle.AuditRowsAreALegalPath | packages/billing/src/transitions.ts:18-72 | over all transactions of the engine the audit rows are a legal path from the initial to the current status |
| Lifecycle.EndedStaysEnded | packages/billing/src/state-machine.ts:29-42 | no run revives a canceled or expired subscription |
| Lifecycle.EngineTargetsAreEdges | packages/billing/src/payments.ts:601-631 | a failure is never refused for its status, a recovery never with a valid interval, and closing a grace period or expiring a signup only when the status has moved on |
| Lifecycle.GraceIsFrozen | packages/billing/src/grace.ts:20-40 | while a subscription stays in its grace period no edit, failure or renewal changes the window or the policy |
| Lifecycle.GraceSoundFromCreation | packages/billing/src/grace.ts:34-40 | in every reachable state GRACE_PERIOD carries a policy and ends that many days after it started |
| Lifecycle.ExpiryTakesFrozenAction | packages/billing/src/subscriptions.ts:869-898 | if the selected grace period still runs when it is closed, the action taken is the frozen one |
| Lifecycle.StaleExpiry | packages/billing/src/subscriptions.ts:877-894 | closing succeeds exactly in GRACE_PERIOD, and takes the running policy's action exactly when the two policies agree on it |
| Lifecycle.ClosesEarlyExactlyWhen | packages/billing/src/subscriptions.ts:871-894 | a stale selection closes a grace period early if and only if the subscription is in one that ends later; it has then left the selected one, and gets the selected one's action |
| Lifecycle.ExpiryCanCutShortALaterGracePeriod | packages/billing/src/subscriptions.ts:871-894 | from every expired grace period a pending payment can settle, a run exists in which the old action closes a newer, unexpired one, whatever the newer policy |
| Lifecycle.ExpiryOfUnpaidSignups | packages/billing/src/subscriptions.ts:832-867 | a selected signup is expired if and only if nothing has moved it since it was selected, a lost race changes nothing, and afterwards none of its invoices can be collected |
| Lifecycle.StandingIsPaidFor | packages/billing/src/payments.ts:601-610 | a subscription without a trial that is not INCOMPLETE, CANCELED or EXPIRED owns a PAID invoice, and every lapse in its audit rows follows a move to ACTIVE |
| Cycle.RenewalsTile | packages/billing/src/subscriptions.ts:338-443 | over any run without a rebase the windows opened lie end to end, each at least a day long, and nothing issued earlier changes |
| Cycle.NoStartInvoicedTwice | packages/billing/src/subscriptions.ts:261-293 | two windows of a run never share a start |
| Cycle.WholeLifeTiles | packages/billing/src/subscriptions.ts:120-186 | without a trial or a rebase the windows of a whole life tile time from the start date; on which days is NoDriftFromSignup |
| Anchors.NoDriftFromSignup | packages/billing/src/subscriptions.ts:105-139 | over every run without a recovery or plan change, the k-th window of a subscription created without a trial is [k intervals, k + 1 intervals) from its start, for month and year prices on the start's day of the month clamped to short months (from the year 100 on) |
| Anchors.NoDriftFromTrial | packages/billing/src/subscriptions.ts:334-343 | the same from the day a trial ends, for a trial converted by a renewal after any run, as long as no later renewal re-anchors it |
| Anchors.SecondTrialRenewalDriftsExactlyWhen | packages/billing/src/subscriptions.ts:334-343 | a renewal of a trial already renewed takes its anchor from the present period's end; the next date stays on the plan if and only if the landed month clamps that day and the plan's to the same |
| Anchors.PendingTrialDrifts | packages/billing/src/subscriptions.ts:334-343 | a run in which a trial ending 31 January, renewed twice while still a trial, is billed up to 28 March |
| Currencies.OneCurrencyForLife | packages/billing/src/subscriptions.ts:530-545 | over every run from signup, every invoice and the price are in the currency the subscription was created in |
| Currencies.ForeignPaymentChangesNothing | packages/billing/src/payments.ts:306-321 | after any run a success in another currency changes nothing, whichever attempt it is for |
| Cycle.CatchUpStops | workers/billing-worker/src/jobs.ts:36-58 | sweeping up to now opens no window that starts after now, and at most one more than the whole days the period end lay behind |
| Cycle.UsageBilledOnce | packages/billing/src/subscriptions.ts:361-417 | what renewals billed for one SUM meter plus the late units is the units stamped between the first start and the last closed end |
| Cycle.LateUnitsAre | packages/usage/src/service.ts:124-135 | with events that never count down, the late units are not negative, and are zero if and only if no units were recorded for a window already billed |
| Cycle.TimelyUsageIsBilledExactlyOnce | packages/billing/src/subscriptions.ts:361-417 | never more is billed than was stamped, and exactly that, if and only if every unit was recorded before its window was billed |
| Cancellation.ScheduledEndBillsNoPeriod | packages/billing/src/subscriptions.ts:295-306 | over any run in which a scheduled cancellation is not revoked, recoveries included, no further period is opened and only prorations are invoiced |
| Cancellation.NextRenewalEnds | packages/billing/src/subscriptions.ts:277-306 | the next renewal that is due ends such a subscription from every status that can renew, and invoices nothing |
| Cancellation.EndedBillsOnlySeats | packages/billing/src/subscriptions.ts:278-280 | after CANCELED or EXPIRED every invoice of any run bills added seats, and without a seat change there is none |
| Cancellation.EndedIsBilledExactlyWhen | packages/billing/src/subscriptions.ts:631-705 | on an ended subscription a transaction issues an invoice if and only if it raises the seats of a per-seat price over a non-empty period with a prorated charge in the safe range |
| Cancellation.SeatChangeBillsExactlyWhen | packages/billing/src/subscriptions.ts:631-705 | in any status a seat change issues an invoice under exactly that condition, at most one, and never moves the status |
| Outcomes.SignupExactlyWhen | packages/billing/src/subscriptions.ts:63-145 | a signup is accepted if and only if its price can be billed, for at least one seat and for one alone unless priced by the seat, a trial owing nothing yet |
| Outcomes.RenewalExactlyWhen | packages/billing/src/subscriptions.ts:270-343 | a renewal opens a period if and only if the subscription is running, due, not to end with the period, and on a price that can be billed: the newest version in the same currency and interval unless pinned |
| Outcomes.PlanChangeExactlyWhen | packages/billing/src/subscriptions.ts:505-620 | a plan change is accepted if and only if the subscription has not ended, both prices can be billed in one currency, and the period has a length when it takes effect at once, which it does when asked to or no cheaper; otherwise nothing moves or is billed |
| Outcomes.SeatChangeExactlyWhen | packages/billing/src/subscriptions.ts:624-700 | a seat change is accepted if and only if the price is by the seat and a seat is left; more seats take effect and are billed at once, fewer wait |
| Outcomes.EndingExactlyWhen | packages/billing/src/subscriptions.ts:709-830 | when cancelling at once or at the period's end, resuming and pausing are accepted, and the exact row each leaves |
| Outcomes.StatusMovesOnlyBy | packages/billing/src/transitions.ts:18-60 | every move of a status, by whatever transaction in whatever state, has one of the listed causes: only a payment or a resumption activates, only a grace period that ran out leaves unpaid, only an unpaid signup expires |
| Outcomes.UnpaidSignupExpiresExactlyWhen | packages/billing/src/subscriptions.ts:832-866 | an unpaid signup swept at a moment expires, its invoices void, if and only if the policy sets hours and they are over |
| Outcomes.GraceRunsItsCourse | packages/billing/src/payments.ts:536-631 | from a failed payment to the sweep: GRACE_PERIOD until the policy's days are over, then the policy's action |
| Outcomes.ChargeOpensExactlyWhen | packages/billing/src/payments.ts:131-178 | a charge opens if and only if no attempt for its invoice has been PROCESSING for five minutes or less |
| Outcomes.DeliveryDecides | packages/billing/src/payments.ts:293-357 | a delivered verdict other than a success settles its open attempt and, if it is a failure, puts a subscription in standing in grace; no money moves |
| Outcomes.VoidedForGood | packages/billing/src/invoice.ts:211-232 | an invoice is voided if and only if it has not been paid, and after any run it can no longer be quoted |
| Outcomes.UsageByMoment | packages/usage/src/service.ts:114-150 | each event adds its units to exactly the windows its moment is in, their start included and their end not |
| Outcomes.UsageRecordedExactlyWhen | packages/usage/src/service.ts:41-110 | usage is accepted if and only if it is 0 to 2^31 - 1 units, and recorded once an event id |
| Recovery.DayAndWeekRebasesNeverShorten | packages/billing/src/recovery.ts:81-113 | a day or week period opened by the present interval and recovered at or after its start has its end moved by exactly the delay of the recovery |
| Recovery.RebaseShortensExactlyWhen | packages/billing/src/recovery.ts:76-113 | for any period whatever, a rebase ends earlier if and only if, on a day or week plan, the payment comes earlier than one interval before the old end, or on a calendar plan its target month, clamped day and time come before the old end's |
| Recovery.RebaseKeepsADay | packages/billing/src/recovery.ts:81-113 | for any period, no rebase loses more than what was left of it at the payment, less a day |
| Recovery.OpenedPeriodShortensExactlyWhen | packages/billing/src/recovery.ts:76-113 | a calendar period opened by the present interval, from the year 100 on, is shortened if and only if the recovery falls in the month it started in and its clamped day and time lie before the day the old end was aimed at |
| Recovery.LaterMonthRecoveryExtends | packages/billing/src/recovery.ts:81-113 | for a calendar period opened by the present interval from the year 100 on, a recovery in a later calendar month always ends strictly later |
| Recovery.RebaseLossBound | packages/billing/src/recovery.ts:81-113 | a calendar period opened by the present interval from the year 100 on, recovered at or after its start, loses at most the days by which the aimed day lies past its start's, thirty at most, or else under a day; a recovery at the very start loses exactly those days |
| Recovery.RebaseLosesAtMostThreeDays | packages/billing/src/recovery.ts:81-113 | one that also starts on its anchor day loses at most three days, and under one from an unclamped start |
| Recovery.ShorteningExample | packages/billing/src/recovery.ts:76-79 | from 28 February 2026 on anchor 31 a recovery at once loses three days |
| Recovery.OffAnchorExample | packages/billing/src/recovery.ts:76-79 | started 4 February 2026 on anchor 28 and recovered on the 12th, a period loses sixteen days |
| OffAnchor.PauseKeepsSignupAnchor | packages/billing/src/subscriptions.ts:340-348 | a trial renewed directly is anchored on the day it ends; paused and resumed first, it keeps the signup's day and opens a period off its anchor unless the days agree |
| OffAnchor.LapseThenRecover | packages/billing/src/payments.ts:385-432 | every active or trialing subscription with a collectable invoice, in whatever period, can lapse to UNPAID and recover at any moment, its end moved by exactly the rebase's shift |
| OffAnchor.RecoveryCanCostSixteenDays | packages/billing/src/recovery.ts:76-79 | a run from signup to recovery in which the payment moves the period's end sixteen days earlier |
| IntervalChanges.RecoveryAfterChange | packages/billing/src/subscriptions.ts:577-580 | after an immediate change to a day or week price, a lapse and a payment end the period one new interval after the payment, earlier than before if and only if the payment comes earlier than that before the old end |
| IntervalChanges.RecoveryCanCostMonths | packages/billing/src/subscriptions.ts:577-580 | a run from signup in which a payment within 100 days of a 365-day period ends it at least 235 days early |
| Replay.NothingReplayed | packages/billing/src/recovery.ts:193-222 | until the next recovery every invoice issued starts after the payment or is a marked proration, so none is flagged |
| Replay.UnrebasedRenewalReplaysTheLapse | packages/billing/src/recovery.ts:66-74 | renewing from an unrebased end flags exactly the windows that start before the recovery, and every moment of the lapse lies in one |
| Replay.VerdictAgainstInvoices | packages/billing/src/recovery.ts:167-180 | once something was renewed, affected means flagged and clean means not, except for a period that ended at the moment of the recovery |
| Replay.FlaggedForOneRecovery | packages/billing/src/recovery.ts:210-230 | no invoice is flagged for two recoveries: the next recovery takes over what was issued from it on |
| PlanChanges.RenewedPeriodConservesValue | packages/billing/src/subscriptions.ts:541-705 | from a renewal to the next, whatever else happens, the invoice that opened the period less its usage charge and all invoices since stay within one minor unit per applied change of the time-weighted value held |
| PlanChanges.FirstPeriodConservesValue | packages/billing/src/subscriptions.ts:541-705 | the same from the invoice that creation without a trial issued |
| PlanChanges.TrialIsShortByItsValue | packages/billing/src/subscriptions.ts:569-611 | in a trial the invoices miss the time-weighted value by the trial plan's full value, within one minor unit per change |
| PlanChanges.TrialConservesExactlyWhenFree | packages/billing/src/subscriptions.ts:569-611 | a trial's invoices conserve value for every course of changes if and only if the trial plan is worth nothing |
| PlanChanges.RebasedPeriodConservesExactlyWhen | packages/billing/src/recovery.ts:67-74 | a recovery from UNPAID issues no invoice; taking the one it settled as the charge for the period opened, value is conserved for every course of changes if and only if that invoice's total is the value held |
| PlanChanges.ScheduledChangesNeverApply | packages/billing/src/subscriptions.ts:547-567 | forgetting every scheduled change alters nothing else in any run of any length |
| PlanChanges.TermsHold | packages/billing/src/prices.ts:271-291 | without a plan change no run alters a subscription's currency or interval, whatever newer versions renewals are offered, and a pinned price stays itself |
| Collection.OneChargeInProcess | packages/billing/src/payments.ts:131-160 | over all interleavings two attempts for one invoice that are both PROCESSING were opened more than the in-flight window apart, as long as no PENDING one is put back to PROCESSING close to another |
| Collection.SpacingBreaksExactlyWhen | packages/billing/src/payments.ts:141-153 | one transaction breaks that spacing if and only if it puts a PENDING attempt back to PROCESSING close to another |
| Collection.DoubtBlocksNewCharges | packages/billing/src/payments.ts:145-160 | while an attempt is PROCESSING and younger than the window, every attempt to open another for its invoice is refused |
| Collection.TimeoutLeavesDoubt | packages/billing/src/payments.ts:227-255 | a collection that times out has changed nothing but attempts and left the last one PROCESSING |
| Collection.NoSecondChargeAfterTimeout | packages/billing/src/payments.ts:227-255 | after a timeout a later collection inside the window opens no charge, whatever happened short of a verdict on the first |
| Collection.StoredMethodIsChargedAtMostOnce | packages/billing/src/payments.ts:246-247 | a charge pinned to a stored method opens at most one attempt |
| Collection.SuccessIsCreditedExactlyWhen | packages/billing/src/payments.ts:196-248 | in the loop a provider's success is credited if and only if currency, amount and a non-void invoice allow it; otherwise its attempt ends FAILED and no later delivery for it is ever credited |
| Collection.FailedCandidateIsNeverCredited | packages/billing/src/payments.ts:219-246 | an attempt the loop gives up on ends FAILED, and no later delivery for it after any run is credited |
| Collection.GivesUpExactlyWhen | packages/billing/src/payments.ts:217-248 | the loop gives up on a candidate if and only if its call threw something other than a timeout |
| Collection.TryCandidate | packages/billing/src/payments.ts:122-225 | opening an attempt, calling its provider and applying the reply leave exactly the specified state and error |
| Collection.AttemptInvoicePayment | packages/billing/src/payments.ts:74-264 | the call performs exactly the specified transactions and ends with the specified outcome; which providers those reach, what each leaves and how they end is CollectionEndsAt |
| Failover.CollectionEndsAt | packages/billing/src/payments.ts:74-264 | whatever the providers answer: every provider before the first that is not given up on leaves a FAILED attempt for the whole amount due, in order; that provider's kept reply, its timeout, a charge in flight or the end of the list decides outcome, error code, last attempt, credit, status and when a grace period starts |
| Failover.NextProviderIsTriedExactlyWhen | packages/billing/src/payments.ts:122-247 | an unpinned charge reaches provider i if and only if every one before it was called and given up on and no charge is in flight |
| Failover.FailsExactlyWhenAllFail | packages/billing/src/payments.ts:246-264 | a collection fails for good if and only if every provider it may go to was given up on; then there is one FAILED attempt a provider, nothing is credited, and a subscription in standing lapses |
| Failover.FailoverSucceeds | packages/billing/src/payments.ts:122-225 | a payment in full from a later provider is returned, settles the invoice by that attempt alone and activates the subscription unless it is paused or over |
| Failover.NobodyToCharge | packages/billing/src/payments.ts:74-121 | an invoice that cannot be paid, a failed selection or no eligible provider ends the call with its own error, nothing charged and nothing lapsed |
| Sweeps.RunRenewals | workers/billing-worker/src/jobs.ts:36-108 | the rows due, oldest period end first and no more than the batch, end where their own rounds take them, all other rows are untouched, and the counters are the totals of the rounds; where a round takes a subscription is SweptRenewalEndsExactly and SweptTrialEndsExactly |
| Sweeps.SelectDue | workers/billing-worker/src/jobs.ts:37-45 | the query's batch: due rows, each once, in order of period end, none left out that ended before one taken |
| Sweeps.SelectsExactlyWhatRenews | workers/billing-worker/src/jobs.ts:37-45 | of the subscriptions ACTIVE or TRIALING exactly those are selected that the sweep's renewal would change or refuse; all others are left out |
| Sweeps.RenewBatch | workers/billing-worker/src/jobs.ts:51-107 | the loop takes every subscription of the batch where its own round takes it, whatever its neighbours do |
| Sweeps.Visited | workers/billing-worker/src/jobs.ts:52-104 | one round on the row itself: renew if due, collect, close a trial whose collection threw; what it comes to is SweptRenewalEndsExactly and SweptTrialEndsExactly |
| Sweeps.UnopenedRound | workers/billing-worker/src/jobs.ts:58-60 | a round that opens no period charges nothing and counts nothing, except a refused renewal as failed |
| Sweeps.SweptRenewalEndsExactly | workers/billing-worker/src/jobs.ts:58-98 | a renewed subscription that is no trial: what it owes is quoted whole and its providers asked in turn as CollectionEndsAt says; it counts as collected if and only if a provider's reply was kept, and as failed otherwise |
| Sweeps.SweptActiveIsCharged | workers/billing-worker/src/jobs.ts:58-71 | every due active subscription whose new period costs something, with a provider available, has its whole invoice quoted and charged to the first provider in the same round |
| Sweeps.SweptActiveEndsExactly | workers/billing-worker/src/jobs.ts:62-98 | it ends in a grace period if and only if every provider was given up on or the one that answered declined, and ACTIVE otherwise; it counts as collected if and only if one answered |
| Sweeps.SweptTrialEndsExactly | workers/billing-worker/src/jobs.ts:62-104 | exactly when a trial the sweep renews ends TRIALING, ACTIVE, in a grace period or PAST_DUE; the last if and only if nothing was owed, no provider could be selected, the attempt was refused, a provider timed out, or the charge is pending without a method to count on |
| Sweeps.SweptTrialIsCharged | workers/billing-worker/src/jobs.ts:58-95 | a renewed trial is quoted and charged as CollectionEndsAt says, closing it moves no money, and it counts as collected if and only if a provider's reply was kept |
| Sweeps.FreeConversionLapses | workers/billing-worker/src/jobs.ts:62-95 | every trial whose first paid period owes nothing ends PAST_DUE with its invoice settled and no attempt opened |
| Sweeps.TimedOutTrialLapses | workers/billing-worker/src/jobs.ts:77-95 | every trial whose charge timed out ends PAST_DUE with an attempt for the whole invoice still PROCESSING |
| Metering.VolumeWithinHalfAUnit | packages/billing/src/platform-metering.ts:143-145 | units are within half a major unit of the amount, halves up |
| Metering.BuildVolumeEvents | packages/billing/src/platform-metering.ts:210-266 | one event per payment that measures something and one rejection per foreign currency or oversized volume, in order |
| Metering.MeasuredExactlyWhen | packages/billing/src/platform-metering.ts:143-266 | a payment is measured if and only if it is in the meter's currency and within half a unit and 2^31 - 1 units, rejected for its currency or for being above; its event is stamped inside exactly the windows that select it |
| Metering.UsageTable.MeterOrganizationVolume | packages/billing/src/platform-metering.ts:293-343 | the paged scan inserts what one unpaged pass would; recorded plus skipped is the eligible rows; rejections are counted in full and kept up to the limit |
| Metering.UsageTable.CreateMany | packages/billing/src/platform-metering.ts:329-335 | inserts the rows whose id is unknown and returns how many |
| Metering.CursorResumes | packages/billing/src/platform-metering.ts:316-318 | the page after a cursor row is what follows it in id order |
| Metering.RepeatPassRecordsNothing | packages/billing/src/platform-metering.ts:283-292 | a pass repeated after anything else records nothing |
| Metering.OneEventPerPayment | packages/billing/src/platform-metering.ts:58-86 | after any passes and flushes in any order, on whatever meters, there is exactly one event per covered payment that measures something, on the meter of the first pass that covered it, and no other |
| Metering.UsageAfterPasses | packages/billing/src/platform-metering.ts:58-86 | any passes leave a meter's usage for a window at what was there otherwise plus the volume settled in the window that a pass for this meter was the first to cover |
| Metering.UsageIsSettledVolumeExactlyWhen | packages/billing/src/platform-metering.ts:58-86 | that is all the volume settled in the window if and only if every payment of it that measures something was first covered by a pass for this meter |
| Metering.FlushMakesUsageExact | packages/billing/src/platform-metering.ts:417-437 | a flush that sees everything settled in its window makes its meter's usage the volume settled there, beside events recorded by other means, if and only if no earlier pass had put a payment of the window on another meter |
| RenewalVolume.RenewalBillsSettledVolumeExactlyWhen | packages/billing/src/subscriptions.ts:321-391 | the renewal's invoice carries the volume settled in the closed period, beside what the meter held otherwise, if and only if every payment of it that measures something was put on the billed meter by an earlier pass, or by none and the flush writes the billed meter |
| RenewalVolume.RenewalMissesAllVolumeExactlyWhen | packages/billing/src/subscriptions.ts:321-391 | it carries none of that volume if and only if no payment of it was put on the billed meter in either way |
| RenewalVolume.RenewalReads | packages/billing/src/subscriptions.ts:381-417 | what the invoice records as used is what the billed meter held otherwise plus the period's volume that is on that meter once the flush has run |
| RenewalVolume.PlanChangeMissesVolume | packages/billing/src/subscriptions.ts:577-580 | a plan change to another meter after a pass over the period makes the renewal bill none of the period's volume, with no roll-forward |
| RenewalVolume.ArrearsAtHeldRateExactlyWhen | packages/billing/src/subscriptions.ts:308-417 | a renewal's invoice is the new period's charge plus the billed price's fee for the usage just closed, which is the held price's fee if and only if the renewal does not roll forward or both versions charge the same for it |
| Metering.ChooseEnrolments | packages/billing/src/platform-metering.ts:562-626 | the paged loop picks each customer's first meterable enrolment and counts the other meterable ones as duplicates |
| Metering.SweepMetersScheduled | packages/billing/src/platform-metering.ts:587-605 | an enrolment is picked exactly when it is the first meterable one of its customer |
| Metering.OneEnrolmentPerCustomer | packages/billing/src/platform-metering.ts:354-376 | at most one enrolment of a customer is metered, with an active meter and for an organization that is not the platform's; every customer with such an enrolment has one |
| Metering.FlushAgreesWithSweep | packages/billing/src/platform-metering.ts:378-415 | flush and sweep meter the same enrolment if and only if the oldest is meterable or none is |
| Prices.NothingChanged | packages/billing/src/prices.ts:56-71 | no field counts as changed if and only if applying the edit changes nothing |
| Prices.PriceTable.Update | packages/billing/src/prices.ts:128-235 | the edit step on the stored rows: in place, a new version, or refused |
| Prices.EditOutcomes | packages/billing/src/prices.ts:111-226 | an economic edit lands in place when nobody live is bound, is refused when it changes currency, and otherwise takes the row off sale untouched and adds the next version, on sale unless asked otherwise; no other row and no subscription moves |
| Prices.OtherEdits | packages/billing/src/prices.ts:150-162 | an edit that changes no economics only puts the row on or off sale, held or not |
| Prices.SignupsGoToTheNewVersion | packages/billing/src/prices.ts:185-226 | after an edit that makes a version signups are taken by the new row and refused by the old one, whose subscribers stay |
| Prices.NoSilentRepricing | packages/billing/src/prices.ts:6-10 | while a live subscription stays on a row no sequence of edits, signups, moves and endings changes what it charges |
| Prices.LinksStaySound | packages/billing/src/prices.ts:223-225 | supersede links always point to an older row one version back |
| Prices.PathsRise | packages/billing/src/prices.ts:237-244 | along any path of later versions ids and versions strictly rise, so links cannot cycle |
| Prices.ResolveCurrentPrice | packages/billing/src/prices.ts:245-269 | stops within 20 hops on a later version or on nothing, at an unsuperseded row unless some path of later versions is longer |
| Prices.EditBranchesExactlyWhen | packages/billing/src/prices.ts:166-226 | an edit gives a row a second successor if and only if it changes the economics, in the same currency, of a superseded row with live subscribers |
| Prices.LineagesStayLinearExactlyWhen | packages/billing/src/prices.ts:166-226 | over every run lineages are single lines if and only if no edit of the run did that |
| Prices.BranchesShareAVersion | packages/billing/src/prices.ts:223-224 | two successors of one row carry one version number |
| Prices.ArchivedRowBranches | packages/billing/src/prices.ts:166-226 | versioning a row a live subscription holds and then the archived row again branches the lineage |
| Idempotency.HandlersNeverOverlap | apps/api/src/plugins/idempotency.ts:53-151 | over all interleavings in which handlers end within the staleness window of their claim, and claims are made at least that long before the key expires, no two handlers for a key overlap |
| Idempotency.CompletedKeyHasOneAnswer | apps/api/src/plugins/idempotency.ts:75-85 | from completion until the row is swept no handler runs, the response never changes, and every fresh request replays it or is refused for a different body; that it is the response first served is RetryReplaysWhatWasServed |
| Idempotency.StoredAnswerWasServed | apps/api/src/plugins/idempotency.ts:124-135 | over all timely interleavings a response the key holds is exactly what a handler served its own caller, for a request with the row's body |
| Idempotency.RetryReplaysWhatWasServed | apps/api/src/plugins/idempotency.ts:75-135 | once a handler's answer is stored and until the key is swept, a request with the same body replays that very answer and one with another body is refused |
| Idempotency.FailureFreesTheKey | apps/api/src/plugins/idempotency.ts:138-152 | a handler that fails and releases its claim leaves the key to the next request, which claims it for its own body and lifetime |
| Idempotency.SweepForgetsExactlyWhen | workers/billing-worker/src/jobs.ts:400-406 | a swept key runs its handler again if and only if the lifetime its request asked for was over; before that it still replays |
| Idempotency.CrashedClaim | apps/api/src/plugins/idempotency.ts:86-123 | a claim nobody finishes refuses retries for the staleness window and is taken over after it |
| Idempotency.CompletedKeyIsKept | apps/api/src/plugins/idempotency.ts:100-152 | with handlers however late, a completed key is not released, reclaimed or replaced before its lifetime is over; only a late handler's finish can put another answer on it |
| Idempotency.SlowHandlerIsOverlapped | apps/api/src/plugins/idempotency.ts:86-100 | a handler that outlives the window is overlapped by the next request, so the timing assumption is needed |
| Idempotency.LoneRequest | apps/api/src/plugins/idempotency.ts:71-135 | the protocol's steps without interleaving come to what the single call does |
| Idempotency.KeyTable.WithIdempotency | apps/api/src/plugins/idempotency.ts:53-136 | no key, too long a key, replay, refusal, reclaim or claim, with the table each leaves |
| Canonical.CanonicalTextIsTheValue | apps/api/src/plugins/idempotency.ts:19-27 | two bodies have the same canonical text if and only if they are the same value up to the order of object keys |
| Canonical.CanonicalTextIsJson | apps/api/src/plugins/idempotency.ts:19-27 | the canonical text of every value is JSON text by the grammar of RFC 8259 |
| Canonical.ValueIsRead | apps/api/src/plugins/idempotency.ts:19-27 | reading a value's canonical text by that grammar consumes exactly that text, whatever may follow it |
| Canonical.ValueDecodes | apps/api/src/plugins/idempotency.ts:19-27 | a value's text is self-delimiting: with what may follow it, it decodes to one value and one remainder |
| Canonical.QuotedDecodes | apps/api/src/plugins/idempotency.ts:21-26 | quoted strings decode uniquely, escapes and lone surrogates included |
| Canonical.SortedMembers | apps/api/src/plugins/idempotency.ts:23-25 | sorting members by key keeps their meaning and makes keys rise strictly |
| Canonical.LessExactlyWhen | apps/api/src/plugins/idempotency.ts:23-25 | the order keys are sorted in is that of the first code units that differ, a text coming before its extensions |
| Canonical.OnlyTheBodyCounts | apps/api/src/plugins/idempotency.ts:29-68 | on one route the hashed texts are equal if and only if the bodies are the same value, whatever the route's parameters |

## Left out

- The renewal and usage lemmas that speak of a chain of windows assume no rebasing recovery between them; a rebase drops the lapsed window from usage billing by design.
- `Cycle.UsageBilledOnce` covers SUM meters only; MAX, LAST and UNIQUE_COUNT do not add up over windows.
- The retry ladder (`nextRetryAt`, `dunningAttempts`, `runDunningRetries`), the reconciliation sweep (`runPaymentReconciliation`, `syncPaymentAttempt`) and webhooks: they select rows and call transactions that are modelled.
- Columns that no modelled decision reads: `canceledAt`, `endedAt`, `pausedAt`, `dueDate`, `paidAt` on rows, metadata, line descriptions, invoice numbers.
- Lookups of prices, plans, customers and stored methods, and the errors for missing ones; a stored method is a flag, and whether a charge is pinned to one is a parameter.
- Provider adapters and routing: a provider is any sequence of answers, and choosing providers and a stored method either throws or yields a list. The class of a failure and `isWorthRetrying` only steer the retry ladder.
- Line items carry no currency, so the check that lines share the invoice's currency is not modelled; every caller builds them in one currency.
- The limits of JavaScript dates (8.64e15 milliseconds) and of the integer columns, except the usage units.
- Floating point in `Math.ceil`, `Math.round` and `Math.trunc`: taken as exact on integers and quotients.
- Sums of BigInt products that pass through numbers without a check (`unitAmount * |delta|`, `allocated += share`) are exact integers here.
- Database isolation below serialisable: each transaction is one atomic step. Status writes are also treated with early reads and late writes, in StatusHistory.
- Idempotency: clock differences between processes and the database; a handler's own effects; the SHA-256 digest, which is taken as the text it digests. Without a key the protocol does nothing.
- Canonical: numbers are their canonical numeral text, and JSON.stringify of a number is taken to be that text.
- Metering: all passes over one customer's payments measure in one currency, which a subscription never changes; ids are numbers in the order the scan uses; a row that changes between pages of an enrolment listing is not modelled.
- Prices: price codes and their archiving, nicknames, trial lengths and metadata.
- Entitlement resolution and caching (`hasServiceAccess` included), email, metrics, HTTP routes, authentication and tax or coupon calculation.
- `formatMoney` and percentage rendering, which are presentation through Intl.
