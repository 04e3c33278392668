# Verification of the obikai core protocols

A Dafny project that models the parts of obikai whose correctness is hardest to see from one function:
the concurrent billing protocol, the tenant rewriting of aggregation pipelines, the weekly recurrence
expander, the rank evaluator and its ladder, the hash-chained audit log, refresh-token rotation, and a few
smaller protocols around them. `dafny verify dfyconfig.toml` checks everything.

## How it is modelled

**Billing.** Every database call is one atomic step, written as a function on the documents
(`BillingStore`). A service call in progress is a program point together with what it has read so far,
possibly stale (`BillingMachine`); a run is any sequence of starts, steps, crashes and clock ticks. The
invariant (`BillingInvariant`), its preservation (`BillingSteps`) and the theorems about whole runs
(`BillingRuns`, `BillingNumbers`, `BillingGapless`, `BillingLadder`, `BillingInAdvance`, `BillingSuspended`,
`BillingStaleCursor`) hold for any number of processes. What one call does when nobody interferes, from any
reachable state, is in `BillingCatchUp` and `BillingAlone`. `BillingDatabase`, `BillingRepositories`,
`BillingService` and `BillingJobs` are the code in its own, imperative form: classes over one shared
database object whose `Await` lets an arbitrary schedule of other calls run. Each service method is proved
to be a run of the machine in which this call takes its steps one by one to the end (`BillingCalls.Stands`),
so every theorem about runs is a theorem about the service.

**Tenant guard.** A small aggregation language with a denotational meaning (`TenantQuery`), the rewriting as
functions and as the in-place loops of the hooks (`TenantGuard`), and what it guarantees
(`TenantIsolation`, `TenantSlice`). `GuardedWrites` is the bulk-write counterpart.

**Calendar, money.** The calendar is built from the lengths of the months, as the code's is, and is proved to be the
proleptic Gregorian one in its closed form; rounding is characterised as nearest, ties away from zero.

**Recurrence.** A zone is an arbitrary function from instants to offsets. The ideal series is defined by
day index, independently of the walk; the walk is a loop proved against it.

**Rank.** Criterion trees are a recursive datatype, progress fractions are exact reals, dates are those of
the tenant's zone. What each criterion asks of a record is stated apart from the evaluator (`RankMeaning`), and the
results about steps and promotions are in those terms (`RankMonotone`). The validator's checks are the source's nested loops.

**Audit.** Canonical JSON is printed character by character; the digest is an abstract function, assumed
collision-free where a statement says so. The append protocol is a step machine, and the repository's retry
loop a method beside it.

**Sessions, scheduling.** Step machines over sessions and bookings, with the token service as a class.

## Where the code and its documentation disagree

Each of these is a lemma with a concrete witness, beside a lemma that says exactly when the claim holds.

- The "forward-only" guard on the billing cursor (packages/billing/src/billing.service.ts:337-346) compares
  with the run's own earlier read, so a slow run can move the stored cursor back
  (`BillingStaleCursor.CursorCanMoveBack`); it does exactly when the cursor has advanced by two periods or
  more since that read (`BillingRuns.CursorWriteDirection`). Nothing is billed twice all the same.
- Proration conserves the amount (packages/domain/src/billing.ts:177-181) except at exact half-unit ties
  (`Money.ProrationConservationFails`, `Money.ProrationConservesIff`).
- A `$facet` is said to start from the unfiltered collection (packages/db/src/tenant-guard.ts:165); it runs on
  the documents that reach it, and the injected match empties it for documents that have lost their tenant
  field (`TenantSlice.FacetAfterProjectionFails`). Every facet agrees with its original exactly when all of the
  documents that reach it are the tenant's (`TenantSlice.FacetsAgreeExactlyWhen`).
- Windowing is said never to change which instances exist (packages/db/src/rrule.ts:210-214); the exit at
  line 290 can drop one (`Recurrence.ExpandCanLose`). No window loses an instance, and adjoining windows join,
  exactly when the rule has a COUNT or no instance after the first day starts before the UTC midnight of its
  date (`Recurrence.NoWindowLosesExactlyWhen`, `Recurrence.CallsSplitExactlyWhen`).
- The rank validator promises no cycles (packages/rank-engine/src/validate.ts:12-17); prerequisites across
  tracks may form one (`RankGuarantees.CrossTrackCyclePasses`), and every cycle it lets through passes over
  one (`RankGuarantees.CyclesCrossTracks`). There is none exactly when taking off, round by round, the steps
  that need no step left empties the ladder (`RankGuarantees.CycleFreeExactlyWhen`). A repeated step id, which
  it does not check, sends the walk round forever (`RankGuarantees.RepeatedIdPasses`); the walk is complete
  exactly when the ids are distinct (`RankLadder.WalksThroughExactlyWhen`).
- Revoking a family is said to end it (apps/api/src/auth/token.service.ts:130-134); a rotation that has won its
  swap can still mint (`SessionRace.LogoutCanMissARotation`). No session of the family is ever active again
  exactly when no rotation stood between its won swap and its mint (`Sessions.RevokingEndsExactlyWhen`), and the
  same holds for logging a user out everywhere (`Sessions.RevokingUserEndsExactlyWhen`).
- Any deletion from the audit log is said to break the chain (packages/gdpr/src/audit.ts:5-13); deleting the last
  entry does not (`AuditTamper.DeletedLastPasses`). Of all lists made of entries of a chain exactly its beginnings
  verify (`AuditTamper.SelectionVerifiesExactlyWhen`).

## Model

| member | source | states |
|---|---|---|
| Calendar.NextDayIsNext | packages/db/src/rrule.ts:280-287 | the cursor advance is closed on valid dates, goes forward, and raises the day number by exactly one through month ends and leap years |
| Calendar.DayNumberOrders | packages/db/src/rrule.ts:198-208 | the UTC-midnight day counter orders valid dates as the calendar does and tells them apart |
| Calendar.DayNumberIsCivil | packages/db/src/rrule.ts:198-208 | the day number is the civil day count: eras of 400 years and 146097 days, months counted from March |
| Calendar.MonthLengthIsCivil | packages/db/src/rrule.ts:193-196 | a month is as long as the civil distance between its first day and the first of the next |
| Calendar.WeekdayIsCivil | packages/db/src/rrule.ts:247-248 | the weekday of a date is the one of the closed congruence over year, month and day |
| Calendar.WalkReachesEveryDay | packages/db/src/rrule.ts:242-287 | the day walk from a valid date meets every later valid date at exactly one step count |
| Calendar.LastDayPrecedesNextMonth | packages/db/src/rrule.ts:193-196 | day 0 of the next month is the last day of the month, across the year end too, also by the civil calendar |
| Calendar.DateOfDayMonotone | packages/billing/src/billing.service.ts:289 | the date cut from the clock's instant is strictly monotone in the day |
| BillingStore.ReadingsAreCivil | packages/billing/src/billing.service.ts:233-289 | the billing date and the year of an invoice number are those of the clock instant in UTC, by the civil calendar |
| Calendar.AddMonthsExact | packages/domain/src/billing.ts:206-219 | month arithmetic is closed on valid dates, exact on the month index, keeps the day or clamps it to the last of the month, keeps a day of 28 or more at 28 or more, and moves forward for positive months |
| Calendar.BoundaryMonthIndex | packages/domain/src/billing.ts:235-245 | iterating the period boundary stays exact on the month index and keeps the day bounds |
| Calendar.BoundaryInjective | packages/domain/src/billing.ts:235-245 | distinct period indices have distinct boundaries, in calendar order |
| Calendar.IsoOrder | packages/domain/src/billing.ts:243 | comparing the printed dates as strings compares the dates, for four-digit years |
| Money.RoundingExact | packages/domain/src/billing.ts:31-36 | the rounding is the one nearest integer, ties away from zero, and no other integer qualifies |
| Money.VatAccurate | packages/domain/src/billing.ts:31-36 | VAT is the nearest whole amount, in the currency of the net, and a credit carries exactly the negated VAT |
| Money.LineMeans | packages/domain/src/billing.ts:131-150 | a line keeps its quantity and price; its VAT is the nearest to net times rate, nothing under reverse charge; its total is net plus VAT |
| Money.ComputeInvoiceTotals | packages/domain/src/billing.ts:152-175 | the summing loop throws exactly on a foreign currency and otherwise yields the net, VAT and gross sums |
| Money.TotalsAddUp | packages/domain/src/billing.ts:152-175 | one line more adds its net to the subtotal, its VAT to the VAT and both to the total |
| Money.TotalIsSumOfLines | packages/domain/src/billing.ts:131-175 | for built lines the invoice total equals the sum of line totals and of subtotal and VAT |
| Money.ProrationConserves | packages/domain/src/billing.ts:177-189 | the two portions of a split add up to the amount, except at exact ties, where they exceed it by one unit away from zero |
| Money.ProrationConservesIff | packages/domain/src/billing.ts:177-189 | conservation holds exactly when the split is not at a half-unit tie |
| Money.ProrationConservationFails | packages/domain/src/billing.ts:177-181 | one unit split in half is billed twice |
| Money.ProrationBounds | packages/domain/src/billing.ts:182-184 | an empty term owes nothing, and remaining days are clamped to the term |
| Money.ProrateIsNearest | packages/domain/src/billing.ts:182-189 | a portion is the nearest whole amount to amount times days over term |
| InvoiceNumber.ReadFormat | packages/db/src/billing.ts:744-750 | the printed number gives back year and sequence |
| InvoiceNumber.FormatLooks | packages/db/src/billing.ts:744-750 | the text is OBK, the year and a sequence of at least six digits, exactly six below a million |
| InvoiceNumber.FormatInjective | packages/db/src/billing.ts:441-446 | the unique index on the printed text is an index on year and sequence |
| BillingInvariant.ProcStable | packages/billing/src/billing.service.ts:275-349 | what a suspended call relies on, stale reads included, survives whatever the others do |
| BillingInvariant.DbEvolvesTransitive | packages/db/src/billing.ts:682-712 | lawful change of documents composes over any number of steps |
| BillingInvariant.BillForExactly | packages/billing/src/billing.service.ts:179-217 | a bill is made exactly when the VAT document of the plan exists, and then has one line of quantity 1 at the price of the plan, the nearest VAT at that rate (0 without one) and their sum |
| BillingSteps.CursorWriteKeeps | packages/billing/src/billing.service.ts:337-346 | the unconditional cursor write, in either direction, leaves the cursor on the chain with everything before it issued |
| BillingSteps.NextDraftKeeps | packages/db/src/billing.ts:453-456 | a draft the period index accepts extends the billed periods by exactly the next one |
| BillingSteps.TakenIsBilled | packages/db/src/billing.ts:591-598 | the period key is taken exactly when the period is billed |
| BillingSteps.RungLawful | packages/db/src/billing.ts:666-680 | winning the stage swap makes the stale snapshot's retry time current, so a rung is never early |
| BillingSteps.AdvanceKeeps | packages/billing/src/billing.service.ts:191-468 | every step of every operation keeps the documents lawful and leaves the call with what it relies on next |
| BillingRuns.StepKeeps | packages/billing/src/billing.service.ts:191-468 | so does every start, crash, clock tick and new enrollment, for all other calls in progress |
| BillingRuns.RunKeeps | packages/billing/src/billing.service.ts:191-468 | the invariant holds throughout every run and nothing settled is undone |
| BillingRuns.Tiling | packages/billing/src/billing.service.ts:266-349 | in every run an enrollment's recurring invoices are exactly one for each of the first n periods of its chain, and the cursor is on the chain with every earlier period issued |
| BillingRuns.NoDoubleBilling | packages/db/src/billing.ts:449-456 | two invoices of one enrollment never cover a common day |
| BillingRuns.BilledAtPlanPrice | packages/billing/src/billing.service.ts:191-349 | in every run every invoice of an enrollment bills its member one unit of its plan at the price of the plan, with the nearest VAT and their sum; an ad-hoc invoice bills one unit of some plan |
| BillingRuns.IssuedForGood | packages/db/src/billing.ts:682-712 | a period once issued stays issued |
| BillingRuns.InvoiceLife | packages/db/src/billing.ts:642-712 | between any two moments of any run: the bill never changes, no return to draft, a number never changes, paid stays paid untouched by dunning, open is numbered on a rung below four, uncollectible has climbed all four |
| BillingRuns.CursorWriteDirection | packages/billing/src/billing.service.ts:337-346 | the write moves the cursor back exactly when the stored cursor is two or more periods past what this run read |
| BillingStaleCursor.CursorCanMoveBack | packages/billing/src/billing.service.ts:337-346 | a concrete run in which the forward-only guard lets the cursor move back |
| BillingNumbers.NumbersHold | packages/db/src/billing.ts:760-772 | every number handed out has exactly one owner: an invoice, a call holding it, or nobody any more |
| BillingNumbers.IndexNeverFires | packages/db/src/billing.ts:441-446 | a number held by a call is on no invoice, so the number index never refuses a claim |
| BillingNumbers.NumbersDistinct | packages/db/src/billing.ts:631-657 | two invoices of a tenant never carry or print the same number |
| BillingNumbers.NumbersConserved | packages/billing/src/billing.service.ts:219-264 | the counter equals numbers on invoices plus in flight plus lost |
| BillingGapless.StepLosesExactly | packages/billing/src/billing.service.ts:245-263 | a step loses a number exactly when it crashes a call that holds one, or is a claim whose invoice is no draft any more; it loses that number and no other |
| BillingGapless.GaplessExactlyWhen | packages/billing/src/billing.service.ts:219-264 | in every run the numbers of a tenant and year have no gap exactly when no call holds one and no step so far has lost one |
| BillingGapless.SequentialNumbering | packages/billing/src/billing.service.ts:219-264 | calls that neither overlap nor crash lose no number, and between them the invoices of a tenant and year carry exactly 1 to n |
| BillingLadder.RungNotBefore | packages/billing/src/billing.service.ts:426-457 | every rung is one of four and is climbed only after the 14 days of terms and three more days for each rung below |
| BillingLadder.RungsInTime | packages/billing/src/billing.service.ts:417-468 | rungs of an invoice are climbed once each, in order, three days apart |
| BillingLadder.FreezeNotBefore | packages/billing/src/billing.service.ts:463-466 | a dunning freeze never comes before 14 + 9 days after issue, and the frozen enrollment is the invoice's own |
| BillingLadder.OnlyFinalRungFreezes | packages/billing/src/billing.service.ts:463-466 | a step changes an enrollment's status only as the freeze after a won final rung; no cursor write undoes it |
| BillingSuspended.SuspendedIsNotBilled | packages/billing/src/billing.service.ts:281-283 | once an enrollment is frozen, or off for another reason, and no call in progress still takes it for active, it gets no further invoice in any continuation |
| BillingInAdvance.NoPeriodBilledEarly | packages/domain/src/billing.ts:228-245 | no period is billed before it has started, in any run |
| BillingCatchUp.SoloBilling | packages/billing/src/billing.service.ts:266-349 | one call left alone, from any reachable state, issues the next due period and moves the cursor over it |
| BillingCatchUp.CatchUp | packages/billing/src/billing.service.ts:266-274 | repeated at a fixed date the calls end with exactly the started periods billed and issued |
| BillingAlone.SoloDunning | packages/billing/src/billing.service.ts:417-468 | one dunning call left alone on an open invoice past due and past its retry time climbs exactly one rung, retried in three days; the fourth makes it uncollectible and leaves the enrollment frozen; nothing else changes |
| BillingAlone.SoloPayment | packages/billing/src/billing.service.ts:373-415 | one payment call left alone, in the currency of the invoice under a new key, stores the attempt; a success pays the invoice at that instant, off the ladder, whatever its status |
| BillingAlone.SoloPaymentIgnored | packages/billing/src/billing.service.ts:376-390 | another currency, or a key recorded for the invoice, changes nothing |
| BillingAlone.SoloAdHoc | packages/billing/src/billing.service.ts:191-264 | one ad-hoc call left alone issues one invoice more for one unit of the plan, under the next number of the year, payable in 14 days |
| BillingDatabase.RunEmbeds | packages/billing/src/billing.service.ts:171-176 | what the others do during an await does not depend on the waiting call |
| BillingDatabase.Database.Await | packages/billing/src/billing.service.ts:171-176 | an await lets any schedule of other calls and of the clock run |
| BillingRepositories.EnrollmentRepository.SetPeriod | packages/db/src/billing.ts:343-364 | the period of the tenant's enrollment is set, whatever was there, and no other document or field changes |
| BillingRepositories.EnrollmentRepository.SetFrozen | packages/db/src/billing.ts:343-364 | the tenant's enrollment is frozen, whatever its status, and no other document or field changes |
| BillingRepositories.InvoiceRepository.Create | packages/db/src/billing.ts:556-589 | a draft is inserted under a new id, or refused by the period index with nothing changed |
| BillingRepositories.InvoiceRepository.FindByEnrollmentPeriod | packages/db/src/billing.ts:591-598 | a matching invoice, or none when none matches |
| BillingRepositories.InvoiceRepository.Claim | packages/db/src/billing.ts:642-657 | status, dates and number in one write, exactly when the invoice is a draft of the tenant |
| BillingRepositories.InvoiceRepository.AdvanceStep | packages/db/src/billing.ts:666-680 | one rung, exactly when the invoice is open at the stage read; the fourth ends uncollectible, any other is retried in three days |
| BillingRepositories.InvoiceRepository.SetPaid | packages/db/src/billing.ts:689-712 | paid at that instant and off the ladder, whatever the status |
| BillingRepositories.InvoiceCounterRepository.AllocateNumber | packages/db/src/billing.ts:760-772 | the atomic increment with upsert |
| BillingRepositories.PaymentRepository.Create | packages/billing/src/billing.service.ts:392-401 | an attempt is stored once per idempotency key |
| BillingCalls.ReturnedIsStored | packages/billing/src/billing.service.ts:335-348 | what a call returns is the stored invoice but for what happened since, at the price of the plan |
| BillingService.BillingService.Issue | packages/billing/src/billing.service.ts:233-264 | is a run of the machine under any interference; on success the returned invoice is the stored, issued one; a call that finds no draft throws and changes nothing, so it burns no number |
| BillingService.BillingService.EnsureIssued | packages/billing/src/billing.service.ts:351-366 | the same, tolerating a concurrent issue |
| BillingService.BillingService.IssueInvoiceForEnrollment | packages/billing/src/billing.service.ts:191-217 | the ad-hoc call is a run of the machine; the returned invoice is issued, is the stored one under a new id, and bills the member of the enrollment one unit of its plan at price, nearest VAT and their sum |
| BillingService.BillingService.FindOrCreate | packages/billing/src/billing.service.ts:298-333 | an invoice of the enrollment for the period: found, created, or found after losing the creation |
| BillingService.BillingService.BillRecurringForEnrollment | packages/billing/src/billing.service.ts:275-349 | the recurring call is a run of the machine; an enrollment that is not active is not billed and an unknown one throws, without effect; a returned invoice is issued, stored, and bills the member of the enrollment one unit of its plan at price, nearest VAT and their sum |
| BillingService.BillingService.AdvanceDunning | packages/billing/src/billing.service.ts:426-468 | the dunning call is a run of the machine; a rung it wins is retried in three days, and the last ends uncollectible with the enrollment frozen at the end of the call, whatever the others do |
| BillingService.BillingService.RecordPaymentResult | packages/billing/src/billing.service.ts:373-415 | the payment call is a run of the machine; it throws without effect for an unknown invoice or another currency; the attempt it returns is the stored one, a recorded success leaves the invoice paid at that instant, a key stored before is not recorded again |
| BillingJobs.ListDueForBilling | packages/db/src/billing.ts:323-341 | exactly the tenant's enrollments that pass the filter, each once, the earliest start date first |
| BillingJobs.ListedIffDue | packages/db/src/billing.ts:323-341 | on a chain the coarse filter lists exactly the enrollments the billing call would bill |
| BillingJobs.RunBillingForTenant | apps/worker/src/billing-jobs.ts:54-81 | every listed enrollment gets its call whatever fails, the counters are the numbers of calls that returned an invoice and that threw, each returned invoice is issued and stored, and the sweep keeps all that runs keep |
| TenantGuard.ScopeAggregationStage | packages/db/src/tenant-guard.ts:104-176 | the stage walk with its loops computes the scoped stage or the first refusal |
| TenantGuard.ScopeSubPipeline | packages/db/src/tenant-guard.ts:89-102 | the sub-pipeline loop computes the scoped body, tenant match first |
| TenantGuard.Aggregate.Scope | packages/db/src/tenant-guard.ts:178-186 | the hook rewrites its pipeline in place; on a refusal exactly the stages before the refused one are rewritten |
| TenantGuard.ScopedFilterExact | packages/db/src/tenant-guard.ts:67-78 | a guarded filter matches exactly the tenant's matching documents, and is refused exactly when it names the tenant otherwise |
| TenantGuard.StampDoc | packages/db/src/tenant-guard.ts:188-196 | a stamped document is the tenant's and otherwise unchanged; refused exactly for a foreign tenant |
| TenantGuard.StampAll | packages/db/src/tenant-guard.ts:226-236 | all documents are stamped exactly when none is foreign |
| TenantIsolation.AcceptedExactly | packages/db/src/tenant-guard.ts:104-176 | a pipeline is accepted exactly when nothing banned or ill-formed occurs in it at any depth |
| TenantIsolation.AcceptedIsConfined | packages/db/src/tenant-guard.ts:80-176 | an accepted pipeline holds no write stage, unfiltered join or unscoped collection at any depth |
| TenantIsolation.TenantsDoNotInterfere | packages/db/src/tenant-guard.ts:178-186 | on databases that agree on the tenant an accepted pipeline yields the same |
| TenantSlice.BodySliced | packages/db/src/tenant-guard.ts:89-102 | a scoped sub-pipeline is the original one on the tenant's slice |
| TenantSlice.RestrictionSliced | packages/db/src/tenant-guard.ts:147-163 | the pinned search restriction is the caller's restriction on the slice |
| TenantSlice.FacetFilters | packages/db/src/tenant-guard.ts:165-175 | a rewritten facet is the original facet on the tenant's documents among those that reach it |
| TenantSlice.RewritingPreservesMeaning | packages/db/src/tenant-guard.ts:80-186 | the rewritten pipeline equals the original on the slice, when no restriction names the tenant and facets are reached with it |
| TenantSlice.FacetFreeIsExact | packages/db/src/tenant-guard.ts:80-186 | without a facet the equality needs no condition on the documents |
| TenantSlice.TidyIsExact | packages/db/src/tenant-guard.ts:80-186 | with facets it holds on every database when what comes before them, at any depth, passes the tenant field on |
| TenantSlice.FacetExactly | packages/db/src/tenant-guard.ts:165-175 | a facet listing its input agrees with the original exactly when every document that reaches it is the tenant's |
| TenantSlice.FacetsAgreeExactlyWhen | packages/db/src/tenant-guard.ts:165-175 | all accepted facets with tidy branches agree with their originals on the slice exactly when every document that reaches them is the tenant's |
| TenantSlice.FacetAfterProjectionFails | packages/db/src/tenant-guard.ts:165-175 | a tenant's own documents vanish from a facet after a projection |
| GuardedWrites.ScopedOpIsolated | packages/db/src/repository.ts:108-144 | a scoped bulk operation touches no document of another tenant and inserts only the tenant's |
| GuardedWrites.ScopedOpRefusedExactly | packages/db/src/repository.ts:35-42 | an operation is refused exactly when its filter names the tenant field otherwise |
| GuardedWrites.ScopedOpDoes | packages/db/src/repository.ts:108-144 | a scoped operation does on the collection exactly what the caller's own does on the tenant's documents alone, and a document put in whole is the caller's, with the tenant |
| GuardedWrites.BulkIsIsolated | packages/db/src/repository.ts:89-106 | a whole bulk leaves other tenants untouched and all it inserts is the tenant's |
| GuardedWrites.BulkLeavesOthers | packages/db/src/repository.ts:89-106 | with replacements too, other tenants stay untouched |
| Recurrence.LocalWallTimeToUtc | packages/db/src/rrule.ts:153-171 | across any one offset change the returned instant shows the wall time whenever some instant does, and is off by exactly the jump otherwise |
| Recurrence.StartsApart | packages/db/src/rrule.ts:246-260 | later days do not start earlier, date-line crossings included, and start strictly later without one |
| Recurrence.ExpandWeekly | packages/db/src/rrule.ts:215-294 | the walk with its four exits returns exactly the members of the ideal series in the window, but for days whose UTC midnight is past it |
| Recurrence.IdealIsTheWindow | packages/db/src/rrule.ts:210-214 | in any zone the ideal series holds exactly the occurrences of the members that start in the window; its starts never decrease, date-line crossings included, and strictly increase, one for each such day, without one |
| Recurrence.IdealByDates | packages/db/src/rrule.ts:242-278 | the series is exactly what happens on a calendar date: wanted weekday, wanted 7-day block, fewer than COUNT such dates before, start at the local time, not after UNTIL, in the window, and its duration |
| Recurrence.NoWindowLosesExactlyWhen | packages/db/src/rrule.ts:210-290 | every window yields exactly the ideal series in it exactly when the rule has a COUNT or no instance after the first day starts before the UTC midnight of its date |
| Recurrence.NothingLost | packages/db/src/rrule.ts:289-290 | so it is when the start time of day is at least the zone's offset |
| Recurrence.ExpandCanLose | packages/db/src/rrule.ts:289-290 | a concrete class that is dropped |
| Recurrence.MemberOfWindow | packages/db/src/rrule.ts:210-214 | windowing does not change which instances exist |
| Recurrence.IdealSplits | packages/db/src/rrule.ts:210-214 | the series of two adjoining windows concatenate to that of their union |
| Recurrence.CallsSplitExactlyWhen | packages/db/src/rrule.ts:215-294 | the expander's results for two adjoining windows always concatenate to that for their union exactly under the same condition |
| RankMeaning.EvaluationSays | packages/rank-engine/src/evaluate.ts:84-168 | each of the eight leaves is satisfied exactly when the record meets it: time since entry up, counts at or above the number, birthday reached, prerequisite passed on its track or current, every item completed, a passed grading for the target, a sign-off for the target by the named role or anyone; and is half way exactly when half of it is met |
| RankMeaning.SatisfiedIsHolds | packages/rank-engine/src/evaluate.ts:170-194 | a tree is satisfied exactly when the record meets its leaf, all its parts or one of them |
| RankMonotone.BlockingExactly | packages/rank-engine/src/evaluate.ts:170-194 | a kind blocks exactly by a required leaf of it that the record does not meet, under no anyOf that holds |
| RankMonotone.SatisfiedDoesNotBlock | packages/rank-engine/src/evaluate.ts:170-194 | a tree the record satisfies blocks nothing |
| RankMonotone.StepStatusMeans | packages/rank-engine/src/evaluate.ts:196-224 | ready exactly when no required leaf blocks; close exactly when something blocks and every required unmet leaf of a kind that blocks is half met |
| RankMonotone.EvaluateStepExactly | packages/rank-engine/src/evaluate.ts:196-224 | what the evaluation of a step reports: status, each criterion met or not, the kinds that block and the advice not met, in terms of the record |
| RankMonotone.EligibilityExactly | packages/rank-engine/src/evaluate.ts:233-252 | a student is evaluated for the step that follows on the track, or for none when none does |
| RankMonotone.EligibilityIsMonotone | packages/rank-engine/src/evaluate.ts:84-224 | for every tree a better record only shrinks what blocks and never lowers the status |
| RankMonotone.PromotionRefusedExactly | packages/rank-engine/src/promote.ts:26-52 | refused exactly for an unknown step, or when a required criterion the record does not meet blocks and no human gave a reason, and then with the kinds that block; a granted entry records for every criterion whether it was met |
| RankLadder.TrackIsSorted | packages/rank-engine/src/evaluate.ts:226-231 | the steps of a track, each as often as on the ladder, in order |
| RankLadder.RepeatedIdNeverStops | packages/rank-engine/src/evaluate.ts:233-238 | with a repeated id the walk never ends |
| RankLadder.WalksThroughExactlyWhen | packages/rank-engine/src/evaluate.ts:233-238 | taking the next step visits each step once and stops exactly when the ids are distinct |
| RankConfig.CollectLeaves | packages/rank-engine/src/validate.ts:128-134 | the leaves of a tree in order |
| RankConfig.StepIssues | packages/rank-engine/src/validate.ts:188-247 | the issues reported for a step, code and path, are exactly those it has |
| RankConfig.GroupIssues | packages/rank-engine/src/validate.ts:164-186 | duplicate orders and a dan at or below a rank are reported, at the track, exactly when they occur |
| RankConfig.GroupByTrack | packages/rank-engine/src/validate.ts:150-163 | the ladder grouped by track, and unknown tracks reported exactly |
| RankConfig.TransitionIssues | packages/rank-engine/src/validate.ts:249-276 | the transition issues, code and path, are exactly those it has |
| RankConfig.StructuralIssues | packages/rank-engine/src/validate.ts:136-279 | an issue is reported, code and path, exactly when the draft has it, so no issues means well-formed |
| RankGuarantees.CleanWalk | packages/rank-engine/src/validate.ts:150-186 | on a clean ladder with distinct ids the walk climbs strictly through every step of the track |
| RankGuarantees.NoCycleOnTrack | packages/rank-engine/src/validate.ts:188-233 | a chain of prerequisites and marker parents that passes over no cross-track prerequisite never comes back to a step |
| RankGuarantees.CyclesCrossTracks | packages/rank-engine/src/validate.ts:188-233 | on a clean draft every cycle of prerequisites, on any tracks, and marker parents uses a cross-track prerequisite |
| RankGuarantees.LayeredHasNoCycle | packages/rank-engine/src/validate.ts:188-233 | a clean draft has no cycle when its tracks can be layered so that cross-track prerequisites go down |
| RankGuarantees.CycleFreeExactlyWhen | packages/rank-engine/src/validate.ts:12-17 | a draft has no cycle exactly when taking off, round by round, the steps that need no step left takes off all |
| RankGuarantees.CrossTrackCyclePasses | packages/rank-engine/src/validate.ts:218-233 | two steps on different tracks that require each other pass |
| RankGuarantees.RepeatedIdPasses | packages/rank-engine/src/validate.ts:136-143 | a repeated step id passes and its walk never stops |
| CanonicalText.PrintPrefixFree | packages/gdpr/src/audit.ts:68-70 | the text of a canonical value, followed by anything that does not extend a number, determines the value and what follows |
| CanonicalText.CanonicalTextExact | packages/gdpr/src/audit.ts:68-83 | payload texts are equal exactly when the canonical objects and the folded hashes are |
| CanonicalOrder.OrderDoesNotMatter | packages/gdpr/src/audit.ts:51-66 | the canonical form and text do not depend on field order or undefined fields |
| CanonicalOrder.FieldReadBack | packages/gdpr/src/audit.ts:55-66 | a field is read back from the canonical form up to its own canonical form |
| CanonicalOrder.CanonicalizeValue | packages/gdpr/src/audit.ts:55-66 | the loop over sorted keys fills the canonical object |
| AuditChain.VerifyChain | packages/gdpr/src/audit.ts:108-131 | valid exactly when every entry links and hashes right; otherwise the index of the first that does not |
| AuditChain.AppendingExactly | packages/gdpr/src/audit.ts:88-101 | a longer chain verifies exactly when the new entry is the appended one |
| AuditChain.HashedFields | packages/gdpr/src/audit.ts:72-86 | under each name the hashed object holds that part of the record and the previous hash |
| AuditChain.HashCommits | packages/gdpr/src/audit.ts:72-86 | two hashes are equal exactly when the hashed objects have one canonical form and the hashes before them, folded in again, are equal |
| AuditChain.HashDetermines | packages/gdpr/src/audit.ts:72-86 | with a collision-free digest a hash determines the entry and its link |
| AuditChain.TamperEvident | packages/gdpr/src/audit.ts:5-13 | two verifying chains with the same last hash hold the same records |
| AuditTamper.SelectionVerifiesExactlyWhen | packages/gdpr/src/audit.ts:5-13 | whatever is deleted from a chain, reordered or repeated, what is left verifies exactly when it is a beginning of the chain |
| AuditTamper.RewriteVerifiesExactlyWhen | packages/gdpr/src/audit.ts:5-13 | with one entry rewritten the chain verifies exactly when the entry is the last and appended as it should be, or the same record up to canonical form |
| AuditTamper.DeletedLastPasses | packages/gdpr/src/audit.ts:5-13 | a concrete deletion that is not noticed |
| AuditAppend.ReadBackExactly | packages/db/src/audit-log.ts:86-102 | an entry is read back as hashed exactly when no null was stored as its diff |
| AuditAppend.FreshRowAccepted | packages/db/src/audit-log.ts:77-80 | a row built on the current head is refused by no index |
| AuditAppend.RefusedMeansOvertaken | packages/db/src/audit-log.ts:152-159 | an insert is refused exactly when its sequence number was taken since the read |
| AuditAppend.ChainAlwaysVerifies | packages/db/src/audit-log.ts:129-162 | in every run the rows are numbered 0..n-1 and the listed chain verifies |
| AuditAppend.ThrowsOnlyUnderTwelveRivals | packages/db/src/audit-log.ts:28-32 | an append throws only after at least twelve rival inserts during the call |
| AuditAppend.AuditLogRepository.Append | packages/db/src/audit-log.ts:134-162 | the retry loop commits the entry of the request as the new last row or gives up after twelve rivals, keeping the chain |
| Sessions.OneLineOfLife | apps/api/src/auth/token.service.ts:125-187 | active sessions plus rotations about to mint are at most one per family, always |
| Sessions.FamilyIsAChain | apps/api/src/auth/token.service.ts:143-154 | a session has at most one successor, of its family and user, once it is retired; a family has one first session |
| Sessions.EndedForGood | apps/api/src/auth/token.service.ts:130-155 | a family with no claim left stays ended |
| Sessions.RevokingEndsExactlyWhen | apps/api/src/auth/token.service.ts:157-161 | after a family is revoked no session of it is active in any continuation exactly when no rotation stood between swap and mint |
| Sessions.RevokingUserEndsExactlyWhen | apps/api/src/auth/token.service.ts:163-167 | after all sessions of a user are revoked no family drawn so far ever has an active one again exactly when no call was about to mint for the user |
| SessionRace.LogoutCanMissARotation | apps/api/src/auth/token.service.ts:143-161 | a concrete run with an active session after the logout |
| SessionService.SessionRepository.RevokeIfActive | packages/db/src/auth.ts:274-285 | the compare-and-swap on one session |
| SessionService.SessionRepository.RevokeFamily | packages/db/src/auth.ts:287-291 | every active session of the family is retired and nothing else changes |
| SessionService.TokenService.StartSession | apps/api/src/auth/token.service.ts:124-128 | a login is a whole call of the machine on a fresh family and returns an active first session of the user, good for the whole term |
| SessionService.TokenService.Rotate | apps/api/src/auth/token.service.ts:130-155 | a token found retired, or retired before the swap, returns nothing and ends with no active session in its family, for good exactly when no rotation of it stood between swap and mint; an expired one is retired; otherwise the new session is the only active one of its family, succeeds the presented one and is good for the whole term; a call alone on an active, unexpired token returns one; an unknown token changes nothing |
| SessionService.TokenService.Revoke | apps/api/src/auth/token.service.ts:157-161 | a logout ends with no active session in the family of the token, for good exactly when no rotation of it stood between swap and mint; an unknown token changes nothing |
| SessionService.TokenService.RevokeAllSessions | apps/api/src/auth/token.service.ts:163-167 | afterwards no stored session of the user is active |
| Scheduling.ClassOccurrenceRepository.Materialize | packages/db/src/scheduling.ts:334-369 | the upserts add the new keys and return exactly how many there were |
| Scheduling.MaterializedKeys | packages/db/src/scheduling.ts:334-369 | the keys are the union, existing rows are unchanged, new rows are as asked |
| Scheduling.WindowsInAnyOrder | packages/db/src/scheduling.ts:334-345 | overlapping windows in any order give the same keys and never rewrite a row |
| Scheduling.AtMostOnce | apps/worker/src/reminders-jobs.ts:48-94 | over any interleaving of sweeps a booking is reminded at most once and every finished sweep's counters add up |
| Scheduling.RunRemindersForTenant | apps/worker/src/reminders-jobs.ts:53-94 | a sweep on its own hands over one reminder for each booking nobody had claimed, and every counter is the number of bookings so dealt with |
| Scheduling.Roster.ClaimForReminder | packages/db/src/scheduling.ts:533-551 | the claim succeeds exactly when the booking was unclaimed |

## Left out

- Role checks (`can`), i18n, PDF, e-mail, HTTP, queue and CLI code: no protocol of its own.
- Database, date, zone and crypto libraries are atomic store steps, an arbitrary offset function, the civil calendar and an abstract digest; random ids, tokens and families are fresh.
- Money and VAT are exact rationals, a percentage a fraction with a positive denominator; floating-point error of `raw` is not modelled.
- Dates before the year 100, which `Date.UTC` reads as 19xx, and `YYYY-MM-DD` strings that are no calendar date, which the patterns accept.
- The plan catalogue and the VAT rates are fixed during a run; enrollments are created without a cursor and only dunning changes their status; the clock does not go back.
- Voided invoices: no modelled operation voids one, so the status does not occur in a run.
- The attempt number, provider and failure reason of a payment; recovery after a crash between the stored attempt and the invoice update.
- BillingService.BillingService.AdvanceDunning: takes the sweep's listing instant as a parameter, because the call itself does not check the due date; the re-read after a lost race is part of the lost step.
- The dunning sweep's own loop and its notices; its listing is the machine's `StartDunning`.
- Recurrence.ExpandWeekly: takes the parsed rule, a start minute and a valid anchor date, because parsing RRULE text is flat; requires that the zone's offsets at two instants at most two days apart differ by at most a day. A zone that crosses the date line meets this; over its whole history the offset may vary by any amount.
- Aggregation stages with several operators in one object, and stages other than the modelled ones that would hold a pipeline.
- TenantSlice.RewritingPreservesMeaning: a `restrictSearchWithMatch` that names the tenant field is overridden by the guard, so equality with the original is not claimed for it.
- GuardedWrites.BulkIsIsolated: updates that are pipelines or set the tenant field are excluded by the immutable schema field; for replacements see GuardedWrites.BulkLeavesOthers.
- GuardedWrites.ScopedOpDoes: for an update that may insert, its operators act on other fields than the tenant's, which the schema makes immutable.
- RankMeaning.EvaluationSays: of the reported progress it states whether the criterion is met and whether it is half met, not every number shown.
- RankMonotone.EligibilityIsMonotone: a later time is a later date in the tenant's zone; resolving instants to dates is the zone library's. The order of the snapshot by locale is not modelled.
- RankConfig.StructuralIssues: says which issues are reported, code and path, not how often nor in what order.
- RankConfig.StepIssues: says which issues are reported for a step, not how often nor in what order.
- RankConfig.TransitionIssues: says which issues are reported for a transition, not how often nor in what order.
- The shape checks of the rank validator, minting of versions, and age transitions.
- Canonical JSON values are plain: a `Date` in a change description, which canonicalizes to `{}`, an own `__proto__` key, which is lost, and what the store does to undefined or empty values nested in one are not modelled, so injectivity and read-back are not claimed for them.
- Canonical JSON numbers are integers; array elements are defined; keys are ordered by code unit also where JavaScript would list integer keys first.
- The platform audit chain, a second instance of the chain protocol with another payload and bound.
- Access tokens (JWT), session metadata, and the non-atomic update of several users' sessions: revoking by user is one step.
- Scheduling.RunRemindersForTenant: states the sweep without interference; interleaved sweeps are Scheduling.AtMostOnce. The lead window and the listing of occurrences are parameters.
