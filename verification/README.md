# Vargly: verified models of the durable core

Vargly's API keeps durable state that many processes change at once: a domain-event outbox, a fee
ledger, document counters, billing orders, credit wallets and notification rows. This project
models that state in Dafny and proves what every interleaving keeps, together with the money
arithmetic and the printers that the API and the web app must agree on. Verify it with
`dafny verify dfyconfig.toml`.

How the models are built:

- An object that changes stored state is a class whose methods state their whole effect. A
  protocol that several processes run at once is a state machine: one action per SQL statement or
  transaction, runs as sequences of states and actions, an invariant, and theorems over all runs.
  A method that runs alone is tied to the actions of its protocol.
- Money is whole paise, percentages are rationals, instants are milliseconds, due dates are day
  numbers. What foreign calls do (handlers, gateways, providers, failing writes) is an input, for
  every value of which the theorems hold.
- A property the code does not have in general is proved with its exact condition, and a lemma
  gives the input that breaks it.

Modules: `EventStore`, `EventBus`, `EventProtocol` and `EventCodec` (outbox), `TenantQuery`
(query rewriting), `FeeLedger`, `FeeRepository`, `FeePlans` and `FeeReport` (fees),
`DocumentNumbers`, `Calendar`, `Billing`, `CreditWallet`, `SubscriptionAccess`, `SendClaims`,
`Notifications`, `Reminders`, `Csv`, `MoneyWords`; `Text` and `Optional` are helpers.

## What the proofs found

- `decodeFromStorage` reads a payload object whose only key is `$date` with a text as a date; every
  other payload round-trips (`EventCodec.RoundTrip`).
- The web app computes a discount in doubles, the API in decimals, although the comment at
  fees.ts:96 promises equal rounding. However the product comes out within a given error, they agree
  if and only if the final amount is clear of ties by that error (`FeePlans.WebAgrees`). At a tie
  they can differ by a paisa, and the API then refuses the web's plan: 12.5 paise off 200, or 71.4 %
  of 750 (`FeePlans.FixedTieDisagrees`, `FeePlans.PercentageTieDisagrees`).
- The row lock and the duplicate check keep a gateway id from being applied twice to one instalment
  (`FeeLedger.LockKeepsOut`), but not from reaching two instalments at once
  (`FeeLedger.CheckAloneRaces`). The unique index on coaching and reference in `schema.prisma`
  refuses exactly those cases (`FeeLedger.IndexRefusesOthersOnly`, `FeeLedger.AppliedOnce`).
- Settlements of one coaching wait for each other only through the invoice counter of the payment's
  financial year. An upgrade extends the period unless another upgrade commits while it is settled
  (`Billing.UpgradeExtends`), and only one paid in another financial year can do that
  (`Billing.CommitsBetweenAreForeign`, `Billing.LostOnlyToForeignYear`); then an extension can be
  lost (`Billing.LostAcrossYears`).
- At its exact end instant a subscription is reported EXPIRED while the gate still allows it. The
  expiry scan writes its status unconditionally: harmless exactly when the row has lapsed by then,
  but a renewal between the scan's read and its write is locked out
  (`SubscriptionAccess.WriteIsHarmless`, `SubscriptionAccess.RenewalIsLockedOut`). A payment made in
  a period but settled after the scan that expired it starts the new period at the payment instead
  of the old end. That can end access earlier or, by the month rollover, later
  (`SubscriptionAccess.ScanShortensOrLengthens`, `SubscriptionAccess.ScanIn1970`); the scan changes
  an answer of the gate exactly through such settlements (`SubscriptionAccess.ScansKeepAccess`).
- Redelivering a notification with another list, or the same one in another order, adds rows and
  messages exactly when its head has no row, or someone past its head has none and was not past the
  head before with a working write (`Notifications.RedeliveryAddsNothing`,
  `Notifications.SecondListAddsNothing`).
- A DISPATCHED event is reopened exactly by saving a late attempt with a failed handler
  (`EventProtocol.LeavesDispatched`), never when it was published once and
  attempts end in time (`EventProtocol.DispatchedIsFinal`).
- Ten minutes is exactly how long a send may take for a message to go out at most once
  (`SendClaims.BoundIsExact`), provided no crash comes after the provider's answer, no manual retry
  beside a send or after an accepted one, and no receipt of failure; each of these can lead to a
  second message by itself (`SendClaims.UnsmoothStepSendsTwice`).
- Data that connects the `coaching` relation to another coaching passes the stamps of creates and
  updates (`TenantQuery.RelationEscapes`, `TenantQuery.UpdateEscapes`); data that does not is
  exactly what keeps rows home (`TenantQuery.StampedRowOwner`, `TenantQuery.ChangedRowOwner`).

## Model

| member | source | states |
|---|---|---|
| `EventStore.BackoffSchedule` | apps/api/src/events/event-store.ts:87 | The waits start at 30 s and double up to the cap of one hour |
| `EventStore.WaitsWritten` | apps/api/src/events/event-store.ts:87 | The first saved attempt at a recorded event writes a wait of 30 s, each further one twice the last up to an hour |
| `EventStore.PrismaEventStore.Record` | apps/api/src/events/event-store.ts:58-71 | A new event is inserted pending; recording a known id changes nothing |
| `EventStore.PrismaEventStore.MarkResult` | apps/api/src/events/event-store.ts:73-92 | Only this event's row changes: completed handlers united, one attempt more, new status and next attempt; an unknown id changes nothing |
| `EventStore.PrismaEventStore.ClaimDue` | apps/api/src/events/event-store.ts:94-109 | Leases exactly min(limit, due) of the oldest due rows, no other row changes, and a leased row is no longer due |
| `EventBus.DefaultNamesDiffer` | apps/api/src/events/event-bus.ts:80 | Default handler names of different positions are different texts |
| `EventBus.EventBus.Subscribe` | apps/api/src/events/event-bus.ts:78-87 | Refuses exactly a duplicate name, names stay distinct, and registration by order alone never clashes |
| `EventBus.EventBus.Dispatch` | apps/api/src/events/event-bus.ts:119-146 | Every handler runs exactly once, with its given result, and is reported as succeeded or failed accordingly |
| `EventBus.EventBus.SaveOutcome` | apps/api/src/events/event-bus.ts:148-158 | The outcome is stored, or the store is unchanged exactly when the write is given to fail |
| `EventBus.EventBus.Publish` | apps/api/src/events/event-bus.ts:42-70 | For every combination of failing handlers and writes: each handler runs once; an unheard event is not recorded; the row gains the handlers that succeeded, one attempt, and DISPATCHED exactly when none failed, if its insert was acknowledged and its save works |
| `EventBus.EventBus.RedeliverDue` | apps/api/src/events/event-bus.ts:101-117 | For every combination of failing handlers and writes: claims min(limit, due) of the oldest due events; each handler pending at the claim runs exactly once and nothing else runs; each claimed row gains the handlers that succeeded, one attempt, and DISPATCHED exactly when none failed, or only the lease when its save fails; no other row changes |
| `EventBus.PendingRunOnce` | apps/api/src/events/event-bus.ts:105-109 | In a batch or a whole drain the successful and failed runs of a handler grow by exactly one for each claimed event that has it registered and not completed, and by none otherwise |
| `EventBus.DispatchedIsComplete` | apps/api/src/events/event-bus.ts:105-110 | An attempt that leaves an event DISPATCHED has all registered handlers in its completed set |
| `EventBus.RoundsCompose` | apps/api/src/workers/event-relay.worker.ts:30-33 | Two batches at one instant claim disjoint events, and together run and save what one round over both does |
| `EventBus.EventBus.Drain` | apps/api/src/workers/event-relay.worker.ts:28-35 | For any backlog the loop ends and is one round over all events due at the start: each attempted once, each pending handler run once; it returns their number and leaves none due |
| `EventProtocol.InvKept` | apps/api/src/events/event-store.ts:73-109 | Every step of publisher, relay, crash and lost or late outcome keeps the protocol's invariant |
| `EventProtocol.StateRemembers` | apps/api/src/events/event-bus.ts:119-146 | In every run the counters of the model are the publications, the successes of each handler and the lost outcomes that really occurred in it |
| `EventProtocol.DispatchedMeansDelivered` | apps/api/src/events/event-store.ts:77-84 | In every run DISPATCHED implies every handler is completed, and a completed handler really succeeded |
| `EventProtocol.ProgressIsKept` | apps/api/src/events/event-store.ts:78-79 | Over every run the completed set and the attempts only grow |
| `EventProtocol.DeliveredIsNeverRerun` | apps/api/src/events/event-bus.ts:105-110 | Once all handlers are completed, every later claim runs none |
| `EventProtocol.ClaimsAreLeaseApart` | apps/api/src/events/event-store.ts:97-105 | Two claims without a saved outcome between them are at least 300 s apart |
| `EventProtocol.GivenUpForGood` | apps/api/src/events/event-store.ts:80-84 | From ten saved attempts on, an event is DEAD or DISPATCHED and never claimable again |
| `EventProtocol.LateOutcomeReopens` | apps/api/src/events/event-store.ts:77-84 | A run in which a late result moves a DISPATCHED event back to FAILED, its completed handlers staying completed |
| `EventProtocol.LeavesDispatched` | apps/api/src/events/event-store.ts:80-84 | A step leaves DISPATCHED if and only if it saves an attempt with a failed handler |
| `EventProtocol.CanStillBeDelivered` | apps/api/src/events/event-store.ts:87-105 | From any reachable pending or failed event, at most an hour later it can be claimed and, if its handlers succeed, dispatched |
| `EventProtocol.AtMostTenAttempts` | apps/api/src/events/event-store.ts:26-28 | When the event is published at most once and no attempt outlives its lease or the 120 s window, attempts never exceed ten, one process works at a time, and DEAD means exactly ten |
| `EventProtocol.DispatchedIsFinal` | apps/api/src/events/event-store.ts:80-105 | When the event is published at most once and no attempt outlives its window, the row of a DISPATCHED event never changes again |
| `EventProtocol.ExactlyOnce` | apps/api/src/events/event-bus.ts:105-110 | When the event is published at most once, no attempt outlives its window and no outcome is lost, no handler succeeds twice, and DISPATCHED means each handler succeeded exactly once |
| `EventProtocol.DeliveredAtOnce` | apps/api/src/events/event-bus.ts:42-70 | Such a run in which one publication is delivered once and saved |
| `EventCodec.RoundTrip` | apps/api/src/events/event-store.ts:31-49 | Decoding a stored payload returns it if and only if it contains no object whose only key is `$date` with a text |
| `EventCodec.ReservedShapeIsMisread` | apps/api/src/events/event-store.ts:45 | That shape comes back as a date |
| `EventCodec.EncodedIsJson` | apps/api/src/events/event-store.ts:32-39 | What is stored contains no date value anywhere |
| `TenantQuery.ScopeWhereMeans` | apps/api/src/database/prisma/tenant-prisma.extension.ts:150-177 | In the spread and the AND form the rewritten filter selects exactly the caller's rows of the tenant that are live (unless deletion is constrained by the caller), and it is refused exactly when another coaching is named |
| `TenantQuery.StampedRowOwner` | apps/api/src/database/prisma/tenant-prisma.extension.ts:179-191 | A stamped new row belongs to the tenant if and only if its data connects no other coaching by relation |
| `TenantQuery.CreatedColumns` | apps/api/src/database/prisma/tenant-prisma.extension.ts:179-191 | Column by column, a new row holds its data and its audited creator and nothing else |
| `TenantQuery.ChangedColumns` | apps/api/src/database/prisma/tenant-prisma.extension.ts:193-201 | Column by column, a changed row takes its data and its audited editor and keeps the rest |
| `TenantQuery.CreatedRows` | apps/api/src/database/prisma/tenant-prisma.extension.ts:251-257 | A bulk create adds one row for each item, in order, and changes no other |
| `TenantQuery.RelationEscapes` | apps/api/src/database/prisma/tenant-prisma.extension.ts:184 | From any table, a create connected to another coaching is accepted and its row belongs to it |
| `TenantQuery.UpdateEscapes` | apps/api/src/database/prisma/tenant-prisma.extension.ts:193-201 | An update connected to another coaching moves any live row of the tenant there |
| `TenantQuery.ChangedRowOwner` | apps/api/src/database/prisma/tenant-prisma.extension.ts:193-201 | A changed row stays with its tenant if and only if the data connects no other coaching by relation |
| `TenantQuery.TenantClient.AllOperations` | apps/api/src/database/prisma/tenant-prisma.extension.ts:226-299 | Each operation's effect on the table in terms of the rows it is meant to reach, and exactly when and why it is refused or fails |
| `TenantQuery.OthersRowsUntouched` | apps/api/src/database/prisma/tenant-prisma.extension.ts:226-299 | An operation of a tenant changes, removes and returns no row of anyone else |
| `TenantQuery.WritesStayHome` | apps/api/src/database/prisma/tenant-prisma.extension.ts:179-201 | Every row a tenant's operation creates or changes belongs to that tenant |
| `TenantQuery.TenantIsIsolated` | apps/api/src/database/prisma/tenant-prisma.extension.ts:226-299 | In any run, mixed with operations of anyone, a step of another tenant leaves a tenant's rows exactly as they are then and returns none of them |
| `TenantQuery.IsolatedStretch` | apps/api/src/database/prisma/tenant-prisma.extension.ts:226-299 | Over any stretch of a run in which only other tenants act, a tenant's rows do not change |
| `TenantQuery.NothingIsRemoved` | apps/api/src/database/prisma/tenant-prisma.extension.ts:267-292 | On a soft-delete model no run of operations of anyone removes a row physically |
| `TenantQuery.DeletedRows` | apps/api/src/database/prisma/tenant-prisma.extension.ts:267-292 | A delete on a soft-delete model dates `deletedAt` of exactly the rows it reports; of their other columns only the audited editor changes |
| `TenantQuery.DeletedStaysOut` | apps/api/src/database/prisma/tenant-prisma.extension.ts:168-171 | In every run, until someone writes its `deletedAt`, no find, update or delete that leaves `deletedAt` open returns or changes a deleted row |
| `TenantQuery.DeletedCanBeSought` | apps/api/src/database/prisma/tenant-prisma.extension.ts:168-171 | A find with a condition on `deletedAt` returns every matching row of the tenant, deleted or not |
| `FeeLedger.InvKept` | apps/api/src/modules/fees/fee.repository.ts:203-306 | Every step of payments, waivers and plan creation keeps the ledger's invariant |
| `FeeLedger.LedgerIsBalanced` | apps/api/src/modules/fees/fee.repository.ts:270-278 | In every interleaving each instalment has paid = sum of its transactions, 0 <= paid <= amount, and the matching status |
| `FeeLedger.StatusIsFinal` | apps/api/src/modules/fees/fee.repository.ts:234-239 | PAID and WAIVED are absorbing; plan, due date and amount never change, paid amounts never shrink and transactions are only appended |
| `FeeLedger.AcceptedExactly` | apps/api/src/modules/fees/fee.repository.ts:203-251 | In every reachable ledger a payment is accepted if and only if it is positive, within what is unpaid of a PENDING or PARTIAL instalment, and its gateway id is on no transaction |
| `FeeLedger.RefusedBecause` | apps/api/src/modules/fees/fee.repository.ts:205-251 | In every reachable ledger, exactly when a payment is called invalid, unknown, a duplicate, paid already, waived, or too large |
| `FeeLedger.PaymentGoesThrough` | apps/api/src/modules/fees/fee.repository.ts:257-278 | An accepted payment adds one transaction and its amount; one of the whole balance makes the instalment PAID |
| `FeeLedger.WaivedOwesNothing` | apps/api/src/modules/fees/fee.repository.ts:290-299 | A waived instalment keeps what was paid, owes nothing more and accepts no payment |
| `FeeLedger.RefusedForGood` | apps/api/src/modules/fees/fee.service.ts:330-342 | A payment refused for its amount or status is never accepted on a later retry |
| `FeeLedger.AppliedOnce` | apps/api/src/database/prisma/schema.prisma:648-650 | One gateway id is applied at most once in a coaching, and every later delivery is a duplicate |
| `FeeLedger.LockKeepsOut` | apps/api/src/modules/fees/fee.repository.ts:211-228 | In every run, while a payment holds its instalment no transaction of that instalment carries its gateway id |
| `FeeLedger.IndexRefusesOthersOnly` | apps/api/src/database/prisma/schema.prisma:648-650 | In every run the unique index refuses an insert if and only if the gateway id was applied to a different instalment |
| `FeeLedger.CheckAloneRaces` | apps/api/src/modules/fees/fee.repository.ts:211-228 | Payments of two instalments can both pass the duplicate check with one gateway id |
| `FeeRepository.FeeRepository.FindByRef` | apps/api/src/modules/fees/fee.repository.ts:223-228 | Finds a transaction with the reference exactly when one exists |
| `FeeRepository.FeeRepository.RecordPayment` | apps/api/src/modules/fees/fee.repository.ts:203-288 | Accepts exactly what can be paid into the instalment with an unused reference, adds it to the row and the transactions and takes the next receipt number, as begin and commit of the protocol; anything else changes nothing |
| `FeeRepository.FeeRepository.WaiveInstallment` | apps/api/src/modules/fees/fee.repository.ts:290-306 | Makes exactly a PENDING or PARTIAL instalment WAIVED and reports whether it did |
| `FeeRepository.FeeRepository.HandlePaymentWebhook` | apps/api/src/modules/fees/fee.service.ts:271-346 | The answer for every webhook and database failure: a payment that can be applied is, unless rolled back and then delivered again; its redelivery is a duplicate, and without a failure no answer asks for another delivery |
| `FeePlans.CreateFeePlan` | apps/api/src/modules/fees/fee.service.ts:49-71 | Accepted exactly when the instalments add up to the discounted, rounded total, which lies between 0 and the total |
| `FeePlans.FinalIsNearest` | apps/api/src/modules/fees/fee.service.ts:50-60 | The final amount is the whole number of paise nearest to what the discount leaves, ties upwards, and zero when it leaves less than nothing |
| `FeePlans.WebAgrees` | apps/web/src/lib/fees.ts:97-102 | For any error of the web's product: web and API agree for every product within it if and only if the exact final amount is clear of every half paisa by that much, or both come to zero |
| `FeePlans.FixedTieDisagrees` | apps/web/src/lib/fees.ts:100-101 | 12.5 paise off 200: 187 in the web app, 188 in the API |
| `FeePlans.PercentageTieDisagrees` | apps/web/src/lib/fees.ts:97-99 | 71.4 % off 750: 214 in the web app for any product slightly too large, 215 in the API |
| `FeePlans.SplitIsExact` | apps/web/src/lib/fees.ts:108-114 | The split sums to the amount exactly, and its parts differ by less than their count |
| `FeePlans.WebPlanIsAccepted` | apps/web/src/lib/fees.ts:96-114 | The web's plan passes the API's sum check, for any number of instalments and every product within the error, if and only if the amount is clear of ties |
| `FeePlans.PlansReachable` | apps/api/src/modules/fees/fee.service.ts:63-71 | In every reachable ledger each plan's instalments add up to its final amount |
| `FeePlans.PaidIsTransacted` | apps/api/src/modules/fees/fee.mapper.ts:51-54 | In every reachable ledger what a plan counts as paid is the sum of its transactions |
| `FeePlans.ViewConserves` | apps/api/src/modules/fees/fee.mapper.ts:24-64 | In every reachable ledger final = paid + pending + waived, paid is the sum of the plan's transactions, pending the sum of the open balances, and the clamp at zero is idle |
| `FeeReport.OldestDueIsEarliest` | apps/api/src/modules/reports/report.service.ts:66-84 | Debtors are exactly the students with an overdue instalment, and the day listed for them is their earliest one |
| `FeeReport.OwedIsOpenBalance` | apps/api/src/modules/reports/report.service.ts:17-21 | For sound rows the overdue total, and each student's, is the open balance of what was due before today, and the debtors are those who have some |
| `FeeReport.TurnTallies` | apps/api/src/modules/reports/report.service.ts:50-87 | One turn of the loop keeps the totals and every student's account right, given oldest-first order |
| `FeeReport.SortDefaulters` | apps/api/src/modules/reports/report.service.ts:89-91 | The final list holds each account once, larger amounts first, then more days |
| `FeeReport.OrderedThroughout` | apps/api/src/modules/reports/report.service.ts:89-91 | In the list every entry owes more than each later one, or as much for at least as many days |
| `FeeReport.GenerateFeeReport` | apps/api/src/modules/reports/report.service.ts:41-103 | The loop computes the totals, accounts and percentage that their definitions over the whole input say |
| `FeeReport.SharesAddUp` | apps/api/src/modules/reports/report.service.ts:65-71 | What distinct students owe adds up to the overdue total |
| `FeeReport.PercentInRange` | apps/api/src/modules/reports/report.service.ts:24-27 | The percentage exists exactly for a positive whole and then lies in 0..100 after rounding |
| `FeeReport.PercentIsNearest` | apps/api/src/modules/reports/report.service.ts:24-27 | The percentage is the hundredth of a percent nearest to the share |
| `FeeReport.ReportAgreesWithLedger` | apps/api/src/modules/reports/report.service.ts:41-103 | For every reachable ledger and set of live plans: expected = collected + waived + pending, defaulters sum to overdue, overdue <= pending, percentage in 0..100 |
| `FeeReport.ReportMeasuresBalances` | apps/api/src/modules/reports/report.service.ts:61-91 | For every reachable ledger: overdue is the open balance of what was due before today, and a student is listed exactly when some of it is theirs, with that amount and the days since its earliest day |
| `DocumentNumbers.ReceiptPrefix` | apps/api/src/modules/settings/settings.preferences.ts:18-26 | The configured prefix when it is two to ten capitals or digits, else RCT |
| `DocumentNumbers.RenderReads` | apps/api/src/common/money/document-number.ts:10-37 | The prefix, the year, the last two digits of the next year and the number, padded to five digits, can be read off the printed number |
| `DocumentNumbers.RenderInjective` | apps/api/src/common/money/document-number.ts:29-37 | Equal printed numbers have equal prefix, financial year and number, also past 99999 |
| `DocumentNumbers.CountersAreApart` | apps/api/src/common/money/document-number.ts:29-34 | Documents share a counter row if and only if scope, prefix and financial year are the same |
| `DocumentNumbers.NumbersAreGapFree` | apps/api/src/common/money/document-number.ts:19-38 | Under any commits and rollbacks the committed numbers of each counter are exactly 1..last, in order |
| `DocumentNumbers.PrintedNumbersAreUnique` | apps/api/src/modules/fees/fee.repository.ts:253-268 | No two committed documents of one scope carry the same text, whatever prefixes and years they used |
| `DocumentNumbers.IssuedAlone` | apps/api/src/common/money/document-number.ts:23-38 | A number taken and committed alone is the one after the last of its counter |
| `DocumentNumbers.Sequences.NextDocumentNumber` | apps/api/src/common/money/document-number.ts:23-38 | Increments exactly one counter and returns its new value as printed |
| `Calendar.PeriodLength` | apps/api/src/modules/billing/billing.repository.ts:57-62 | A monthly period lasts exactly the length of the month it starts in, a yearly one 365 or 366 days by whether it crosses 29 February |
| `Calendar.PeriodLengthAcross` | apps/api/src/modules/billing/billing.repository.ts:57-62 | With daylight saving a period lasts as many days, shortened by the hours the clock was put forward in it |
| `Calendar.MonthsBegin` | apps/api/src/modules/billing/billing.repository.ts:59 | Each month begins on the day of the year that the JavaScript standard lists, leap years included |
| `Calendar.MonthlyRollover` | apps/api/src/modules/billing/billing.repository.ts:59 | A monthly period ends on the same day of the next month or has rolled over past its end, never clamped |
| `Calendar.EarlierEndsLater` | apps/api/src/modules/billing/billing.repository.ts:57-62 | Of two monthly periods the one that starts earlier ends later, or at once, exactly when its month is longer by more than, or just, the distance of the starts |
| `Billing.InvKept` | apps/api/src/modules/billing/billing.repository.ts:140-209 | Every step of any settlement, order or scan keeps the settlement invariant |
| `Billing.GrantedOnce` | apps/api/src/modules/billing/billing.repository.ts:150-205 | In every run each paid order was granted exactly once, at its price, by its own payment; no payment pays two orders; the total granted is the sum of what the paid packs and plans are worth |
| `Billing.PaidForGood` | apps/api/src/modules/billing/billing.repository.ts:151 | A paid order never changes and every later report of it is a duplicate |
| `Billing.UpgradeGrantsItsPeriod` | apps/api/src/modules/billing/billing.repository.ts:168-191 | In every run a settled upgrade leaves an ACTIVE period of exactly the purchased length, from the later of the payment and the end of the ACTIVE period it read |
| `Billing.InvoiceYearTurns` | apps/api/src/common/money/document-number.ts:10-17 | The invoice series changes exactly when 1 April begins in India |
| `Billing.InvoiceYearMeans` | apps/api/src/common/money/document-number.ts:11-16 | Every instant belongs to the series of the year from 1 April in India before it to the next |
| `Billing.UpgradeExtends` | apps/api/src/modules/billing/billing.repository.ts:174-187 | With no other upgrade committed while it is settled, an upgrade of an ACTIVE period in force moves its end by exactly one period, at least 28 days, independent of the payment time |
| `Billing.CommitsBetweenAreForeign` | apps/api/src/modules/billing/billing.repository.ts:144-154 | A settlement that commits while another is in progress takes its invoice from a different financial year |
| `Billing.LostOnlyToForeignYear` | apps/api/src/modules/billing/billing.repository.ts:170-187 | The new period continues the one in force if and only if that still ends where it was read to end, and it ends elsewhere only after an upgrade of another financial year committed in between |
| `Billing.LostAcrossYears` | apps/api/src/modules/billing/billing.repository.ts:154-187 | For any two payment times in different financial years, two orders can both be paid while the period is extended only once |
| `Billing.SettledAlone` | apps/api/src/modules/billing/billing.repository.ts:140-209 | A settlement that runs alone is the begin and commit of the protocol |
| `Billing.BillingRepository.Renew` | apps/api/src/modules/billing/billing.repository.ts:168-191 | The subscription row becomes the renewed one, created when there was none |
| `Billing.BillingRepository.AddCredits` | apps/api/src/modules/billing/billing.repository.ts:197-205 | The wallet gains the credits, or is created with them; nothing happens for none |
| `Billing.BillingRepository.Fulfil` | apps/api/src/modules/billing/billing.repository.ts:154-207 | The writes of a settlement: order, invoice counter, subscription and wallet as the protocol's commit leaves them |
| `Billing.BillingRepository.SettlePayment` | apps/api/src/modules/billing/billing.repository.ts:140-209 | Settles exactly a known unpaid order at its price with an unused payment, with the pack's or the plan's credits, by which the balance grows; order, subscription, wallet and invoice counter are then those of the protocol; otherwise nothing changes and the answer names the reason |
| `CreditWallet.ConservedNext` | apps/api/src/modules/ai/ai.repository.ts:93-126 | Every reservation, refund, log, loss and grant conserves credits |
| `CreditWallet.CreditsAreConserved` | apps/api/src/modules/ai/ai.repository.ts:93-126 | In every interleaving balance = allocated - consumed >= 0, consumed = logged + in flight + lost, allocated = everything granted |
| `CreditWallet.SettledForGood` | apps/api/src/modules/ai/ai.service.ts:113-138 | A reservation is logged, refunded or lost at most once |
| `CreditWallet.AiWallet.CreateOrGetWallet` | apps/api/src/modules/ai/ai.repository.ts:73-91 | Creates the wallet only when there is none |
| `CreditWallet.AiWallet.ReserveCredits` | apps/api/src/modules/ai/ai.repository.ts:93-102 | Takes the credits exactly when the balance covers them |
| `CreditWallet.AiWallet.GenerateCompletion` | apps/api/src/modules/ai/ai.service.ts:68-203 | A completion takes exactly the protocol's steps for its outcome, and calls the provider once after credits were reserved and not otherwise |
| `CreditWallet.CompletionCosts` | apps/api/src/modules/ai/ai.service.ts:89-138 | Which outcome every completion has; a cache hit, a refusal and a refunded failure cost nothing; an answer costs exactly its price, all logged |
| `SubscriptionAccess.GateAgreesWithStatus` | apps/api/src/common/decorators/require-feature.decorator.ts:50-113 | Gate and effective status agree if and only if it is not the exact end instant of a running subscription |
| `SubscriptionAccess.GateReasons` | apps/api/src/common/decorators/require-feature.decorator.ts:75-113 | Which answer and which reason the gate gives for every status and instant |
| `SubscriptionAccess.ScanAgreesWithStatus` | apps/api/src/modules/billing/billing.cron.ts:30-40 | The scan expires what is reported EXPIRED, if and only if no grace period separates the two ends |
| `SubscriptionAccess.NoDaysLeft` | apps/api/src/modules/billing/subscription-status.ts:25-27 | No days remain exactly from the end instant on |
| `SubscriptionAccess.DaysReachTheEnd` | apps/api/src/modules/billing/subscription-status.ts:25-27 | While it runs, the days remaining are the fewest whole days that reach the end |
| `SubscriptionAccess.ReachableStatus` | apps/api/src/modules/billing/billing.repository.ts:179-190 | Over any life the grace end stays null and only TRIALING, ACTIVE and EXPIRED occur |
| `SubscriptionAccess.ScansKeepAccess` | apps/api/src/modules/billing/billing.cron.ts:20-74 | Over any life, running the scan any number of times changes no answer of the gate, at any time, if and only if no settlement is late, with ends that differ with and without scans and have not both passed |
| `SubscriptionAccess.HarmNeedsExpiry` | apps/api/src/modules/billing/billing.cron.ts:38-40 | Such a settlement only occurs after a scan wrote EXPIRED |
| `SubscriptionAccess.LateSettlementAfterScan` | apps/api/src/modules/billing/billing.repository.ts:174-187 | After a scan and a late settlement every later answer of the gate is the same as without the scan if and only if both ways give one end or two ends that have passed |
| `SubscriptionAccess.ScanShortensOrLengthens` | apps/api/src/modules/billing/billing.repository.ts:57-62 | For every late monthly payment, in any zone: exactly when the scan ends access later, alike or earlier, with the instant at which the gate differs |
| `SubscriptionAccess.ScanIn1970` | apps/api/src/modules/billing/billing.repository.ts:57-62 | All three cases occur, worked out for every pair of days of early 1970 |
| `SubscriptionAccess.WriteIsHarmless` | apps/api/src/modules/billing/billing.repository.ts:107-114 | A status write leaves the gate's later answers alone if and only if the row has lapsed by then |
| `SubscriptionAccess.RenewalIsLockedOut` | apps/api/src/modules/billing/billing.cron.ts:27-40 | A renewal between the scan's read and its write is denied access although paid |
| `SubscriptionAccess.SubscriptionTable.ScanSubscriptions` | apps/api/src/modules/billing/billing.cron.ts:20-74 | Exactly the lapsed rows become EXPIRED, and announcements go out once, at the end and 1, 3 and 7 days before |
| `SubscriptionAccess.AnnouncedExactly` | apps/api/src/modules/billing/billing.cron.ts:30-70 | A scan announces, once each, exactly the trials and paid periods that have ended or end in the course of the first, third or seventh day |
| `SendClaims.ClaimsAreApart` | apps/api/src/modules/notifications/notification.repository.ts:126-140 | In every run two successive claims have a status write between them or are more than ten minutes apart |
| `SendClaims.InvKept` | apps/api/src/workers/whatsapp.worker.ts:70-132 | Every step that is smooth in its state keeps, with sends of at most ten minutes: at most one job sending, and the row tells what the provider took |
| `SendClaims.SentAtMostOnce` | apps/api/src/workers/whatsapp.worker.ts:70-132 | With sends of at most ten minutes, and without crashes after the provider's answer, retries beside a send or after an accepted one, or failure receipts, the provider takes a message at most once and SENT is never claimed again |
| `SendClaims.BoundIsExact` | apps/api/src/modules/notifications/notification.repository.ts:126-140 | For every bound on the length of sends: all smooth runs within it send at most once if and only if it is at most ten minutes |
| `SendClaims.UnsmoothStepSendsTwice` | apps/api/src/workers/whatsapp.worker.ts:70-132 | After any step that is not smooth, smooth steps with sends within ten minutes can bring a second message |
| `SendClaims.CrashSendsTwice` | apps/api/src/modules/notifications/notification.repository.ts:41-42 | A smooth run, a crash between answer and status write, and smooth steps that send the message again |
| `SendClaims.SlowSendsTwice` | apps/api/src/modules/notifications/notification.repository.ts:126-140 | A smooth run with one send a millisecond longer than ten minutes sends twice |
| `Notifications.KeysDiffer` | apps/api/src/modules/notifications/notification.service.ts:111-113 | Different recipients have different keys |
| `Notifications.TargetsAreWanted` | apps/api/src/modules/notifications/notification.service.ts:55-75 | The recipients are exactly the resolved people with a contact for the channel and without an opt-out, in their order |
| `Notifications.RowsOfRecipients` | apps/api/src/modules/notifications/notification.repository.ts:47-65 | Existing rows are untouched and the new ones are exactly those of the recipients whose write worked |
| `Notifications.RowsAreForWanted` | apps/api/src/modules/notifications/notification.service.ts:58-113 | A new row is always for such a person, under the request's key or their own |
| `Notifications.RedeliveryAddsNothing` | apps/api/src/modules/notifications/notification.service.ts:109-151 | From any table, with any failing writes in both deliveries and any second list: the second changes nothing if and only if every recipient it reaches has a row from before or from the first one's working writes, as its head or from past its head |
| `Notifications.SecondListAddsNothing` | apps/api/src/modules/notifications/notification.service.ts:112-113 | From an empty table, with every write working, any second list adds no row if and only if everyone past its head was past the head of the first |
| `Notifications.DeliveredTwiceIsOnce` | apps/api/src/modules/notifications/notification.service.ts:109-151 | Delivering an event again with the same list adds no row, whatever the allowance and the failing writes are then |
| `Notifications.ReorderedListAddsARow` | apps/api/src/modules/notifications/notification.service.ts:112-113 | With the list in another order the first recipient gets a second row |
| `Notifications.JobsWithinAllowance` | apps/api/src/modules/notifications/notification.service.ts:116-151 | Jobs are added exactly for recipients within the daily allowance whose writes worked |
| `Notifications.JobsWithinDailyLimit` | apps/api/src/modules/notifications/notification.service.ts:95-104 | A recipient gets a job exactly when the write works and, but for replies and the owner, fewer than the daily limit come before, those sent today included |
| `Notifications.RowsWithinDailyLimit` | apps/api/src/modules/notifications/notification.service.ts:114-130 | The new rows of those are QUEUED, those of the recipients held back FAILED |
| `Notifications.NotificationCentre.EnqueueNotification` | apps/api/src/modules/notifications/notification.service.ts:46-172 | Rows and jobs after a fan-out, and each refusal, under any pattern of failing writes |
| `Notifications.NotificationCentre.ClaimForSending` | apps/api/src/modules/notifications/notification.repository.ts:126-140 | Claims exactly a QUEUED, FAILED or stale SENDING row |
| `Notifications.NotificationCentre.ProcessJob` | apps/api/src/workers/whatsapp.worker.ts:70-132 | Sends exactly when the claim is won, once, and writes SENT or FAILED |
| `Notifications.JobIsClaimAnswerSave` | apps/api/src/workers/whatsapp.worker.ts:70-132 | A job that runs alone takes the claim, answer and save steps of the protocol |
| `Reminders.PageContinues` | apps/api/src/modules/fees/fee.repository.ts:171-201 | A short page is all that is left; after a full one the rest is left for its last key |
| `Reminders.StageNamesOneDay` | apps/api/src/modules/fees/fee.cron.ts:22-26 | A stage's name determines the distance from the due date |
| `Reminders.WindowDropsNothing` | apps/api/src/modules/fees/fee.cron.ts:92-94 | The window of the query drops no reminder |
| `Reminders.RemindedExactly` | apps/api/src/modules/fees/fee.cron.ts:15-26 | Reminded are exactly the PENDING and PARTIAL instalments due in 7 or 3 days, today, or 3, 7 or 14 days ago, each by the name of its stage and for what is unpaid |
| `Reminders.RemindersAskForBalances` | apps/api/src/modules/fees/fee.cron.ts:112 | In every reachable ledger a reminder asks for the open balance, never for nothing |
| `Reminders.RemindCoaching` | apps/api/src/modules/fees/fee.cron.ts:91-126 | For every table and page size the pages send exactly the reminders of the one-shot query, and the count is theirs |
| `Reminders.StageFiresOnOneDate` | apps/api/src/modules/fees/fee.cron.ts:100-119 | Over a ledger's life one instalment and stage fire on one local date only |
| `Reminders.RunDailyReminderCheck` | apps/api/src/modules/fees/fee.cron.ts:61-89 | Every active coaching is visited exactly once, in key order; what is sent and counted is the sum of their shares, wherever a coaching fails |
| `Reminders.RunReminds` | apps/api/src/modules/fees/fee.cron.ts:61-89 | A run sends exactly the due reminders of every active coaching at whose place it is ten and that does not fail, and nothing at another hour; the count is the number sent for those that do not fail |
| `Csv.ToCsv` | apps/web/src/lib/csv.ts:9-19 | A reader for section 2 of RFC 4180 recovers every guarded cell of the web's table |
| `Csv.GuardIsReversible` | apps/web/src/lib/csv.ts:6-13 | No typed cell begins with one of the six characters that start a formula, and dropping one apostrophe recovers the text |
| `Csv.LinesReadBack` | apps/web/src/lib/csv.ts:15-19 | Any table of cells reads back, with CRLF or LF, with or without a final line end |
| `Csv.ApiCsvReadsBack` | apps/api/src/modules/reports/report.mapper.ts:2-26 | The API's CSV reads back if and only if no column label contains a quote |
| `MoneyWords.WordsReadBack` | apps/web/src/lib/money-words.ts:44-58 | A reader with its own dictionary recovers every natural number from its word list, nested crores included |
| `MoneyWords.NumberReadsBack` | apps/web/src/lib/money-words.ts:28-58 | A reader of Indian number words recovers every natural number from its text |
| `MoneyWords.RupeesReadBack` | apps/web/src/lib/money-words.ts:62-67 | The same for every number of paise |
| `MoneyWords.AmountReadsBack` | apps/web/src/lib/money-words.ts:61-67 | The words of a whole number of paise read back as it, for any product within half a paisa |

## Left out

- Express routing, controllers, Zod schemas, metrics, logging and configuration: plumbing; validated amounts are positive whole paise.
- Error texts (`last_error`, `errorMessage`) and payload contents other than their storage encoding.
- `EventProtocol.ExactlyOnce`: the handlers of an event name are one fixed set, the same in every process; `unsubscribe` and deployments that change them are not modelled.
- `EventCodec.RoundTrip`: `toISOString` and the `Date` constructor are parameters, of which only their round trip is assumed. Storing the payload as JSON (event-store.ts:64) drops undefined fields, which is not modelled: `{ $date: text, b: undefined }` is read back as a date although it has two keys.
- PostgreSQL row-level security, raw SQL, nested includes, relation filters and nested transactions of the tenant extension; its lists of models are flags.
- `TenantQuery.TenantIsIsolated`: assumes data that connects no other coaching by relation, which is the exact condition of `TenantQuery.StampedRowOwner` and `TenantQuery.ChangedRowOwner`.
- `EventBus.EventBus.RedeliverDue`: a bus without a store, which redelivers nothing, is not modelled.
- `EventBus.EventBus.Drain`: which handlers fail and which writes are lost are inputs, and the clock stands still; `EventProtocol` lets it move.
- The `waivedAmount` of the FeeWaived event: it is read from a balance the mapper has already zeroed.
- Floating-point rounding and the 20 significant digits of decimal.js: amounts are whole paise and percentages exact. What the web app multiplies in doubles is an input within an error of the exact product (`FeePlans.WebAgrees`, `MoneyWords.AmountReadsBack`).
- `FeeReport.ReportAgreesWithLedger`: the two queries of the report are one snapshot, and no code soft-deletes an instalment.
- `FeeReport.SortDefaulters`: the order of defaulters that tie in amount and days is not stated.
- Names and phone numbers of parents in the report, and its published event.
- `Calendar.PeriodLength`: the server's local time is a fixed distance from UTC, as in all of `Billing`; daylight saving is in `Calendar.PeriodLengthAcross` alone, for an end that exists once in local time.
- Time-zone databases and `Intl`: each coaching's local date and hour are inputs of a reminder run, India is UTC+5:30.
- `Billing.GrantedOnce`: the credits that come with each plan do not change; plans are seeded and no code of the API edits them.
- `Billing.UpgradeExtends`: payment times are not before 1970, and a coaching has one current subscription row.
- The 600 s subscription cache in Redis: the gate reads the row itself.
- `SubscriptionAccess.ScansKeepAccess`: a scan and a settlement are one step each; the two steps of a scan are in `SubscriptionAccess.WriteIsHarmless`.
- `CreditWallet.AiWallet.GenerateCompletion`: the prompt cache is a text that is empty on a miss; two first requests that both create the wallet are one creation and one error.
- Templates and message texts of notifications, resolving recipients, and counting today's messages: inputs of the fan-out.
- `MoneyWords.AmountReadsBack`: negative amounts, which no receipt carries, are not modelled.
- `Reminders.RemindCoaching`: the tables do not change while a run reads its pages.
- HTTP adapters, signatures, Redis and BullMQ internals: foreign calls with arbitrary results.
- CRUD modules, policies, the risk score, the placeholder reports and the user interface: only easy members.
