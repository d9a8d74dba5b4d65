# Verified model of the Tavelo hotel backend

A Dafny model of the money and inventory arithmetic of the backend, and proofs of what it promises.
Each database table is in-memory state, each transaction one atomic step, and the clock, the network
and the gateways' behaviour are parameters of a step. `dafny verify dfyconfig.toml` checks the project.

What is modelled, by file:

- `Availability`, `Runs`, `ChannelRanges`, `ChannelAvailability`, `ChannelRates`: free rooms per night, the caps,
  and the run-length ranges and price runs published to the channel manager, up to what the channel reads back.
  Dates are day numbers; a stay's check-out is exclusive, a channel range's last date inclusive.
- `Settlement`, `SettlementRuns`, `SettlementCalls`, `BillingService`: webhooks and manual payments becoming renewals
  and invoices. A webhook call is three steps, claim, look up and settle, that interleave with those of other calls.
- `Refunds`, `RefundRuns`, `RefundAttempts`, `RefundService`: the refund ledger and the gateway protocol. An attempt
  is three steps, read, look up and call, that interleave with other attempts, also on the same row, and with
  settlements of the payment; a call may fail before or after it takes effect.
- `Folio`, `FolioRuns`, `FolioService`: the guest's bill with idempotent posting, voids, exemptions and cached figures.
- `Gst`, `Rounding`, `Calendar`, `Decimal`, `InvoiceMoney`: tax, `Math.round`, UTC month arithmetic, printed money.
- `Csv`, `Export`: the CSV writer with a reference reader for section 2 of RFC 4180, and the paged export.
- `Cash`: cash movements and cashier shifts. `Housekeeping`, `HousekeepingRuns`, `HousekeepingService`: the cleaning loop.

State the services keep is modelled twice on purpose: a `class` whose methods update fields as the service updates
tables, and functions on values that the theorems about whole runs speak of. Each method is proved equal to its step
and keeps the invariant those theorems establish (`Valid`), so they reach every caller of the class. A run is any
sequence of steps; a refused one changes nothing.

Where the code and its own comments differ, the model follows the code:

- The CSV guard is said not to alter the value a parser reads back; it does exactly where it acts
  (`Csv.GuardAltersTheValue`, `Csv.FormulaIsAltered`).
- A cap for one connection is said to win over the count and the grid's cap; it is the figure published exactly when
  it is within both (`ChannelAvailability.ConnectionCapWins`, `ChannelAvailability.ConnectionCapLoses`).
- A MANUAL refund row is said to mean money still to be moved by hand; it may already have moved at the gateway
  (`RefundAttempts.ManualMayAlreadyBePaid`, `RefundAttempts.ManualAfterLostAnswer`).
- A redo task is said to reference the rejected one; only its notes do, and completing or inspecting it can overwrite
  them (`HousekeepingRuns.RedoNamesTheRejected`, `HousekeepingRuns.LinkIsLost`).
- The folio schema's balance formula leaves tax out and calls line tax a future step; the code stores and adds it.

Promises that fail on some inputs are stated with the exact condition under which they hold, and a failing input:

| promise | exact condition | failing input |
|---|---|---|
| payments, invoices and renewals stay one to one | SettlementRuns.RunKeeps | SettlementCalls.TwoCaptures |
| a settled payment is final | SettlementRuns.WhenSettledIsFinal | SettlementCalls.TwoCaptures |
| a refund row is refunded once at the gateway | RefundRuns.ReceiptsStayUnique | RefundAttempts.TwoAttempts, RefundAttempts.StaleCapture |
| a payment's status tells what was refunded | RefundRuns.StatusTellsUnlessHidden | RefundAttempts.StaleCapture |
| adding months keeps the order of instants | Calendar.AddMonthsSwapsInstants | Calendar.SwapHappens |
| adding months twice is adding their sum | Calendar.AddMonthsComposes | Calendar.StopShortensTheMonth |
| a CSV reader gets the text written | Csv.GuardAltersTheValue | Csv.FormulaIsAltered |
| different texts print differently | Csv.GuardCollisions | Csv.FormulaIsAltered |
| a connection's own cap is published | ChannelAvailability.ConnectionCapWins | ChannelAvailability.ConnectionCapLoses |
| a channel id is sent only its type's nights | ChannelRanges.IdIsSentOnlyOwnNights, ChannelRanges.LastFigureIsShown | ChannelRanges.SharedIdOverwrites |
| a rate plan is sent only its type's prices | ChannelRates.PlanIsSentOnlyOwnPrices, ChannelRates.LastRateIsShown | ChannelRates.SharedPlanOverwrites |
| a manual row's money has not moved | RefundAttempts.ManualMayAlreadyBePaid | RefundAttempts.ManualAfterLostAnswer |
| a closed shift's expected cash is its entries | Cash.LateEntry, Cash.LateClose | Cash.EntryJoinsClosedShift |
| a rejected task has one redo | HousekeepingRuns.LateRejection | HousekeepingRuns.TwoInspections |
| un-exempting undoes exempting | FolioRuns.ExemptionUndone | FolioRuns.ExemptChargeComesBackTaxed |
| a redo names the rejected task | HousekeepingRuns.RedoNamesTheRejected | HousekeepingRuns.LinkIsLost |

`Calendar.AddMonthsLands` carries the one exception to the clamping rule, 29 February of year 0.

## Model

| member | source | states |
|---|---|---|
| Availability.ComputeAvailability | src/modules/integrations/channex-sync.service.ts:111-126 | the nested loops produce exactly the nights of every type with rooms, types in first-seen order |
| Availability.EachNightOnce | src/modules/integrations/channex-sync.service.ts:98-126 | each type with a room is listed exactly once on each night of the half-open window and nothing else is; each figure is the number of its rooms less the number of stays in house, never negative |
| Availability.FirstSeenInOrder | src/modules/integrations/channex-sync.service.ts:98-126 | every type stands where the list first names it: all that is named before that place is listed before it |
| Availability.RoomNightsAddUp | src/modules/integrations/channex-sync.service.ts:102-106 | occupied room-nights summed by night equal the stays' overlaps with the window summed by stay, so turnover is never double-counted |
| Availability.WindowQueryIsEnough | src/modules/integrations/channex-sync.service.ts:339-356 | reading only stays that strictly overlap the window changes no night of it |
| Runs.ExpandCompress | src/modules/integrations/channex-sync.service.ts:128-179 | expanding the inclusive runs gives the nights back one for one and in order, for every list |
| Runs.FewestRuns | src/modules/integrations/channex-sync.service.ts:128-179 | for date-ordered nights, any runs that expand to the same nights are at least as many |
| ChannelRanges.ToAvailabilityRanges | src/modules/integrations/channex-sync.service.ts:134-179 | grouping, sorting and the flush loop send exactly each mapped type's compressed nights and report the types without an id |
| ChannelRanges.ChannelSeesTheNights | src/modules/integrations/channex-sync.service.ts:128-179 | a mapped type's ranges expand to exactly its input nights; with one entry per date they are ordered, disjoint and maximal |
| ChannelRanges.NothingForOthers | src/modules/integrations/channex-sync.service.ts:148-153 | no range is sent under an id no listed type maps to |
| ChannelRanges.UnmappedExactly | src/modules/integrations/channex-sync.service.ts:149-153 | the types reported as skipped are exactly the listed ones with no or an empty channel id |
| ChannelRanges.FewestUpdates | src/modules/integrations/channex-sync.service.ts:154-177 | no shorter list of ranges tells the channel the same about a type |
| ChannelRanges.IdIsSentOnlyOwnNights | src/modules/integrations/channex-sync.service.ts:148-165 | a type's channel id is sent only the type's own nights exactly when no other listed type shares it |
| ChannelRanges.LastFigureIsShown | src/modules/integrations/channex-sync.service.ts:148-177 | a channel keeping the last figure shows a type's own for a night if and only if the last listed type under its id with that night agrees |
| ChannelAvailability.CapIsTheLowestBound | src/modules/integrations/channex-sync.service.ts:364-384 | the capped figure is the greatest number within the physical count, the grid cap and this connection's cap |
| ChannelAvailability.ConnectionCapWins | src/modules/integrations/channex-sync.service.ts:364-384 | this connection's cap is the figure published exactly when it is within the count and the grid's cap |
| ChannelAvailability.OfferedIsTheLowest | src/modules/integrations/channex-sync.service.ts:320-390 | what is offered on a night is the lowest of rooms less stays in house, the grid cap and this connection's cap, and never below zero unless a cap is |
| ChannelAvailability.PushAvailability | src/modules/integrations/channex-sync.service.ts:320-390 | the push composes window query, count, caps and compression |
| ChannelAvailability.ChannelReadsWhatIsFree | src/modules/integrations/channex-sync.service.ts:320-390 | end to end, the channel reads every night of the window once, in order, at exactly the capped free count, in the fewest ranges |
| ChannelRates.PriceIsTheDelta | src/modules/integrations/channex-sync.service.ts:465-467 | a published price is the nearest paisa to the delta-adjusted price, and zero when that is negative |
| ChannelRates.PushPriceRuns | src/modules/integrations/channex-sync.service.ts:452-475 | the loop with its open run and final flush sends exactly the compressed priced nights |
| ChannelRates.PushRates | src/modules/integrations/channex-sync.service.ts:428-476 | per mapped type the priced runs, or one base-rate run without an engine; the skipped types are exactly the unmapped ones |
| ChannelRates.PlanShowsThePrices | src/modules/integrations/channex-sync.service.ts:436-475 | for every mapping, parsing a plan's rate strings and expanding gives each night's adjusted price, or base rate, of every type sold under it, in order, the final flush included |
| ChannelRates.PlanIsSentOnlyOwnPrices | src/modules/integrations/channex-sync.service.ts:436-475 | a type's plan is sent exactly its own nights if and only if no other listed type with nights shares the plan |
| ChannelRates.LastRateIsShown | src/modules/integrations/channex-sync.service.ts:436-475 | a channel keeping the last rate shows a type's own price for a night if and only if the last listed type on its plan with that night agrees |
| ChannelRates.FewestRateRuns | src/modules/integrations/channex-sync.service.ts:449-475 | for date-ordered nights the runs are ordered, disjoint and maximal and no shorter list says the same |
| Calendar.InstantOrder | src/common/date/add-months.ts:11-30 | comparing month, day and time is comparing the instants, under ECMAScript's day numbering |
| Calendar.LastDateIsMonthLength | src/common/date/add-months.ts:24-25 | day 0 of the next month is the Gregorian month length, except February of year 0, which is given 28 days |
| Calendar.AddMonthsLands | src/common/date/add-months.ts:11-30 | exactly n months later, same time, a valid date; the day is min(day, month length) unless the two-digit-year rule bites |
| Calendar.AddMonthsAdvances | src/common/date/add-months.ts:11-30 | adding one or more months is strictly later |
| Calendar.AddMonthsMonotoneByDay | src/common/date/add-months.ts:1-10 | a later calendar day never lands on an earlier one |
| Calendar.AddMonthsSwapsInstants | src/common/date/add-months.ts:9-29 | instants swap exactly when two days of one month both reach the last of the target month and the earlier had the later time |
| Calendar.AddMonthsComposes | src/common/date/add-months.ts:11-30 | a then b reaches the month of a + b on a day no later, the same date exactly when the month stopped at is long enough for the day or no shorter than the target, so always up to day 28 |
| Settlement.ComputeRenewal | src/modules/billing/billing.service.ts:73-91 | the period starts at the later of now and the current end and ends strictly after it, in the month the plan's length later, on the same day or the last of a shorter month, at the same time of day; refused exactly outside 1 to 120 months |
| BillingService.Billing.SettleInTx | src/modules/billing/billing.service.ts:146-277 | refused exactly for an amount, subscription, owner or duration that does not fit, changing nothing; else one invoice at 18 per cent for the period bought, the row settled under its reference, and for a subscription one renewal to the day; the books stay one to one exactly when the row to resolve is absent or still pending |
| SettlementRuns.SettleWrites | src/modules/billing/billing.service.ts:146-277 | a settlement goes through exactly when nothing refuses it, and then writes its row, invoice, subscription and renewal field by field and nothing else |
| BillingService.Billing.RecordManualPayment | src/modules/billing/billing.service.ts:367-394 | a payment by hand is a new settled row under the reference given, with its invoice, and renews its subscription to the day; refused as any settlement is |
| BillingService.Billing.ReceiveEvent | src/modules/billing/billing.service.ts:1025-1060 | an authentic delivery from one of the two gateways is let through exactly once for its provider and event id; any other changes nothing and gets its error |
| BillingService.Billing.ReadRow | src/modules/billing/billing.service.ts:1133-1181 | remembers a pending row of the order id, or failing that of the payment id, of the captured amount; else the call is over without settling |
| BillingService.Billing.SettleReadRow | src/modules/billing/billing.service.ts:1183-1196 | the row then carries the payment id the event had, else the order id, else its own reference, and the captured amount, and no other row changes; the books stay one to one exactly when the row is still pending |
| BillingService.Billing.HandleWebhookCall | src/modules/billing/billing.service.ts:1025-1085 | a delivery with no other call in between is its steps in order and keeps the books in order |
| BillingService.Billing.ParkPendingOrder | src/modules/billing/billing.service.ts:402-549 | an order is parked exactly for the owner's own subscription, and a capture naming it then finds a pending row of that order, the new one if no other is pending |
| SettlementRuns.RunKeeps | src/modules/billing/billing.service.ts:93-277 | over every interleaving of transactions: no event dispatched twice; every period sold lasts its plan's months to the day and the time of day, periods are ordered, disjoint, never before payment, gap-free when paid early, and the subscription's row shows the last; payments, invoices and renewals one to one if and only if no call settles a row settled since it read it |
| SettlementCalls.TwoCaptures | src/modules/billing/billing.service.ts:1040-1063 | two captures of one order that both read before either settles renew and invoice twice on one payment row |
| SettlementCalls.OneHolderIsEnough | src/modules/billing/billing.service.ts:1140-1196 | no row is settled twice in a run whose lookups never pick a row another call holds |
| SettlementRuns.WhenSettledIsFinal | src/modules/billing/billing.service.ts:216-252 | over every interleaving a row keeps its owner, subscription and ordered amount and stays settled, and a settled row is final exactly when no later step settles it again |
| SettlementRuns.RedeliveryChangesNothing | src/modules/billing/billing.service.ts:1040-1060 | once claimed, a delivery under the same key changes nothing however late and whatever it carries |
| SettlementCalls.DeliverySettles | src/modules/billing/billing.service.ts:1062-1196 | an undisturbed delivery settles the row found, under the payment id else the order id it told, and renews by the plan's months to the day exactly when it is authentic, new, of the ordered amount and for a renewable subscription; otherwise no payment, invoice, subscription or renewal changes |
| Gst.RateTable | src/modules/billing/gst.ts:39-98 | the slab walk yields 5, 12 up to the inclusive bound, or 18 |
| Gst.Compute | src/modules/billing/gst.ts:109-139 | the parts are exactly the tax, which is the nearest paisa; the intra-state halves differ by at most one |
| Gst.TotalMonotone | src/modules/billing/gst.ts:88-164 | the tax-inclusive total never falls as the amount rises, across the slab boundary and for credits |
| Gst.LineRoundingBound | src/modules/billing/gst.ts:109-120 | n rounded line taxes stray from the exact tax by at most n/2 paise |
| Gst.InvoiceFor | src/modules/billing/billing.service.ts:912-951 | on both the explicit and the computed path the split columns are the tax, intra-state halves differ by at most one paisa, the total is the subtotal given plus the parts less the discount given, and a computed tax is the nearest paisa |
| RefundRuns.RefundsAreSafe | src/modules/billing/billing.service.ts:593-800 | over every interleaving of requests, settlements and attempts and every fate of calls: the ledger never exceeds the payment and a processed row names its gateway refund; at most one gateway refund a row, and then exactly one for a processed row and gateway total at most the ledger's, if and only if no call repeats a refund; status tells the sum if and only if no settlement hid it |
| RefundRuns.ReceiptsStayUnique | src/modules/billing/billing.service.ts:660-694 | no row is refunded twice at a gateway over a run if and only if no call makes a refund for a row that had one; nothing undoes it afterwards |
| RefundRuns.StatusTellsUnlessHidden | src/modules/billing/billing.service.ts:767-790 | over a run a payment's status tells its refunded sum if and only if it was not last written by a settlement that met refunds |
| RefundRuns.RowsAfterStep | src/modules/billing/billing.service.ts:593-747 | a request adds one row awaiting, an attempt without a gateway to send to makes its row manual, an answered call marks its row, and every other step, a failed lookup and a lost or unsent call included, leaves all rows as they were |
| RefundRuns.SettlementRewrites | src/modules/billing/billing.service.ts:216-230 | a capture writes its payment over by number: paid, under its reference if it has one, with its order id |
| RefundAttempts.OneAttemptIsEnough | src/modules/billing/billing.service.ts:617-733 | no refund is repeated in a run where attempts on one row never overlap and no settlement moves a payment with refund rows to another target |
| RefundAttempts.OrderlyRunsAreSafe | src/modules/billing/billing.service.ts:617-733 | orderly steps keep one gateway refund a row at most and every status right |
| RefundAttempts.TwoAttempts | src/modules/billing/billing.service.ts:673-747 | two attempts on one row that both look before either calls refund it twice |
| RefundAttempts.StaleCapture | src/modules/billing/billing.service.ts:216-230 | a capture read earlier settles a refunded payment again: the retry looks under the new reference and refunds twice, and the status says not refunded |
| RefundRuns.StatusNeedsPositiveTotal | src/modules/billing/billing.service.ts:767-790 | for an arbitrary amount the new status is right exactly when the refunded sum is not zero |
| RefundAttempts.CashfreeDedupes | src/modules/billing/billing.service.ts:638-645 | a Cashfree call makes no new refund exactly when one is held for the order under the row's id |
| RefundAttempts.ManualMayAlreadyBePaid | src/modules/billing/billing.service.ts:626-633 | while targets are current, a row turned manual has moved no money exactly when the lookup would have found none |
| RefundAttempts.ManualAfterLostAnswer | src/modules/billing/billing.service.ts:600-633 | a concrete run ends with a manual row the gateway has already refunded |
| RefundService.Service.RefundInTxCall | src/modules/billing/billing.service.ts:749-800 | an amount of at least one goes through exactly when the payment is paid and has that much left; its refunded sum grows by it, no other payment's does, status full exactly at the whole amount, and all stays safe |
| RefundService.Service.AttemptGatewayRefund | src/modules/billing/billing.service.ts:617-694 | fate by fate: nothing to send to makes the row manual; a failed lookup or an unanswered call leaves it as it was; a call that arrives makes one refund of the row's amount exactly when the gateway holds none for it; an answer marks the row with the one held; and all stays safe |
| RefundService.FailedAttemptIsRetried | src/modules/billing/billing.service.ts:658-720 | a row whose attempt failed still awaits, and the next sweep takes it unless older rows use up its limit |
| RefundService.Service.RefundPayment | src/modules/billing/billing.service.ts:603-606 | an admitted request is the ledger move followed by a first attempt on the new row |
| RefundService.Service.RetryPendingRefunds | src/modules/billing/billing.service.ts:714-733 | attempts the oldest pending rows in order, up to the limit, and answers with how many there were and how many of them end processed |
| RefundService.NoneSkipped | src/modules/billing/billing.service.ts:715-720 | a row still pending is left for later only when the limit went to older ones |
| RefundService.Service.RetryRefund | src/modules/billing/billing.service.ts:736-747 | a processed row is left alone; any other is attempted |
| RefundService.FaultlessAttemptProcesses | src/modules/billing/billing.service.ts:635-657 | a routed attempt that meets no fault ends processed with the gateway refund held for it |
| RefundService.SweepIsSafe | src/modules/billing/billing.service.ts:714-733 | a sweep of retries keeps the protocol's safety |
| Folio.FindLine | src/modules/folio/folio.service.ts:559-570 | finds a line of the source if there is one, voided or not |
| FolioService.Service.PostCharge | src/modules/folio/folio.service.ts:97-140 | adds a line only for a source no line carries and a known stay, with the charge's own figures and no tax if exempt, else to half a paisa 5 per cent for a restaurant line and 18 for any other, or its category's rate; the stay's balance moves by amount plus that tax and no other's; a source used gives its line |
| FolioService.Service.RecordPayment | src/modules/folio/folio.service.ts:147-191 | adds a payment only for a key its stay has not used and a known stay; the figure returned and cached is collected less returned, and balances move by the contribution |
| FolioService.Service.ApplyDiscount | src/modules/folio/folio.service.ts:379-412 | one untaxed line of minus the magnitude for a known stay, lowering its balance by that and no other's, every earlier line as it was, and one event that names the line |
| FolioService.Service.VoidLine | src/modules/folio/folio.service.ts:415-454 | the first void marks the line, takes amount and stored tax off its stay's balance and logs it; any other call, a second void included, does nothing |
| FolioService.Service.SetLineTaxExempt | src/modules/folio/folio.service.ts:457-506 | an exempt line carries no tax and any other 5, 12 or 18 per cent by its category to half a paisa; nothing else of it changes, the call is logged, and the balance of its stay alone moves by the difference unless the line is voided |
| FolioRuns.RepeatsDoNotMatter | src/modules/folio/folio.service.ts:91-191 | any run ends on the folio of the run with its repeats removed |
| FolioRuns.RetryAnywhere | src/modules/folio/folio.service.ts:91-191 | a retry at any later point, carrying anything under the same key, leaves the folio as if it had not happened, even after a void |
| FolioRuns.BalanceMoves | src/modules/folio/folio.service.ts:194-454 | each operation moves the balance by exactly its contribution, a charge by its amount and the statutory tax on it; a second void, a repeat or a refusal by zero |
| FolioRuns.EngineIsStatutory | src/modules/folio/folio.service.ts:108-112 | for every category given or kind of line the engine's tax is 5, 12 or 18 per cent to the nearest paisa and its rate that in basis points, wherever the buyer is registered |
| FolioRuns.BalanceIsConserved | src/modules/folio/folio.service.ts:536-545 | over a whole run the balance changes by the sum of the contributions |
| FolioRuns.CachesOverRun | src/modules/folio/folio.service.ts:185-190 | from an empty folio the cached paid amount is payments minus refunds and each line's stored tax and rate are the statutory ones or none |
| FolioRuns.PostedOnceOverRun | src/modules/folio/folio.service.ts:91-191 | over every run no two lines share a source and no two payments of a stay share a key |
| FolioRuns.ExemptionUndone | src/modules/folio/folio.service.ts:456-494 | exempting and un-exempting restores a line exactly when it was taxed before |
| FolioRuns.RoomGstFollowsTheNight | src/modules/folio/folio.service.ts:261-296 | room GST on the bill is the nearest paisa to the rate of the nightly tariff's slab on the whole charge, and nothing for a deleted or unknown stay or one with nothing to charge |
| FolioRuns.PropertyTaxByItsBasis | src/modules/folio/folio.service.ts:298-334 | one tax of the hotel's own adds basis points of the room total, or its value per night, per guest or per stay, at least one of each; nothing when inactive, of another property, not on rooms or for a deleted stay |
| FolioRuns.PropertyTaxesAddUp | src/modules/folio/folio.service.ts:298-316 | the hotel's own taxes add up and never compound |
| FolioRuns.LineOnBill | src/modules/folio/folio.service.ts:194-258 | a live line of the stay raises ancillary, line tax, tax, subtotal, charges and balance by its own figures, and no other line moves any column |
| FolioRuns.PaymentOnBill | src/modules/folio/folio.service.ts:194-258 | a payment or refund of the stay moves its own column, the net and the balance, and no charge |
| FolioRuns.NetIsCollectedLessReturned | src/modules/folio/folio.service.ts:549-557 | the query behind the cache equals the summary's payments minus refunds |
| FolioRuns.LateNet | src/modules/folio/folio.service.ts:160-190 | written after other payments came in, the cached figure is right exactly when those of the stay net to nothing |
| InvoiceMoney.GroupingShape | src/modules/billing/invoice-pdf.service.ts:37-41 | counted from the end, commas stand exactly at positive multiples of three, never first, and dropping them gives the digits |
| InvoiceMoney.FormatMoneyReadsBack | src/modules/billing/invoice-pdf.service.ts:32-43 | every amount in every currency reads back off the invoice |
| Decimal.RateTextReadsBack | src/modules/integrations/channex-sync.service.ts:460 | the two-decimal rupee text reads back as the paise |
| Csv.DocumentReadsBack | src/common/csv/to-csv.ts:10-56 | reading a document gives exactly the header and the guarded rows for any text, an empty row reading as one empty field |
| Csv.DocumentInjective | src/common/csv/to-csv.ts:50-56 | two documents are equal exactly when a reader sees the same rows |
| Csv.ReprintReadsBack | src/common/csv/to-csv.ts:45-56 | whatever text the reader accepts, printing what it saw reads the same |
| Csv.GuardAltersTheValue | src/common/csv/to-csv.ts:34-48 | a reader gets the text that was written exactly when it begins with none of the six guarded characters |
| Csv.OnlyTextIsGuarded | src/common/csv/to-csv.ts:10-42 | anything but text is read back as it was, and a missing cell is nothing at all |
| Csv.QuotedWhenNeeded | src/common/csv/to-csv.ts:43-48 | a field is quoted exactly when it holds a comma, a quote or a line character |
| Csv.GuardCollisions | src/common/csv/to-csv.ts:35-42 | two strings print alike exactly when equal or one is the other guarded |
| Export.Rows | src/modules/export/export.service.ts:98-111 | the paging loop ends and yields the header and the first min(n, 50000) rows once, in order |
| Export.ExportIsTheDocument | src/modules/export/export.service.ts:92-111 | the lines sent are the CSV document of those rows and read back as them |
| Cash.RunKeeps | src/modules/cash/cash.service.ts:87-138 | over every run: one open shift a person and property, entries in shifts of their property, expected cash of a closed shift still float plus entries |
| Cash.ClosedIsFinal | src/modules/cash/cash.service.ts:115-138 | a closed shift's row never changes and no entry ever joins it |
| Cash.CashIsAccountedFor | src/modules/cash/cash.service.ts:11-69 | property cash is closed shifts' takings, plus open shifts' entries, plus unattached entries |
| Cash.BalanceIsInLessOut | src/modules/cash/cash.service.ts:8-69 | cash in hand is the four inflow kinds less withdrawals and expenses |
| Cash.LateEntry | src/modules/cash/cash.service.ts:43-59 | an entry written into a shift found earlier keeps shifts and entries in order exactly when that shift is still open |
| Cash.LateOpen | src/modules/cash/cash.service.ts:102-113 | a shift opened on an earlier reading keeps one open shift each exactly when there is still none |
| Cash.LateClose | src/modules/cash/cash.service.ts:116-137 | a shift closed with a sum taken earlier keeps expected cash right exactly when the sum is still its entries' |
| Cash.Service.RecordEntry | src/modules/cash/cash.service.ts:29-59 | exactly a positive amount is recorded, one entry of it; its property's cash rises by it, or falls for a withdrawal or an expense, and the entry is in the recorder's open shift or they have none |
| Cash.Service.OpenStaffShift | src/modules/cash/cash.service.ts:102-113 | refused exactly when they have an open shift; else one is added with the float given, open and uncounted, and no cash moved |
| Cash.Service.CloseStaffShift | src/modules/cash/cash.service.ts:116-138 | closes exactly their open shift, keeping what was declared and the float plus movements as expected, over or short by the difference; they have none open afterwards and no other shift or entry changes |
| HousekeepingRuns.RunKeeps | src/modules/housekeeping/housekeeping.service.ts:332-569 | over every run: exactly one of room and area, an assignee past pending, and exactly the rejected tasks have one redo each for the same work |
| HousekeepingRuns.RunAdvances | src/modules/housekeeping/task-transitions.ts:19-41 | statuses only move forward along the map and a task never changes what it is for |
| HousekeepingRuns.WorkIsNeverLost | src/modules/housekeeping/housekeeping.service.ts:449-521 | following redos from any task ends, in any later state, in the same work waiting, under way, awaiting inspection or inspected |
| HousekeepingRuns.RoomFollowsTask | src/modules/housekeeping/task-transitions.ts:43-59 | a move sends its own room to cleaning, inspected, ready or dirty and touches no other |
| HousekeepingRuns.CheckoutLeavesOne | src/modules/housekeeping/housekeeping.service.ts:525-569 | the hook adds a pending turnover clean if and only if no task of that property and room is pending, in progress or completed, and changes nothing else |
| HousekeepingRuns.LateMove | src/modules/housekeeping/housekeeping.service.ts:379-476 | a move decided on an earlier reading keeps the board in order exactly when the task has not been rejected meanwhile |
| HousekeepingRuns.LateRejection | src/modules/housekeeping/housekeeping.service.ts:462-513 | a rejection written late raises a second redo exactly when the task was rejected already |
| HousekeepingRuns.RedoNoteNamesOne | src/modules/housekeeping/housekeeping.service.ts:496-513 | a redo note names one task only, whatever the reasons contain |
| HousekeepingRuns.RedoNamesTheRejected | src/modules/housekeeping/housekeeping.service.ts:412-513 | over any run after a rejection the redo's notes name the rejected task if and only if the last notes brought by completing or inspecting it, if any, do |
| HousekeepingRuns.LinkIsLost | src/modules/housekeeping/housekeeping.service.ts:430-473 | runs in which completing, and in which inspecting, a redo with a comment loses the link |
| Housekeeping.TrimCutsTheEnds | src/modules/housekeeping/housekeeping.service.ts:334-345 | an area name is stored without the white space at its ends and with nothing else removed |
| HousekeepingService.Service.CreateTask | src/modules/housekeeping/housekeeping.service.ts:332-358 | goes through exactly for one location with text or a room of the property, and staff of it, each refusal with its error; one pending task is added with what was given, its area trimmed and its priority normal unless given, and nothing else changes |
| HousekeepingService.Service.AssignTask | src/modules/housekeeping/housekeeping.service.ts:360-377 | goes through exactly for a task and a member of staff of the property, whatever the status, and changes only who has it |
| HousekeepingService.Service.StartTask | src/modules/housekeeping/housekeeping.service.ts:379-409 | goes through exactly for a pending task of the property and a supervisor, its assignee or, when it has none, anyone, who has it then; that task alone moves and its room alone is being cleaned |
| HousekeepingService.Service.CompleteTask | src/modules/housekeeping/housekeeping.service.ts:412-447 | goes through exactly for a task in progress and a supervisor or its assignee; that task alone moves, its notes replaced only by notes given, and its room alone awaits inspection |
| HousekeepingService.Service.InspectTask | src/modules/housekeeping/housekeeping.service.ts:455-521 | goes through exactly for a completed task of the property; a pass readies the room; a failure dirties it and adds one pending task with the same place, kind, urgency, request and assignee, created by the inspector and naming the rejected one and the reason |
| HousekeepingService.Service.CreateCheckoutCleanForRoom | src/modules/housekeeping/housekeeping.service.ts:533-569 | adds one pending turnover clean, and names it, if and only if no task of that property and room is pending, in progress or completed; nothing else changes |

## Left out

- Calendar.AddMonths: JavaScript's limit on representable dates is not modelled, and a non-date or fractional argument is excluded by type.
- Settlement.LookUp: the reads of one lookup are one step. The event id and whether a signature was needed and matched are parameters, and nothing is claimed about every capture being settled.
- Settlement.SettleFlight: the mark on the event's row is written with the settlement; no other step reads that row.
- Settlement.Settle: currency, method, raw payload and invoice number are not carried; plan terms are a field of the subscription, and extensions or cancellations of a subscription between settlements are not steps.
- Refunds.LookUp: the gateway's list of refunds is complete when read.
- Refunds.Create: Cashfree is taken to return the refund it already holds for an order under an id, as its client's comment says.
- Csv.Guarded: dates, numbers, booleans and objects arrive already rendered to text; how JavaScript renders them is not modelled.
- InvoiceMoney.FormatMoney: amounts are whole paise, so a fractional argument is not modelled.
- Refunds.SettlePayment: what a settlement does to the payment a refund reads, its status, reference and order id, is a step of the refund runs; its invoice and renewal are in the settlement runs, which carry no refunds.
- ChannelRanges.SortByDate: the source's comparator never returns zero, so the order of two entries on one date is JavaScript's; the model keeps list order, and which nights are sent does not depend on it.
- ChannelRates.PriceIsTheDelta: prices use exact integers; doubles agree as long as products stay below 2^53. The same holds for every rounded tax.
- Folio.NewLine: descriptions, quantities, codes, notes and authors are not carried; the HSN code is not part of the model.
- Cash.RunKeeps: in runs, recording, opening and closing are one step each, though each reads first and writes later in no transaction; Cash.LateEntry, Cash.LateOpen and Cash.LateClose say exactly when a late write does no harm. The same holds for Cash.ClosedIsFinal.
- HousekeepingRuns.RunKeeps: in runs, starting, completing and inspecting are one step each, though the task is read before the transaction; HousekeepingRuns.LateMove and HousekeepingRuns.LateRejection say exactly when a late write does no harm.
- FolioRuns.CachesOverRun: a payment's insert, sum and cached figure are one step, as inside a transaction; FolioRuns.LateNet says when they need not be.
- Housekeeping.Create: timestamps and due dates are not carried; room, staff and task ids are opaque and never empty.
- Concurrency beyond atomic transactions, unique indexes and the row lock of a refund.
- Inbound bookings: their dedupe depends on a stamp written after a create that is elsewhere.
- Nightly prices, grid caps and the reservations query are inputs: the rate and reservation modules are not part of this model.
- HTTP controllers, guards, PDF drawing, storage, notifications, audit rows, search queries and cryptography: no hard property.
