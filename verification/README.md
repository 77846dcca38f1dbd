# A verified model of the ordering bot and its billing

The system takes restaurant orders over WhatsApp for many tenants and bills those tenants itself. This
project models its hardest logic in Dafny and proves what that logic promises. Where the program changes
things step by step (a session's cart, an outbox row, an invoice, a business's billing fields, rows of an
import) the model is a class or a loop with the same branches, proved equal to a function on values. The
theorems are about those functions: invariants over whole runs, refinement of a simpler machine, round
trips, and if-and-only-if conditions.

| files | what they model |
|---|---|
| `Pricing`, `Cart`, `CartLaws`, `Numbers`, `Orders` | unit prices and VAT, the cart and its edits, the created order and its number |
| `Sorting`, `Menu`, `MenuLaws`, `MenuCatalogue` | the single menu reply, its split into messages, and which catalogue items they show in which order |
| `Outbox`, `OutboxProtocol`, `OutboxInvariant`, `OutboxLaws` | one row's delivery, one worker's batch, and many interleaved workers that may crash |
| `OutboxDelivery` | a stored row says sent exactly when a message id came back and was committed |
| `OutboxRevoked`, `OutboxSolo` | what the commit inside the send path breaks, and how an undisturbed worker agrees with one pass over its batch |
| `LocalTime`, `Account`, `AccountStatus`, `Invoices`, `Webhooks`, `Sweeps` | the pieces of billing: time, payments, trials, displayed status, invoices, provider events, hourly jobs |
| `Billing`, `BillingInvariant`, `BillingLaws`, `BillingPayments`, `BillingNumbering`, `BillingZones` | billing as one state machine, its invariant, and what holds on every run |
| `BillingRaces` | jobs and payments that write back rows which others changed since they were read |
| `JsonScan` | the backward brace scan that finds a JSON object in a model's reply |
| `ImportFields`, `LeadImport`, `LeadConfirm`, `LeadUpdates` | column mapping, phone numbers, duplicate marking and confirmation of a lead import, and which stored leads it overwrites |
| `Attribution` | messages charged to orders |

Amounts are integer cents, rates basis points, instants integer microseconds (counted from the first day
of year 1, UTC, in billing). A business's time zone is a fixed offset, as the platform's default zone is.
Parameters stand for what the code cannot decide: provider answers, clocks, locks held elsewhere, the price
format, lower-casing and header normalisation. A failing operation is a result value and leaves the state
as it was. Database lookups read the whole modelled table. In
`Billing` every request, event and job is one atomic step: that is an assumption, since the program reads most rows
without locks and writes changed columns at commit. `BillingRaces` drops it for the jobs and for payments and says
exactly what then goes wrong.

## Where the code and its documentation part ways

The model follows the code.

- The split menu is documented as having the same content as the single reply. It has exactly when no
  uncategorised item has a description: the single reply omits those (`MenuLaws.SameContentIff`).
- Workers are documented as safe to run side by side because they skip rows locked by another batch. When a
  customer's own token is rejected in the middle of a batch, the sender commits the worker's transaction to mark the
  connection. The current row is stored as SENDING and all locks of the batch are gone, while the worker goes on from
  its copies in memory. Another worker can then take the rest of the batch: a message goes out twice without any crash,
  and its SENT row is overwritten (`OutboxRevoked.SentTwice`). If the worker dies before its last commit, or the
  inserter of a new message does, the row stays SENDING for ever (`OutboxRevoked.LeftSending`,
  `OutboxRevoked.InsertLeftSending`, `OutboxLaws.StrandedForever`). Rows of such a batch are called tainted; the
  laws of delivery hold for every other row (`OutboxLaws.TaintedIff` says which rows those are), and no row is ever
  stored as SENDING exactly when no token was rejected half-way (`OutboxLaws.NeverLeftSendingIff`).
- A paid or cancelled invoice is documented as final. An overdue sweep that read it as due before it was paid overwrites
  PAID, and the invoice can be paid again (`BillingRaces.SweepSparesFinalIff`, `BillingRaces.OvertakenPaidTwice`).
- Order creation announces a ValueError for an empty cart. When the live cart is empty and no confirmed cart
  was ever stored, a log line raises a TypeError first (`Orders.OrderBook.CreateOrderFromCart`).
- "invoice.paid reactivates" fails for an event whose reference was recorded before, also as a failure
  (`Webhooks.PaidAfterFailedSkipped`, `Webhooks.PaidEventIff`).
- An item with base price 0 is repriced from its current unit price (`CartLaws.RepriceExact`).
- Invoices are numbered at issue so that the numbering has no gap. The database sequence still loses a value
  when an issue is rolled back (the machine's `BurnNumber` step). There is no gap exactly when that never
  happened (`BillingNumbering.GaplessIff`).
- The displayed status is documented as unable to drift from the stored facts. The overdue sweep uses the UTC
  date, the display the local one: they agree in every run exactly in zones not west of UTC
  (`BillingZones.SweepAgreesIff`).
- Re-importing a confirmed file finds new rows for leads with neither a city nor a findable email
  (`LeadConfirm.SecondPreviewIff`).

## Model

| member | source | states |
|---|---|---|
| Pricing.RoundHalfUpUnique | shared/pricing/engine.py:138-148 | the rounded quotient is the only integer within half a divisor of the exact one, ties upward |
| Pricing.VatBounds | shared/pricing/engine.py:115-148 | inclusive and exclusive VAT are within half a cent of the exact fraction, for every amount and rate |
| Pricing.VatRoundTrip | shared/pricing/engine.py:115-171 | taking inclusive VAT out of subtotal plus exclusive VAT returns exactly that VAT and that subtotal |
| Pricing.VatDrift | shared/pricing/engine.py:115-171 | from gross to net and back drifts by at most one cent for every rate up to 20000 |
| Pricing.VatDriftIff | shared/pricing/engine.py:115-171 | every gross amount drifts by at most one cent if and only if the rate is at most 20000 |
| Pricing.NetNotNegative | shared/pricing/engine.py:115-148 | inclusive VAT never exceeds the amount |
| Pricing.VatMonotone | shared/pricing/engine.py:115-148 | VAT never falls as the amount grows, both conventions |
| Pricing.NetMonotone | shared/pricing/engine.py:115-148 | the net amount never falls as the gross amount grows |
| Pricing.PerLineVat | shared/pricing/engine.py:109-148 | VAT rounded on each of n lines is within n/2 cents of VAT rounded once on the total |
| Pricing.OptionAdjustmentSnoc | shared/pricing/engine.py:49-99 | each selected option moves the price by its delta |
| Pricing.AddOnTotalSnoc | shared/pricing/engine.py:57-99 | each add-on costs its price times its quantity |
| Cart.ConversationSession.AddToCart | backend/app/bot/state_machine.py:127-191 | the first line with the same item, options, add-ons and instructions takes the quantity at its price, every other line stays; without one a line with the computed price is appended |
| Cart.ConversationSession.RemoveFromCart | backend/app/bot/state_machine.py:194-262 | reduces or drops the chosen matching line; false and unchanged when nothing matches |
| Cart.ConversationSession.SelectTarget | backend/app/bot/state_machine.py:226-250 | a plain hint takes the first candidate without instructions, another hint the first with an instruction word that occurs in the hint, otherwise the first |
| Cart.ConversationSession.AddAddon | backend/app/bot/state_machine.py:375-415 | true if and only if some lowered name contains the stripped lowered text or is contained in it; the first such line gets the add-on at the new price, unless it has one of that lowered name; all other lines stay |
| Cart.ConversationSession.RemoveAddon | backend/app/bot/state_machine.py:333-372 | true if and only if the first two-way match has an add-on whose lowered name contains the given one; that line loses exactly those add-ons and is repriced, all other lines stay |
| Cart.ConversationSession.UpdateInstructions | backend/app/bot/state_machine.py:265-291 | true if and only if some line matches two ways; the first such line gets the text, after a comma when it has one; all else stays |
| Cart.ConversationSession.ClearCart | backend/app/bot/state_machine.py:418-432 | empties the cart and drops exactly the order-related context |
| Cart.ConversationSession.CartTotalCents | backend/app/bot/state_machine.py:435-437 | the sum of the line totals |
| Cart.AddonAddedIs | backend/app/bot/state_machine.py:375-415 | adding an add-on edits the first line matching both ways, and succeeds if and only if there is one |
| Cart.AddonRemovedIs | backend/app/bot/state_machine.py:333-372 | removing add-ons edits the first line matching both ways, and succeeds if and only if it has such an add-on |
| Cart.KeepSnoc | backend/app/bot/state_machine.py:356-362 | filtering drops exactly the add-ons that fail the test and keeps the others in order |
| Cart.InstructedIs | backend/app/bot/state_machine.py:265-291 | instructions go to the first line matching both ways, and are stored if and only if there is one |
| CartLaws.RemovalIs | backend/app/bot/state_machine.py:194-262 | a removal succeeds if and only if some lowered name contains the text; it reduces or drops the first line that suits the hint, and no other line changes |
| CartLaws.RemovalTarget | backend/app/bot/state_machine.py:215-250 | a removal takes the first line in the cart whose name contains the text and that suits the hint, plain or by an instruction word, else the first whose name contains the text |
| CartLaws.RepriceExact | backend/app/bot/state_machine.py:356-368 | repricing is exact if and only if the base price is nonzero or the fall-back does not matter |
| CartLaws.EditKeepsPrices | backend/app/bot/state_machine.py:127-415 | every cart edit keeps unit = max(0, base + options + add-ons) and total = unit times quantity, for base prices above 0 |
| CartLaws.RunKeepsPrices | backend/app/bot/state_machine.py:127-415 | the same over every run of edits from an empty cart |
| CartLaws.LineRestored | backend/app/bot/state_machine.py:333-415 | adding then filtering add-ons restores a line exactly when the filter keeps the old ones |
| CartLaws.AddonUndone | backend/app/bot/state_machine.py:333-415 | removing a just-added add-on restores the cart exactly if and only if no other add-on name on that line contains its name |
| CartLaws.AddRefinesBag | backend/app/bot/state_machine.py:127-191 | adding is adding to the bag; keys stay distinct and quantities at least 1 |
| CartLaws.RemoveRefinesBag | backend/app/bot/state_machine.py:194-262 | removing is taking from the bag what the bag can give; keys stay distinct and quantities at least 1 |
| CartLaws.CartRefinesBag | backend/app/bot/state_machine.py:127-262 | over every run the cart's quantities are those of the bag machine |
| CartLaws.TotalIsBagPrice | backend/app/bot/state_machine.py:435-437 | a priced cart with fixed base prices totals the price of its bag |
| CartLaws.RunTotalIsBagPrice | backend/app/bot/state_machine.py:127-262 | the same over every run in which base prices are fixed for the session |
| CartLaws.InstructKeepsKeys | backend/app/bot/state_machine.py:265-291 | editing instructions keeps keys distinct if and only if no other line has the same item, options and add-ons with the resulting text |
| CartLaws.AddonKeepsKeys | backend/app/bot/state_machine.py:375-415 | adding an add-on keeps keys distinct if and only if it is there already or no other line is this line with it |
| CartLaws.DropKeepsKeys | backend/app/bot/state_machine.py:333-372 | removing add-ons keeps keys distinct if and only if none is removed or no other line is this line without them |
| Orders.OrderBook.CreateOrderFromCart | backend/app/bot/order_creator.py:44-140 | live cart wins over the confirmed one; one snapshot per line, total = items plus fee; both failures change nothing |
| Orders.TakeSnapshots | backend/app/bot/order_creator.py:117-140 | items are snapshots of the lines and the subtotal is both sums |
| Orders.OrderNumbersDistinct | backend/app/bot/order_creator.py:65-66 | no two orders of a business share a number |
| Orders.OrderOfRun | backend/app/bot/order_creator.py:68-140 | the order of a shopping run has one item per bag key with the bag's quantity, and totals the bag's price |
| Numbers.PaddedRoundTrip | shared/utils/__init__.py:28-33 | zero-padded printing can be read back, at every width |
| Numbers.InvoiceNumberInjective | backend/app/billing/commercial_invoices.py:149-151 | different year or sequence value, different invoice number |
| Numbers.OrderNumberInjective | shared/utils/__init__.py:28-33 | different sequence value, different order number |
| Numbers.NumbersRead | backend/app/billing/commercial_invoices.py:151 | NG-INV-, the year and five digits; BO- and six digits for orders |
| Sorting.SortedAscends | backend/app/bot/responses.py:134-139 | the sort is ascending |
| Sorting.SortedStable | backend/app/bot/responses.py:134-139 | the sort keeps the order of elements with equal keys |
| Menu.BuildMenuMessages | backend/app/bot/responses.py:92-184 | the loops with buffer, counter and flush return the rendering of the split of the catalogue's sections; MenuCatalogue says which these are |
| Menu.SplitSection | backend/app/bot/responses.py:160-176 | one section: heading, then item by item, repeating the heading after a flush |
| Menu.MenuResponse | backend/app/bot/responses.py:33-83 | the single reply's lines for the catalogue's sections: headings and price lines in order, descriptions only under categories |
| MenuLaws.SplitKeepsContent | backend/app/bot/responses.py:149-184 | dropping the "(cont.)" headings and concatenating gives header, all sections in order, footer; items are whole |
| MenuLaws.SplitOwned | backend/app/bot/responses.py:160-176 | in every message each item directly follows its own section's heading or another item of it |
| MenuLaws.ItemsUnderOwnHeading | backend/app/bot/responses.py:160-176 | the nearest heading above an item is its own section's |
| MenuLaws.PlacedCounted | backend/app/bot/responses.py:146-184 | the counter is the buffer's true length or one more, and exact before the first flush |
| MenuLaws.MessageFits | backend/app/bot/responses.py:146-184 | a message fits in max_chars if and only if what it opens with fits |
| MenuLaws.AllMessagesFit | backend/app/bot/responses.py:146-184 | if header, footer and each "(cont.)" heading with one of its items fit, every message fits |
| MenuLaws.CatalogueSections | backend/app/bot/responses.py:133-144 | no section is empty |
| MenuLaws.OneMessageIff | backend/app/bot/responses.py:92-184 | exactly one message if and only if the whole text fits, and then it is the whole text |
| MenuLaws.SamePrices | backend/app/bot/responses.py:33-184 | for any split the price lines in order are those of the single reply |
| MenuLaws.SameContentIff | backend/app/bot/responses.py:98-108 | the two say the same if and only if no uncategorised item has a description |
| MenuCatalogue.SectionsOfCatalogue | backend/app/bot/responses.py:133-144 | the sections before "Other" are the categories with a visible item, ascending by category order and stably; each holds exactly its active, not deleted items, ascending by sort order and stably; "Other" is last and holds exactly the visible uncategorised items in catalogue order |
| MenuCatalogue.SplitShows | backend/app/bot/responses.py:146-184 | the split messages show all items of all sections in order, once each, at every length |
| MenuCatalogue.EveryItemOnce | backend/app/bot/responses.py:117-184 | with distinct category ids the messages show each visible item of a listed category or of none exactly once and nothing else |
| MenuCatalogue.ResponseReads | backend/app/bot/responses.py:60-83 | an item of the single reply is its price line and, where described, its description line |
| Outbox.OutboxMessage.constructor | backend/app/bot/whatsapp_sender.py:312-330 | a row is inserted as SENDING with no attempts |
| Outbox.OutboxMessage.FirstAttempt | backend/app/bot/whatsapp_sender.py:331-367 | SENT with id and time if and only if an id came back, FAILED if and only if the error is permanent, else PENDING with one attempt and its detail |
| Outbox.OutboxMessage.ProcessSingle | backend/app/bot/outbox_worker.py:96-156 | SENT with id and time if and only if the business is reachable and an id came back; PENDING with the backoff if and only if a retryable error leaves attempts to go; FAILED otherwise with its own cause |
| Outbox.ProcessedOutcome | backend/app/bot/outbox_worker.py:96-156 | the same about the function the worker machine is built from, on every field of the row |
| OutboxDelivery.SentIff | backend/app/bot/outbox_worker.py:69-156 | in every run an untainted stored row is SENT if and only if it was inserted SENT or some worker received an id for it and committed afterwards |
| Outbox.PickBatchIs | backend/app/bot/outbox_worker.py:69-85 | there is an answer of distinct due unlocked rows, oldest first, at most 20, with nothing older left behind |
| Outbox.PicksDiffer | backend/app/bot/outbox_worker.py:74-85 | two answers to the query differ only among rows due at the instant where both stop |
| Outbox.ProcessBatch | backend/app/bot/outbox_worker.py:86-93 | processes the rows of whatever batch the query answered, one by one |
| Outbox.AfterIs | backend/app/bot/outbox_worker.py:86-93 | each row of the batch is processed exactly once and no other row changes |
| Outbox.ProcessingProgress | backend/app/bot/outbox_worker.py:114-156 | a processing ends the row or strictly lowers the attempts left and schedules it later |
| Outbox.BackoffSum | backend/app/bot/outbox_worker.py:139-156 | the delays of an all-retryable run from any number of attempts, in closed form |
| Outbox.FreshBackoffSum | backend/app/bot/outbox_worker.py:139-156 | from 0 attempts the delays sum to exactly (5^max - 5)/4 seconds |
| OutboxInvariant.StepKeepsInv | backend/app/bot/outbox_worker.py:69-156 | every step of every worker, the commit inside the send path included, keeps locks disjoint and the untainted rows sound and accounted |
| OutboxInvariant.RunKeepsInv | backend/app/bot/outbox_worker.py:69-156 | the same over every interleaving, with crashes and rejected tokens |
| OutboxLaws.TaintedIff | backend/app/whatsapp/connection_service.py:300-310 | a row is tainted if and only if an earlier commit inside the send path happened in its batch or in its insertion |
| OutboxLaws.NoSharedLock | backend/app/bot/outbox_worker.py:74-85 | no row is ever locked by two workers |
| OutboxLaws.NoSharedRow | backend/app/bot/outbox_worker.py:74-85 | no two workers ever have the same untainted row in their batches |
| OutboxLaws.EndedStays | backend/app/bot/outbox_worker.py:74-93 | an untainted committed sent or failed row never changes, is never sent again, and never becomes tainted |
| OutboxLaws.SendsAccounted | backend/app/bot/outbox_worker.py:86-156 | requests sent for an untainted row = committed attempts since insertion + the one in the open batch, answered or not + those in aborted batches; without aborts never more than max_attempts |
| OutboxLaws.StoredSendingIff | backend/app/bot/whatsapp_sender.py:236-253 | a row is at some time stored as SENDING if and only if a rejected token was committed while it was being sent or inserted |
| OutboxLaws.NeverLeftSendingIff | backend/app/bot/whatsapp_sender.py:236-253 | no row of a run is ever stored as SENDING if and only if no token was rejected in the middle of a transaction |
| OutboxLaws.StrandedForever | backend/app/bot/outbox_worker.py:74-85 | a row stored as SENDING that nobody works on never changes again and is never picked |
| OutboxRevoked.SentTwice | backend/app/whatsapp/connection_service.py:300-310 | for any two due rows, a run without a crash in which the second is in two batches, sent again after it was stored as SENT, overwritten, and sent twice for one counted attempt |
| OutboxRevoked.LeftSending | backend/app/whatsapp/connection_service.py:300-310 | for any two due rows, a run that leaves the first as SENDING with nobody working on it |
| OutboxRevoked.InsertLeftSending | backend/app/bot/whatsapp_sender.py:311-341 | so for any new message whose immediate attempt meets a rejected token and whose inserter then dies |
| OutboxLaws.StuckIff | backend/app/bot/outbox_worker.py:74-85 | an untainted pending row is stuck for ever if and only if it was inserted with no attempts left |
| OutboxLaws.QueuedRowStuckIff | backend/app/bot/whatsapp_sender.py:343-367 | a row queued after a failed first attempt is stuck if and only if max_attempts is below 2 |
| OutboxSolo.LoneBatch | backend/app/bot/outbox_worker.py:69-156 | an undisturbed worker's steps from pick to commit, with rejected tokens on the way, write exactly what processing its batch in one pass writes |
| LocalTime.LocalDayIff | shared/utils/time.py:66-101 | a local day is exactly the instants from its midnight to its last microsecond |
| LocalTime.UtcBehindLocalIff | backend/app/billing/commercial_invoices.py:269-283 | past on the UTC calendar implies past on the local one, always, if and only if the offset is not negative |
| LocalTime.YearIs | backend/app/billing/commercial_invoices.py:151 | the year printed on an invoice is the Gregorian year containing its date |
| Account.Business.constructor | admin_api/app/api/v1/routes_businesses.py:496-511 | a new business starts on trial, or active without one |
| Account.Business.MarkInvoicePaid | backend/app/billing/lifecycle.py:22-43 | active, no reason, new period; one PAID row when there is an amount |
| Account.Business.MarkPaymentFailed | backend/app/billing/lifecycle.py:46-81 | past due and one FAILED row, unless the event predates the current period |
| Account.Business.IsPastGracePeriod | backend/app/billing/lifecycle.py:84-96 | past due and more than seven days into the period |
| Account.Business.SuspendForNonpayment | backend/app/billing/lifecycle.py:99-104 | suspended, inactive, with the non-payment reason |
| Account.Business.UnsuspendIfTrialExpired | backend/app/billing/trials.py:33-43 | lifts only the trial sweep's own suspension |
| Account.Business.StartTrial | backend/app/billing/trials.py:46-59 | fresh trial, extension counter reset, own suspension lifted |
| Account.Business.ExtendTrial | backend/app/billing/trials.py:62-101 | pushes the end by whole local days; a refusal (non-positive days, onboarder cap) changes nothing |
| Account.TrialEndDate | backend/app/billing/trials.py:21-30 | a trial's end falls on local start date plus days |
| Account.CalendarKept | backend/app/billing/trials.py:46-101 | starting and extending keep: the end is the end of local day start + default + extensions |
| Account.ExtendTwice | backend/app/billing/trials.py:62-101 | extending by a then b is extending by a + b, also under the cap and whenever the second call comes |
| Account.TrialLiftsOnlyItsOwn | backend/app/billing/trials.py:33-101 | a trial operation reactivates an account if and only if its reason is TRIAL_EXPIRED |
| AccountStatus.DaysRemainingFall | backend/app/billing/account_status.py:107-124 | days remaining never rise with time and an expired trial stays expired |
| AccountStatus.RunningTrialIff | backend/app/billing/account_status.py:107-124 | a trial is shown running through its last local day, with the date difference as days remaining |
| AccountStatus.DueIff | backend/app/billing/account_status.py:89-104 | off trial: overdue if and only if past due or some open due date is past locally; good standing if and only if neither past due nor any open due date |
| AccountStatus.AlertsOf | backend/app/billing/account_status.py:51-124 | the alerts and days that go with each displayed status; a trial warns once, by the closest threshold |
| Invoices.CommercialInvoice.constructor | admin_api/app/api/v1/routes_commercial.py:170-194 | a draft with its computed line and invoice totals |
| Invoices.CommercialInvoice.RecomputeTotals | backend/app/billing/commercial_invoices.py:58-81 | subtotal, exclusive VAT if registered, total; nothing else changes |
| Invoices.CommercialInvoice.Edit | admin_api/app/api/v1/routes_commercial.py:236-258 | only a draft is edited, and its totals follow |
| Invoices.CommercialInvoice.Issue | backend/app/billing/commercial_invoices.py:112-179 | checks in order; then next number, dates, snapshots, awaiting payment; a refusal takes no number |
| Invoices.CommercialInvoice.MarkSent | backend/app/billing/commercial_invoices.py:182-192 | only issued unpaid invoices become sent |
| Invoices.CommercialInvoice.MarkPaid | backend/app/billing/commercial_invoices.py:195-243 | checks in order, then PAID with the settlement; one history row with the invoice's business and total, stamped now, EFT if and only if paid by EFT and CASH if and only if in cash, under the given reference or else the invoice number; the business is active in a new period |
| Invoices.PaidRowIs | backend/app/billing/commercial_invoices.py:225-243 | the history row of a paid invoice: business, total, means, reference and time |
| Invoices.CommercialInvoice.Cancel | backend/app/billing/commercial_invoices.py:246-266 | never paid or cancelled ones, issued ones only by a super admin |
| Invoices.VatRecoverable | backend/app/billing/commercial_invoices.py:58-81 | stored VAT and subtotal are functions of stored total and rate |
| Invoices.MissingConfigIff | backend/app/billing/commercial_invoices.py:47-55 | a field is reported missing if and only if it is needed and blank; the VAT number only for a registered supplier |
| Invoices.LineTotalsSnoc | backend/app/billing/commercial_invoices.py:58-81 | the subtotal grows by each line's total |
| Webhooks.HandleSubscriptionUpdated | backend/app/billing/stripe_webhooks.py:222-252 | the status map and its effect on access |
| Webhooks.HandleSubscriptionDeleted | backend/app/billing/stripe_webhooks.py:302-314 | cancelled and inactive |
| Webhooks.HandleInvoicePaid | backend/app/billing/stripe_webhooks.py:255-270 | applied unless recorded; raises when the lookup finds several rows |
| Webhooks.HandlePaymentFailed | backend/app/billing/stripe_webhooks.py:273-299 | applied unless recorded or stale |
| Webhooks.PayFastNotification | backend/app/billing/stripe_webhooks.py:163-198 | complete, failed or cancelled, and everything else, unless recorded |
| Webhooks.FreshIff | backend/app/billing/stripe_webhooks.py:33-51 | an event passes the duplicate guard if and only if no row of its provider carries its nonempty reference |
| Webhooks.AppliedOnce | backend/app/billing/stripe_webhooks.py:33-51 | an applied event with reference and amount is never fresh again, whatever rows follow |
| Webhooks.PaidEventIff | backend/app/billing/stripe_webhooks.py:255-270 | a paid event starts a new period if and only if its reference is not yet recorded |
| Webhooks.PaidAfterFailedSkipped | backend/app/billing/stripe_webhooks.py:260-263 | after a recorded failure the payment under the same reference is skipped |
| Sweeps.SuspendPastDue | backend/app/worker.py:441-491 | suspends exactly the active past-due businesses past grace, and counts them |
| Sweeps.SuspendExpiredTrials | backend/app/worker.py:512-531 | suspends exactly the active trials over for more than three days, and counts them |
| Sweeps.SweepOverdueInvoices | backend/app/billing/commercial_invoices.py:269-283 | flips exactly the sent or awaiting invoices past their due date, and counts them |
| Sweeps.TrialSweepSparesRunning | backend/app/worker.py:524-531 | the trial sweep never touches an account displayed as on trial |
| Sweeps.TrialSweepIff | backend/app/worker.py:524-531 | it spares a trial if and only if three days earlier the display was still running, or the deadline is this instant |
| Billing.ActAddsRow | backend/app/billing/stripe_webhooks.py:128-299 | an account's act adds at most one row, of a provider, under a fresh reference, stamped now |
| Billing.ActKeepsAccount | backend/app/billing/trials.py:33-101 | every act keeps access = no reason, the calendar, and a period start that never goes back |
| BillingInvariant.ReferencesKept | backend/app/billing/stripe_webhooks.py:33-51 | every step keeps at most one row per provider reference |
| BillingInvariant.NumbersKept | backend/app/billing/commercial_invoices.py:148-151 | every step keeps invoice numbers pairwise distinct |
| BillingInvariant.ManualAdded | backend/app/billing/commercial_invoices.py:225-243 | only marking an invoice paid adds an EFT or cash row, and it is that invoice's row |
| BillingInvariant.StepKeepsInv | backend/app/billing/commercial_invoices.py:112-283 | every billing step keeps the whole invariant |
| BillingLaws.RunKeepsInv | backend/app/billing/commercial_invoices.py:112-283 | the invariant holds in every run |
| BillingLaws.FinalForever | backend/app/billing/commercial_invoices.py:195-266 | with atomic steps, a paid or cancelled invoice never changes |
| BillingLaws.IssuedDocumentForever | backend/app/billing/commercial_invoices.py:112-179 | a numbered invoice keeps number, lines, amounts, dates and both snapshots for ever |
| BillingLaws.NumberNamesOneInvoice | backend/app/billing/commercial_invoices.py:148-151 | issued invoices have a number, and no number ever names two invoices, even at different times |
| BillingLaws.InvoiceVatRecoverable | backend/app/billing/commercial_invoices.py:58-81 | the VAT and subtotal of every stored invoice can be recovered from its total |
| BillingNumbering.BurntStaysUnused | backend/app/billing/commercial_invoices.py:148-151 | a sequence value lost to a rolled-back issue is never on an invoice |
| BillingNumbering.GaplessIff | shared/models/commercial_invoice.py:64-69 | in every run all values taken are on invoices if and only if no issue was rolled back; drafts, refusals and cancellations leave no gap |
| BillingLaws.PaymentsMatchInvoices | backend/app/billing/commercial_invoices.py:225-243 | EFT and cash rows match the paid invoices one to one, with equal sums |
| BillingPayments.ChargedExactly | backend/app/billing/commercial_invoices.py:225-243 | in every run the k-th hand-recorded row charges the k-th settled invoice: its business, total, means, reference and time |
| BillingPayments.MeansBalance | backend/app/billing/commercial_invoices.py:225-243 | in every run the EFT rows sum to the totals of the invoices settled by EFT, the CASH rows to those settled in cash |
| BillingLaws.ActiveIffNoReason | backend/app/billing/lifecycle.py:32-36 | in every run a business is active if and only if it has no suspension reason |
| BillingLaws.ConsistentIff | backend/app/billing/stripe_webhooks.py:242-249 | an act breaks "suspended is inactive, active is active" if and only if it is a manual override |
| BillingLaws.RunConsistent | backend/app/billing/lifecycle.py:22-104 | so every run without such overrides keeps both implications |
| BillingLaws.LiftedIff | backend/app/billing/trials.py:33-43 | exactly which steps give a suspended business access back; trial operations only for their own suspension |
| BillingLaws.GraceSparesRecentPayers | backend/app/worker.py:475-491 | as one step, the grace sweep suspends nobody with a payment recorded in the last seven days |
| BillingRaces.GraceRaceIff | backend/app/worker.py:475-491 | a grace job suspends a business with such a payment if and only if the payment was committed between the job's read and its commit |
| BillingRaces.UndisturbedWrites | backend/app/worker.py:475-544 | without a change in between, the jobs' and payments' writes are the atomic operations |
| BillingRaces.WritesKeepFlags | backend/app/billing/lifecycle.py:22-104 | whatever came in between, these writes keep active exactly without a suspension reason |
| BillingRaces.SweepConsistentIff | backend/app/worker.py:512-534 | the grace job never breaks suspended is inactive, active is active; the trial job does if and only if the account was activated in between |
| BillingRaces.PaymentAccessIff | backend/app/billing/lifecycle.py:22-43 | a payment gives access if and only if the account it read was inactive or is still active when it writes |
| BillingRaces.SweepSparesFinalIff | backend/app/billing/commercial_invoices.py:269-283 | the overdue sweep leaves paid and cancelled invoices alone if and only if none it read as due became so before it commits |
| BillingRaces.OvertakenPaidTwice | backend/app/billing/commercial_invoices.py:208-243 | otherwise the paid invoice can be marked paid again, and the history holds two rows over its total |
| BillingLaws.TrialCalendar | backend/app/billing/trials.py:46-101 | in every run a started trial ends on start date + default days + extension total |
| BillingLaws.ReplayChangesNothing | backend/app/billing/stripe_webhooks.py:178-299 | delivering any earlier payment event with a reference and an amount again changes nothing, stale failures included |
| BillingLaws.RedeliveredIff | backend/app/billing/stripe_webhooks.py:33-51 | a payment notice that was applied can be delivered again unharmed if and only if it carries a reference and an amount |
| BillingLaws.ReferenceRecordedOnce | backend/app/billing/stripe_webhooks.py:33-51 | each provider reference has at most one row, so the duplicate lookup never raises |
| BillingLaws.SweepKeepsDisplay | backend/app/billing/account_status.py:56-62 | storing OVERDUE changes no displayed status |
| BillingLaws.SendKeepsDisplay | backend/app/billing/commercial_invoices.py:182-192 | marking sent changes no displayed status |
| BillingLaws.StoredOverdueIsDisplayed | backend/app/billing/account_status.py:97-101 | not west of UTC, an active paying account with a stored OVERDUE invoice is displayed as overdue |
| BillingZones.DisplayedOverdueIff | backend/app/billing/account_status.py:56-104 | an active account off trial shows overdue if and only if one of its open invoices is past due locally, whatever the stored statuses |
| BillingZones.SweptDisplayedIff | backend/app/billing/commercial_invoices.py:269-283 | with one open invoice, swept, the display is overdue if and only if the local date is past the due date, and payment due otherwise |
| BillingZones.SweepAheadWestOfUtc | backend/app/billing/commercial_invoices.py:269-283 | for every zone west of UTC, supplier and line, a run from registration to the sweep stores OVERDUE and displays payment due |
| BillingZones.SweepAgreesIff | backend/app/billing/account_status.py:89-104 | in every run a stored OVERDUE is displayed as overdue if and only if the zone is not west of UTC |
| JsonScan.Scan | backend/app/bot/llm_parser.py:128-145 | the rightmost opening brace that closes depth one, with its matching end; nothing if and only if there is none |
| JsonScan.ScanUnique | backend/app/bot/llm_parser.py:128-145 | that description determines the result |
| JsonScan.FoundIsPrimitive | backend/app/bot/llm_parser.py:128-145 | whenever a start is found the slice is brace-balanced and opened by its first brace |
| JsonScan.ReturnsBlockIff | backend/app/bot/llm_parser.py:128-145 | in prefix + block + tail exactly the block is returned if and only if it is balanced and the tail's braces cancel without a block |
| JsonScan.PrintedObjectFound | backend/app/bot/llm_parser.py:128-145 | after any text, a printed JSON object with brace-free strings before a brace-free tail is exactly what is returned |
| JsonScan.BraceInStringHides | backend/app/bot/llm_parser.py:128-145 | an object whose string holds a closing brace is missed |
| ImportFields.SuggestColumnMapping | admin_api/app/services/ai_emails_import.py:67-92 | each field takes its best header among those no earlier field took |
| ImportFields.MappingFits | admin_api/app/services/ai_emails_import.py:77-90 | every choice fits its field, and a field is empty only if earlier fields took every fitting column |
| ImportFields.MappingInjective | admin_api/app/services/ai_emails_import.py:67-92 | no two fields share a column |
| ImportFields.BestMatchOrder | admin_api/app/services/ai_emails_import.py:77-90 | the earliest alias that any free header fits decides, and of its headers the first |
| ImportFields.PhoneIs | admin_api/app/services/ai_emails_import.py:142-159 | a normalised number is +27 and the caller's last nine digits |
| ImportFields.PhoneIff | admin_api/app/services/ai_emails_import.py:142-159 | a text is a number if and only if its digits and plus signs are one of the three spellings |
| ImportFields.PhoneIdempotent | admin_api/app/services/ai_emails_import.py:142-159 | normalising again changes nothing |
| ImportFields.SpellingsAgree | admin_api/app/services/ai_emails_import.py:152-158 | local, bare and international spellings of a number agree |
| LeadImport.FindDuplicates | admin_api/app/services/ai_emails_import.py:318-372 | in place, every row is decided from the earlier valid rows and the stored leads; raises only on an ambiguous lookup; LeadUpdates says where a duplicate points |
| LeadUpdates.LookupIs | admin_api/app/services/ai_emails_import.py:344-363 | a lookup raises if and only if two stored leads answer, finds nothing if and only if none does, else returns the id of the one that does |
| LeadUpdates.DuplicatePoints | admin_api/app/services/ai_emails_import.py:335-372 | an email duplicate carries the id of a stored lead with its nonempty email; a name duplicate that of one with its name and city, and no stored lead has its email; a duplicate within the file, exactly a row that repeats an earlier valid one, carries none |
| LeadConfirm.ValidRowsApart | admin_api/app/services/ai_emails_import.py:325-342 | valid rows share no nonempty email and no name and city |
| LeadConfirm.ValidRowsNew | admin_api/app/services/ai_emails_import.py:344-372 | no valid row matches a stored lead |
| LeadConfirm.UniqueNeverRaises | admin_api/app/services/ai_emails_import.py:346-360 | over a table without duplicates the lookups never raise |
| LeadConfirm.LeadTable.ApplyConfirm | admin_api/app/services/ai_emails_import.py:415-497 | the table and the tallies after confirming, row by row |
| LeadConfirm.CountsAddUp | admin_api/app/services/ai_emails_import.py:426-489 | created + updated + skipped is the number of rows, and the table grows by the created ones |
| LeadConfirm.StoredLeadsKept | admin_api/app/services/ai_emails_import.py:437-459 | no stored lead is removed or blanked and do-not-contact is never cleared, under any strategy |
| LeadUpdates.OverlaidIs | admin_api/app/services/ai_emails_import.py:445-456 | a new value replaces the old exactly where there is one; do-not-contact is only raised |
| LeadUpdates.UpdateOverwrites | admin_api/app/services/ai_emails_import.py:437-459 | under "update" each stored lead ends with the values of exactly the rows pointing at it laid over its own, in order |
| LeadUpdates.OverwrittenMatches | admin_api/app/services/ai_emails_import.py:318-459 | over preview and confirm with "update", a lead that changed matches, by email or by name and city, a row that overwrote it |
| LeadUpdates.ConfirmCreates | admin_api/app/services/ai_emails_import.py:426-484 | under every strategy the table grows by exactly the rows that create, in order |
| LeadConfirm.SkipAppendsValid | admin_api/app/services/ai_emails_import.py:426-484 | confirming with "skip" appends exactly the valid rows, in order |
| LeadConfirm.ImportKeepsUnique | admin_api/app/services/ai_emails_import.py:318-484 | preview plus confirm with "skip" keeps the table free of duplicates |
| LeadConfirm.SecondPreviewIff | admin_api/app/services/ai_emails_import.py:318-484 | the second preview finds no valid row if and only if no row lacks both a city and a findable email |
| LeadConfirm.CitiesImportOnce | admin_api/app/services/ai_emails_import.py:318-484 | with a city in every row the second preview does not raise and finds nothing valid |
| Attribution.GetPerOrderMessageCounts | backend/app/billing/messages_per_order_report.py:183-242 | each order's window starts at the customer's previous order, or the lookback |
| Attribution.ChargeIs | backend/app/billing/messages_per_order_report.py:190-240 | the window of each result starts at the customer's latest earlier order, or the lookback before a first one, and both counts are over that window |
| Attribution.CountsTelescope | backend/app/billing/messages_per_order_report.py:190-212 | a customer's counts sum exactly to the messages between the first window's start and the last order |
| Attribution.WindowsDisjoint | backend/app/billing/messages_per_order_report.py:190-212 | the windows of two orders share no message |
| Attribution.NoMessageChargedTwice | backend/app/billing/messages_per_order_report.py:190-240 | over all customers no more messages are charged than were sent |

## Left out

- Decimal context: VAT uses exact rationals; the program's 28-digit context would matter only for amounts far beyond its integer columns.
- Daylight saving: zones with a changing offset, and changing a business's zone, are not modelled.
- Text folding: lower-casing, header normalisation and Unicode digits are parameters or ASCII; Python's and the database's lower-casing are taken to be the same function.
- Price format: the currency formatter is a parameter of the menu.
- Cart dictionaries: cart lines are dictionaries in the program and values here, so a caller that keeps a reference to an old line is not modelled; lines from before prices were stored per line neither.
- Instruction modifiers, regular expressions, fenced code blocks and JSON parsing after the scan.
- Greedy minimality of the number of menu messages; the code does not ensure it.
- Outbox credentials, rate limits and media: a send is an id, a permanent error (maybe a rejected token, with its commit) or a retryable error; a database failure inside a batch is an abort. An attempt counts as a send even when the business has no usable credentials and nothing goes out.
- A flush takes all the row locks it needs at once, and waits while another worker holds one.
- Stock, payments of orders, negotiation of delivery fees, loyalty credit, push notices and printing around order creation.
- Webhook routing: signatures, provider switches, finding the business by customer or subscription id (a parameter), the stored PayFast token and cleared subscription id; two deliveries of one event at the same time.
- Races between administrative requests on one business; `BillingRaces` covers the jobs and payments.
- Generic administrative edits of billing_status and other business fields; manual suspend, unsuspend and cancel are steps of the machine.
- The sweeps read the clock once for all rows; the program's grace check reads it per row.
- Invoice PDF, internal notes and audit events.
- Row building of the import (validation of emails, dates and status hints) and spreadsheet parsing; a row arrives as valid or invalid with its data.
- Daily aggregates of the message report, usage counters and alerts.
- LeadConfirm.SecondPreviewIff: states the rows' names as nonempty, which row building guarantees for every row that is not invalid.
