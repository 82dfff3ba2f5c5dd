# Invoice fee engine — a Dafny model

This project models the fee calculation and invoicing core of a small
payroll-bureau billing system. The system has a React front end and an
Express/PostgreSQL back end. Each month a partner (a payroll bureau) imports
a usage sheet with one row per client pay group. An invoice for the partner
is then generated from four things:

- the partner's configured fees: a base fee per active client, a
  per-employee fee with optional tiers, and a monthly minimum;
- client-level recurring lines;
- one-time ("additional") charges not yet billed on a live invoice;
- manual overrides typed on the page.

The invoice is stored as a draft, reviewed, finalized, and can be reopened.

Money is whole cents (`int`), so the source's `toFixed(2)` is exact. JavaScript
truthiness (`x || 0`, `x || null`, `!x`) is written out with `Option`s and
explicit zero/empty checks. SQL NULL comparisons (unknown, so the row is
excluded) are written out as well.

| module | source | what it holds |
|---|---|---|
| `Common` | — | `Option`/`Result`, `OrZero`/`OrText`, sums, first occurrences, `Filter` (JavaScript `filter`), a stable insertion sort |
| `JsText` | — | `parseInt` of decimal text, `trim`, `toLowerCase` |
| `TieredFee` | src/GenerateInvoice.js | `calculateTieredFee`: flat rate or bracket selection |
| `MonthlyAggregation` | src/GenerateInvoice.js | `aggregateMonthlyData` (a loop, proved against a recursive definition) |
| `InvoiceDraft` | src/GenerateInvoice.js | toggles, warnings, minimum-fee line, recurring/one-time lines and overrides, the posted request |
| `TieredPricing` | src/TieredPricing.js | `validateTiers` (a loop), adding and removing tiers |
| `UsageImport` | billing-backend/server.js | `/upload-billing`: month replacement and GROUP BY aggregation |
| `OneTimeCharges` | billing-backend/server.js | eligible one-time charges, the delete guard, the bulk upload |
| `InvoiceStore` | billing-backend/server.js | `/api/generate-invoice` (a class over the tables), totals, status whitelist |
| `ImportSheet` | src/MonthlyBillingImport.js | sheet row cleanup, the page's state and its empty-upload guard |
| `InvoiceReview` | src/InvoiceReview.js | subtotals, the active-only monthly subtotal, finalize only drafts |
| `RoleConfig` | src/roleConfig.js | `ROLE_PERMISSIONS` and `hasPermission` |
| `FinalizedInvoices` | src/FinalizedInvoices.js | the list URL, the array guard, reopening |

Things the code does that its comments or names suggest otherwise, modelled as the code does them:

- `calculateTieredFee` is **bracket selection**, not graduated banding. The
  whole head count is charged at the rate of the first tier (by minimum)
  whose closed range holds it. A head count that no tier holds takes the rate
  of the last tier after the sort: among the tiers with the largest minimum,
  the one listed last (`TieredFee.BracketNotGraduated`,
  `TieredFee.TiedMinimumTakesLastListed`).
- A monthly line's `total_monthly_fee` is the tiered per-employee fee alone.
  The base fee is carried on its own column (src/GenerateInvoice.js:163-165).
- The monthly-minimum shortfall and a client line's per-employee amount read
  the RAW usage rows, not the aggregated ones
  (`InvoiceDraft.RawShortfallAtMostAggregated`,
  `InvoiceDraft.CalculatedReadsFirstRawRow`).
- `validateTiers` is never called by the editor itself, so its errors are
  never shown. It is modelled as a function of the tier list.
- A recurring checkbox for a line without an id is recorded under
  `client-billing-<index>`, a key the submit filter never looks for
  (`InvoiceDraft.PositionKeyNeverSubmitted`).
- Several client URLs do not match the server's routes:
  - the import posts to `/api/upload-billing`, but the server route is `/upload-billing`;
  - reopening puts to `/api/invoices/:id/status`, but the server route is `/api/invoice/:id/status`;
  - the invoice page fetches `/api/fetch-distinct-months` (src/GenerateInvoice.js:346), but the server route is `/fetch-distinct-months` (billing-backend/server.js:36);
  - the invoice page fetches its usage rows from `/api/monthly-billing/partner/:partnerId/:month` (src/GenerateInvoice.js:365), but the server route is `/monthly-billing/partner/:partnerId/:month` (billing-backend/server.js:329). As written the page's usage rows are therefore always empty;
  - the review page reads `/api/invoices/:id`, `/api/invoices/:id/monthly`, `/recurring` and `/onetime`, and posts `/api/invoices/:id/finalize` (src/InvoiceReview.js:28, 47, 51, 55, 105). The server serves `/api/invoice/:id...` (billing-backend/server.js:1409-1504), has no finalize route, and routes `/api/invoices/:id` to its status list handler (billing-backend/server.js:1545).

  The model treats each request's outcome and each fetched list as a
  parameter (`ok`, the usage rows, the invoice's lines) and models the page
  and the handler each on its own, as if the URLs matched.

## Model

| member | source | states |
|---|---|---|
| TieredFee.FlatRate | src/GenerateInvoice.js:416-428 | without tiers the rate is the per-employee amount when it parses to a non-zero number, otherwise the line amount, otherwise 0 |
| TieredFee.FirstMatch | src/GenerateInvoice.js:434-437 | the index found is the first tier whose closed range holds the count; `None` exactly when no tier holds it |
| TieredFee.BracketRate | src/GenerateInvoice.js:430-454 | the rate is one of the configured rates. A held count takes the rate of the first holding tier in minimum order. An unheld count takes the rate of the last-listed tier among those with the largest minimum (the stable sort keeps ties in list order) |
| TieredFee.CalculateTieredFee | src/GenerateInvoice.js:401-464 | a missing line, or both amounts exactly 0, gives 0; no tiers gives count × flat rate; otherwise count × `BracketRate`, the rate of the bracket that holds the count (or of the last-sorted tier), which is one of the configured rates |
| TieredFee.AscendingTierPricesItsRange | src/GenerateInvoice.js:430-463 | with ascending non-overlapping tiers, a count inside tier k costs count × tier k's rate |
| TieredFee.TiedMinimumTakesLastListed | src/GenerateInvoice.js:439-454 | tiers 10-20@1.00 and 10-15@2.00 (equal minimums) price an unheld count of 30 at 2.00, the later-listed tier |
| TieredFee.BracketNotGraduated | src/GenerateInvoice.js:453-454 | 5 employees at tiers 1-5@3.00 / 6-20@2.00 cost 15.00, 6 employees cost 12.00: one more employee lowers the fee |
| MonthlyAggregation.IndexOf | src/GenerateInvoice.js:470 | the index found is the first accumulator entry with the client code; `None` exactly when none has it |
| MonthlyAggregation.FindClient | src/GenerateInvoice.js:470 | the left-to-right scan stops at the position `IndexOf` names, or at the end when no entry has the code |
| MonthlyAggregation.AggregateMonthlyData | src/GenerateInvoice.js:467-484 | the reduce loop (with its inner find) equals the recursive definition `Aggregate`, whose properties follow |
| MonthlyAggregation.AggregateCodes | src/GenerateInvoice.js:469-483 | the output's client codes are the input's codes in first-occurrence order |
| MonthlyAggregation.AggregateDistinct | src/GenerateInvoice.js:469-483 | one output row per client code, and exactly the codes of the input |
| MonthlyAggregation.AggregateCombines | src/GenerateInvoice.js:472-478 | each output row sums the employee and paid counts of all rows with its code, ORs their active flags and takes the last name seen |
| MonthlyAggregation.AggregateUniqueIsIdentity | src/GenerateInvoice.js:479-481 | rows whose codes are already distinct come back unchanged |
| MonthlyAggregation.AggregateKeepsTotal | src/GenerateInvoice.js:474 | the total active employee count is unchanged by aggregation |
| InvoiceDraft.Toggle | src/GenerateInvoice.js:70-76 | after a toggle the item is selected iff it was not before; every other item keeps its state |
| InvoiceDraft.ToggleTwice | src/GenerateInvoice.js:80-86 | toggling twice restores the selected set, and the exact list when the item was not selected |
| InvoiceDraft.MatchingRow | src/GenerateInvoice.js:490 | the row found carries the client id; `None` iff there is no id or no row carries it |
| InvoiceDraft.Warnings | src/GenerateInvoice.js:486-503 | a per-employee client line warns "not found" iff no row matches, and "inactive" iff the matching row is inactive. Other lines never warn, and there is at most one warning |
| InvoiceDraft.WarningLines | src/GenerateInvoice.js:130-137 | no warning lines iff no recurring line has a warning |
| InvoiceDraft.WarningsOnAggregated | src/GenerateInvoice.js:126-132 | on aggregated rows, "not found" iff no raw row has the code; "inactive" iff every raw row of the code is inactive |
| InvoiceDraft.CalculatedAmount | src/GenerateInvoice.js:229-246 | a per-employee client line with a usage row costs base + head count × per-employee amount; any other line costs `amount || 0` |
| InvoiceDraft.CalculatedIffFound | src/GenerateInvoice.js:229-243 | the line is priced from a usage row of its client iff the same rows raise no "not found" warning |
| InvoiceDraft.CalculatedReadsFirstRawRow | src/GenerateInvoice.js:231-240 | with two raw rows for one client (3 and 4 employees at 1.00) only the first is billed: 3.00 |
| InvoiceDraft.Invoiced | src/GenerateInvoice.js:267 | an empty or absent override gives the computed amount, otherwise the number parsed from the typed text |
| InvoiceDraft.ClearingOverrideRestores | src/GenerateInvoice.js:88-100 | clearing an override box restores the computed amount and leaves every other line's amount alone |
| InvoiceDraft.Reason | src/GenerateInvoice.js:268 | the reason is sent iff one was typed and is not empty |
| InvoiceDraft.MonthlyFees | src/GenerateInvoice.js:156-168 | the lines are the aggregated clients whose code is selected, each once and in order. Line i carries that client's code, name, pay-group flag and head count, the base fee, the tiered fee of the head count as both the per-employee fee and the total, and the partner's id and code |
| InvoiceDraft.SelectedClientBilledOnce | src/GenerateInvoice.js:156-168 | a selected client of the aggregated rows gets exactly one monthly line, carrying its summed head count |
| InvoiceDraft.BaseFeesBilled | src/GenerateInvoice.js:183-190 | the base fees billed are the base fee times the number of selected active raw rows |
| InvoiceDraft.Shortfall | src/GenerateInvoice.js:192-195 | the shortfall is never negative, tops the billed amount up to at least the minimum, and when positive to exactly the minimum |
| InvoiceDraft.ShortfallTopsUp | src/GenerateInvoice.js:192-195 | billed + shortfall is the larger of billed and the minimum |
| InvoiceDraft.AggregateActiveSelected | src/GenerateInvoice.js:183-190 | aggregated rows never count more selected active clients than the raw rows |
| InvoiceDraft.RawShortfallAtMostAggregated | src/GenerateInvoice.js:181-196 | the shortfall from the raw rows is at most the shortfall from the aggregated rows |
| InvoiceDraft.MinimumLines | src/GenerateInvoice.js:172-199 | exactly one minimum line when a minimum is configured, with its fixed name, reason and frequency. Its original amount is the minimum and its invoiced amount the shortfall against the base fees of the selected active raw rows |
| InvoiceDraft.PartnerBillingIdFor | src/GenerateInvoice.js:256-259 | the id is that of the FIRST partner-level line with the same billing item (no earlier line matches); none when there is no such line |
| InvoiceDraft.PositionKeyNeverSubmitted | src/GenerateInvoice.js:109-118 | a line without a truthy id is ticked under its position, and the filter at line 204 (which looks up `item.id`) never selects it |
| InvoiceDraft.RecurringFeeOf | src/GenerateInvoice.js:255-270 | a recurring line's original amount is the calculated amount. Its invoiced amount is the override or that amount, its reason the typed one, and its client name defaults to "N/A" |
| InvoiceDraft.RecurringFees | src/GenerateInvoice.js:202-285 | the lines sent are the selected recurring lines, each once and in list order, line i being `RecurringFeeOf` the i-th selected line |
| InvoiceDraft.OneTimeFeeOf | src/GenerateInvoice.js:290-301 | a one-time line links its charge. Its original amount is the charge amount, its invoiced amount the override or the charge amount, and its reason the typed one |
| InvoiceDraft.OneTimeFees | src/GenerateInvoice.js:288-302 | the lines sent are the selected offered charges, each once and in list order, line i being `OneTimeFeeOf` the i-th selected charge |
| InvoiceDraft.OverrideNeedsNoReason | src/GenerateInvoice.js:300-301 | an overridden amount is sent with no reason at all |
| InvoiceDraft.FetchedChargesAsWritten | src/GenerateInvoice.js:385 | the fetch as written (no dates sent) always yields no charges |
| InvoiceDraft.FetchedCharges | src/GenerateInvoice.js:381-399 | with the page's dates sent, a charge is offered iff it is the partner's, dated in the period, and on no live invoice |
| InvoiceDraft.FetchAsWrittenMissesBillableCharge | src/GenerateInvoice.js:385 | a billable charge in the period is offered by the corrected fetch and missed by the one as written |
| InvoiceDraft.FindPartner | src/GenerateInvoice.js:151-153 | the partner found has the selected id; none only when no partner has it |
| InvoiceDraft.GenerateInvoice | src/GenerateInvoice.js:121-303 | cancelled iff there are warnings and the prompt is declined. Failed iff it goes on and the partner lookup finds nothing. Otherwise the request carries the partner's id, code and name, the month, the date, the aggregated monthly lines, the minimum line followed by the selected recurring lines, and the selected one-time lines |
| InvoiceDraft.SubmittedRecurringLines | src/GenerateInvoice.js:170-286 | a configured minimum leads the recurring lines. After it come exactly the selected recurring lines, in list order, each mapped by `RecurringFeeOf` |
| TieredPricing.ErrorsAtMeaning | src/TieredPricing.js:15-24 | tier i reports an overlap iff it is not the first and its min parses ≤ the previous max. It reports an invalid range iff its max parses ≤ its min. Errors name tier i+1 |
| TieredPricing.ValidateTiers | src/TieredPricing.js:13-27 | the `forEach` loop returns exactly the errors of `TierErrors` |
| TieredPricing.TierErrorsEmptyIff | src/TieredPricing.js:13-27 | no error iff every tier passes both checks |
| TieredPricing.TierErrorsNumbering | src/TieredPricing.js:16-23 | every error names a tier of the list, and tier 1 never overlaps |
| TieredPricing.NumericAcceptedIsAscending | src/TieredPricing.js:13-27 | a numeric tier list the check accepts is ascending and non-overlapping, so `calculateTieredFee` prices each count by its own tier |
| TieredPricing.NaNBoundPasses | src/TieredPricing.js:18-22 | a bound that does not parse slips through: comparisons with NaN are false, so no error is recorded |
| TieredPricing.SubmitTier | src/TieredPricing.js:29-48 | refused iff a field is empty. Otherwise the list gains the form's tier at the end, unsaved, and the form is cleared |
| TieredPricing.RemoveTier | src/TieredPricing.js:50-74 | an unsaved tier, or one whose DELETE succeeded, is removed at its index; a failed DELETE leaves the list unchanged |
| TieredPricing.SubmitThenRemove | src/TieredPricing.js:41-55 | removing a tier just added restores the list, with or without a DELETE outcome |
| TieredPricing.RemoveTierInverse | src/TieredPricing.js:54 | putting the removed tier back at its index restores the list |
| UsageImport.AnyActive | billing-backend/server.js:113 | the group is active iff some row of the group has the flag true (null counts as false) |
| UsageImport.MaxOfMeaning | billing-backend/server.js:104-112 | MAX of a text column is null iff every value is null; otherwise it is one of the values and no value is greater |
| UsageImport.Group | billing-backend/server.js:101-117 | a group row carries its key, the sum of active employees with null as 0, and the OR of the active flags |
| UsageImport.Aggregate | billing-backend/server.js:93-120 | one group row per distinct key, in first-occurrence order |
| UsageImport.AggregateOnePerKey | billing-backend/server.js:118-119 | the aggregated keys are distinct and are exactly the keys posted |
| UsageImport.GroupSumsCoverTotal | billing-backend/server.js:109-117 | for every summed column the group sums add up to the column total: nothing lost or counted twice |
| UsageImport.DeleteMonth | billing-backend/server.js:87-90 | the DELETE removes exactly the rows of the first staged month; a null month removes nothing |
| UsageImport.Upload | billing-backend/server.js:46-131 | an empty post is refused. A non-empty post succeeds iff no aggregated row clashes on the unique key with a row kept from other months; a clash rolls everything back. On success the table is the old table minus that month, plus the aggregated rows |
| UsageImport.UploadKeepsOtherMonths | billing-backend/server.js:87-90 | a row of another month survives a successful import |
| UsageImport.SingleMonthNeverClashes | billing-backend/server.js:87-120 | a post whose rows all carry the same non-null month never violates the unique key |
| UsageImport.UploadTwiceSameAsOnce | billing-backend/server.js:46-131 | importing the same single-month file twice gives the same table as once |
| UsageImport.DeleteMonthAppend | billing-backend/server.js:87-90 | deleting a month removes the rows just inserted for it |
| UsageImport.DeleteMonthAgain | billing-backend/server.js:87-90 | deleting a month twice is deleting it once |
| OneTimeCharges.OfferedIn | billing-backend/server.js:874-883 | a charge is returned iff it is the partner's, dated within both bounds, and on no live invoice |
| OneTimeCharges.Eligible | billing-backend/server.js:858-885 | the result holds exactly the offered charges, newest first, each drawn from the table |
| OneTimeCharges.NoPeriodOffersNothing | billing-backend/server.js:875-876 | without a start or an end date nothing is returned |
| OneTimeCharges.OfferedIffNotOnLiveInvoice | billing-backend/server.js:877-883 | a charge of the partner in the period is offered iff no non-void invoice lists it |
| OneTimeCharges.WithoutCharge | billing-backend/server.js:1014-1017 | the delete keeps exactly the charges with another id |
| OneTimeCharges.DropVoidLinks | billing-backend/server.js:1003-1010 | only the links from void invoices to the charge are removed |
| OneTimeCharges.DeleteCharge | billing-backend/server.js:972-1043 | refused iff a live invoice lists the charge. Not found iff it does not exist. Otherwise the charge and its void-invoice links are gone and nothing else changes |
| OneTimeCharges.DeleteLeavesNoInvoiceLink | billing-backend/server.js:1003-1017 | after a delete no invoice links to the charge |
| OneTimeCharges.CodeMapLastWins | billing-backend/server.js:1067-1072 | a trimmed code maps to the id of the last row carrying it |
| OneTimeCharges.CodeMapKeys | billing-backend/server.js:1067-1072 | every key of the lookup map is some row's trimmed code |
| OneTimeCharges.RowErrorsEmptyIff | billing-backend/server.js:1078-1106 | a row has no error iff its five required fields are truthy and both codes map to a truthy id |
| OneTimeCharges.ValidateBulk | billing-backend/server.js:1078-1119 | the `forEach` loop collects exactly the numbered errors of the failing rows and the transformed passing rows |
| OneTimeCharges.BulkErrorsEmptyIff | billing-backend/server.js:1107-1123 | no errors iff every row passes, and then every row is transformed, in order |
| OneTimeCharges.BulkErrorsNameFailingRows | billing-backend/server.js:1107-1108 | every reported row number (from 1) names a failing row and its own errors |
| OneTimeCharges.Inserted | billing-backend/server.js:1130-1144 | one charge per validated row, in order, under consecutive ids, with the row's partner, item, client name, description, amount and billing date |
| OneTimeCharges.BulkUpload | billing-backend/server.js:1046-1160 | an empty batch is refused. The batch is stored iff every row passes. Then the charge table is the old one followed by the inserted transformed rows, in order, and the invoices and links are unchanged |
| OneTimeCharges.StoredRow | billing-backend/server.js:1109-1144 | after a successful upload, row i passed validation and is stored at the i-th new position under id nextId + i, with the ids its codes map to, its client name, its description (empty as null), amount and billing date |
| OneTimeCharges.OneBadRowRejectsBatch | billing-backend/server.js:1121-1123 | one bad row rejects the whole batch |
| OneTimeCharges.MissingCodeAlsoInvalid | billing-backend/server.js:1083-1104 | a missing partner code is reported as missing and again as the invalid code "undefined" |
| InvoiceStore.IdOrNull | billing-backend/server.js:1343 | `x \|\| null` keeps an id only when it is present and not 0 |
| InvoiceStore.MonthlyRowOf | billing-backend/server.js:1310-1328 | a stored monthly row belongs to the invoice and keeps the line's code, total and base fee |
| InvoiceStore.RecurringRowOf | billing-backend/server.js:1335-1355 | a stored recurring row has missing amounts as 0, no empty reason, a client name, and frequency "monthly" by default |
| InvoiceStore.OneTimeRowOf | billing-backend/server.js:1362-1382 | a stored one-time row has missing amounts as 0, no empty reason, and the charge link when the id is truthy |
| InvoiceStore.MonthlyRows | billing-backend/server.js:1308-1330 | one stored row per monthly line, in order |
| InvoiceStore.RecurringRows | billing-backend/server.js:1333-1357 | one stored row per recurring line, in order |
| InvoiceStore.OneTimeRows | billing-backend/server.js:1360-1384 | one stored row per one-time line, in order |
| InvoiceStore.Bind | billing-backend/server.js:1315-1327 | a statement runs iff it supplies as many values as it has placeholders |
| InvoiceStore.MonthlyInsert | billing-backend/server.js:1310-1328 | the monthly INSERT succeeds iff it has ten placeholders, and then stores the line's row |
| InvoiceStore.AsWrittenRejectsMonthlyLines | billing-backend/server.js:1308-1330 | as written, generation fails iff the request has a monthly line |
| InvoiceStore.InvoiceNumber | billing-backend/server.js:1287 | the number is `INV-`, the partner code, `-`, the month, `-`, the time stamp, each at its position |
| InvoiceStore.InvoiceNumberDetermines | billing-backend/server.js:1287 | with no dash in the partner code or the stamp, equal numbers have equal codes, months and stamps |
| InvoiceStore.InvoiceTotals | billing-backend/server.js:1409-1453 | none iff no invoice has the id. Otherwise the monthly, recurring and one-time sums over the invoice's own rows, and a grand total equal to their sum |
| InvoiceStore.RequestTotals | billing-backend/server.js:1417-1445 | the grand total of a request is the sum of its three section totals |
| InvoiceStore.MonthlyRowsSum | billing-backend/server.js:1417-1420 | the stored monthly rows of an invoice sum to the request's monthly totals |
| InvoiceStore.RecurringRowsSum | billing-backend/server.js:1422-1425 | the stored recurring rows sum to the request's invoiced amounts (null as 0) |
| InvoiceStore.OneTimeRowsSum | billing-backend/server.js:1427-1430 | the stored one-time rows sum to the request's invoiced amounts (null as 0) |
| InvoiceStore.FreshInvoiceTotals | billing-backend/server.js:1290-1445 | an invoice stored under a fresh id reports exactly its request's totals |
| InvoiceStore.UpdateStatus | billing-backend/server.js:1525-1532 | refused iff the status is not draft, final or void. Otherwise only the invoice with the id changes, and only its status |
| InvoiceStore.StatusHasNoTransitionRule | billing-backend/server.js:1525-1532 | any whitelisted status can be set on any invoice, a void or final one included |
| InvoiceStore.UpdateStatusIdempotent | billing-backend/server.js:1529-1532 | setting a status twice is setting it once |
| InvoiceStore.Store.GenerateInvoice | billing-backend/server.js:1269-1403 | stores a draft master row under a fresh id, the ten-column monthly rows, and the recurring and one-time rows. The stored invoice's totals are the request's |
| InvoiceStore.Store.InsertMonthly | billing-backend/server.js:1308-1330 | the monthly table gains the line rows and nothing else changes |
| InvoiceStore.Store.InsertRecurring | billing-backend/server.js:1333-1357 | the recurring table gains the line rows and nothing else changes |
| InvoiceStore.Store.InsertOneTime | billing-backend/server.js:1360-1384 | the one-time table gains the line rows and nothing else changes |
| InvoiceStore.Store.SetStatus | billing-backend/server.js:1518-1542 | succeeds iff the status is whitelisted, then applies the update. A refused status leaves every table as it was |
| InvoiceStore.GeneratedIsDraft | billing-backend/server.js:1293 | a generated invoice is stored as a draft |
| ImportSheet.ByHeader | src/MonthlyBillingImport.js:13-30 | a column found for a header has that spreadsheet header |
| ImportSheet.ByName | src/MonthlyBillingImport.js:13-30 | a column found for a name has that database name |
| ImportSheet.NewKeyOfHeader | src/MonthlyBillingImport.js:74 | each expected header is renamed to its own column |
| ImportSheet.ColumnListed | src/MonthlyBillingImport.js:13-30 | every column is one of the sixteen checked |
| ImportSheet.UnmappedKeyPassesThrough | src/MonthlyBillingImport.js:74 | a key that is neither a header nor a column name is kept as it is |
| ImportSheet.KeepCountChars | src/MonthlyBillingImport.js:96 | only digits and `-` are kept, and text of only those is unchanged |
| ImportSheet.KeepAmountChars | src/MonthlyBillingImport.js:87 | only digits, `-` and `.` are kept |
| ImportSheet.MissingHeader | src/MonthlyBillingImport.js:67-71 | none iff the row has every expected header; otherwise the first expected header it lacks |
| ImportSheet.RenamedEntries | src/MonthlyBillingImport.js:73-123 | the cleaned row has one key per renamed entry, holding the converted value of the last entry renamed to it |
| ImportSheet.CleanRowEntries | src/MonthlyBillingImport.js:73-123 | the `forEach` over the entries builds exactly the cleaned row |
| ImportSheet.CleanSheet | src/MonthlyBillingImport.js:63-126 | succeeds iff every row has every header, and then cleans each row in order |
| ImportSheet.CompleteRowHasAllColumns | src/MonthlyBillingImport.js:67-123 | a row with every header comes out with all sixteen columns |
| ImportSheet.CountOfNumber | src/MonthlyBillingImport.js:90-97 | a whole number in a count column reads back as itself, and null stays null |
| ImportSheet.CountIgnoresSeparators | src/MonthlyBillingImport.js:96 | "$1,234" in a count column keeps the digits "1234" |
| ImportSheet.SeparatedCountValue | src/MonthlyBillingImport.js:96 | `parseInt` of "1234" is 1234 |
| ImportSheet.CountDecimalAsWritten | src/MonthlyBillingImport.js:96 | as written, the count regex drops the decimal point, so "12.5" reads as 125; the corrected reading gives 12 |
| ImportSheet.CountReadsWholeNumber | src/MonthlyBillingImport.js:96 | corrected: a count cell holding a whole number followed by a decimal part reads as that whole number |
| ImportSheet.ActiveFlagCases | src/MonthlyBillingImport.js:78-81 | true, 1 and "YES" set the flag; false, 0, " yes" and null do not |
| ImportSheet.MonthIsFirstOfMonth | src/MonthlyBillingImport.js:109-113 | text `YYYY-MM` that is not a parseable date becomes `YYYY-MM-01` |
| ImportSheet.ParsedMonthEndsInDay01 | src/MonthlyBillingImport.js:101-107 | a date cell or a parseable date becomes text ending in "01" |
| ImportSheet.ImportPage.constructor | src/MonthlyBillingImport.js:9-10 | the page starts with no rows and an empty status |
| ImportSheet.ImportPage.NoFile | src/MonthlyBillingImport.js:34-37 | no file selected: only the status changes |
| ImportSheet.ImportPage.ReadFailed | src/MonthlyBillingImport.js:138-142 | a read error clears the rows and sets the error status |
| ImportSheet.ImportPage.SheetRead | src/MonthlyBillingImport.js:63-135 | a clean sheet replaces the rows; a missing header clears them and reports the header |
| ImportSheet.ImportPage.StartUpload | src/MonthlyBillingImport.js:147-163 | with no rows nothing is posted and the status says so; otherwise the rows are posted as they are |
| ImportSheet.ImportPage.UploadDone | src/MonthlyBillingImport.js:165-176 | success or failure status, with the server's error text or "Upload failed" |
| ImportSheet.BadSheetPostsNothing | src/MonthlyBillingImport.js:67-151 | after a sheet with a row missing a header, the upload posts nothing |
| InvoiceReview.CalculateSubtotals | src/InvoiceReview.js:124-149 | each subtotal is its column's sum (missing as 0, invoiced not original amounts), and the grand total is monthly + recurring + one-time |
| InvoiceReview.EmptyLinesAddNothing | src/InvoiceReview.js:125-138 | a line with no amounts changes no subtotal |
| InvoiceReview.InvoicedNotOriginal | src/InvoiceReview.js:134-138 | changing a line's amounts moves the subtotal by the change in its invoiced amount only |
| InvoiceReview.Active | src/InvoiceReview.js:180-181 | the shown monthly rows are exactly the active ones |
| InvoiceReview.DisplayedSubtotalSplits | src/InvoiceReview.js:207-214 | the shown monthly subtotal is the base plus per-employee fees of the active rows |
| InvoiceReview.ActiveSumSplits | src/InvoiceReview.js:209-213 | summing row totals is summing base fees plus summing per-employee fees |
| InvoiceReview.InactiveRowHidden | src/InvoiceReview.js:207-214 | an inactive row does not change the shown subtotal |
| InvoiceReview.DisplayedSubtotalAddsBaseFees | src/InvoiceReview.js:207-214 | for lines whose stored total is the per-employee fee (as generation stores them), the section's subtotal formula gives the active rows' stored totals plus their base fees. As written the page never receives such lines (see Left out) |
| InvoiceReview.TotalsArePerEmployee | src/InvoiceReview.js:131-132 | for lines whose stored total is the per-employee fee (as generation stores them), the monthly total is the sum of per-employee fees |
| InvoiceReview.FinalizeOnlyDrafts | src/InvoiceReview.js:315 | of the statuses the server accepts, only a draft can be finalized |
| InvoiceReview.MonthlyLinesSum | src/InvoiceReview.js:131-132 | the page's monthly total over an invoice's lines equals the server's monthly sum |
| InvoiceReview.RecurringLinesSum | src/InvoiceReview.js:134-135 | the page's recurring total equals the server's recurring sum |
| InvoiceReview.OneTimeLinesSum | src/InvoiceReview.js:137-138 | the page's one-time total equals the server's one-time sum |
| InvoiceReview.ReviewAgreesWithServer | src/InvoiceReview.js:124-149 | on an invoice's stored lines the page's section totals, and the grand total `calculateSubtotals` computes, equal those of `/api/invoice/:id`. The page never displays this grand total (`totals` is computed and unused, src/InvoiceReview.js:150); it shows the master row's `total_amount` (src/InvoiceReview.js:309), a column the generation handler never writes (billing-backend/server.js:1289-1293) and the model does not hold |
| RoleConfig.Routes | src/roleConfig.js:2-29 | the table defines routes for exactly admin, billing_manager and user |
| RoleConfig.HasPermission | src/roleConfig.js:32-34 | permitted iff the role is one of the table's and lists the route |
| RoleConfig.BillingManagerWithinAdmin | src/roleConfig.js:3-25 | every page a billing manager may open, an admin may open |
| RoleConfig.UserManagementAdminOnly | src/roleConfig.js:3-28 | user management is permitted iff the role is admin |
| RoleConfig.UserOnlyOneTimeBilling | src/roleConfig.js:26-28 | a user may open the one-time billing page and nothing else |
| RoleConfig.NoRoleNoPermission | src/roleConfig.js:32-34 | without a role nothing is permitted |
| RoleConfig.HasPermissionAsWritten | src/roleConfig.js:33 | an inherited object name throws; every other role answers as `HasPermission` |
| RoleConfig.InheritedRoleNameThrows | src/roleConfig.js:33 | the role "constructor" throws where the intended check refuses |
| FinalizedInvoices.ReadQueryInverse | src/FinalizedInvoices.js:28-38 | reading the built query back gives the pairs it was built from |
| FinalizedInvoices.FinalizedPage.constructor | src/FinalizedInvoices.js:8-13 | the page starts with no invoices, empty filters, loading |
| FinalizedInvoices.FinalizedPage.InvoicesUrl | src/FinalizedInvoices.js:26-38 | the URL is the base followed by `name=value&` for each set filter, in order |
| FinalizedInvoices.FinalizedPage.Loaded | src/FinalizedInvoices.js:40-51 | an array response replaces the list; anything else, or a failure, empties it. Loading ends and the filters are kept |
| FinalizedInvoices.FinalizedPage.Reopen | src/FinalizedInvoices.js:58-83 | a confirmed reopen asks for "draft". Success drops the invoice from the list; a declined prompt or a failure keeps the list |
| FinalizedInvoices.QueryOfParams | src/FinalizedInvoices.js:30-38 | the query is the optional partner, from and to items, in that order |
| FinalizedInvoices.WithoutIdKeepsOthers | src/FinalizedInvoices.js:78 | the filter keeps exactly the invoices with another id, and changes nothing when none has the id |
| FinalizedInvoices.WithoutIdIdempotent | src/FinalizedInvoices.js:78 | removing the same invoice twice is removing it once |
| FinalizedInvoices.ReopenStatusAccepted | src/FinalizedInvoices.js:67 | "draft" is a status the server's whitelist accepts |
| FinalizedInvoices.ParamsPresentIff | src/FinalizedInvoices.js:30-38 | each filter's pair is present iff the filter is set; only the three names occur |
| FinalizedInvoices.NoFiltersBareUrl | src/FinalizedInvoices.js:28 | with no filter set the URL ends right after `?` |
| FinalizedInvoices.UrlCarriesFilters | src/FinalizedInvoices.js:26-38 | the URL starts with the base, and its query reads back as the set filters |

## Left out

- HTTP, fetch, JSON, React state scheduling, `alert`/`window.confirm`, `Date.now()`, `new Date()`, file reading and the spreadsheet library: each becomes a parameter (`confirmed`, `ok`, `stamp`, `today`, `dateOf`, the parsed sheet) or is left out.
- Floating point: amounts are whole cents, so `parseFloat`, `toFixed(2)` and the sums are exact. Amount text (`total_billing` on import) is kept as the digit text and not converted to a number.
- ImportSheet.Coerce: a number cell is a whole number, so fractional numbers are not modelled. A count written as text with a decimal part, which the code reads with the point dropped ("12.5" as 125), is read by its whole part; see Findings. The whole part ends at the FIRST `.` of the text, so a point before the digits changes the reading too: "No. 5" reads as NaN in the model, where the code reads 5.
- ImportSheet.NewKey: a sheet header equal to a name inherited from `Object.prototype` would rename the key to a function's text. That is not modelled; such headers are taken as passed through.
- UsageImport.Aggregate: SQL leaves the order of GROUP BY rows open. The model takes first-occurrence order, and MAX over text compares by code point, not by the database's collation.
- UsageImport.Upload: `SELECT month_year ... LIMIT 1` has no ORDER BY. The model reads the first posted row.
- UsageImport.Upload: the unique key (month_year, client_code) of `monthly_billing` is inferred from the staging constraint the handler drops. A clash aborts the whole transaction.
- UsageImport.Upload: the staging insert loop (undefined becomes null) is folded into the nullable fields of `UsageRecord`.
- OneTimeCharges.Eligible: `ORDER BY billing_date DESC` is a stable sort here. The order of equal dates is not fixed by SQL.
- OneTimeCharges.BulkUpload: `parseFloat(record.amount)` and the text of the error message are not modelled. An amount is a whole number of cents.
- The join with `billing_items` and `partners` in the eligibility query is assumed to find a row for every charge.
- The server's `/api/invoices/:status` list handler is not part of this model. The page's URL is modelled, the filtering by that query is not.
- The client's reopen request goes to `/api/invoices/:id/status`, a route the server does not define. Its outcome is the parameter `ok`.
- `fetchTiers` and the tier endpoints (`/api/billing-tiers`) are not part of this model, apart from the DELETE outcome of a removal.
- The review page's sections read `invoice.monthly_fees`, `invoice.recurring_fees` and `invoice.one_time_fees` (src/InvoiceReview.js:168-301). Neither `/api/invoice/:id` (billing-backend/server.js:1409-1469) nor `/api/invoices/:status` (billing-backend/server.js:1545-1601) returns these fields; both send the master row and totals only. As written the sections are therefore always empty. The model states what the section formulas (`Active`, `DisplayedMonthlySubtotal`) give on an invoice's lines, as if they were supplied.
- The review page's displayed total, `invoice.total_amount`, reads a master-row column that generation never writes; it is not modelled.
- JsText.Trim, JsText.IsSpace, JsText.ToLower: white space is space, tab, line feed and carriage return only, and only ASCII letters are lowered. JavaScript's `trim` also strips vertical tab, form feed, no-break space, U+FEFF and the other Unicode spaces and line terminators, and `toLowerCase` also folds non-ASCII letters; neither is modelled.
- JsText.ParseInt: decimal only. The tier bounds are read by `parseInt` without a radix (src/TieredPricing.js:18, 22 and src/GenerateInvoice.js:435-436), which also reads hexadecimal: "0x1A" is 26 there and 0 in the model.
- OneTimeCharges.CodeText: a JSON `null` code is folded into the missing code. The code reads `String(null)` as "null" where the model has "undefined"; only the text of the unknown-code error differs.
- Authentication, the user routes and the navigation components are not part of this model; only `hasPermission` and its table are.

## Findings

| source | as written | input that shows it | evidently intended | confidence | as-written member | corrected member |
|---|---|---|---|---|---|---|
| billing-backend/server.js:1311-1327 | the monthly INSERT names ten columns but has only the placeholders $1 to $9 for ten values | any request with one monthly line | a tenth placeholder `$10` for `partner_code` | not executed | InvoiceStore.AsWrittenRejectsMonthlyLines | InvoiceStore.MonthlyInsert |
| src/GenerateInvoice.js:385 | the one-time charges are fetched without `start_date`/`end_date`, so the server compares `billing_date` with NULL | a charge of the partner dated inside the selected period, on no invoice | pass the page's start and end dates as query parameters | not executed | InvoiceDraft.FetchAsWrittenMissesBillableCharge | InvoiceDraft.FetchedCharges |
| src/MonthlyBillingImport.js:96 | the count cleanup `replace(/[^0-9-]+/g, '')` also removes the decimal point, so the fraction's digits become more digits of the count | the text "12.5" in a count column (read as 125) | drop separators from the whole part only (12) | not executed | ImportSheet.CountDecimalAsWritten | ImportSheet.CountReadsWholeNumber |
| src/roleConfig.js:33 | `ROLE_PERMISSIONS[userRole]?.includes(route)` also finds the names a plain object inherits, whose values have no `includes` | role "constructor" | an own-property lookup, refusing unknown roles | not executed | RoleConfig.InheritedRoleNameThrows | RoleConfig.HasPermission |
