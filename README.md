# Invoice settlement and commission model

A Dafny model of the invoice routes of a revenue-settlement application. An
invoice moves money along a chain: client → distributor → admin → company.
The model covers the parts of `routes/invoices.js` that carry rules:

- **Commission-rate resolution.** A tier rate for the amount wins whenever the
  tier table returns one, including a rate of 0. Otherwise the client's, the
  user's or the company's own default `commissionRate` is used, and 0 when that
  entity is missing (`Commission`).
- **Rate snapshot.** On preview, create and update, three rates are looked up.
  The company is reached through the invoice's file. A missing file, a file
  without a company, or a file whose company was deleted gives rate 0. Each commission is `amount * rate / 100`.
  The preview rejects a missing or non-positive amount (`Commission`).
- **Payment ledger.** Each invoice holds three steps `{isPaid, markedBy}`. A
  helper marks or clears one named step (`Ledger`). The "view own" scope means
  "can view own but not all". It restricts list, lookup, mark, update and delete
  to invoices assigned to the caller.
- **Route handlers.** An `InvoiceStore` class holds the invoices as a map from id
  to document. Its methods are the route handlers: list, lookup, create,
  single-step mark with its guard chain, the three bulk settlements, admin
  unmark, update and delete. Every rejected request leaves the store unchanged
  (`InvoiceRoutes`).
- **Bulk settlement.** Each bulk route applies a selection predicate to the
  store. The module proves three things about it. The reported count is the
  number of invoices marked. A second run right after finds nothing. Every
  ledger stays in settlement order (`Settlement`).
- **Export rollups.** Each row gets a net profit, coloured green when it is at
  least 0 and red otherwise. The column totals of the summary row give a total
  net profit equal to the sum of the per-row net profits (`Export`).

The routes do not enforce the settlement order, and a few checks are absent:
- No route rejects a step as out of order, and unmark does not check that the
  step is paid or that later steps are unpaid. `Ledger.UnmarkEarlierStepBreaksOrder`
  shows that an admin unmark can leave a ledger out of order.
- Bulk company settlement does not look at the `clientToDistributor` step.
- Bulk routes do not call the per-invoice permission check.
- Unmark applies no "view own" scope.
- Create and update accept any parsed amount, including 0 and negative ones.
  Only the preview rejects amounts ≤ 0.

## Model

| member | source | states |
|---|---|---|
| `Commission.ResolveRate` | routes/invoices.js:14-37 | a tier rate, when the lookup returns one (even 0), is the result; with no tier the stored entity's default rate for its kind is used; with no tier and no entity the rate is 0 |
| `Commission.DefaultsIrrelevantUnderTier` | routes/invoices.js:16-20 | entity defaults are consulted only when no tier applies: directories agreeing on the tier agree on the rate |
| `Commission.UnknownKindRate` | routes/invoices.js:24-36 | an entity kind outside client/distributor/company gets the tier rate or 0 |
| `Commission.FileOwner` | routes/invoices.js:153-157 | the populated company of a file exists iff the file is stored, names a company, and that company is still stored |
| `Commission.CompanyRate` | routes/invoices.js:156-159 | company rate is 0 when the file is missing, has no company, or names a deleted company; otherwise the resolved rate of the file's stored company |
| `Commission.DeletedCompanyRate` | routes/invoices.js:156-159 | a file pointing at a deleted company gets rate 0 even when the tier table has a rate for the stale id |
| `Commission.SnapshotRates` | routes/invoices.js:150-159 | the snapshot holds the client's and the distributor's resolved rates and the file's company rate; when every tier and default rate is within 0..100, so is each snapshot rate |
| `Commission.CommissionOf` | routes/invoices.js:165-167 | commission × 100 = amount × rate; it lies between 0 and the amount for a non-negative amount and a rate in 0..100 |
| `Commission.CommissionsAdd` | routes/invoices.js:165-167 | the three commissions add up to the commission of the summed rate |
| `Commission.ParsedAmount` | routes/invoices.js:179 | the saved amount is the parsed number, or 0 when it does not parse |
| `Commission.Preview` | routes/invoices.js:142-172 | rejected with InvalidAmount iff the amount is missing or ≤ 0; otherwise quotes the three snapshot rates and each commission as amount × rate / 100 |
| `Commission.PreviewMatchesSavedRates` | routes/invoices.js:181-191 | an accepted preview quotes the same rates that create/update freeze onto the invoice for the same inputs |
| `Commission.PreviewExample` | routes/invoices.js:161-168 | amount 1000 at 5, 3 and 2 percent quotes commissions 50, 30 and 20 |
| `Ledger.ParseStep` | routes/invoices.js:219-224 | a path step parses only to the step of that name; every other name is rejected |
| `Ledger.ParseStepName` | routes/invoices.js:219 | each of the three step names parses back to its step |
| `Ledger.MarkStep` | routes/invoices.js:253 | the named step becomes paid with markedBy the caller; other steps and all other invoice fields are unchanged |
| `Ledger.UnmarkStep` | routes/invoices.js:430 | the named step becomes unpaid with no marker; other steps and fields are unchanged |
| `Ledger.UnmarkUndoesMark` | routes/invoices.js:429-431 | unmarking a step marked from the cleared state restores the invoice exactly |
| `Ledger.UnmarkLastPaidKeepsOrder` | routes/invoices.js:429-431 | clearing the last paid step of an ordered ledger keeps it ordered |
| `Ledger.UnmarkEarlierStepBreaksOrder` | routes/invoices.js:416-431 | clearing clientToDistributor while distributorToAdmin is paid leaves the ledger out of order |
| `Ledger.NothingPaidIsOrdered` | routes/invoices.js:193-204 | a new invoice's ledger has no step paid and is ordered |
| `Ledger.InScope` | routes/invoices.js:45-47 | a view-all caller sees every invoice; a view-own caller exactly those assigned to it; a caller with neither level is not narrowed |
| `Settlement.Eligible` | routes/invoices.js:282-380 | an invoice a bulk query selects still owes the step the route marks and has the step just before it paid; a company selection goes through the file's stored owning company |
| `Settlement.RerunFindsNothing` | routes/invoices.js:323-340 | after a bulk settlement, rerunning it with the same argument selects nothing (for all three bulk routes) |
| `Settlement.SettlementCount` | routes/invoices.js:294-299 | after a bulk settlement the paid set of the target step is the old paid set plus the selection, disjointly, so the count marked equals the selection size |
| `Settlement.SettlementKeepsOrder` | routes/invoices.js:364-380 | every bulk settlement keeps every ordered ledger ordered |
| `Settlement.DistributorPayExample` | routes/invoices.js:323-327 | of two invoices of a distributor, only the client-paid one is selected, count 1 |
| `InvoiceRoutes.NewInvoice` | routes/invoices.js:193-204 | a new invoice carries the snapshot rates for its parties and parsed amount, its creator, and nothing paid |
| `InvoiceRoutes.Revised` | routes/invoices.js:500-511 | an edit recomputes the snapshot from the new client, distributor, file and amount, and keeps the ledger and creator |
| `InvoiceRoutes.InvoiceStore.List` | routes/invoices.js:40-57 | lists exactly the invoices in scope; under view-own only those assigned to the caller; otherwise all |
| `InvoiceRoutes.InvoiceStore.Find` | routes/invoices.js:450-457 | finds the invoice iff it exists and is in the caller's scope |
| `InvoiceRoutes.InvoiceStore.Create` | routes/invoices.js:175-213 | stores the new invoice under an id not used before; nothing else changes |
| `InvoiceRoutes.InvoiceStore.MarkPayment` | routes/invoices.js:216-268 | rejects, with the store unchanged, an invalid step, a missing or out-of-scope invoice, a refused permission, or an already-paid step (in that order); otherwise marks exactly that step of that invoice by the caller |
| `InvoiceRoutes.InvoiceStore.Settle` | routes/invoices.js:293-299 | marks the target step on exactly the selected invoices and reports their number; an empty selection is an error with no change |
| `InvoiceRoutes.InvoiceStore.BulkPayClient` | routes/invoices.js:271-309 | non-distributors are refused with no change; otherwise clientToDistributor is marked on exactly the caller's unpaid invoices of that client, count reported |
| `InvoiceRoutes.InvoiceStore.BulkPayDistributor` | routes/invoices.js:312-350 | non-admins are refused with no change; otherwise distributorToAdmin is marked on exactly the distributor's client-paid, admin-unpaid invoices |
| `InvoiceRoutes.InvoiceStore.BulkPayCompany` | routes/invoices.js:353-403 | non-admins are refused with no change; otherwise adminToCompany is marked on exactly the distributor-paid, company-unpaid invoices whose file's stored owning company is that company |
| `InvoiceRoutes.InvoiceStore.UnmarkPayment` | routes/invoices.js:406-445 | rejects an invalid step, a non-admin, or a missing invoice (in that order) with no change; otherwise clears exactly that step, unscoped and unchecked |
| `InvoiceRoutes.InvoiceStore.Update` | routes/invoices.js:475-524 | succeeds iff the invoice exists in scope, then replaces it with the revision; otherwise NotFound and no change |
| `InvoiceRoutes.InvoiceStore.Delete` | routes/invoices.js:527-549 | succeeds iff the invoice exists in scope, then removes only it; otherwise NotFound and no change |
| `Export.NetProfit` | routes/invoices.js:596 | net profit and the three commissions add up to the amount; with non-negative commissions it is at most the amount |
| `Export.ColumnTotal` | routes/invoices.js:656-659 | a single row's total is its cell; a column of non-negative cells has a non-negative total at least as large as each cell |
| `Export.NetProfitColour` | routes/invoices.js:631-637 | the net-profit cell is green iff the net profit is ≥ 0, red iff it is < 0 |
| `Export.TotalNetProfitIsRowSum` | routes/invoices.js:656-660 | total amount minus the three commission totals equals the sum of the per-row net profits |
| `Export.BuildSheet` | routes/invoices.js:554-670 | rejects a missing, non-list or empty payload; otherwise one row per invoice, each with net profit = amount − commissions and its sign colour, and a summary holding the four column totals, whose net profit is the amount total less the three commission totals and equals the sum of row net profits |
| `Export.SnapshotRowNetProfit` | routes/invoices.js:596 | a row with snapshot commissions nets amount × (100 − sum of rates) / 100, green when the amount is non-negative and the rates sum to at most 100 |
| `Export.NetProfitExample` | routes/invoices.js:596 | 1000 less 50, 30 and 20 nets 900, shown green |

## Left out

- HTTP routing, the access middleware (`requireModuleAccess`, `requirePermission`), flash messages, redirects, rendering and JSON responses: results are `Result` values with a typed error.
- The database: documents live in a map from id to invoice; `populate` of display fields, query sort order (newest first) and database errors falling into `catch` are not modelled; the three rate lookups run one after another instead of concurrently.
- `CommissionTier.findCommissionRate` (bracket matching, tie-breaks) is not part of this model: it is the arbitrary function `tierRate` of the `Directory`.
- `canUserMarkPayment` is not part of this model: it is an arbitrary function parameter of `MarkPayment`; any step-ordering rule it may enforce is therefore not assumed.
- `markPaymentStep` and `unmarkPaymentStep` are not part of this model beyond setting or clearing `isPaid` and `markedBy`; the `markedAt` timestamp (a clock reading) is left out.
- The Invoice schema is not part of this model: a new invoice is assumed to start with all steps unpaid, and its default status is kept abstract (`None`).
- Floating point, `parseFloat` string parsing and `toFixed(2)` rounding: amounts and rates are exact reals.
- Commission.Preview: quotes exact commissions, whereas the route rounds each to two decimals for display.
- JavaScript coercion of string-valued request fields (a string amount in the preview, string concatenation in the export's `reduce`) is not modelled; numeric fields are assumed numeric.
- Form fields absent from an update request are not modelled; every field of the edit form is assumed present.
- Invoice ids are natural numbers; a malformed id string (a cast error caught by the route) is not modelled.
- The new-invoice and edit forms' loading of client, file and distributor lists (aggregations sorted by usage) are database queries with no rule to state.
- Spreadsheet construction: column widths, header styling, alternate row shading, borders, number formats, file naming and streaming.
- Per-invoice atomicity under concurrent requests; bulk loops are sequential and run to completion.
- The client, company and file routes and the server set-up (database connection, sessions, uploads).
