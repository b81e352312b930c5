# Income-tax calculator backend, modelled in Dafny

This project models the core of an Express/Mongoose backend for an Indian income-tax calculator:

- **Engine.** Two bracket computations: the 2023-24 new regime, and the old regime with its standard deduction and 4% Health and Education Cess. They are `calculateNewTaxRegime` and `calculateOldTaxRegime` in `backend/routes/taxRoutes.js`.
- **`POST /calculate`.** Validates the request, computes the tax and saves a `TaxRecord`.
- **`GET /history`.** Returns the caller's records, filtered, newest first and paginated.
- **`GET /stats`.** Returns an overall aggregate and one group per regime.
- **`DELETE /:id`.** Deletes a record, only when it belongs to the caller.
- **The Mongoose `TaxRecord` schema.** Defaults, the `trim` setter, and the `required`, `maxlength`, `min` and `enum` validators (`backend/models/TaxRecord.js`).

Modules:

- `Wrappers` (`wrappers.dfy`): `Option` and `Result`.
- `Money` (`money.dfy`): exact arithmetic over `real` for `Math.max(0, ·)`, `Math.round`, `Math.ceil`, and the engine's two-decimal rounding `Math.round(v * 100) / 100`.
- `Brackets` (`brackets.dfy`): a generic marginal-bracket schedule and its reducer. The reducer is the independent reference the engine's hand-written if-chains are proved against.
- `TaxEngine` (`tax_engine.dfy`): the two regime functions as written. The breakdown is `slab1`, `slab2`, …, in order, plus the optional `cess` and `standardDeduction` entries.
- `TaxEngineProperties` (`tax_engine_properties.dfy`), whose lemmas prove:
  - each if-chain equals the reducer on its regime's table;
  - the breakdown shows exactly one entry per bracket the income reaches, and adds up to the tax;
  - the unrounded tax is monotone in the income and grows at most at the top rate, so it is continuous at every breakpoint; the rounded tax amount is monotone too;
  - the effective rate lies between 0 and 30 (new regime) or 31.2 (old regime, because of the cess);
  - the old regime ignores its `deductions` argument.
- `TaxRecordModel` (`tax_record.dfy`): the schema as a function from a draft document to either the saved record or the list of field errors. That list holds the first failing validator of each path, with Mongoose's messages.
- `TaxRoutes` (`tax_routes.dfy`): the four handlers as functions of the stored records. `find/sort/skip/limit` and the two `$group` pipelines are written out over sequences.
- `TaxRoutesProperties` (`tax_routes_properties.dfy`): the properties of the handlers.
- `RecordStore` (`record_store.dfy`): the MongoDB collection as a class. Its fields are the stored records and the id counter. Its methods run the handlers; `Calculate` and `Delete` update the collection in place and keep the store invariant: every record is valid, ids are distinct, and ids are below the counter.

Choices in the model:

- **Money.** Money and rates are exact `real`s. Rounding follows JavaScript's `Math.round`: halves round up, so `Math.round(x)` is `floor(x + 0.5)`.
- **Identities.** A `UserId` or `RecordId` is a `nat`. Record ids come from a counter. The counter advances whenever a document is constructed, which is whenever the request passes the handler's own checks, even if the save then fails. This mirrors generating an `ObjectId` in `new TaxRecord(...)`.
- **The clock.** `date` is an `int` timestamp passed in as `now`.
- **Sort ties.** Records with equal `date`s have no defined sort order in MongoDB. The model puts the most recently stored record first among equals.
- **Group order.** The order of `$group` output is unspecified. The model lists groups in order of first appearance.
- **Name filter.** The case-insensitive `$regex` of the `userName` filter is a parameter `nameMatches(pattern, name)` of `/history`.
- **Query numbers.** `parseInt(limit)` and `parseInt(page)` are given as optional integers, with defaults 50 and 1. A non-numeric string, which gives `NaN` in the source, is not modelled.
- **Pagination bounds.**
  - A negative skip is rejected; MongoDB rejects it and the handler then answers 500.
  - A limit of 0 returns everything, and `totalPages` is `null` (`None`), since `Math.ceil(total / 0)` is not finite (`Infinity` for a positive total, `NaN` for 0), which JSON renders as `null`.
  - A negative limit returns at most `-limit` records, as MongoDB's `limit` does.

Behaviour of the handler worth noting, modelled as written:

- **Deductions.** Deductions are subtracted under both regimes before dispatching (taxRoutes.js:32), so the new regime's taxable income is also `max(0, income - deductions)`.
- **Zero income.** A zero income is rejected as missing, because the handler tests `!income` (taxRoutes.js:13).
- **No checks in the engine.** The two regime functions check nothing about their inputs; the handler's checks (taxRoutes.js:13-29) are the only ones.
- **Unknown regimes.** Any `taxRegime` other than `'new'` is computed with the old regime (taxRoutes.js:36-48). A value that is neither `'new'` nor `'old'` then fails the schema's `enum` check, so the request ends in a 500 and nothing is stored; the empty string fails `required` instead.
- **The response's `userName`.** The response `data` echoes the `userName` as sent. The stored record holds it trimmed.
- **The effective rate's base.** The effective rate is computed from the unrounded tax.

## Model

| member | source | states |
|---|---|---|
| Money.Max0 | backend/routes/taxRoutes.js:32 | `Math.max(0, x)` is at least 0 and at least `x`, and is one of the two |
| Money.Round | backend/routes/taxRoutes.js:246 | `Math.round(x)` is the integer within half a unit of `x`, halves rounding up |
| Money.Ceil | backend/routes/taxRoutes.js:113 | `Math.ceil(x)` is the least integer not below `x` |
| Money.RoundTo2 | backend/routes/taxRoutes.js:247 | `Math.round(v * 100) / 100` lies within half a cent of `v` |
| Money.RoundMonotone | backend/routes/taxRoutes.js:246 | rounding never reverses the order of two amounts |
| Money.RoundNonNegative | backend/routes/taxRoutes.js:288 | a non-negative amount rounds to a non-negative integer |
| Money.RoundOfInteger | backend/routes/taxRoutes.js:246 | a whole amount rounds to itself |
| Money.RoundTo2Monotone | backend/routes/taxRoutes.js:247 | two-decimal rounding never reverses the order of two rates |
| Money.RoundTo2NonNegative | backend/routes/taxRoutes.js:289 | a non-negative rate rounds to a non-negative rate |
| Money.RoundTo2OfCents | backend/routes/taxRoutes.js:247 | a rate that already has two decimals is unchanged |
| Brackets.TaxOfFirstMonotone | backend/routes/taxRoutes.js:208-241 | the tax of the first `n` brackets never decreases as the income grows |
| Brackets.SlabTaxMonotone | backend/routes/taxRoutes.js:208-241 | the tax of one bracket never decreases as the income grows |
| Brackets.MarginalTaxMonotone | backend/routes/taxRoutes.js:208-241 | the schedule's tax is non-decreasing in the income |
| Brackets.TaxOfFirstAtZero | backend/routes/taxRoutes.js:208-210 | no bracket taxes an income of 0 or less |
| Brackets.MarginalTaxNonNegative | backend/routes/taxRoutes.js:208-241 | the schedule's tax is never negative |
| Brackets.SlabCountPlacement | backend/routes/taxRoutes.js:208-241 | the breakdown shows every bracket whose lower bound the income exceeds, and no bracket after the one holding the income |
| Brackets.SlabCountIs | backend/routes/taxRoutes.js:208-241 | those two conditions determine the number of breakdown entries uniquely |
| Brackets.SlabTaxPastCount | backend/routes/taxRoutes.js:208-241 | brackets the breakdown does not show charge nothing |
| Brackets.SumTaxOfRefSlabs | backend/routes/taxRoutes.js:208-241 | the reference breakdown adds up to the schedule's tax |
| Brackets.TaxOfFirstFull | backend/routes/taxRoutes.js:216-240 | every bracket below the one holding the income is charged in full: the fixed amounts 15000, 45000, … of the if-chain |
| Brackets.MarginalTaxInBracket | backend/routes/taxRoutes.js:208-241 | in bracket `k`, the tax is `k`'s cumulative base plus `k`'s rate on the part above `k`'s lower bound, the form each branch writes |
| TaxEngine.CalculateNewTaxRegime | backend/routes/taxRoutes.js:204-250 | the new regime's result has no cess and no standard deduction, and its rate is 0 for a taxable income of 0 or less |
| TaxEngine.NewRegimeBrackets | backend/routes/taxRoutes.js:208-241 | the new regime's if-chain: `NewRegimeTaxMatchesSchedule` proves its tax is the reference schedule's tax, `NewRegimeSlabsMatchSchedule` that its `slabN` entries are the reference breakdown, `NewRegimeBreakdownAddsUp` that they add up to the tax |
| TaxEngine.FinalTaxableIncome | backend/routes/taxRoutes.js:257-258 | the old regime's income after the 50,000 standard deduction is never negative and never below `taxableIncome - 50000` |
| TaxEngine.OldRegimeBrackets | backend/routes/taxRoutes.js:260-278 | the old regime's if-chain: `OldRegimeTaxMatchesSchedule`, `OldRegimeSlabsMatchSchedule` and `OldRegimeBreakdownAddsUp` state the same against the old table |
| TaxEngine.CalculateOldTaxRegime | backend/routes/taxRoutes.js:252-295 | the old regime's result carries the 4% cess entry and a standard deduction of 50,000, and its rate is 0 when nothing is left after the deduction |
| TaxEngine.EffectiveRate | backend/routes/taxRoutes.js:243-247 | the effective rate: tax over base in percent, to two decimals, 0 for a base of 0 or less; `CalculateNewTaxRegimeSpec` and `CalculateOldTaxRegimeSpec` state it for each regime (base: taxable income, resp. income after the standard deduction, lines 285-289) and bound it by 30 resp. 31.2 |
| TaxEngineProperties.SchedulesWellFormed | backend/routes/taxRoutes.js:208-241 | both regimes' tables start at 0, have increasing lower bounds and rates between 0 and 30% |
| TaxEngineProperties.NewRegimeBases | backend/routes/taxRoutes.js:216-234 | the if-chain's fixed amounts 0, 15000, 45000, 90000, 150000 are the cumulative taxes of the full lower brackets |
| TaxEngineProperties.OldRegimeBases | backend/routes/taxRoutes.js:268-273 | the fixed amounts 12500 and 112500 are the cumulative taxes of the full lower brackets |
| TaxEngineProperties.NewRegimeTaxMatchesSchedule | backend/routes/taxRoutes.js:208-241 | the new regime's if-chain computes the reference schedule's tax for every non-negative income |
| TaxEngineProperties.NewRegimeSlabAt | backend/routes/taxRoutes.js:208-241 | each `slabN` entry the new regime emits is the reference entry of bracket `N` |
| TaxEngineProperties.NewRegimeSlabsMatchSchedule | backend/routes/taxRoutes.js:208-241 | the new regime emits exactly the reference breakdown: one entry per bracket up to the one holding the income |
| TaxEngineProperties.NewRegimeBreakdownAddsUp | backend/routes/taxRoutes.js:208-241 | the `slabN` taxes add up to the new regime's tax |
| TaxEngineProperties.NewRegimeZeroBand | backend/routes/taxRoutes.js:208-210 | up to 3,00,000 the new regime charges nothing |
| TaxEngineProperties.NewRegimeGrowth | backend/routes/taxRoutes.js:208-241 | the new regime's tax grows with the income, by at most 30% of the increase, hence without a jump at any breakpoint |
| TaxEngineProperties.CalculateNewTaxRegimeSpec | backend/routes/taxRoutes.js:204-250 | the new regime's amount is the schedule's tax rounded, never negative; its breakdown is the reference breakdown; its rate is zero for zero income, else the unrounded tax over the income, in percent, to two decimals, and at most 30 |
| TaxEngineProperties.NewRegimeTaxAmountMonotone | backend/routes/taxRoutes.js:204-250 | a larger taxable income never gives a smaller new-regime tax amount |
| TaxEngineProperties.OldRegimeTaxMatchesSchedule | backend/routes/taxRoutes.js:260-278 | the old regime's if-chain computes the reference schedule's tax |
| TaxEngineProperties.OldRegimeSlabAt | backend/routes/taxRoutes.js:260-278 | each `slabN` entry the old regime emits is the reference entry of bracket `N` |
| TaxEngineProperties.OldRegimeSlabsMatchSchedule | backend/routes/taxRoutes.js:260-278 | the old regime emits exactly the reference breakdown |
| TaxEngineProperties.OldRegimeBreakdownAddsUp | backend/routes/taxRoutes.js:260-278 | the old regime's `slabN` taxes add up to its bracket tax |
| TaxEngineProperties.OldRegimeGrowth | backend/routes/taxRoutes.js:260-278 | the old regime's bracket tax grows with the income, by at most 30% of the increase |
| TaxEngineProperties.CalculateOldTaxRegimeSpec | backend/routes/taxRoutes.js:252-295 | the old regime's breakdown is the reference one on the income after the standard deduction; the cess is 4% of the bracket tax; slabs plus cess add up to 1.04 times it; the amount is that total rounded and never negative; the rate is 0 when nothing is left after the deduction, else the unrounded total over that income, in percent, to two decimals, and at most 31.2 |
| TaxEngineProperties.OldRegimeIgnoresDeductions | backend/routes/taxRoutes.js:252 | the old regime's result does not depend on its `deductions` argument |
| TaxEngineProperties.OldRegimeZeroBand | backend/routes/taxRoutes.js:257-262 | up to 3,00,000 of taxable income (2,50,000 after the standard deduction) the old regime charges nothing |
| TaxEngineProperties.OldRegimeTotalGrowth | backend/routes/taxRoutes.js:257-282 | the old regime's total with cess grows with the income, by at most 31.2% of the increase |
| TaxEngineProperties.OldRegimeTaxAmountMonotone | backend/routes/taxRoutes.js:252-295 | a larger taxable income never gives a smaller old-regime tax amount |
| TaxEngineProperties.EngineExamples | backend/routes/taxRoutes.js:204-295 | worked amounts: new regime 0 at 3,00,000, 15000 at 6,00,000, 150000 at 15,00,000; old regime 65000 with 2500 cess and rate 8.67 at 8,00,000 |
| TaxRecordModel.TrimStart | backend/models/TaxRecord.js:12 | `trim` drops exactly the leading run of white space and line terminators |
| TaxRecordModel.TrimEnd | backend/models/TaxRecord.js:12 | `trim` drops exactly the trailing run of white space and line terminators |
| TaxRecordModel.Trim | backend/models/TaxRecord.js:12 | the `trim` setter: `TrimIsSlice`, `TrimDropsOnlyTrimmable` and `TrimKeepsNoEdge` state that it keeps the slice between the leading and trailing white-space runs, `TrimIdempotent` that a second trim changes nothing |
| TaxRecordModel.Utf16Length | backend/models/TaxRecord.js:13 | a name's UTF-16 length, which `maxlength` counts, is between one and two units per character |
| TaxRecordModel.ApplySchema | backend/models/TaxRecord.js:9-49 | defaults and setters keep the numeric fields and the owner, and fill in `taxRegime`, `deductions` and `calculationDetails` |
| TaxRecordModel.NumberErrors | backend/models/TaxRecord.js:15-45 | a required number with `min: 0` has no error exactly when it is present and not negative |
| TaxRecordModel.FieldErrors | backend/models/TaxRecord.js:3-45 | the validation errors of a document, the first failing validator per path in schema order: `NoFieldErrors` states when the list is empty, `ValidateRejectsUnknownRegime` which error an unknown regime gives |
| TaxRecordModel.ValidRecord | backend/models/TaxRecord.js:3-56 | the constraints a stored record meets: `ValidateProducesValidRecord` states every saved record meets them, `ValidRecordRoundTrip` that every record meeting them validates to itself |
| TaxRecordModel.TrimIdempotent | backend/models/TaxRecord.js:12 | trimming a trimmed name changes nothing |
| TaxRecordModel.Validate | backend/models/TaxRecord.js:3-56 | a failed save always reports at least one field error |
| TaxRecordModel.TrimKeepsNoEdge | backend/models/TaxRecord.js:12 | a trimmed name neither starts nor ends with white space |
| TaxRecordModel.TrimIsSlice | backend/models/TaxRecord.js:12 | a trimmed name is a contiguous slice of the original |
| TaxRecordModel.TrimDropsOnlyTrimmable | backend/models/TaxRecord.js:12 | everything trimming drops is white space |
| TaxRecordModel.ValidateAcceptsExactly | backend/models/TaxRecord.js:3-53 | a save succeeds exactly when the owner, a name non-empty after trimming and at most 100 UTF-16 units, a non-negative income, a regime of `old`/`new`, non-negative deductions and the three non-negative computed numbers are all there |
| TaxRecordModel.NoFieldErrors | backend/models/TaxRecord.js:3-45 | a document has no field error exactly when every field meets its constraints |
| TaxRecordModel.ValidateProducesValidRecord | backend/models/TaxRecord.js:3-56 | a saved record meets every constraint and holds the draft's values, with the name trimmed, regime `new`, deductions 0 and empty details by default, and the given id and creation time |
| TaxRecordModel.ValidateRejectsUnknownRegime | backend/models/TaxRecord.js:20-25 | a regime outside `old`/`new` fails the save: the empty string with "Tax regime must be specified", anything else with the enum message |
| TaxRecordModel.ValidRecordRoundTrip | backend/models/TaxRecord.js:3-56 | a valid record validates again to itself |
| TaxRoutes.Select | backend/routes/taxRoutes.js:94-100 | the query selects exactly the stored records of the caller that match the name and regime filters |
| TaxRoutes.SkipOf | backend/routes/taxRoutes.js:98 | the skip `(page - 1) * limit`: `HistoryRejectsExactly` states it is negative, failing the query, exactly when the page is below 1 (positive limit); `HistoryPageWindow` that a page starts after it |
| TaxRoutes.InsertByDate | backend/routes/taxRoutes.js:101 | inserting into a newest-first list keeps it newest first and adds one record |
| TaxRoutes.SortByDateDesc | backend/routes/taxRoutes.js:101 | `sort({ date: -1 })` orders newest first and is a permutation of its input |
| TaxRoutes.InsertPermutes | backend/routes/taxRoutes.js:101 | insertion adds exactly the inserted record |
| TaxRoutes.BadRequest.Message | backend/routes/taxRoutes.js:13-29 | the `error` text of each 400 response: `BadRequestMessagesDistinct` states the three texts are non-empty and distinct |
| TaxRoutes.PageCount | backend/routes/taxRoutes.js:103 | `limit` never returns more records than are left after the skip |
| TaxRoutes.TotalPages | backend/routes/taxRoutes.js:113 | `Math.ceil(total / limit)`, absent for limit 0: `TotalPagesBounds` states it is the least page count holding every match |
| TaxRoutes.History | backend/routes/taxRoutes.js:90-126 | `GET /history`: `HistoryRejectsExactly`, `HistoryPageWindow`, `HistoryPageSize`, `HistorySorted`, `HistoryOnlyOwnRecords`, `HistoryPagesPartition` and `HistoryIgnoresOthers` state its failure case, its window, order, contents, paging and isolation |
| TaxRoutes.OwnedBy | backend/routes/taxRoutes.js:133 | `$match: { user }` keeps exactly the caller's records |
| TaxRoutes.WithRegime | backend/routes/taxRoutes.js:153 | a regime group holds exactly the caller's records of that regime |
| TaxRoutes.RegimesOf | backend/routes/taxRoutes.js:153 | the group keys are distinct and are exactly the regimes the caller's records carry |
| TaxRoutes.OverallOf | backend/routes/taxRoutes.js:136-143 | the overall group counts the records, sums income and tax, and its averages times the count give the sums of income and of rate |
| TaxRoutes.StatsOf | backend/routes/taxRoutes.js:129-175 | `GET /stats`: `StatsEmptyExactly`, `StatsOverallNonNegative`, `StatsGroupsTotal`, `StatsGroupsDistinct`, `StatsGroupsCover` and `StatsIgnoresOthers` state when `overall` is empty, that its aggregates are not negative, that the regime groups partition the caller's records, and isolation |
| TaxRoutes.FindOwned | backend/routes/taxRoutes.js:180-183 | the delete finds a record with the id that belongs to the caller, or reports that there is none |
| TaxRoutes.DeleteOwned | backend/routes/taxRoutes.js:180-183 | `findOneAndDelete` on the id and the caller: `DeleteOwnedSpec`, `DeleteRemovesRecord`, `DeleteForeignIsNotFound` and `DeleteIsolation` state that it removes exactly the found record or nothing, never another user's |
| TaxRoutes.Compute | backend/routes/taxRoutes.js:10-48 | the request checks and the regime dispatch: `CalculateRejectsExactly` states which requests get which 400, `CalculateDispatch` how an accepted one is taxed, `UnknownRegimeComputedAsOld` that any regime but `new` is computed as `old` |
| TaxRoutes.CalculateOutcome | backend/routes/taxRoutes.js:8-87 | the whole `/calculate` answer: `CalculateSavesExactly` states when a record is stored (201), `CreatedRecord` what it holds, `UnknownRegimeNotSaved` the 500 for an unknown regime |
| TaxRoutesProperties.CalculateRejectsExactly | backend/routes/taxRoutes.js:10-29 | a request is rejected for a missing name or zero/missing income exactly when one is missing, then for a negative income, then for negative deductions (default 0), and accepted exactly when none applies |
| TaxRoutesProperties.CalculateDispatch | backend/routes/taxRoutes.js:31-48 | an accepted request is taxed on `max(0, income - deductions)`, between 0 and the income; regime `new` (the default) uses the new schedule without cess, any other the old schedule with standard deduction and cess; the amount is not negative and the rate is between 0 and 31.2 |
| TaxRoutesProperties.CalculateSavesExactly | backend/routes/taxRoutes.js:51-65 | a record is stored (201) exactly when the request is accepted, its regime is `old` or `new`, and its trimmed name is non-empty and at most 100 UTF-16 units |
| TaxRoutesProperties.CreatedRecord | backend/routes/taxRoutes.js:51-78 | a stored record is valid, belongs to the caller, has the new id and time, and holds the computed values with the name trimmed; the response data is the computation |
| TaxRoutesProperties.UnknownRegimeComputedAsOld | backend/routes/taxRoutes.js:36-48 | any regime other than `new` is computed exactly as `old` |
| TaxRoutesProperties.UnknownRegimeNotSaved | backend/routes/taxRoutes.js:51-86 | such a request then fails the save with the schema's required or enum error, and nothing is stored |
| TaxRoutesProperties.BadRequestMessagesDistinct | backend/routes/taxRoutes.js:13-29 | the three 400 `error` texts are non-empty and pairwise distinct |
| TaxRoutesProperties.HistoryRejectsExactly | backend/routes/taxRoutes.js:98-103 | with a positive limit, the query fails exactly when the page is below 1 (a negative skip) |
| TaxRoutesProperties.MatchingExactly | backend/routes/taxRoutes.js:94-101 | the sorted matches are newest first, a permutation of the selected records, and hold exactly the caller's matching records |
| TaxRoutesProperties.SelectCounts | backend/routes/taxRoutes.js:94-100 | the query keeps each matching stored record exactly as often as the store holds it, and no other record |
| TaxRoutesProperties.MatchingCounts | backend/routes/taxRoutes.js:100-106 | the sorted matches, whose length is `totalRecords` (`countDocuments`), hold each matching stored record exactly as often as stored, and no other |
| TaxRoutesProperties.HistoryPageWindow | backend/routes/taxRoutes.js:98-116 | a page is the window of the sorted matches after `(page - 1) * limit` of them, of `limit` records or what is left; `totalRecords` counts every match and `currentPage` is the page asked for |
| TaxRoutesProperties.HistoryPageSize | backend/routes/taxRoutes.js:103 | with a positive limit a page holds at most `limit` records |
| TaxRoutesProperties.HistorySorted | backend/routes/taxRoutes.js:101 | a page is newest first |
| TaxRoutesProperties.HistoryOnlyOwnRecords | backend/routes/taxRoutes.js:94-100 | every record on a page is a stored record of the caller that matches the filters |
| TaxRoutesProperties.HistoryPagesPartition | backend/routes/taxRoutes.js:98-103 | consecutive pages cut the sorted matches into consecutive pieces: match `k` is entry `k % limit` of page `k / limit + 1` |
| TaxRoutesProperties.TotalPagesBounds | backend/routes/taxRoutes.js:113 | with a positive limit, `totalPages` is the least page count that holds every match: `(totalPages - 1) * limit < total <= totalPages * limit` |
| TaxRoutesProperties.SelectOfOwned | backend/routes/taxRoutes.js:94 | the history query sees only the caller's records |
| TaxRoutesProperties.HistoryIgnoresOthers | backend/routes/taxRoutes.js:94 | `/history` does not depend on other users' records |
| TaxRoutesProperties.StatsIgnoresOthers | backend/routes/taxRoutes.js:131-158 | `/stats` does not depend on other users' records |
| TaxRoutesProperties.StatsEmptyExactly | backend/routes/taxRoutes.js:163-164 | `overall` is the empty object exactly when the caller has no records, and then `byRegime` is empty |
| TaxRoutesProperties.TotalIncomeNonNegative | backend/routes/taxRoutes.js:139 | the income of valid records sums to a non-negative total |
| TaxRoutesProperties.TotalTaxAmountNonNegative | backend/routes/taxRoutes.js:140 | the tax of valid records sums to a non-negative total |
| TaxRoutesProperties.TotalRateNonNegative | backend/routes/taxRoutes.js:141 | the rates of valid records sum to a non-negative total |
| TaxRoutesProperties.StatsOverallNonNegative | backend/routes/taxRoutes.js:136-143 | over valid records, the overall totals and averages are never negative |
| TaxRoutesProperties.OwnedValid | backend/routes/taxRoutes.js:133 | the caller's records of a valid store are valid |
| TaxRoutesProperties.WithRegimeAbsent | backend/routes/taxRoutes.js:153 | a regime no record carries has an empty group |
| TaxRoutesProperties.WithRegimeSnoc | backend/routes/taxRoutes.js:153 | a group grows by a new record exactly when the record carries that regime |
| TaxRoutesProperties.CountInSnoc | backend/routes/taxRoutes.js:153-154 | adding a record adds one to the records counted under distinct regimes exactly when its regime is among them |
| TaxRoutesProperties.RegimesPartition | backend/routes/taxRoutes.js:153-154 | the regime groups together count every record once |
| TaxRoutesProperties.GroupTotalIsCount | backend/routes/taxRoutes.js:154 | the groups' `count`s add up to the number of records under their regimes |
| TaxRoutesProperties.StatsGroupsTotal | backend/routes/taxRoutes.js:147-158 | the `byRegime` counts add up to the caller's number of records |
| TaxRoutesProperties.StatsGroupsDistinct | backend/routes/taxRoutes.js:153-154 | no regime has two groups and every group counts at least one record |
| TaxRoutesProperties.StatsGroupsCover | backend/routes/taxRoutes.js:153 | every regime the caller used has a group |
| TaxRoutesProperties.OwnedByConcat | backend/routes/taxRoutes.js:133 | selecting the caller's records distributes over concatenation |
| TaxRoutesProperties.OwnedByCounts | backend/routes/taxRoutes.js:133 | `$match: { user }` keeps each of the caller's stored records exactly as often as stored, and no other record |
| TaxRoutesProperties.StatsTotalRecords | backend/routes/taxRoutes.js:131-145 | the overall `totalRecords` (`$sum: 1`) is the number of the caller's records, each stored record of the caller counted as often as stored |
| TaxRoutesProperties.AppendIsolation | backend/routes/taxRoutes.js:51-63 | saving a record of one user leaves every other user's records unchanged |
| TaxRoutesProperties.DeleteOwnedSpec | backend/routes/taxRoutes.js:180-187 | a delete that finds nothing changes nothing; one that finds a record removes exactly that record |
| TaxRoutesProperties.DeleteForeignIsNotFound | backend/routes/taxRoutes.js:180-186 | a record with the id that belongs to someone else is not found (404) and not deleted |
| TaxRoutesProperties.DeleteIsolation | backend/routes/taxRoutes.js:180-183 | a delete never changes another user's records |
| TaxRoutesProperties.DeleteRemovesRecord | backend/routes/taxRoutes.js:180-187 | after a successful delete no record has the id, every other record remains, and ids stay distinct |
| RecordStore.AppendKeepsInvariant | backend/routes/taxRoutes.js:63 | saving a valid record under the next id keeps the store invariant |
| RecordStore.StoreInvariant | backend/models/TaxRecord.js:3-56 | every stored record passed the schema, ids are distinct and below the counter: `AppendKeepsInvariant` and the `TaxRecordStore` methods, whose `ensures` include `Valid()`, keep it |
| RecordStore.TaxRecordStore.constructor | backend/models/TaxRecord.js:75 | a new collection is empty and satisfies the invariant |
| RecordStore.TaxRecordStore.Calculate | backend/routes/taxRoutes.js:8-87 | `POST /calculate` answers as the calculation function says, stores the record only when it answers 201, uses up an id whenever a document is built, keeps the invariant and leaves other users' records alone |
| RecordStore.TaxRecordStore.Append | backend/routes/taxRoutes.js:63 | a successful save appends the record under the next id and keeps the invariant |
| RecordStore.TaxRecordStore.SkipId | backend/routes/taxRoutes.js:51-63 | a failed save stores nothing but uses up its id |
| RecordStore.TaxRecordStore.GetHistory | backend/routes/taxRoutes.js:90-126 | `GET /history` answers the history function of the stored records |
| RecordStore.TaxRecordStore.GetStats | backend/routes/taxRoutes.js:129-175 | `GET /stats` answers the statistics function of the stored records |
| RecordStore.TaxRecordStore.Delete | backend/routes/taxRoutes.js:178-201 | `DELETE /:id` reports whether a record of the caller had the id, removes exactly that record, keeps the invariant and the id counter, and leaves other users' records alone |

## Left out

- HTTP, Express routing, JSON encoding and the `auth` middleware are left out. The authenticated user's id is a parameter of each handler, and `backend/middleware/auth.js` is not part of this model.
- 500 responses caused by a database or network failure are left out, because the store is in memory. The 500 caused by a failed validation is modelled as `SaveFailed`.
- IEEE-754 floating point is not modelled: arithmetic is exact over `real`. For example, `(x - 300000) * 0.05` is computed exactly.
- JavaScript's coercions of non-numeric request fields are not modelled. This includes comparing a string `income` with `0`, and `parseInt` of a non-numeric `limit` or `page`. `income` and `deductions` are numbers or absent, and `limit` and `page` are integers or absent.
- The `$regex` match of the `userName` filter is an abstract parameter, because regular-expression semantics are out of scope.
- The `timestamps` fields (`createdAt`, `updatedAt`), the `__v` version key, and the `select('-__v')` projection are left out. None of them bears on any computed value.
- The two indexes and the `formattedDate` virtual are left out, because they affect performance and display only.
- A `userName` of a type other than string is not modelled: Mongoose would cast it.
- The id allocator is a counter. MongoDB `ObjectId` generation, and the 500 caused by a malformed `:id`, are not modelled.
- Concurrency between requests is not modelled: each handler runs atomically on the store.
- TaxRoutes.SortByDateDesc: orders records with equal `date` by the model's own rule, because MongoDB leaves their order unspecified.
- TaxRoutes.RegimesOf: lists groups in order of first appearance, because MongoDB leaves the order of `$group` output unspecified.
- Error logging to the console in the catch blocks (taxRoutes.js:81, 120, 169, 195) is left out, as output with no effect on the response.
- The frontend, the user and auth routes, and the other models are outside this core.
