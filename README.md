# Finance tracker core, modelled in Dafny

This project models the computing core of a personal finance tracker written in
TypeScript and React. The tracker keeps five things:

- assets: cash, stocks, funds, crypto, real estate and other holdings, and debts;
- transactions: income and expense records;
- recurring items: fixed monthly or yearly income and expenses;
- portfolio history: one snapshot per day of the totals;
- budgets per expense category.

The model covers the following:

- **Loan balance** (`Finance`, finance.dfy). Computes a loan's remaining principal: an interest-only grace period, then annuity (or linear) repayment, then zero. The copy of the same routine in the application shell is modelled too.
- **The application store** (`Store`, app.dfy). Modelled as a class with:
  - the debt-balance sync on load;
  - the automatic posting of due recurring items against an execution log keyed by month;
  - the daily portfolio snapshot with its 365-entry history;
  - the add, update and delete handlers.
- **The views' derived data.**
  - Budget (`BudgetView`): this month's spend per category, tracked spend against limits, the status colour, the five largest recent expenses, the simulator context, setting a budget and applying suggestions.
  - Recurring (`RecurringView`): the monthly stats card, the executed and overdue markers, category inference from the name, and the add form.
  - Transactions (`TransactionsView`): the time-range bounds, filtering and sorting, totals, per-category and per-day accumulation, the daily trend and the expense structure.
  - Assets (`AssetsView`): the net-worth trend from history, totals, allocation by type, the filter tabs and form submission.
  - The asset form (`AssetForm`): currency conversion and the loan preview.
- **The figures prepared for the AI service** (`GeminiPrep`, gemini.dfy):
  - the income estimate;
  - the report totals and the debt and asset details;
  - extraction of a JSON payload from a fenced reply;
  - merging dividend data into stock positions;
  - the three-month category averages behind budget suggestions.

Supporting modules:

- `Text`: digits, padding, lower-casing and substring search.
- `Dates`: the proleptic Gregorian calendar, day numbers, `YYYY-MM-DD` formatting and parsing.
- `Records`: the stored entities and JavaScript's `||` defaults.
- `Seqs`: filter, sum, sort, take and keyed sums over sequences.

Modelling conventions:

- Money is a `real`.
- `Math.round` is `Finance.Round`: floor of x + 0.5.
- Date strings are read by `Dates.ParseDate`, which accepts only the `YYYY-MM-DD` form the app writes. Any other string is `None`, which stands for Invalid Date. Other forms the JavaScript engine would read as dates are covered under "Left out".
- The current date, `Date.now()` and `crypto.randomUUID()` are parameters.
- A record's optional field is an `Option`.
- `Map` insertion order, and `Object.keys` order for keys that are not integer-like, is the first-appearance order of the keys (`Seqs.KeysOf`). The date keys the model builds are never integer-like. Category keys can be; see "Left out".

## Model

| member | source | states |
|---|---|---|
| Finance.Round | services/finance.ts:55 | `Math.round` lands within half a unit of its argument (x − 0.5 < r ≤ x + 0.5) |
| Finance.PhaseBoundaries | services/finance.ts:24-48 | before the start date and during the grace period the balance is the whole principal; once the term has elapsed it is 0 |
| Finance.BalanceBounds | services/finance.ts:24-55 | for a non-negative whole-unit principal the remaining balance lies between 0 and the principal in every phase and month |
| Finance.BalanceNonIncreasing | services/finance.ts:24-55 | as months pass the remaining balance never goes up, across the grace, repayment and paid-off phases |
| Finance.LinearBranchUnreachable | services/finance.ts:45-47 | the zero-rate linear branch is never taken, because an unset or zero rate falls back to 2 % |
| Finance.PassThrough | services/finance.ts:11-13 | anything that is not a debt with a start date and a truthy principal returns `amount`, or 0 when it is missing or 0 |
| Finance.StartDayIgnored | services/finance.ts:21-24 | only the year and month of the start date matter: changing its day leaves the balance unchanged |
| Finance.AppCopyAgrees | App.tsx:18-61 | the shell's copy of the loan routine computes the same balance as the service's |
| Finance.LoanBalanceBounds | services/finance.ts:10-56 | an amortizing loan's balance lies between 0 and its original principal |
| Finance.LoanBalanceNonIncreasing | services/finance.ts:10-56 | for the same loan, a later month never shows a larger balance |
| Finance.OwedShareBounds | services/finance.ts:50-54 | during repayment the annuity share still owed lies strictly between 0 and 1 |
| Finance.OwedShareMonotone | services/finance.ts:50-54 | the annuity share still owed does not grow with the number of payments made |
| Finance.AnnuityWithin | services/finance.ts:50-55 | the rounded annuity balance of a whole principal lies between 0 and the principal |
| Finance.AnnuityNonIncreasing | services/finance.ts:50-55 | the rounded annuity balance does not grow with the number of payments made |
| Finance.LinearWithin | services/finance.ts:45-47 | the linear balance lies between 0 and the principal |
| Finance.LinearNonIncreasing | services/finance.ts:45-47 | the linear balance does not grow with the number of payments made |
| Finance.AnnuityShare | services/finance.ts:50-55 | the annuity formula is the principal times the owed share, rounded |
| Finance.AmountIsShare | services/finance.ts:53 | principal × (factorN − factorP)/(factorN − 1) is the principal times the share |
| Finance.RoundMonotone | services/finance.ts:55 | rounding preserves order |
| Finance.RoundWithin | services/finance.ts:55 | rounding a value between 0 and a whole number stays between them |
| Store.SyncSettles | App.tsx:98-107 | a synced debt keeps its recomputed balance and needs no further sync |
| Store.SyncChanges | App.tsx:98-107 | exactly the debts off by more than 10 change, only in amount (to the recomputed balance) and lastUpdated; length and order are kept |
| Store.SyncCountZero | App.tsx:97-109 | the update count is 0 exactly when the mapped list equals the original |
| Store.SyncIdempotent | App.tsx:94-116 | re-running the sync on its own output on the same day rewrites nothing |
| Store.PostPlanTransactions | App.tsx:132-168 | each posted transaction is the one for some due item, and at most one is posted per item |
| Store.PostStepLog | App.tsx:133-165 | one step only appends to the item's own log, and a due item ends logged with the month key |
| Store.PostPlanLogGrows | App.tsx:132-168 | over the pass, log entries are never removed |
| Store.PostPlanLogOthers | App.tsx:132-168 | the log of an id that no item carries is untouched |
| Store.PostPlanLogCovers | App.tsx:132-168 | every due item ends the pass with the current month key in its log |
| Store.PostPlanNoop | App.tsx:132-168 | when every item is already logged or not due, nothing is posted and the log is unchanged |
| Store.RerunPostsNothing | App.tsx:119-184 | a second pass in the same month, over the log the first one wrote, posts nothing |
| Store.PostPlanExactlyDue | App.tsx:132-168 | with distinct ids, whatever this month's log already holds, the posted transactions are exactly those of the items that are due and not yet logged when the pass starts, in item order |
| Store.YearlyPostedAgain | App.tsx:126-165 | as written, a posted YEARLY item is posted again, with the same date, in every later month of the same year |
| Store.CorrectedPostStep | App.tsx:132-168 | with the log keyed by the posted month: skipped when that key is logged or the item is not due, otherwise posts the transaction and logs the key |
| Store.CorrectedMonthlyAgrees | App.tsx:139-143 | for MONTHLY items the corrected step is the step as written |
| Store.CorrectedYearlyOncePerYear | App.tsx:144-149 | with the corrected key, a YEARLY item that was posted is not posted again in the same year |
| Store.MonthlyDay31Missed | App.tsx:139-143 | a MONTHLY item on day 31 is never due, and never posted, in a shorter month |
| Store.PostedDateParses | App.tsx:142-148 | the posted date string parses back to the target year, month and day |
| Store.PostItem | App.tsx:133-167 | one loop iteration is one posting step; it reports whether it posted |
| Store.PostPlanSnoc | App.tsx:132-168 | the pass over one more item is one more step |
| Store.PostPass | App.tsx:128-168 | the loop yields the planned transactions and log, and the count of posted transactions |
| Store.TypeTotalsSum | App.tsx:209-217 | the per-type totals of the non-debt types add up to total assets, and the DEBT total is total liabilities |
| Store.TypeTotalAbsent | App.tsx:216 | a type with no asset has total 0 |
| Store.DistValueIsTypeTotal | App.tsx:216 | reading a type from the distribution, absent as 0, gives that type's total |
| Store.DistributionTotal | App.tsx:209-224 | the distribution's values add up to assets plus liabilities, and its DEBT entry is the liabilities |
| Store.DistributionStep | App.tsx:216 | one loop step adds the asset's amount to its type's entry, creating it at 0 |
| Store.WithoutDate | App.tsx:229 | filtering by date never lengthens the history |
| Store.CountDateWithout | App.tsx:229 | after the filter the date has no entry and other dates keep their count |
| Store.CountDateAppend | App.tsx:231 | appending adds one to the count of the appended date only |
| Store.HistoryUpdate | App.tsx:227-232 | the new snapshot is last and its date's only entry; other dates lose entries only through eviction; the oldest is dropped exactly when there would be more than 365 |
| Store.HistoryDatesUnique | App.tsx:227-232 | when no date occurs twice before the update, none does after it |
| Store.SnapshotOncePerDay | App.tsx:187-198 | right after a snapshot, the same-day check takes no further snapshot |
| Store.ReplaceByIdPresent | App.tsx:244-248 | the updated asset is in the list afterwards exactly when some asset carried its id |
| Store.ReplaceThenRemove | App.tsx:244-254 | an update touches only assets with that id: deleting the id afterwards gives the same list as deleting it before |
| Store.StockSyncSetsValue | App.tsx:256-281 | afterwards the first STOCK asset holds the new value, whether it was updated or created |
| Store.FinanceStore.constructor | App.tsx:78-90 | the store holds the lists as loaded |
| Store.FinanceStore.SyncDebts | App.tsx:94-116 | the count is the number of debts needing a sync; the assets become the synced list only when it is positive; nothing else changes |
| Store.FinanceStore.PostRecurring | App.tsx:119-184 | appends the planned transactions and, when any were posted, installs the new log; nothing else changes |
| Store.FinanceStore.SnapshotTotals | App.tsx:205-217 | the loop computes total assets, total liabilities and the per-type distribution |
| Store.FinanceStore.TakeSnapshot | App.tsx:204-235 | the history becomes the updated history with today's snapshot of the assets |
| Store.FinanceStore.CheckAndTakeSnapshot | App.tsx:187-198 | the history is unchanged when there are no assets or today already ends it, and is otherwise updated |
| Store.FinanceStore.AddAsset | App.tsx:238-242 | appends the asset |
| Store.FinanceStore.UpdateAsset | App.tsx:244-248 | replaces the assets carrying the id |
| Store.FinanceStore.DeleteAsset | App.tsx:250-254 | removes the assets carrying the id |
| Store.FinanceStore.UpdateStockAssetValue | App.tsx:256-281 | updates the first STOCK asset or appends a new one |
| Store.FinanceStore.AddTransaction | App.tsx:284-292 | appends the transaction |
| Store.FinanceStore.BulkAddTransactions | App.tsx:294-300 | appends the transactions in order |
| Store.FinanceStore.DeleteTransaction | App.tsx:302-306 | removes the transactions carrying the id |
| Store.FinanceStore.AddRecurring | App.tsx:309-313 | appends the recurring item |
| Store.FinanceStore.DeleteRecurring | App.tsx:318-322 | removes the recurring items carrying the id |
| Store.FinanceStore.AddStockSnapshot | App.tsx:325-329 | appends the stock snapshot |
| Store.FinanceStore.UpdateBudgets | App.tsx:332-337 | replaces the budgets |
| Dates.IsoDateRoundTrip | App.tsx:126 | the `YYYY-MM-DD` key parses back to the date, and its first seven characters are the `YYYY-MM` month key |
| Dates.MonthKeyDistinct | App.tsx:126 | different months of one year have different month keys |
| BudgetView.MonthExpenses | views/Budget.tsx:44-48 | keeps exactly the input's expenses dated this month up to today |
| BudgetView.MonthExpenseMeaning | views/Budget.tsx:44-48 | for a well-formed date, the window is this month's days up to today's day |
| BudgetView.CategoryTotalAbsent | views/Budget.tsx:50-52 | a category with no transaction totals 0 |
| BudgetView.CategoriesStep | views/Budget.tsx:50-52 | one more transaction adds its category to the key set |
| BudgetView.CategoryTotalStep | views/Budget.tsx:51 | one more transaction adds its amount to its category's total only |
| BudgetView.SpendByCategory | views/Budget.tsx:50-52 | the map's keys are the categories seen, and each reads as its category's total |
| BudgetView.CategorySpend | views/Budget.tsx:44-52 | the same, over this month's expenses |
| BudgetView.BudgetTotals | views/Budget.tsx:56-64 | the loop computes the tracked spend and the total of the positive limits |
| BudgetView.TrackedIgnoresUntracked | views/Budget.tsx:59-64 | spend in categories without a positive limit does not affect tracked spend |
| BudgetView.TrackedWithinLimit | views/Budget.tsx:56-64 | the total limit is not negative, and when no tracked category overspends, tracked spend stays within it |
| BudgetView.StatusThresholds | views/Budget.tsx:165-167 | emerald up to 80 %, amber above 80 up to 100 %, red above 100 %, in both directions |
| BudgetView.PercentFacts | views/Budget.tsx:164 | no limit gives 0 %; spend within a positive limit gives at most 100 % |
| BudgetView.LargeCandidates | views/Budget.tsx:71-77 | keeps exactly the recent non-investment, non-auto-posted expenses |
| BudgetView.LargeExpensesFacts | views/Budget.tsx:69-79 | the first five candidates (all when fewer), drawn from the candidates as a sub-multiset, largest first, and no candidate left out is larger than one kept |
| BudgetView.TopFiveByAmount | views/Budget.tsx:69-79 | the sort by amount descending cut to five keeps min(n, 5) entries drawn from the list, largest first, none smaller than an entry left out |
| BudgetView.NetWorthAgrees | views/Budget.tsx:91 | the simulator's net worth equals the snapshot's non-debt total minus debt total |
| BudgetView.MonthlySumSplit | views/Budget.tsx:85-88 | income and fixed expenses together count every recurring item's monthly equivalent once |
| BudgetView.CountCategoryZero | views/Budget.tsx:106 | a list without the category counts it 0 times |
| BudgetView.RemovedCategoryCount | views/Budget.tsx:106 | after the filter the category has no entry |
| BudgetView.ApplySuggestionFacts | views/Budget.tsx:136-140 | the suggestion is last and its category's only entry; the other entries stay, in order |
| BudgetView.SetBudgetFacts | views/Budget.tsx:102-112 | a positive limit leaves one entry (the new one, last) for the category, a non-positive one none; other entries stay, in order |
| BudgetView.FindCategory | views/Budget.tsx:145 | the index found is the first that holds the category, and no index holds it when none is found |
| BudgetView.ApplyAllSuggestions | views/Budget.tsx:142-151 | the loop applies the suggestions in order, overwriting the first entry of the category or appending |
| BudgetView.ApplyOneFacts | views/Budget.tsx:145-147 | one suggestion keeps every position's category, changes only its own category's entry, appends only for a new category, and is present afterwards |
| BudgetView.ApplyOneUnique | views/Budget.tsx:145-147 | one suggestion keeps categories unique |
| BudgetView.ApplyAllKeepsPositions | views/Budget.tsx:142-151 | existing positions keep their category, and nothing is removed |
| BudgetView.ApplyAllUntouched | views/Budget.tsx:142-151 | entries of categories never suggested are untouched |
| BudgetView.ApplyAllAppended | views/Budget.tsx:142-151 | entries past the original ones are suggestions whose category was not there before |
| BudgetView.NewCategories | views/Budget.tsx:142-151 | the categories the loop appends: distinct, absent from the existing entries, each taken from some suggestion |
| BudgetView.ApplyAllAppendedOrder | views/Budget.tsx:142-151 | the appended tail has one entry per new category, in the order the categories first appear among the suggestions |
| BudgetView.AppendedOrderStep | views/Budget.tsx:143-149 | one suggestion extends the appended tail exactly when its category is neither an existing entry's nor already appended |
| BudgetView.ApplyAllLastPresent | views/Budget.tsx:142-151 | the last suggestion of each category ends up in the list |
| BudgetView.ApplyAllUnique | views/Budget.tsx:142-151 | unique categories stay unique after all suggestions |
| RecurringView.ComputeStats | views/Recurring.tsx:49-63 | the loop computes income and expense as sums of monthly amounts, the balance and the savings rate |
| RecurringView.StatsCoverEveryItem | views/Recurring.tsx:52-56 | every item counts exactly once, on one side |
| RecurringView.YearlyShareWithin | views/Recurring.tsx:53 | a yearly amount counts within half a unit of a twelfth |
| RecurringView.StatsAgreeWithBudgetContext | views/Recurring.tsx:49-56 | with monthly items only, the card's income and expense equal the budget simulator's |
| RecurringView.SavingsRateFacts | views/Recurring.tsx:61 | no income gives 0 %; with income, the rate is at most 100 % iff expense ≥ 0 and at least 0 iff expense ≤ income |
| RecurringView.YearlyDueInMonth | views/Recurring.tsx:205 | in its own month, a yearly item is due for posting exactly from its day on |
| RecurringView.PostingClearsMonthlyOverdue | views/Recurring.tsx:211 | after the posting pass, no MONTHLY item shows as overdue |
| RecurringView.YearlyOverdueOutsideItsMonth | views/Recurring.tsx:205-211 | an unposted YEARLY item outside its month still shows as overdue from its day on |
| RecurringView.KeywordIndex | views/Recurring.tsx:86-91 | the index found is the first keyword that occurs in the name; none means no keyword occurs |
| RecurringView.ScanKeywords | views/Recurring.tsx:86-91 | the loop with `break` finds that first keyword |
| RecurringView.HandleNameBlur | views/Recurring.tsx:83-93 | the category becomes the first matching keyword's category, or stays as it was |
| RecurringView.InferCategoryFacts | views/Recurring.tsx:23-32 | the result is the old category or a keyword's category, and it changes only when a keyword occurs in the lower-cased name |
| RecurringView.NetflixIsEntertainment | views/Recurring.tsx:24 | an illustration only: "Netflix" is filed under entertainment (the general statement is `RecurringView.InferCategoryFacts`) |
| RecurringView.SubmitRecurring | views/Recurring.tsx:95-106 | an item is added exactly when the name and amount are truthy, with the typed name, amount and type; the typed category or "Other" when empty; the typed day or 1; the chosen frequency or MONTHLY; and the typed month or 1 exactly for YEARLY items |
| RecurringView.SubmittedYearlyTargetMonth | views/Recurring.tsx:105 | a submitted YEARLY item is posted in the form's month, or January |
| TransactionsView.IsoWeekday | views/Transactions.tsx:45 | the weekday is 1 to 7, Monday first |
| TransactionsView.ThisWeekFacts | views/Transactions.tsx:44-50 | the week runs from a Monday to the Sunday after it and contains today |
| TransactionsView.ThisMonthFacts | views/Transactions.tsx:51-54 | for a well-formed date, the month tab keeps exactly the days of the current month |
| TransactionsView.OtherRangeFacts | views/Transactions.tsx:55-63 | the 90-day tab runs from 90 days ago to today; an empty custom range is this month up to today |
| TransactionsView.ProcessedFacts | views/Transactions.tsx:70-80 | the kept list holds exactly the kept transactions, as often as in the input, newest first |
| TransactionsView.CatMapStep | views/Transactions.tsx:88-92 | one step adds an expense's amount to its category and appends a new category key |
| TransactionsView.DailyMapStep | views/Transactions.tsx:95-97 | one step adds the amount to its date's income or expense and appends a new date key |
| TransactionsView.TotalsStep | views/Transactions.tsx:88-90 | one step adds the amount to the income or expense total |
| TransactionsView.AddToCategories | views/Transactions.tsx:88-92 | the first half of the loop body advances the totals and the category map by one transaction |
| TransactionsView.AddToDays | views/Transactions.tsx:95-97 | the second half advances the daily map by one transaction |
| TransactionsView.Accumulate | views/Transactions.tsx:82-98 | the loop computes the income, expense and balance, the category map and the daily map, keys in first-appearance order |
| TransactionsView.TotalsSplit | views/Transactions.tsx:88-90 | income and expense split every amount between them |
| TransactionsView.TrendPoints | views/Transactions.tsx:101-105 | one point per date |
| TransactionsView.TrendPointsAt | views/Transactions.tsx:101-105 | each point holds its date's "MM-DD" suffix and the date's totals |
| TransactionsView.TrendDatesFacts | views/Transactions.tsx:101 | the dates are ascending without repeats, every transaction's date is among them, and each is some transaction's date |
| TransactionsView.DailyTrendPoints | views/Transactions.tsx:101-105 | the trend has one point per date, holding its suffix and its income and expense totals |
| TransactionsView.DistinctPermutation | views/Transactions.tsx:101 | sorting keys that have no repeats leaves them without repeats |
| TransactionsView.Slices | views/Transactions.tsx:108-111 | one slice per category |
| TransactionsView.SlicesSum | views/Transactions.tsx:108-111 | the slices' values add up to the per-category totals |
| TransactionsView.ExpenseStructureFacts | views/Transactions.tsx:108-112 | the structure is sorted largest first, and its values add up to the expense total |
| TransactionsView.SlicePercent | views/Transactions.tsx:111 | each slice's percent is its share of the expense total, or 0 when there is no expense |
| AssetsView.BuildRows | views/Assets.tsx:36-57 | the loop computes the rows keyed by date, in first-appearance order, with the latest snapshot of a date winning |
| AssetsView.BuildTrend | views/Assets.tsx:34-79 | the trend is the sorted, windowed and padded rows |
| AssetsView.RowsDomain | views/Assets.tsx:50-56 | the map's keys are exactly the dates seen, and each row's full date is its key |
| AssetsView.LatestSnapshotWins | views/Assets.tsx:50-56 | the row for a date comes from the last snapshot with that date |
| AssetsView.ValuesInKeyOrder | views/Assets.tsx:59 | the values come out in key order, one per key |
| AssetsView.TrendRowsFacts | views/Assets.tsx:36-59 | one row per distinct date, in first-appearance order, each the row of its date, and every snapshot's date present |
| AssetsView.WindowFacts | views/Assets.tsx:59-61 | the window keeps the latest 180 rows (all when fewer), sorted by date, and no dropped row is later than a kept one |
| AssetsView.WindowAscending | views/Assets.tsx:60 | dated rows in the window are in ascending date order |
| AssetsView.PadFacts | views/Assets.tsx:63-77 | a single row gets a zero row for the previous day in front of it; any other count is left as it is |
| AssetsView.SnapshotRow | views/Assets.tsx:39-56 | a row made from a recorded snapshot shows its rounded assets, debt and net worth |
| AssetsView.TotalAssetsAgree | views/Assets.tsx:82 | the view's total equals the snapshot's total assets |
| AssetsView.AllSlicesIncreasing | views/Assets.tsx:84 | the types come in declaration order |
| AssetsView.TypeValueIsTotal | views/Assets.tsx:86-88 | a non-debt type's value is its total |
| AssetsView.TypeSumAgree | views/Assets.tsx:86-88 | summing the filtered amounts equals the type total |
| AssetsView.DataByTypeFacts | views/Assets.tsx:84-90 | the chart lists, in type order, exactly the non-debt types with a positive total, each with that total |
| AssetsView.FilteredAssets | views/Assets.tsx:92-100 | keeps exactly the assets in the tab |
| AssetsView.TabsPartition | views/Assets.tsx:93-98 | every type is in the ALL tab and in exactly one of CASH, DEBT and INVEST; DEBT holds only debts |
| AssetsView.TabTotals | views/Assets.tsx:82-100 | the CASH and INVEST tabs add up to total assets, and the DEBT tab to total liabilities |
| AssetsView.SplitSum | views/Assets.tsx:93-98 | the CASH and INVEST sums together are the non-debt sum |
| AssetsView.SubmitAsset | views/Assets.tsx:122-151 | ignored exactly without a name or an original amount; an update exactly with an editing id; the defaults; rate and term passed through when non-zero; the amount rule for debts, TWD and foreign holdings (a foreign holding keeps its typed amount) |
| AssetsView.DebtSubmissionBounded | views/Assets.tsx:126-129 | a submitted debt's amount lies between 0 and its non-negative whole-unit principal |
| AssetForm.Converted | components/assets/AssetFormModal.tsx:36-39 | the converted amount is a whole number within half a unit of original × rate; a missing or zero rate counts as 1 |
| AssetForm.HandleAmountChange | components/assets/AssetFormModal.tsx:31-46 | sets the edited field; foreign currencies get the converted amount; in TWD an original-amount edit sets the amount except for debts; nothing else changes |
| AssetForm.CalculatedPreview | components/assets/AssetFormModal.tsx:48-50 | a preview exists exactly for a debt with a start date and a truthy principal |
| AssetForm.PreviewIsSubmitted | components/assets/AssetFormModal.tsx:48-50 | the preview is what submitting stores, and lies between 0 and the principal |
| GeminiPrep.MonthlyFixedIncome | services/gemini.ts:275-280 | the loop computes the income items' unrounded monthly sum |
| GeminiPrep.FixedIncomeNearStats | services/gemini.ts:275-280 | it differs from the recurring card's income by at most half a unit per yearly income item, and equals it without any |
| GeminiPrep.EstimatedIncome | services/gemini.ts:289 | the estimate is the largest of the three candidates |
| GeminiPrep.EstimateCases | services/gemini.ts:289 | for a non-negative average, the estimate is the average when it is at least twice the fixed income, and otherwise fixed + half the average |
| GeminiPrep.DebtDetailOf | services/gemini.ts:295-302 | a debt's detail keeps its name, amount and start date; a missing or zero term, rate or grace period becomes 20 years, 2 % or 0 years, and a non-zero one passes through |
| GeminiPrep.DebtStartDateRoundTrip | services/gemini.ts:298 | a debt's start date string parses back to the date |
| GeminiPrep.ReportTotals | services/gemini.ts:291-313 | the loops compute the liabilities as the debt total, the assets as each amount × (rate or 1), the net worth as their difference, and the details |
| GeminiPrep.DetailsCount | services/gemini.ts:291-311 | one debt detail per debt, and one detail of either kind per asset |
| GeminiPrep.DebtDetailsSum | services/gemini.ts:291-303 | the debt details add up to the liabilities |
| GeminiPrep.AssetDetailsSum | services/gemini.ts:305-311 | the asset details add up to the assets figure |
| GeminiPrep.ReportDoubleConverts | services/gemini.ts:305-311 | a USD holding stored as 3000 (100 at rate 30) counts as 90000 in the report |
| GeminiPrep.CorrectedReportAgrees | services/gemini.ts:305-313 | the corrected figures agree with the recorded snapshot's assets and net worth, and with the report as written when every rate is 1 |
| GeminiPrep.Fence | services/gemini.ts:183 | the lazy match: the first opening fence, then the first closing fence after it; none when no closing fence follows any opening one |
| GeminiPrep.CloseNotInside | services/gemini.ts:183 | a body without a closing fence hides none inside the fenced reply |
| GeminiPrep.ExtractJsonRoundTrip | services/gemini.ts:183-188 | a reply made of a JSON fence around a body yields exactly that body |
| GeminiPrep.UnfencedReplyParsedWhole | services/gemini.ts:192-198 | a reply without a fence is parsed whole |
| GeminiPrep.ParseDividends | services/gemini.ts:180-199 | the dividend list is the parse of the extracted payload, or empty when it fails |
| GeminiPrep.MergeFacts | services/gemini.ts:202-213 | each position keeps all but the three dividend fields, takes them from the first matching entry, and is unchanged without one |
| GeminiPrep.EmptyReplyKeepsPositions | services/gemini.ts:148-218 | no data, or a failed reply, leaves the positions as they were |
| GeminiPrep.RecentExpenses | services/gemini.ts:490-494 | keeps exactly the expenses of the last three months |
| GeminiPrep.RecentCategories | services/gemini.ts:489-494 | a category has a total exactly when some recent expense has it |
| GeminiPrep.MonthlyAverages | services/gemini.ts:497-500 | one average per category |
| GeminiPrep.AveragesOfTotals | services/gemini.ts:497-500 | each average is the category's total over three, rounded |
| GeminiPrep.BudgetAverages | services/gemini.ts:485-500 | the averages cover exactly the recently spent categories, each the rounded third of its total |

## Left out

- The generative-AI calls themselves: prompts, model calls, search tools and error handling. `JSON.parse` is a parameter of `GeminiPrep.ParseDividends`. The analyses, chat, voice input and receipt reading in services/gemini.ts are only prompt plumbing.
- Browser storage and the Google Drive backup. The store's lists stand for what storage holds, so `Store.FinanceStore.PostRecurring` appends to the in-memory transactions where the code re-reads them from storage.
- React effects, state setters, toasts and rendering. Each effect is a method the caller invokes; which dependency change triggers it is not modelled.
- IEEE floating point. Amounts are exact reals, so rounding errors in sums and in `Math.pow` are not modelled.
- Time zones and time of day. Dates are calendar days. A window anchored at "now" (`>= thirtyDaysAgo`, `>= ninetyDaysAgo`, `>= threeMonthsAgo`) compares days strictly, since a transaction dated that day is at midnight, before the current time. `toISOString` is taken in the same calendar as `getDate`.
- NaN.
  - `AssetsView.SubmitAsset` reads a missing `amount` as 0, where `Number(undefined)` is NaN.
  - `AssetForm.HandleAmountChange` receives NaN as `None`.
  - Rows and transactions whose date does not parse are sorted as day 0; the source's comparator returns NaN for them.
- `AssetsView.PadFacts`: dates that parse but do not exist (such as February 30) are not normalised. The padding yields no series for them, as `toISOString` would throw on an Invalid Date.
- `Text.ToLower` lower-cases ASCII letters only; Unicode case mapping is not modelled.
- `executeRecurring` in App.tsx is an empty handler, so nothing is modelled for it.
- Finance.LoanBalanceBounds: stated for non-negative whole-unit principals only, because a rounded balance can exceed a fractional principal by less than half a unit.
- Finance.LoanBalanceNonIncreasing: stated for non-negative whole-unit principals only, for the same reason.
- AssetsView.DebtSubmissionBounded: stated for non-negative whole-unit principals only, for the same reason.
- AssetForm.PreviewIsSubmitted: the bound is stated for non-negative whole-unit principals only, for the same reason.
- BudgetView.LargeExpensesFacts: does not state that the sort is stable for equal amounts.
- TransactionsView.ProcessedFacts: does not state that the sort is stable for equal dates.
- Years outside 1000-9999 are not formatted as `toISOString` would format them. Interest rates at or below −1200 % per year are excluded from the annuity formula.
- `GeminiPrep.MergeFacts`: a reply entry without a `symbol` throws in the source; the model's entries always have one.
- The form field setters (the asset form's currency selector, the text and number inputs) are not modelled; the submit handlers take the form state as a value whose numeric fields are already parsed.
- `Finance.CalculateLoanBalance`: the term and the grace period are whole numbers of years, while the source parses them with parseFloat; `Pow` takes a `nat` exponent, so fractional years are not modelled.
- `Finance.AppLoanBalance`: the same whole-year term and grace period as `Finance.CalculateLoanBalance`, for the same reason.
- `AssetsView.SubmitAsset`: the typed term and grace period are kept as whole numbers of years, while the source stores the parseFloat result; the loan formulas they feed take whole exponents.
- `RecurringView.SubmitRecurring`: the day of the month and the month are whole numbers, while the source stores the parseFloat result; the posted date is formatted from whole numbers.
- `Dates.ParseDate`: only `YYYY-MM-DD` strings parse. Other strings the JavaScript engine reads as dates, such as `2024/01/05` or a full timestamp, are `None` in the model. So a transaction stored with such a date is left out of the date-windowed views, while the program would include it.
- `TransactionsView.Slices`: the slices are listed in the first-appearance order of their categories before the sort by value. JavaScript's `Object.keys` lists integer-like keys (a category named "2024", say) first, in ascending order. So when integer-like categories tie on value, the model can order them differently from the program.
- `GeminiPrep.RecentCategories`: first-appearance order, with the same exception for integer-like category names. The averages computed per category do not depend on this order.
- `Records.Asset`: `startDate` is a parsed calendar date or absent. A non-empty start-date string that does not parse, which makes the loan routine compute NaN, cannot be represented.
- `Store.FinanceStore.PostRecurring` keeps the processed-recurring log as a value; the aliasing of the copied log object is not modelled.

## Findings

| source | as written | input that shows it | evidently intended | confidence | as-written member | corrected member |
|---|---|---|---|---|---|---|
| services/gemini.ts:305-311 | the report's assets figure multiplies each stored amount by `exchangeRate \|\| 1`, but the form already stores the amount in TWD | a USD cash holding entered as 100 at rate 30 is stored as 3000 and reported as 90000 | the stored TWD amount, as in the recorded snapshot | high, not executed | GeminiPrep.ReportDoubleConverts | GeminiPrep.CorrectedReportAgrees |
| App.tsx:126-165 | the execution log is keyed by the current month, and a YEARLY item is due in every month after its own | a YEARLY item for March 1 is posted on March 1, then again on April 1, May 1 and every later month of the year, each time dated March 1 | one posting per year, keyed by the item's own month | high, not executed | Store.YearlyPostedAgain | Store.CorrectedYearlyOncePerYear |
