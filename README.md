# MoneyTracer transaction engine in Dafny

MoneyTracer is a spending dashboard. A bank statement is imported as CSV rows. The rows are
filtered to a date range, and expenses are summed per category and split into fixed and
flexible spending. The user can reassign, edit and flag transactions and add categories. A
monthly comparison groups expenses by month and reports the month-over-month change of every
category.

This project models the in-memory engine behind those views and proves its properties:

- **Dates and the range filter** (`text.dfy`, `transactions.dfy`).
  - `M/D/Y` strings are split on `/` and read with `parseInt`.
  - The view keeps the rows whose date lies in the inclusive range.
- **Category analysis** (`ledger.dfy`, `aggregation.dfy`).
  - The per-category totals are a dictionary that keeps its names in the order they were first added.
  - Fixed + flexible = the sum of the category totals = the sum of |Amount| over the expenses.
- **The category list built on import** (`categories.dfy`).
- **The live page's session** (`tracker.dfy`, class `SpendingTracker`).
  - Import appends the parsed rows to the transaction list.
  - A category reassignment is mirrored into the full list through a date/description/amount match.
  - A whole-row edit works the same way.
  - Flagging appends a copy of the row.
  - Adding a category is validated first.
- **The older single-file variant** (`legacy_tracker.dfy`, class `LegacySpendingTracker`).
  - Import replaces the transaction list.
  - Rows are matched on five fields.
  - "Review Later" and flagging move the row instead of copying it.
  - It also prepares the chart data and lists a category's expenses.
- **The monthly comparison dashboard** (`monthly.dfy`, `trends.dfy`, `dashboard.dfy`, class
  `MonthlyComparisonDashboard`).
  - Expenses are bucketed by (year, month), with the six trailing months seeded.
  - Buckets are ordered most recent first.
  - Each category's trend compares the two latest months.
  - The five biggest increases and the five biggest decreases are selected.

Each class holds the fields the component keeps in React state.

- Each method does what the handler of the same name does, with the same loops and slot
  updates.
- Its postcondition ties the new state to a step function over a value of the state.
- Lemmas then prove what the source promises about those step functions: conservation laws,
  frame conditions, list-length effects, round trips and orderings.

Modelling choices:

- **Amounts** are integer cents. An empty cell is `None` and reads as 0, as `Amount || 0` does.
- **Percentages** are exact reals.
- **Dates** are (year, month, day) triples. An unparsable part gives an Invalid Date, which
  is truthy but fails every comparison.
- **Sorts** (`Array.prototype.sort`) are a stable insertion sort on sequences.
- **Inputs from outside:**
  - The current date (`today`) and the flag date text (`stamp`) are parameters.
  - The parsed CSV rows arrive as a sequence of transactions.

## Model

| member | source | states |
|---|---|---|
| Text.Trim | client/src/pages/SpendingTracker.tsx:609 | trim yields the slice of the input between a blank prefix and a blank suffix; the slice has no whitespace at either end, and it is empty exactly when the input is all whitespace |
| Text.Split | client/src/pages/SpendingTracker.tsx:150 | split on '/' gives at least one piece and no piece contains the separator |
| Text.SplitCount | client/src/pages/SpendingTracker.tsx:150-151 | split gives one more piece than the number of separators, so `parts.length === 3` means exactly two slashes |
| Text.JoinSplit | client/src/pages/SpendingTracker.tsx:150 | joining the pieces of a split with the separator restores the string |
| Text.SplitJoin | client/src/pages/SpendingTracker.tsx:150 | splitting a join of separator-free pieces gives back the pieces |
| Text.ParseInt | client/src/pages/SpendingTracker.tsx:152 | parseInt is NaN (None) exactly when, after leading whitespace and one optional sign, no digit follows |
| Text.DigitPrefix | client/src/pages/SpendingTracker.tsx:152 | parseInt reads the longest run of digits, stopping at the first non-digit |
| Text.NatToString | client/src/pages/SpendingTracker.tsx:152 | a numeral is a non-empty run of digits |
| Text.NatToStringValue | client/src/pages/SpendingTracker.tsx:152 | the digits of a numeral denote the number |
| Text.ParseIntOfNumeral | client/src/pages/SpendingTracker.tsx:152 | parseInt reads back any integer's numeral, whatever non-digit text follows |
| Seqs.Filter | client/src/pages/SpendingTracker.tsx:163-166 | Array.filter keeps exactly the elements that satisfy the predicate and never grows the list |
| Seqs.FilterCounts | client/src/pages/SpendingTracker.tsx:163-166 | filter keeps every occurrence of a kept element and none of a dropped one (order-preserving subsequence by count) |
| Seqs.FilterAppend | client/src/pages/SpendingTracker.tsx:163-166 | filtering a concatenation is the concatenation of the filtered parts |
| Seqs.FilterSnoc | client/src/pages/SpendingTracker.tsx:163-166 | filtering a list with one more row appends that row exactly when it passes |
| Seqs.FilterIdempotent | client/src/pages/SpendingTracker.tsx:163-166 | filtering twice by the same predicate equals filtering once |
| Seqs.FilterPartition | client/src/components/MonthlyComparisonDashboard.tsx:115-120 | a predicate and its negation split a list into two parts that together hold every element as often as the list does |
| Seqs.FindIndex | client/src/pages/SpendingTracker.tsx:413-417 | findIndex returns the first matching index, and None exactly when no element matches |
| Seqs.AppendIfMissingFacts | client/src/pages/SpendingTracker.tsx:99-101 | `if (!xs.includes(x)) xs.push(x)` adds exactly x and keeps a duplicate-free list duplicate-free |
| Ledger.Names | client/src/pages/SpendingTracker.tsx:174 | Object.keys lists the entry names in insertion order (array-index names excepted, see Left out) |
| Ledger.Get | client/src/components/MonthlyComparisonDashboard.tsx:138-139 | `totals[k] \|\| 0` is the amount recorded for k, and 0 when k has no entry |
| Ledger.Add | client/src/pages/SpendingTracker.tsx:189-190 | `if (!totals[k]) totals[k] = 0; totals[k] += a` raises k's amount by a, appends k if it is new, leaves every other entry alone and raises the sum by a |
| Transactions.CategoryOf | client/src/pages/SpendingTracker.tsx:179 | `Category \|\| 'Uncategorized'` is the category when present and non-empty, otherwise 'Uncategorized' |
| Transactions.Magnitude | client/src/pages/SpendingTracker.tsx:186 | Math.abs of an expense's amount is its negation and is positive |
| Transactions.ParseTransactionDate | client/src/pages/SpendingTracker.tsx:148-153 | null exactly for an empty string or a split that is not three parts; otherwise the date is valid iff all three parts parse, and then it has month = part 1, day = part 2, year = part 3 (0-99 read as 1900-1999) |
| Transactions.ParseFormattedDate | client/src/pages/SpendingTracker.tsx:148-153 | parsing the M/D/Y text of a date gives that date back (with the two-digit-year shift) |
| Transactions.FilterByDate | client/src/pages/SpendingTracker.tsx:163-166 | the view holds exactly the rows whose date parses and lies in [start, end], each as often as in the full list, and never more rows than the list |
| Transactions.FilterByDateIdempotent | client/src/pages/SpendingTracker.tsx:163-166 | filtering the view again with the same bounds changes nothing |
| Transactions.FilterByDateAppend | client/src/pages/SpendingTracker.tsx:91-124 | filtering the combined list filters the old rows and the new rows separately |
| Aggregation.TotalsMatchSpend | client/src/pages/SpendingTracker.tsx:178-191 | each category total equals the sum of \|Amount\| over that category's expenses |
| Aggregation.SpendPositiveIffExpense | client/src/pages/SpendingTracker.tsx:182-190 | a category's expense sum is never negative, and it is positive exactly when the category has an expense (income contributes nothing) |
| Aggregation.TotalsNames | client/src/pages/SpendingTracker.tsx:189 | the dictionary has one entry per category with an expense and no other |
| Aggregation.TotalsAreCategorySums | client/src/pages/SpendingTracker.tsx:173-200 | the category totals are exactly the per-category expense sums: no duplicate names, all positive, an entry iff the category has an expense |
| Aggregation.FixedFlexibleSplit | client/src/pages/SpendingTracker.tsx:192-197 | fixedTotal sums the expenses in fixed categories, and flexibleTotal sums all the others |
| Aggregation.SummaryConservation | client/src/pages/SpendingTracker.tsx:173-203 | fixed + flexible = sum of category totals = sum of \|Amount\| over expenses, and neither total is negative |
| Aggregation.ReplaceMovesSpend | client/src/pages/SpendingTracker.tsx:410-428 | replacing one row by a row with the same amount moves its magnitude from its old category sum to its new one and keeps the grand sum |
| Aggregation.RecategorizeMovesSpending | client/src/pages/SpendingTracker.tsx:410-428 | after a category reassignment the grand total is unchanged, the old category loses \|Amount\|, the new one gains it, and every other category keeps its total |
| Aggregation.AppendAddsSpending | client/src/pages/SpendingTracker.tsx:575-583 | appending a row adds its magnitude to the grand total and to its category |
| Aggregation.AnalyzeTransactions | client/src/pages/SpendingTracker.tsx:173-203 | the forEach loop computes the analysis of the list and satisfies the conservation law |
| Categories.DedupFacts | client/src/pages/SpendingTracker.tsx:94-96 | `[...new Set(xs)]` has no duplicates and holds exactly the values of xs |
| Categories.AppendAllMissingFacts | client/src/pages/SpendingTracker.tsx:112-116 | pushing each missing fixed category adds exactly those and keeps the list duplicate-free |
| Categories.NamedCategories | client/src/pages/SpendingTracker.tsx:94-96 | `filter(t => t.Category).map(t => t.Category)` yields only non-empty names |
| Categories.NamedCategoriesMembership | client/src/pages/SpendingTracker.tsx:94-96 | a name is collected iff some row carries it as a non-empty category |
| Categories.CategoryListContents | client/src/pages/SpendingTracker.tsx:94-118 | the category list has no duplicates and holds exactly the rows' categories, 'Uncategorized', 'Review Later', 'Flagged for Review' and the fixed categories |
| Categories.BuildCategoryList | client/src/pages/SpendingTracker.tsx:94-118 | the Set-then-guarded-push code builds that list, with no duplicates |
| Sorting.Insert | client/src/components/MonthlyComparisonDashboard.tsx:153 | insertion adds exactly the new element |
| Sorting.InsertKeepsSorted | client/src/components/MonthlyComparisonDashboard.tsx:153 | inserting into a list sorted largest-first keeps it sorted |
| Sorting.SortDesc | client/src/components/MonthlyComparisonDashboard.tsx:153 | the sort is largest key first and is a permutation of its input |
| Sorting.FilterKeepsSorted | client/src/components/MonthlyComparisonDashboard.tsx:362-363 | filtering a sorted list keeps it sorted |
| Sorting.FilterKeepsStrictlyDesc | attached_assets/fixed-spending-tracker.ts:488 | `.filter` keeps the kept elements in their strictly descending order |
| Sorting.SortedPrefix | client/src/components/MonthlyComparisonDashboard.tsx:363-364 | a prefix of a sorted list is sorted and dominates every later element |
| Tracker.MatchingIndex | client/src/pages/SpendingTracker.tsx:413-417 | the full-list match is the first row equal in date, description and amount, and None iff there is none |
| Tracker.FilterStep | client/src/pages/SpendingTracker.tsx:156-170 | with a bound unset nothing changes; otherwise the view equals the range filter of the stored rows (so their order and repeats are kept), the totals are its analysis, and nothing else changes |
| Tracker.RefilterViewChangesNothing | client/src/pages/SpendingTracker.tsx:156-170 | re-running the filter on the filtered view with the same bounds changes nothing |
| Tracker.OneMonthBefore | client/src/pages/SpendingTracker.tsx:84-87 | the default start is the same day of the previous month |
| Tracker.ImportMeaning | client/src/pages/SpendingTracker.tsx:79-124 | after an import transactions = old ++ parsed; the category list is duplicate-free with exactly the expected members; unset bounds become the month up to today; the view is the filtered combined list, analysed |
| Tracker.SetDateRangeStep | client/src/pages/SpendingTracker.tsx:206-210 | changing the bounds re-filters exactly when transactions are loaded and both bounds are set, otherwise the view and totals stay |
| Tracker.UpdateCategoryStep | client/src/pages/SpendingTracker.tsx:392-428 | out of range: no change; otherwise only the view row's category changes, only the first matching full-list row's category changes (none without a match), both lengths are kept and the view is re-analysed |
| Tracker.UpdateCategoryMovesSpending | client/src/pages/SpendingTracker.tsx:410-428 | a reassignment keeps fixed + flexible and moves the row's magnitude from its old category to its new one |
| Tracker.Merge | client/src/pages/SpendingTracker.tsx:492 | `{ ...t, ...updates }`: each field the patch supplies replaces the row's, each field it leaves out keeps the row's, so an empty patch leaves the row unchanged |
| Tracker.UpdateTransactionStep | client/src/pages/SpendingTracker.tsx:472-510 | as UpdateCategoryStep with a field merge, matching the full list on the row's values from before the edit |
| Tracker.CategoryEditIsReassignment | client/src/pages/SpendingTracker.tsx:472-510 | an edit that supplies only a category is exactly a category reassignment |
| Tracker.FlaggedCopy | client/src/pages/SpendingTracker.tsx:568-572 | the flagged copy keeps date, description, amount and type and has category 'Flagged for Review' |
| Tracker.FlagStep | client/src/pages/SpendingTracker.tsx:552-583 | out of range: no change; otherwise both lists grow by exactly the flagged copy at the end, every existing row is untouched and the view is re-analysed |
| Tracker.FlagCountsExpenseTwice | client/src/pages/SpendingTracker.tsx:575-583 | flagging an expense raises the grand total and the 'Flagged for Review' total by \|Amount\| and keeps its own category's total, so it is counted twice |
| Tracker.AddCategoryCheck | client/src/pages/SpendingTracker.tsx:609-626 | a name blank after trimming is refused as empty; a listed name (exact, case-sensitive) is refused as a duplicate |
| Tracker.AddCategoryStep | client/src/pages/SpendingTracker.tsx:608-635 | a refused name changes nothing; otherwise the name is appended once to the category list, and to the fixed list iff isFixed, and nothing else changes |
| Tracker.SpendingTracker.constructor | client/src/pages/SpendingTracker.tsx:20-45 | the session starts empty, with no bounds and the default fixed categories |
| Tracker.SpendingTracker.AnalyzeTransactions | client/src/pages/SpendingTracker.tsx:173-203 | stores the analysis of the given rows and changes nothing else |
| Tracker.SpendingTracker.FilterTransactionsByDate | client/src/pages/SpendingTracker.tsx:156-170 | the new state is FilterStep of the old one |
| Tracker.SpendingTracker.SetDefaultBounds | client/src/pages/SpendingTracker.tsx:79-88 | with no end date the bounds become one month before today and today, otherwise nothing changes |
| Tracker.SpendingTracker.StoreCombined | client/src/pages/SpendingTracker.tsx:91-121 | stores the combined list and the category list built from it, duplicate-free |
| Tracker.SpendingTracker.ImportTransactions | client/src/pages/SpendingTracker.tsx:74-125 | the new state is ImportStep of the old one, and the category list stays duplicate-free |
| Tracker.SpendingTracker.SetDateRange | client/src/pages/SpendingTracker.tsx:206-210 | the new state is SetDateRangeStep of the old one |
| Tracker.SpendingTracker.UpdateTransactionCategory | client/src/pages/SpendingTracker.tsx:392-428 | the new state is UpdateCategoryStep of the old one |
| Tracker.SpendingTracker.UpdateTransaction | client/src/pages/SpendingTracker.tsx:472-510 | the new state is UpdateTransactionStep of the old one |
| Tracker.SpendingTracker.FlagTransaction | client/src/pages/SpendingTracker.tsx:552-583 | the new state is FlagStep of the old one |
| Tracker.SpendingTracker.AddCategory | client/src/pages/SpendingTracker.tsx:608-635 | returns the verdict of AddCategoryCheck, and the new state is AddCategoryStep of the old one |
| LegacyTracker.ImportMeaning | attached_assets/fixed-spending-tracker.ts:63-134 | after an import the list is exactly the parsed rows; the category list is duplicate-free and holds their categories, the three special ones and the fixed ones; unset bounds default; the view is the filtered parsed rows, analysed, except that with the end date unset and no parsed rows the callback's filter (reading the old bounds) and the bounds effect (guarded by a non-empty list) both skip, so the old view and totals stay |
| LegacyTracker.MatchingRecordIndex | attached_assets/fixed-spending-tracker.ts:386-407 | the match is the first row equal in date, description, amount, type and memo, and None iff there is none |
| LegacyTracker.UpdateCategoryStep | attached_assets/fixed-spending-tracker.ts:368-421 | out of range: no change; otherwise the view row's category changes, and so does only the first five-field match in the full list (none without a match); both lengths are kept; the view is re-analysed |
| LegacyTracker.UpdateFindsShownRow | attached_assets/fixed-spending-tracker.ts:386-411 | a shown row that is still in the full list is always found and updated |
| LegacyTracker.MoveStep | attached_assets/fixed-spending-tracker.ts:432-455 | a move keeps the view's length and the row's identity, sets its category, keeps the grand total, and moves \|Amount\| between the two categories |
| LegacyTracker.MoveToReviewLaterStep | attached_assets/fixed-spending-tracker.ts:432-442 | the row's category becomes 'Review Later' (a move, not a copy) |
| LegacyTracker.FlagStep | attached_assets/fixed-spending-tracker.ts:445-455 | the row's category becomes 'Flagged for Review' (a move, not a copy) |
| LegacyTracker.AddNewCategoryStep | attached_assets/fixed-spending-tracker.ts:458-466 | a blank or already-listed name (untrimmed, case-sensitive) changes nothing; otherwise it is appended once, and the list stays duplicate-free |
| LegacyTracker.CategoryTransactions | attached_assets/fixed-spending-tracker.ts:494-500 | empty with no selection; otherwise exactly the view's expenses whose category is the selected one |
| LegacyTracker.CategoryExpenses | attached_assets/fixed-spending-tracker.ts:497-499 | the kept rows are exactly the expenses of the category |
| LegacyTracker.CategoryExpensesSum | attached_assets/fixed-spending-tracker.ts:494-500 | a category's listed expenses add up to its expense sum |
| LegacyTracker.CategoryTransactionsMatchTotal | attached_assets/fixed-spending-tracker.ts:494-500 | the rows listed for a category add up to the total shown for it |
| LegacyTracker.KindOf | attached_assets/fixed-spending-tracker.ts:476-478 | chart kind precedence: fixed, then 'review', then 'flagged', else flexible |
| LegacyTracker.Datums | attached_assets/fixed-spending-tracker.ts:471-479 | one datum per totals entry, in order, with its kind |
| LegacyTracker.CategoryData | attached_assets/fixed-spending-tracker.ts:471-480 | categoryData is sorted by value, largest first, and is a permutation of the entries |
| LegacyTracker.TypeSlices | attached_assets/fixed-spending-tracker.ts:483-487 | four slices in chart order: Fixed = fixedTotal, Flexible = flexibleTotal, Review Later and Flagged = their category totals or 0 |
| LegacyTracker.TypeData | attached_assets/fixed-spending-tracker.ts:483-488 | typeData keeps exactly the slices with a positive value, in chart order |
| LegacyTracker.SlicesTotal | attached_assets/fixed-spending-tracker.ts:483-487 | the four slices sum to fixed + flexible + the two review totals |
| LegacyTracker.ShownSliceSum | attached_assets/fixed-spending-tracker.ts:488 | dropping the non-positive slices of non-negative slices keeps their sum |
| LegacyTracker.ShownTypeDataSum | attached_assets/fixed-spending-tracker.ts:483-488 | the shown slices sum to all four slices |
| LegacyTracker.FlexibleCoversReview | attached_assets/fixed-spending-tracker.ts:169-174 | with the review categories not fixed, the flexible total already contains both review totals |
| LegacyTracker.TypeDataCountsReviewTwice | attached_assets/fixed-spending-tracker.ts:483-488 | the type chart counts review spending twice: its slices sum to total spending plus both review totals, which the flexible slice already includes |
| LegacyTracker.ChartData | attached_assets/fixed-spending-tracker.ts:503-506 | with an empty view both chart lists are empty; otherwise categoryData is sorted and complete, and typeData holds exactly the positive slices |
| LegacyTracker.LegacySpendingTracker.constructor | attached_assets/fixed-spending-tracker.ts:30 | the session starts empty with the constant fixed categories |
| LegacyTracker.LegacySpendingTracker.AnalyzeTransactions | attached_assets/fixed-spending-tracker.ts:150-180 | stores the analysis of the given rows and changes nothing else |
| LegacyTracker.LegacySpendingTracker.FilterTransactionsByDate | attached_assets/fixed-spending-tracker.ts:133-147 | the new state is the live page's FilterStep of the old one |
| LegacyTracker.LegacySpendingTracker.SetDefaultBounds | attached_assets/fixed-spending-tracker.ts:63-72 | with no end date the bounds become one month before today and today |
| LegacyTracker.LegacySpendingTracker.StoreParsed | attached_assets/fixed-spending-tracker.ts:74-102 | stores the parsed rows and the category list built from them, duplicate-free |
| LegacyTracker.LegacySpendingTracker.ImportTransactions | attached_assets/fixed-spending-tracker.ts:58-106 | the new state is the legacy ImportStep of the old one: the re-filter runs only when the end date was set or rows were parsed |
| LegacyTracker.LegacySpendingTracker.SetDateRange | attached_assets/fixed-spending-tracker.ts:182-187 | the new state is SetDateRangeStep of the old one |
| LegacyTracker.LegacySpendingTracker.UpdateTransactionCategory | attached_assets/fixed-spending-tracker.ts:368-429 | the new state is the legacy UpdateCategoryStep of the old one |
| LegacyTracker.LegacySpendingTracker.MoveToReviewLater | attached_assets/fixed-spending-tracker.ts:432-442 | the new state is MoveToReviewLaterStep of the old one |
| LegacyTracker.LegacySpendingTracker.FlagTransaction | attached_assets/fixed-spending-tracker.ts:445-455 | the new state is the legacy FlagStep of the old one |
| LegacyTracker.LegacySpendingTracker.AddNewCategory | attached_assets/fixed-spending-tracker.ts:458-466 | the new state is AddNewCategoryStep of the old one |
| Monthly.KeyOfIndex | client/src/components/MonthlyComparisonDashboard.tsx:60-62 | the key of a month number is a valid (year, month) whose month number it is |
| Monthly.TrailingMonths | client/src/components/MonthlyComparisonDashboard.tsx:59-62 | the seeded keys are six distinct valid months, this month and the five before it, newest first |
| Monthly.DaysInMonth | client/src/components/MonthlyComparisonDashboard.tsx:60-61 | month lengths of the Gregorian calendar |
| Monthly.SeedKeyAsWritten | client/src/components/MonthlyComparisonDashboard.tsx:60-62 | the seed key as setMonth computes it is a valid month |
| Monthly.TrailingMonthsAsWritten | client/src/components/MonthlyComparisonDashboard.tsx:59-62 | the loop as written seeds six keys |
| Monthly.SeedRepeatsMonthOnThe31st | client/src/components/MonthlyComparisonDashboard.tsx:59-62 | on 31 October 2026 the loop as written seeds October twice and never seeds September |
| Monthly.SeedAsWrittenAgreesUpToThe28th | client/src/components/MonthlyComparisonDashboard.tsx:59-62 | up to the 28th, the loop as written seeds the six trailing months |
| Monthly.MonthOf | client/src/components/MonthlyComparisonDashboard.tsx:76-82 | only expenses get a bucket, and a dated bucket has a month in 1-12 |
| Monthly.MonthOfSkipsAndKeys | client/src/components/MonthlyComparisonDashboard.tsx:76-82 | a row is skipped iff its date is missing, its Amount is not negative, or its date is not three parts; an Invalid Date goes to the NaN bucket; a valid date to the bucket of its year and month |
| Monthly.AddExpense | client/src/components/MonthlyComparisonDashboard.tsx:96-111 | adding an expense raises the bucket total by \|Amount\| and is one step of the page's analysis on the bucket |
| Monthly.IndexOfKey | client/src/components/MonthlyComparisonDashboard.tsx:86 | the bucket lookup finds the bucket with the key, and None iff no bucket has it |
| Monthly.Seed | client/src/components/MonthlyComparisonDashboard.tsx:59-72 | seeding gives one empty bucket per key, in order |
| Monthly.InMonth | client/src/components/MonthlyComparisonDashboard.tsx:82 | a month's rows are exactly the counted rows whose key is that month |
| Monthly.OtherBucketUnchanged | client/src/components/MonthlyComparisonDashboard.tsx:82-111 | a row of another month leaves a bucket correct |
| Monthly.OwnBucketUpdated | client/src/components/MonthlyComparisonDashboard.tsx:96-111 | adding a row to its own month's bucket keeps that bucket the analysis of its month |
| Monthly.PlaceIntoExisting | client/src/components/MonthlyComparisonDashboard.tsx:96-111 | a row whose month has a bucket updates that bucket only, and all buckets stay correct |
| Monthly.PlaceIntoNew | client/src/components/MonthlyComparisonDashboard.tsx:85-94 | a row whose month has no bucket creates one holding just that row |
| Monthly.PlaceSkipped | client/src/components/MonthlyComparisonDashboard.tsx:76-80 | a skipped row changes no bucket |
| Monthly.PlaceKeepsWellFormed | client/src/components/MonthlyComparisonDashboard.tsx:75-112 | one forEach step keeps keys distinct and every bucket the analysis of its month |
| Monthly.PlaceKeys | client/src/components/MonthlyComparisonDashboard.tsx:82-94 | one step adds at most the key of the row's month |
| Monthly.FillWellFormed | client/src/components/MonthlyComparisonDashboard.tsx:75-112 | from empty seeded buckets, the forEach yields distinct keys, the seeds plus exactly the months of counted rows, each bucket its month's analysis |
| Monthly.MonthBucketsAreMonthlyAnalyses | client/src/components/MonthlyComparisonDashboard.tsx:55-112 | the dashboard's buckets have distinct keys: the six trailing months plus exactly the months with counted rows, each holding the analysis of its month's expenses |
| Monthly.BucketConservation | client/src/components/MonthlyComparisonDashboard.tsx:96-111 | per bucket, total = fixed + flexible = sum of category amounts = sum of \|Amount\| over its month's expenses |
| Monthly.LandsInItsMonth | client/src/components/MonthlyComparisonDashboard.tsx:82-94 | each counted row lands in exactly one bucket, the one keyed by its month |
| Monthly.BuildMonthlyData | client/src/components/MonthlyComparisonDashboard.tsx:55-112 | the seed loop then the forEach compute the dashboard's buckets |
| Monthly.SeedMonths | client/src/components/MonthlyComparisonDashboard.tsx:59-72 | the seed loop gives empty buckets for the six trailing months |
| Monthly.AddTransactions | client/src/components/MonthlyComparisonDashboard.tsx:75-112 | the forEach places every row as Fill specifies |
| Monthly.AddToMonth | client/src/components/MonthlyComparisonDashboard.tsx:85-111 | the row goes to the existing bucket of its key, or to a new bucket appended at the end |
| Monthly.AddToBucket | client/src/components/MonthlyComparisonDashboard.tsx:96-111 | the `+=` updates compute AddExpense |
| Monthly.SortMonths | client/src/components/MonthlyComparisonDashboard.tsx:115-120 | the buckets are reordered, most recent month first, with the undated bucket after every dated one |
| Monthly.SortMonthsParts | client/src/components/MonthlyComparisonDashboard.tsx:115-120 | the sorted dated buckets and the undated ones together are exactly the buckets |
| Trends.PercentChangeMeaning | client/src/components/MonthlyComparisonDashboard.tsx:141 | 100 when the previous amount is 0; otherwise percent × previous = change × 100; for a positive previous amount, its sign is the sign of the change |
| Trends.TrendNames | client/src/components/MonthlyComparisonDashboard.tsx:132-135 | the Set of both months' categories is duplicate-free and holds exactly the names in either month |
| Trends.TrendsFor | client/src/components/MonthlyComparisonDashboard.tsx:137-150 | one trend per name |
| Trends.TrendsForAt | client/src/components/MonthlyComparisonDashboard.tsx:137-150 | the i-th pushed trend is the trend of the i-th name |
| Trends.SortedTrends | client/src/components/MonthlyComparisonDashboard.tsx:153 | the trends are sorted by descending \|percentChange\| and are a permutation of the pushed trends |
| Trends.TrendsMeaning | client/src/components/MonthlyComparisonDashboard.tsx:125-153 | a category has a trend iff it is in either month; every trend has the two amounts (0 if missing), change = current − previous, +100% when new, and a percentage signed like the change |
| Trends.BuildTrends | client/src/components/MonthlyComparisonDashboard.tsx:129-155 | the push loop then the sort compute SortedTrends |
| Trends.CollectTrends | client/src/components/MonthlyComparisonDashboard.tsx:129-150 | the push loop yields one trend per category of either month, in Set order |
| Trends.FirstFive | client/src/components/MonthlyComparisonDashboard.tsx:362-364 | `filter(p).slice(0, 5)`: exactly min(5, number matching) trends, the first ones matching p in their order |
| Trends.Increases | client/src/components/MonthlyComparisonDashboard.tsx:362-364 | exactly min(5, number rising) trends, the first ones with a positive percentChange in their order |
| Trends.Decreases | client/src/components/MonthlyComparisonDashboard.tsx:389-391 | exactly min(5, number falling) trends, the first ones with a negative percentChange in their order |
| Trends.FirstFiveAreLargest | client/src/components/MonthlyComparisonDashboard.tsx:362-364 | on sorted trends exactly min(5, number matching) are shown, the first matching ones in order, and no matching trend left out has a larger \|percentChange\| |
| Dashboard.RefreshStep | client/src/components/MonthlyComparisonDashboard.tsx:53 | with no transactions the effect changes nothing |
| Dashboard.FirstTwoAreLatest | client/src/components/MonthlyComparisonDashboard.tsx:115-127 | after sorting, the first two buckets are dated, the first is the latest, and no other dated bucket is later than the second |
| Dashboard.RefreshMeaning | client/src/components/MonthlyComparisonDashboard.tsx:52-157 | with transactions: at least six buckets, a permutation of the built ones, each its month's analysis; the two compared are the latest months; a trend exists iff the category was spent in either month, with amounts equal to that month's spending |
| Dashboard.FillKeepsPrefixKeys | client/src/components/MonthlyComparisonDashboard.tsx:75-112 | processing rows keeps the seeded buckets in place |
| Dashboard.MonthlyComparisonDashboard.constructor | client/src/components/MonthlyComparisonDashboard.tsx:45-46 | the dashboard starts with no buckets and no trends |
| Dashboard.MonthlyComparisonDashboard.Refresh | client/src/components/MonthlyComparisonDashboard.tsx:52-157 | the new state is RefreshStep of the old one |

## Findings

| source | as written | input that shows it | evidently intended | confidence | as-written member | corrected member |
|---|---|---|---|---|---|---|
| client/src/components/MonthlyComparisonDashboard.tsx:59-62 | each seed date is a copy of today whose month is set back by i. The day of the month is kept, so a day the target month lacks rolls into the next month | today = 31 October 2026: 31 September becomes 1 October and 31 June becomes 1 July. October and July are seeded twice; September and June are never seeded | seed this month and the five months before it, six distinct keys | high (derived from the Date arithmetic; not executed) | Monthly.SeedRepeatsMonthOnThe31st (on Monthly.TrailingMonthsAsWritten) | Monthly.TrailingMonths (six distinct consecutive months), with Monthly.SeedAsWrittenAgreesUpToThe28th |

The rest of the model seeds the buckets with `TrailingMonths`.

## Left out

- Tracker.OneMonthBefore: keeps the day of the month. `setMonth` on the 29th-31st rolls into the following month when the previous month is shorter, so the default start date can then be a few days later than this model's.
- Transactions.ParseTransactionDate: the Date constructor's normalisation of out-of-range parts is not modelled. For example, month 13 or day 40 would roll into the next year or month. The model compares the raw (year, month, day) triple.
- Transactions.InRange: `YYYY-MM-DD` bounds parse as UTC midnight while row dates are local midnight. The model compares calendar dates, so the time-zone shift at the range edges is not modelled.
- Text.ParseInt: does not model the `0x` prefix (parseInt without a radix reads it as hexadecimal), nor the precision limit of large numerals.
- Monthly.SortMonths: the source sorts by re-parsing each bucket's locale label (`new Date("Oct 2026")`). That parse depends on the engine, and for the NaN bucket's "Invalid Date" label it yields NaN. The model sorts by the (year, month) key and puts the NaN bucket last.
- Month labels (`toLocaleString`) are left out. The bucket key determines them.
- Sorting.SortDesc: stability (equal keys keep their order) is built into `Insert`, but it is not stated as a property.
- LegacyTracker.MatchingRecordIndex: JSON.stringify writes both null and NaN as null, and omits an undefined field. The model's None is a null cell only; an undefined field is not modelled, nor is a NaN amount.
- Ledger.Names: Object.keys lists names that are canonical array indices (such as "2024") first, in ascending numeric order, and only then the other names in insertion order. The model keeps insertion order for every name. This affects the order of the category set built from two months' names and the order among equal amounts in the trend and category sorts.
- Ledger.Add: a name inherited from Object.prototype (such as "constructor" or "toString") is already truthy, so `if (!totals[k])` does not reset it and `+=` turns the total into a string. The model treats every name as absent until it is first added.
- Monthly.MonthOf: a day outside the month ("3/0/2024", "2/30/2024") is not rolled over as the Date constructor does, so such a row is bucketed under the month it names rather than the neighbouring one; month overflow is normalised by KeyOfIndex.
- Monthly.MonthOf: an undefined Amount makes `Amount >= 0` false, so the source would count the row as spending and add NaN to the month's totals. The model has no undefined amounts; a null amount (None) is skipped, as `null >= 0` is true.
- Tracker.MatchingIndex: `===` tells a null field from an undefined one. The model has only null (None), so rows that differ only in that way are not modelled.
- Tracker.AddCategoryStep: in the source, `fixedCategories` is a constant rebuilt on every render, so the pushed name is lost at the next render. The model keeps the fixed list as session state, where the push persists.
- Tracker.ImportMeaning: in the source the `complete` callback's `filterTransactionsByDate` reads the date bounds from before the import. When the bounds were unset it returns early, and the effect on `[startDate, endDate]` filters the stored list on the next render. The model applies the new bounds and the filter in one step, which reaches the same final state.
- Reading several files at once is not modelled. Each import callback reads the transaction list of its render, so concurrent imports can overwrite each other. Imports are modelled one after another.
- Floating point is not modelled. Amounts are exact integer cents and percentages are exact reals. IEEE summation error and NaN amounts from non-numeric cells are left out.
- Presentation is not modelled: JSX rendering, charts, toasts, dialogs, loading flags, and the selected/editing state. That includes resetting the selected category after a move and the `loadDemoData` sample.
- I/O is not modelled. CSV parsing by PapaParse and file input are outside the model; parsed rows arrive as a sequence. The clock is outside too: `today` and the flag date text `stamp` are parameters.
- Tracker.FlaggedCopy: the memo text is modelled from an opaque `stamp` string, not from `toLocaleDateString`.
- Recurring-payment detection is not modelled. No source file implements it.
