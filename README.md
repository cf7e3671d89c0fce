# Budget categorisation and aggregation engine

This project models the core of a personal budgeting application. It covers four areas.

**Server category handling.**
- `normalize_categories`, `normalize_grouped` and `union_categories`.
- The grouped category read with its backfill of defaults.
- The category check when a transaction is created.

**Client aggregation.**
- The selected month's transactions.
- The per-category expense buckets.
- The three top-three lists.
- The review years.
- The rows fed to the expenditure chart.
- The category save that rebuilds the targets.

**The drawers and charts that consume those figures.**
- Category editor, targets editor, transaction list, add-transaction form and budget advisor.
- Targets chart, simple targets chart, simple budget chart, expenditure chart, year breakdown and the overview card.

**The multi-round advisor agent.**
- Parsing the requested keys from the first answer.
- Deriving the metrics from the budget context.
- Copying the requested metrics into the context.
- The round loop.

## Conventions

- Money is held in integer cents (`int`).
- Percentages are `real`.
- A transaction's date is `Option<Date>`, where `None` stands for a date that does not parse. Months are numbered 0 to 11, as JavaScript numbers them.
- A JavaScript object from category names to amounts is `Records.Amounts`:
  - its `keys` are the insertion order that `Object.values` and `Object.entries` follow;
  - its `values` are the contents.
- JSON on the server side is the `ServerCategories.Json` datatype.
- The agent's context values are the `Agent.Raw` datatype.
- Component state that handlers update in place is a class with fields. These are `App.Budget`, `CategoriesDrawer.Editor`, `TargetsDrawer.Editor`, `ViewTransactions.Viewer`, `TransactionsDrawer.Form` and `Advisor.Chat`.
- Loops become methods with invariants. They are `NormalizeCategories`, `NormalizeGrouped`, `ExpensesByCategory`, `SeedBuckets`, `Reconcile`, the editors' `Open`, the metric derivation and the agent's `Run`. Each method is proved against a function or a predicate about which the listed lemmas are proved.
- A collection the source builds by insertion is modelled with `Collections.Dedup`. This covers `Array.from(new Set(...))` and `dict.fromkeys`.
- The JavaScript stable sorts are modelled with `Ranking.SortDesc`, a stable insertion sort.

## Where the code departs from the intended behaviour (the model follows the code)

- "Other" is meant to stay last in Wants, exactly once. `normalize_grouped` only appends it when it is missing, and leaves a user-placed "Other" where it was (`ServerCategories.WantsKeepOtherInPlace`). Only the client category editor moves it to the end.
- The three groups are not made disjoint on the server (`ServerCategories.GroupsMayOverlap`).
- `SAVINGSTHISMONTH` is meant to be present only when the expense map is present. In the agent code, a missing or falsy `expensesByCategory` becomes `{}`. As a result, savings are reported whenever the income is given and the field is not a non-dictionary value, with a zero expense total (`Agent.SavingsThisMonthPresence`).
- The unit tests of the expenditure and targets charts expect the rows in taxonomy order. Both components render their input in the order given, and the model keeps the input order (`ExpenditureChart.RenderShape`, `TargetsChart.TargetsDataShape`).

## Model

| member | source | states |
|---|---|---|
| ServerCategories.NormalizeCategories | server/app.py:49-63 | The loop yields exactly `Normalized`: the trimmed non-blank string elements, without repeats, in first-occurrence order, with "Other" appended when absent. The result contains "Other" and is duplicate-free. A non-list input gives `["Other"]`. |
| ServerCategories.NormalizedIsClean | server/app.py:49-63 | Whatever the input, the normalised list is duplicate-free, contains "Other", and every entry is a trimmed non-empty name. |
| ServerCategories.NormalizeClean | server/app.py:49-63 | A list of distinct clean names comes back unchanged, or with "Other" appended when it lacked it. So normalising is idempotent. |
| ServerCategories.NamesOfClean | server/app.py:53-58 | Clean names pass the string filter and trim unchanged. |
| ServerCategories.NormalizeGrouped | server/app.py:65-77 | The loop yields the normalised groups. "Other" is in Wants and is absent from Needs and Savings. Every group is duplicate-free. |
| ServerCategories.NormalizeGroupedIdempotent | server/app.py:65-77 | Normalising the groups a second time returns the same three groups. |
| ServerCategories.RemovedGroupStable | server/app.py:66-75 | A Needs or Savings group is a fixed point of normalise-then-drop-"Other". |
| ServerCategories.KeptGroupStable | server/app.py:67-72 | A normalised Wants group is a fixed point of normalisation. |
| ServerCategories.RenormalizeWithoutOther | server/app.py:59-75 | A clean list without "Other" is restored exactly once the appended "Other" is dropped again. |
| ServerCategories.WantsKeepOtherInPlace | server/app.py:70-72 | A Wants list that already contains "Other" keeps it at its own position. Only a Wants list without it gets it appended. |
| ServerCategories.GroupsMayOverlap | server/app.py:65-77 | A name given in both Needs and Wants stays in both, so the groups are not made disjoint. |
| ServerCategories.UnionCategories | server/app.py:79-80 | A name is in the union exactly when it is in one of the three groups. The union has no repeats and is no longer than the three groups together. |
| ServerCategories.GetUserCategories | server/app.py:139-167 | An unknown user, and only an unknown user, gets 404. Otherwise the groups are exactly the normalised stored groups, each empty or missing one replaced by its default first. The flat list is their union. "Other" is in Wants only. A missing config, or an empty stored group, yields that group's default. |
| ServerCategories.DefaultNeedsNormalize | server/app.py:44-160 | The default Needs list is already normal. |
| ServerCategories.DefaultWantsNormalize | server/app.py:45-160 | The default Wants list, which ends in "Other", is already normal. |
| ServerCategories.DefaultSavingsNormalize | server/app.py:46-160 | The empty default Savings list normalises to empty. |
| ServerCategories.Backfilled | server/app.py:157-160 | A stored group that is empty comes back from the backfill and normalisation as exactly its default (`KeepsDefaults` of `BackfilledGroups`). |
| ServerCategories.CheckedCategory | server/app.py:287-299 | Only expenses are checked. An allowed category is kept. An expense with a category outside the user's union, or outside the defaults when there is no config, is stored as "Other". |
| ServerCategories.CreateTransaction | server/app.py:264-314 | An empty body, and only an empty body, gives 400 "No data provided". Otherwise the first missing required field is named in a 400. A failed number conversion gives 500. A non-empty body with every required field and convertible `user_id` and `amount` is always created. A created transaction carries the converted numbers and the checked category. |
| App.ExpenseCats | src/App.jsx:230-232 | The category list is never empty. It is the loaded list when that is non-empty, otherwise the seven defaults, which include "Other". |
| App.BucketOf | src/App.jsx:238 | An expense is credited to its own category exactly when that category is non-empty and listed. Every other expense goes to "Other". |
| App.ExpensesByCategory | src/App.jsx:233-240 | There is one bucket per category, in first-listed order. Each bucket holds the sum of the month expenses credited to it. Together the buckets hold the month's whole expense total, so no expense is lost or counted twice. |
| App.Credit | src/App.jsx:235-240 | One crediting step: an expense adds its amount to its own bucket, or to "Other" when its category is not listed; any other transaction changes nothing. The bucket keys stay the same, and the buckets stay credited with one more transaction. |
| App.SeedBuckets | src/App.jsx:234 | The seeding loop creates one zero bucket per distinct category, in list order. |
| App.CreditedTotal | src/App.jsx:233-240 | Buckets credited over any transaction list sum to that list's expense total. |
| App.BucketsHoldExpenseTotal | src/App.jsx:237-240 | Over any distinct key list containing "Other" and every category, the bucket totals add up to the expense total. |
| App.TopThreeSelects | src/App.jsx:242-257 | A top list has at most three entries. It is drawn from its pool and ordered by key, largest first. No entry left out has a larger key than one kept. Ties keep their input order. |
| App.TopExpensesFromMonth | src/App.jsx:242-246 | The top expenses are month expenses. It also states the properties of `TopThreeSelects` for the amount key. |
| App.TopTransactionsFromMonth | src/App.jsx:248-251 | The top transactions are month transactions ranked by absolute amount. |
| App.TopIncomeFromMonth | src/App.jsx:253-257 | The top income entries are month income transactions ranked by amount. |
| App.Years | src/App.jsx:264 | A year is listed exactly when some transaction with a parseable date has it. |
| App.ReviewYearsMembers | src/App.jsx:262-265 | The review years are exactly the current year and the transaction years. |
| App.ReviewYearsDescending | src/App.jsx:262-265 | The review years are strictly descending, so no year repeats. |
| App.ReviewYearAfter | src/App.jsx:267-270 | An offered year stays selected. An unoffered one is replaced by the first offered year. Nothing changes when no year is offered. |
| App.ReviewYearAfterIsLatest | src/App.jsx:262-270 | Over the review years, the corrected year is always offered. An unoffered selection is replaced by the latest year offered, which is at least the current year. |
| App.ColorOf | src/App.jsx:387-392 | The category colour is decided by group membership, with Savings over Needs and Needs over Wants. Each colour is stated as an if-and-only-if. |
| App.MonthlyIncome | src/App.jsx:227-229 | The filter-then-sum of the month's income transactions equals the income total (`KindTotal`) of the selected month's transactions. This figure is the `income` of the expenditure rows. |
| App.Divisor | src/App.jsx:399 | The percentage base is positive. It is the income when the income is positive. |
| App.CategoryRows | src/App.jsx:400-405 | Row `i` is category `i`, with its bucket amount, that amount's share of the divisor, and its group colour. |
| App.ExpenditureData | src/App.jsx:395-413 | The data is the category rows followed by "Saved". "Saved" holds the income left after all buckets, never below 0, with its share and the savings colour. |
| App.CategoryRowsTotal | src/App.jsx:400-405 | The category rows add up to the buckets summed over the listed categories. |
| App.ExpenditureDataTotal | src/App.jsx:395-413 | Over the buckets' own keys, the rows add up to the larger of the total expenses and the income. |
| App.Budget.constructor | src/App.jsx:40-59 | The initial state holds no transactions, the default categories and groups, and the default targets. |
| App.Budget.AddTransaction | src/App.jsx:189-195 | A created record with a non-zero id is appended. Anything else leaves the list alone. Nothing else changes. |
| App.Budget.DeleteTransaction | src/App.jsx:197-199 | The list becomes the shared delete-by-id `Records.WithoutId` of the old list: exactly the transactions with that id are removed, and the rest keep their order. Nothing else changes. |
| App.Budget.LoadCategories | src/App.jsx:175-180 | A non-empty flat list replaces the categories. Each group that was sent replaces its group. Everything not sent stays. |
| App.Budget.SaveCategories | src/App.jsx:508-520 | The categories become the union of the saved groups. The targets are rebuilt over exactly that union, each keeping its old value or 0. |
| Records.MonthTransactions | src/App.jsx:223-226 | Every kept transaction is dated in the selected year and month, and the input order is kept. |
| Records.IncomeSumIsKindTotal | src/App.jsx:227-229 | Summing the transactions kept by the income filter gives the list's income total, for every list. |
| Records.MonthTransactionsSelect | src/App.jsx:223-226 | A transaction is kept exactly when it is in the input and dated in that month. A transaction whose date does not parse is never kept. |
| Records.Amounts.Put | src/components/TargetsDrawer.jsx:23 | Setting a key keeps the object well formed. A new key goes last, and an existing key keeps its place. |
| Records.PutTotal | src/components/TargetsDrawer.jsx:23-31 | Setting one key moves the total by the new value minus the old one. |
| Records.PercentOf | src/components/TargetsChart.jsx:10 | The percentage is 0 without a positive base. Otherwise, multiplied by the base, it gives the amount times 100. |
| Records.Reconcile | src/App.jsx:516-520 | The rebuilt targets have exactly the union's distinct keys, in order. Each key keeps its previous value, and a new key gets 0. |
| Ranking.SortDescSortsAndPermutes | src/App.jsx:242-257 | The sort is a permutation of its input and is non-increasing in the key. |
| Ranking.SortDescStable | src/App.jsx:242-257 | The transactions with equal keys keep their input order. |
| Ranking.TopDrawnFromInput | src/App.jsx:246 | The first three form a sub-multiset of the input and are ordered largest first. |
| Ranking.TopTakesLargest | src/App.jsx:245-246 | No element outside the top list has a larger key than an element in it. |
| Ranking.TopStable | src/App.jsx:245-246 | Within the top list, elements with equal keys appear in input order. |
| CategoriesDrawer.Updated | src/components/CategoriesDrawer.jsx:32-34 | Only the items with the given id take the new value. Ids, length and all other items are unchanged. |
| CategoriesDrawer.UpdatedAbsent | src/components/CategoriesDrawer.jsx:32-34 | Updating an id that is absent changes nothing. |
| CategoriesDrawer.UpdatedIdempotent | src/components/CategoriesDrawer.jsx:32-34 | Applying the same update twice gives the same list as applying it once. |
| CategoriesDrawer.WithoutId | src/components/CategoriesDrawer.jsx:52 | No item with that id remains, and the list does not grow. |
| CategoriesDrawer.WithoutIdMembers | src/components/CategoriesDrawer.jsx:52 | An item remains exactly when it was present and has another id. |
| CategoriesDrawer.WithoutIdUnique | src/components/CategoriesDrawer.jsx:52 | Removing items from a list with distinct ids leaves the ids distinct. |
| CategoriesDrawer.InsertedUnique | src/components/CategoriesDrawer.jsx:40-46 | Inserting an item with an unused id at any position keeps the ids distinct. |
| CategoriesDrawer.EditedStaysApart | src/components/CategoriesDrawer.jsx:32-52 | A list edited so that each id is an old one or a new one stays apart from the other lists. |
| CategoriesDrawer.SameIds | src/components/CategoriesDrawer.jsx:32-34 | A list with the same ids at every position keeps distinct ids, and its ids were all in the old list. |
| CategoriesDrawer.FindById | src/components/CategoriesDrawer.jsx:50 | The search fails exactly when no item has the id. A found item is in the list and has the id. |
| CategoriesDrawer.OtherIndex | src/components/CategoriesDrawer.jsx:42 | The result is the index of the first "Other" item, or the length of the list when there is none. |
| CategoriesDrawer.InsertedBeforeOther | src/components/CategoriesDrawer.jsx:40-47 | The list grows by one. The new item goes immediately before the first "Other", or at the end when there is none. |
| CategoriesDrawer.InsertedThenRemoved | src/components/CategoriesDrawer.jsx:40-53 | Removing a newly added want by its fresh id restores the list exactly. |
| CategoriesDrawer.CleanValues | src/components/CategoriesDrawer.jsx:55-59 | The result is the values trimmed one by one and then filtered to the non-empty ones, in order, which is the map-then-filter of the source. Every kept value is trimmed and non-empty, and the list does not grow. |
| CategoriesDrawer.CleanValuesOfClean | src/components/CategoriesDrawer.jsx:55-59 | Values that are already trimmed and non-empty pass through unchanged. |
| CategoriesDrawer.CleanValuesIdempotent | src/components/CategoriesDrawer.jsx:55-59 | Cleaning a second time changes nothing. |
| CategoriesDrawer.OtherLast | src/components/CategoriesDrawer.jsx:20-66 | "Other" is last and appears nowhere before that. The names before it are the input without "Other", in order. |
| CategoriesDrawer.OtherLastIdempotent | src/components/CategoriesDrawer.jsx:20-66 | Reordering twice gives the same list as reordering once. |
| CategoriesDrawer.Editor.constructor | src/components/CategoriesDrawer.jsx:11-13 | All three lists start empty. |
| CategoriesDrawer.FreshFrom | src/components/CategoriesDrawer.jsx:24-26 | One new item per value, in order: value `i` gets the id `start + i`. |
| CategoriesDrawer.FreshFromValues | src/components/CategoriesDrawer.jsx:24-26 | The new items carry exactly the given values, in order. |
| CategoriesDrawer.FreshFromIds | src/components/CategoriesDrawer.jsx:24-26 | The new ids are pairwise distinct, and each lies between the counter before and the counter after, so none was handed out before. |
| CategoriesDrawer.LoadedListsValid | src/components/CategoriesDrawer.jsx:24-26 | Three lists loaded one after another from the counter keep their ids distinct within and across the lists, and every id is at least the starting counter. |
| CategoriesDrawer.Editor.Load | src/components/CategoriesDrawer.jsx:24-26 | Needs, Wants and Savings become `FreshFrom` of their values, drawn from the counter in that order, and the counter moves past all of them. The lists hold exactly the given values, each under an id at least the old counter, so no loaded id was used before, and the ids stay distinct within and across the lists. |
| CategoriesDrawer.Editor.Open | src/components/CategoriesDrawer.jsx:15-28 | Opening loads Needs and Savings as given and Wants with "Other" moved or added last. Every loaded item has an id at least the old counter, so none was used before, and the ids stay distinct within and across the lists. When closed, nothing changes. |
| CategoriesDrawer.Editor.SetList | src/components/CategoriesDrawer.jsx:32-53 | The group's state setter: the chosen list becomes the given one, the counter moves on, and the other lists are unchanged. It requires what every handler supplies: distinct ids, each already in the group or not yet handed out. The editor then stays valid. |
| CategoriesDrawer.Editor.UpdateList | src/components/CategoriesDrawer.jsx:32-34 | The chosen list becomes `Updated`, and the other lists are unchanged. |
| CategoriesDrawer.Editor.AddToList | src/components/CategoriesDrawer.jsx:36-38 | An empty item with a fresh id is appended to the chosen list only. |
| CategoriesDrawer.Editor.AddWant | src/components/CategoriesDrawer.jsx:40-47 | An empty want with a fresh id is inserted before "Other". Needs and Savings are unchanged. |
| CategoriesDrawer.Editor.RemoveFromList | src/components/CategoriesDrawer.jsx:49-53 | When the first item with the id is "Other", nothing is removed. Otherwise every item with that id leaves the chosen list, and the other lists are unchanged. |
| CategoriesDrawer.Editor.Save | src/components/CategoriesDrawer.jsx:61-74 | The saved groups are the cleaned lists. Wants ends in exactly one "Other", after the other cleaned wants in order. |
| TargetsDrawer.ExpenseCats | src/components/TargetsDrawer.jsx:6-7 | The drawer lists the given categories, or the fallback list when none are given. |
| TargetsDrawer.PercentTotalIsShareOfTotal | src/components/TargetsDrawer.jsx:47-49 | The shown percentages add up to the total's share of projected income. |
| TargetsDrawer.ExceedsMeansOverHundred | src/components/TargetsDrawer.jsx:72-78 | The warning shows exactly when the targets' percentages of a positive projected income add up to more than 100. |
| TargetsDrawer.PercentOverHundred | src/components/TargetsDrawer.jsx:49-72 | For a positive projected income, a share is over 100% exactly when the amount exceeds that income. |
| TargetsDrawer.Editor.constructor | src/components/TargetsDrawer.jsx:4 | The values start empty. |
| TargetsDrawer.Editor.Open | src/components/TargetsDrawer.jsx:9-18 | Opening rebuilds the values over exactly the shown categories, each from its target or 0. When closed, nothing changes. |
| TargetsDrawer.Editor.HandleChange | src/components/TargetsDrawer.jsx:22-31 | Only that category changes, to the parsed value or 0. A new category goes last, and the total moves by the change. |
| TargetsChart.TargetRows | src/components/TargetsChart.jsx:8-17 | Row `i` is category `i`, with its target (0 when it has none), that target's share of projected income, and palette colour `i mod 7`. |
| TargetsChart.TargetsDataShape | src/components/TargetsChart.jsx:4-28 | There is one row per shown category in order, with its target, its share of projected income and its palette colour, then "Saved". "Saved" plus the total of all targets is exactly the projected income when the targets leave some unallocated. Otherwise "Saved" is 0. Its share is taken of the projected income. Every share is 0 without a positive projected income. |
| TargetsChart.TargetRowsTotal | src/components/TargetsChart.jsx:8-17 | The category rows add up to the targets summed over the shown categories. |
| TargetsChart.TargetsDataTotal | src/components/TargetsChart.jsx:20-28 | When the targets are kept over the shown categories, all rows add up to the larger of the allocation and the projected income. |
| SimpleTargetsChart.SimpleTargetsDataShape | src/components/SimpleTargetsChart.jsx:4-18 | There are exactly three rows: Needs, Wants and Savings. An empty group list means its default. Savings holds the savings targets plus the never-negative unallocated income. The rows add up to the larger of the allocation and the projected income. Each row's percentage is its share of the projected income (0 without a positive income), and the colours are the fixed blue, red and green. |
| SimpleTargetsChart.AllocatedPercent | src/components/SimpleTargetsChart.jsx:50 | The allocation share is 0 without a positive projected income. Otherwise it is the allocation over the projected income, times 100. |
| SimpleTargetsChart.AllocatedOverJoinedLists | src/components/SimpleTargetsChart.jsx:8-11 | The allocation sums the targets over the joined lists, so a category in two groups counts twice. It equals the targets' total when the joined lists are the target keys. |
| SimpleBudgetChart.SimpleBudgetDataShape | src/components/SimpleBudgetChart.jsx:4-18 | There are exactly three rows. Needs and Wants sum their group's expenses. Savings adds the never-negative leftover income to the savings expenses. The rows add up to the larger of the expenses and the income. Each row's percentage is its share of the income (0 without a positive income), and the colours are the fixed red, amber and green. |
| SimpleBudgetChart.SimpleBudgetDataNonNegative | src/components/SimpleBudgetChart.jsx:8-17 | With non-negative expenses every row amount is non-negative. |
| ExpenditureChart.Round | src/components/ExpenditureChart.jsx:28 | The result is the integer nearest to the input, with halves rounded up. |
| ExpenditureChart.MaxAmount | src/components/ExpenditureChart.jsx:17 | The result bounds every row amount and is attained by some row. |
| ExpenditureChart.Share | src/components/ExpenditureChart.jsx:16-27 | The share is 0 for a zero total. Otherwise the share times the total is the amount times 100. |
| ExpenditureChart.WidthBounds | src/components/ExpenditureChart.jsx:17-28 | A bar's width lies in 0..100, and the largest non-zero amount gets full width. |
| ExpenditureChart.BuildBars | src/components/ExpenditureChart.jsx:26-37 | Bar `i` shows row `i`'s name and amount. It shows its given percentage, or else its share of the total. Its width is relative to the largest amount, and its colour is the row's colour or the accent. |
| ExpenditureChart.RenderShape | src/components/ExpenditureChart.jsx:4-26 | The placeholder shows exactly for missing or empty data. Otherwise there is one bar per row, in input order. |
| ExpenditureChart.RenderWidths | src/components/ExpenditureChart.jsx:17-28 | With non-negative amounts every rendered width lies in 0..100, and the top row is at 100. |
| ExpenditureChart.ShareTotalIsShareOfSum | src/components/ExpenditureChart.jsx:16-27 | The rows' shares add up to the share of their sum. |
| ExpenditureChart.SharesAddUpToHundred | src/components/ExpenditureChart.jsx:16-27 | With a non-zero total, the computed percentages add up to exactly 100. |
| YearInReview.MonthRows | src/components/YearInReview.jsx:12-33 | Row `m` is month `m` and holds that month's income minus its expenses. |
| YearInReview.Breakdown | src/components/YearInReview.jsx:10-33 | There are twelve rows, January first. Each row holds the net of exactly the transactions dated in that month of the year. |
| YearInReview.SavedColor | src/components/YearInReview.jsx:52 | A figure is green exactly when it is not negative, and red exactly when it is. |
| YearInReview.BreakdownAddsUpToYear | src/components/YearInReview.jsx:12-26 | The twelve monthly figures add up to the year's income minus its expenses. |
| YearInReview.MonthNetSumIsYearNet | src/components/YearInReview.jsx:12-26 | Summing the nets month by month gives the net of the year's transactions. |
| YearInReview.OverspentMonthIsNegative | src/components/YearInReview.jsx:13-52 | A month with only a positive expense shows a negative figure in red. |
| ViewTransactions.LexLeTotal | src/components/ViewTransactionsDrawer.jsx:93 | The category comparison is total. |
| ViewTransactions.LexLeTransitive | src/components/ViewTransactionsDrawer.jsx:93 | The category comparison is transitive. |
| ViewTransactions.OptionLeTotal | src/components/ViewTransactionsDrawer.jsx:90-94 | The option comparator, with "All" before everything, is total. |
| ViewTransactions.OptionLeTransitive | src/components/ViewTransactionsDrawer.jsx:90-94 | The option comparator is transitive. |
| ViewTransactions.InsertOption | src/components/ViewTransactionsDrawer.jsx:90-94 | Insertion adds exactly the one option. |
| ViewTransactions.InsertOptionSorted | src/components/ViewTransactionsDrawer.jsx:90-94 | Inserting into a sorted option list keeps it sorted. |
| ViewTransactions.SortOptions | src/components/ViewTransactionsDrawer.jsx:90-94 | The sort is a permutation of its input. |
| ViewTransactions.SortOptionsSorted | src/components/ViewTransactionsDrawer.jsx:90-94 | The sort's result is sorted. |
| ViewTransactions.Categories | src/components/ViewTransactionsDrawer.jsx:90 | A category is listed exactly when some transaction has it and it is not empty. |
| ViewTransactions.CategoryOptionsContents | src/components/ViewTransactionsDrawer.jsx:90-94 | "All" comes first and the options are sorted. They hold "All" and each non-empty category of a transaction, exactly once each. |
| ViewTransactions.Visible | src/components/ViewTransactionsDrawer.jsx:95-97 | Under "All", everything is shown. |
| ViewTransactions.OfCategoryMembers | src/components/ViewTransactionsDrawer.jsx:97 | A category's view holds exactly the transactions of that category. |
| ViewTransactions.ShownTotals | src/components/ViewTransactionsDrawer.jsx:98-99 | The figures are the income and expenses of what is shown, and the net is their difference. |
| ViewTransactions.OfCategoryTotals | src/components/ViewTransactionsDrawer.jsx:97-99 | For each type, a category's total and the rest's total add up to the whole list's total. |
| Records.WithoutIdMembers | src/components/ViewTransactionsDrawer.jsx:80 | After a delete, a transaction remains exactly when it was present and has another id. |
| ViewTransactions.DeleteThenView | src/components/ViewTransactionsDrawer.jsx:80-97 | Deleting and then filtering gives the same list as filtering and then deleting. |
| ViewTransactions.Received | src/components/ViewTransactionsDrawer.jsx:36-61 | A failed fetch or unparseable text keeps the list. An empty body or a non-array empties it. Rows are kept exactly when dated in the month. |
| ViewTransactions.Viewer.constructor | src/components/ViewTransactionsDrawer.jsx:13-16 | The list starts empty and the filter starts at "All". |
| ViewTransactions.Viewer.Open | src/components/ViewTransactionsDrawer.jsx:18-23 | Opening with a user resets the filter to "All" and loads the fetched month. Otherwise nothing changes. |
| ViewTransactions.Viewer.Receive | src/components/ViewTransactionsDrawer.jsx:25-61 | The list becomes `Received`, and the filter is kept. |
| ViewTransactions.Viewer.SelectCategory | src/components/ViewTransactionsDrawer.jsx:16 | Only the filter changes. |
| ViewTransactions.Viewer.LocalDelete | src/components/ViewTransactionsDrawer.jsx:70-81 | A confirmed delete removes exactly that id's transactions. Otherwise nothing changes. |
| TransactionsDrawer.CategoriesFor | src/components/TransactionsDrawer.jsx:88-92 | Each type offers a non-empty list. Income offers the income list. Savings offers the savings list or "Savings" alone. Expenses offer the expense list or its defaults. |
| TransactionsDrawer.PayloadType | src/components/TransactionsDrawer.jsx:55 | Only an expense is stored as an expense. Everything else, savings included, is stored as income. |
| TransactionsDrawer.FilterAmount | src/components/TransactionsDrawer.jsx:49 | The result is the input with every character other than a digit, a dot or a minus sign removed: it equals the generic order-keeping `Filter` of the input by that character class. |
| TransactionsDrawer.FilterAmountKeepsClean | src/components/TransactionsDrawer.jsx:49 | Input made only of amount characters passes unchanged, so filtering is idempotent. |
| TransactionsDrawer.FilterAmountAppend | src/components/TransactionsDrawer.jsx:49 | Filtering distributes over concatenation, so characters are kept in order. |
| TransactionsDrawer.Form.constructor | src/components/TransactionsDrawer.jsx:17-21 | The form starts as an empty expense. |
| TransactionsDrawer.Form.Open | src/components/TransactionsDrawer.jsx:24-34 | Opening resets the form to an expense in the first offered expense category. Closing changes nothing. |
| TransactionsDrawer.Form.SetType | src/components/TransactionsDrawer.jsx:36-42 | Choosing a type selects the first category that type offers. Amount and description are kept. |
| TransactionsDrawer.Form.SetCategory | src/components/TransactionsDrawer.jsx:118 | The chosen option becomes the category. Nothing else changes. |
| TransactionsDrawer.Form.SetAmount | src/components/TransactionsDrawer.jsx:131 | The amount text is kept as typed. Nothing else changes. |
| TransactionsDrawer.Form.SetDescription | src/components/TransactionsDrawer.jsx:152 | The description takes the typed text. Nothing else changes. |
| TransactionsDrawer.Form.Submit | src/components/TransactionsDrawer.jsx:46-65 | The amount is the parse of the filtered text, or 0. The type is mapped. The payload goes to the callback exactly when there is no user. |
| Advisor.Entries | src/components/AiAdvisorDrawer.jsx:7 | There is one entry per key, in key order, with its amount or 0. |
| Advisor.EntrySumIsSumOver | src/components/AiAdvisorDrawer.jsx:5-7 | The entries add up to the expense total. |
| Advisor.TopThree | src/components/AiAdvisorDrawer.jsx:7-9 | The result has three entries, or fewer when the input has fewer. |
| Advisor.TopThreeLargest | src/components/AiAdvisorDrawer.jsx:7-9 | The top entries come from the input, largest first, and none left out is larger than one kept. |
| Advisor.BuildContextSummary | src/components/AiAdvisorDrawer.jsx:4-18 | The total is the categories' total, and the net is the income to date minus it. The top categories are the three largest. |
| Advisor.IncomeHint | src/components/AiAdvisorDrawer.jsx:27-32 | There is a hint only with a positive projected income. It is the overspend hint exactly when spending exceeds that income. Otherwise it is the savings hint, never negative. |
| Advisor.LocalAdvice | src/components/AiAdvisorDrawer.jsx:22-44 | The snapshot figures come from the summary. The hints are the income hint, then the top categories when there are any. |
| Advisor.ReplyContent | src/components/AiAdvisorDrawer.jsx:91-95 | Local advice is shown exactly when the request failed. An empty answer becomes "No response.". Any other answer is shown as given. |
| Advisor.Chat.constructor | src/components/AiAdvisorDrawer.jsx:54-55 | The chat starts with no messages and an empty input. |
| Advisor.Chat.Open | src/components/AiAdvisorDrawer.jsx:62-68 | Opening an empty chat adds only the greeting. A chat with messages is kept. |
| Advisor.Chat.Send | src/components/AiAdvisorDrawer.jsx:72-96 | Blank input is ignored. Otherwise the trimmed question and exactly one assistant reply are appended, and the input is cleared. |
| Agent.Get | server/agent.py:100-103 | A missing key reads as None. |
| Agent.Split | server/agent.py:84 | Splitting gives at least one part, and no part contains a comma. |
| Agent.JoinSplit | server/agent.py:84 | Joining the split parts with commas restores the text. |
| Agent.SplitJoin | server/agent.py:84 | Splitting comma-free parts joined by commas restores the parts. |
| Agent.Upper | server/agent.py:84 | Upper-casing maps character by character. |
| Agent.CleanKeys | server/agent.py:84-85 | The one-pass cleaning equals the source's two comprehensions. Every part is stripped and upper-cased, then the empty ones are dropped, in order. There are no more keys than parts. |
| Agent.CleanKeysAreKeys | server/agent.py:84-85 | Every cleaned key is non-empty, trimmed, upper case and comma-free. |
| Agent.ParseRequestedInfo | server/agent.py:81-85 | An empty response requests nothing. Any other response is split at commas, each piece stripped and upper-cased, and the empty pieces dropped, in order. |
| Agent.ParsedAreKeys | server/agent.py:81-85 | Every parsed key is a clean key. |
| Agent.ParseRoundTrip | server/agent.py:81-85 | Parsing a comma-joined list of clean keys returns that list. |
| Agent.CleanKeysOfKeys | server/agent.py:84-85 | Clean keys pass cleaning unchanged. |
| Agent.Named | server/agent.py:99-152 | A key names a metric only under that metric's own name. |
| Agent.NamedName | server/agent.py:99-152 | Every metric is found under its name. |
| Agent.ExpenseTotal | server/agent.py:102-105 | A missing or falsy expense map totals 0. Only a non-dictionary value gives no total. |
| Agent.YtdTotalAppend | server/agent.py:125-138 | The year-to-date sums add over concatenated transaction lists. |
| Agent.YtdIgnoresOtherItems | server/agent.py:127-133 | A non-record, or a record from another year, adds nothing. |
| Agent.Metrics | server/agent.py:98-152 | Deriving fails exactly when the context makes Python raise. Otherwise a metric is present exactly when its rule gives a value, and it holds that value. |
| Agent.SavingsThisMonthPresence | server/agent.py:105-113 | Savings are reported exactly when the income is given and the expenses have a total, as their difference. A missing map counts as no expenses. |
| Agent.YtdPrecedence | server/agent.py:115-142 | A supplied year-to-date figure is reported as given. Otherwise it is computed from the current year's transactions when there are any. |
| Agent.DatabasePassthrough | server/agent.py:144-150 | Each database entry is copied through exactly when the context has it. |
| Agent.MonthMetrics | server/agent.py:99-113 | The month section fails exactly when the context fails, and otherwise agrees with `Metrics` on the month metrics. |
| Agent.AddYtdMetrics | server/agent.py:115-142 | The year-to-date section, loop included, brings the map into agreement with `Metrics` on the year-to-date metrics. |
| Agent.AddDatabaseMetrics | server/agent.py:144-150 | The passthrough section completes agreement on the database metrics. |
| Agent.DeriveMetrics | server/agent.py:98-152 | The three sections together compute exactly `Metrics`. |
| Agent.MetricsFromParts | server/agent.py:98-152 | A map agreeing on all three sections is `Metrics`. |
| Agent.Wanted | server/agent.py:93-95 | A requested key is copied exactly when it names a derived metric, and it is copied with that metric's value. |
| Agent.RequestedContext | server/agent.py:87-96 | An empty request copies nothing. Deriving fails exactly when a non-empty request meets a failing context. Otherwise exactly the requested metrics are copied. |
| Agent.RequestedContextKeys | server/agent.py:93-95 | Every requested key naming a present metric is copied with its value. |
| Agent.CopiedAll | server/agent.py:87-96 | A map that copies every requested key is the requested context. |
| Agent.CopiedStep | server/agent.py:93-95 | Copying one more key extends the copied prefix. |
| Agent.BuildRequestedContext | server/agent.py:87-96 | The loop computes exactly `RequestedContext`. |
| Agent.InfoValue | server/agent.py:73 | The stored request lists the keys in order. |
| Agent.ContextAfterFirstKeys | server/agent.py:68-75 | The first round fails exactly when a non-empty request meets a failing context. The later context keeps every original key, adds `REQUESTED_INFO`, and adds every requested metric. |
| Agent.FirstRoundContext | server/agent.py:68-75 | It computes the context update of round one. |
| Agent.LaterRoundsStep | server/agent.py:63-77 | One more refine round keeps the history well formed. |
| Agent.Run | server/agent.py:56-79 | There are `maxRounds` numbered steps. The first step asks the initial prompt in the given context. Each later step refines the previous response in the context updated once, after round one. The answer is the last response, or "" for zero rounds. |
| Dashboard.MonthNames | src/components/Dashboard.jsx:20-23 | There are twelve month names, January to December. |
| Dashboard.YearChoices | src/components/Dashboard.jsx:24 | There are seven consecutive years, centred on the selected one. |
| Dashboard.YearChoicesAroundSelected | src/components/Dashboard.jsx:24 | The selected year is offered. Every offered year lies within three years of it, in ascending order. |
| Dashboard.SelectList | src/components/Dashboard.jsx:26-30 | The view chooses the expense list or the income list. Any other view gets the transaction list. |
| Dashboard.FindOption | src/components/Dashboard.jsx:32 | The lookup fails exactly when no option has the key. A found option has the key. |
| Dashboard.Label | src/components/Dashboard.jsx:32 | An unknown view is headed "Top 3". |
| Dashboard.LabelMatchesList | src/components/Dashboard.jsx:3-32 | Each known view gets its own heading together with its own list. Any other view shows the transactions under "Top 3". |
| Collections.Trim | src/components/CategoriesDrawer.jsx:57 | The result is a piece of the input with only white space before and after it, and neither of its ends is white space. |
| Collections.TrimmedCutIsTrim | src/components/CategoriesDrawer.jsx:57 | Such a piece is unique, so any trimmed piece with only white space around it is the trim. |
| Collections.TrimIdempotent | src/components/CategoriesDrawer.jsx:57 | Trimming twice gives the same text as trimming once. |
| Collections.Dedup | server/app.py:80 | The result holds exactly the input's elements, each once, and is no longer than the input. |
| Collections.DedupFirstOccurrenceOrder | server/app.py:80 | The kept elements are listed in the order of their first occurrence in the input. |

## Left out

- Parsing numbers from text (`int()`, `float()`, `parseFloat`) is not modelled. `parseFloat` is a function parameter. On the server only JSON numbers and booleans convert, and any string counts as a conversion failure (500).
- Amounts are integer cents. Floating-point rounding and NaN are not modelled.
- The expense crediting in `src/App.jsx` reads NaN when the category list lacks "Other". `App.ExpensesByCategory` requires "Other" among the categories, which the default list and every server-normalised list guarantee.
- Date parsing, time zones and the current clock are not modelled. A parsed date is its year and month. The current year is a parameter. The `date` field of the add-transaction form and of a created transaction is not modelled.
- The drawer's month window compares dates against the first and last day of the month. It is modelled as a year-and-month match, which is the same for dates without a time of day.
- `localeCompare` is modelled as code-point order.
- `strip`, `trim` and `upper` are modelled on ASCII whitespace and ASCII letters.
- Number, currency and date formatting (`toFixed`, `Intl.NumberFormat`, `Intl.DateTimeFormat`, `toLocaleDateString`) are not modelled. Rows carry the numeric value.
- `ReactMarkdown` rendering and the layout are not modelled.
- The text of the advisor's fallback is not modelled. It is kept as structured figures and hints (`Advisor.Advice`). The category strings and their ", " joining are not modelled.
- `Advisor.IncomeHint` keeps the source's `Math.max(0, …)`, which can never take effect there.
- HTTP, `fetch`, the database session, the OpenAI call and the Django prompt templates are not modelled. Fetch and post outcomes are parameters (`ViewTransactions.Payload`, `Advisor.Reply`, `TransactionsDrawer.Submission`). The model call and the two prompt builders of the agent are function parameters of `Agent.Run`.
- The user, health and other CRUD routes are not part of this model. Neither are `update_user_categories`, config persistence, migrations and the remaining components.
- `crypto.randomUUID()` is modelled as a counter (`CategoriesDrawer.Editor.nextId`) that hands out ids never used before.
- The targets drawer's `handleSave` passes the values map to its callback unchanged, and `onClose` only hides the drawer. Neither gets a member.
- Python dictionary insertion order in the agent's metrics and requested context is not modelled. They are maps.
- The shapes of context values beyond what the metric rules inspect are not modelled (`Agent.Raw`).
- `Agent.MetricsFail` is the one Python exception the model keeps. It is a non-numeric, non-null income met by an expense total, where the subtraction at server/agent.py:113 raises (`None` from `Agent.Run`). A truthy `expensesByCategory` that is not a dictionary gives no total, as in the source, and raises nothing.
- Two other raises of the metric derivation are not modelled. The first is `sum()` over a dictionary with non-numeric values (server/agent.py:105). An `expensesByCategory` of the record shape is `Agent.Raw.Record`, which is not a dictionary there, so the model reports no total where Python raises. The second is `+=` with a null or non-numeric amount of a current-year record (server/agent.py:134-138). Record amounts are integers in the model.
- `ServerCategories.CreateTransaction` takes the request body as an optional JSON object. A body that is a non-empty JSON list or string is truthy and reaches the `key not in data` checks (server/app.py:271-273). There it gives a 400 or a 500, which the model does not cover.
- JavaScript lists the integer-like keys of an object (such as "2024") first, in ascending numeric order, in `Object.values` and `Object.entries`. `Records.Amounts` keeps insertion order for every key.
- React re-render timing is not modelled. Effects and handlers are methods called in order.
- The `amount || 0` guards are the identity on integer amounts and are not written out.
