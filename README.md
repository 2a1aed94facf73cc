# Finanzas personales: a verified model

This project models the logic of a personal-finance Android app for a
Colombian bank customer, and of the small tools beside it. The app reads the
bank's SMS notifications, extracts amount, provider, date and account from
each message, and turns them into transactions. It assigns each transaction
a category by keyword scoring and keeps a transaction-to-category cache. It
totals spending per category and per month, answers four kinds of spending
question, and draws the cumulative spending of a month. The tools are a
Node.js search page and CSV backup over the Firestore data, a Firestore
de-duplication script, and a Streamlit dashboard over the CSV backups.

The model has one Dafny module per source file, plus three shared modules:

- `Common`: the transaction, category and SMS records, a calendar date, filter, sum, take, substring search, case folding and trimming.
- `Sorting`: Kotlin's stable `sortedBy`/`sortedWith`, proved ordered, a permutation, stable, and unique with these three properties.
- `Aggregation`: the zero-initialised group-by-sum loop that three screens share.

Code that works by changing state is modelled as classes with fields and
methods. This covers the view models, the repository caches, the category
store, the keyword set and the scan loops. Each method's `ensures` ties its
new state to a function of the old state and its inputs. The properties of
those functions are proved as lemmas.

Pure code is modelled as functions with lemmas: the mappers, the filters,
the insight rules and the text extractors. Each regular expression of the
extractors is written out as the left-to-right scan its matcher performs.

Repositories, Firestore, the content resolvers, contact lookup, MD5 and UUID
generation, `detectAccountInfo`, the date parser and "now" are not modelled.
Their results become parameters or function-typed inputs. Each launched
coroutine is one sequential method whose outcomes of the calls it makes are
inputs.

Amounts are `real`; Kotlin's `Float` rounding is not modelled. Colours are
the signed 32-bit `Int` values of their ARGB literals. A date is a record
(year, month 1..12, day, time of day in milliseconds), ordered
chronologically.

Several quirks are modelled as the code has them and proved as such:

- None of the default categories has an id, so every "default Other id" is null.
- The dashboard passes the 0-based calendar month into a 1-based comparison, so it shows the previous month and nothing in January.
- The first alternative of the amount pattern truncates an unseparated digit run: "$12345" gives "$123".
- `SmsReceiver.extractNumericAmount` reads "1.234" as 12.34.
- `CategoryRepositoryImpl.getTransactionsByCategory` never takes its "Other" branch.

Where the source is inconsistent, the model follows the code that runs:

- The transaction key and the category keywords read `originalMessage`, which `TransactionData` lacks. The message is a parameter.
- The backup mode is taken from the first `--mode=` argument only, cut at the next `=`. This is narrower than "any argument `--mode=backup`".
- The auto-assignment pass stores the assigned category's id on the transaction even when it is null. It then hands that id to `saveCategoryForTransaction`, which takes a non-null `String` (TransactionRepositoryImpl.kt:203-205 and 279). Every default category has a null id, so this is the common case. The model sets the null id and records a mapping only when the id is present (`AssignOne`).

The model of the Streamlit dashboard follows its script. Note these behaviours:

- The four metrics are summed over the rows left by every sidebar filter, not over the year and month rows alone.
- Reversed amount bounds are not an error: the inclusive `between` keeps no row.
- A transaction whose category id has no category gets a missing name, not a placeholder. It is in no category group, so the category totals add up to the amounts of the rows that have a name.
- The category multiselect offers names but compares them with ids (see Findings).

## Model

| member | source | states |
|---|---|---|
| Mappers.TransactionEntityRoundTrip | app/src/main/java/com/example/finanzaspersonales/data/db/mapper/TransactionMapper.kt:8-32 | an entity read into the domain and written back is the same entity (its id is present, so no fresh UUID is drawn) |
| Mappers.TransactionDomainRoundTrip | app/src/main/java/com/example/finanzaspersonales/data/db/mapper/TransactionMapper.kt:8-32 | a transaction written and read back is unchanged except that a missing id becomes the fresh one |
| Mappers.CategoryEntityRoundTrip | app/src/main/java/com/example/finanzaspersonales/data/db/mapper/CategoryMapper.kt:6-18 | a category entity read and written back is the same entity |
| Mappers.CategoryDomainRoundTrip | app/src/main/java/com/example/finanzaspersonales/data/db/mapper/CategoryMapper.kt:6-18 | a category written and read back is unchanged except that a missing id becomes the fresh one |
| Mappers.TransactionToDomain | app/src/main/java/com/example/finanzaspersonales/data/db/mapper/TransactionMapper.kt:8-19 | the id becomes present, and writing the result back gives the same entity whatever fresh id is on offer |
| Mappers.TransactionToEntity | app/src/main/java/com/example/finanzaspersonales/data/db/mapper/TransactionMapper.kt:21-32 | a present id is kept; a missing id is replaced by the fresh UUID |
| Mappers.CategoryToDomain | app/src/main/java/com/example/finanzaspersonales/data/db/mapper/CategoryMapper.kt:7-12 | the id becomes present, and writing the result back gives the same entity whatever fresh id is on offer |
| Mappers.CategoryToEntity | app/src/main/java/com/example/finanzaspersonales/data/db/mapper/CategoryMapper.kt:14-19 | a present id is kept; a missing id is replaced by the fresh UUID |
| DefaultCategories.DefaultOtherId | app/src/main/java/com/example/finanzaspersonales/data/local/SharedPrefsManager.kt:122-136 | the id of the default "Other" category is null |
| DefaultCategories.DefaultsHaveNoIds | app/src/main/java/com/example/finanzaspersonales/data/local/SharedPrefsManager.kt:122-136 | no default category has an id, and every default color is a negative 32-bit ARGB word |
| TransactionOrder.ByDatePreorder | app/src/main/java/com/example/finanzaspersonales/ui/dashboard/DashboardViewModel.kt:163 | comparing by date is a total preorder, as `sortedByDescending { it.date }` needs |
| TransactionOrder.ByAmountPreorder | app/src/main/java/com/example/finanzaspersonales/ui/transaction_list/TransactionListViewModel.kt:163-164 | comparing by amount is a total preorder |
| TransactionOrder.NewestFirst | app/src/main/java/com/example/finanzaspersonales/ui/dashboard/DashboardViewModel.kt:163 | the newest-first list is a permutation of its input |
| TransactionOrder.NewestFirstOrdered | app/src/main/java/com/example/finanzaspersonales/ui/dashboard/DashboardViewModel.kt:163 | newest first is ordered by date from the latest down and keeps transactions of equal date in input order |
| TransactionOrder.LatestTaken | app/src/main/java/com/example/finanzaspersonales/ui/dashboard/DashboardViewModel.kt:162-164 | taking n of the newest-first list gives min(n, size) transactions, each at least as new as every one left out, all from the input |
| TransactionRepository.FilterTransactions | app/src/main/java/com/example/finanzaspersonales/data/repository/TransactionRepositoryImpl.kt:109-126 | the result is a subsequence of the input that keeps every copy of each transaction matching every non-null criterion of year, month and type, and no other transaction |
| TransactionRepository.FilterWithoutCriteria | app/src/main/java/com/example/finanzaspersonales/data/repository/TransactionRepositoryImpl.kt:113-123 | with year, month and type all null the input comes back unchanged |
| TransactionRepository.TransactionsByCategory | app/src/main/java/com/example/finanzaspersonales/data/repository/TransactionRepositoryImpl.kt:215-266 | for the category named "Other" in any case, the transactions with no category or that id; for any other id, those with that id; in input order, every copy of a kept transaction kept and no other transaction |
| TransactionRepository.KeyInputSeparatesAddress | app/src/main/java/com/example/finanzaspersonales/data/repository/TransactionRepositoryImpl.kt:304-308 | for addresses without "_", equal key texts have the same address and the same body-and-timestamp part |
| TransactionRepository.SplitAtSeparator | app/src/main/java/com/example/finanzaspersonales/data/repository/TransactionRepositoryImpl.kt:304-308 | a text split at its first "_" after a head free of "_" has one head and one tail |
| TransactionRepository.KeyInputAmbiguous | app/src/main/java/com/example/finanzaspersonales/data/repository/TransactionRepositoryImpl.kt:304-308 | without that condition the join is ambiguous: address "a_b" with body "c" and address "a" with body "b_c" give the same key text |
| TransactionRepository.KeyUnchangedByAssignment | app/src/main/java/com/example/finanzaspersonales/data/repository/TransactionRepositoryImpl.kt:304-308 | assigning a category never changes a transaction's key |
| TransactionRepository.DistinctByFromKeys | app/src/main/java/com/example/finanzaspersonales/data/repository/TransactionRepositoryImpl.kt:180-182 | `distinctBy` keeps pairwise distinct keys, none already seen, and loses no key of the input |
| TransactionRepository.DistinctByFromSubsequence | app/src/main/java/com/example/finanzaspersonales/data/repository/TransactionRepositoryImpl.kt:180-182 | `distinctBy` keeps a subsequence of its input |
| TransactionRepository.DistinctByFromAppend | app/src/main/java/com/example/finanzaspersonales/data/repository/TransactionRepositoryImpl.kt:180-182 | `distinctBy` of a concatenation runs over the second part with the first part's keys already seen |
| TransactionRepository.DistinctByFromIdentity | app/src/main/java/com/example/finanzaspersonales/data/repository/TransactionRepositoryImpl.kt:180-182 | a list whose keys are distinct and unseen passes `distinctBy` unchanged |
| TransactionRepository.MergeKeepsCacheFirst | app/src/main/java/com/example/finanzaspersonales/data/repository/TransactionRepositoryImpl.kt:180-182 | merging a chunk into a cache with distinct keys keeps the cache first and unchanged, adds only new keys, and keeps all keys distinct |
| TransactionRepository.MergeChunksAssociative | app/src/main/java/com/example/finanzaspersonales/data/repository/TransactionRepositoryImpl.kt:155-157 | merging chunk by chunk gives the same cache as merging all the transactions at once |
| TransactionRepository.ChunkStep | app/src/main/java/com/example/finanzaspersonales/data/repository/TransactionRepositoryImpl.kt:155-157 | merging the next chunk's transactions gives the cache of the longer message prefix |
| TransactionRepository.ExtractAllAppend | app/src/main/java/com/example/finanzaspersonales/data/repository/TransactionRepositoryImpl.kt:169-176 | the extracted transactions of two message lists are those of each, in order, failed extractions dropped |
| TransactionRepository.AssignAll | app/src/main/java/com/example/finanzaspersonales/data/repository/TransactionRepositoryImpl.kt:191-209 | the pass keeps the number of transactions and never removes a mapping |
| TransactionRepository.AssignAllKeepsSaved | app/src/main/java/com/example/finanzaspersonales/data/repository/TransactionRepositoryImpl.kt:197-200 | a mapping already saved is never overwritten by the pass |
| TransactionRepository.AssignAllOtherKeys | app/src/main/java/com/example/finanzaspersonales/data/repository/TransactionRepositoryImpl.kt:191-209 | keys of transactions outside the pass are left alone in the mapping cache |
| TransactionRepository.AssignAllRule | app/src/main/java/com/example/finanzaspersonales/data/repository/TransactionRepositoryImpl.kt:191-209 | with distinct keys, a transaction with a saved mapping gets exactly that id; otherwise it gets the auto-assigned id, which is recorded; with no auto-assigned category it and its mapping are untouched |
| TransactionRepository.AssignAllSuffixKeeps | app/src/main/java/com/example/finanzaspersonales/data/repository/TransactionRepositoryImpl.kt:191-209 | a key that no later transaction shares ends with the mapping written at its own step |
| TransactionRepository.AssignStep | app/src/main/java/com/example/finanzaspersonales/data/repository/TransactionRepositoryImpl.kt:191-209 | one iteration extends the processed prefix by the updated transaction and the new mapping cache |
| TransactionRepository.IndexOfKey | app/src/main/java/com/example/finanzaspersonales/data/repository/TransactionRepositoryImpl.kt:140-142 | the position found is the first whose key is the id; none is found only when no transaction has that key |
| TransactionRepository.Repository.constructor | app/src/main/java/com/example/finanzaspersonales/data/repository/TransactionRepositoryImpl.kt:55-57 | the transaction cache starts empty and the mapping cache holds the saved mappings |
| TransactionRepository.Repository.GetTransactionById | app/src/main/java/com/example/finanzaspersonales/data/repository/TransactionRepositoryImpl.kt:140-142 | a transaction is found exactly when some cached transaction has that key, and it has that key |
| TransactionRepository.Repository.GetSavedCategoryForTransaction | app/src/main/java/com/example/finanzaspersonales/data/repository/TransactionRepositoryImpl.kt:272-274 | the saved category id is the mapping cache's entry for the key, and none without one |
| TransactionRepository.Repository.SaveCategoryForTransaction | app/src/main/java/com/example/finanzaspersonales/data/repository/TransactionRepositoryImpl.kt:279-282 | the mapping cache gets the key's entry set to the category id and nothing else changes |
| TransactionRepository.Repository.ProcessChunk | app/src/main/java/com/example/finanzaspersonales/data/repository/TransactionRepositoryImpl.kt:167-186 | the cache becomes the old cache followed by the extracted transactions with a new key, first key winning, and its keys stay distinct |
| TransactionRepository.Repository.ApplyCategoryAssignments | app/src/main/java/com/example/finanzaspersonales/data/repository/TransactionRepositoryImpl.kt:191-209 | the cache and the mapping cache become those of the left-to-right pass over the cached transactions |
| TransactionRepository.Repository.AssignCategoryToTransaction | app/src/main/java/com/example/finanzaspersonales/data/repository/TransactionRepositoryImpl.kt:287-299 | an unknown key returns false and changes nothing; a known key sets the first such transaction's category, sets the mapping and returns true |
| TransactionRepository.Repository.RefreshSmsData | app/src/main/java/com/example/finanzaspersonales/data/repository/TransactionRepositoryImpl.kt:147-165 | without permission nothing changes; otherwise the messages are merged in chunks of 50 and the assignment pass then runs over the whole cache |
| TransactionRepository.Repository.InitializeTransactions | app/src/main/java/com/example/finanzaspersonales/data/repository/TransactionRepositoryImpl.kt:45-49 | an empty cache is left alone; a non-empty one gets the assignment pass |
| TransactionRepository.Repository.GetTransactions | app/src/main/java/com/example/finanzaspersonales/data/repository/TransactionRepositoryImpl.kt:79-87 | an empty cache is filled from the inbox; a non-empty one gets the assignment pass; the cache is returned |
| TransactionRepository.Repository.GetTransactionsByCategory | app/src/main/java/com/example/finanzaspersonales/data/repository/TransactionRepositoryImpl.kt:215-266 | `getTransactions` runs first, with its effect on the caches; the answer is its returned cache filtered for the category |
| Aggregation.Totals | app/src/main/java/com/example/finanzaspersonales/domain/usecase/GetSpendingByCategoryUseCase.kt:42-76 | the map, each key started at 0 and each element added to its group, has exactly the given keys and holds for each the sum of its group's amounts |
| Aggregation.GroupTotalIsFilteredSum | app/src/main/java/com/example/finanzaspersonales/domain/usecase/GetSpendingByCategoryUseCase.kt:56-76 | a group's total is the sum over the elements sent to that group |
| Aggregation.GroupsPartition | app/src/main/java/com/example/finanzaspersonales/domain/usecase/GetSpendingByCategoryUseCase.kt:56-76 | when every group an element is sent to is listed, the totals over distinct keys add up to the sum over all the elements sent to some group |
| SpendingByCategory.Fallback | app/src/main/java/com/example/finanzaspersonales/domain/usecase/GetSpendingByCategoryUseCase.kt:48-49 | the fallback is a listed category whose id equals the default "Other" id, which is null; there is none only when every category has an id |
| SpendingByCategory.Target | app/src/main/java/com/example/finanzaspersonales/domain/usecase/GetSpendingByCategoryUseCase.kt:56-64 | an amount is only ever added to a listed category |
| SpendingByCategory.TargetRule | app/src/main/java/com/example/finanzaspersonales/domain/usecase/GetSpendingByCategoryUseCase.kt:56-64 | a non-blank id carried by some category sends the amount to the first such category; a null, blank or unknown id sends it to the fallback |
| SpendingByCategory.SpendingByCategory | app/src/main/java/com/example/finanzaspersonales/domain/usecase/GetSpendingByCategoryUseCase.kt:24-78 | no categories give an empty map; otherwise the keys are exactly the categories, and each value is the sum of the filtered amounts whose target is that category |
| SpendingByCategory.TotalsPartitionSpending | app/src/main/java/com/example/finanzaspersonales/domain/usecase/GetSpendingByCategoryUseCase.kt:42-76 | with a fallback category the totals over the distinct categories add up to the sum of all filtered amounts |
| CategoryRepository.IndexOfId | app/src/main/java/com/example/finanzaspersonales/data/repository/CategoryRepositoryImpl.kt:86 | the index found is the first whose id matches; none is found only when no entry has that id |
| CategoryRepository.Replaced | app/src/main/java/com/example/finanzaspersonales/data/repository/CategoryRepositoryImpl.kt:84-91 | the list keeps its length; the first entry with the id is replaced by the category and every other entry is unchanged; with no match the list is unchanged |
| CategoryRepository.Removed | app/src/main/java/com/example/finanzaspersonales/data/repository/CategoryRepositoryImpl.kt:96-101 | the first entry with the id is removed and the rest keep their order; with no match the list is unchanged |
| CategoryRepository.ReplacedSwapsOne | app/src/main/java/com/example/finanzaspersonales/data/repository/CategoryRepositoryImpl.kt:84-91 | replacing swaps one entry for the new category in the multiset of entries |
| CategoryRepository.RemovedDropsOne | app/src/main/java/com/example/finanzaspersonales/data/repository/CategoryRepositoryImpl.kt:96-101 | removing takes exactly one entry, the first with that id, out of the multiset of entries |
| CategoryRepository.CategoryStore.constructor | app/src/main/java/com/example/finanzaspersonales/data/local/SharedPrefsManager.kt:60-68 | the store starts from the saved preferences entry |
| CategoryRepository.CategoryStore.Load | app/src/main/java/com/example/finanzaspersonales/data/local/SharedPrefsManager.kt:60-68 | with nothing saved the default categories are read; otherwise the saved list |
| CategoryRepository.CategoryStore.AddCategory | app/src/main/java/com/example/finanzaspersonales/data/repository/CategoryRepositoryImpl.kt:75-79 | the saved list becomes the loaded list with the category appended |
| CategoryRepository.CategoryStore.UpdateCategory | app/src/main/java/com/example/finanzaspersonales/data/repository/CategoryRepositoryImpl.kt:84-91 | a known id saves the list with that entry replaced; an unknown id saves nothing |
| CategoryRepository.CategoryStore.DeleteCategory | app/src/main/java/com/example/finanzaspersonales/data/repository/CategoryRepositoryImpl.kt:96-123 | a known id saves the list with that entry removed; an unknown id saves nothing; no transaction is reassigned |
| CategoryRepository.TransactionsByCategory | app/src/main/java/com/example/finanzaspersonales/data/repository/CategoryRepositoryImpl.kt:142-166 | the "Other" branch, which adds uncategorized transactions, applies only when the request equals the default "Other" id; otherwise the transactions with that id; in order, every copy of a kept transaction kept and no other transaction |
| CategoryRepository.NeverOtherBranch | app/src/main/java/com/example/finanzaspersonales/data/repository/CategoryRepositoryImpl.kt:150-165 | with the real default "Other" id, which is null, the result is exactly the transactions whose id equals the request |
| CategoryRepository.RepoTarget | app/src/main/java/com/example/finanzaspersonales/data/repository/CategoryRepositoryImpl.kt:209-246 | there is a target exactly when the category list is not empty, and it is a listed category |
| CategoryRepository.SpendingByCategory | app/src/main/java/com/example/finanzaspersonales/data/repository/CategoryRepositoryImpl.kt:174-258 | no categories is the failing `categories.last()`; otherwise the result holds exactly the categories with a positive total, each mapped to the sum of its filtered expenses |
| CategoryRepository.IncomeIgnored | app/src/main/java/com/example/finanzaspersonales/data/repository/CategoryRepositoryImpl.kt:185-190 | an income transaction never reaches the filtered expenses |
| CategoryRepository.ExpensesPartitioned | app/src/main/java/com/example/finanzaspersonales/data/repository/CategoryRepositoryImpl.kt:221-246 | every expense is counted in exactly one category, so over distinct categories the totals add up to all expenses |
| CategoryRepository.ExpenseGoesToOwnCategory | app/src/main/java/com/example/finanzaspersonales/data/repository/CategoryRepositoryImpl.kt:225-229 | an expense whose id matches exactly one category is counted there |
| Dashboard.IncomeAndExpenses | app/src/main/java/com/example/finanzaspersonales/ui/dashboard/DashboardViewModel.kt:147-159 | the loop's income sum is the sum of the income amounts and its expense sum the sum of all the others |
| Dashboard.SumStep | app/src/main/java/com/example/finanzaspersonales/ui/dashboard/DashboardViewModel.kt:150-156 | a filtered running sum grows by the next amount exactly when the filter keeps that transaction |
| Dashboard.IncomeAndExpensesPartition | app/src/main/java/com/example/finanzaspersonales/ui/dashboard/DashboardViewModel.kt:147-159 | every transaction is counted in exactly one of the two sums, so together they are the total |
| Dashboard.CurrentMonthTransactions | app/src/main/java/com/example/finanzaspersonales/ui/dashboard/DashboardViewModel.kt:135-144 | the month filter keeps, in order and with every copy, exactly this year's transactions whose 1-based month equals the 0-based calendar month, i.e. the previous month |
| Dashboard.JanuaryIsEmpty | app/src/main/java/com/example/finanzaspersonales/ui/dashboard/DashboardViewModel.kt:135-144 | in January the month filter asks for month 0 and finds nothing |
| Dashboard.Recent | app/src/main/java/com/example/finanzaspersonales/ui/dashboard/DashboardViewModel.kt:162-164 | at most five transactions, all from the input (ordered newest first, as TransactionOrder.LatestTaken states) |
| Dashboard.DashboardViewModel.constructor | app/src/main/java/com/example/finanzaspersonales/ui/dashboard/DashboardViewModel.kt:31-47 | the totals start at zero, the recent list empty, no loading, no syncing and no sync error |
| Dashboard.DashboardViewModel.LoadDashboardData | app/src/main/java/com/example/finanzaspersonales/ui/dashboard/DashboardViewModel.kt:114-176 | the sync flags are untouched; loading is neither set nor cleared while syncing; on success the totals are the income and expense sums of the month filter and the recent list the latest five; on failure the data is untouched |
| Dashboard.DashboardViewModel.CheckAndPerformInitialSync | app/src/main/java/com/example/finanzaspersonales/ui/dashboard/DashboardViewModel.kt:54-109 | a user already synced only loads data, with the loading flag as `loadDashboardData` leaves it; otherwise a category-sync failure stops before the transaction sync, either failure sets the error text, leaves the user unsynced and keeps the sums and the recent list; only two successes mark the user synced; on the synced path and after two successes the month's income and expense sums and the recent list are those of the loaded transactions (unchanged when the load fails); syncing always ends cleared |
| Dashboard.FailureText | app/src/main/java/com/example/finanzaspersonales/ui/dashboard/DashboardViewModel.kt:104 | the error text is "Sync failed: " followed by the exception's message |
| Visualization.DaysInMonth | app/src/main/java/com/example/finanzaspersonales/ui/visualizations/VisualizationViewModel.kt:112 | a month has 28 to 31 days: February 29 exactly in Gregorian leap years, April, June, September and November 30, the rest 31 |
| Visualization.MonthsBack | app/src/main/java/com/example/finanzaspersonales/ui/visualizations/VisualizationViewModel.kt:72-80 | going back `offset` months lands on a valid month exactly `offset` months earlier |
| Visualization.PreviousMonth | app/src/main/java/com/example/finanzaspersonales/ui/visualizations/VisualizationViewModel.kt:72-74 | one month back from January is December of the year before; otherwise the month before in the same year |
| Visualization.MonthIndexUnique | app/src/main/java/com/example/finanzaspersonales/ui/visualizations/VisualizationViewModel.kt:72-80 | a year and month are determined by their month count, so each offset names a distinct month |
| Visualization.DaysToProcess | app/src/main/java/com/example/finanzaspersonales/ui/visualizations/VisualizationViewModel.kt:105-113 | the current month covers the days up to today; any other month its full length |
| Visualization.DayTotalSnoc | app/src/main/java/com/example/finanzaspersonales/ui/visualizations/VisualizationViewModel.kt:118-124 | adding a transaction adds its amount to exactly the total of its own day |
| Visualization.SpentByStep | app/src/main/java/com/example/finanzaspersonales/ui/visualizations/VisualizationViewModel.kt:126-131 | the running sum grows by each day's total |
| Visualization.SpentByNone | app/src/main/java/com/example/finanzaspersonales/ui/visualizations/VisualizationViewModel.kt:126-131 | before the first day nothing has been spent |
| Visualization.SpentByMonotone | app/src/main/java/com/example/finanzaspersonales/ui/visualizations/VisualizationViewModel.kt:126-131 | with no negative amounts, more days never spend less |
| Visualization.SeriesShape | app/src/main/java/com/example/finanzaspersonales/ui/visualizations/VisualizationViewModel.kt:98-131 | the series is empty exactly when the month has no transactions (or no day to process), and otherwise has one value per day to process |
| Visualization.SeriesNonDecreasing | app/src/main/java/com/example/finanzaspersonales/ui/visualizations/VisualizationViewModel.kt:126-131 | with non-negative amounts the cumulative series never goes down |
| Visualization.SpendingOnly | app/src/main/java/com/example/finanzaspersonales/ui/visualizations/VisualizationViewModel.kt:63 | an income transaction changes none of the series |
| Visualization.DailySpending | app/src/main/java/com/example/finanzaspersonales/ui/visualizations/VisualizationViewModel.kt:116-124 | array element d is the total of the month's transactions dated on day d + 1; days past the days to process are ignored |
| Visualization.CumulativeSpendingForMonth | app/src/main/java/com/example/finanzaspersonales/ui/visualizations/VisualizationViewModel.kt:96-133 | the method returns the cumulative series: element i is what was spent on days 1 to i + 1 of that month |
| Visualization.ValueAt | app/src/main/java/com/example/finanzaspersonales/ui/visualizations/VisualizationViewModel.kt:88 | a series' value at i, else its last value, else 0 |
| Visualization.MaxLen | app/src/main/java/com/example/finanzaspersonales/ui/visualizations/VisualizationViewModel.kt:84 | the length of the longest series, 0 for none |
| Visualization.Averaged | app/src/main/java/com/example/finanzaspersonales/ui/visualizations/VisualizationViewModel.kt:85-91 | the average has the longest series' length |
| Visualization.SumAtSame | app/src/main/java/com/example/finanzaspersonales/ui/visualizations/VisualizationViewModel.kt:87-90 | adding up copies of one series' value gives the count times that value |
| Visualization.ValueAtWithin | app/src/main/java/com/example/finanzaspersonales/ui/visualizations/VisualizationViewModel.kt:88 | a carried-forward value stays within the series' bounds when those bounds include 0 |
| Visualization.RepeatedIsProduct | app/src/main/java/com/example/finanzaspersonales/ui/visualizations/VisualizationViewModel.kt:90 | n copies of x add up to n times x |
| Visualization.SumAtBounded | app/src/main/java/com/example/finanzaspersonales/ui/visualizations/VisualizationViewModel.kt:87-90 | the sum of the values at one point lies between n times the lower and n times the upper bound |
| Visualization.MeanBounded | app/src/main/java/com/example/finanzaspersonales/ui/visualizations/VisualizationViewModel.kt:90 | a mean of values within bounds lies within them |
| Visualization.AveragedOfCopies | app/src/main/java/com/example/finanzaspersonales/ui/visualizations/VisualizationViewModel.kt:85-91 | averaging copies of one series gives that series back |
| Visualization.AveragedBounded | app/src/main/java/com/example/finanzaspersonales/ui/visualizations/VisualizationViewModel.kt:85-91 | every point of the average lies within the bounds of all the values averaged |
| Visualization.LastMonths | app/src/main/java/com/example/finanzaspersonales/ui/visualizations/VisualizationViewModel.kt:78-81 | one series per month offset 1 to n |
| Visualization.LastSixMonths | app/src/main/java/com/example/finanzaspersonales/ui/visualizations/VisualizationViewModel.kt:78-81 | the six series are those of the months 1 to 6 before today, in that order |
| Visualization.VisualizationViewModel.constructor | app/src/main/java/com/example/finanzaspersonales/ui/visualizations/VisualizationViewModel.kt:24-37 | all three series start empty, no loading and no error |
| Visualization.VisualizationViewModel.ProcessTransactions | app/src/main/java/com/example/finanzaspersonales/ui/visualizations/VisualizationViewModel.kt:62-94 | over the expenses only: the current month up to today, the previous full month, and the average of the six months before |
| Visualization.VisualizationViewModel.LoadSpendingData | app/src/main/java/com/example/finanzaspersonales/ui/visualizations/VisualizationViewModel.kt:43-60 | loading always ends; a failed fetch sets the error text and keeps the three series; a successful one clears the error and sets, over the fetched expenses, the current month's series, the previous month's series and the six-month average |
| SpendingInsights.AmountOf | app/src/main/java/com/example/finanzaspersonales/domain/tools/SpendingInsightsTool.kt:161-162 | a category absent from the spending map has amount 0; one listed once has its listed amount |
| SpendingInsights.FindCategory | app/src/main/java/com/example/finanzaspersonales/domain/tools/SpendingInsightsTool.kt:148-149 | the category found matches the name ignoring case; none is found only when no category matches |
| SpendingInsights.Percentage | app/src/main/java/com/example/finanzaspersonales/domain/tools/SpendingInsightsTool.kt:163 | with a positive budget the percentage is 100 times spent over budget; otherwise 0 |
| SpendingInsights.PercentageOverBudget | app/src/main/java/com/example/finanzaspersonales/domain/tools/SpendingInsightsTool.kt:163-171 | with a positive budget the percentage passes 100 exactly when the spending passes the budget, and is at most 50 exactly when the spending is at most half of it |
| SpendingInsights.SignOfProduct | app/src/main/java/com/example/finanzaspersonales/domain/tools/SpendingInsightsTool.kt:163-164 | with a positive budget the sign of a product follows the other factor, which ties the tiers to the amounts |
| SpendingInsights.BudgetTier | app/src/main/java/com/example/finanzaspersonales/domain/tools/SpendingInsightsTool.kt:166-171 | the summary is the first tier of <= 50, <= 80, <= 100 that holds, else over budget |
| SpendingInsights.BudgetAdvice | app/src/main/java/com/example/finanzaspersonales/domain/tools/SpendingInsightsTool.kt:183-196 | over 100 the advice is to reduce and review, over 80 to monitor and postpone, otherwise the within-budget pair |
| SpendingInsights.AdviceMatchesTier | app/src/main/java/com/example/finanzaspersonales/domain/tools/SpendingInsightsTool.kt:166-196 | the advice to cut back comes exactly with the over-budget summary, the advice to monitor exactly with "getting close" |
| SpendingInsights.BudgetInsight | app/src/main/java/com/example/finanzaspersonales/domain/tools/SpendingInsightsTool.kt:142-227 | an unknown category name gives "not found", amount 0 and the spelling advice; a known one gives its spending, the budget, the percentage, the remainder and the tier; no name gives the total spending with its own 90% advice |
| SpendingInsights.PreviousMonth | app/src/main/java/com/example/finanzaspersonales/domain/tools/SpendingInsightsTool.kt:231-232 | the previous month is a valid month exactly one month earlier, December of the year before for January |
| SpendingInsights.PreviousMonthUnique | app/src/main/java/com/example/finanzaspersonales/domain/tools/SpendingInsightsTool.kt:231-232 | any valid month one month earlier is the previous month |
| SpendingInsights.CategoryChangePercent | app/src/main/java/com/example/finanzaspersonales/domain/tools/SpendingInsightsTool.kt:257-263 | relative change in percent when last month had spending, 100 for new spending, else 0 |
| SpendingInsights.TotalChangePercent | app/src/main/java/com/example/finanzaspersonales/domain/tools/SpendingInsightsTool.kt:302-306 | relative change in percent when last month's total is positive, else 0 |
| SpendingInsights.ChangeSign | app/src/main/java/com/example/finanzaspersonales/domain/tools/SpendingInsightsTool.kt:257-306 | with spending last month the change is positive exactly when this month is higher |
| SpendingInsights.ChangeTrend | app/src/main/java/com/example/finanzaspersonales/domain/tools/SpendingInsightsTool.kt:265-269 | increasing exactly above 5, decreasing exactly below -5, stable otherwise |
| SpendingInsights.ChangeBand | app/src/main/java/com/example/finanzaspersonales/domain/tools/SpendingInsightsTool.kt:271-277 | the summary band: significant above 20, an increase above 5, significant decrease below -20, a decrease below -5, similar otherwise |
| SpendingInsights.BandAgreesWithTrend | app/src/main/java/com/example/finanzaspersonales/domain/tools/SpendingInsightsTool.kt:265-277 | the summary band always agrees with the trend direction |
| SpendingInsights.ComparisonInsight | app/src/main/java/com/example/finanzaspersonales/domain/tools/SpendingInsightsTool.kt:230-322 | an unknown category gives "not found"; a known one compares its amounts this month and last with the change, trend and band; no name compares the totals |
| SpendingInsights.AmountGePreorder | app/src/main/java/com/example/finanzaspersonales/domain/tools/SpendingInsightsTool.kt:330 | ordering by descending amount is a total preorder |
| SpendingInsights.Ranked | app/src/main/java/com/example/finanzaspersonales/domain/tools/SpendingInsightsTool.kt:329-330 | the ranked entries are exactly the positive ones, as a multiset |
| SpendingInsights.Share | app/src/main/java/com/example/finanzaspersonales/domain/tools/SpendingInsightsTool.kt:331-337 | a breakdown entry keeps its category name and amount, and its percentage times the total is the amount times 100; the percentage is 0 when the total is not positive |
| SpendingInsights.Shares | app/src/main/java/com/example/finanzaspersonales/domain/tools/SpendingInsightsTool.kt:331-337 | the breakdown has one entry per ranked category, in the ranking's order, each its share of the total |
| SpendingInsights.BreakdownRanked | app/src/main/java/com/example/finanzaspersonales/domain/tools/SpendingInsightsTool.kt:325-344 | the breakdown holds only positive amounts, in descending order, and its first entry is the largest amount of all |
| SpendingInsights.RankedPositive | app/src/main/java/com/example/finanzaspersonales/domain/tools/SpendingInsightsTool.kt:329-330 | the ranking has one entry per positive amount, each positive |
| SpendingInsights.RankedMax | app/src/main/java/com/example/finanzaspersonales/domain/tools/SpendingInsightsTool.kt:329-330 | the first ranked entry is at least every amount of the input |
| SpendingInsights.AnalysisInsight | app/src/main/java/com/example/finanzaspersonales/domain/tools/SpendingInsightsTool.kt:324-372 | the total is the sum of the map, the breakdown is attached, the summary names the first entry or says there are no expenses, and the many-categories note appears exactly above 10 entries |
| SpendingInsights.LastThreeMonths | app/src/main/java/com/example/finanzaspersonales/domain/tools/SpendingInsightsTool.kt:377-392 | the current month, then the one before, then the one before that |
| SpendingInsights.TrendMonths | app/src/main/java/com/example/finanzaspersonales/domain/tools/SpendingInsightsTool.kt:377-390 | the `repeat(3)` loop produces the current month and the two before it, wrapping at the year boundary |
| SpendingInsights.OldestFirstTotals | app/src/main/java/com/example/finanzaspersonales/domain/tools/SpendingInsightsTool.kt:390-392 | one total per month, oldest first, each the sum of that month's expense map |
| SpendingInsights.TrendOf | app/src/main/java/com/example/finanzaspersonales/domain/tools/SpendingInsightsTool.kt:394-399 | fewer than two totals are stable; otherwise increasing above 110% of the previous total, decreasing below 90%, else stable |
| SpendingInsights.TrendThresholds | app/src/main/java/com/example/finanzaspersonales/domain/tools/SpendingInsightsTool.kt:394-399 | with a non-negative previous total, a decrease is exactly a drop below 90% |
| SpendingInsights.TrendInsight | app/src/main/java/com/example/finanzaspersonales/domain/tools/SpendingInsightsTool.kt:375-416 | the trend insight carries the trend, its summary and the newest total (0 with none) |
| SpendingInsights.GenerateInsight | app/src/main/java/com/example/finanzaspersonales/domain/tools/SpendingInsightsTool.kt:119-138 | each of the four question types goes to its own rule, with this year and month; any other type gives the unknown insight |
| SpendingInsights.TrendComparesLastTwoMonths | app/src/main/java/com/example/finanzaspersonales/domain/tools/SpendingInsightsTool.kt:381-399 | over three months the trend compares this month's total with last month's |
| SpendingInsights.BudgetExamples | app/src/test/java/com/example/finanzaspersonales/domain/tools/SpendingInsightsToolTest.kt:77-80 | 450 of a 600 budget is 75%, on track; 750 is 125%, over budget, with the advice to reduce |
| SpendingInsights.ComparisonExamples | app/src/test/java/com/example/finanzaspersonales/domain/tools/SpendingInsightsToolTest.kt:114-117 | 300 against 250 is a 20% increase; the totals 1050 against 900 rose |
| SpendingInsights.AnalysisExample | app/src/test/java/com/example/finanzaspersonales/domain/tools/SpendingInsightsToolTest.kt:140-144 | the recorded spending totals 1050 with Groceries first |
| SpendingInsights.RankedByAmount | app/src/test/java/com/example/finanzaspersonales/domain/tools/SpendingInsightsToolTest.kt:62-68 | the test's four positive amounts rank 450, 300, 200, 100 |
| SpendingInsights.SortFour | app/src/main/java/com/example/finanzaspersonales/domain/tools/SpendingInsightsTool.kt:330 | four entries with distinct amounts are sorted largest first |
| SpendingInsights.SortLastTwo | app/src/main/java/com/example/finanzaspersonales/domain/tools/SpendingInsightsTool.kt:330 | two entries in descending order stay put |
| SpendingInsights.SortLastThree | app/src/main/java/com/example/finanzaspersonales/domain/tools/SpendingInsightsTool.kt:330 | three entries are sorted largest first |
| CategoryAssignment.TagsOf | app/src/main/java/com/example/finanzaspersonales/domain/usecase/CategoryAssignmentUseCase.kt:67-128 | a tag is added exactly when the text mentions some term of a group carrying that tag |
| CategoryAssignment.LongWordsOf | app/src/main/java/com/example/finanzaspersonales/domain/usecase/CategoryAssignmentUseCase.kt:43-47 | the provider's long keywords are exactly its lowercased words of more than three characters |
| CategoryAssignment.AddKeywordsFromText | app/src/main/java/com/example/finanzaspersonales/domain/usecase/CategoryAssignmentUseCase.kt:67-128 | the nine checks, one after the other, add exactly the tags of the groups the text mentions |
| CategoryAssignment.AddTagsOfGroups | app/src/main/java/com/example/finanzaspersonales/domain/usecase/CategoryAssignmentUseCase.kt:67-128 | checking any list of term groups in turn adds exactly the tags of the groups the text mentions |
| CategoryAssignment.TagsSnoc | app/src/main/java/com/example/finanzaspersonales/domain/usecase/CategoryAssignmentUseCase.kt:67-128 | checking one more group adds exactly that group's tags when the text mentions it |
| CategoryAssignment.AddProviderKeywords | app/src/main/java/com/example/finanzaspersonales/domain/usecase/CategoryAssignmentUseCase.kt:39-48 | the provider adds its lowercased name and each of its words longer than three characters |
| CategoryAssignment.ExtractKeywords | app/src/main/java/com/example/finanzaspersonales/domain/usecase/CategoryAssignmentUseCase.kt:35-62 | the keywords are the provider's, the lowercased contact name and the tags of the lowercased body |
| CategoryAssignment.ScoreOf | app/src/main/java/com/example/finanzaspersonales/domain/usecase/CategoryAssignmentUseCase.kt:185-191 | the score counts the keywords that contain a pattern or are contained in one; a category outside the table scores 0 |
| CategoryAssignment.CardinalityOfSubset | app/src/main/java/com/example/finanzaspersonales/domain/usecase/CategoryAssignmentUseCase.kt:189-191 | a counted subset of the keywords is no larger than the keywords |
| CategoryAssignment.EmptyKeywordMatchesAll | app/src/main/java/com/example/finanzaspersonales/domain/usecase/CategoryAssignmentUseCase.kt:190 | the empty keyword matches every pattern, so it gives every category in the table a positive score |
| CategoryAssignment.EmptyProviderAddsEmptyKeyword | app/src/main/java/com/example/finanzaspersonales/domain/usecase/CategoryAssignmentUseCase.kt:39-40 | an empty provider name adds the empty keyword |
| CategoryAssignment.FirstBestUnique | app/src/main/java/com/example/finanzaspersonales/domain/usecase/CategoryAssignmentUseCase.kt:180-198 | at most one position holds the first category reaching the highest positive score |
| CategoryAssignment.MatchUnique | app/src/main/java/com/example/finanzaspersonales/domain/usecase/CategoryAssignmentUseCase.kt:172-205 | the described match determines the result |
| CategoryAssignment.MatchIsListed | app/src/main/java/com/example/finanzaspersonales/domain/usecase/CategoryAssignmentUseCase.kt:172-205 | a chosen category is one of the given categories and named in the pattern table |
| CategoryAssignment.FindMatchingCategory | app/src/main/java/com/example/finanzaspersonales/domain/usecase/CategoryAssignmentUseCase.kt:133-206 | for income the category named "Income" if any; otherwise the first category reaching the maximum positive score (a later tie does not replace it); otherwise the one named "Other", or none |
| CategoryAssignment.CategoryAssigner.constructor | app/src/main/java/com/example/finanzaspersonales/domain/usecase/CategoryAssignmentUseCase.kt:14 | the cached category list starts empty |
| CategoryAssignment.CategoryAssigner.AssignCategoryToTransaction | app/src/main/java/com/example/finanzaspersonales/domain/usecase/CategoryAssignmentUseCase.kt:19-30 | an empty cache is filled from the repository once; the result is the match for the transaction's keywords and type |
| TextExtractors.DropSeparators | app/src/main/java/com/example/finanzaspersonales/domain/util/TextExtractors.kt:64 | removing '.' and ',' keeps only other characters of the text, never lengthens it, and keeps a leading non-separator first |
| TextExtractors.CurrencyAt | app/src/main/java/com/example/finanzaspersonales/domain/util/TextExtractors.kt:60 | the currency alternative found is "$" or "COP" and occurs at that position |
| TextExtractors.NumberStart | app/src/main/java/com/example/finanzaspersonales/domain/util/TextExtractors.kt:60 | the number starts within the text, after the currency and any whitespace |
| TextExtractors.GroupsEnd | app/src/main/java/com/example/finanzaspersonales/domain/util/TextExtractors.kt:60 | the greedy thousands groups span only digits and separators |
| TextExtractors.AmountMatchOf | app/src/main/java/com/example/finanzaspersonales/domain/util/TextExtractors.kt:60-65 | a match yields the currency, a non-empty all-digit integer part, and optionally two decimal digits |
| TextExtractors.FirstMatch | app/src/main/java/com/example/finanzaspersonales/domain/util/TextExtractors.kt:61-62 | `find` reports the leftmost matching position at or after the start, and none only when no position matches |
| TextExtractors.FirstMatchIs | app/src/main/java/com/example/finanzaspersonales/domain/util/TextExtractors.kt:61-62 | a matching position with none before it is the one `find` reports |
| TextExtractors.ExtractAmountFromBody | app/src/main/java/com/example/finanzaspersonales/domain/util/TextExtractors.kt:59-73 | null exactly when the pattern matches nowhere; otherwise the text built from the leftmost match |
| TextExtractors.AmountDecimals | app/src/main/java/com/example/finanzaspersonales/domain/util/TextExtractors.kt:67-71 | decimals that are absent or "00" add nothing; any other two decimals follow a '.' |
| TextExtractors.UnseparatedRunTruncated | app/src/main/java/com/example/finanzaspersonales/domain/util/TextExtractors.kt:60 | when four or more digits follow the currency with no separator, the integer part is the first three digits and there are no decimals |
| TextExtractors.ExtractAtStart | app/src/main/java/com/example/finanzaspersonales/domain/util/TextExtractors.kt:59-73 | a match at position 0 is the one reported, and its text is returned |
| TextExtractors.UnseparatedMatch | app/src/main/java/com/example/finanzaspersonales/domain/util/TextExtractors.kt:60-65 | the match in "$12345" is currency "$", integer part "123", no decimals |
| TextExtractors.UnseparatedStart | app/src/main/java/com/example/finanzaspersonales/domain/util/TextExtractors.kt:60 | in "$12345" the currency is at 0 and the number starts at 1 |
| TextExtractors.SeparatedMatch | app/src/main/java/com/example/finanzaspersonales/domain/util/TextExtractors.kt:60-65 | the match in "COP 1.234,56" is currency "COP", integer part "1234", decimals "56" |
| TextExtractors.SeparatedStart | app/src/main/java/com/example/finanzaspersonales/domain/util/TextExtractors.kt:60 | in "COP 1.234,56" the currency is at 0 and the number starts at 4 |
| TextExtractors.DropSeparatorsOfDigits | app/src/main/java/com/example/finanzaspersonales/domain/util/TextExtractors.kt:64 | a digit string has no separator to drop |
| TextExtractors.StripCurrency | app/src/main/java/com/example/finanzaspersonales/domain/util/TextExtractors.kt:79 | removing the leading currency token never lengthens the text |
| TextExtractors.CommasToDots | app/src/main/java/com/example/finanzaspersonales/domain/util/TextExtractors.kt:80 | every ',' becomes '.' and nothing else changes |
| TextExtractors.DotIndex | app/src/main/java/com/example/finanzaspersonales/domain/util/TextExtractors.kt:81 | the first '.' at or after the position, or none |
| TextExtractors.ParseDecimal | app/src/main/java/com/example/finanzaspersonales/domain/util/TextExtractors.kt:81 | a plain decimal numeral reads as a non-negative number |
| TextExtractors.ParseToFloat | app/src/main/java/com/example/finanzaspersonales/domain/util/TextExtractors.kt:78-82 | a null amount gives null |
| TextExtractors.StripCurrencyOf | app/src/main/java/com/example/finanzaspersonales/domain/util/TextExtractors.kt:79 | the currency token of an extracted amount is removed exactly |
| TextExtractors.CommasToDotsOfDigitsAndDots | app/src/main/java/com/example/finanzaspersonales/domain/util/TextExtractors.kt:80 | a text of digits and dots has no comma to replace |
| TextExtractors.ParseWhole | app/src/main/java/com/example/finanzaspersonales/domain/util/TextExtractors.kt:81 | a digit string reads as its value |
| TextExtractors.DotAfterDigits | app/src/main/java/com/example/finanzaspersonales/domain/util/TextExtractors.kt:81 | the first '.' after a digit string is right after it |
| TextExtractors.ParseWithCents | app/src/main/java/com/example/finanzaspersonales/domain/util/TextExtractors.kt:81 | digits, '.', two digits read as the whole part plus hundredths |
| TextExtractors.WholeAmountParses | app/src/main/java/com/example/finanzaspersonales/domain/util/TextExtractors.kt:78-82 | a currency followed by digits parses to the digits' value |
| TextExtractors.CentsAmountParses | app/src/main/java/com/example/finanzaspersonales/domain/util/TextExtractors.kt:78-82 | a currency, digits, '.' and two digits parse to the value with hundredths |
| TextExtractors.AmountTextParses | app/src/main/java/com/example/finanzaspersonales/domain/util/TextExtractors.kt:59-82 | the extractor's text parses back to the value of its match |
| TextExtractors.CentsTextParses | app/src/main/java/com/example/finanzaspersonales/domain/util/TextExtractors.kt:67-82 | a match with decimals other than "00" gives a text that parses to the integer part plus its hundredths |
| TextExtractors.WholeTextParses | app/src/main/java/com/example/finanzaspersonales/domain/util/TextExtractors.kt:67-82 | a match without decimals, or with "00", gives a text that parses to the integer part |
| TextExtractors.ExtractedAmountParses | app/src/main/java/com/example/finanzaspersonales/domain/util/TextExtractors.kt:59-82 | `parseToFloat` reads a number from exactly the bodies where the extractor finds an amount |
| TextExtractors.LowerIdempotent | app/src/main/java/com/example/finanzaspersonales/domain/util/TextExtractors.kt:89 | lowering a lowered character changes nothing |
| TextExtractors.LowerStrIdempotent | app/src/main/java/com/example/finanzaspersonales/domain/util/TextExtractors.kt:89 | lowering a lowered text changes nothing |
| TextExtractors.IsIncomeIgnoresCase | app/src/main/java/com/example/finanzaspersonales/domain/util/TextExtractors.kt:87-91 | the income test ignores case: lowering the body first gives the same answer |
| TextExtractors.ZerosStart | app/src/main/java/com/example/finanzaspersonales/domain/util/TextExtractors.kt:140 | the zeros start after the optional '*' |
| TextExtractors.MobileNumberAt | app/src/main/java/com/example/finanzaspersonales/domain/util/TextExtractors.kt:140-143 | the mobile group is ten digits starting with '3' |
| TextExtractors.ExtractPhoneNumberFromAccount | app/src/main/java/com/example/finanzaspersonales/domain/util/TextExtractors.kt:138-154 | null exactly when neither pattern matches anywhere; otherwise at least ten digits |
| TextExtractors.PhonePrefersMobile | app/src/main/java/com/example/finanzaspersonales/domain/util/TextExtractors.kt:140-144 | the first masked mobile number wins |
| TextExtractors.PhoneFallsBackToLongRun | app/src/main/java/com/example/finanzaspersonales/domain/util/TextExtractors.kt:146-151 | without a mobile number the first run of ten digits or more is returned whole |
| TextExtractors.CapsEndFrom | app/src/main/java/com/example/finanzaspersonales/domain/util/TextExtractors.kt:37 | the all-caps match at a position is the longest span the lookahead accepts |
| TextExtractors.CapsEnd | app/src/main/java/com/example/finanzaspersonales/domain/util/TextExtractors.kt:37 | an all-caps match ends after its start |
| TextExtractors.CapsMatches | app/src/main/java/com/example/finanzaspersonales/domain/util/TextExtractors.kt:44-45 | each successive match has at least two characters and starts with a capital or digit |
| TextExtractors.EligibleIsLength | app/src/main/java/com/example/finanzaspersonales/domain/util/TextExtractors.kt:47 | excluding "COP" and "USD" decides nothing: a match is eligible exactly when longer than three characters |
| TextExtractors.BestEligible | app/src/main/java/com/example/finanzaspersonales/domain/util/TextExtractors.kt:41-53 | the scan's result is always eligible |
| TextExtractors.BestEligibleIsFirstLongest | app/src/main/java/com/example/finanzaspersonales/domain/util/TextExtractors.kt:41-53 | the scan picks the first of the longest eligible matches, and nothing when none is eligible |
| TextExtractors.LongestEligible | app/src/main/java/com/example/finanzaspersonales/domain/util/TextExtractors.kt:41-51 | the `bestMatch`/`maxLength` loop computes the scan's result |
| TextExtractors.ProviderFallback | app/src/main/java/com/example/finanzaspersonales/domain/util/TextExtractors.kt:36-53 | without a leading-pattern answer the provider is the first longest eligible all-caps match |
| TextExtractors.ProviderFromBody | app/src/main/java/com/example/finanzaspersonales/domain/util/TextExtractors.kt:17-53 | a leading pattern's answer is taken as is; otherwise an answer is an all-caps word longer than three letters, neither COP nor USD |
| TextExtractors.ExtractProviderFromBody | app/src/main/java/com/example/finanzaspersonales/domain/util/TextExtractors.kt:17-54 | the two leading patterns first, then the all-caps fallback |
| SmsReceiver.ContainsTransitive | app/src/main/java/com/example/finanzaspersonales/sms/SmsReceiver.kt:71-82 | a text containing a keyword contains every piece of that keyword |
| SmsReceiver.ContainsSuffix | app/src/main/java/com/example/finanzaspersonales/sms/SmsReceiver.kt:71-82 | a text contains its own ending |
| SmsReceiver.LowerStrAppend | app/src/main/java/com/example/finanzaspersonales/sms/SmsReceiver.kt:77 | lowering distributes over concatenation |
| SmsReceiver.KeywordWithin | app/src/main/java/com/example/finanzaspersonales/sms/SmsReceiver.kt:76-78 | a body holding a keyword also holds every keyword the first one contains |
| SmsReceiver.IsFinancialSmsIgnoresCase | app/src/main/java/com/example/finanzaspersonales/sms/SmsReceiver.kt:71-82 | the body test ignores case: lowering the body first gives the same verdict |
| SmsReceiver.BankSenderIsFinancial | app/src/main/java/com/example/finanzaspersonales/sms/SmsReceiver.kt:22-30 | a sender containing any bank code makes the message financial whatever the body |
| SmsReceiver.IncomingIsFinancial | app/src/main/java/com/example/finanzaspersonales/sms/SmsReceiver.kt:133-140 | an income keyword other than "abono", "received" and "credit" makes the message financial |
| SmsReceiver.IncomeKeywordIsTransactionKeyword | app/src/main/java/com/example/finanzaspersonales/sms/SmsReceiver.kt:33-37 | every income keyword except those three contains a transaction keyword |
| SmsReceiver.SharedKeyword | app/src/main/java/com/example/finanzaspersonales/sms/SmsReceiver.kt:33-37 | "recibiste", "deposito" and "deposit" are on both lists |
| SmsReceiver.TransferKeyword | app/src/main/java/com/example/finanzaspersonales/sms/SmsReceiver.kt:134-137 | "transferencia recibida" and "incoming transfer" bring a transaction keyword along |
| SmsReceiver.KeywordSpellings | app/src/main/java/com/example/finanzaspersonales/sms/SmsReceiver.kt:33-37 | "transferencia recibida" extends "transferencia"; "incoming transfer" ends with "transfer" |
| SmsReceiver.TransferReceived | app/src/main/java/com/example/finanzaspersonales/sms/SmsReceiver.kt:135 | a body holding "transferencia recibida" holds "transferencia" |
| SmsReceiver.IncomingTransfer | app/src/main/java/com/example/finanzaspersonales/sms/SmsReceiver.kt:136 | a body holding "incoming transfer" holds "transfer" |
| SmsReceiver.ViaPrefix | app/src/main/java/com/example/finanzaspersonales/sms/SmsReceiver.kt:77 | a body holding a word holds its beginning |
| SmsReceiver.ViaSuffix | app/src/main/java/com/example/finanzaspersonales/sms/SmsReceiver.kt:77 | a body holding a word holds its ending |
| SmsReceiver.GroupStart | app/src/main/java/com/example/finanzaspersonales/sms/SmsReceiver.kt:147 | the captured group starts at the first digit within two characters of the match |
| SmsReceiver.FirstAmountMatch | app/src/main/java/com/example/finanzaspersonales/sms/SmsReceiver.kt:148 | `find` reports the leftmost position where the amount pattern matches, or none when none does |
| SmsReceiver.GroupEnd | app/src/main/java/com/example/finanzaspersonales/sms/SmsReceiver.kt:147 | the captured group is a non-empty span of digits and separators |
| SmsReceiver.ExtractAmountString | app/src/main/java/com/example/finanzaspersonales/sms/SmsReceiver.kt:145-151 | null exactly when the body has no digit; otherwise a text starting with a digit |
| SmsReceiver.AmountStartsAtFirstDigit | app/src/main/java/com/example/finanzaspersonales/sms/SmsReceiver.kt:147-150 | the captured amount begins at the body's first digit |
| SmsReceiver.ExtractNumericAmount | app/src/main/java/com/example/finanzaspersonales/sms/SmsReceiver.kt:156-167 | null for a null amount; otherwise the digits without separators read as hundredths, never negative |
| SmsReceiver.ExtractedAmountHasValue | app/src/main/java/com/example/finanzaspersonales/sms/SmsReceiver.kt:145-167 | every captured amount has a numeric value: the exception path is never taken |
| SmsReceiver.ThousandsReadAsCents | app/src/main/java/com/example/finanzaspersonales/sms/SmsReceiver.kt:161-162 | "1.234" reads as 12.34: thousands separators are not told from decimals |
| TextExtractors.DropOf1234 | app/src/main/java/com/example/finanzaspersonales/sms/SmsReceiver.kt:161 | "1.234" without separators is "1234" |
| TextExtractors.IsIncome | app/src/main/java/com/example/finanzaspersonales/domain/util/TextExtractors.kt:87-91 | true exactly when one of the income words (with and without accents) occurs in the body, ignoring case |
| SmsReceiver.DigitsOf1234 | app/src/main/java/com/example/finanzaspersonales/sms/SmsReceiver.kt:162 | "1234" reads as 1234 |
| SmsReceiver.FirstWordAt | app/src/main/java/com/example/finanzaspersonales/sms/SmsReceiver.kt:174 | the alternation of the four account words tries them in order: the word found occurs at that position of the lowered text, and when none is found none of them occurs there |
| SmsReceiver.MarkerAt | app/src/main/java/com/example/finanzaspersonales/sms/SmsReceiver.kt:174 | the marker stands within the text, after the word and its spaces |
| SmsReceiver.FirstAccountMatch | app/src/main/java/com/example/finanzaspersonales/sms/SmsReceiver.kt:175 | `find` reports the leftmost position where the account pattern matches, or none |
| SmsReceiver.MatchedAccount | app/src/main/java/com/example/finanzaspersonales/sms/SmsReceiver.kt:174-176 | a match yields '*' followed by four digits, and only a match yields anything |
| SmsReceiver.ExtractAccountIn | app/src/main/java/com/example/finanzaspersonales/sms/SmsReceiver.kt:172-178 | null exactly when the pattern matches nowhere; otherwise the text of the leftmost match, '*' and four digits |
| SmsReceiver.ExtractAccount | app/src/main/java/com/example/finanzaspersonales/sms/SmsReceiver.kt:172-178 | `extractAccount` matches the body lowered for the words and the body itself for the digits: a result is '*' and four digits |
| SmsReceiver.CreateSmsMessage | app/src/main/java/com/example/finanzaspersonales/sms/SmsReceiver.kt:87-103 | the message carries the sender as address and provider, the extracted amount and account, the arrival time, and nothing else |
| SmsReceiver.ParseTransaction | app/src/main/java/com/example/finanzaspersonales/sms/SmsReceiver.kt:108-128 | the transaction carries the message's fields, no category, zero when no amount was read, and the income test |
| SmsReceiver.ReceivedTransaction | app/src/main/java/com/example/finanzaspersonales/sms/SmsReceiver.kt:40-66 | a financial SMS gives a transaction dated on arrival, from its sender, with a non-negative amount read from the body's first digits |
| SmsReceiver.IsFinancialSms | app/src/main/java/com/example/finanzaspersonales/sms/SmsReceiver.kt:71-82 | true exactly when some bank sender name occurs in the sender, or some transaction keyword, lower-cased, occurs in the lower-cased body |
| SmsReceiver.IsIncomingTransaction | app/src/main/java/com/example/finanzaspersonales/sms/SmsReceiver.kt:133-140 | true exactly when some income keyword, lower-cased, occurs in the lower-cased body |
| ExtractTransactionData.FirstDirectPhone | app/src/main/java/com/example/finanzaspersonales/domain/usecase/ExtractTransactionDataUseCase.kt:21 | `find` reports the leftmost position where `0{4,}(3\d{9})` matches, or none when it matches nowhere |
| ExtractTransactionData.DirectPhoneNumber | app/src/main/java/com/example/finanzaspersonales/domain/usecase/ExtractTransactionDataUseCase.kt:49-51 | no number exactly when the direct pattern matches nowhere; otherwise ten digits starting with '3' |
| ExtractTransactionData.FirstPresent | app/src/main/java/com/example/finanzaspersonales/domain/usecase/ExtractTransactionDataUseCase.kt:44-46 | Kotlin's `?:`: absent only when both sides are, and the left side when it is present |
| ExtractTransactionData.Build | app/src/main/java/com/example/finanzaspersonales/domain/usecase/ExtractTransactionDataUseCase.kt:64-77 | the transaction keeps the message's date, amount and body, the income test and the detected account, with the stable id of time, address and body |
| ExtractTransactionData.ConvertMessage | app/src/main/java/com/example/finanzaspersonales/domain/usecase/ExtractTransactionDataUseCase.kt:27-80 | a message with a date and an amount becomes the built transaction; any other is skipped |
| ExtractTransactionData.Execute | app/src/main/java/com/example/finanzaspersonales/domain/usecase/ExtractTransactionDataUseCase.kt:26-82 | `mapNotNull` over the messages gives the conversion of each complete message, in order |
| ExtractTransactionData.BuiltAllAt | app/src/main/java/com/example/finanzaspersonales/domain/usecase/ExtractTransactionDataUseCase.kt:26-82 | the records are built one per given complete message, the record at each position being the one built from the message there |
| ExtractTransactionData.ConvertedAreComplete | app/src/main/java/com/example/finanzaspersonales/domain/usecase/ExtractTransactionDataUseCase.kt:26-82 | exactly the messages holding both a date and an amount are converted, one each, in their order |
| ExtractTransactionData.Converted | app/src/main/java/com/example/finanzaspersonales/domain/usecase/ExtractTransactionDataUseCase.kt:26-82 | at most one transaction per message, each with a generated id and no user or category |
| ExtractTransactionData.ProviderPrecedence | app/src/main/java/com/example/finanzaspersonales/domain/usecase/ExtractTransactionDataUseCase.kt:34-61 | the provider is the one read from the body, else the account's contact, else the direct pattern's contact |
| ExtractTransactionData.DirectContactWins | app/src/main/java/com/example/finanzaspersonales/domain/usecase/ExtractTransactionDataUseCase.kt:48-61 | a contact found through the direct pattern replaces the one found through the account |
| ExtractTransactionData.StableConversion | app/src/main/java/com/example/finanzaspersonales/domain/usecase/ExtractTransactionDataUseCase.kt:64-66 | the same time, address, body and amount give the same transaction, id included |
| SmsDataSource.Count | app/src/main/java/com/example/finanzaspersonales/data/local/SmsDataSource.kt:100-115 | a count of one character is at most the text's length |
| SmsDataSource.CountAppend | app/src/main/java/com/example/finanzaspersonales/data/local/SmsDataSource.kt:100-110 | counting distributes over concatenation |
| SmsDataSource.CountAbsent | app/src/main/java/com/example/finanzaspersonales/data/local/SmsDataSource.kt:100-110 | a text without the character counts zero |
| SmsDataSource.CountLast | app/src/main/java/com/example/finanzaspersonales/data/local/SmsDataSource.kt:105 | a text whose last character is its only occurrence counts one |
| SmsDataSource.LikeTestPlaceholder | app/src/main/java/com/example/finanzaspersonales/data/local/SmsDataSource.kt:105 | each LIKE test has one placeholder |
| SmsDataSource.OrSeparatorPlaceholders | app/src/main/java/com/example/finanzaspersonales/data/local/SmsDataSource.kt:104 | the " OR " separator has none |
| SmsDataSource.DateTestPlaceholder | app/src/main/java/com/example/finanzaspersonales/data/local/SmsDataSource.kt:93 | the date test has one placeholder |
| SmsDataSource.DateConstraint | app/src/main/java/com/example/finanzaspersonales/data/local/SmsDataSource.kt:85-97 | the date constraint is present exactly when a positive number of months is asked for |
| SmsDataSource.BuildWhereClause | app/src/main/java/com/example/finanzaspersonales/data/local/SmsDataSource.kt:84-115 | the clause is the filters' LIKE tests joined by " OR " in brackets, plus the date test; the arguments are the filters plus the cutoff; and every placeholder has its argument |
| SmsDataSource.DisjunctionPlaceholders | app/src/main/java/com/example/finanzaspersonales/data/local/SmsDataSource.kt:103-107 | the joined LIKE tests hold one placeholder per filter |
| SmsDataSource.PlaceholdersMatchArgs | app/src/main/java/com/example/finanzaspersonales/data/local/SmsDataSource.kt:99-115 | the clause has one placeholder per filter, plus one for the date exactly when months are asked for |
| SmsDataSource.DefaultQueryArguments | app/src/main/java/com/example/finanzaspersonales/data/local/SmsDataSource.kt:44 | with the 24 filters and the default twelve months the query has 25 placeholders |
| SmsDataSource.MessageOf | app/src/main/java/com/example/finanzaspersonales/data/local/SmsDataSource.kt:147-175 | a kept row's message carries its address and body, the extracted and parsed amount, the body's date or else the inbox date, the detected accounts, the phone number read off the detected account, the contact looked up by that number, and the provider |
| SmsDataSource.BuildMessage | app/src/main/java/com/example/finanzaspersonales/data/local/SmsDataSource.kt:147-175 | the message built field by field in the loop is the kept row's message |
| SmsDataSource.KeptMessage | app/src/main/java/com/example/finanzaspersonales/data/local/SmsDataSource.kt:141-178 | a row with the bank prefix yields its message exactly when it has an amount or a financial keyword |
| SmsDataSource.ReadRows | app/src/main/java/com/example/finanzaspersonales/data/local/SmsDataSource.kt:134-179 | the cursor loop yields at most one message per row |
| SmsDataSource.ReadSmsMessages | app/src/main/java/com/example/finanzaspersonales/data/local/SmsDataSource.kt:43-188 | no permission gives no messages; otherwise the rows that start with the bank prefix and have an amount or a keyword, each made into its message, in cursor order |
| SmsDataSource.KeptIff | app/src/main/java/com/example/finanzaspersonales/data/local/SmsDataSource.kt:139-146 | a row is kept exactly when it starts with "Bancolombia:" ignoring case and has an amount text or a financial keyword |
| SmsDataSource.MessagesOf | app/src/main/java/com/example/finanzaspersonales/data/local/SmsDataSource.kt:134-179 | one message per given row, in order, each the message that row is made into |
| SmsDataSource.ReadRowsAreKept | app/src/main/java/com/example/finanzaspersonales/data/local/SmsDataSource.kt:134-179 | the messages read are exactly the messages of the kept rows, in cursor order |
| SmsDataSource.ReadMessagesShape | app/src/main/java/com/example/finanzaspersonales/data/local/SmsDataSource.kt:134-179 | every message read has the prefix, a date, a numeric amount exactly when an amount text, and an amount or a keyword |
| SmsDataSource.DatePrecedence | app/src/main/java/com/example/finanzaspersonales/data/local/SmsDataSource.kt:148-149 | the date found in the body wins over the inbox date |
| SmsDataSource.CompleteIffAmount | app/src/main/java/com/example/finanzaspersonales/data/local/SmsDataSource.kt:142-149 | a read message has a date and an amount, so it is converted, exactly when its body holds an amount |
| SmsDataSource.PrefixRequired | app/src/main/java/com/example/finanzaspersonales/data/local/SmsDataSource.kt:138-139 | rows without the bank prefix yield nothing, whatever their content |
| SmsDataSource.ContainsFinancialKeywords | app/src/main/java/com/example/finanzaspersonales/data/local/SmsDataSource.kt:193-205 | true exactly when some financial keyword, lower-cased, occurs in the lower-cased body |
| CategoriesViewModel.Toggled | app/src/main/java/com/example/finanzaspersonales/ui/categories/CategoriesViewModel.kt:484-485 | toggling always changes the order |
| CategoriesViewModel.ToggleTwice | app/src/main/java/com/example/finanzaspersonales/ui/categories/CategoriesViewModel.kt:484-485 | toggling twice restores the order |
| CategoriesViewModel.ByDescriptionPreorder | app/src/main/java/com/example/finanzaspersonales/ui/categories/CategoriesViewModel.kt:461 | ordering by `description ?: ""` is a total preorder |
| CategoriesViewModel.ComparatorPreorder | app/src/main/java/com/example/finanzaspersonales/ui/categories/CategoriesViewModel.kt:499-525 | each of the six field-and-order comparators is a total preorder |
| CategoriesViewModel.SortedBy | app/src/main/java/com/example/finanzaspersonales/ui/categories/CategoriesViewModel.kt:499-525 | the sorted list is a permutation of the list |
| CategoriesViewModel.SortedByIsStableSort | app/src/main/java/com/example/finanzaspersonales/ui/categories/CategoriesViewModel.kt:499-525 | the sorted list is ordered by the field and order, a permutation, and keeps equal elements in their order |
| CategoriesViewModel.SortedByIdempotent | app/src/main/java/com/example/finanzaspersonales/ui/categories/CategoriesViewModel.kt:499-525 | sorting again by the same field and order changes nothing |
| CategoriesViewModel.TransactionsOfCategory | app/src/main/java/com/example/finanzaspersonales/ui/categories/CategoriesViewModel.kt:386-416 | the selection is drawn from the repository's list in order; for the placeholder it is every copy of each transaction with a null or empty category and nothing else; for any other category, which then has an id, it is the repository's `getTransactionsByCategory` filter for that id |
| CategoriesViewModel.CategoryListMembers | app/src/main/java/com/example/finanzaspersonales/ui/categories/CategoriesViewModel.kt:377-476 | a transaction is listed exactly when it is in the category's selection and matches the year, month and type |
| CategoriesViewModel.CategoryList | app/src/main/java/com/example/finanzaspersonales/ui/categories/CategoriesViewModel.kt:377-476 | every listed transaction matches the year, month and type asked for |
| CategoriesViewModel.SortedByMembers | app/src/main/java/com/example/finanzaspersonales/ui/categories/CategoriesViewModel.kt:444-466 | sorting neither adds nor drops a transaction |
| CategoriesViewModel.WithProvider | app/src/main/java/com/example/finanzaspersonales/ui/categories/CategoriesViewModel.kt:738-747 | exactly the transactions with that id get the new provider; the others are unchanged |
| CategoriesViewModel.WithProviderIdempotent | app/src/main/java/com/example/finanzaspersonales/ui/categories/CategoriesViewModel.kt:738-747 | editing the provider twice is editing it once, and no id changes |
| CategoriesViewModel.ReplaceById | app/src/main/java/com/example/finanzaspersonales/ui/categories/CategoriesViewModel.kt:807-809 | exactly the transactions with that id are replaced |
| CategoriesViewModel.IndexOfId | app/src/main/java/com/example/finanzaspersonales/ui/categories/CategoriesViewModel.kt:801 | the first index holding that id, or none when no transaction has it |
| CategoriesViewModel.FindById | app/src/main/java/com/example/finanzaspersonales/ui/categories/CategoriesViewModel.kt:801 | `find`: none exactly when no transaction has the id; otherwise one that has it |
| CategoriesViewModel.ReplaceUnknownId | app/src/main/java/com/example/finanzaspersonales/ui/categories/CategoriesViewModel.kt:801-821 | an unknown id leaves the list unchanged |
| CategoriesViewModel.CategoriesViewModel.constructor | app/src/main/java/com/example/finanzaspersonales/ui/categories/CategoriesViewModel.kt:85-115 | the screen starts on expenses, the current year and month, sorted by date descending, with nothing loaded |
| CategoriesViewModel.CategoriesViewModel.SelectTransactionType | app/src/main/java/com/example/finanzaspersonales/ui/categories/CategoriesViewModel.kt:157-162 | the type is stored, and the spending reloads only when it changed |
| CategoriesViewModel.CategoriesViewModel.ApplySorting | app/src/main/java/com/example/finanzaspersonales/ui/categories/CategoriesViewModel.kt:499-525 | the category list becomes its sort by the current field and order |
| CategoriesViewModel.CategoriesViewModel.UpdateSort | app/src/main/java/com/example/finanzaspersonales/ui/categories/CategoriesViewModel.kt:481-494 | the current field without an order toggles the order; otherwise the field and order are set, ascending by default; then the list is re-sorted |
| CategoriesViewModel.CategoriesViewModel.LoadTransactionsForCategory | app/src/main/java/com/example/finanzaspersonales/ui/categories/CategoriesViewModel.kt:377-476 | the list becomes the category's selection filtered by period and type and sorted; a failure empties it; loading ends false |
| CategoriesViewModel.CategoriesViewModel.AssignCategoryToTransaction | app/src/main/java/com/example/finanzaspersonales/ui/categories/CategoriesViewModel.kt:594-636 | a null id on either side fails without calling the repository; otherwise Success exactly when the repository returned true, and bulk categorisation follows only then with a non-blank provider |
| CategoriesViewModel.CategoriesViewModel.LaunchBulkCategorization | app/src/main/java/com/example/finanzaspersonales/ui/categories/CategoriesViewModel.kt:639-685 | the candidates share the provider, have no category and another id; the count is of the calls that succeeded |
| CategoriesViewModel.CategoriesViewModel.UpdateLocalTransactionProvider | app/src/main/java/com/example/finanzaspersonales/ui/categories/CategoriesViewModel.kt:738-747 | the provider changes for exactly the transactions with that id in both lists; everything else is unchanged |
| CategoriesViewModel.CategoriesViewModel.UpdateTransactionType | app/src/main/java/com/example/finanzaspersonales/ui/categories/CategoriesViewModel.kt:797-829 | an unknown id changes nothing; otherwise the first transaction with the id is sent with the new type; when the repository update returns, it replaces every copy and the selected category reloads when it is the transaction's, with INCOME when the new type is income and EXPENSE otherwise; when the update throws, the list is unchanged and nothing reloads |
| CategoriesViewModel.CategoriesViewModel.ClearAssignmentResult | app/src/main/java/com/example/finanzaspersonales/ui/categories/CategoriesViewModel.kt:695-698 | the result is cleared and nothing else changes |
| CategoriesViewModel.UpdatedTypeOnly | app/src/main/java/com/example/finanzaspersonales/ui/categories/CategoriesViewModel.kt:801-821 | after the type update the transactions with that id carry the new type and keep their id; the others are unchanged |
| TransactionListViewModel.ComparatorPreorder | app/src/main/java/com/example/finanzaspersonales/ui/transaction_list/TransactionListViewModel.kt:161-166 | each of the four orders is a total preorder |
| TransactionListViewModel.Ordered | app/src/main/java/com/example/finanzaspersonales/ui/transaction_list/TransactionListViewModel.kt:161-166 | the ordered list is a permutation of the repository's list |
| TransactionListViewModel.OrderedIsStableSort | app/src/main/java/com/example/finanzaspersonales/ui/transaction_list/TransactionListViewModel.kt:161-166 | the list is ordered by the saved order and keeps transactions with equal keys in their order |
| TransactionListViewModel.DateDescIsNewestFirst | app/src/main/java/com/example/finanzaspersonales/ui/transaction_list/TransactionListViewModel.kt:162 | DATE_DESC puts later dates first |
| TransactionListViewModel.AmountAscIsSmallestFirst | app/src/main/java/com/example/finanzaspersonales/ui/transaction_list/TransactionListViewModel.kt:165 | AMOUNT_ASC puts smaller amounts first |
| TransactionListViewModel.AssociateById | app/src/main/java/com/example/finanzaspersonales/ui/transaction_list/TransactionListViewModel.kt:171 | `associateBy`: the map has a key exactly for each id some category has |
| TransactionListViewModel.LastWithId | app/src/main/java/com/example/finanzaspersonales/ui/transaction_list/TransactionListViewModel.kt:171 | the reference lookup: the last category with the id, and none exactly when no category has it |
| TransactionListViewModel.LookupIsLastWithId | app/src/main/java/com/example/finanzaspersonales/ui/transaction_list/TransactionListViewModel.kt:171-174 | the map lookup finds the last category with the id: with duplicate ids the last one wins |
| TransactionListViewModel.UiModel | app/src/main/java/com/example/finanzaspersonales/ui/transaction_list/TransactionListViewModel.kt:174-179 | an item wraps its transaction unchanged |
| TransactionListViewModel.UiModels | app/src/main/java/com/example/finanzaspersonales/ui/transaction_list/TransactionListViewModel.kt:173-180 | one item per transaction, in order |
| TransactionListViewModel.ItemCategory | app/src/main/java/com/example/finanzaspersonales/ui/transaction_list/TransactionListViewModel.kt:170-180 | an item carries the name and color of the last category with its id, or neither when none has it |
| TransactionListViewModel.UncategorizedShowsLastDefault | app/src/main/java/com/example/finanzaspersonales/ui/transaction_list/TransactionListViewModel.kt:174 | looking up a null category id among the default categories, which have no ids, shows "Other" |
| TransactionListViewModel.TransactionListViewModel.constructor | app/src/main/java/com/example/finanzaspersonales/ui/transaction_list/TransactionListViewModel.kt:45-61 | the saved order defaults to DATE_DESC; nothing is loaded, assigning or reported |
| TransactionListViewModel.TransactionListViewModel.LoadTransactions | app/src/main/java/com/example/finanzaspersonales/ui/transaction_list/TransactionListViewModel.kt:144-190 | the items become the sorted transactions joined with the categories; a thrown call keeps the items and reports "Failed to load transactions: " and its message; loading ends false |
| TransactionListViewModel.TransactionListViewModel.UpdateSortOrder | app/src/main/java/com/example/finanzaspersonales/ui/transaction_list/TransactionListViewModel.kt:86-89 | the new order is stored and the list reloads with it |
| TransactionListViewModel.TransactionListViewModel.AssignCategoryToTransaction | app/src/main/java/com/example/finanzaspersonales/ui/transaction_list/TransactionListViewModel.kt:94-120 | Success exactly when the repository returned true, with a reload then; Failure on false or an exception; assigning ends false |
| TransactionListViewModel.TransactionListViewModel.ClearAssignmentResult | app/src/main/java/com/example/finanzaspersonales/ui/transaction_list/TransactionListViewModel.kt:140-142 | the result becomes null and nothing else changes |
| RawSmsList.Searched | app/src/main/java/com/example/finanzaspersonales/ui/raw_sms_list/RawSmsListViewModel.kt:79-88 | the kept messages are drawn from the list in order; a blank term keeps them all; otherwise every copy of each message whose lowercased provider, address or amount text contains the lowercased term, and no other |
| RawSmsList.ComparatorPreorder | app/src/main/java/com/example/finanzaspersonales/ui/raw_sms_list/RawSmsListViewModel.kt:90-112 | each of the six field-and-order comparators, nulls first when ascending, is a total preorder |
| RawSmsList.Displayed | app/src/main/java/com/example/finanzaspersonales/ui/raw_sms_list/RawSmsListViewModel.kt:78-114 | the displayed list is a permutation of the searched list |
| RawSmsList.DisplayedIsStableSort | app/src/main/java/com/example/finanzaspersonales/ui/raw_sms_list/RawSmsListViewModel.kt:90-112 | the displayed list is ordered by the field and order and keeps equal keys in their order |
| RawSmsList.UndatedFirstWhenAscending | app/src/main/java/com/example/finanzaspersonales/ui/raw_sms_list/RawSmsListViewModel.kt:93 | ascending by date puts the messages without a date first |
| RawSmsList.UnparsedLastWhenDescending | app/src/main/java/com/example/finanzaspersonales/ui/raw_sms_list/RawSmsListViewModel.kt:102 | descending by amount puts the messages without an amount last |
| RawSmsList.NextSort | app/src/main/java/com/example/finanzaspersonales/ui/raw_sms_list/RawSmsListViewModel.kt:68-74 | the new field is taken; the same field toggles the order; another field starts ascending |
| RawSmsList.SortChangedTwice | app/src/main/java/com/example/finanzaspersonales/ui/raw_sms_list/RawSmsListViewModel.kt:68-74 | choosing the same field twice restores the order |
| RawSmsList.RawSmsListViewModel.constructor | app/src/main/java/com/example/finanzaspersonales/ui/raw_sms_list/RawSmsListViewModel.kt:30-46 | no messages, no term, sorted by date descending |
| RawSmsList.RawSmsListViewModel.ApplyFiltersAndSorting | app/src/main/java/com/example/finanzaspersonales/ui/raw_sms_list/RawSmsListViewModel.kt:78-114 | the displayed list becomes the searched messages sorted by the current field and order |
| RawSmsList.RawSmsListViewModel.LoadRawSmsMessages | app/src/main/java/com/example/finanzaspersonales/ui/raw_sms_list/RawSmsListViewModel.kt:52-61 | the messages are stored and displayed searched and sorted; loading ends false |
| RawSmsList.RawSmsListViewModel.OnSearchTermChanged | app/src/main/java/com/example/finanzaspersonales/ui/raw_sms_list/RawSmsListViewModel.kt:63-66 | the term is stored and the list recomputed with it |
| RawSmsList.RawSmsListViewModel.OnSortChanged | app/src/main/java/com/example/finanzaspersonales/ui/raw_sms_list/RawSmsListViewModel.kt:68-76 | the sort moves to the next choice and the list is recomputed |
| TransactionDebug.SelectedRows | app/src/main/java/com/example/finanzaspersonales/ui/debug/TransactionDebugViewModel.kt:43-68 | each branch keeps, in order and with every copy, exactly the transactions its query type selects: all, the current month, income, expenses, or those without a category |
| TransactionDebug.QueryShape | app/src/main/java/com/example/finanzaspersonales/ui/debug/TransactionDebugViewModel.kt:43-68 | every query lists only transactions it selects, newest first, and at most 50 except THIS_MONTH |
| TransactionDebug.Query | app/src/main/java/com/example/finanzaspersonales/ui/debug/TransactionDebugViewModel.kt:43-68 | THIS_MONTH lists every selected row; the other queries list the selected rows up to 50 |
| TransactionDebug.ThisMonthIsComplete | app/src/main/java/com/example/finanzaspersonales/ui/debug/TransactionDebugViewModel.kt:45-55 | THIS_MONTH is not capped: every transaction of the current month and year is listed |
| TransactionDebug.CappedQueryIsLatest | app/src/main/java/com/example/finanzaspersonales/ui/debug/TransactionDebugViewModel.kt:44-67 | a selected transaction left out of a capped query means 50 are listed, none of them earlier than it |
| TransactionDebug.TransactionDebugViewModel.constructor | app/src/main/java/com/example/finanzaspersonales/ui/debug/TransactionDebugViewModel.kt:20-27 | no transactions, the ALL query, not loading |
| TransactionDebug.TransactionDebugViewModel.LoadTransactions | app/src/main/java/com/example/finanzaspersonales/ui/debug/TransactionDebugViewModel.kt:38-76 | the list becomes the current query's answer; a thrown call keeps the old list; loading ends false |
| TransactionDebug.TransactionDebugViewModel.SetQueryType | app/src/main/java/com/example/finanzaspersonales/ui/debug/TransactionDebugViewModel.kt:33-36 | the type is stored first, so the reload answers the new query |
| SettingsViewModel.ResetMessage | app/src/main/java/com/example/finanzaspersonales/ui/settings/SettingsViewModel.kt:60-73 | the success message after a clear and a resync; the failure's message or "Failed to clear user transactions."; "An error occurred: " and the message after an exception |
| SettingsViewModel.ExceptionNotSuccess | app/src/main/java/com/example/finanzaspersonales/ui/settings/SettingsViewModel.kt:69-70 | an exception is always reported with the error prefix, never as success |
| SettingsViewModel.SettingsViewModel.constructor | app/src/main/java/com/example/finanzaspersonales/ui/settings/SettingsViewModel.kt:20-31 | not loading, no dialog, no message |
| SettingsViewModel.SettingsViewModel.OnShowDialog | app/src/main/java/com/example/finanzaspersonales/ui/settings/SettingsViewModel.kt:45-47 | the dialog opens and nothing else changes |
| SettingsViewModel.SettingsViewModel.OnDismissDialog | app/src/main/java/com/example/finanzaspersonales/ui/settings/SettingsViewModel.kt:38-40 | the dialog closes and nothing else changes |
| SettingsViewModel.SettingsViewModel.ClearUserMessage | app/src/main/java/com/example/finanzaspersonales/ui/settings/SettingsViewModel.kt:49-51 | the message is cleared and nothing else changes |
| SettingsViewModel.SettingsViewModel.PerformFullUserResetAndResync | app/src/main/java/com/example/finanzaspersonales/ui/settings/SettingsViewModel.kt:53-78 | nobody signed in: "User not logged in." with loading untouched; otherwise the clear runs, the resync only after a successful clear, and the outcome's message is shown with loading false |
| SettingsViewModel.SettingsViewModel.OnConfirmReset | app/src/main/java/com/example/finanzaspersonales/ui/settings/SettingsViewModel.kt:33-36 | the dialog closes, then the reset runs |
| AddTransaction.ManualTransaction | app/src/main/java/com/example/finanzaspersonales/ui/add_transaction/AddTransactionViewModel.kt:71-82 | the record has no id, user, contact or account, the description doubling as provider, and the form's amount, date, type and category |
| AddTransaction.ManualTransactionInjective | app/src/main/java/com/example/finanzaspersonales/ui/add_transaction/AddTransactionViewModel.kt:71-82 | the form's fields can be read back from the record sent |
| AddTransaction.AddTransactionViewModel.constructor | app/src/main/java/com/example/finanzaspersonales/ui/add_transaction/AddTransactionViewModel.kt:26-52 | the loaded categories, or none when loading threw; not saving, no result |
| AddTransaction.AddTransactionViewModel.AddManualTransaction | app/src/main/java/com/example/finanzaspersonales/ui/add_transaction/AddTransactionViewModel.kt:57-102 | ignored while saving; otherwise the manual record is sent, the result stored and saving ends false |
| AddTransaction.AddTransactionViewModel.ClearSaveResult | app/src/main/java/com/example/finanzaspersonales/ui/add_transaction/AddTransactionViewModel.kt:107-109 | the result is cleared and nothing else changes |
| AuthViewModel.Finished | app/src/main/java/com/example/finanzaspersonales/ui/auth/AuthViewModel.kt:48-61 | a finished sign-in stops loading and keeps the inputs; success sets `loginSuccess`; failure leaves the exception's message or the fallback |
| AuthViewModel.AuthViewModel.constructor | app/src/main/java/com/example/finanzaspersonales/ui/auth/AuthViewModel.kt:13-26 | the screen starts from the default `LoginUiState` |
| AuthViewModel.AuthViewModel.OnEmailChange | app/src/main/java/com/example/finanzaspersonales/ui/auth/AuthViewModel.kt:29-31 | the email changes and the error is cleared; nothing else changes |
| AuthViewModel.AuthViewModel.OnPasswordChange | app/src/main/java/com/example/finanzaspersonales/ui/auth/AuthViewModel.kt:33-35 | the password changes and the error is cleared; nothing else changes |
| AuthViewModel.AuthViewModel.SignInWithEmailPassword | app/src/main/java/com/example/finanzaspersonales/ui/auth/AuthViewModel.kt:37-64 | ignored while loading; otherwise the trimmed email and the password as typed are sent and the result applied with "An unknown error occurred" as fallback |
| AuthViewModel.AuthViewModel.SignInWithGoogleToken | app/src/main/java/com/example/finanzaspersonales/ui/auth/AuthViewModel.kt:67-92 | a missing token reports "Google Sign-In failed: No token received" whatever the loading flag; a token while loading is ignored; otherwise the result is applied with "Google Sign-In failed" as fallback |
| AuthViewModel.AuthViewModel.ResetLoginSuccess | app/src/main/java/com/example/finanzaspersonales/ui/auth/AuthViewModel.kt:95-97 | only `loginSuccess` changes, to false |
| AuthViewModel.SignInSettles | app/src/main/java/com/example/finanzaspersonales/ui/auth/AuthViewModel.kt:48-61 | a finished sign-in never leaves the screen loading, and a failure always leaves a message |
| AuthViewModel.FailureWithoutMessage | app/src/main/java/com/example/finanzaspersonales/ui/auth/AuthViewModel.kt:54-59 | a failure naming nothing from a clean state reports "An unknown error occurred" |
| CleanupDuplicates.DescKey | scripts/cleanup-duplicates.js:32 | the key is the description when it is a non-empty string, else "__MISSING_DESCRIPTION__" |
| CleanupDuplicates.KeysOf | scripts/cleanup-duplicates.js:28-37 | the grouping's keys have no repeats and are exactly the documents' keys |
| CleanupDuplicates.GroupMembers | scripts/cleanup-duplicates.js:33-34 | a group holds exactly the documents with its key |
| CleanupDuplicates.GroupAppend | scripts/cleanup-duplicates.js:33-34 | pushing a document extends only its own key's group |
| CleanupDuplicates.SumSizesAppend | scripts/cleanup-duplicates.js:33-34 | one more document adds one to the group sizes when its key is counted |
| CleanupDuplicates.GroupsPartition | scripts/cleanup-duplicates.js:28-37 | the group sizes add up to the number of documents: every document is in exactly one group |
| CleanupDuplicates.NewKeyPartition | scripts/cleanup-duplicates.js:33 | a document with a new key keeps the partition |
| CleanupDuplicates.KeysAppendNew | scripts/cleanup-duplicates.js:33 | a new key is added after the existing ones, in insertion order |
| CleanupDuplicates.SumSizesSnoc | scripts/cleanup-duplicates.js:39 | one more key adds its group's size |
| CleanupDuplicates.NewKeyEmptyGroup | scripts/cleanup-duplicates.js:33 | a key not seen yet has no group |
| CleanupDuplicates.GroupByDescription | scripts/cleanup-duplicates.js:27-37 | the loop throws exactly when some description is an inherited property name such as "constructor" or "__proto__"; otherwise its keys are the keys in first-seen order and each maps to its group, in document order |
| CleanupDuplicates.Best | scripts/cleanup-duplicates.js:44-60 | the document kept is one of the group |
| CleanupDuplicates.BestHasProvider | scripts/cleanup-duplicates.js:44-60 | the kept document has a provider whenever any document of the group has one |
| CleanupDuplicates.ProviderNeverLost | scripts/cleanup-duplicates.js:49-58 | a kept document with a provider is only replaced by another with a provider |
| CleanupDuplicates.ChooseBest | scripts/cleanup-duplicates.js:44-60 | the scan keeps the best document of the group |
| CleanupDuplicates.OthersMembers | scripts/cleanup-duplicates.js:65-66 | the documents deleted from a group are exactly those whose id differs from the kept one |
| CleanupDuplicates.DeleteOthers | scripts/cleanup-duplicates.js:65-71 | the loop deletes the group's other documents, in order, and counts them |
| CleanupDuplicates.Run | scripts/cleanup-duplicates.js:19-80 | a description that is an inherited property name of a plain object makes the script end in its `catch` before any deletion; otherwise it deletes, group by group, every document but the one kept, and the count is the number deleted |
| CleanupDuplicates.Cleanup | scripts/cleanup-duplicates.js:19-74 | every deletion is a document read, in its description's group, whose id is not that of the group's kept document; and every document of a group of two or more whose id is not the kept one is deleted |
| CleanupDuplicates.CleanupComplete | scripts/cleanup-duplicates.js:39-71 | a document in a group of two or more, with an id other than the kept document's, is among the deletions |
| CleanupDuplicates.DeletionsOverMembers | scripts/cleanup-duplicates.js:39-73 | every deleted document belongs to a group, and differs by id from the one kept |
| CleanupDuplicates.DeletedHasSurvivor | scripts/cleanup-duplicates.js:39-73 | every deleted document leaves a survivor with the same description key |
| CleanupDuplicates.KeptNeverDeleted | scripts/cleanup-duplicates.js:39-73 | no group loses its kept document |
| CleanupDuplicates.OthersCount | scripts/cleanup-duplicates.js:65-70 | in a group, the deleted plus the copies of the kept id make up the group |
| CleanupDuplicates.CountIdZero | scripts/cleanup-duplicates.js:66 | an id held by no document counts zero |
| CleanupDuplicates.LastIdFresh | scripts/cleanup-duplicates.js:66 | with distinct ids the last document's id is not held earlier |
| CleanupDuplicates.CountIdOne | scripts/cleanup-duplicates.js:66 | with distinct ids each id is held once |
| CleanupDuplicates.GroupUniqueIds | scripts/cleanup-duplicates.js:33-34 | groups of documents with distinct ids have distinct ids |
| CleanupDuplicates.AppendFreshId | scripts/cleanup-duplicates.js:34 | adding a document with a fresh id keeps the ids distinct |
| CleanupDuplicates.GroupDeletionsCount | scripts/cleanup-duplicates.js:65-71 | with distinct ids a group loses all but one document |
| CleanupDuplicates.DeletionsOverCount | scripts/cleanup-duplicates.js:39-73 | over non-empty groups the deletions are the group sizes minus one each |
| CleanupDuplicates.DeletedCountIsTotalMinusGroups | scripts/cleanup-duplicates.js:38-74 | with distinct ids the script deletes the number of documents minus the number of descriptions |
| CleanupDuplicates.Better | scripts/cleanup-duplicates.js:49-58 | a candidate replaces the kept document only if it has a provider or a category; a kept document with a provider is replaced only by one with the same provider that adds a missing category; no document replaces itself |
| BackendServer.Field | backend-server/index.js:123 | a field is present exactly when the document has that key |
| BackendServer.GenerateHtml | backend-server/index.js:33-96 | the form shows the term; a non-empty error wins; otherwise a non-empty list is a table counting its rows, an empty list says nothing matched, and no list shows nothing |
| BackendServer.TableCountsRows | backend-server/index.js:37-62 | a results table shows every result, and its heading counts them |
| BackendServer.Root | backend-server/index.js:101-103 | `/` answers 200 with the empty form and nothing below it |
| BackendServer.DescriptionText | backend-server/index.js:124-125 | a falsy description reads as ""; a string reads as itself; a truthy non-string makes `toLowerCase` throw |
| BackendServer.FoundItemOf | backend-server/index.js:126-132 | a row carries the id, the local date of a timestamp or "Invalid Date", the description, a truthy amount or "N/A", and the income field as it is |
| BackendServer.SearchResults | backend-server/index.js:121-135 | the search fails exactly when some document's description throws |
| BackendServer.FoundIff | backend-server/index.js:121-135 | a row is found for each document whose description contains the term ignoring case, and only for those |
| BackendServer.Found | backend-server/index.js:121-135 | at most one row per document, each carrying the id of a document read |
| BackendServer.SearchDocs | backend-server/index.js:122-134 | the `forEach` pushes the matching rows in query order, and fails when a description throws |
| BackendServer.Search | backend-server/index.js:106-144 | a missing or empty term answers 400 with "Search term is required."; a failed query or a throwing description shows the fetch error; otherwise the page of the matches |
| BackendServer.SearchShowsMatches | backend-server/index.js:136-143 | a successful search shows either the table of the matches or the no-match text, never nothing |
| BackendServer.CellOf | backend-server/index.js:171-182 | missing and null fields become ''; timestamps become ISO text in the transaction backup and JSON in the category backup; other objects become JSON or the stringify error; scalars are kept |
| BackendServer.HeaderSetStep | backend-server/index.js:162-164 | visiting one more document adds exactly its keys to the header set |
| BackendServer.CollectHeaders | backend-server/index.js:161-165 | the headers are every key of every document, each once, sorted |
| BackendServer.Columns | backend-server/index.js:190 | the columns are "id", then "parentPath" for categories, then the headers in order |
| BackendServer.RowAfterShape | backend-server/index.js:171-183 | after the header loop the row has a value for every header, the converted field, and keeps base fields no header overwrote |
| BackendServer.BuildRow | backend-server/index.js:168-185 | the row object is the base fields updated by each header in turn |
| BackendServer.Line | backend-server/index.js:190 | a CSV line has one cell per column |
| BackendServer.LineAt | backend-server/index.js:190 | each cell is the row's value under its column's name |
| BackendServer.RowOf | backend-server/index.js:232-248 | the row object has a value for every column |
| BackendServer.Backup | backend-server/index.js:147-270 | `BackupResult`: a failed query rejects; no documents writes nothing; a category without an owning document rejects; otherwise one line per document, in query order, under the sorted headers |
| BackendServer.BuildLines | backend-server/index.js:168-185 | one line per document in query order, or a failure exactly when a category has no owning document |
| BackendServer.BuildLine | backend-server/index.js:232-248 | a document's line is its row object read out in column order |
| BackendServer.LineCells | backend-server/index.js:168-185 | every line has a cell per column, and the header columns hold the document's converted fields |
| BackendServer.LineCellAt | backend-server/index.js:171-183 | the cell under a header is the document's converted field |
| BackendServer.LineLeadingCells | backend-server/index.js:234-235 | the first cells hold the id and the owning path unless a field of the same name overwrote them |
| BackendServer.BeforeEquals | backend-server/index.js:276 | `split('=')[0]` is the longest prefix without '=', followed by '=' when shorter than the text |
| BackendServer.FirstModeArgument | backend-server/index.js:275-276 | the mode is read from the first `--mode=` argument; later ones are ignored |
| BackendServer.NoModeArgument | backend-server/index.js:276 | without a `--mode=` argument the mode is "default" |
| BackendServer.BackupArgument | backend-server/index.js:275-278 | a first mode argument "--mode=backup", or "--mode=backup=" and more, selects the backup |
| BackendServer.BeforeEqualsOf | backend-server/index.js:276 | the text before the first '=' of a text without '=' followed by nothing or by '=' is that text |
| BackendServer.RunScript | backend-server/index.js:272-293 | backup mode runs the transaction backup, then the category one exactly when the first did not fail, each ending as `BackupResult` says for its query, and exits 1 exactly when one failed; any other mode exits 0 doing nothing |
| BackendServer.ModeOf | backend-server/index.js:275-276 | the mode is the text after `--mode=` of the first argument starting with `--mode=`, up to its next `=`; "default" when no argument starts with `--mode=` |
| Streamlit.CategoryMap | backend-server/streamlit-spending-classifyer.py:24 | the id-to-name map has a key exactly for each category id |
| Streamlit.CategoryMapLastName | backend-server/streamlit-spending-classifyer.py:24 | an id listed twice maps to the name on its last row |
| Streamlit.Enriched | backend-server/streamlit-spending-classifyer.py:26 | the added name is present exactly when the row's id is in the map, and is that id's name; the other columns are unchanged |
| Streamlit.EnrichAll | backend-server/streamlit-spending-classifyer.py:24-26 | one enriched row per CSV row, in order |
| Streamlit.Unique | backend-server/streamlit-spending-classifyer.py:40 | `unique()`: every value of the column once |
| Streamlit.Years | backend-server/streamlit-spending-classifyer.py:34 | the year column holds exactly the rows' years |
| Streamlit.Months | backend-server/streamlit-spending-classifyer.py:35 | the month column holds exactly the rows' months |
| Streamlit.Providers | backend-server/streamlit-spending-classifyer.py:60 | the provider column holds exactly the rows' providers |
| Streamlit.CategoryNames | backend-server/streamlit-spending-classifyer.py:68 | the category column holds exactly the rows' category names |
| Streamlit.ForYear | backend-server/streamlit-spending-classifyer.py:42 | the rows of the chosen year, in order, every copy of an equal row kept |
| Streamlit.ForMonth | backend-server/streamlit-spending-classifyer.py:46 | the rows of the chosen month, in order, every copy of an equal row kept |
| Streamlit.ForAmount | backend-server/streamlit-spending-classifyer.py:53 | `between`: the rows whose amount lies in the range, ends included, in order, every copy of an equal row kept |
| Streamlit.ForSearch | backend-server/streamlit-spending-classifyer.py:58 | the rows whose description contains the text ignoring case, in order, every copy of an equal row kept |
| Streamlit.ForProviders | backend-server/streamlit-spending-classifyer.py:64-66 | no selection keeps every row; otherwise the rows whose provider is selected, in order, every copy of an equal row kept |
| Streamlit.ForCategoryIdsAsWritten | backend-server/streamlit-spending-classifyer.py:72-74 | as written: the rows whose category id is among the selected names, in order, every copy of an equal row kept |
| Streamlit.ForCategories | backend-server/streamlit-spending-classifyer.py:68-74 | no selection keeps every row; otherwise the rows whose category name is selected, in order, every copy of an equal row kept |
| Streamlit.BeforeCategories | backend-server/streamlit-spending-classifyer.py:38-66 | the year, month, amount, search and provider steps keep, in order, every copy of each row that passes all of them, and no other row |
| Streamlit.SidebarFrame | backend-server/streamlit-spending-classifyer.py:38-74 | as written, the sidebar keeps, in their order, every copy of each row that passes every step and no other row, the category step comparing the chosen names with category ids |
| Streamlit.SidebarFrameIntended | backend-server/streamlit-spending-classifyer.py:38-74 | corrected, the sidebar keeps, in their order, every copy of each row that passes every step with its category name chosen, and no other row |
| Streamlit.DefaultChoicesKeepRows | backend-server/streamlit-spending-classifyer.py:40-46 | with the select boxes' first year and first month, some row is left |
| Streamlit.MinAmount | backend-server/streamlit-spending-classifyer.py:50 | the smallest amount of the frame |
| Streamlit.MaxAmount | backend-server/streamlit-spending-classifyer.py:50 | the largest amount of the frame |
| Streamlit.DefaultRangeKeepsAll | backend-server/streamlit-spending-classifyer.py:50-53 | the slider's default range keeps every row |
| Streamlit.EmptySearchKeepsDescribed | backend-server/streamlit-spending-classifyer.py:55-58 | the default empty search keeps every row that has a description |
| Streamlit.CategoryFilterDropsChosenName | backend-server/streamlit-spending-classifyer.py:68-74 | choosing the offered name "Food" drops the only row, whose category is "Food" and id "c1"; comparing names keeps it |
| Streamlit.ChosenCategoriesKeepTheirRows | backend-server/streamlit-spending-classifyer.py:68-74 | comparing names, every offered category that is chosen keeps all its rows |
| Streamlit.PresentKeys | backend-server/streamlit-spending-classifyer.py:76 | the keys present are exactly the rows' non-missing keys |
| Streamlit.GroupKeys | backend-server/streamlit-spending-classifyer.py:76 | `groupby`: each non-missing key once, sorted |
| Streamlit.TotalsOver | backend-server/streamlit-spending-classifyer.py:76-80 | one total per key, in key order |
| Streamlit.SumTotalsOver | backend-server/streamlit-spending-classifyer.py:76-80 | the totals add up to the keys' group sums |
| Streamlit.TotalsPartition | backend-server/streamlit-spending-classifyer.py:76-80 | each total is the sum of its group's amounts, and the totals add up to the amounts of the rows with a key |
| Streamlit.Totals | backend-server/streamlit-spending-classifyer.py:76-80 | the group totals list no group twice, in ascending key order, with a group exactly for each key some row has |
| Streamlit.TotalAt | backend-server/streamlit-spending-classifyer.py:76 | the total at a key is that key's group sum |
| Streamlit.ClickedCategory | backend-server/streamlit-spending-classifyer.py:91-97 | no click keeps the frame; a click keeps the rows of the clicked category, in order, every copy of an equal row kept |
| Streamlit.ClickedProvider | backend-server/streamlit-spending-classifyer.py:116-120 | no click keeps the table; a click keeps the rows of the clicked provider, in order, every copy of an equal row kept |
| Streamlit.MetricsOf | backend-server/streamlit-spending-classifyer.py:122-138 | expenses are non-income rows outside "Investments", income the income rows, savings their difference, investments the "Investments" rows; the rates are shares of income, absent when income is 0 |
| Streamlit.ExpensesExcludeInvestments | backend-server/streamlit-spending-classifyer.py:122 | all spending is the expense metric plus the spending filed under "Investments" |
| Streamlit.SidebarFilters | backend-server/streamlit-spending-classifyer.py:38-74 | the sidebar leaves the frame of every filter in turn, the category filter as written; the year choices come from all rows, the month choices from the chosen year, the slider range from the chosen month (none when empty), the provider choices from the searched rows and the category choices from the provider-filtered rows |
| Streamlit.Dashboard | backend-server/streamlit-spending-classifyer.py:20-138 | one run shows the year choices, the month choices of the chosen year, the slider's range, the totals by category of the sidebar frame as written, the table after the category click, its provider totals and the metrics |
| Streamlit.DashboardIntended | backend-server/streamlit-spending-classifyer.py:20-138 | corrected, the same page over the sidebar frame whose category step keeps the rows with a chosen category name: the same choices, and the category totals, table, provider totals and metrics of that frame |
| Streamlit.MonthChoicesOfYear | backend-server/streamlit-spending-classifyer.py:40-44 | the month picker offers exactly the months that occur among the rows of the chosen year |
| Common.ToInt32 | app/src/main/java/com/example/finanzaspersonales/data/local/SharedPrefsManager.kt:123-135 | `Long.toInt()` on a 32-bit colour literal: a signed 32-bit value congruent to it modulo 2^32 |
| Common.Trim | app/src/main/java/com/example/finanzaspersonales/ui/auth/AuthViewModel.kt:44 | `trim()`: the slice of the text left between a blank prefix and a blank suffix, with no whitespace at either end; empty exactly for a blank text |
| Common.Split | app/src/main/java/com/example/finanzaspersonales/domain/usecase/CategoryAssignmentUseCase.kt:43 | `split(" ")`: at least one piece, none containing the separator |
| Common.JoinSplit | app/src/main/java/com/example/finanzaspersonales/domain/usecase/CategoryAssignmentUseCase.kt:43 | the pieces joined with the separator give the text back |
| Sorting.SortBy | app/src/main/java/com/example/finanzaspersonales/ui/categories/CategoriesViewModel.kt:499-525 | `sortedBy`: a permutation of the list |
| Sorting.SortBySorted | app/src/main/java/com/example/finanzaspersonales/ui/categories/CategoriesViewModel.kt:499-525 | under a total preorder the result is ordered |
| Sorting.SortByStable | app/src/main/java/com/example/finanzaspersonales/ui/categories/CategoriesViewModel.kt:499-525 | elements with equal keys keep their order |
| Sorting.StableSortUnique | app/src/main/java/com/example/finanzaspersonales/ui/categories/CategoriesViewModel.kt:499-525 | two sorted stable permutations of one list are equal, so every stable sort gives this result |
| Sorting.SortByIsStableSort | app/src/main/java/com/example/finanzaspersonales/ui/categories/CategoriesViewModel.kt:499-525 | any ordered, stable permutation of the list is its `sortedBy` |

## Left out

- Float arithmetic: amounts are exact reals, so `Float` rounding, `String.format` and "M COP" formatting are not modelled. The insight answers are constructors naming the branch taken, not the prose.
- Coroutines, `StateFlow`, `runBlocking` and Gson: each launched body is one sequential method; interleavings of concurrent launches are not modelled.
- Firestore, Room, SharedPreferences, the SMS and contacts content resolvers, and permissions are outside the model. Their results are inputs, including which rows the inbox query returns, their order and the LIMIT.
- `detectAccountInfo`, the two leading patterns of `extractProviderFromBody` and `extractDateTimeFromBody` are function parameters, not written-out scans. The Bancolombia pattern backtracks through its alternation and repetitions; the banking pattern is case-insensitive with a lazy `.+?`.
- MD5, name-based UUIDs and `UUID.randomUUID` are function parameters or fresh-id arguments. `generateTransactionKey` is the repository's `keyOf` function, and only the text it hashes (`KeyInput`) is modelled.
- Date parsing, `Calendar` arithmetic and epoch milliseconds: dates are records, and "today" is a parameter.
- `SmsReceiver.ExtractNumericAmount`: Java's full `toFloat` grammar (signs, exponents, `NaN`, surrounding spaces) is not modelled; such strings give `None`. Its only caller passes digits and separators, and `ExtractedAmountHasValue` proves those always parse.
- `SmsReceiver.ExtractAccount` states only the shape of its result: "*" and four digits. The leftmost-match rule and the null case are stated by `ExtractAccountIn`, which it calls with the lowered body.
- `SmsReceiver.onReceive` only logs its parsed transactions, and the broadcast intent plumbing is not modelled. The parse itself is `ParseTransaction`.
- `SmsDataSource.readSmsMessages`: an exception in the cursor loop ends it and returns the messages collected so far. This path is not modelled; every given row is read.
- ParseDecimal reads only plain decimal numerals. Kotlin's `toFloatOrNull` also reads a sign ("-5"), an exponent ("1e3"), surrounding spaces (" 7"), `NaN`, `Infinity` and hexadecimal forms; the model gives `None` for those.
- ParseToFloat inherits that gap. Its only caller, readSmsMessages, passes what the amount extractor found, and `TextExtractors.ExtractedAmountParses` proves those texts always parse.
- `Common.IsWhitespace` follows the current Unicode categories: U+180E, a space separator only before Unicode 6.3, is not whitespace here. `Trim`, `IsBlank` and `IsNullOrBlank` read whitespace through it.
- `Common.LowerStr` folds A-Z and the Spanish accented capitals ÁÉÍÓÚÑÜ, not all of Unicode as Kotlin's `lowercase()` does.
- CategoriesViewModel: `updateLocalTransactionCategory` has an empty body in the source, so it is not modelled. Several operations are not modelled because they only forward to a repository or set a filter and reload: `loadCategories`, `loadAllTransactions`, `loadCategorySpending`, the year/month filter setters, `reloadData`, the refresh functions, `selectCategory`, `addCategory`/`updateCategory`/`deleteCategory`/`saveCategory`, `getCategoryForTransaction`, `saveTransaction`, `deleteTransaction`, `saveProviderCategoryPreference` and `clearSaveProviderMappingResult`. `initialLoadData` is not modelled either: it loads categories, transactions and spending in one go and clears all three when an exception is thrown, so it combines those loaders with an exception path this model leaves out. The String overload `assignCategoryToTransaction(transactionId, categoryId)` is not modelled: it raises the assigning flag, calls the repository with the two ids, stores success or failure (an exception also becomes a failure), reloads transactions, spending and the selected category's list after a success, and lowers the flag; the repository call and the reloads are outside this model.
- TransactionListViewModel: `loadCategories` and `assignCategory` are not modelled because they only forward to the category repository (`loadCategories` stores the categories, or an empty list when an exception is thrown; `assignCategory` reloads the transactions after a success and sets the error text "Failed to assign category." after a failure).
- The category edits that reach the store are modelled in `CategoryRepository.CategoryStore`.
- ApplyCategoryAssignments and AssignCategoryToTransaction (`TransactionRepository.Repository`) do not capture the in-place update. In the source, `categoryId` is a `var` of the shared `TransactionData` objects (TransactionData.kt:21). The repository writes it on its cached objects (TransactionRepositoryImpl.kt:199, 203, 294). `getTransactions` returns the cache list itself (line 86), so every list a caller already holds sees the new category, for example CategoriesViewModel's `allTransactions`. The model replaces the cache with an updated copy and leaves lists handed out earlier unchanged. It models no aliasing between the cache and those lists.
- Common.StringLe compares strings character by character over Unicode scalar values. Kotlin's `String.compareTo` and JavaScript's `<` compare UTF-16 code units, so the two orders differ between characters above U+FFFF and those in U+E000 to U+FFFF.
- The Compose screens, activities and cards, and `MainActivity`'s copies of the extractors, are not modelled.
- backend-server/index.js: the Express server, the HTML text, fast-csv's quoting and the file streams are not modelled. A page is the section it shows, and a CSV file is its header row and cells.
- `CleanupDuplicates.GroupByDescription` lists the groups in first-appearance order. JavaScript's `Object.entries` puts integer-like keys such as "123" first, so for them the order of the deletions differs. The documents kept and the count do not.
- `BackendServer.Truthy`: `NaN` is not modelled.
- scripts/cleanup-duplicates.js reads a collection group, and the documents are the input. `CleanupDuplicates.DeletedCountIsTotalMinusGroups` assumes unique document ids across the whole group. Firestore makes ids unique only within one parent collection, so two users' transactions may share an id; the script itself compares by id.
- The Streamlit search uses pandas `str.contains`, which treats the text as a regex and fails on missing descriptions. The model uses a literal, case-insensitive substring search over present descriptions.
- The Streamlit chart order, plotly and AgGrid are not modelled. Group totals are listed in sorted key order.
- `Streamlit.MetricsOf`: the savings and investment rates are `None` when the income is 0, where numpy would give inf or NaN.
- `Streamlit.Dashboard` and `Streamlit.SidebarFilters` follow the script as written, filtering categories on ids. The page with the corrected category filter is `Streamlit.DashboardIntended`, over `Streamlit.SidebarFrameIntended`.
- `Streamlit.Dashboard` does not restate the month-choice property. `Streamlit.MonthChoicesOfYear` proves that the month choices are exactly the months of the chosen year.
- `Dashboard.Recent` states only that at most five transactions are listed and that they come from the input. That they are the latest, newest first, is proved in `TransactionOrder.LatestTaken` and `TransactionOrder.NewestFirstOrdered`.
- `ExtractTransactionData.BuiltAll` states only the length of the built list. The per-index fact is `ExtractTransactionData.BuiltAllAt`.
- backend-server/index.js never starts its HTTP server: `app.listen` is commented out, and both modes exit. The `/` and `/search` handlers are modelled as functions of the request all the same.
- scripts/move-mouse.py, the build scripts and the repository interfaces are not modelled.

## Findings

| source | as written | input that shows it | evidently intended | confidence | as-written member | corrected member |
|---|---|---|---|---|---|---|
| backend-server/streamlit-spending-classifyer.py:68-74 | the multiselect offers category names but keeps the rows whose `categoryId` is among the chosen values | one row with categoryId "c1" and category "Food"; choosing "Food", the only option, leaves no row | keep the rows whose category name is chosen | high; not executed | Streamlit.ForCategoryIdsAsWritten (Streamlit.CategoryFilterDropsChosenName) | Streamlit.ForCategories, Streamlit.SidebarFrameIntended, Streamlit.DashboardIntended (Streamlit.ChosenCategoriesKeepTheirRows) |
