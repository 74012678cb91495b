# Budget planner store, in Dafny

A model of the record store of the Smart Budget Planner (`src/utils/storage.js`). The browser app
keeps four collections in local storage — transactions, categories (one `income` and one
`expense` list), goals and settings. The store offers create, update and delete operations on
them, and it computes its aggregates by rescanning every transaction on each call:

- totals by type;
- a twelve-month income/expense/savings series;
- a per-category breakdown.

The project has three modules:

- `Records` (`records.dfy`) holds the entities as datatypes:
  - the object-spread merges the store applies when it creates or updates a record;
  - the default categories and settings;
  - the export and import documents.
- `Queries` (`queries.dfy`) holds the read side:
  - the date-range and category filters;
  - `getTotalsByType`;
  - `getMonthlyData` and the breakdown loop of `getCategoryBreakdown`, both written as methods with the source's loops.

  Every query is specified by a function over the transaction sequence, with reference definitions and lemmas relating them.
- `Store` (`store.dfy`) holds `class Store`, whose fields are the four collections. Its methods do the read-modify-persist operations with `modifies` frames naming the fields each writes.

Modelling choices:

- The source's `type` field is called `kind`.
- Amounts are integers (cents).
- Dates are `(year, month, day)` triples compared lexicographically.
- The clock and `generateId` are parameters of the operations: `now` and `newId`.
- An input record carries an optional `id`. The source writes the generated id *before* the spread, so an id in the input wins.
- A collection that `getTransactions`/`getGoals` would read as absent is the empty sequence.
- Absent categories and settings are `None`, because reading them falls back to defaults.
- `addCategory` and `getCategoryBreakdown` with a type other than `income`/`expense` throw a `TypeError` when they index the categories record (`src/utils/storage.js:131`, `:211`). This happens after `getCategories` has already seeded the record. The model keeps the seeding and gives `None` as the result.
- When no categories are stored, `getCategories` persists the defaults and returns an object whose lists are the module-level default arrays themselves (`src/utils/storage.js:115-120`; see Findings). The field `seed` holds those in-memory arrays.

## Model

| member | source | states |
|---|---|---|
| Records.FirstIndex | src/utils/storage.js:91 | the index found is the first whose id matches; None exactly when no element matches |
| Records.PatchTx | src/utils/storage.js:93-97 | `{...t, ...updates, updatedAt: now}`; characterised by PatchTxFields, PatchTxCompose and NoTxChangeRefreshesOnly |
| Records.NewTx | src/utils/storage.js:78-83 | the new transaction has the generated id unless the input carries one, every input field, and createdAt = updatedAt = now |
| Records.PatchTxFields | src/utils/storage.js:93-97 | an update overrides exactly the fields it carries, keeps every other field, and always sets updatedAt to now |
| Records.PatchTxCompose | src/utils/storage.js:93-97 | two updates in a row equal one update carrying both, the later winning |
| Records.NoTxChangeRefreshesOnly | src/utils/storage.js:93-97 | an empty update changes only updatedAt |
| Records.NewGoal | src/utils/storage.js:239-243 | the new goal has the generated id unless the input carries one, every input field, and createdAt = now |
| Records.PatchGoalFields | src/utils/storage.js:253 | a goal update overrides exactly the fields it carries and keeps the others, with no timestamp refreshed |
| Records.PatchGoalIdempotent | src/utils/storage.js:253 | applying a goal update twice equals applying it once |
| Records.PatchGoalCompose | src/utils/storage.js:253 | two goal updates equal one update carrying both, the later winning |
| Records.PatchGoal | src/utils/storage.js:253 | `{...g, ...updates}`; characterised by PatchGoalFields, PatchGoalIdempotent and PatchGoalCompose |
| Records.DateLe | src/utils/storage.js:142-145 | chronological order on calendar dates, year then month then day, inclusive; used by the date-range filter |
| Records.NewCategory | src/utils/storage.js:127-130 | the new category has the generated id unless the input carries one, and the input's display fields |
| Records.ListOf | src/utils/storage.js:131 | `categories[type]` is a list exactly for the two types income and expense |
| Records.WithAppended | src/utils/storage.js:131 | appending succeeds exactly for the two types; the type's list grows by the one category and the other list is unchanged |
| Records.DefaultSettingsValues | src/utils/storage.js:262-267 | the default settings are exactly currency USD, theme light, notifications on and budget alerts on |
| Records.MergeSettings | src/utils/storage.js:273 | the merged keys are the union; keys of the partial settings take its values, all other keys keep theirs |
| Records.MergeSettingsIdempotent | src/utils/storage.js:271-276 | merging the same partial settings twice equals merging once |
| Queries.Filter | src/utils/storage.js:106 | `Array.prototype.filter` over a sequence; characterised by FilterMembers, FilterSnoc, FilterConcat and FilterAll |
| Queries.Holds | src/utils/storage.js:142-145 | the conditions the store filters by: exact type (161), inclusive date range (142-145), category id (150), id other than (106), year-and-month bucket (181-187), unknown category (223) |
| Queries.Select | src/utils/storage.js:150 | the transactions satisfying one condition, in order; characterised by SelectMembers and SelectSnoc |
| Queries.SumAmounts | src/utils/storage.js:162 | the `reduce` sum of amounts from 0; characterised by SumSnoc, SelectSumSnoc and SumNonNegative |
| Queries.FilterMembers | src/utils/storage.js:106 | a filter keeps exactly the elements satisfying its condition and never more elements than it was given |
| Queries.FilterConcat | src/utils/storage.js:106 | a filter keeps order: filtering a concatenation is the concatenation of the filtered halves |
| Queries.SelectSumSnoc | src/utils/storage.js:160-162 | appending one transaction raises a filtered sum by its amount exactly when it passes the filter |
| Queries.GetTransactionsByDateRange | src/utils/storage.js:137-146 | a transaction is returned exactly when it is stored and start <= date <= end, both ends included |
| Queries.GetTransactionsByCategory | src/utils/storage.js:148-151 | a transaction is returned exactly when it is stored and filed under the category id |
| Queries.GetTotalsByType | src/utils/storage.js:153-163 | getTotalsByType itself: the scoped transactions filtered by exact type, summed; characterised by TotalsByTypeIsMatchedSum, TotalsAfterAppend, TotalsNoMatch and KindSplit |
| Queries.TotalsByTypeIsMatchedSum | src/utils/storage.js:153-163 | the total equals the independent sum of the amounts whose type is exactly `kind` and whose date is in range (all dates when no range) |
| Queries.KindSumIsMatched | src/utils/storage.js:160-162 | filtering by exact type and summing equals the independent sum over all dates |
| Queries.RangeMatched | src/utils/storage.js:156-158 | restricting to the date range first and then summing by type equals summing the amounts that are both of the type and in range |
| Queries.TotalsAfterAppend | src/utils/storage.js:153-163 | saving a transaction raises the total of its own type (in a range holding its date) by its amount and changes no other total |
| Queries.TotalsNoMatch | src/utils/storage.js:153-163 | with no matching transaction the total is 0 |
| Queries.KindSplit | src/utils/storage.js:161 | when every transaction is income or expense, the sum of all amounts is the income total plus the expense total |
| Queries.SumNonNegative | src/utils/storage.js:162 | a sum of non-negative amounts is non-negative |
| Queries.EmptyMonths | src/utils/storage.js:169-177 | the initial map has exactly the keys 1..12, each with income, expense and savings 0 |
| Queries.BookStep | src/utils/storage.js:179-189 | booking one transaction changes only its own month, and only when it is in the year; income-typed amounts go to income and every other type to expense |
| Queries.BookMonth | src/utils/storage.js:180-187 | one more transaction moves a month's income only if it is of that month and year and income-typed, and its expense only if it is of that month and year and of any other type |
| Queries.DeriveSavings | src/utils/storage.js:191-194 | every month keeps its income and expense and gets savings = income - expense |
| Queries.GetMonthlyData | src/utils/storage.js:165-197 | exactly months 1..12; each month's income is the sum of that year-and-month's income-typed amounts, its expense the sum of all other types, and savings their difference |
| Queries.SavingsThroughSnoc | src/utils/storage.js:179-194 | one more transaction in the year moves the savings of months 1..n by +amount (income) or -amount (anything else) when its month is at most n |
| Queries.YearSavings | src/utils/storage.js:165-197 | when all transactions are in the year, the twelve savings sum to the income total minus all other amounts |
| Queries.YearSavingsMatchTotals | src/utils/storage.js:165-197 | with only income and expense transactions, all in the year, the twelve savings sum to getTotalsByType(income) - getTotalsByType(expense) |
| Queries.Ids | src/utils/storage.js:211 | the category ids, position by position |
| Queries.KeyOrder | src/utils/storage.js:211-218 | the breakdown keys are distinct and are exactly the category ids |
| Queries.KeyOrderFirstSeen | src/utils/storage.js:211-218 | the keys are in first-occurrence order: of two keys, the earlier occurs in the category list before every occurrence of the later |
| Queries.LastWithId | src/utils/storage.js:212-217 | the display fields of an entry come from the category of the list that has that id and after which no category has it (the last one written under it) |
| Queries.Table | src/utils/storage.js:207-227 | one entry per breakdown key, in key order, each with that key as its id |
| Queries.PositiveMembers | src/utils/storage.js:229 | exactly the entries with amount > 0 are kept |
| Queries.ZeroTableReplace | src/utils/storage.js:211-218 | writing a category under an id already present resets that entry in place and keeps its position |
| Queries.ZeroTableExtend | src/utils/storage.js:211-218 | writing a category under a new id appends a zero entry |
| Queries.ZeroTable | src/utils/storage.js:211-218 | the first loop builds one zero entry per category id |
| Queries.TableHit | src/utils/storage.js:223-226 | a transaction filed under a known id adds its amount and one to the count of that entry alone |
| Queries.TableMiss | src/utils/storage.js:223 | a transaction filed under an unknown id leaves the table unchanged |
| Queries.AddOne | src/utils/storage.js:223-226 | one step of the second loop turns the table over the transactions scanned so far into the table over one more |
| Queries.Accumulate | src/utils/storage.js:220-227 | the second loop yields, for every key, the sum and the number of the scanned transactions filed under it |
| Queries.Breakdown | src/utils/storage.js:207-229 | the loops compute the breakdown definition: the keyed table over the transactions of the type, less the entries that are not positive |
| Queries.BreakdownOf | src/utils/storage.js:199-230 | the breakdown definition that Breakdown computes; characterised by BreakdownEntries, BreakdownInCategoryOrder and BreakdownConservation |
| Queries.BreakdownEntries | src/utils/storage.js:199-230 | every returned entry is positive, belongs to a known category, and carries the sum and the count of the matching transactions under it; every known category with a positive sum is returned |
| Queries.DistinctKeyOrder | src/utils/storage.js:211-218 | with distinct ids the keys are the category list's ids in order and each entry shows its own category |
| Queries.BreakdownInCategoryOrder | src/utils/storage.js:211-229 | with distinct ids the breakdown is the category list in definition order, each with its sum and count, less the non-positive entries |
| Queries.DefaultIdsDistinct | src/utils/storage.js:11-28 | over either default list, the breakdown keys are the list's ids in definition order |
| Queries.DefaultExpenseIdsDistinct | src/utils/storage.js:11-20 | the eight default expense categories have distinct ids |
| Queries.DefaultIncomeIdsDistinct | src/utils/storage.js:22-28 | the five default income categories have distinct ids |
| Queries.SumEntriesUpdate | src/utils/storage.js:224 | replacing one entry changes the entries' total by the difference of the two amounts |
| Queries.TableConservation | src/utils/storage.js:220-227 | the table's amounts plus the amounts under ids that are no category equal all amounts scanned |
| Queries.PositiveSum | src/utils/storage.js:229 | dropping entries of amount 0 does not change the total when no amount is negative |
| Queries.BreakdownConservation | src/utils/storage.js:199-230 | the breakdown's amounts plus the dangling amounts equal getTotalsByType(type, range), for non-negative amounts |
| Store.Store.Open | src/utils/storage.js:3-28 | a store over the stored collections, with the default category lists as loaded |
| Store.Store.SaveTransaction | src/utils/storage.js:76-87 | the collection grows by exactly the new record at the end; the old prefix and every other collection are unchanged |
| Store.Store.UpdateTransaction | src/utils/storage.js:89-102 | an unknown id returns None and changes nothing; a known id replaces only the first matching record by its update and returns it |
| Store.Store.DeleteTransaction | src/utils/storage.js:104-109 | returns true; no record with the id remains, every other record remains in its original order |
| Store.Store.Seeded | src/utils/storage.js:112-123 | the categories a read hands out: the stored record, or the in-memory defaults when none is stored |
| Store.Store.GetCategories | src/utils/storage.js:112-123 | an absent record is seeded and persisted with the defaults; a stored one is returned unchanged |
| Store.Store.AddCategory | src/utils/storage.js:125-134 | the type's list grows by the new category, the other list is unchanged, and the defaults stay as they are; an unknown type gives None after seeding |
| Store.Store.AddCategoryAsWritten | src/utils/storage.js:125-134 | as the source is written: when no record was stored, the in-memory defaults become the updated record too |
| Store.Store.GetCategoryBreakdown | src/utils/storage.js:199-230 | seeds the categories, then returns the breakdown of the type's list over the transactions in range; an unknown type gives None |
| Store.Store.SaveGoal | src/utils/storage.js:237-247 | the goals grow by exactly the new goal at the end; nothing else changes |
| Store.Store.UpdateGoal | src/utils/storage.js:249-258 | an unknown id returns None and changes nothing; a known id replaces only the first matching goal by its update |
| Store.Store.GetSettings | src/utils/storage.js:261-269 | the stored settings, or the defaults when none are stored; it writes nothing |
| Store.Store.UpdateSettings | src/utils/storage.js:271-276 | persists and returns the shallow merge of the current settings with the partial ones |
| Store.Store.ExportData | src/utils/storage.js:279-288 | the four collections as read, with the categories seeded, and the export time |
| Store.Store.ImportData | src/utils/storage.js:290-304 | a document that does not parse changes nothing and gives false; otherwise exactly the present fields replace their collections, the rest stay, and it gives true |
| Store.Store.ClearAllData | src/utils/storage.js:307-311 | all four collections are removed; the in-memory defaults are not touched |
| Store.DeleteAbsent | src/utils/storage.js:104-109 | deleting an id no record carries leaves the collection unchanged |
| Store.DeleteIdempotent | src/utils/storage.js:106 | deleting twice equals deleting once |
| Store.DeleteUndoesSave | src/utils/storage.js:104-109 | deleting the id of a record just saved under a fresh id gives back the collection before the save |
| Store.DeleteKeepsOrder | src/utils/storage.js:106 | deletion distributes over concatenation, so relative order is kept |
| Store.SavedIsFound | src/utils/storage.js:91 | after saving under a fresh id, the first record with that id is the saved one, at the end |
| Store.ExportImportRoundTrip | src/utils/storage.js:279-304 | importing an export returns true and restores transactions, goals and (as read) settings; categories end up stored as they were read (given the lossless parse that Records.Reparse stands for) |
| Store.SeedLeakAsWritten | src/utils/storage.js:112-134 | with the code as written, add-category on empty storage, clear, and read gives defaults that include the added category |
| Store.SeedKeptAfterClear | src/utils/storage.js:307-311 | with the corrected add-category, clear and read gives exactly the default categories |

## Left out

- Browser local storage and JSON. The store is the class fields. Serialisation, the storage keys and the swallowed read and write failures (`getFromStorage`/`saveToStorage`) are not modelled; a failed read counts as absent.
- `getTransactions` and `getGoals` are the fields `transactions` and `goals` themselves. An absent or unreadable collection is the empty sequence.
- `generateId` and the clock: they use `Date.now` and `Math.random`. They are the parameters `newId` and `now`. Fresh ids are a precondition where a lemma needs one.
- `formatCurrency` and `formatDate` are thin wrappers over `Intl`.
- Time zones: `new Date(...)` parsing, UTC versus local time in the date-range test and in the month and year extraction. Dates are calendar triples. Day-of-month validity (a 31st of February) is not checked.
- Floating-point amounts: amounts are integers (cents).
- Queries.KeyOrder: JavaScript objects list integer-like keys first in ascending order, before the others in insertion order. The model uses insertion order for every id, which is the order for the default and generated ids. Prototype key names such as `__proto__` are not modelled.
- Queries.GetMonthlyData: the month keys are integers; in the source they are the strings `"1"`..`"12"`.
- Queries.BreakdownConservation: stated only when no amount is negative. The breakdown drops non-positive entries, and the transaction form only admits positive amounts.
- Store.Store.ImportData: the imported document is typed. A document whose fields have other JSON shapes (a non-array, a categories record without an `income` or `expense` list) is not modelled. `Malformed` stands for a parse failure and for `null`.
- Store.Store.ExportData: the JSON text of the export is not modelled.
- Records.Reparse: assumes, and does not prove, that parsing the exported text gives back every field unchanged (`JSON.parse(JSON.stringify(...))`, `src/utils/storage.js:287`, `:292`). This holds for the exported values: arrays, string-keyed objects, strings, integers and booleans. All four collections count as present because each is an array or an object, and arrays and objects are truthy even when empty, so `importData` (`:294-297`) writes every one of them. `Store.ExportImportRoundTrip` rests on this assumption.
- The React components and pages: rendering, hooks, `storage` event listeners and float ratios. This includes GoalTracker's goal deletion, which writes local storage directly, the Reports file download, and the unimplemented Navbar export and import buttons.

## Findings

| source | as written | input that shows it | evidently intended | confidence | as-written member | corrected member |
|---|---|---|---|---|---|---|
| src/utils/storage.js:131 | `getCategories` seeds an absent record by returning an object whose lists are the module-level default arrays themselves; `addCategory` then pushes into that list, so the defaults in memory change | empty storage; `addCategory('expense', {name: 'Pets', ...})`; `clearAllData()`; `getCategories()` returns nine expense categories, the added one among them | the defaults stay fixed (the seeded record is a copy), so clearing the data brings back the eight default expense categories | not executed | Store.SeedLeakAsWritten | Store.SeedKeptAfterClear |
