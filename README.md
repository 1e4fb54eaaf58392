# Gestor de finanzas personales: a verified model of its core

This project models the domain logic of a personal finance tracker and proves properties about it. The tracker has three parts.

The **income grid** keeps an ordered list of income categories and, for each year, a sparse grid `categoryId -> month -> amount`. A missing row or month reads as 0, and every stored amount is a whole, non-negative number of Chilean pesos (`Math.max(0, Math.round(v))`). The model covers the parts that read and write the grid:

- the reading of peso text typed or pasted by the user;
- the finance store with its `SimpleLocalAdapter`, its event bus and its total selectors;
- the class-based `LocalAdapter`, which keeps local storage and two caches in agreement;
- the mock REST handlers and the request schemas they validate with;
- the two income-matrix hooks, and the edit, key and paste handling of the spreadsheet component;
- the self-contained basic grid;
- the year statistics and the year toolbar.

The **shared-expense balance** splits each shared expense between Felipe and Camila by a percentage and decides who owes whom. It also covers the form that creates these expenses.

The **transactions and recurring payments** part covers:

- the rule that generates a month's recurring transactions;
- the month and year summaries and the category breakdown;
- the list operations over browser storage and the row conversions for the database tables;
- the transaction and recurring-payment forms;
- the list's filter and sort, the month timeline and the category colour and icon tables.

The model's form follows the code's form:

- An object the code updates in place is a Dafny `class`. The finance store, both adapters, the mock route state, the hooks' state, the editors and the forms are classes. Each of their methods states the new value of every field it may change, including the fields it leaves as they were.
- Browser storage and the mock globals are fields of those classes.
- Pure helpers are functions, and their properties are lemmas.
- Generated ids, clock readings, "today", the random demo amounts, whether a promise rejects and whether the user confirms a dialog are all parameters.
- Amounts are exact real numbers. The JavaScript rounding, clamping and `parseFloat`/`parseInt` prefix readers are written out over them.

Some behaviours of the code are modelled as written and stated as lemmas:

- The store keeps the caller's unrounded amount in memory while its adapter stores the rounded one (`Store.FinanceStore.SetCell`). Through the hook, the two agree.
- The API's duplicate-name check compares the untrimmed name (`ApiRoutes.PaddedDuplicateAccepted`).
- A year such as `2024abc` is served as 2024 (`ApiRoutes.TrailingTextYearServed`).
- The demo category ids `'1'` and `'2'` of the mock route are not UUIDs, so no cell of theirs can be written through the API (`Schema.DemoIdsAreNotUuids`).
- A paste always lands from January, whichever month was clicked (`MatrixEditor.PasteRowShape`).
- `SimpleLocalAdapter.deleteCategory` purges only the current year's grid, and `LocalAdapter.deleteCategory` purges only the cached years.
- `reorderCategories` drops the categories it is not given.
- `"0.5"` passes the shared-expense form yet submits 0 (`SharedExpenseForm.HalfPassesYetSubmitsZero`).
- A `recurringDay` of 0 becomes null in the database (`DbRows.DayZeroIsLost`).
- A blank name passes `CreateCategorySchema` (`Schema.BlankNamePasses`).
- The data hook updates every item with a matching id, while storage updates only the first. The two agree when ids are unique (`Transactions.UpdatesAgreeOnUniqueIds`).
- With a negative grand total, the category ranking reports a 0 percentage while `getCategoryPercentage` reports a negative one (`IncomeStats.SharesDisagreeBelowZero`).

## Model

| member | source | states |
|---|---|---|
| Text.Trim | src/components/TransactionForm.tsx:45 | `trim()`: a slice of the text that neither starts nor ends with whitespace |
| Text.TrimIdempotent | src/store/useFinanceStore.ts:35 | a name stored trimmed trims to itself: trimming twice is trimming once |
| Text.TrimEmptyIffBlank | src/components/TransactionForm.tsx:45 | `!s.trim()` holds exactly when every character of `s` is whitespace |
| Text.TrimUnpadded | src/components/IncomeMatrix.tsx:117 | text with no whitespace at either end trims to itself |
| Text.ToLower | src/components/TransactionList.tsx:23-24 | `toLowerCase()` keeps the length and lower-cases every character in place |
| Text.ContainsIffSliceAt | src/components/TransactionList.tsx:23-24 | `includes(sub)` holds exactly when `sub` occurs in the text at some position |
| Text.SplitJoin | src/components/IncomeMatrix.tsx:211 | `split(sep)` loses nothing: joining the pieces gives the text back, and no piece holds the separator |
| Text.JoinSplit | src/components/IncomeMatrix.tsx:211 | joining the pieces of `split(sep)` with the separator gives the text back |
| Text.SplitPiecesFree | src/components/IncomeMatrix.tsx:211 | no piece of `split(sep)` holds the separator |
| Text.PadStart | src/hooks/useSharedExpenses.ts:102 | `padStart(width, fill)`: text already that wide is unchanged, otherwise it ends the padded result, preceded only by the fill |
| Text.NatToStringRoundTrip | src/store/useFinanceStore.ts:107 | the decimal notation of a number reads back as that number and has no leading zero |
| Text.LexBeforeTotal | src/components/TransactionList.tsx:38 | `localeCompare` (as code-point order) is irreflexive, and of two different strings exactly one comes first |
| Text.LexBeforeTransitive | src/components/TransactionList.tsx:38 | `localeCompare` (as code-point order) is transitive |
| Text.DigitRun | src/components/SharedExpenseForm.tsx:68 | the digits `parseInt` reads: a prefix of the text, all digits, stopped by the first non-digit |
| Numbers.Round | src/utils/currency.ts:19 | `Math.round(x)`: the integer `r` with `r - 0.5 <= x < r + 0.5` (halves go up) |
| Numbers.ClampRound | src/store/useFinanceStore.ts:95 | `Math.max(0, Math.round(x))`: 0 below one half, otherwise the nearest integer |
| Numbers.ClampRoundWhole | src/hooks/useIncomeMatrix.ts:74 | whole numbers round to themselves, and non-negative ones are not changed by the clamp |
| Numbers.ClampRoundIdempotent | adapters/income/localAdapter.ts:240 | clamping an amount already clamped leaves it as it is |
| Numbers.ScanUnsignedDecimal | src/utils/currency.ts:38 | the unsigned decimal literal at the start of the text, never negative |
| Numbers.ParseInt | src/components/SharedExpenseForm.tsx:68 | `parseInt` yields a number only for text holding a digit |
| Numbers.ParseFloatDigits | src/utils/currency.ts:38 | `parseFloat` of a string of digits is the number they denote |
| Numbers.ParseIntDigits | src/store/useFinanceStore.ts:107 | `parseInt` of a string of digits is the number they denote |
| Numbers.ParseIntIntToString | src/store/useFinanceStore.ts:107 | `parseInt` reads back the decimal notation of every integer, negative ones included |
| Numbers.ParseFloatDecimal | src/utils/currency.ts:87 | `parseFloat("w.f")` is `w + f / 10^\|f\|` |
| Numbers.ParseFloatNoDigits | src/utils/currency.ts:38-39 | text without a digit is `NaN` for `parseFloat` |
| Numbers.DigitRunPrefix | src/components/SharedExpenseForm.tsx:68 | the digits read stop exactly at the first non-digit |
| Numbers.FloatOrZero | src/components/TransactionForm.tsx:197 | `parseFloat(text) \|\| 0`: 0 for `NaN`, otherwise the number read |
| Numbers.IntOrOne | src/components/RecurringPaymentForm.tsx:214 | `parseInt(text) \|\| 1`: never 0; 1 for `NaN` and for 0, otherwise the number read |
| Dates.DaysInMonth | src/components/MonthlyTimeline.tsx:27 | the length of a month, 28 to 31 |
| Dates.MakeDate | src/components/MonthlyTimeline.tsx:74 | `new Date(y, m - 1, d)` always gives a real calendar day |
| Dates.MakeDateInRange | src/hooks/useFinancialData.ts:59 | a day that exists is built as itself; a day past the month's end rolls into the next month |
| Dates.PreviousMonth | src/hooks/useSharedExpenses.ts:118 | the 1st of the month before |
| Dates.NextMonth | src/hooks/useSharedExpenses.ts:123 | the 1st of the month after |
| Dates.MonthNavigationInverse | src/hooks/useSharedExpenses.ts:116-125 | going back a month and then forward (or the reverse) returns to the 1st of the month one started in |
| Dates.DateBeforeTotal | src/components/MonthlyTimeline.tsx:99 | comparing dates is irreflexive, and of two different dates exactly one is earlier |
| Dates.Pad2 | src/hooks/useSharedExpenses.ts:102 | two digits that read back as the number |
| Dates.FormatIsoDate | src/utils/supabaseStorage.ts:26 | `toISOString().split('T')[0]` writes ten characters, `YYYY-MM-DD` |
| Dates.ParseIsoDate | src/utils/supabaseStorage.ts:15 | `new Date("YYYY-MM-DD")` reads only real calendar days with four-digit years |
| Dates.IsoDateRoundTrip | src/utils/supabaseStorage.ts:15-26 | writing a date and reading it back gives the same date |
| Dates.IsoDateFormatParse | src/components/TransactionForm.tsx:73 | text that reads as a date is exactly how that date is written back |
| Sums.SumRemove | src/store/useFinanceStore.ts:479 | a sum over `Object.values` may take any entry out first |
| Sums.SumUpdate | src/store/useFinanceStore.ts:95 | writing a cell changes the sum by the new value minus the old one |
| Sums.SumNonNegative | src/store/useFinanceStore.ts:488-490 | a sum of non-negative amounts is non-negative |
| Sums.RealSumRemove | src/components/IncomeMatrixBasic.tsx:87 | a sum over `Object.values` may take any entry out first |
| Sums.SeqSumAppend | src/hooks/useFinancialData.ts:139 | `reduce` over two lists joined is the sum of their sums |
| Sorting.Insert | src/components/TransactionList.tsx:27 | one insertion step: the list gains exactly that element |
| Sorting.SortWith | src/store/useFinanceStore.ts:23 | `sort` is a permutation: the same elements, as often as before |
| Sorting.InsertSorted | src/components/TransactionList.tsx:27 | inserting into a sorted list keeps it sorted |
| Sorting.SortWithSorted | src/store/useFinanceStore.ts:23 | `sort` with a strict order leaves no element before one to its left that it should follow |
| Sorting.InsertAtEnd | src/store/useFinanceStore.ts:237 | an element before none of the others lands at the end |
| Sorting.SortWithSortedIsIdentity | adapters/income/localAdapter.ts:91 | sorting a list already in order, equal entries included, leaves it as it is |
| Wrappers.Option.GetOr | src/utils/supabaseStorage.ts:122-128 | the present value when there is one, otherwise the fallback: how a column not sent keeps its stored value |
| Text.TrimStart | src/utils/currency.ts:38 | cuts a prefix made only of whitespace, and what is left does not start with whitespace |
| Text.TrimEnd | src/components/TransactionForm.tsx:45 | cuts a suffix made only of whitespace, and what is left does not end with whitespace |
| Text.TrimCutsOnlyWhitespace | src/components/TransactionForm.tsx:45 | `trim()` is the text with only leading and only trailing whitespace cut off: everything before the kept slice and after it is whitespace |
| Text.Split | src/components/IncomeMatrix.tsx:211 | `split` always yields at least one piece |
| Text.Join | src/components/IncomeMatrix.tsx:211 | joining starts with the first piece, followed by the separator when there are more |
| Text.Utf16Length | src/lib/finance/schema.ts:16 | the JavaScript `length` of a text: at least its number of characters and at most twice it, and exactly it when no character lies outside the Basic Multilingual Plane |
| Text.AstralLengthDoubles | src/lib/finance/schema.ts:16 | a text made only of characters outside the Basic Multilingual Plane (emoji) has a JavaScript `length` of twice its characters |
| Numbers.ParseFloat | src/utils/currency.ts:38 | `parseFloat` yields a number only when the text, after leading whitespace, starts with a digit, a point or a sign, and a negative number only after a minus |
| Sums.RealSumNonNegative | src/components/IncomeMatrixBasic.tsx:87 | a sum of non-negative amounts over `Object.values` is non-negative |
| Currency.FormatCLP | src/utils/currency.ts:12-22 | `formatCLP` is empty exactly for 0; otherwise it shows the rounded amount, with the `$` exactly when asked |
| Currency.StripSymbolAndSpaces | src/utils/currency.ts:34 | no `$` and no whitespace is left |
| Currency.StripDots | src/utils/currency.ts:35 | no `.` is left |
| Currency.CommasToDots | src/utils/currency.ts:36 | same length; every `,` becomes `.`, every other character stays |
| Currency.ParseCLP | src/utils/currency.ts:29-40 | `parseCLP` is total, its result a non-negative integer, and the empty text reads as 0 |
| Currency.CleanCLPAppend | src/utils/currency.ts:33-36 | the three global replacements work character by character, so cleaning distributes over concatenation |
| Currency.ParseCLPIgnoresSeparator | src/utils/currency.ts:33-35 | a `$`, `.` or whitespace character anywhere does not change the amount read |
| Currency.ParseCLPDigits | src/utils/currency.ts:38-39 | a string of digits reads as the number it denotes |
| Currency.ParseCLPThousands | src/utils/currency.ts:35 | a dot between digit groups is a thousands separator: `a.b` reads as the digits `ab` |
| Currency.ParseCLPSymbolAndGroups | src/utils/currency.ts:33-39 | `"$a.b.c"` reads as the digits `abc`, so `"$1.234.567"` is 1234567 |
| Currency.ParseCLPDecimalComma | src/utils/currency.ts:36-39 | the comma is the decimal point: `w,f` reads as `w.f`, rounded half up and clamped |
| Currency.ParseCLPDecimalCommaExample | src/utils/currency.ts:36-39 | `"1,5"` reads as 2 |
| Currency.ParseCLPNoDigits | src/utils/currency.ts:38-39 | text without a digit (unparseable) reads as 0 |
| Currency.FormatForInput | src/utils/currency.ts:71-74 | `formatForInput` is empty exactly for 0 |
| Currency.ParseFormatRoundTrip | src/utils/currency.ts:71-74 | `parseCLP(formatForInput(v)) == v` for every non-negative integer `v` |
| Currency.IsValidMoneyString | src/utils/currency.ts:59-64 | `isValidMoneyString` holds for every text |
| Currency.SanitizeMoneyInput | src/utils/currency.ts:47-52 | the output holds only digits, `.`, `,`, whitespace and `$`, and is never longer than the input |
| Currency.SanitizeKeepsMoneyText | src/utils/currency.ts:51 | text made only of kept characters is left as it is |
| Currency.SanitizeIdempotent | src/utils/currency.ts:47-52 | sanitizing twice is sanitizing once |
| Currency.ParseExcelValue | src/utils/currency.ts:82-92 | a blank cell is 0; a cell `parseFloat` reads is clamped and rounded directly; only the rest goes through `parseCLP` |
| Currency.ParseExcelValues | src/utils/currency.ts:81-93 | one amount per cell, same length and same order |
| Currency.ExcelBlankIsZero | src/utils/currency.ts:84 | a whitespace-only cell is 0 |
| Currency.ExcelDecimalDot | src/utils/currency.ts:87-88 | a pasted `w.f` is read by `parseFloat` directly, so its dot is a decimal point |
| Currency.ExcelDirectPathWins | src/utils/currency.ts:86-91 | the same text `w.f` is a decimal when pasted and a thousands-separated integer when typed |
| Currency.ExcelDirectPathExample | src/utils/currency.ts:86-91 | a pasted `"1.234"` is 1 |
| Store.EventType | src/store/useFinanceStore.ts:356 | exactly the cell updates carry the type `income/updated` |
| Store.Deliveries | src/store/useFinanceStore.ts:427-429 | `forEach` calls every listener once, in registration order, each with the event |
| Store.Throwing | src/store/useFinanceStore.ts:430-432 | a listener is reported on the console exactly when its call throws; the others are not |
| Store.ThrowingAppend | src/store/useFinanceStore.ts:427-433 | a throwing listener does not stop the loop: the failures of two lists of listeners are those of each in turn |
| Store.DeliveriesAllAppend | src/store/useFinanceStore.ts:387-393 | emitting one more event adds exactly that event's calls after the earlier ones |
| Store.RemoveFirst | src/store/useFinanceStore.ts:412-418 | the unsubscribe splices out the first registration of the callback, keeping the others in order, and does nothing when it is not registered |
| Store.UnsubscribeUndoesSubscribe | src/store/useFinanceStore.ts:402-419 | for a callback not yet registered, calling the function `subscribe` returned restores the listener list as it was before subscribing |
| Store.RenameAll | src/store/useFinanceStore.ts:261-265 | every category with that id gets the new name and time, every other stays, and the list keeps its length and order |
| Store.RenameAllIsRenameAt | src/store/useFinanceStore.ts:259-265 | with unique ids, the rename in memory and the adapter's rename of the first match agree; an unknown id changes nothing |
| Store.RenameAllKeepsSorted | src/store/useFinanceStore.ts:261-265 | renaming keeps the list sorted by `order` |
| Store.RenameKeepsSync | src/store/useFinanceStore.ts:253-276 | with unique ids and a trimmed name, memory renamed by id is still the stored list, renamed at its first match, listed in `order` |
| Store.PutCell | src/store/useFinanceStore.ts:342-353 | memory gets the one cell with the value exactly as passed (not rounded), and every other cell and row stays |
| Store.PutRow | src/store/useFinanceStore.ts:374-385 | every supplied month takes the supplied value, every other month and every other row stays |
| Store.UpdateEvents | src/store/useFinanceStore.ts:387-393 | one `income/updated` event per supplied month, carrying that month's value, in entry order |
| Store.DistinctAppend | src/store/useFinanceStore.ts:387 | `Object.entries` lists each key once: adding an unlisted key keeps the list free of repeats |
| Store.UpdateEventsAppend | src/store/useFinanceStore.ts:387-393 | one more loop turn adds exactly one event, for that month |
| Store.AppendNewKeepsSync | src/store/useFinanceStore.ts:235-238 | a new category ordered after all others lands at the end of the re-sorted memory list, just where the adapter appends it |
| Store.FinanceStore.constructor | src/store/useFinanceStore.ts:190-197 | the store opens with no categories, no grids, no error, no listeners and the current year selected |
| Store.FinanceStore.Subscribe | src/store/useFinanceStore.ts:402-409 | the callback is appended to the listeners of its type (the list is created when missing); every other field, the selected year and loading flag included, is unchanged |
| Store.FinanceStore.Unsubscribe | src/store/useFinanceStore.ts:411-419 | only the listeners of that type change, losing one registration of the callback; every other field is unchanged |
| Store.FinanceStore.Emit | src/store/useFinanceStore.ts:422-435 | the event is delivered to every listener of its type in order; the throwing ones are logged and the rest of the store is unchanged |
| Store.FinanceStore.LoadCategories | src/store/useFinanceStore.ts:209-225 | memory holds the adapter's list sorted by `order`, so memory and storage agree; no error, not loading |
| Store.FinanceStore.LoadMatrix | src/store/useFinanceStore.ts:310-332 | memory holds the stored grid of that year; other years stay |
| Store.FinanceStore.SetYear | src/store/useFinanceStore.ts:199-202 | the year is selected and its grid loaded; the error is cleared and loading ends; the categories, listeners and the event, delivery and console logs are unchanged |
| Store.FinanceStore.CreateCategory | src/store/useFinanceStore.ts:227-251 | the adapter stores the new category at the end and keeps its grids; memory gains it in `order` position; memory and storage stay in step; one `category/added` event, delivered to every listener of that type, the throwing ones logged; no error; the grids in memory, listeners, year and loading flag are unchanged |
| Store.FinanceStore.AddToMemory | src/store/useFinanceStore.ts:235-243 | the list re-sorted with the new category in it, then the event, delivered and its throwing listeners logged; every other field is unchanged |
| Store.FinanceStore.RenameCategory | src/store/useFinanceStore.ts:253-276 | fails exactly for an unknown id, with the prefixed error and no list, event or log changed; otherwise the adapter renames its first match to the trimmed name, memory renames every match, one event is delivered with its throwing listeners logged, and memory and storage stay in step for a trimmed name; grids, listeners, year and loading flag never change |
| Store.FinanceStore.RenameInMemory | src/store/useFinanceStore.ts:261-270 | every in-memory match renamed, then one `category/renamed` event, delivered and its throwing listeners logged; every other field is unchanged |
| Store.FinanceStore.DeleteCategory | src/store/useFinanceStore.ts:278-307 | fails exactly for an unknown id, with the prefixed error and nothing else changed; otherwise the adapter's list loses the category, storage drops its row in the current year only, the category leaves memory and every cached grid, and one event is delivered with its throwing listeners logged; listeners, year and loading flag never change |
| Store.FinanceStore.DeleteFromMemory | src/store/useFinanceStore.ts:286-301 | the category leaves the in-memory list and every year's grid, then one `category/deleted` event, delivered and its throwing listeners logged; every other field is unchanged |
| Store.FinanceStore.SetCell | src/store/useFinanceStore.ts:334-364 | storage keeps the clamped and rounded value while memory keeps the value as passed; one `income/updated` event carrying the value as passed, delivered with its throwing listeners logged; the error cleared; category lists, listeners, year and loading flag unchanged |
| Store.FinanceStore.BulkSetRow | src/store/useFinanceStore.ts:366-399 | storage and memory take the row; one event per supplied month, each month once, every listener called for each and each throw logged; the error cleared; category lists, listeners, year and loading flag unchanged |
| Store.FinanceStore.EmitUpdates | src/store/useFinanceStore.ts:387-393 | the events are for the supplied months, each once, in the order the entries were visited, delivered and their throwing listeners logged; nothing else changes |
| Store.FinanceStore.EmitAll | src/store/useFinanceStore.ts:387-393 | emitting the events one by one logs them in order, calls every `income/updated` listener for each and logs each throw; nothing else changes |
| Store.FinanceStore.Initialize | src/store/useFinanceStore.ts:438-452 | an empty store is seeded with the default categories and the demo amounts of the current year, a filled one is left alone; memory then agrees with storage for categories and the selected year; no error, not loading; year, listeners and logs unchanged |
| Store.DeliverAll | src/store/useFinanceStore.ts:427-433 | the loop calls each listener in order and collects exactly the throwing ones |
| Store.IndexOf | src/store/useFinanceStore.ts:413 | `indexOf`: the first position holding the callback, or -1 exactly when the callback is not in the list |
| Store.EntryKeys | src/store/useFinanceStore.ts:106 | `Object.entries` visits every key of the object exactly once and nothing else |
| Income.OrderBeforeIsStrict | src/store/useFinanceStore.ts:23 | the comparator `a.order - b.order < 0` is a strict order |
| Income.SortByOrderSorts | src/store/useFinanceStore.ts:18-23 | `listCategories` returns the same categories, ascending by `order` |
| Income.MaxOrder | src/store/useFinanceStore.ts:31 | the greatest `order` of the list, attained by one of its categories, and -1 for an empty list |
| Income.NewCategory | src/store/useFinanceStore.ts:30-39 | the new category has the trimmed name, the caller's time, and an `order` one past the greatest (0 for the first), so above every other |
| Income.AppendLastKeepsSorted | src/store/useFinanceStore.ts:41 | appending the new category to a sorted list keeps it sorted, so the next `listCategories` returns it unchanged |
| Income.IndexOfId | src/store/useFinanceStore.ts:49 | `findIndex`: the first position holding the id, and -1 exactly when no category has it |
| Income.HasIdPermutation | src/store/useFinanceStore.ts:47-49 | whether an id is known does not depend on the order the list is read in |
| Income.WithoutId | src/store/useFinanceStore.ts:64 | `filter` keeps exactly the categories with another id, and keeps the length exactly when no category had the id |
| Income.WithoutIdKeepsSorted | src/store/useFinanceStore.ts:64-70 | filtering a sorted list keeps it sorted |
| Income.PrependKeepsSorted | src/store/useFinanceStore.ts:64 | a category ordered no later than a sorted rest keeps the whole sorted |
| Income.RenameAt | src/store/useFinanceStore.ts:53-57 | only the category at that position changes, getting the new name and time; its id, order and creation time stay |
| Income.RenameAtKeepsSorted | src/store/useFinanceStore.ts:53-59 | renaming keeps the list sorted by `order` |
| Income.SetCellIn | src/store/useFinanceStore.ts:88-96 | the row is created when missing and the cell holds the value written |
| Income.SetCellOnlyTarget | src/store/useFinanceStore.ts:88-96 | writing one cell changes that cell and no other |
| Income.MergeMonths | src/store/useFinanceStore.ts:106-111 | each supplied month in 1..12 holds its clamped and rounded value; every other key, supplied or not, is as it was |
| Income.WriteMonths | adapters/income/localAdapter.ts:258-264 | the loop over the entries leaves the merged row, whatever order it visits them in |
| Income.MergeMonthsStep | src/store/useFinanceStore.ts:106-111 | visiting one more entry writes its month, when it is one, on top of the row merged so far |
| Income.MergeMonthsKeepsShape | adapters/income/localAdapter.ts:258-264 | a row keyed by months keeps that shape, and a row of non-negative amounts stays non-negative |
| Income.OrderOfNewIsPermutationInvariant | adapters/income/localAdapter.ts:106 | the next `order` depends only on which categories are stored, not on their order |
| Income.WithoutRow | src/store/useFinanceStore.ts:288-295 | every cached year loses the row of that id and keeps every other row |
| Income.SortByOrder | src/store/useFinanceStore.ts:23 | sorting keeps the number of categories |
| SimpleAdapter.SimpleLocalAdapter.constructor | src/store/useFinanceStore.ts:10-11 | the adapter starts over empty storage |
| SimpleAdapter.SimpleLocalAdapter.ListCategories | src/store/useFinanceStore.ts:13-26 | the stored categories, all of them and only them, ascending by `order` |
| SimpleAdapter.SimpleLocalAdapter.CreateCategory | src/store/useFinanceStore.ts:28-44 | storage becomes the sorted list plus the new category, ordered after all others, so it stays sorted; grids untouched |
| SimpleAdapter.SimpleLocalAdapter.RenameCategory | src/store/useFinanceStore.ts:46-60 | fails with "Categoría no encontrada" exactly for an unknown id, writing nothing; otherwise the first match gets the trimmed name and the list stays sorted |
| SimpleAdapter.SimpleLocalAdapter.DeleteCategory | src/store/useFinanceStore.ts:62-76 | fails exactly for an unknown id; otherwise the category is gone, the list stays sorted, and its row leaves the current calendar year's grid only |
| SimpleAdapter.SimpleLocalAdapter.GetMatrix | src/store/useFinanceStore.ts:78-86 | the stored grid of that year, `{}` when none |
| SimpleAdapter.SimpleLocalAdapter.SetCell | src/store/useFinanceStore.ts:88-97 | the one cell becomes `max(0, round(value))` for any month number; stored amounts stay non-negative |
| SimpleAdapter.SimpleLocalAdapter.BulkSetRow | src/store/useFinanceStore.ts:99-114 | the row becomes the merged row (months 1..12 written, other keys skipped); stored amounts stay non-negative |
| SimpleAdapter.SimpleLocalAdapter.Initialize | src/store/useFinanceStore.ts:121-146 | an empty store gets the five demo categories in order and three demo amounts each in the current year; a filled one is left alone |
| SimpleAdapter.SimpleLocalAdapter.CreateSeedCategories | src/store/useFinanceStore.ts:128-130 | creating the five names in turn leaves them stored with orders 0 to 4 |
| SimpleAdapter.SimpleLocalAdapter.WriteSeedRows | src/store/useFinanceStore.ts:135-143 | every listed category gets its demo amounts in the current year's grid |
| SimpleAdapter.SimpleLocalAdapter.WriteSeedRow | src/store/useFinanceStore.ts:136-142 | one category's three amounts written, months `currentMonth` back to `currentMonth - 2` but never below 1 |
| Seed.SeedCategories | src/store/useFinanceStore.ts:124-130 | the demo list: the five names in order, with `order` 0 to 4 |
| Seed.SeedCategoriesSorted | src/store/useFinanceStore.ts:133 | the demo list is already sorted, so listing returns it unchanged |
| Seed.SeedGridRows | src/store/useFinanceStore.ts:135-143 | the seeded grid holds the old rows and the demo ids; each demo row holds its three writes; every other row is untouched |
| Seed.SeedGridKeys | src/store/useFinanceStore.ts:135 | the seeded grid's ids are the old ones plus the demo ids |
| Seed.SeedGridOtherRow | src/store/useFinanceStore.ts:135-143 | a row that is not a demo category's is untouched |
| Seed.SeedGridSeededRow | src/store/useFinanceStore.ts:136-142 | each demo category's row is its old row with its three amounts written |
| Seed.SeedRowShape | src/store/useFinanceStore.ts:137-141 | the amounts land in the current month and at most two months before it, never below January, and each is one of the random draws |
| Seed.SeedNext | src/store/useFinanceStore.ts:128-130 | creating demo name `i` after the first `i` appends demo category `i` |
| Seed.SeedNameTrimmed | src/store/useFinanceStore.ts:125 | the demo names have no surrounding whitespace, so `trim` keeps them |
| Seed.SeedOrderNext | src/store/useFinanceStore.ts:31 | after `i` demo categories the greatest order is `i - 1` |
| Seed.SeedRow | src/store/useFinanceStore.ts:137-141 | all three demo months are written, and the oldest offset's amount is the one the month two back holds |
| Seed.SeedGrid | src/store/useFinanceStore.ts:136-142 | after the writes of `k` categories the `k`-th demo category has a row |
| Local.FirstUnknown | adapters/income/localAdapter.ts:186-190 | none exactly when every listed id is known; otherwise the first listed id no category has |
| Local.Reordered | adapters/income/localAdapter.ts:193-200 | one category per listed id, in the listed order, with `order` its position and the new time |
| Local.ReorderedSorted | adapters/income/localAdapter.ts:193-202 | the reordered list is sorted by `order` (so the next listing returns it unchanged) and holds only listed ids |
| Local.WithoutMatrixKeys | adapters/income/localAdapter.ts:279-285 | no grid key is left |
| Local.WithoutMatrixKeysMembers | adapters/income/localAdapter.ts:279-285 | exactly the keys that are not grid keys survive |
| Local.SpliceOut | adapters/income/localAdapter.ts:283 | `removeItem` at index `i` keeps the keys before it and shifts the rest down by one |
| Local.RemoveMatrixKeysAsWritten | adapters/income/localAdapter.ts:280-285 | the loop as written, index advancing after every removal, leaves what the as-written sweep leaves |
| Local.SweepRemoveStep | adapters/income/localAdapter.ts:282-284 | removing a grid key keeps the as-written loop on track |
| Local.SweepKeepStep | adapters/income/localAdapter.ts:280-282 | passing a kept key keeps the as-written loop on track |
| Local.SweepAsWrittenStep | adapters/income/localAdapter.ts:280-285 | one step as written: a grid key goes and the key that slides into its place is passed over unexamined |
| Local.SweepAsWrittenSkipsKey | adapters/income/localAdapter.ts:280-285 | with the grids of 2024 and 2025 stored next to each other, the 2025 grid survives the loop as written, though it should go |
| Local.WithoutMatrixKeysStep | adapters/income/localAdapter.ts:280-285 | one step of the intended filter: a grid key goes, any other stays in front |
| Local.RemoveMatrixKeys | adapters/income/localAdapter.ts:280-285 | the loop with the index held after a removal removes every grid key and keeps the others in order |
| Local.WithoutCategoriesKey | adapters/income/localAdapter.ts:277 | the categories key is gone and every other key stays |
| Local.PurgedExcept | adapters/income/localAdapter.ts:165-170 | once every cached year is visited, each has lost the row |
| Local.LocalAdapter.constructor | adapters/income/localAdapter.ts:13-16 | no cache, not initialised, over whatever storage holds |
| Local.LocalAdapter.ListCategories | adapters/income/localAdapter.ts:74-98 | the stored categories sorted by `order`, the same whether served from the cache or read; the cache is then filled |
| Local.LocalAdapter.SaveCategories | adapters/income/localAdapter.ts:298-305 | storage and cache both take the list |
| Local.LocalAdapter.CreateCategory | adapters/income/localAdapter.ts:103-123 | storage becomes the sorted list plus the new category ordered after all others, and stays sorted; the list cache holds it; grids and grid cache untouched |
| Local.LocalAdapter.RenameCategory | adapters/income/localAdapter.ts:128-148 | `CATEGORY_NOT_FOUND` exactly for an unknown id, with nothing saved; otherwise only that category changes, to the trimmed name |
| Local.LocalAdapter.DeleteCategory | adapters/income/localAdapter.ts:153-175 | `CATEGORY_NOT_FOUND` exactly for an unknown id; otherwise the category goes and its row leaves every cached year, while years never loaded keep it |
| Local.LocalAdapter.PurgeCachedYears | adapters/income/localAdapter.ts:165-170 | every cached year loses the row, in cache and storage; storage of uncached years is untouched |
| Local.LocalAdapter.PurgeYear | adapters/income/localAdapter.ts:166-169 | one cached year loses the row, and no other year changes |
| Local.LocalAdapter.ReorderCategories | adapters/income/localAdapter.ts:180-207 | fails exactly when some listed id is unknown, naming the first one, before any write; otherwise storage holds exactly the listed categories numbered from 0, dropping any not listed |
| Local.LocalAdapter.GetMatrix | adapters/income/localAdapter.ts:212-227 | the stored grid of the year (`{}` when none), the same whether served from the cache or read; then cached |
| Local.LocalAdapter.SaveMatrix | adapters/income/localAdapter.ts:310-318 | storage and cache both take the grid |
| Local.LocalAdapter.SetCell | adapters/income/localAdapter.ts:232-246 | the one cell becomes `max(0, round(value))` for any month number; the year's grid is cached from then on, the other caches untouched |
| Local.LocalAdapter.BulkSetRow | adapters/income/localAdapter.ts:251-270 | the row becomes the merged row (months 1..12, clamped and rounded); other rows and years untouched; the year's grid is cached from then on, the other caches untouched |
| Local.LocalAdapter.Initialize | adapters/income/localAdapter.ts:21-36 | runs once: an empty store is seeded, with the list cached and the current year's grid cached, a filled one untouched but its list cached; the adapter is then initialised |
| Local.LocalAdapter.SeedInitialData | adapters/income/localAdapter.ts:41-69 | the five demo categories with orders 0 to 4, and three demo amounts each in the current year; the list and the current year's grid end up cached |
| Local.LocalAdapter.CreateSeedCategories | adapters/income/localAdapter.ts:53-55 | creating the five names in turn stores the demo list and caches it; grids and grid cache untouched |
| Local.LocalAdapter.CreateSeedCategory | adapters/income/localAdapter.ts:53-55 | creating the next demo name extends the stored list by that category and caches it; grids and grid cache untouched |
| Local.LocalAdapter.WriteSeedGrid | adapters/income/localAdapter.ts:58-68 | every created category gets its demo amounts, in list order; the current year's grid is cached, the list cache untouched |
| Local.LocalAdapter.WriteSeedGridRow | adapters/income/localAdapter.ts:58-68 | one more created category gets its three demo amounts; the current year's grid is cached, the list cache untouched |
| Local.LocalAdapter.WriteSeedRow | adapters/income/localAdapter.ts:62-67 | three amounts written, months `currentMonth` down to `currentMonth - 2`, never below 1; the year's grid is cached, the list cache untouched |
| Local.LocalAdapter.WriteSeedCell | adapters/income/localAdapter.ts:62-67 | one demo write goes through `setCell`: the row gains one more seeded month, the year's grid is cached, the list cache untouched |
| Local.LocalAdapter.Reset | adapters/income/localAdapter.ts:275-293 | (corrected loop) the categories key and every grid key leave storage, other applications' keys stay, both caches are emptied and the adapter is no longer initialised |
| Local.FindUnknown | adapters/income/localAdapter.ts:185-190 | the validation loop finds the first listed id no category has |
| Local.FirstUnknownPermutation | adapters/income/localAdapter.ts:182-190 | lists holding the same ids reject the same first id |
| Local.FirstUnknownIs | adapters/income/localAdapter.ts:186-189 | an unknown id preceded only by known ones is the one reported |
| Local.SweepAsWritten | adapters/income/localAdapter.ts:280-285 | the loop as written never yields more keys than it started with |
| Local.SweepAsWrittenOnlyRemoves | adapters/income/localAdapter.ts:280-285 | the loop as written only removes keys, and leaves a list without grid keys as it is |
| Local.SweepAsWrittenSubset | adapters/income/localAdapter.ts:280-285 | every key the loop as written leaves was in local storage's key list |
| Local.SweepAsWrittenKeepsPlain | adapters/income/localAdapter.ts:280-285 | on a key list without grid keys the loop as written removes nothing |
| Totals.AsGrid | src/store/useFinanceStore.ts:317-323 | a loaded grid keeps every row and every stored amount |
| Totals.MonthlyTotals | src/store/useFinanceStore.ts:461-472 | an entry for exactly the months 1 to 12, each the sum of that month over every row, a missing cell counting 0 |
| Totals.CategoryTotals | src/store/useFinanceStore.ts:474-483 | one total per row of the grid, no more and no fewer |
| Totals.GrandTotalRemove | src/store/useFinanceStore.ts:485-491 | the grand total does not depend on the order rows are enumerated: any row can be added first |
| Totals.GrandTotalIsSumOfCategories | src/store/useFinanceStore.ts:474-491 | the grand total is the sum of the category totals |
| Totals.MonthTotalRemove | src/store/useFinanceStore.ts:466-468 | a monthly total does not depend on the order rows are enumerated |
| Totals.MonthsSumRemove | src/store/useFinanceStore.ts:461-472 | the sum of the monthly totals splits row by row |
| Totals.RowMonthsSumRemove | src/store/useFinanceStore.ts:466-468 | a row's months add up in any order |
| Totals.RowSumIsMonthsSum | src/store/useFinanceStore.ts:479 | a row keyed by months only totals the same as its months added up |
| Totals.GrandTotalIsSumOfMonths | src/store/useFinanceStore.ts:461-491 | when rows hold only months 1 to 12, the grand total is the sum of the twelve monthly totals |
| Totals.GrandTotalIsMonthsSum | src/store/useFinanceStore.ts:461-491 | the same for rows keyed by months 1 to `n` |
| Totals.CategoryTotalOfRow | hooks/useIncomeTotals.ts:89-91 | `getCategoryTotal` reports the sum of the row, and 0 for a category without a row |
| Totals.TestGridMonthTotals | components/finance/__tests__/incomeMatrix.test.tsx:35-41 | the test grid's monthly totals are 650000 and 700000, and 0 for a month without data |
| Totals.TestGridColumn | components/finance/__tests__/incomeMatrix.test.tsx:35-41 | a month of the test grid totals its two cells |
| Totals.TestGridCategoryTotals | components/finance/__tests__/incomeMatrix.test.tsx:35-42 | the test grid's category totals are 1020000 and 330000 |
| Totals.TestGridGrandTotal | components/finance/__tests__/incomeMatrix.test.tsx:35-43 | the test grid's grand total is 1350000 |
| Totals.TestGridRowTotals | components/finance/__tests__/incomeMatrix.test.tsx:35-42 | the test grid's two rows add up to 1020000 and 330000 |
| IncomeStats.MonthsWithData | hooks/useIncomeTotals.ts:37 | the number of months with a positive total: 0 exactly when there is none |
| IncomeStats.AverageMonthly | hooks/useIncomeTotals.ts:37-38 | 0 without data; otherwise the average times the months with data gives the grand total back |
| IncomeStats.HighestIsUnique | hooks/useIncomeTotals.ts:45-55 | the highest month is determined: the greatest positive total, the earliest among ties |
| IncomeStats.LowestIsUnique | hooks/useIncomeTotals.ts:46-55 | the lowest month is determined: the smallest positive total, the earliest among ties |
| IncomeStats.Extremes | hooks/useIncomeTotals.ts:41-60 | the highest month has the greatest positive total (earliest among ties, January with 0 without data); the lowest has the smallest positive total, or is January with 0 without data; highest is never below lowest |
| IncomeStats.HasDataStep | hooks/useIncomeTotals.ts:43 | one month more has data exactly when it or an earlier one is positive |
| IncomeStats.VisitHighest | hooks/useIncomeTotals.ts:49-51 | one step of the `forEach` keeps `highestMonth` the highest so far |
| IncomeStats.VisitLowest | hooks/useIncomeTotals.ts:52-54 | one step of the `forEach` keeps `lowestMonth` the lowest so far |
| IncomeStats.NameOf | hooks/useIncomeTotals.ts:65-68 | the name of the first category with that id, or "Categoría desconocida" for an unknown id or an empty name |
| IncomeStats.CategoryPercentage | hooks/useIncomeTotals.ts:93-97 | 0 when the grand total is 0; otherwise the percentage times the grand total is 100 times the category's total |
| IncomeStats.TotalOrZero | hooks/useIncomeTotals.ts:85-91 | the month's or the category's total, 0 when it has none |
| IncomeStats.WithPositiveTotal | hooks/useIncomeTotals.ts:73 | keeps exactly the entries with a positive total |
| IncomeStats.TopCategoriesRanked | hooks/useIncomeTotals.ts:63-74 | every ranked entry has a positive total, its own category's name and share; totals never increase down the list; every category with a positive total is ranked |
| IncomeStats.TopEntriesRanked | hooks/useIncomeTotals.ts:63-74 | each ranked entry has a positive total and its own category's name and share |
| IncomeStats.TopTotalsDescend | hooks/useIncomeTotals.ts:63-74 | the ranked totals never increase down the list |
| IncomeStats.TopPositivesRanked | hooks/useIncomeTotals.ts:63-74 | every enumerated category with a positive total is ranked |
| IncomeStats.TopCategoriesOnce | hooks/useIncomeTotals.ts:63-74 | with the totals' keys listed once, no category is ranked twice |
| IncomeStats.RankedShareAgrees | hooks/useIncomeTotals.ts:70 | with a positive grand total, the ranking's percentage is the one `getCategoryPercentage` reports |
| IncomeStats.SharesDisagreeBelowZero | hooks/useIncomeTotals.ts:70 | with a negative grand total the ranking reports 0 while `getCategoryPercentage` reports -50 for the same category |
| Totals.MonthTotalNonNegative | src/store/useFinanceStore.ts:466-468 | with no negative amount in the grid no monthly total is negative |
| Totals.GrandTotalNonNegative | src/store/useFinanceStore.ts:485-491 | with no negative amount in the grid the grand total is not negative |
| IncomeStats.TopCategories | hooks/useIncomeTotals.ts:63-74 | never more entries than categories with a total |
| MatrixHook.IncomeMatrixHook.constructor | src/hooks/useIncomeMatrix.ts:33-46 | the hook is bound to one store and one year |
| MatrixHook.IncomeMatrixHook.Load | src/hooks/useIncomeMatrix.ts:49-51 | the hook's year is selected in the store and its stored grid loaded; no error, not loading; the categories, listeners and logs are unchanged |
| MatrixHook.IncomeMatrixHook.CreateCategory | src/hooks/useIncomeMatrix.ts:57-59 | the category is created under the trimmed name, the adapter's grids kept, memory and storage stay in step; one `category/added` event delivered with its throwing listeners logged; no error; grids in memory, listeners, year and loading flag unchanged |
| MatrixHook.IncomeMatrixHook.RenameCategory | src/hooks/useIncomeMatrix.ts:61-63 | fails exactly for an unknown id, with the prefixed error and no list, event or log changed; otherwise the adapter and memory hold the trimmed name, so the two stay in step, and one event is delivered with its throwing listeners logged; grids, listeners, year and loading flag never change |
| MatrixHook.IncomeMatrixHook.DeleteCategory | src/hooks/useIncomeMatrix.ts:65-70 | refused with "No puedes eliminar la única categoría" and nothing changed while at most one category is listed; otherwise the store's delete: an unknown id fails with the prefixed error and nothing else changed, a known one leaves the adapter's list, memory and every cached grid, its stored row leaves the current year, and one event is delivered with its throwing listeners logged |
| MatrixHook.IncomeMatrixHook.SetCell | src/hooks/useIncomeMatrix.ts:73-75 | the store receives `max(0, round(value))`, so the amount in memory equals the stored one; one `income/updated` event with that amount, delivered with its throwing listeners logged; no error; category lists, listeners, year and loading flag unchanged |
| MatrixHook.IncomeMatrixHook.SetCellFromString | src/hooks/useIncomeMatrix.ts:77-80 | the cell takes `parseCLP(text)` in memory and in storage, with one event carrying it; no error; category lists, listeners, year and loading flag unchanged |
| MatrixHook.IncomeMatrixHook.BulkSetRow | src/hooks/useIncomeMatrix.ts:82-93 | the store receives months 1..12 only, clamped and rounded; memory and storage then agree on every supplied month; one event per sanitized month, each once, delivered with throws logged; no error; category lists, listeners, year and loading flag unchanged |
| MatrixHook.IncomeMatrixHook.PasteExcelRow | src/hooks/useIncomeMatrix.ts:95-107 | cell `k` of the first twelve lands in month `k + 1` when it parses to a positive amount, in memory and in storage alike, with one event per pasted month; no error; category lists, listeners, year and loading flag unchanged |
| MatrixHook.IncomeMatrixHook.GetCellValue | src/hooks/useIncomeMatrix.ts:110-112 | the amount in memory for the hook's year, 0 when the year, row or month is missing |
| MatrixHook.IncomeMatrixHook.ClearError | src/hooks/useIncomeMatrix.ts:114-116 | the error is cleared and nothing else changes |
| MatrixCommands.CreateCategoryCall | hooks/useIncomeMatrix.ts:61-63 | the store receives the trimmed name, which trimming no further changes |
| MatrixCommands.RenameCategoryCall | hooks/useIncomeMatrix.ts:65-67 | the store receives the same id and the trimmed name |
| MatrixCommands.DeleteCategoryCalls | hooks/useIncomeMatrix.ts:69-74 | refused, with no store call, exactly while at most one category is listed; otherwise one delete call |
| MatrixCommands.SetCellCallOf | hooks/useIncomeMatrix.ts:81-83 | the store receives 0 below one half, otherwise the value rounded half up, for the same year, row and month |
| MatrixCommands.SetCellFromStringCall | hooks/useIncomeMatrix.ts:85-88 | the store receives `parseCLP(text)` unchanged, already whole and non-negative |
| MatrixCommands.Sanitized | hooks/useIncomeMatrix.ts:92-98 | exactly the supplied keys in 1..12 survive, each clamped and rounded |
| MatrixCommands.BulkSetRow | hooks/useIncomeMatrix.ts:90-101 | the loop builds the sanitised row and makes one store call with it |
| MatrixCommands.SanitizedFixesSanitized | hooks/useIncomeMatrix.ts:92-98 | sanitising a row already sanitised changes nothing |
| MatrixCommands.FirstTwelve | hooks/useIncomeMatrix.ts:104 | `slice(0, 12)`: the first twelve values, or all when fewer |
| MatrixCommands.PastedMonths | hooks/useIncomeMatrix.ts:105-112 | month `k` holds value `k - 1` exactly when it is positive; zeros are left out |
| MatrixCommands.CollectPastedMonths | hooks/useIncomeMatrix.ts:107-112 | the `forEach` collects exactly the pasted months |
| MatrixCommands.PastedMonthsSanitized | hooks/useIncomeMatrix.ts:103-115 | the pasted row survives `bulkSetRow`'s sanitising unchanged |
| MatrixCommands.PasteRowCallCells | hooks/useIncomeMatrix.ts:103-115 | month `k` of the pasted row holds cell `k`'s amount exactly when `k` is among the first twelve cells and that amount is positive |
| MatrixCommands.PasteExcelRow | hooks/useIncomeMatrix.ts:103-115 | parse, collect and hand on: the one call is the pasted row |
| MatrixCommands.SliceFrom | hooks/useIncomeMatrix.ts:118 | `slice(start)`, a negative start counting from the end |
| MatrixCommands.PastedRows | hooks/useIncomeMatrix.ts:120-127 | the rows handed on are non-empty, among the first `n`, in increasing order |
| MatrixCommands.PastedRowsComplete | hooks/useIncomeMatrix.ts:124 | every non-empty row among the first `n` is handed on |
| MatrixCommands.PastedRowsAll | hooks/useIncomeMatrix.ts:120-127 | with no empty row, every row is handed on once, in order |
| MatrixCommands.PasteExcelMatrix | hooks/useIncomeMatrix.ts:117-128 | row `r` goes to the category at `startCategoryIndex + r`, for as many rows as there are both rows and categories left, empty rows skipped |
| MatrixCommands.PasteRows | hooks/useIncomeMatrix.ts:120-127 | the loop makes one paste call per non-empty row, in order |
| MatrixCommands.PastesRowsStep | hooks/useIncomeMatrix.ts:120-127 | one more row adds its paste call when it is non-empty and nothing when it is empty |
| MatrixCommands.PasteRowCall | hooks/useIncomeMatrix.ts:103-115 | pasting a row sends a bulk row write for that year and that category |
| MatrixEditor.NonBlankLines | src/components/IncomeMatrix.tsx:211 | the non-blank lines, each from the input, in order, none lost |
| MatrixEditor.PasteWidth | src/components/IncomeMatrix.tsx:219-224 | a paste at `month` keeps `min(cells, 13 - month)` cells, so none lands past December |
| MatrixEditor.CollectMonthlyValues | src/components/IncomeMatrix.tsx:218-224 | the loop keeps exactly that prefix of the cells |
| MatrixEditor.PasteRequests | src/components/IncomeMatrix.tsx:206-238 | a paste makes at most one hook call |
| MatrixEditor.PasteSingleValue | src/components/IncomeMatrix.tsx:226-228 | one line holding one value writes only the clicked cell, from its text |
| MatrixEditor.SplitWithoutSeparator | src/components/IncomeMatrix.tsx:215 | splitting text without a tab gives the text back whole |
| MatrixEditor.PasteBlankCallsNothing | src/components/IncomeMatrix.tsx:211-236 | blank clipboard text makes no hook call |
| MatrixEditor.AllBlankLines | src/components/IncomeMatrix.tsx:211 | only blank lines leave nothing to paste |
| MatrixEditor.PasteRowShape | src/components/IncomeMatrix.tsx:213-234 | one line of several cells sends `min(cells, 13 - month)` of them and several lines send the first line whole, both through `pasteExcelRow`, which places them from January whatever the clicked month |
| MatrixEditor.IncomeMatrixEditor.constructor | src/components/IncomeMatrix.tsx:45-50 | nothing under edit and nothing sent |
| MatrixEditor.IncomeMatrixEditor.StartCellEdit | src/components/IncomeMatrix.tsx:79-83 | the cell is under edit, showing its amount, and the empty text exactly for 0; nothing sent and the category edit and creation state unchanged |
| MatrixEditor.IncomeMatrixEditor.CancelCellEdit | src/components/IncomeMatrix.tsx:85-88 | edit mode left, nothing written; the category edit and creation state unchanged |
| MatrixEditor.IncomeMatrixEditor.SaveCellEdit | src/components/IncomeMatrix.tsx:90-100 | nothing without a cell under edit; otherwise the text goes to `setCellFromString`, and the edit ends only when the write settles; the category edit and creation state unchanged |
| MatrixEditor.IncomeMatrixEditor.StartCategoryEdit | src/components/IncomeMatrix.tsx:103-106 | the category is under edit with its current name; nothing sent, the cell edit and creation state unchanged |
| MatrixEditor.IncomeMatrixEditor.CancelCategoryEdit | src/components/IncomeMatrix.tsx:108-111 | edit mode left, nothing sent; the cell edit and creation state unchanged |
| MatrixEditor.IncomeMatrixEditor.SaveCategoryEdit | src/components/IncomeMatrix.tsx:113-123 | nothing without a category under edit or with a blank name; otherwise a rename to the trimmed name, ending the edit once it settles; the cell edit and creation state unchanged |
| MatrixEditor.IncomeMatrixEditor.StartCategoryCreation | src/components/IncomeMatrix.tsx:126-129 | creation mode with an empty name; nothing sent, the cell and category edits unchanged |
| MatrixEditor.IncomeMatrixEditor.CancelCategoryCreation | src/components/IncomeMatrix.tsx:131-134 | creation mode left, nothing sent; the cell and category edits unchanged |
| MatrixEditor.IncomeMatrixEditor.SaveCategoryCreation | src/components/IncomeMatrix.tsx:136-146 | a blank name changes nothing; otherwise a create with the trimmed name, leaving creation mode once it settles; the cell and category edits unchanged |
| MatrixEditor.IncomeMatrixEditor.HandleDeleteCategory | src/components/IncomeMatrix.tsx:149-159 | a delete is sent exactly when the user confirms; no edit state changes |
| MatrixEditor.IncomeMatrixEditor.HandleCellKeyDown | src/components/IncomeMatrix.tsx:162-177 | Enter and Tab have exactly the outcome of `saveCellEdit`, Escape cancels, any other key changes nothing; the category edit and creation state unchanged |
| MatrixEditor.IncomeMatrixEditor.HandleCategoryKeyDown | src/components/IncomeMatrix.tsx:179-190 | Enter has exactly the outcome of `saveCategoryEdit`, Escape cancels, other keys (Tab included) change nothing; the cell edit and creation state unchanged |
| MatrixEditor.IncomeMatrixEditor.HandleNewCategoryKeyDown | src/components/IncomeMatrix.tsx:192-203 | Enter has exactly the outcome of `saveCategoryCreation`, Escape cancels, other keys change nothing; the cell and category edits unchanged |
| MatrixEditor.IncomeMatrixEditor.HandlePaste | src/components/IncomeMatrix.tsx:206-238 | exactly the hook call the clipboard text asks for is sent, and no edit state changes |
| MatrixEditor.PasteCall | src/components/IncomeMatrix.tsx:211-234 | the branches of the paste choose exactly the call `PasteRequests` describes |
| MatrixBasic.CellValue | src/components/IncomeMatrixBasic.tsx:81-83 | the stored amount, 0 for an absent row or month |
| MatrixBasic.UnlistedRowIgnored | src/components/IncomeMatrixBasic.tsx:90-100 | month totals and the grand total count listed categories only: a row of an unlisted id changes neither |
| MatrixBasic.ListedMonthsSumLast | src/components/IncomeMatrixBasic.tsx:90-94 | the month totals split category by category |
| MatrixBasic.GrandTotalIsSumOfMonthTotals | src/components/IncomeMatrixBasic.tsx:85-100 | when listed rows hold only keys 1..12, the grand total is the sum of the twelve month totals |
| MatrixBasic.ParseFloatIntToString | src/components/IncomeMatrixBasic.tsx:104-109 | the text of a whole amount reads back through `parseFloat` as that amount |
| MatrixBasic.IncomeMatrixBasic.constructor | src/components/IncomeMatrixBasic.tsx:22-28 | the grid with its categories and data, no cell under edit |
| MatrixBasic.IncomeMatrixBasic.HandleCellClick | src/components/IncomeMatrixBasic.tsx:102-105 | the cell is under edit and the box shows its amount's text, `"0"` for an empty cell; data unchanged |
| MatrixBasic.IncomeMatrixBasic.HandleCellSave | src/components/IncomeMatrixBasic.tsx:107-120 | with a cell under edit, that cell alone takes `parseFloat(text)`, or 0 when unparseable, neither clamped nor rounded, and the edit ends; otherwise nothing |
| MatrixBasic.IncomeMatrixBasic.HandleCellCancel | src/components/IncomeMatrixBasic.tsx:122-125 | the edit ends and the data stay as they were |
| MatrixBasic.IncomeMatrixBasic.HandleKeyPress | src/components/IncomeMatrixBasic.tsx:127-133 | Enter saves, Escape cancels without touching the data, any other key does nothing |
| MatrixBasic.ClickThenSaveKeepsWholeAmount | src/components/IncomeMatrixBasic.tsx:102-120 | clicking a cell with a whole amount and saving the untouched text leaves the cell as it was |
| ApiRoutes.PostCategoryReply | app/api/income/categories/route.ts:57-124 | 400 for a body the schema refuses or a name present ignoring case (compared untrimmed); 201 exactly otherwise, with the trimmed name ordered after all others |
| ApiRoutes.GetMatrixReply | app/api/income/matrix/route.ts:35-85 | 400 "year is required" for a missing or empty parameter; 200 exactly when `parseInt` reads a year the schema accepts, with that year's grid or `{}`; every other answer is a 400 error |
| ApiRoutes.ByMonth | app/api/income/matrix/bulk-row/route.ts:43-44 | every validated key is read by `parseInt` as its month, and exactly the months whose numeral was supplied are present, with the supplied amount |
| ApiRoutes.NumeralEntries | app/api/income/matrix/bulk-row/route.ts:43-44 | the months whose numeral is a key, with that key's amount |
| ApiRoutes.ByMonthReadsKey | app/api/income/matrix/bulk-row/route.ts:44 | `parseInt` of a validated month key is that month, and the row reads its amount |
| ApiRoutes.MockIncomeApi.constructor | app/api/income/categories/route.ts:12-27 | the handlers start over the module's category array and the shared grid |
| ApiRoutes.MockIncomeApi.GetCategories | app/api/income/categories/route.ts:32-39 | the in-place `sort` leaves the module's array itself ordered by `order`, same categories, and returns it with 200 |
| ApiRoutes.MockIncomeApi.PostCategory | app/api/income/categories/route.ts:57-100 | an accepted category is pushed at the end and nothing else changes; a refused one changes nothing |
| ApiRoutes.MockIncomeApi.GetMatrix | app/api/income/matrix/route.ts:50-61 | a year without data is served as an empty grid |
| ApiRoutes.MockIncomeApi.PatchCell | app/api/income/matrix/route.ts:90-123 | a body the schema refuses gets 400 and changes nothing; otherwise the cell takes `max(0, round(value))`, year and row created when missing, and the stored value is echoed |
| ApiRoutes.MockIncomeApi.PostBulkRow | app/api/income/matrix/bulk-row/route.ts:22-60 | a refused body gets 400 and changes nothing; otherwise each supplied month is written clamped and rounded into the row, and the whole row and a count of the supplied keys are returned |
| ApiRoutes.MockIncomeApi.WriteBulkRow | app/api/income/matrix/bulk-row/route.ts:30-60 | the success path: the target row merged with the supplied months, every other row kept |
| ApiRoutes.BulkRowOtherRows | app/api/income/matrix/bulk-row/route.ts:33-48 | a bulk write leaves every other row of every year as it was |
| ApiRoutes.BulkRowTargetRow | app/api/income/matrix/bulk-row/route.ts:43-48 | in the target row a supplied month takes its clamped, rounded amount and any other key keeps its own |
| ApiRoutes.DuplicateIgnoresCase | app/api/income/categories/route.ts:65-77 | `"SUELDO"` is refused with 400 beside `"Sueldo"` |
| ApiRoutes.UpperNameDuplicate | app/api/income/categories/route.ts:62-67 | `"SUELDO"` passes the schema and matches `"Sueldo"` ignoring case |
| ApiRoutes.PaddedDuplicateAccepted | app/api/income/categories/route.ts:65-92 | `" Sueldo"` passes the duplicate check beside `"Sueldo"` and is stored trimmed, so two categories share the name |
| ApiRoutes.PaddedNameNew | app/api/income/categories/route.ts:62-67 | `" Sueldo"` passes the schema and matches no stored name |
| ApiRoutes.TrimPaddedName | app/api/income/categories/route.ts:86 | `" Sueldo"` is stored as `"Sueldo"` |
| ApiRoutes.TrailingTextYearServed | app/api/income/matrix/route.ts:50-61 | `year=2024abc` is served the grid of 2024 |
| ApiRoutes.ParseIntTrailingText | app/api/income/matrix/route.ts:50 | `parseInt("2024abc")` is 2024 |
| ApiRoutes.ParseIntDigitPrefix | app/api/income/matrix/route.ts:50 | digits followed by text not starting with a digit read as those digits |
| Schema.Field | src/lib/finance/schema.ts:30-35 | a field is read exactly when the body is an object holding that key |
| Schema.At | src/lib/finance/schema.ts:30-44 | the issues are exactly the failed checks, each at the given path; none exactly when no check failed |
| Schema.NameIssues | src/lib/finance/schema.ts:16 | no issue exactly when the name is a string of 1 to 100 UTF-16 code units; an empty string is too small |
| Schema.IntRangeIssues | src/lib/finance/schema.ts:26-28 | no issue exactly when the value is a whole number within both bounds |
| Schema.IncomeValueIssues | src/lib/finance/schema.ts:24 | no issue exactly when the value is a number at least 0, fractions allowed |
| Schema.UuidIssues | src/lib/finance/schema.ts:32 | no issue exactly when the value is a string of 8-4-4-4-12 hexadecimal digit groups |
| Schema.ParseCreateCategory | src/lib/finance/schema.ts:15-17 | accepted exactly when the name is a string of 1 to 100 UTF-16 code units, and then the name is returned untouched; a refusal always carries an issue |
| Schema.OrderIssues | src/lib/finance/schema.ts:10 | no issue exactly when the order is a whole number at least 0 |
| Schema.ParseUpdateCategory | src/lib/finance/schema.ts:19-22 | accepted exactly when each field that is present satisfies its rule; the result holds a field exactly when it was sent, with the value sent |
| Schema.NameOnlyUpdateIsCreate | src/lib/finance/schema.ts:15-22 | a body with only a name passes the update schema exactly when it passes the creation schema, and both read the same name |
| Schema.ParseYear | src/lib/finance/schema.ts:28 | accepted exactly when the number is a whole year from 2000 to 2100 (`NaN` refused), and then that year is returned |
| Schema.ParseSetCell | src/lib/finance/schema.ts:30-35 | accepted exactly when year, UUID category id, month and non-negative value are all valid, and then the input carries those four values |
| Schema.MonthKeysAreMonthNumerals | src/lib/finance/schema.ts:41 | the pattern accepts exactly the decimal numerals of 1 to 12, so neither "01" nor "13" |
| Schema.NumeralIsKey | src/lib/finance/schema.ts:41 | the numeral of every month 1 to 12 is an accepted key |
| Schema.ParseKey | src/lib/finance/schema.ts:41 | an accepted key names a month from 1 to 12 |
| Schema.KeyIsNumeral | src/lib/finance/schema.ts:41 | every accepted key is the numeral of the month it names |
| Schema.ParseIntOfMonthKey | src/lib/finance/schema.ts:41 | `parseInt` reads each accepted key as the month it names |
| Schema.RecordIssues | src/lib/finance/schema.ts:40-43 | no issue exactly when the record is an object whose every key is a month key and every value a non-negative number |
| Schema.ParseBulkSetRow | src/lib/finance/schema.ts:37-44 | accepted exactly when year, UUID category id and record are valid; the result has exactly the record's keys, each with the amount sent |
| Schema.ParseReorder | src/lib/finance/schema.ts:46-48 | accepted exactly when `order` is an array of UUID strings (empty and repeated allowed), and then it is returned element for element |
| Schema.BlankNamePasses | src/lib/finance/schema.ts:15-17 | a name of three spaces is accepted as it is, because length is counted without trimming |
| Schema.DemoIdsAreNotUuids | src/lib/finance/schema.ts:32 | a cell for the demo category `'1'` is refused whatever its year, month and value, and `'2'` is not a UUID either |
| Schema.AstralNameOverLimit | src/lib/finance/schema.ts:16 | a name of more than fifty emoji is refused as too long, though it has fewer than 100 characters |
| SharedExpenses.CamilaShare | src/hooks/useSharedExpenses.ts:86-87 | Felipe's rounded part and Camila's part add up to the whole amount |
| SharedExpenses.SharesWithinAmount | src/hooks/useSharedExpenses.ts:86-87 | for a whole amount and a percentage from 0 to 100, both parts are whole, between 0 and the amount, and Felipe's part is within half a peso of the percentage |
| SharedExpenses.TotalIsWhatBothPaid | src/hooks/useSharedExpenses.ts:77-79 | the total of all expenses is what Felipe paid plus what Camila paid |
| SharedExpenses.SharedOnly | src/hooks/useSharedExpenses.ts:85 | keeps exactly the expenses marked shared |
| SharedExpenses.UnsharedOweNothing | src/hooks/useSharedExpenses.ts:84-95 | both debts are the same computed over the shared expenses alone: unshared expenses owe nothing |
| SharedExpenses.MonthKeyPadsMonth | src/hooks/useSharedExpenses.ts:102 | for a real month the key is the year, a hyphen and the month as exactly two digits |
| SharedExpenses.WhoOwesFor | src/hooks/useSharedExpenses.ts:98-99 | Felipe owes exactly when the net is positive, Camila exactly when it is negative, balanced exactly at 0 |
| SharedExpenses.CalculateBalance | src/hooks/useSharedExpenses.ts:76-115 | the total equals what both paid; each debt is the other payer's part of every shared expense; the net is their difference, who owes follows its sign, and the amount owed is its absolute value; the month key is that of the month shown |
| SharedExpenses.SharedExpensesHook.constructor | src/hooks/useSharedExpenses.ts:9 | the month shown starts at today |
| SharedExpenses.SharedExpensesHook.GoToPreviousMonth | src/hooks/useSharedExpenses.ts:117-120 | moves to day 1 of exactly one calendar month earlier, across a year boundary too |
| SharedExpenses.SharedExpensesHook.GoToNextMonth | src/hooks/useSharedExpenses.ts:122-125 | moves to day 1 of exactly one calendar month later, across a year boundary too |
| SharedExpenseForm.OpenForm | src/components/SharedExpenseForm.tsx:30-54 | opening without an expense gives the defaults (Felipe, shared, 50 %, no installments, today); opening one copies its fields, a whole amount as its numeral and an installment count of 0 or none as 1 |
| SharedExpenseForm.InstallmentsOrOne | src/components/SharedExpenseForm.tsx:40 | never 0, and a count that is present and not 0 is kept |
| SharedExpenseForm.SetInstallmentsText | src/components/SharedExpenseForm.tsx:271 | the count becomes the number read when it is not 0, otherwise 1, and nothing else changes |
| SharedExpenseForm.HandleSubmit | src/components/SharedExpenseForm.tsx:56-82 | refused exactly for a blank description, an empty amount or an amount read as at most 0; otherwise submits the trimmed description, `parseInt` of the amount, the parsed date, and an installment count exactly when installments are on |
| SharedExpenseForm.AcceptedAmountNotNegative | src/components/SharedExpenseForm.tsx:59-68 | amount text that is not refused never submits a negative amount |
| SharedExpenseForm.HalfPassesYetSubmitsZero | src/components/SharedExpenseForm.tsx:59-68 | `"0.5"` passes validation (it reads as above 0) yet submits the amount 0 |
| SharedExpenseForm.TextWithoutDigitsSubmitsNaN | src/components/SharedExpenseForm.tsx:59-68 | non-empty amount text without digits is not refused and submits `NaN` |
| SharedExpenseForm.CalculateSharedAmounts | src/components/SharedExpenseForm.tsx:93-101 | nothing for either person when not shared; otherwise Felipe's rounded part and the rest for Camila, adding up to the amount read (unreadable text as 0) |
| SharedExpenseForm.PreviewMatchesBalance | src/components/SharedExpenseForm.tsx:93-101 | the preview agrees with the balance: the non-payer's part shown is exactly the debt that one expense creates, and the payer owes nothing for it |
| SharedExpenses.TotalAmount | src/hooks/useSharedExpenses.ts:77 | the total of non-negative amounts is not negative |
| SharedExpenses.PaidBy | src/hooks/useSharedExpenses.ts:78-79 | 0 when that person paid nothing; never negative for non-negative amounts |
| SharedExpenses.NoDebtWithoutSharedPayments | src/hooks/useSharedExpenses.ts:84-94 | Felipe owes nothing when Camila paid no shared expense, and Camila nothing when Felipe paid none |
| SharedExpenses.MonthKey | src/hooks/useSharedExpenses.ts:102 | the key starts with the year and a hyphen, followed by at least two characters of month |
| RecurringGeneration.AutomaticTransaction | src/hooks/useFinancialData.ts:53-62 | the generated transaction carries the payment's type, category and amount, the given id, the name with " (Pago automático)", is marked recurring and records the payment's day |
| RecurringGeneration.Generated | src/hooks/useFinancialData.ts:41-66 | at most one transaction per payment; every payment that is active, due (its day has come) and not yet covered this month gets its transaction, and nothing else is generated |
| RecurringGeneration.ProcessRecurringPayments | src/hooks/useFinancialData.ts:37-73 | when something is generated the result is the existing list followed by the generated transactions; when nothing is, nothing is saved |
| RecurringGeneration.InactiveGenerateNothing | src/hooks/useFinancialData.ts:42 | inactive payments never generate a transaction |
| RecurringGeneration.NoneGenerates | src/hooks/useFinancialData.ts:41-66 | when no payment qualifies the generated list is empty |
| RecurringGeneration.AutomaticTransactionThisMonth | src/hooks/useFinancialData.ts:59 | a payment due on a day up to today is dated that day of the current month |
| RecurringGeneration.SecondRunGeneratesNothing | src/hooks/useFinancialData.ts:44-52 | running the generation again on the list it produced generates nothing, whatever ids it gets: the generation is idempotent within a month |
| FinancialHook.FinancialDataHook.constructor | src/hooks/useFinancialData.ts:9-11 | both lists start empty and the month shown is today's |
| FinancialHook.FinancialDataHook.LoadData | src/hooks/useFinancialData.ts:15-34 | the hook takes the stored payments, and the stored transactions followed by those generated; storage is written only when something was generated, and the stored payments are untouched |
| FinancialHook.FinancialDataHook.AddTransaction | src/hooks/useFinancialData.ts:76-85 | the draft with a fresh id is appended to the hook's list and to the stored list; the payments are untouched |
| FinancialHook.FinancialDataHook.UpdateTransaction | src/hooks/useFinancialData.ts:88-94 | every transaction of the hook with that id takes the patch, while storage patches its first match (and writes nothing when there is none) |
| FinancialHook.FinancialDataHook.DeleteTransaction | src/hooks/useFinancialData.ts:97-101 | that id is removed from the hook's list and from the stored list |
| FinancialHook.FinancialDataHook.AddRecurringPayment | src/hooks/useFinancialData.ts:104-113 | the draft with a fresh id is appended to the hook's and the stored payments; the transactions are untouched |
| FinancialHook.FinancialDataHook.UpdateRecurringPayment | src/hooks/useFinancialData.ts:116-122 | every payment of the hook with that id takes the patch, while storage patches its first match |
| FinancialHook.FinancialDataHook.DeleteRecurringPayment | src/hooks/useFinancialData.ts:125-129 | that id is removed from the hook's and the stored payments |
| FinancialHook.FinancialDataHook.SetCurrentMonth | src/hooks/useFinancialData.ts:11 | only the month shown changes |
| FinancialHook.FinancialDataHook.CurrentMonthData | src/hooks/useFinancialData.ts:132-153 | holds exactly the hook's transactions of the month shown, and the balance is income minus expenses |
| FinancialHook.FinancialDataHook.FinancialSummaryOf | src/hooks/useFinancialData.ts:156-227 | the summary of the hook's list: this month's data, the previous month's, the year's totals, and breakdowns adding up to the month's totals |
| FinancialSummary.InMonth | src/hooks/useFinancialData.ts:133-135 | keeps exactly the transactions of that month |
| FinancialSummary.TypeTotalsSplitTotal | src/hooks/useFinancialData.ts:137-143 | the income total plus the expense total is the total of all amounts |
| FinancialSummary.MonthData | src/hooks/useFinancialData.ts:132-153 | exactly the month's transactions, the income and expense totals over them, and a balance equal to their difference |
| FinancialSummary.OtherMonthIgnored | src/hooks/useFinancialData.ts:133-135 | a transaction of another month changes nothing in a month's data |
| FinancialSummary.InYear | src/hooks/useFinancialData.ts:179-183 | keeps exactly the transactions dated in that calendar year |
| FinancialSummary.MonthWithinYear | src/hooks/useFinancialData.ts:179-183 | every transaction of a month is among those of its year |
| FinancialSummary.AddTo | src/hooks/useFinancialData.ts:199-201 | the categories become the old ones plus this one; a new category goes at the end, an existing one keeps its place |
| FinancialSummary.AddToSum | src/hooks/useFinancialData.ts:199-201 | adding to the map raises the sum of its amounts by exactly the amount and keeps one entry per category |
| FinancialSummary.BreakdownSumsToTotal | src/hooks/useFinancialData.ts:194-203 | a type's breakdown has one entry per category and its amounts add up to that type's total |
| FinancialSummary.BreakdownByType | src/hooks/useFinancialData.ts:197-203 | the two maps are the breakdowns of expenses and of everything else, each adding up to its type's total |
| FinancialSummary.Percentage | src/hooks/useFinancialData.ts:209 | 0 when the total is not positive; otherwise the share that, times the total, gives 100 times the amount |
| FinancialSummary.LargerAmountIsStrictOrder | src/hooks/useFinancialData.ts:211 | the comparator orders by larger amount first, strictly |
| FinancialSummary.SummariesOf | src/hooks/useFinancialData.ts:206-210 | one summary per entry, in order, with its amount, percentage and colour |
| FinancialSummary.SummarySumAppend | src/hooks/useFinancialData.ts:205-212 | the amounts of two lists joined add up to the two sums |
| FinancialSummary.InsertKeepsSum | src/hooks/useFinancialData.ts:211 | inserting a summary into a sorted list adds exactly its amount |
| FinancialSummary.SortKeepsSum | src/hooks/useFinancialData.ts:211 | sorting does not change the total of the amounts |
| FinancialSummary.SummarySumOfEntries | src/hooks/useFinancialData.ts:206-210 | the summaries' amounts add up to the entries' amounts |
| FinancialSummary.CreateCategorySummary | src/hooks/useFinancialData.ts:205-212 | a permutation of the entries' summaries, largest amount first, adding up to the entries' sum, all percentages 0 when the total is not positive |
| FinancialSummary.GetFinancialSummary | src/hooks/useFinancialData.ts:156-227 | the current and previous month's data, the calendar year's totals and balance, and each type's breakdown sorted largest first and adding up to that month's total of the type |
| FinancialSummary.TypeTotal | src/hooks/useFinancialData.ts:137-143 | 0 when no transaction has that type; never negative for non-negative amounts |
| FinancialSummary.AllTotal | src/hooks/useFinancialData.ts:137-143 | the total of non-negative amounts is not negative |
| FinancialSummary.Breakdown | src/hooks/useFinancialData.ts:194-203 | the breakdown holds exactly the categories of the transactions of that type |
| RecurringGeneration.Generates | src/hooks/useFinancialData.ts:42-53 | a payment generates only when active and its day has come, and never when a transaction already covers it this month |
| Transactions.MergeTransaction | src/utils/storage.ts:35 | each of the eight keys takes the patch's value when the patch holds it and keeps the transaction's own otherwise; an empty patch changes nothing |
| Transactions.MergePayment | src/utils/storage.ts:66 | each of the seven keys takes the patch's value when the patch holds it and keeps the payment's own otherwise; an empty patch changes nothing |
| Transactions.FirstIndex | src/utils/storage.ts:33 | none exactly when no element has the id; otherwise the position of the first element with it |
| Transactions.WithoutId | src/utils/storage.ts:42 | keeps exactly the elements whose id differs, never lengthening the list |
| Transactions.WithoutAbsentId | src/utils/storage.ts:40-44 | removing an id no element has leaves the list as it was |
| Transactions.WithoutIdAppend | src/utils/storage.ts:42 | removal commutes with appending, so what stays keeps its order |
| Transactions.MapWhereId | src/hooks/useFinancialData.ts:89-91 | same length; every element with the id is merged, every other is kept |
| Transactions.UpdateFirst | src/utils/storage.ts:31-38 | nothing is written exactly when the id is absent; otherwise only the first element with the id is merged |
| Transactions.UpdatesAgreeOnUniqueIds | src/hooks/useFinancialData.ts:88-94 | with unique ids the hook's update and the stored update give the same list, and an absent id changes neither |
| Transactions.WithoutUniqueId | src/utils/storage.ts:40-44 | with unique ids, deleting a present id removes exactly one element and deleting an absent one changes nothing |
| LocalStorage.StorageLists.constructor | src/utils/storage.ts:3-6 | the two entries start as given, written or not |
| LocalStorage.StorageLists.StoredTransactions | src/utils/storage.ts:10-19 | an entry never written reads as the empty list, a written one as the list it holds |
| LocalStorage.StorageLists.StoredPayments | src/utils/storage.ts:47-50 | an entry never written reads as the empty list, a written one as the list it holds |
| LocalStorage.StorageLists.GetTransactions | src/utils/storage.ts:10-19 | returns the stored transaction list |
| LocalStorage.StorageLists.SaveTransactions | src/utils/storage.ts:21-23 | a later read gets exactly that list, and the payments entry is untouched |
| LocalStorage.StorageLists.AddTransaction | src/utils/storage.ts:25-29 | the stored list gains the transaction at its end, the earlier ones as they were |
| LocalStorage.StorageLists.UpdateTransaction | src/utils/storage.ts:31-38 | the first stored transaction with the id takes the patch; with none, nothing is written |
| LocalStorage.StorageLists.DeleteTransaction | src/utils/storage.ts:40-44 | every stored transaction with the id is removed, the rest kept in order, and the entry is written |
| LocalStorage.StorageLists.GetRecurringPayments | src/utils/storage.ts:47-50 | returns the stored payment list |
| LocalStorage.StorageLists.SaveRecurringPayments | src/utils/storage.ts:52-54 | a later read gets exactly that list, and the transactions entry is untouched |
| LocalStorage.StorageLists.AddRecurringPayment | src/utils/storage.ts:56-60 | the stored list gains the payment at its end |
| LocalStorage.StorageLists.UpdateRecurringPayment | src/utils/storage.ts:62-69 | the first stored payment with the id takes the patch; with none, nothing is written |
| LocalStorage.StorageLists.DeleteRecurringPayment | src/utils/storage.ts:71-75 | every stored payment with the id is removed and the entry is written |
| DbRows.DateColumn | src/utils/supabaseStorage.ts:26 | the column is ten characters, `YYYY-MM-DD`, and reads back as the same date |
| DbRows.FromDbTransaction | src/utils/supabaseStorage.ts:9-18 | keeps the id, says whether the row recurs, reads the date column, and leaves the day out exactly when the column is null or 0 |
| DbRows.ToDbTransaction | src/utils/supabaseStorage.ts:20-29 | the row recurs exactly when the transaction says it does, the day is null exactly when missing or 0, and the date column reads back as the date |
| DbRows.TransactionRoundTrip | src/utils/supabaseStorage.ts:9-29 | written and read back a transaction is unchanged, except that a missing recurring flag returns as false and a day of 0 returns missing |
| DbRows.TransactionRoundTripExact | src/utils/supabaseStorage.ts:9-29 | a transaction that states its recurring flag and has no day 0 returns exactly as it was |
| DbRows.DayZeroIsLost | src/utils/supabaseStorage.ts:17-28 | a recurring day of 0 does not survive the trip |
| DbRows.FromDbRecurringPayment | src/utils/supabaseStorage.ts:31-39 | the payment keeps the row's id, day and active flag |
| DbRows.ToDbRecurringPayment | src/utils/supabaseStorage.ts:41-49 | the row is owned by the user and keeps the day and active flag |
| DbRows.PaymentRoundTrip | src/utils/supabaseStorage.ts:31-49 | a recurring payment written and read back under its id is unchanged |
| DbRows.IfTruthy | src/utils/supabaseStorage.ts:123-125 | sent exactly when present and not the empty string, and then unchanged |
| DbRows.TransactionUpdates | src/utils/supabaseStorage.ts:121-128 | type, amount, recurring flag and day are sent whenever given; category and description only when not empty; a date whenever given, reading back as itself |
| DbRows.PaymentUpdates | src/utils/supabaseStorage.ts:189-195 | amount, day, active flag and type sent whenever given; name and category only when not empty |
| DbRows.UpdateAgreesWithMerge | src/utils/supabaseStorage.ts:117-139 | for a patch without empty text, id or day 0, the updated row reads back as the stored transaction merged with the patch, just as the local update gives |
| DbRows.Inserted | src/utils/supabaseStorage.ts:107-114 | the inserted row returned by `select()` carries every column written, under the id the database gave it |
| DbRows.InsertedPayment | src/utils/supabaseStorage.ts:175-182 | the inserted payment row carries every column written, under the id the database gave it |
| DbRows.ApplyTransactionUpdates | src/utils/supabaseStorage.ts:130-136 | the id and owner are kept; a sent amount replaces the stored one; columns not sent keep their values, and an empty update changes nothing |
| TransactionList.Filtered | src/components/TransactionList.tsx:21-26 | keeps exactly the transactions of the chosen type whose description or category contains the term, ignoring case |
| TransactionList.FilteredCounts | src/components/TransactionList.tsx:20-26 | each shown transaction appears exactly as often as in the list and every other not at all: nothing added or duplicated |
| TransactionList.EmptySearchShowsAll | src/components/TransactionList.tsx:22-24 | the `'all'` filter with an empty term shows the whole list unchanged |
| TransactionList.AscendingIsStrictOrder | src/components/TransactionList.tsx:30-40 | each of the three comparisons, by date, amount or category, is irreflexive and transitive |
| TransactionList.BeforeIsStrictOrder | src/components/TransactionList.tsx:27-42 | the comparator is a strict order for every key in either direction |
| TransactionList.FilteredTransactions | src/components/TransactionList.tsx:20-43 | a permutation of the filtered list, holding exactly the shown transactions |
| TransactionList.FilteredTransactionsSpec | src/components/TransactionList.tsx:20-43 | the shown transactions, each as often as in the list, ordered so that none comes strictly before one to its left under the chosen key and direction |
| TransactionList.DescendingReversesAscending | src/components/TransactionList.tsx:42 | in descending order no transaction is smaller under the key than one further down |
| TransactionList.MatchesFilter | src/components/TransactionList.tsx:22 | kept exactly for the `'all'` filter or the transaction's own type |
| TransactionList.MatchesSearch | src/components/TransactionList.tsx:23-24 | the empty term matches everything, and a description equal to the term up to case matches |
| TransactionList.Shown | src/components/TransactionList.tsx:21-26 | everything is shown for `'all'` and the empty term, and a shown transaction has the chosen type |
| TransactionList.Before | src/components/TransactionList.tsx:27-42 | the comparator never puts two transactions each before the other |
| MonthlyTimeline.TransactionStatus | src/components/MonthlyTimeline.tsx:48-53 | in today's month: today exactly on today's day, upcoming exactly after it, completed before it; completed in every other month |
| MonthlyTimeline.PaymentStatus | src/components/MonthlyTimeline.tsx:75-82 | in today's month the same day rule as a transaction; in another month completed exactly when that month is earlier than today's, never today |
| MonthlyTimeline.TransactionEvent | src/components/MonthlyTimeline.tsx:47-66 | the event keeps the transaction's date, day, amount and type, with the status of its day |
| MonthlyTimeline.PaymentEvent | src/components/MonthlyTimeline.tsx:74-95 | the event is dated the payment's day of the month shown and keeps its amount and type, with the payment status of that day |
| MonthlyTimeline.TransactionEvents | src/components/MonthlyTimeline.tsx:42-68 | every event is in the month shown, and every transaction of that month has its event |
| MonthlyTimeline.Active | src/components/MonthlyTimeline.tsx:71-72 | keeps exactly the active payments |
| MonthlyTimeline.PaymentEvents | src/components/MonthlyTimeline.tsx:73-96 | one event per payment, in order |
| MonthlyTimeline.EventBeforeIsStrictOrder | src/components/MonthlyTimeline.tsx:99 | ordering events by date is irreflexive and transitive |
| MonthlyTimeline.TimelineEvents | src/components/MonthlyTimeline.tsx:38-100 | the transaction events followed by those of the active payments, sorted by date |
| MonthlyTimeline.PushTransactionEvents | src/components/MonthlyTimeline.tsx:42-68 | the loop pushes exactly the events of the month's transactions, in list order |
| MonthlyTimeline.PushPaymentEvents | src/components/MonthlyTimeline.tsx:71-96 | the loop pushes one event per active payment, in list order |
| MonthlyTimeline.TimelineSorted | src/components/MonthlyTimeline.tsx:99 | the timeline is in date order and is a permutation of the events pushed |
| MonthlyTimeline.TimelineCoversMonth | src/components/MonthlyTimeline.tsx:42-96 | every active payment and every transaction of the month has its event, and there is exactly one event per active payment |
| MonthlyTimeline.PaymentEventInMonth | src/components/MonthlyTimeline.tsx:74 | a payment whose day exists in the month shown is dated that day of that month |
| MonthlyTimeline.OnDay | src/components/MonthlyTimeline.tsx:112-117 | exactly the events of that day, in timeline order |
| MonthlyTimeline.OnDayStep | src/components/MonthlyTimeline.tsx:112-117 | one more event extends its own day's group and no other |
| MonthlyTimeline.GroupStep | src/components/MonthlyTimeline.tsx:113-116 | adding an event to its day's group keeps every group equal to its day's events so far |
| MonthlyTimeline.EventsByDay | src/components/MonthlyTimeline.tsx:110-119 | a group exactly for each day with an event, holding that day's events in timeline order |
| MonthlyTimeline.EachEventInOneGroup | src/components/MonthlyTimeline.tsx:110-119 | every event is in its own day's group and in no other |
| MonthlyTimeline.CountStatus | src/components/MonthlyTimeline.tsx:294-306 | never more than the number of events |
| MonthlyTimeline.CountsAddUp | src/components/MonthlyTimeline.tsx:289-309 | the completed, today and upcoming counts add up to the number of events |
| CategoryTables.Find | src/utils/categories.ts:25 | none exactly when no entry has that exact name; otherwise an entry of the table with that name |
| CategoryTables.GetCategoryColor | src/utils/categories.ts:23-27 | the colour of the entry with that name in the table of the given type, or `#6b7280` when there is none |
| CategoryTables.GetCategoryIcon | src/utils/categories.ts:29-33 | the icon of the entry with that name in the table of the given type, or `📝` when there is none |
| CategoryTables.FindUnique | src/utils/categories.ts:25 | in a table with unique names, looking up an entry's name finds that very entry |
| CategoryTables.TablesHaveUniqueNames | src/utils/categories.ts:1-21 | no two entries of either table share a name |
| CategoryTables.LookupsStayInTheirTable | src/utils/categories.ts:24-30 | an income name looked up as an expense gets the default colour and the other way round, while each finds its own entry in its own table |
| IncomeToolbar.AcceptedYear | components/finance/IncomeToolbar.tsx:31-32 | a year exactly when `parseInt` reads one from 2000 to 2100, and then that year |
| IncomeToolbar.AcceptedYearOfWrittenYear | components/finance/IncomeToolbar.tsx:31-32 | a year written out is accepted as itself exactly when it is from 2000 to 2100 |
| IncomeToolbar.YearOptions | components/finance/IncomeToolbar.tsx:39-40 | eleven consecutive years, exactly those from five before the current year to five after |
| IncomeToolbar.YearInput.constructor | components/finance/IncomeToolbar.tsx:27 | the box starts with the selected year written out |
| IncomeToolbar.YearInput.SetYearInput | components/finance/IncomeToolbar.tsx:77 | the box holds exactly what was typed |
| IncomeToolbar.YearInput.HandleYearSubmit | components/finance/IncomeToolbar.tsx:29-37 | the typed year is emitted exactly when accepted, and the box keeps it; otherwise nothing is emitted and the box shows the selected year again |
| IncomeToolbar.YearInput.HandleBlur | components/finance/IncomeToolbar.tsx:78 | leaving the box puts the selected year back into it |
| IncomeToolbar.SelectedOptionIsItsYear | components/finance/IncomeToolbar.tsx:57-63 | choosing an option emits the year the option shows |
| CategoryTables.TableFor | src/utils/categories.ts:24 | the table picked for either type has distinct names and a colour for every entry |
| TransactionForm.ExpectedErrors | src/components/TransactionForm.tsx:34-51 | a category error exactly when it is empty, an amount error exactly when not above 0, a description error exactly when it is blank after trimming, a date error exactly when it is empty, each with its own message |
| TransactionForm.CheckField | src/components/TransactionForm.tsx:37-51 | checking one more field adds its message exactly when that field fails |
| TransactionForm.ValidateForm | src/components/TransactionForm.tsx:34-55 | the errors collected field by field are exactly the expected ones |
| TransactionForm.ValidIffAllFieldsFilled | src/components/TransactionForm.tsx:54 | the form is valid exactly when every field is filled in and the amount is positive |
| TransactionForm.InitialForm | src/components/TransactionForm.tsx:20-27 | a new form has the defaults dated today; an edited one the transaction's type, category, amount, description, and a date box that reads back as its date |
| TransactionForm.DataOf | src/components/TransactionForm.tsx:68-74 | the data keeps every field, and a date read from the box writes back as the same text |
| TransactionForm.UntouchedFormSubmitsTheTransaction | src/components/TransactionForm.tsx:20-74 | submitting the form of an edited transaction unchanged hands back that transaction's own fields |
| TransactionForm.TransactionFormState.constructor | src/components/TransactionForm.tsx:20-29 | the form opens with its initial fields and no errors |
| TransactionForm.TransactionFormState.SetType | src/components/TransactionForm.tsx:144-155 | the type changes and the category is cleared; nothing else changes |
| TransactionForm.TransactionFormState.SetCategory | src/components/TransactionForm.tsx:171 | only the category changes |
| TransactionForm.TransactionFormState.SetAmountText | src/components/TransactionForm.tsx:197 | the amount becomes the number read from the box, unreadable text and 0 giving 0 |
| TransactionForm.TransactionFormState.SetDescription | src/components/TransactionForm.tsx:215 | only the description changes |
| TransactionForm.TransactionFormState.SetDate | src/components/TransactionForm.tsx:233 | only the date box changes |
| TransactionForm.TransactionFormState.ResetForm | src/components/TransactionForm.tsx:91-100 | the defaults dated today, and no errors |
| TransactionForm.TransactionFormState.HandleSubmit | src/components/TransactionForm.tsx:57-89 | a call is made exactly when the form is valid, update when editing and add otherwise; an invalid form keeps its fields and shows its errors; success resets the form; failure keeps the fields and shows only the failure message, or the default one for an empty message |
| TransactionForm.TransactionFormState.HandleClose | src/components/TransactionForm.tsx:102-105 | the form is reset |
| RecurringForm.ExpectedErrors | src/components/RecurringPaymentForm.tsx:33-50 | a name error exactly when blank after trimming, a category error exactly when empty, an amount error exactly when not above 0, a day error exactly when outside 1 to 31 |
| RecurringForm.CheckField | src/components/RecurringPaymentForm.tsx:36-50 | checking one more field adds its message exactly when that field fails |
| RecurringForm.ValidateForm | src/components/RecurringPaymentForm.tsx:33-54 | the errors collected field by field are exactly the expected ones |
| RecurringForm.ValidIffAllFieldsFilled | src/components/RecurringPaymentForm.tsx:53 | the form is valid exactly when name and category are filled in, the amount is positive and the day is 1 to 31 |
| RecurringForm.InitialForm | src/components/RecurringPaymentForm.tsx:20-27 | a new form is empty with day 1 and active; an edited one copies the payment, a day of 0 shown as 1 |
| RecurringForm.UntouchedFormSubmitsThePayment | src/components/RecurringPaymentForm.tsx:20-69 | submitting the form of an edited payment unchanged sends that payment back, when its day is not 0 |
| RecurringForm.SubmittedDayInRange | src/components/RecurringPaymentForm.tsx:48-69 | a valid form only submits a day from 1 to 31 and a positive amount |
| RecurringForm.RecurringFormState.constructor | src/components/RecurringPaymentForm.tsx:20-29 | the form opens with its initial fields and no errors |
| RecurringForm.RecurringFormState.SetType | src/components/RecurringPaymentForm.tsx:145-155 | the type changes and the category is cleared |
| RecurringForm.RecurringFormState.SetName | src/components/RecurringPaymentForm.tsx:125 | only the name changes |
| RecurringForm.RecurringFormState.SetCategory | src/components/RecurringPaymentForm.tsx:170 | only the category changes |
| RecurringForm.RecurringFormState.SetAmountText | src/components/RecurringPaymentForm.tsx:195 | the amount becomes the number read, unreadable text and 0 giving 0 |
| RecurringForm.RecurringFormState.SetDayText | src/components/RecurringPaymentForm.tsx:214 | the day becomes the whole number read, unreadable text and 0 giving 1, so it is never 0 |
| RecurringForm.RecurringFormState.SetActive | src/components/RecurringPaymentForm.tsx:231 | only the active flag changes |
| RecurringForm.RecurringFormState.ResetForm | src/components/RecurringPaymentForm.tsx:82-92 | the empty form and no errors |
| RecurringForm.RecurringFormState.HandleSubmit | src/components/RecurringPaymentForm.tsx:56-80 | a call is made exactly when the form is valid, update when editing and add otherwise, and then the form resets; an invalid form keeps its fields and shows its errors |
| RecurringForm.RecurringFormState.HandleClose | src/components/RecurringPaymentForm.tsx:94-97 | the form is reset |

## Left out

- Locale formatting: the es-CL digit grouping of `formatCLP` (src/utils/currency.ts:12-24) is left out; only whether the text is blank and which rounded amount it shows are modelled. `formatCurrency` and `formatMonth` of src/hooks/useSharedExpenses.ts:11-25 are left out too. All three build display text through `Intl`, whose output comes from the locale data.
- `formatLargeNumber` (src/utils/currency.ts:100-114): its text comes from `toFixed` on floating-point quotients. It is display text only and no other code reads it.
- Floating point: amounts, percentages and shares are exact real numbers, so rounding error, `NaN` arithmetic and overflow to `Infinity` are not modelled. `parseFloat` reads decimal literals with an optional exponent; its `"Infinity"` spelling and `parseInt`'s `0x` prefix are not modelled.
- `localeCompare` is taken as the order of character codes, because ICU collation is not available to the model. `toLowerCase` is modelled for ASCII and Latin-1 letters only.
- Times of day and time zones: every date is a whole UTC day. `toISOString()` is modelled for years 0 to 9999 only.
- The Supabase client: sign-in and sign-up, the network calls of src/utils/supabaseStorage.ts, and the loading, adding, updating and deleting of shared expenses (`loadExpenses` and the service calls of src/hooks/useSharedExpenses.ts). They are calls into a remote service. Only the row conversions, the update patches and the pure parts of the shared-expense hook are modelled.
- JSON serialisation: a stored entry is modelled by the value it encodes, with dates rebuilt as the same calendar days. The enumeration order of `Object.entries`/`for...in` is a parameter wherever the result depends on it.
- hooks/useIncomeMatrix.ts calls `reorderCategories` and `selectYear`, which the store in src/store/useFinanceStore.ts does not have. That hook is therefore modelled by the sequence of store calls it issues, not against the concrete store.
- The random demo amounts of IncomeMatrixBasic's initialisation and of both adapters' seeding are parameters.
- `CategorySchema` (src/lib/finance/schema.ts:7-13) is not modelled as a validator of its own. No route uses it, and its `z.date()` fields have no JSON form. Its field rules are modelled by `Schema.UuidIssues`, `Schema.NameIssues` and `Schema.OrderIssues`.
- The route app/api/income/categories/[id]/route.ts (PATCH and DELETE of one category) is not part of this model.
- The wording of Zod's built-in messages: an issue is modelled by its code and its path.
- The status-500 paths of the routes and hooks: nothing in the model throws unexpectedly. Adapter errors that the code raises on purpose (an unknown id, a last category) are modelled.
- React rendering: loading flags, modal opening and closing, icons as components, the chart and the position of timeline markers (`getPositionPercentage`, src/components/MonthlyTimeline.tsx:122-129) are left out. `window.confirm` and `alert` are parameters, or are left out where they only show text.
- The browser-storage quota and write failures are not modelled: every write succeeds.
- Sorting.SortWith: JavaScript's `Array.prototype.sort` is stable. The model is an insertion sort, and only sortedness and permutation are stated as lemmas. That equal elements keep their input order is not stated.

## Findings

| source | as written | input that shows it | evidently intended | confidence | as-written member | corrected member |
|---|---|---|---|---|---|---|
| adapters/income/localAdapter.ts:280-285 | `reset` walks `localStorage.key(i)` with `i` rising and calls `removeItem` inside the loop. The key that slides into position `i` after a removal is never examined. | stored keys `finance_income_matrix_2024`, `finance_income_matrix_2025`, one after the other: the 2025 grid is left in storage | every `finance_income_matrix_` key is removed | not executed | Local.RemoveMatrixKeysAsWritten, Local.SweepAsWrittenSkipsKey | Local.RemoveMatrixKeys (used by Local.LocalAdapter.Reset) |
