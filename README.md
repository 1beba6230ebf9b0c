# Expense tracker bookkeeping, in Dafny

This project models the in-memory bookkeeping of a single-page expense tracker (its `App` component
and the `AddTransactionModal` entry form). The tracker keeps one list of transactions spread over
several ledgers. It shows the active ledger's transactions for one month, newest first, with that
month's income, expense and balance, and the ledger's lifetime balance. The home screen groups the
month by day with daily subtotals. The statistics screen ranks the month's expenses by category.
Transactions are added from a numeric keypad form and deleted after a confirmation.

Modules, one file each:

- `Types` (`types.dfy`): transactions, categories, daily groups, views and the form's draft, with
  dates as (year, month, day) triples and amounts as reals.
- `Seqs` (`seqs.dfy`): sequence helpers for what the component does with arrays and dictionaries:
  - `filter`, kept in list order;
  - left-to-right sums;
  - the key order of a dictionary filled in a `forEach` loop;
  - regrouping by key;
  - `find`.
- `Sorting` (`sorting.dfy`): `Array.prototype.sort` with a comparator, as a stable insertion sort.
- `Numbers` (`numbers.dfy`): the decimal value of the typed amount and the decimal text of the clock
  used as id.
- `Aggregation` (`aggregation.dfy`): the derived data:
  - the monthly filter;
  - the monthly totals (a loop);
  - the lifetime balance;
  - the day grouping (a loop filling a map);
  - the category ranking (a loop filling a map).
- `AppState` (`app_state.dfy`): the `App` component as a class whose fields are its state. Its
  methods are the handlers: add, delete, change month, select ledger, switch view, open and close
  the form.
- `EntryForm` (`entry_form.dfy`): the keypad state machine, reading the typed amount, the default
  category, and the form as a class whose `Confirm` hands a draft to the `App`.

Inputs the component takes from its environment become parameters:

- `Date.now()` becomes two parameters of the add handler: `idClock` (its decimal text is the id)
  and `stampClock` (the timestamp). The source reads the clock twice.
- The answer of the `confirm()` dialog becomes a boolean.
- The lists read from storage on mount become constructor parameters.
- Today's date becomes constructor parameters.

## Model

| member | source | states |
|---|---|---|
| Seqs.WhereKeyMembers | App.tsx:74-78 | a filter keeps exactly the elements whose key matches (both directions) |
| Seqs.WhereKeyConcat | App.tsx:74-78 | filtering a concatenation is the concatenation of the filtered parts, so relative order is kept |
| Seqs.KeysInOrder | App.tsx:101-110 | the keys of a dictionary filled element by element are distinct, cover every element's key and contain nothing else |
| Seqs.KeysInOrderEmpty | App.tsx:248-253 | the dictionary has no key exactly when no element was added |
| Seqs.SumByPermutation | App.tsx:86-89 | a sum over a list does not depend on the order of its terms |
| Seqs.PartitionByKeys | App.tsx:101-110 | regrouping by distinct keys that cover every element is a permutation of the input |
| Seqs.DistinctByPermutation | App.tsx:110 | distinct keys stay distinct after reordering |
| Seqs.FindFirst | App.tsx:254 | `find` returns None exactly when no element matches; otherwise the first match |
| Sorting.SortBy | App.tsx:79 | the sorted list is a permutation of the input |
| Sorting.SortBySorted | App.tsx:79 | for a total-preorder comparator the result is sorted |
| Numbers.NatToStringRoundTrip | App.tsx:117 | the decimal text of a clock reading reads back as that reading |
| Numbers.NatToStringInjective | App.tsx:117 | different clock readings give different ids |
| Numbers.DigitsValuePositive | App.tsx:437-438 | a digit string denotes a positive integer exactly when it has a nonzero digit |
| Numbers.FractionValueBounds | App.tsx:437-438 | the digits after the point add a value in [0, 1), positive exactly when one digit is nonzero |
| Numbers.NatToString | App.tsx:117 | `Date.now().toString()`: a non-empty string of decimal digits that starts with "0" only for 0; its value and injectivity are `NatToStringRoundTrip` and `NatToStringInjective` |
| Aggregation.MonthlyTransactions | App.tsx:73-80 | exactly the transactions of the ledger, year and month; a permutation of that filtered subset; non-increasing timestamps |
| Aggregation.FilterKeepsNewestFirst | App.tsx:100-109 | filtering a newest-first list keeps it newest first |
| Aggregation.ComputeStats | App.tsx:83-91 | the loop's income is the sum of income amounts, its expense the sum of all other amounts, balance = income - expense |
| Aggregation.IncomeIsIncomeTransactions | App.tsx:87 | the accumulated income is the total of the income transactions |
| Aggregation.ExpenseIsExpenseTransactions | App.tsx:88 | the accumulated expense is the total of the expense transactions |
| Aggregation.MonthTotalsIgnoreOrder | App.tsx:79-91 | the month's totals are the same before and after sorting by timestamp |
| Aggregation.LedgerBalance | App.tsx:94-98 | `totalBalance`: the signed sum over the ledger's transactions; it equals that ledger's income minus its expense by `SignedIsIncomeMinusExpense` and `LedgerBalanceIsIncomeMinusExpense` |
| Aggregation.SignedIsIncomeMinusExpense | App.tsx:97 | the signed sum is the income total minus the expense total |
| Aggregation.LedgerBalanceIsIncomeMinusExpense | App.tsx:94-98 | the lifetime balance of a ledger is its income minus its expense over all months |
| Aggregation.DayGroup | App.tsx:103-108 | one day's `DailyGroup`: that day's transactions in list order with their income and expense subtotals; `DayGroupMember` and `DayGroupSnoc` state its contents and how one more transaction changes it |
| Aggregation.DailyGroups | App.tsx:100-111 | `groupedTransactions`: the day groups newest day first; its properties are stated by `DailyGroupsAreDayGroups`, `DailyGroupsNewestFirst`, `DailyGroupsCoverMonth` and `DailyGroupsAreGrouping` |
| Aggregation.DailyGroupsAreDayGroups | App.tsx:100-111 | every group is the group of its own day (that day's transactions, in list order, with their subtotals) and none is empty |
| Aggregation.DayGroupMember | App.tsx:103-106 | a day's group holds only transactions of the month dated on that day |
| Aggregation.GroupsHoldTheirDays | App.tsx:100-111 | in any day grouping every transaction of a group is in the month and carries the group's date |
| Aggregation.DailyGroupsNewestFirst | App.tsx:110 | group dates are strictly decreasing, so distinct and newest first |
| Aggregation.DailyGroupsCoverMonth | App.tsx:102-106 | every transaction of the month has a group for its day |
| Aggregation.DailyGroupsAreGrouping | App.tsx:100-111 | the grouping meets all three conditions of a day grouping |
| Aggregation.DayGroupSnoc | App.tsx:103-108 | one more transaction adds itself and its amount only to its own day's group |
| Aggregation.RecordInDay | App.tsx:103-108 | one loop step keeps the dictionary equal to the day groups of the prefix seen so far, with keys in first-seen order |
| Aggregation.CollectDays | App.tsx:101-109 | after the loop the dictionary maps each day of the month to its group; its key order is first-occurrence order |
| Aggregation.DictionaryValuesInOrder | App.tsx:110 | `Object.values` of that dictionary lists the day groups in first-occurrence order |
| Aggregation.GroupByDay | App.tsx:100-111 | the method computes the day grouping of the month |
| Aggregation.ConcatIsRegrouping | App.tsx:100-111 | the groups' lists end to end are the month regrouped by the groups' dates |
| Aggregation.GroupsPartitionMonth | App.tsx:100-111 | the groups' lists end to end are a permutation of the month |
| Aggregation.GroupsKeepNewestFirst | App.tsx:106 | each group lists its transactions newest first, as the month's list does |
| Aggregation.GroupTotalsAreConcatTotals | App.tsx:107-108 | the sum of the group subtotals is the sum over the groups' lists end to end |
| Aggregation.GroupTotalsMatchStats | App.tsx:83-111 | the group subtotals add up to the month's income and expense |
| Aggregation.CategoryTotalSnoc | App.tsx:250 | one more expense adds its amount to its own category's total only |
| Aggregation.RecordExpense | App.tsx:250 | one loop step keeps the totals equal to the category totals of the prefix seen so far, with keys in first-seen order |
| Aggregation.CollectTotals | App.tsx:248-251 | after the loop each expense category of the month maps to its summed amount, in first-occurrence order |
| Aggregation.RemoveFirst | App.tsx:255 | `replace('bg-', '')`: the first occurrence of the pattern is removed; `KnownCategoryEntry` states it on a "bg-" color |
| Aggregation.EntryFor | App.tsx:254-255 | the chart entry of one category id: the category join with the "Unknown" and "gray-400" fallbacks, stated by `UnknownCategoryFallback` and `KnownCategoryEntry` |
| Aggregation.ExpenseRanking | App.tsx:248-256 | the statistics chart data; `RankExpenses` computes it, and `RankingEntries`, `RankingSize`, `RankingSumsToExpense` and `RankingEmptyIffNoExpense` state which entries it lists and what they add up to |
| Aggregation.RankExpenses | App.tsx:248-256 | the method computes the category ranking; values are non-increasing |
| Aggregation.EntriesSumIsRegroupedSum | App.tsx:253-255 | the entries' values add up to the expenses regrouped by category |
| Aggregation.RankingSumsToExpense | App.tsx:248-256 | the ranking's values add up to the month's expense total |
| Aggregation.RankingSize | App.tsx:248-256 | one entry per distinct category id among the month's expenses |
| Aggregation.EntriesForMembership | App.tsx:253-255 | an entry is listed exactly when it is the join of a listed id with its total |
| Aggregation.RankingEntries | App.tsx:248-256 | an entry is in the ranking exactly when it is the join of an expense category of the month with that category's total |
| Aggregation.RankingEmptyIffNoExpense | App.tsx:248-256 | the ranking is empty exactly when the month has no expense |
| Aggregation.UnknownCategoryFallback | App.tsx:254-255 | an id missing from the categories shows as "Unknown" in "gray-400" |
| Aggregation.KnownCategoryEntry | App.tsx:254-255 | a first matching category with a name and a "bg-" color gives its name and the color without "bg-" |
| AppState.Without | App.tsx:127 | the survivors of a delete are exactly the entries with another id |
| AppState.Stamp | App.tsx:115-120 | the `tx` literal: the draft's fields with the id, the timestamp and the ledger id; `App.AddTransaction` and `AddUpdatesLedgerBalance` use it |
| AppState.WithoutConcat | App.tsx:127 | a delete keeps the relative order of the survivors |
| AppState.WithoutPartition | App.tsx:127 | the list before a delete is the survivors plus every entry with the id, and nothing else |
| AppState.WithoutAbsent | App.tsx:127 | deleting an id no entry carries changes nothing |
| AppState.DeleteUpdatesLedgerBalance | App.tsx:94-98 | after a delete the lifetime balance loses exactly the signed amounts of the deleted entries of that ledger |
| AppState.DeleteCommutesWithMonth | App.tsx:73-80 | deleting and then taking a month equals taking the month and then deleting |
| AppState.DeleteFromMonth | App.tsx:73-80 | the displayed month after a delete is the month minus the deleted entries |
| AppState.AddUpdatesLedgerBalance | App.tsx:94-98 | an added transaction changes the lifetime balance of its own ledger by its signed amount and no other ledger's |
| AppState.AddToMonth | App.tsx:73-80 | an added transaction joins the displayed month exactly when it is of that ledger, year and month |
| AppState.ShiftMonth | App.tsx:131-135 | the result is a valid month whose month index is the old index plus delta, carrying into the year |
| AppState.ShiftMonthInverse | App.tsx:131-135 | moving back by delta undoes moving forward by delta |
| AppState.ShiftMonthCompose | App.tsx:131-135 | two moves equal one move by the sum |
| AppState.App.constructor | App.tsx:43-59 | the initial state: the home view, the form closed, the stored lists and ledger, today's month |
| AppState.App.Filtered | App.tsx:73-80 | `filteredTransactions` of the current state, whose properties are those of `MonthlyTransactions` |
| AppState.App.TotalBalance | App.tsx:94-98 | `totalBalance` of the current state, whose properties are those of `LedgerBalance`; `App.ChangeMonth` keeps it |
| AppState.App.Stats | App.tsx:83-91 | the month's income is the total of its income transactions, expense the total of the rest, balance their difference |
| AppState.App.GroupedTransactions | App.tsx:100-111 | the current month as a day grouping whose lists are a permutation of the month, each newest first, with subtotals adding up to the month's totals |
| AppState.App.CategoryRanking | App.tsx:248-256 | the current month's ranking: an entry is listed exactly when it is the category join (with the "Unknown"/"gray-400" fallbacks) of one of the month's expense categories with its total; values are non-increasing, add up to the month's expense, one entry per expense category |
| AppState.App.AddTransaction | App.tsx:114-123 | the draft stamped with the clock's id, the timestamp and the active ledger is put in front; the old list is the tail; the form closes |
| AppState.App.DeleteTransaction | App.tsx:125-129 | when confirmed, the list becomes the survivors of the delete; otherwise it is unchanged |
| AppState.App.ChangeMonth | App.tsx:131-135 | the displayed month moves by delta; the lifetime balance is unchanged |
| AppState.App.SelectLedger | App.tsx:352-355 | the clicked ledger becomes active and the home view is shown |
| AppState.App.SetView | App.tsx:389 | the bottom navigation switches the view |
| AppState.App.OpenAddModal | App.tsx:390 | the add button opens the form |
| AppState.App.CloseAddModal | App.tsx:396 | the form's close button closes it |
| EntryForm.PressKey | App.tsx:426-434 | `handleNumPad` on the amount text; `PressKeyWellFormed`, `BackspaceUndoesDigit`, `BackspaceUndoesPoint`, `PointIdempotent` and `DigitAppendsToValue` state its properties |
| EntryForm.PressKeyWellFormed | App.tsx:426-434 | after any key the amount is non-empty, has at most one point, never starts with the point, and has no leading zero before a digit |
| EntryForm.BackspaceUndoesDigit | App.tsx:427-432 | DEL takes back the digit just typed, also one that replaced the initial "0" |
| EntryForm.BackspaceUndoesPoint | App.tsx:427-430 | DEL takes back a point just typed |
| EntryForm.PointIdempotent | App.tsx:429-430 | a second point changes nothing |
| EntryForm.PointIndex | App.tsx:437 | the position of the first point, or the length when there is none |
| EntryForm.PointIndexOfDigits | App.tsx:437 | a string without a point has its point index at its end |
| EntryForm.PartsAreDigits | App.tsx:437 | both sides of the point of a well-formed amount are digits only |
| EntryForm.NonzeroAroundPoint | App.tsx:437 | a nonzero digit lies before or after the point |
| EntryForm.ParsePositiveIff | App.tsx:437-438 | the typed amount reads as positive exactly when one of its digits is nonzero |
| EntryForm.ParseAmount | App.tsx:437 | `parseFloat` on a well-formed amount: the exact decimal value; `ParsePositiveIff` and `DigitAppendsToValue` state its properties |
| EntryForm.DigitAppendsToValue | App.tsx:432 | typing a digit before any point multiplies the value by ten and adds the digit |
| EntryForm.DefaultCategory | App.tsx:421-424 | the first category of the type in list order, or the previous choice when there is none |
| EntryForm.AddTransactionForm.constructor | App.tsx:413-424 | the form opens with "0", an expense, no note, today's date and the default expense category |
| EntryForm.AddTransactionForm.NumPad | App.tsx:426-434 | a key press applies the keypad step and keeps the amount well formed |
| EntryForm.AddTransactionForm.SelectType | App.tsx:421-424 | the type is set; the category becomes the type's default only when the type changed |
| EntryForm.AddTransactionForm.SelectCategory | App.tsx:484 | clicking a category selects it |
| EntryForm.AddTransactionForm.SetNote | App.tsx:503 | the note field sets the note |
| EntryForm.AddTransactionForm.SetDate | App.tsx:511 | the date field sets the date |
| EntryForm.AddTransactionForm.ToDraft | App.tsx:439-445 | the `onSave` payload: the parsed amount, type, selected category, date and note; `Confirm` hands it over |
| EntryForm.AddTransactionForm.Confirm | App.tsx:436-446 | saves exactly when the amount has a nonzero digit, prepending the stamped draft and closing the form; otherwise nothing changes |

`Types` follows `types.ts:1-36`: `TransactionType`, `Category`, `Transaction`, `DailyGroup` and
`ViewState`, with a `Draft` for the `Omit<Transaction, 'id' | 'timestamp' | 'ledgerId'>` that the
form hands over.

## Left out

- Rendering: the JSX, the pie chart, the icons and the shared components are presentation only.
- `formatMoney` and the percentages with `toFixed` are presentation over floating point.
- Persistence is not modelled. It reads and writes browser storage:
  - the load effect becomes constructor parameters;
  - the save effect that skips an empty list is left out;
  - the active-ledger save effect is left out.
- The service worker is network plumbing; the seed data holds no logic.
- The `Ledger` entity, the `ledgers` state and the `currentLedger` lookup only feed the header and
  the ledger cards. The model keeps the active ledger id alone.
- Floating point is not modelled. Amounts are exact reals, so sums are exact and their order does
  not matter, unlike in IEEE arithmetic.
- `parseFloat` is modelled only on the strings the keypad can produce: digits with at most one
  point, where it reads the exact decimal value.
- JavaScript `Date` is not modelled. A date is a (year, month, day) triple, so none of this is
  captured:
  - parsing of the ISO text in UTC;
  - local-time `getMonth`, which can move a transaction into a neighbouring month;
  - `getTime` ordering, replaced by the lexicographic order on the triple.
- AppState.ShiftMonth: moves (year, month) only and does not model `setMonth` overflowing the day
  (January 31 plus one month lands in March in the source). `ShiftMonthInverse` and
  `ShiftMonthCompose` hold only on this (year, month) abstraction: in the source, January 31 plus
  one month is March 2 or 3, and one month back from there is February, not January.
- The uniqueness of ids is not promised: ids come from the `idClock` parameter, and two adds in
  the same millisecond would share an id. `NatToStringInjective` states that different readings
  give different ids.
- AppState.App.DeleteTransaction: removes every entry carrying the id, as the `filter` in the code
  does (one entry when ids are unique).
- Dictionary key order is modelled as first-insertion order. JavaScript enumerates integer-like
  keys first, but the date keys ("YYYY-MM-DD") and the category ids are not integer-like.
- Aggregation.MonthlyTransactions: states order by timestamp, but not the order among equal
  timestamps. The sort is stable, so they keep their list order.
- Aggregation.RankExpenses: states order by value, but not the order among equal values.
- The entry form's category grid filter, the amount display and the keypad layout are
  presentation.
- SelectType: the default-category effect also depends on the category list, which the form's
  props fix while it is open. It is modelled as running on mount and when the type changes.
