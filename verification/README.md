# Fixed-expense bookkeeping: local store, dashboard and settings logic

This project models the bookkeeping core of a household fixed-expense tracker. The core is the
frontend's local-mode store (`03-frontend/src/store/useStore.js`). It keeps four in-memory lists:

- fixed expenses;
- the month-scoped payment history;
- categories;
- payment methods.

It derives three views from them:

- the month's total / paid / remaining summary;
- the totals per payment method;
- the expense list, annotated with the month's paid status and sorted by payment day. The variable
  day `'유동'` ranks as 99.

Beside it, the model covers the small pieces of logic in two pages:

- the dashboard (`03-frontend/src/pages/Dashboard.jsx`): month navigation, the `YYYY-MM` key, the
  toggle button and the progress percentage;
- the settings page (`03-frontend/src/pages/Settings.jsx`): the blank-name guard, drag-and-drop
  reordering by two splices, and renumbering of `sort_order`.

Layout, one module per file:

| file | module | contents |
|---|---|---|
| `wrappers.dfy` | `Wrappers` | `Option` |
| `lists.dfy` | `Lists` | the JavaScript array operations the core uses: `filter`, `findIndex`, `find`, and `splice` to remove or insert one element |
| `records.dfy` | `Records` | the records: expense, form draft, history row, category, payment method, and the store's default lists |
| `month_key.dfy` | `MonthKey` | the year-month key, decimal printing, and a parser as its inverse |
| `local_store.dfy` | `LocalStore` | the `Store` class with its actions, the toggle upsert as a function, and lemmas about it |
| `selectors.dfy` | `Selectors` | the three derived views |
| `dashboard.dfy` | `DashboardPage` | the `Dashboard` class (shown month, navigation, toggle button) and the progress percentage |
| `settings.dfy` | `SettingsPage` | the `Settings` class (input box, drag refs), `trim`, the splice move and renumbering |

Values the program reads from the clock become parameters:

- `Date.now()` ids are `freshId`;
- `new Date().toISOString()` timestamps are `now`;
- the page's initial `new Date()` month is `todayYear`/`todayMonth`.

The store's state, the snapshot that `get()` returns, is passed to the selectors as arguments.

## Model

| member | source | states |
|---|---|---|
| Records.FromDraft | 03-frontend/src/store/useStore.js:30 | the added record carries the fresh id and exactly the submitted fields |
| Lists.Filter | 03-frontend/src/store/useStore.js:38-39 | `filter` keeps exactly the accepted elements and never grows the list |
| Lists.FilterCount | 03-frontend/src/store/useStore.js:38-39 | every accepted element survives as often as it occurs; no rejected element survives |
| Lists.FilterNoneKept | 03-frontend/src/store/useStore.js:38-39 | a filter that rejects every element leaves nothing |
| Lists.FilterSingleton | 03-frontend/src/store/useStore.js:38-39 | a one-element list keeps its element exactly when it is accepted |
| Lists.FilterAppend | 03-frontend/src/store/useStore.js:38-39 | filtering a concatenation filters each part and keeps their order |
| Lists.FilterIsSubsequence | 03-frontend/src/store/useStore.js:38-39 | what `filter` keeps appears in the original order |
| Lists.FirstIndex | 03-frontend/src/store/useStore.js:48-50 | `findIndex` is -1 exactly when no element matches; otherwise it is the first matching index |
| Lists.Find | 03-frontend/src/store/useStore.js:45 | `find` is absent exactly when no element matches; otherwise it is the element at the first matching index |
| Lists.RemoveAt | 03-frontend/src/pages/Settings.jsx:65 | `splice(i, 1)` shifts the elements after i down by one, keeps those before, and removes one occurrence |
| Lists.InsertAt | 03-frontend/src/pages/Settings.jsx:66 | `splice(i, 0, x)` puts x at i, shifts the rest up, and adds one occurrence |
| MonthKey.DigitChar | 03-frontend/src/pages/Dashboard.jsx:49 | a digit prints as the character that reads back as that digit |
| MonthKey.NatToString | 03-frontend/src/pages/Dashboard.jsx:49 | `String(n)` is a non-empty run of digits, one character long exactly for n < 10, with a leading '0' only for 0 itself |
| MonthKey.IntToString | 03-frontend/src/pages/Dashboard.jsx:49 | `String(n)` of any integer starts with '-' exactly when n is negative, and the rest is a non-empty run of digits with a leading '0' only for 0 itself |
| MonthKey.PadStart2 | 03-frontend/src/pages/Dashboard.jsx:49 | `padStart(2, '0')` gives at least two characters, ends with the original string, and fills only with '0' |
| MonthKey.YearMonthKey | 03-frontend/src/pages/Dashboard.jsx:49 | for a month in 1..12 the key is three characters longer than the printed year and ends in '-' and the month's tens and units digits; the same key is built at 03-frontend/src/store/useStore.js:102 and :147 |
| MonthKey.KeyStartsWithYear | 03-frontend/src/pages/Dashboard.jsx:49 | every key starts with the printed year followed by '-' |
| MonthKey.JoinedParts | 03-frontend/src/pages/Dashboard.jsx:49 | in year + '-' + a two-character month, the '-' and the two month characters are the last three characters |
| MonthKey.PaddedMonthDigits | 03-frontend/src/pages/Dashboard.jsx:49 | a month in 1..12 pads to exactly its tens digit and its units digit |
| MonthKey.TwoDigitsRoundTrip | 03-frontend/src/pages/Dashboard.jsx:49 | the two padded digits of a month in 1..12 read back as that month |
| MonthKey.SplitKey | 03-frontend/src/pages/Dashboard.jsx:49 | a year part, '-' and a two-character month part read back as that year and month |
| MonthKey.NatToStringRoundTrip | 03-frontend/src/pages/Dashboard.jsx:49 | the printed digits of a natural number read back as that number |
| MonthKey.IntToStringRoundTrip | 03-frontend/src/pages/Dashboard.jsx:49 | the printed form of any integer, including a negative one, reads back as that integer |
| MonthKey.KeyRoundTrip | 03-frontend/src/store/useStore.js:102 | the key of a month in 1..12 reads back as its year and month |
| MonthKey.KeyInjective | 03-frontend/src/store/useStore.js:147 | two months in 1..12 share a key only if they are the same month of the same year, so status never leaks between months |
| LocalStore.ExpenseById | 03-frontend/src/store/useStore.js:167-170 | `getExpenseById` is absent exactly when no expense has the id; otherwise it is the first expense with that id |
| LocalStore.RowIndex | 03-frontend/src/store/useStore.js:48-50 | the index of the first history row keyed (expense_id, year_month), or -1 exactly when there is none |
| LocalStore.FindRow | 03-frontend/src/store/useStore.js:109 | the month's history row of an expense is absent exactly when no row has that key; otherwise it is the first row with that key (also at :150) |
| LocalStore.Updated | 03-frontend/src/store/useStore.js:32-36 | the length and every id are kept; other records are identical; the matching records carry exactly the submitted fields |
| LocalStore.WithoutExpense | 03-frontend/src/store/useStore.js:38 | exactly the expenses with another id survive |
| LocalStore.WithoutHistoryOf | 03-frontend/src/store/useStore.js:39 | exactly the history rows of other expenses survive |
| LocalStore.WithoutCategory | 03-frontend/src/store/useStore.js:81-83 | exactly the categories with another id survive |
| LocalStore.ToggledHistory | 03-frontend/src/store/useStore.js:43-69 | an unknown expense id leaves the history unchanged; otherwise the history grows by at most one row, exactly when the expense had no row for the month, and the new row has that key; every row keeps its key, and the rows of every other key are untouched |
| LocalStore.PaidDate | 03-frontend/src/store/useStore.js:57 | the paid_date written is the current time when paid and null when not (also at :65) |
| LocalStore.ToggleSetsRow | 03-frontend/src/store/useStore.js:53-67 | after a toggle the month's row has the requested is_paid, and a paid_date exactly when paid; an existing row changes only is_paid and paid_date; a new row gets the fresh id and the expense's current amount |
| LocalStore.FindRowUnaffected | 03-frontend/src/store/useStore.js:48-69 | a history that keeps every row's key, keeps the rows of one key, and appends only rows of other keys finds the same row for that key |
| LocalStore.ToggleLeavesOtherKeys | 03-frontend/src/store/useStore.js:48-69 | the row found for any other (expense, month) key is the same before and after |
| LocalStore.TogglePreservesUniqueKeys | 03-frontend/src/store/useStore.js:48-69 | if no two history rows share a key before a toggle, none do after |
| LocalStore.OneRowPerKey | 03-frontend/src/store/useStore.js:48-50 | with unique keys, the rows of a key are none or exactly the row that is found |
| LocalStore.OneRowPerKeyCount | 03-frontend/src/store/useStore.js:48-50 | with unique keys, a key has at most one row |
| LocalStore.ToggleLeavesOneRow | 03-frontend/src/store/useStore.js:48-69 | after toggling a known expense, its month has exactly one row |
| LocalStore.PaidThenUnpaid | 03-frontend/src/store/useStore.js:53-58 | marking paid and then unpaid leaves exactly one row for the key, unpaid and without a paid_date |
| LocalStore.RetoggleKeepsFirstSnapshot | 03-frontend/src/store/useStore.js:53-58 | after the expense's amount is edited, re-toggling keeps the amount recorded by the first toggle while the expense carries the new amount |
| LocalStore.DeletionKeepsOrder | 03-frontend/src/store/useStore.js:37-40 | deleting keeps the surviving expenses and history rows in their original order |
| LocalStore.DeleteUnknownIdIsIdentity | 03-frontend/src/store/useStore.js:37-40 | deleting an id that no expense has changes neither the expenses nor, when every row refers to an expense, the history |
| LocalStore.UnreferencedHistoryKept | 03-frontend/src/store/useStore.js:39 | deleting the history of an id no row refers to keeps the history as it is |
| LocalStore.FilterKeepsUniqueKeys | 03-frontend/src/store/useStore.js:39 | deleting an expense's history keeps the history's keys unique |
| LocalStore.Store.constructor | 03-frontend/src/store/useStore.js:8-19 | a fresh store has no expenses or history, and the three default categories and payment methods |
| LocalStore.Store.AddExpense | 03-frontend/src/store/useStore.js:29-31 | appends exactly one record with the fresh id; existing expenses are unchanged and in order; the other lists are untouched |
| LocalStore.Store.UpdateExpense | 03-frontend/src/store/useStore.js:32-36 | the expenses become `Updated` of the old ones; nothing else changes |
| LocalStore.Store.DeleteExpense | 03-frontend/src/store/useStore.js:37-40 | removes the expense and every history row of it; nothing else changes |
| LocalStore.Store.TogglePaymentStatus | 03-frontend/src/store/useStore.js:43-70 | the history becomes the toggled history, built by overwriting the found index or appending; the store invariant is kept |
| LocalStore.Store.AddCategory | 03-frontend/src/store/useStore.js:73-75 | appends the category under the fresh id; nothing else changes |
| LocalStore.Store.DeleteCategory | 03-frontend/src/store/useStore.js:81-83 | removes the categories with that id; nothing else changes |
| LocalStore.Store.SetCategories | 03-frontend/src/store/useStore.js:84 | replaces the category list; nothing else changes |
| Selectors.AddToSummary | 03-frontend/src/store/useStore.js:107-113 | one expense adds its amount to the total, and to the paid sum exactly when its row for the month is paid |
| Selectors.GetDashboardSummary | 03-frontend/src/store/useStore.js:100-120 | total is the sum of all amounts; paid is the sum of the amounts whose row for the month is paid; remaining is total minus paid |
| Selectors.SummaryFor | 03-frontend/src/store/useStore.js:104-119 | the forEach over the expenses for a given month key yields the total, the paid sum for that key, and their difference |
| Selectors.TotalAppend | 03-frontend/src/store/useStore.js:107-108 | adding an expense adds its amount to the total |
| Selectors.PaidIsTotalOfPaid | 03-frontend/src/store/useStore.js:107-113 | paid is the total of exactly the expenses paid for the month, each counted once |
| Selectors.RemainingIsTotalOfUnpaid | 03-frontend/src/store/useStore.js:115-119 | remaining is the total of exactly the expenses not paid for the month |
| Selectors.PaidWithinTotal | 03-frontend/src/store/useStore.js:104-113 | with non-negative amounts, 0 <= paid <= total |
| Selectors.ToggleKeepsOtherMonths | 03-frontend/src/store/useStore.js:109-111 | a toggle for one month leaves every other month's paid total unchanged |
| Selectors.SummaryExample | 03-frontend/src/store/useStore.js:100-120 | with 10000 and 5000 due, nothing is paid at first, and 10000 is paid after marking the first expense |
| Selectors.MethodOf | 03-frontend/src/store/useStore.js:128 | a found payment method is the first listed method with the expense's id; none is found only when no method has that id |
| Selectors.KeyOfMarch2024 | 03-frontend/src/store/useStore.js:102 | the key of March 2024 is "2024-03" |
| Selectors.StatsStep | 03-frontend/src/store/useStore.js:132-139 | one expense's step adds its method id to the keys; a present entry gains the amount, a missing one starts from the method's name and color (or 'Unknown' and '#ccc') with the amount; other entries are unchanged |
| Selectors.StatsMapFoldIsGrouping | 03-frontend/src/store/useStore.js:125-140 | after the pass, statsMap's keys are exactly the distinct payment_method_ids, and each entry carries the method's name and color, or 'Unknown' and '#ccc', and the sum of that method's amounts |
| Selectors.AddToStats | 03-frontend/src/store/useStore.js:126-140 | one expense creates its method's entry if missing, then adds its amount to that entry; a key is recorded exactly when it is new |
| Selectors.CollectStats | 03-frontend/src/store/useStore.js:125-140 | statsMap is the result of adding in every expense in order; its keys, in order of first addition, are the distinct payment_method_ids |
| Selectors.GetPaymentStats | 03-frontend/src/store/useStore.js:122-143 | the result is one grouped entry per distinct payment_method_id, in order of first occurrence |
| Selectors.StatsIdsDistinct | 03-frontend/src/store/useStore.js:122-143 | no payment_method_id has two entries |
| Selectors.StatsCoverExpenses | 03-frontend/src/store/useStore.js:122-143 | every expense's payment_method_id has an entry |
| Selectors.StatsTotalIsTotal | 03-frontend/src/store/useStore.js:122-143 | the entries' totals add up to the summary's total: no expense is dropped or counted twice |
| Selectors.MethodTotalStep | 03-frontend/src/store/useStore.js:139 | adding an expense adds its amount to its own method's total only |
| Selectors.MethodIdsStep | 03-frontend/src/store/useStore.js:132-138 | a new key is added only when the expense's method id is not yet present |
| Selectors.AbsentMethodTotal | 03-frontend/src/store/useStore.js:132-139 | a method id no expense uses has total 0 |
| Selectors.MethodIdsDistinct | 03-frontend/src/store/useStore.js:132-138 | no payment_method_id is listed twice |
| Selectors.MethodIdsCover | 03-frontend/src/store/useStore.js:126-138 | every expense's method id is listed, and only those are |
| Selectors.SumOfMethodTotalsAppendExpense | 03-frontend/src/store/useStore.js:139 | over distinct ids, an added expense raises the sum of the per-method totals by its amount exactly when its id is listed |
| Selectors.MethodTotalsAddUp | 03-frontend/src/store/useStore.js:126-140 | summed over the distinct ids, the per-method totals give the overall total |
| Selectors.StatsAddUp | 03-frontend/src/store/useStore.js:142 | the entries' totals add up to the sum of the per-method totals of their keys |
| Selectors.Listed | 03-frontend/src/store/useStore.js:149-159 | an annotated expense is the expense itself; is_paid says whether its row for the month is paid; paid_date is the row's, and without a row it is unpaid with no paid_date; the method name and color are the found method's, else '미지정' and '#ccc' |
| Selectors.ListAll | 03-frontend/src/store/useStore.js:149-159 | the map keeps the length; each item is the expense at the same position with its paid status for the month, and is exactly its `Listed` annotation: paid_date from the row or null, and the method's labels or '미지정'/'#ccc' |
| Selectors.DayRank | 03-frontend/src/store/useStore.js:161-162 | a numbered day ranks as its number, '유동' as 99 |
| Selectors.InsertByDay | 03-frontend/src/store/useStore.js:160-164 | insertion adds exactly one element and keeps all the others |
| Selectors.InsertKeepsSorted | 03-frontend/src/store/useStore.js:160-164 | inserting into a list sorted by day keeps it sorted |
| Selectors.SortByDay | 03-frontend/src/store/useStore.js:160-164 | the sort is a permutation |
| Selectors.SortIsSorted | 03-frontend/src/store/useStore.js:160-164 | the sort orders by payment day, with '유동' ranked 99 |
| Selectors.GetExpenseList | 03-frontend/src/store/useStore.js:145-165 | the list is a permutation of the annotated expenses, of the same length, ascending by payment day |
| Selectors.VariableDaysLast | 03-frontend/src/store/useStore.js:160-164 | every '유동' expense comes after every expense due on a day up to 31 |
| Selectors.SortedPutsVariableLast | 03-frontend/src/store/useStore.js:160-164 | in any list sorted by day, every '유동' item comes after every item due on a day up to 31 |
| Selectors.InsertKeepsTies | 03-frontend/src/store/useStore.js:160-164 | among elements of one rank, insertion places the new element first and keeps the rest in order |
| Selectors.SortKeepsTies | 03-frontend/src/store/useStore.js:160-164 | the sort is stable: expenses with the same payment day keep their store order |
| Selectors.ListAgreesWithSummary | 03-frontend/src/store/useStore.js:145-165 | every listed item is an expense of the store, and it shows paid exactly when the summary counts it as paid |
| Selectors.ListedItemsAgree | 03-frontend/src/store/useStore.js:149-164 | in any reordering of the annotated expenses, each item is an expense of the store with its paid status for the month, and is that expense's full `Listed` annotation |
| DashboardPage.PrevMonth | 03-frontend/src/pages/Dashboard.jsx:26-35 | from a month in 1..12 the result is in 1..12 and exactly one calendar month earlier; within the year when month > 1 |
| DashboardPage.NextMonth | 03-frontend/src/pages/Dashboard.jsx:37-46 | from a month in 1..12 the result is in 1..12 and exactly one calendar month later; within the year when month < 12 |
| DashboardPage.MonthIndexInjective | 03-frontend/src/pages/Dashboard.jsx:26-46 | months in 1..12 with the same calendar index are equal |
| DashboardPage.NavigationRoundTrip | 03-frontend/src/pages/Dashboard.jsx:26-46 | from a month in 1..12, next after prev and prev after next return the original (year, month) |
| DashboardPage.ProgressPercent | 03-frontend/src/pages/Dashboard.jsx:65 | the bar is 0 when total <= 0 and never exceeds 100 |
| DashboardPage.ProgressIsRoundedPercent | 03-frontend/src/pages/Dashboard.jsx:65 | for a positive total the bar is paid/total as a whole percentage rounded to nearest, halves up, below the cap; it is non-negative for non-negative paid, 100 from paid >= total on, and 100 only when paid/total rounds to at least 100% |
| DashboardPage.ProgressOfSummary | 03-frontend/src/pages/Dashboard.jsx:60-65 | for a month's summary with non-negative amounts the bar lies in 0..100, and is 100 when everything is paid |
| DashboardPage.ToggleFlipsListedStatus | 03-frontend/src/pages/Dashboard.jsx:48-51 | the button requests the negation of the listed is_paid, so after the toggle the expense's status for the shown month is flipped |
| DashboardPage.Dashboard.constructor | 03-frontend/src/pages/Dashboard.jsx:18-19 | the page opens on the given current month |
| DashboardPage.Dashboard.HandlePrevMonth | 03-frontend/src/pages/Dashboard.jsx:26-35 | the shown month becomes `PrevMonth` of the old one |
| DashboardPage.Dashboard.HandleNextMonth | 03-frontend/src/pages/Dashboard.jsx:37-46 | the shown month becomes `NextMonth` of the old one |
| DashboardPage.Dashboard.HandleToggleStatus | 03-frontend/src/pages/Dashboard.jsx:48-51 | toggles the item's expense for the shown month's key, requesting the negation of its listed is_paid |
| SettingsPage.TrimStart | 03-frontend/src/pages/Settings.jsx:22 | strips exactly the leading white space: a suffix that is empty or starts with a non-space |
| SettingsPage.TrimEnd | 03-frontend/src/pages/Settings.jsx:22 | strips exactly the trailing white space: a prefix that is empty or ends with a non-space |
| SettingsPage.Trim | 03-frontend/src/pages/Settings.jsx:22 | `trim` leaves an empty string or one that starts and ends with a non-space, and it is empty exactly when every character is white space |
| SettingsPage.TrimEmptyIffAllWhitespace | 03-frontend/src/pages/Settings.jsx:22 | stripping both ends leaves nothing exactly when every character is white space |
| SettingsPage.AllWhitespaceTrimsAway | 03-frontend/src/pages/Settings.jsx:22 | a name of white space only loses every character to the leading strip |
| SettingsPage.NonWhitespaceSurvives | 03-frontend/src/pages/Settings.jsx:22 | a name with a non-space character does not trim to the empty string |
| SettingsPage.IsBlank | 03-frontend/src/pages/Settings.jsx:22 | `!newCategory.trim()` holds exactly when every character of the name is white space |
| SettingsPage.NewCategory | 03-frontend/src/pages/Settings.jsx:23-27 | the added category carries the typed name, type 'EXPENSE' and sort_order = count + 1 |
| SettingsPage.NewCategorySortsLast | 03-frontend/src/pages/Settings.jsx:26 | after renumbering, every sort_order is below the new category's count + 1, and the value count is not in use either |
| SettingsPage.Moved | 03-frontend/src/pages/Settings.jsx:63-66 | the two splices keep the list's length |
| SettingsPage.MovedIsPermutation | 03-frontend/src/pages/Settings.jsx:63-66 | the move is a permutation, with the dragged element at the target position |
| SettingsPage.MovedKeepsOthersInOrder | 03-frontend/src/pages/Settings.jsx:63-66 | without the dragged element the list is unchanged: the others keep their relative order |
| SettingsPage.MoveBackRestores | 03-frontend/src/pages/Settings.jsx:63-67 | dragging the element back from the target to its origin restores the list |
| SettingsPage.Renumbered | 03-frontend/src/pages/Settings.jsx:78-81 | the length and order are kept, each category's sort_order is its index, and all other fields are unchanged |
| SettingsPage.RenumberedOrders | 03-frontend/src/pages/Settings.jsx:78-82 | the sort orders are exactly 0..n-1, and renumbering twice is renumbering once |
| SettingsPage.Settings.constructor | 03-frontend/src/pages/Settings.jsx:17 | the input box starts empty, and both drag refs are unset as `useRef()` leaves them (Settings.jsx:53-54) |
| SettingsPage.Settings.HandleAddCategory | 03-frontend/src/pages/Settings.jsx:21-29 | a blank name changes nothing; otherwise one EXPENSE category named as typed, with sort_order = count + 1, is appended and the box is cleared |
| SettingsPage.Settings.HandleDragStart | 03-frontend/src/pages/Settings.jsx:56-59 | the dragged position is recorded |
| SettingsPage.Settings.HandleDragEnter | 03-frontend/src/pages/Settings.jsx:61-70 | the categories become `Moved` from the dragged position to the hovered one; the hovered position becomes the dragged one; the over-ref is cleared |
| SettingsPage.Settings.HandleDragEnd | 03-frontend/src/pages/Settings.jsx:72-83 | both refs are cleared and the categories are renumbered; nothing else changes |

The local store is the frontend's offline copy of the backend's toggle. The two toggles differ, and
the model follows the local store:

- **Re-toggle snapshot.** The backend's SQL upsert
  (`02-backend/src/controllers/dashboardController.js:126-134`) writes the expense's current
  `amount` again on every toggle. The local store's toggle (`03-frontend/src/store/useStore.js:53-58`) keeps the amount recorded
  when the row was created. See `LocalStore.RetoggleKeepsFirstSnapshot`.
- **paid_date on unpaid.** The backend sets `paid_date = NOW()` on every toggle, paid or not. The
  local store sets it to null when the expense is marked unpaid (`03-frontend/src/store/useStore.js:57`, `:65`). See
  `LocalStore.PaidDate` and `LocalStore.ToggleSetsRow`.
- **Fallback labels.** A missing payment method is labelled `'Unknown'` in the stats (`03-frontend/src/store/useStore.js:129`) and
  `'미지정'` in the list (`03-frontend/src/store/useStore.js:157`). The model keeps both.

## Left out

- zustand's `persist` to `localStorage` (`03-frontend/src/store/useStore.js:172-175`) is storage I/O.
- Clock reads are not modelled; `Date.now()` ids and `new Date().toISOString()` timestamps are the
  `freshId` and `now` parameters. Fresh ids are not assumed distinct from existing ones.
- The user profile and its `updateProfile` are not part of the store's bookkeeping logic.
- `updateCategory`, `addPaymentMethod` and `deletePaymentMethod` are store actions that no modelled
  page logic calls.
- Rendering is left out: React rendering, hooks, DOM style changes, `window.confirm` and
  `handleDelete` are UI.
- The per-method percentages shown with `toFixed(1)` are floating point.
- The backend controllers, schema scripts, routes and the HTTP wrapper are not part of this model.
- Category ties broken by name belong to the backend's ordered query; the local store does not sort
  categories.
- `Number(...)` coercions, string amounts and `NaN` are not modelled. Amounts are integers (won), and
  ids are integers.
- A `payment_day` other than `'유동'` is modelled as a day number; a non-numeric day string, which
  `Number` would turn into `NaN`, is not.
- `is_paid` is a boolean; the store writes 1 / 0.
- A missing payment method is one value, `None`. The source can see `undefined`, `null` and `''`,
  which are three different `statsMap` keys.
- Selectors.GetPaymentStats: lists the entries in order of first occurrence. `Object.values` lists
  array-index keys, such as the default ids 1-3, in ascending order before the other keys. The set of
  entries and their totals are the same.
- DashboardPage.ProgressPercent: computed on exact rationals, not IEEE doubles. `(paid / total) * 100`
  in floating point can land just beside a .5 boundary and round the other way.
- SettingsPage.Settings.HandleDragEnter: requires the drag to have started on a row and the hovered
  position to be a row index. Every row has the handler (`03-frontend/src/pages/Settings.jsx:114`), so it also runs when a drag that
  did not start on a row enters one. `dragItem.current` is then `undefined` (`useRef()`, `03-frontend/src/pages/Settings.jsx:53`) or
  `null` (after a drag end, `03-frontend/src/pages/Settings.jsx:74`). `splice(undefined, 1)` then removes the first category, and
  `03-frontend/src/pages/Settings.jsx:66` inserts `undefined`. This input is not modelled.
- SettingsPage.Settings.HandleDragEnter: the copied array and its two in-place `splice` calls are
  modelled as two list updates (`RemoveAt`, `InsertAt`) on a local sequence. No array is shared, so
  nothing about aliasing is lost.
