# placebi bookkeeping core, modelled in Dafny

placebi is a browser-only bookkeeping tool for small restaurants. The owner
sets up one restaurant. Each day they record revenue, split by payment
method (Wave, Orange Money, cash), and expenses, either as one total or as
category lines. A dashboard then shows totals, a per-method breakdown, a
day-by-day series and a moving-average forecast for the rest of the week
or month.

This project models that behaviour in three parts.

- **Financial engine** (`engine.dfy`, module `Engine`, from `lib/utils.ts`):
  - KPI totals and the margin percentage with its zero guard;
  - the three-row payment-method breakdown, which accumulates in a nested loop;
  - the per-day time series, built from a day-stepping loop over buckets and two bucket-filling loops;
  - the week and month predictors.
- **Application store** (`store.dfy`, class `Store.AppStore`, from `lib/store.ts`):
  - a restaurant field and two record lists;
  - add, which appends and then re-sorts the list newest first with a stable sort;
  - update by id, which merges a partial record and stamps the update time;
  - delete by id; the inclusive date-range queries; reset.
- **Entry forms** (`revenue_form.dfy`, `expense_form.dfy`, `setup_form.dfy`,
  from `app/revenue/page.tsx`, `app/expense/page.tsx` and `app/setup/page.tsx`).
  Without their markup, each form is a class holding the form state. Its methods are:
  - the handlers (mode switch, line add/remove/edit with the one-line minimum);
  - `validate`, which records a per-field error map and returns whether it is empty;
  - submit, which builds the stored record and hands it to the store.

Shared pieces:
- `types.dfy` (module `Types`) holds the records of `types/index.ts` as datatypes.
- `sequences.dfy` (module `Sequences`) holds generic sums, filters, a stable descending insertion sort and their lemmas.

Conventions:
- Amounts are exact `real`s.
- Every date is an `int` timestamp in milliseconds. Its calendar day is `DayOf(t) = t / 86400000`, which is floor division.
- Inputs that come from the clock are parameters:
  - the current time `now`;
  - the weekday (0 = Sunday), year, month and day of month;
  - the number `stamp` that identifiers are built from (`Date.now()`).

## Model

| member | source | states |
|---|---|---|
| Engine.Percentage | lib/utils.ts:56-58 | for a positive whole, the result times the whole is 100 times the part; otherwise it is 0 |
| Engine.Share | lib/utils.ts:192 | for a positive whole, the result times the whole is the part; otherwise it is 0 |
| Engine.CalculateKPIs | lib/utils.ts:53-58 | total revenue and total expenses are the sums of the records' totals; the margin is their difference; the percentage times the revenue is 100 times the margin when revenue is positive, and 0 when revenue is zero or negative |
| Engine.KPIsOfJoinedPeriods | lib/utils.ts:53-55 | the totals and margin of two periods taken together are the sums of those of each period |
| Engine.NetMarginPercentageBounds | lib/utils.ts:55-58 | with positive revenue and no negative expense, the margin percentage is at most 100, and it is negative exactly when expenses exceed revenue |
| Engine.KPIsExample | lib/utils.ts:53-65 | one day with 1000 of cash revenue and 400 of expenses gives totals 1000 and 400, margin 600, percentage 60 |
| Engine.MethodTotals.Sum | lib/utils.ts:83 | the grand total, the sum of the three per-method totals |
| Engine.MethodTotals.Add | lib/utils.ts:79 | adding to one method's total moves that total by the amount and leaves the other two alone |
| Engine.MethodTotalsCover | lib/utils.ts:77-83 | the three per-method totals add up to the sum of every payment line of every record, so no amount is lost |
| Engine.AccumulateMethodTotals | lib/utils.ts:71-81 | the nested loop over records and their lines yields each method's total over all lines of all records |
| Engine.BreakdownRows | lib/utils.ts:83-89 | three rows in the order wave, orange money, cash, each carrying its method's total and the percentage of the grand total; the percentages sum to 100 when the grand total is positive and are all 0 otherwise |
| Engine.CalculatePaymentMethodBreakdown | lib/utils.ts:68-90 | three rows in fixed order; each amount is its method's total over all lines; the amounts add up to the sum of all lines; the percentages follow the zero-guarded rule and sum to 100 when the total is positive |
| Engine.EmptyBreakdown | lib/utils.ts:71-89 | with no records, the breakdown is three zero rows with zero percentages |
| Engine.DaysTotalIsTotalWithin | lib/utils.ts:109-124 | adding up the day totals of a run of days gives the total of exactly the records dated within those days; records outside are ignored |
| Engine.PointsTotal | lib/utils.ts:126-133 | points that each hold their day's total add up to the sum of those day totals |
| Engine.DayOfShifted | lib/utils.ts:105 | stepping a timestamp forward by n whole days moves its calendar day forward by n |
| Engine.EmptyBuckets | lib/utils.ts:101-106 | the day-stepping loop creates one zero bucket for each day from the start day on, as many as the number of times it runs |
| Engine.AddRevenues | lib/utils.ts:109-115 | keeps the set of buckets; each bucket's revenue grows by the total of the revenues on its day; expenses are unchanged |
| Engine.AddExpenses | lib/utils.ts:118-124 | keeps the set of buckets; each bucket's expenses grow by the total of the expenses on its day; revenue is unchanged |
| Engine.SeriesTotals | lib/utils.ts:109-133 | a series holding the day totals adds up to the totals of the revenues and expenses that fall within its days |
| Engine.AlignedDaysSpanned | lib/utils.ts:101-106 | from a midnight start, the loop runs once per calendar day from the start day to the end day, both included |
| Engine.SeriesOf | lib/utils.ts:126-133 | one point per day of the run, in ascending day order, each with that day's revenue and expenses and a margin equal to revenue minus expenses |
| Engine.GenerateRevenueTimeSeries | lib/utils.ts:92-134 | one point per day stepped through, so none when start is after end and end-day minus start-day plus 1 from a midnight start; days ascending and distinct; each point's revenue and expenses are that day's totals and its margin is their difference; the series adds up to the totals of the records within its days |
| Engine.RecentWindow | lib/utils.ts:145-151 | the window is the first `cap` (or fewer) of the records dated at or after now minus the given days, in input order |
| Engine.Average | lib/utils.ts:161-167 | 0 for an empty window; otherwise the average times the count is the window's total |
| Engine.MethodPredictions | lib/utils.ts:190-197 | three entries in fixed method order, each the predicted revenue scaled by its method's share; they sum to the predicted revenue when the window's method total is positive, and are all 0 otherwise |
| Engine.PredictionFrom | lib/utils.ts:170-206 | the record carries its kind and the predicted revenue and expenses; the margin is their difference; the percentage follows the zero guard; per-method predictions are in fixed order, sum to the predicted revenue when the method total is positive, and are 0 when that total or the predicted revenue is 0 |
| Engine.Forecast | lib/utils.ts:161-206 | predicted revenue and expenses are the window averages times the remaining days; per-method predictions sum to the predicted revenue when the window has payment lines of positive total; everything is 0 when no days remain |
| Engine.ForecastWithoutHistory | lib/utils.ts:161-167 | with empty windows every predicted figure is 0, whatever the number of remaining days |
| Engine.PredictWeekRevenue | lib/utils.ts:140-207 | the remaining-day count 7 minus weekday lies in 1..7; the result is the week forecast over the first 7 records of the last 7 days |
| Engine.DaysInMonth | lib/utils.ts:238 | a month has 28 to 31 days; February has 29 exactly in Gregorian leap years; the 30-day months are April, June, September and November |
| Engine.PredictMonthRevenue | lib/utils.ts:209-278 | the remaining-day count lies in 0..30; the result is the month forecast over the first 30 records of the last 30 days; every figure is 0 on the last day of the month |
| Store.PatchRevenue | lib/store.ts:59 | every field the patch carries (id, restaurant, date, total, payment lines, notes, creation time) replaces the record's, every field it omits is kept, and the update time is always `now` |
| Store.EmptyRevenuePatch | lib/store.ts:59 | an empty patch changes nothing but the update time |
| Store.RevenuePatchIdempotent | lib/store.ts:59 | merging the same patch twice at the same time is merging it once |
| Store.PatchExpense | lib/store.ts:86 | every field the patch carries (id, restaurant, date, total, detailed flag, lines, notes, creation time) replaces the record's, every field it omits is kept, and the update time is always `now` |
| Store.EmptyExpensePatch | lib/store.ts:86 | an empty patch changes nothing but the update time |
| Store.ExpensePatchIdempotent | lib/store.ts:86 | merging the same patch twice at the same time is merging it once |
| Store.AddedSorted | lib/store.ts:51-53 | append-then-sort gives a list sorted newest first that is a permutation of the old list plus the new record; among records of one date the old order is kept and the new record comes last |
| Store.AddToSorted | lib/store.ts:51-53 | on a list already newest first, append-then-sort is a single insertion |
| Store.AddOldest | lib/store.ts:51-53 | a record no newer than every record of a sorted list stays at the end |
| Store.DeleteUndoesAdd | lib/store.ts:63-66 | deleting by id a record just added, whose id no other record has, gives back the sorted old list |
| Store.DeleteContents | lib/store.ts:65 | deleting by id keeps exactly the records with other ids, each as often as before, and changes nothing when the id is absent |
| Store.DateRangeContents | lib/store.ts:70-73 | the range query keeps exactly the records dated from start to end, both included, each as often as before |
| Store.AppStore.constructor | lib/store.ts:36-40 | no restaurant and no records |
| Store.AppStore.SetRestaurant | lib/store.ts:47 | replaces the restaurant and leaves both lists unchanged |
| Store.AppStore.AddRevenue | lib/store.ts:49-54 | the revenues become the stable newest-first sort of the old list plus the record: sorted, a permutation with the record added, per-date order kept with the record last; nothing else changes |
| Store.AppStore.UpdateRevenue | lib/store.ts:56-61 | same length and order; records with the id get the patch and the update time; the others are unchanged; an absent id changes nothing |
| Store.AppStore.DeleteRevenue | lib/store.ts:63-66 | removes every record with the id and keeps the rest in order with their multiplicities; a no-op when the id is absent |
| Store.AppStore.RevenuesByDateRange | lib/store.ts:68-74 | exactly the revenues dated from start to end inclusive, each as often as in the store, as a subsequence of the store's list (store order kept), without changing state |
| Store.AppStore.AddExpense | lib/store.ts:76-81 | as for revenues: a stable newest-first sort of the old list plus the record, sorted, permutation, per-date order with the record last |
| Store.AppStore.UpdateExpense | lib/store.ts:83-88 | same length and order; matching records are patched and stamped, others unchanged; an absent id changes nothing |
| Store.AppStore.DeleteExpense | lib/store.ts:90-93 | removes every record with the id and keeps the rest in order; a no-op when the id is absent |
| Store.AppStore.ExpensesByDateRange | lib/store.ts:95-101 | exactly the expenses dated from start to end inclusive, each as often as in the store, as a subsequence of the store's list (store order kept) |
| Store.AppStore.ResetStore | lib/store.ts:103 | no restaurant and both lists empty |
| Sequences.Filter | lib/store.ts:65 | keeps at most as many elements as it is given; what it keeps is stated by the four filter lemmas below |
| Sequences.FilterMultiset | lib/store.ts:65 | an element that passes the test is kept as often as it occurs, one that fails is dropped entirely |
| Sequences.FilterPasses | lib/store.ts:70-73 | every element of the result passes the test |
| Sequences.FilterAppend | lib/store.ts:70-73 | filtering a concatenation is the concatenation of the filtered parts, so relative order is kept |
| Sequences.FilterSubsequence | lib/store.ts:70-73 | the result is a subsequence of the input: nothing is reordered |
| Sequences.AnyPositive | app/revenue/page.tsx:115 | `.some(x => x.amount > 0)`: some element has a positive amount |
| Sequences.MapWhere | lib/store.ts:58-60 | same length; each selected element is replaced by the function's image of it, every other element is unchanged |
| Sequences.RemoveAt | app/revenue/page.tsx:96 | for an index naming an element: one element shorter, the elements before the index unchanged and those after it shifted down by one; for any other index the list is unchanged |
| Sequences.InsertDesc | lib/store.ts:51-53 | one insertion step of the stable sort adds exactly one element |
| Sequences.InsertDescSorted | lib/store.ts:51-53 | inserting into a newest-first list keeps it newest first |
| Sequences.InsertDescPermutes | lib/store.ts:51-53 | insertion adds exactly the new element to the multiset of elements |
| Sequences.InsertDescStable | lib/store.ts:51-53 | into a sorted list: the elements of any one date come out in their old order, followed by the inserted element when it has that date |
| Sequences.SortDesc | lib/store.ts:51-53 | the sort keeps the length of its input; sortedness, permutation and stability follow |
| Sequences.SortDescSorted | lib/store.ts:51-53 | the stable sort's output is ordered newest first |
| Sequences.SortDescPermutes | lib/store.ts:51-53 | the stable sort's output is a permutation of its input |
| Sequences.SortDescStable | lib/store.ts:51-53 | records with equal dates keep their relative order through the sort |
| Types.NatToStringInjective | app/revenue/page.tsx:145 | different numbers are spelt differently in identifier templates |
| Types.LineIdsDistinct | app/revenue/page.tsx:150 | the lines of one record get pairwise distinct identifiers |
| RevenueForm.LinesTotal | app/revenue/page.tsx:60-62 | the sum of the line amounts; not negative when no line is negative; positive only when some line is positive |
| RevenueForm.LinesTotalAfterChange | app/revenue/page.tsx:73-81 | setting one line's amount moves the line sum by the difference |
| RevenueForm.LinesTotalAfterAdd | app/revenue/page.tsx:84-92 | an added zero cash line leaves the line sum unchanged |
| RevenueForm.LinesTotalAfterRemove | app/revenue/page.tsx:94-101 | removing a line takes exactly its amount off the sum |
| RevenueForm.RevenueErrors | app/revenue/page.tsx:103-123 | in global mode the methods error is present exactly when the line sum is not positive; in detailed mode the total error is present exactly when the total is missing or not positive, and the line error exactly when no line is positive; each with its message |
| RevenueForm.RevenueValidIff | app/revenue/page.tsx:103-122 | no errors exactly when the global line sum is positive, or, in detailed mode, the total is positive and some line is positive |
| RevenueForm.ValidGlobalHasPositiveLine | app/revenue/page.tsx:106-110 | a positive line sum implies some positive line, so a valid global entry stores at least one line |
| RevenueForm.NumberedLines | app/revenue/page.tsx:149-153 | the i-th kept line becomes a payment line with identifier `pm_<stamp>_<i>`, its method and amount |
| RevenueForm.NotesOf | app/revenue/page.tsx:154 | empty notes are stored as absent, any other notes as given |
| RevenueForm.BuildRevenue | app/revenue/page.tsx:135-157 | id `rev_<stamp>`; total is the line sum in global mode and the entered total in detailed mode; the stored lines are exactly the positive input lines in order, with positive amounts and distinct ids; notes and both times as given |
| RevenueForm.GlobalRevenueBalances | app/revenue/page.tsx:135-153 | in global mode with no negative line, the stored lines add up to the stored total |
| RevenueForm.RevenueFormState.constructor | app/revenue/page.tsx:27-39 | global mode, the current date, no total, one zero line per method in fixed order, empty notes, no errors |
| RevenueForm.RevenueFormState.HandleModeChange | app/revenue/page.tsx:64-71 | sets the mode; the total becomes the line sum in global mode and absent in detailed mode; the lines are unchanged |
| RevenueForm.RevenueFormState.HandlePaymentMethodChange | app/revenue/page.tsx:73-82 | only the indexed line's amount changes and its method stays; in global mode the total is the line sum from before this edit, otherwise the total is kept |
| RevenueForm.RevenueFormState.HandleMethodSelect | app/revenue/page.tsx:328-332 | only the indexed line's method changes; the line sum is unchanged |
| RevenueForm.RevenueFormState.SetTotalAmount | app/revenue/page.tsx:289 | an entered 0 clears the total; any other value is kept |
| RevenueForm.RevenueFormState.SetDate | app/revenue/page.tsx:235 | sets the date only |
| RevenueForm.RevenueFormState.SetNotes | app/revenue/page.tsx:377 | sets the notes only |
| RevenueForm.RevenueFormState.HandleAddDetailedLine | app/revenue/page.tsx:84-92 | appends exactly one zero cash line and keeps the others |
| RevenueForm.RevenueFormState.HandleRemoveDetailedLine | app/revenue/page.tsx:94-101 | a no-op with one line left; otherwise removes only the indexed line, keeping order, so the list never becomes empty |
| RevenueForm.RevenueFormState.Validate | app/revenue/page.tsx:103-123 | records the validator's errors and returns true exactly when there are none, changing nothing else |
| RevenueForm.RevenueFormState.Submit | app/revenue/page.tsx:125-174 | invalid: the store is untouched and only the errors are shown; valid: the built record is added to the store and the form is blank again |
| ExpenseForm.ApplyEdit | app/expense/page.tsx:78-81 | an edit sets only its own field of the line |
| ExpenseForm.ExpenseLinesTotal | app/expense/page.tsx:60-63 | 0 without lines, else the sum of the line amounts |
| ExpenseForm.TotalAfterEdit | app/expense/page.tsx:74-87 | an edit moves the line sum by the change of the edited amount, and not at all for a category |
| ExpenseForm.TotalAfterRemove | app/expense/page.tsx:100-107 | removing a line takes exactly its amount off the sum |
| ExpenseForm.ExpenseErrors | app/expense/page.tsx:109-129 | not detailed: the total error exactly when the total is missing or not positive; detailed: the lines error exactly when there are no lines or none is positive, with the message for each case |
| ExpenseForm.ExpenseValidIff | app/expense/page.tsx:109-128 | no errors exactly when the total is positive, or, detailed, there are lines and one is positive |
| ExpenseForm.NumberedLines | app/expense/page.tsx:147-151 | the i-th kept line becomes an expense line with identifier `exp_<stamp>_<i>`, its category and amount |
| ExpenseForm.StoredLines | app/expense/page.tsx:146-152 | the stored lines are exactly the positive input lines in order, with positive amounts and distinct ids |
| ExpenseForm.BuildExpense | app/expense/page.tsx:141-164 | id `exp_<stamp>`; detailed, the total is the sum of all lines and the lines kept are the positive ones in order; not detailed, the entered total and no lines; the mode, notes and times as given |
| ExpenseForm.DetailedExpenseBalances | app/expense/page.tsx:141-152 | detailed with no negative line, the stored lines add up to the stored total |
| ExpenseForm.ExpenseFormState.constructor | app/expense/page.tsx:31-39 | not detailed, the current date, no total, one zero ingredients line, empty notes, no errors |
| ExpenseForm.ExpenseFormState.HandleModeChange | app/expense/page.tsx:65-72 | sets the mode; the total becomes absent when detailed and the line sum otherwise |
| ExpenseForm.ExpenseFormState.HandleExpenseLineChange | app/expense/page.tsx:74-88 | without lines nothing changes; otherwise only the edited field of the indexed line changes, and when not detailed the total is the line sum from before the edit |
| ExpenseForm.ExpenseFormState.HandleAddExpenseLine | app/expense/page.tsx:90-98 | appends exactly one zero ingredients line, starting a list when there was none; the line sum is unchanged |
| ExpenseForm.ExpenseFormState.HandleRemoveExpenseLine | app/expense/page.tsx:100-107 | a no-op with no lines or one; otherwise removes only the indexed line |
| ExpenseForm.ExpenseFormState.SetTotalAmount | app/expense/page.tsx:252 | an entered 0 clears the total; any other value is kept |
| ExpenseForm.ExpenseFormState.SetDate | app/expense/page.tsx:238 | sets the date only |
| ExpenseForm.ExpenseFormState.SetNotes | app/expense/page.tsx:341 | sets the notes only |
| ExpenseForm.ExpenseFormState.Validate | app/expense/page.tsx:109-129 | records the validator's errors and returns true exactly when there are none |
| ExpenseForm.ExpenseFormState.Submit | app/expense/page.tsx:131-177 | invalid: the store is untouched; valid: the built record is added to the store and the form is blank again |
| SetupForm.IsJsWhitespace | app/setup/page.tsx:43-49 | the characters `.trim()` removes, which decide whether a name or location is blank: the white space and line terminators of ECMA-262 |
| SetupForm.Trim | app/setup/page.tsx:43-49 | the trimmed name or location is the piece of the input after its leading white space, only white space follows it, and it neither starts nor ends with white space |
| SetupForm.TrimEndOfSuffix | app/setup/page.tsx:43-49 | what `TrimEnd` cuts from the end of any suffix of a string is white space |
| SetupForm.TrimDropsOnlyWhitespace | app/setup/page.tsx:43-49 | what trimming removes at either end is white space only |
| SetupForm.TrimStart | app/setup/page.tsx:43 | drops exactly the leading white space: what is dropped is white space and what remains starts with something else |
| SetupForm.TrimEnd | app/setup/page.tsx:43 | drops exactly the trailing white space |
| SetupForm.TrimBlankIff | app/setup/page.tsx:43-49 | a string trims to nothing exactly when all its characters are white space |
| SetupForm.TrimIdempotent | app/setup/page.tsx:43 | trimming a trimmed string changes nothing |
| SetupForm.SetupErrors | app/setup/page.tsx:40-50 | the name error is present exactly when the trimmed name is empty, and likewise the location error, each with its message |
| SetupForm.SetupValidIffTrimmed | app/setup/page.tsx:40-53 | no errors exactly when neither the trimmed name nor the trimmed location is empty |
| SetupForm.SetupValidIff | app/setup/page.tsx:40-53 | no errors exactly when both the name and the location hold a character that is not white space |
| SetupForm.BuildRestaurant | app/setup/page.tsx:62-67 | id `rest_<stamp>`; name, location, type and currency exactly as typed; both times `now` |
| SetupForm.BuildRestaurantIdsDistinct | app/setup/page.tsx:63 | restaurants set up at different times get different ids |
| SetupForm.SetupFormState.constructor | app/setup/page.tsx:32-38 | empty name and location, type restaurant, currency XOF, no errors |
| SetupForm.SetupFormState.SetName | app/setup/page.tsx:95 | sets the name only |
| SetupForm.SetupFormState.SetLocation | app/setup/page.tsx:104 | sets the location only |
| SetupForm.SetupFormState.SetKind | app/setup/page.tsx:112 | sets the type only |
| SetupForm.SetupFormState.SetCurrency | app/setup/page.tsx:124 | sets the currency only |
| SetupForm.SetupFormState.Validate | app/setup/page.tsx:40-53 | records the validator's errors and returns true exactly when there are none |
| SetupForm.SetupFormState.Submit | app/setup/page.tsx:55-71 | valid: the store's restaurant becomes the built restaurant and the record lists are untouched; invalid: the store is untouched |

Two edge cases of the code:
- The margin-percentage and share guards test `> 0`, so a negative total also gives 0, not only a zero total.
- The week count `7 - getDay()` is 7 on Sunday and 1 on Saturday.

Two behaviours are modelled as written:
- In global revenue mode, `handlePaymentMethodChange` recomputes the form's total from the lines as they were before the edit. This is because the handler reads the old form data. `handleExpenseLineChange` does the same when not detailed. Submit in global revenue mode recomputes the total from the lines, so the stored revenue is not affected.
- In detailed revenue mode, the stored total is the typed total, and it is not checked against the lines.

## Left out

- Persistence is not modelled: the `persist` middleware, `localStorage`, and the ISO-8601 conversion of dates on save and load (lib/store.ts:105-146). It depends on JSON and `Date` behaviour that is not part of this model.
- `getDateRange`, `cn`, the date-fns helpers, local time zones and daylight saving time are not modelled.
  - A calendar day is a UTC day of the millisecond timestamp.
  - The day-stepping loop adds exactly one day's milliseconds.
  - The series key is the day number rather than a formatted `yyyy-MM-dd` string; both sort the same way.
- `new Date()` and `Date.now()` become parameters. Each operation sees one reading:
  - `weekday`, `dayOfMonth`, `month` and `year` stand for `getDay()`, `getDate()`, `getMonth() + 1` and `getFullYear()` of the same reading as `now`; the model takes them as given rather than deriving them from `now`;
  - `now` serves as the prediction time, the creation and update times, and the cutoff of both windows;
  - `stamp` serves for the record id and all its line ids, where the page reads the clock several times.
- JavaScript numbers are modelled as exact reals, so the model does not cover:
  - IEEE rounding, `NaN` and `Infinity`;
  - `parseFloat`: the setters take the parsed value, and an entered 0 clears an optional total as `|| undefined` does;
  - `toFixed` and `Intl.NumberFormat` currency formatting.
- Unknown payment-method strings are ruled out by the three-constructor `PaymentMethod` type, so the corrupted-total path at lib/utils.ts:79 cannot arise. The same holds for unknown categories and restaurant types.
- React plumbing is not modelled: hooks, the redirect when no restaurant exists, `isSubmitting`, `alert`, try/catch and `router.push`.
  - Revenue and expense Submit require that a restaurant exists, because the pages render nothing without one.
- The line handlers that take an index require it to name a line, because the index always comes from the rendered list. `handleRemove…` tolerates any index, as `filter` does.
- `app/dashboard/page.tsx`, `app/settings/page.tsx` and the layout components only wire the engine and the store into charts and dialogs. They are not part of this model.
