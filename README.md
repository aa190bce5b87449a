# Personal Expense Tracker — a Dafny model of its figures and charts

The tracker is a single-page application. It keeps a list of expense records: an id, a description, an amount, one of six
categories, a date, a reimbursement flag and an optional reimbursement amount. On every render it derives the following
from the list:

- summary figures: fuel spent, fuel reimbursements received, all reimbursements, overall net, this month's net,
  grocery spending in total, this week and this month, and car spending with the car net;
- a per-category breakdown;
- two bar charts, one of fuel spending against fuel reimbursements and one of grocery, dining and small-shop spending.
  Each bucket is a week (starting on Sunday) or a calendar month, and only the latest 8 weeks or 6 months are kept.

Records are added from an entry form and deleted by id.

This project models that core in Dafny:

- `Calendar` (calendar.dfy):
  - naive calendar dates;
  - a day number counted from 1970-01-01 (the shifted-year method);
  - the weekday, with Sunday = 0 as JavaScript's `getDay`;
  - the Sunday that starts a date's week;
  - a month index that orders `YYYY-MM` keys.
- `Ledger` (ledger.dfy):
  - the expense record and the six category names, in display order;
  - `filter`, and `reduce` to a sum of a per-record weight, which every figure is built from;
  - the partition, concatenation and membership lemmas about them.
- `Totals` (totals.dfy): every summary figure and the category breakdown, with the lemmas that relate them.
- `Charts` (charts.dfy): the period key of a date and the two chart builders.
  - The builders are methods with the `forEach` loops of the code. Each loop fills a `map` of buckets and a key order.
  - Each loop is proved against a fold function. Lemmas then show what the sorted and trimmed result holds.
- `Tracker` (tracker.dfy):
  - the entry form;
  - the record an add sends;
  - the list filter a delete applies;
  - a class `ExpenseTracker` whose `expenses` and `form` fields the two operations update.

Conventions of the model:

- Amounts, and the numbers typed in the form, are integers (pence).
- "Today" and the weekly/monthly choice are parameters.
- The store is outside the model. Its replies are parameters: the record it sends back for an add, or none when the
  request fails, and whether a delete succeeded.
- Weekly keys are the day number of the Sunday. Monthly keys are `year * 12 + month - 1`. Both kinds of key order
  exactly as `new Date(period)` orders the code's key strings.
- `Object.values(periods)` after a sort is modelled as the dictionary's values read in ascending key order. JavaScript's
  sort is a total order on these distinct keys, so the insertion order the loops build drops out of the chart.
- In `Charts`, the sequences `order` and `KeysInOrder` still record that insertion order. The lemmas show it holds every
  key once.

Scope notes on the code:

- The category set is the six categories of `src/App.js:26-33`.
- The charts have weekly and monthly buckets, trimmed to 8 and 6 (`src/App.js:238`, `src/App.js:297`).
- "This week's groceries" counts every grocery-group record dated on or after this week's Sunday (`src/App.js:141-146`).
  That includes records dated in the future.

## Model

| member | source | states |
|---|---|---|
| Calendar.DaysInMonth | src/App.js:188 | A month has 28 to 31 days, and 29 exactly in February of a leap year, as the calendar behind `new Date` has it. |
| Calendar.NextDay | src/App.js:192 | The day after a valid date is a valid date. |
| Calendar.DayNumberNextDay | src/App.js:192 | Consecutive calendar days have consecutive day numbers. This holds across month, February and year ends, so the date arithmetic of `date.getDate() - date.getDay()` is day arithmetic. |
| Calendar.WeekdayNextDay | src/App.js:192 | The weekday advances by one modulo 7 from each day to the next, as `getDay` does. |
| Calendar.Weekday | src/App.js:192 | The weekday lies in 0..6. |
| Calendar.WeekStart | src/App.js:192 | The week start is a Sunday, lies in the seven days ending at the date, and is the date itself when that is a Sunday. |
| Calendar.WeekStartUnique | src/App.js:192 | Only one Sunday lies in the seven days ending at a date, so the week start is determined. |
| Calendar.SameWeekSameStart | src/App.js:192-193 | Every day of one Sunday-to-Saturday week has the same week start. |
| Calendar.MonthIndexInjective | src/App.js:199 | Two dates share a month index exactly when they share year and month. |
| Calendar.MonthIndexOrder | src/App.js:199 | Month indexes order dates by (year, month), so sorting them is chronological. |
| Calendar.DayNumber | src/App.js:192 | Definition: days since 1970-01-01 by the shifted-year method. Partner lemmas: `Calendar.DayNumberNextDay`, `Calendar.DayNumberEpoch`. |
| Calendar.MonthIndex | src/App.js:199 | Definition: `year * 12 + month - 1`, the number the `YYYY-MM` key stands for. Partner lemmas: `Calendar.MonthIndexInjective`, `Calendar.MonthIndexOrder`. |
| Calendar.DayNumberEpoch | src/App.js:192 | Day numbering is anchored to the real calendar: 1970-01-01 is day 0, a Thursday, and weekday 0 falls on real Sundays (2000-01-02, 2025-08-03). With `Calendar.WeekdayNextDay` this makes weekday 0 Sunday on every date, as `getDay` has it. |
| Ledger.FilterMembers | src/App.js:107-108 | `filter` keeps exactly the records that satisfy its predicate. |
| Ledger.FilterConcat | src/App.js:99 | Filtering a concatenation filters each part and keeps the parts in order. |
| Ledger.SumPartition | src/App.js:114-117 | A sum splits into the records that satisfy a predicate and those that do not. |
| Ledger.Sum | src/App.js:110 | Definition: `reduce((sum, e) => sum + w(e), 0)`, a left fold over the list. Partner lemmas: `Ledger.SumSnoc`, `Ledger.SumConcat`, `Ledger.SumPartition`. |
| Ledger.Filter | src/App.js:107 | `filter` never lengthens the list. Definition: the records that satisfy the predicate, in order. Partner lemmas: `Ledger.FilterMembers`, `Ledger.FilterConcat`. |
| Totals.FuelRecords | src/App.js:107 | Definition: `fuelExpenses`, the "Car - Fuel" records; also the fuel chart's records (`src/App.js:183`). Partner lemmas: `Charts.AllFuelTalliesSum`, `Charts.FuelRecordInOneBucket`. |
| Totals.CreditRecords | src/App.js:108 | Definition: `fuelReimbursements`, the "Fuel Reimbursement" records; also the fuel chart's credits (`src/App.js:184`). Partner lemmas: `Charts.AllFuelTalliesSum`, `Charts.FuelRecordInOneBucket`. |
| Totals.GroceryExpenses | src/App.js:136-138 | Definition: the grocery-group records (Groceries, Dining, Small Shop); also the grocery chart's records (`src/App.js:252-254`). Partner lemmas: `Totals.GroceryTotalSplits`, `Totals.GrocerySumAfterAdd`. |
| Totals.CarExpenses | src/App.js:157-159 | Definition: the car records (Car - Fuel, Car - Maintenance). Partner lemmas: `Totals.CarSpentSplits`, `Totals.CarNetAfterAdd`. |
| Totals.TotalCarSpent | src/App.js:160 | Definition: the sum of the car records' amounts. Partner lemmas: `Totals.CarSpentSplits`, `Totals.CarNetExample`. |
| Totals.TotalCarReimbursements | src/App.js:161 | Definition: the sum of the car records' reimbursement amounts, a missing one read as 0. Partner lemmas: `Totals.CarSpentSplits`, `Totals.CarNetAfterAdd`. |
| Totals.TotalFuelSpent | src/App.js:107-110 | Definition: the sum of the amounts of the "Car - Fuel" records. Partner lemma: `Charts.AllFuelTalliesSum`. |
| Totals.TotalFuelReimbursements | src/App.js:108-111 | Definition: the sum of the amounts of the "Fuel Reimbursement" records. Partner lemmas: `Charts.AllFuelTalliesSum`, `Totals.CarNetAfterAdd`. |
| Totals.TotalReimbursements | src/App.js:114 | Definition: the sum of every record's reimbursement amount, a missing one read as 0. Partner lemma: `Totals.NetWithoutCredits`. |
| Totals.NetExpenses | src/App.js:115-117 | Definition: signed amounts (the `Signed` weight, which negates a fuel reimbursement as `src/App.js:116` does) less all reimbursement amounts. Partner lemmas: `Totals.NetExpensesRule`, `Totals.NetAfterAdd`, `Totals.NetAfterDelete`. |
| Totals.MonthlyExpenses | src/App.js:119-133 | Definition: the signed sum, less the reimbursement sum, over the records of today's month and year. Partner lemmas: `Totals.MonthlyIsNetOfMonth`, `Totals.MonthlyAfterAdd`. |
| Totals.TotalGrocerySpent | src/App.js:136-139 | Definition: the sum of the amounts of the grocery-group records. Partner lemmas: `Totals.GroceryTotalSplits`, `Charts.AllGroceryTalliesSum`. |
| Totals.WeeklyGroceryExpenses | src/App.js:141-146 | Definition: the grocery-group sum over records dated on or after the Sunday of today's week. Partner lemma: `Totals.WeeklyGroceryAfterAdd`. |
| Totals.MonthlyGroceryExpenses | src/App.js:148-154 | Definition: the grocery-group sum over records of today's month and year. Partner lemma: `Totals.MonthlyGroceryAfterAdd`. |
| Totals.NetCarExpenses | src/App.js:156-162 | Definition: car spending less the car records' reimbursements less the fuel reimbursements. Partner lemmas: `Totals.CarSpentSplits`, `Totals.CarNetAfterAdd`, `Totals.CarNetExample`. |
| Totals.DisplayedCarReimbursements | src/App.js:419 | Definition: the car records' reimbursements plus the fuel reimbursements, as the car card shows. Partner lemmas: `Totals.CarSpentSplits`, `Totals.CarNetExample`. |
| Totals.NetExpensesRule | src/App.js:114-117 | The overall net is what non-credit records cost, less the fuel reimbursements received, less every record's reimbursement amount. |
| Totals.NetWithoutCredits | src/App.js:114-117 | Without fuel reimbursements, the amounts add up to the reimbursements received plus the net. |
| Totals.NetAfterAdd | src/App.js:113-117 | Putting a record in front of the list changes the net by its signed amount less its reimbursement. |
| Totals.NetAfterDelete | src/App.js:113-117 | The net is the net of what a delete keeps plus the net of what it removes. |
| Totals.MonthlyIsNetOfMonth | src/App.js:119-133 | This month's figure is the overall net rule applied to the month's records only. |
| Totals.MonthlyAfterAdd | src/App.js:119-133 | Adding a record changes this month's figure by its net exactly when it is dated in today's month and year; otherwise the figure is unchanged. |
| Totals.GrocerySumAfterAdd | src/App.js:136-139 | Adding a record raises any filtered grocery sum by its amount exactly when it is a grocery-group record that passes the filter. |
| Totals.WeeklyGroceryAfterAdd | src/App.js:141-146 | Adding a record raises this week's grocery figure exactly when it is a grocery-group record dated on or after this week's Sunday. |
| Totals.MonthlyGroceryAfterAdd | src/App.js:148-154 | Adding a record raises this month's grocery figure exactly when it is a grocery-group record of today's month and year. |
| Totals.GroceryTotalSplits | src/App.js:136-139 | Grocery spending is groceries plus dining plus small-shop spending. |
| Totals.CarSpentSplits | src/App.js:157-162 | Car spending equals the car net plus the reimbursements shown beside it: the car records' own reimbursements plus the fuel reimbursements. |
| Totals.CarNetAfterAdd | src/App.js:157-162 | A car record raises the car net by its amount less its reimbursement, a fuel reimbursement lowers it by its amount, and any other record leaves it unchanged. |
| Totals.NetIsCarNetForCarRecords | src/App.js:113-162 | On car records and plain fuel reimbursements, the overall net and the car net agree. |
| Totals.CarNetExample | src/App.js:157-162 | A 100.00 fuel purchase reimbursed 20.00, plus a 30.00 fuel reimbursement, gives a car net of 50.00 and 50.00 shown as car reimbursements. |
| Totals.CategorySummary | src/App.js:166-177 | A category's summary carries its name, net = total − reimbursements, and the credit flag exactly for the fuel-reimbursement category. An empty category has zero totals. |
| Totals.Breakdown | src/App.js:165-178 | The breakdown has no more rows than categories. Every row is the summary of one of the listed categories and has a positive count. |
| Totals.CategoryTotals | src/App.js:165-178 | Definition: the breakdown over the six categories in display order. Partner lemma: `Totals.CategoryTotalsProperties`. |
| Totals.BreakdownOrder | src/App.js:165-178 | The breakdown's categories are the category list with some left out, in list order. |
| Totals.BreakdownComplete | src/App.js:165-178 | A listed category's summary appears exactly when some record has that category. |
| Totals.BreakdownSum | src/App.js:165-178 | For distinct categories, the breakdown's totals add up to the spending in those categories. |
| Totals.BreakdownSumAcross | src/App.js:165-178 | The breakdown's totals add up to the per-category sums over the category list. |
| Totals.CategoryTotalsProperties | src/App.js:165-178 | For the tracker's six categories: the rows are in display order, a category appears exactly when it has records, and the totals add up to the spending in the six categories. |
| Charts.WeeklyBucket | src/App.js:192-193 | A weekly key is a Sunday on or before the date and less than seven days before it; a Sunday is its own key. Two dates share a key exactly when the second lies in the week the first one's key starts. |
| Charts.WeeklyBucketMonotone | src/App.js:192-193 | A later date never gets an earlier weekly key. |
| Charts.MonthlyBucket | src/App.js:199 | Two dates share a monthly key exactly when they share year and month, and keys order as (year, month). |
| Charts.PeriodKey | src/App.js:191-204 | Definition: the weekly key is the day number of the Sunday on or before the date, and the monthly key is the month index. Partner lemmas: `Charts.WeeklyBucket`, `Charts.WeeklyBucketMonotone`, `Charts.MonthlyBucket`. |
| Charts.Limit | src/App.js:238 | Definition: 8 buckets for weeks and 6 for months, the `slice(-8)` / `slice(-6)` of `src/App.js:238` and `src/App.js:297`. Partner lemmas: `Charts.FuelChartLength`, `Charts.GroceryChartLength`. |
| Charts.Insert | src/App.js:241 | Inserting a new key into sorted keys keeps them sorted and adds just that key. |
| Charts.Sort | src/App.js:241 | Sorting distinct keys gives the same keys, strictly ascending. |
| Charts.TakeLast | src/App.js:242 | Definition: `slice(-n)`, the last n elements, or all of them when there are fewer. Partner lemmas: `Charts.TrimmedFuelShape`, `Charts.TrimmedGroceryShape`, `Charts.FuelChartLength`, `Charts.GroceryChartLength`. |
| Charts.KeysInOrder | src/App.js:206-207 | Every record's key is among the dictionary's keys. |
| Charts.KeysInOrderFromRecords | src/App.js:206-207 | Every dictionary key is the key of some record, so a bucket is opened only for a record. Together with `Charts.KeysInOrder`, the keys are exactly the records' keys. |
| Charts.KeysInOrderDistinct | src/App.js:206-207 | The dictionary holds no key twice. |
| Charts.KeysInOrderSnoc | src/App.js:206-207 | Proof helper (the defining step of `KeysInOrder` at `xs + [e]`): a record opens a new key exactly when its key has not been seen, and the new key goes last. |
| Charts.KeySumSnoc | src/App.js:209 | Proof helper (the defining step of `KeySum` at `xs + [e]`): one more record adds its amount to its own bucket and to no other. |
| Charts.KeyCategorySumSnoc | src/App.js:287-294 | Proof helper (the defining step of `KeyCategorySum` at `xs + [e]`): one more record adds its amount to its own bucket's part for its category and to nothing else. |
| Charts.KeySumIsFilterSum | src/App.js:209 | A bucket's total equals the sum that filtering the records by that key would give. |
| Charts.TallyFuel | src/App.js:187-210 | The fuel loop leaves the dictionary the fold of its step over all fuel records. |
| Charts.TallyCredits | src/App.js:213-236 | The reimbursement loop leaves the dictionary the fold of its step over all fuel reimbursements, starting from the fuel loop's result. |
| Charts.FuelStep | src/App.js:206-209 | One fuel step keeps the dictionary holding one bucket per key seen, each with the sum of its fuel amounts. |
| Charts.CreditStep | src/App.js:232-235 | One reimbursement step keeps every bucket holding its fuel sum and its reimbursement sum, opening buckets for new periods. |
| Charts.OpenFuelBucket | src/App.js:206-208 | The bucket of the key is present afterwards: `if (!periods[periodKey]) periods[periodKey] = {...}`, shared by both loops (`src/App.js:232-234`). Partner lemmas: `Charts.FuelStep`, `Charts.CreditStep`. |
| Charts.AddFuel | src/App.js:206-209 | Definition of one fuel step: open the bucket if its key is new (appending the key), then add the amount to its total. Partner lemma: `Charts.FuelStep`; `Charts.TallyFuel` is proved equal to its fold. |
| Charts.AddCredit | src/App.js:232-235 | Definition of one reimbursement step: open the bucket if its key is new, then add the amount to its direct reimbursements. Partner lemma: `Charts.CreditStep`; `Charts.TallyCredits` is proved equal to its fold. |
| Charts.AddAllFuelHolds | src/App.js:187-210 | After the fuel loop, every bucket holds the fuel spent in its period. |
| Charts.AddAllCreditsHolds | src/App.js:213-236 | After the reimbursement loop, every bucket also holds the reimbursements received in its period. |
| Charts.FuelDictGivesChart | src/App.js:240-241 | The two loops' dictionary has distinct keys, and its values in ascending key order are the per-period fuel tallies. |
| Charts.FuelTalliesFromMap | src/App.js:240-241 | Reading a dictionary of correct tallies at the sorted keys gives the tallies of those keys. |
| Charts.FuelTalliesSums | src/App.js:206-235 | The buckets' totals add up to the fuel amounts of their periods, and their direct reimbursements to the reimbursement amounts. |
| Charts.AllFuelTalliesPeriods | src/App.js:240-241 | The sorted buckets carry the ascending keys, one each. |
| Charts.AllFuelTalliesSorted | src/App.js:241 | The sorted buckets' periods strictly increase. |
| Charts.AllFuelTalliesSum | src/App.js:206-235 | Before trimming, the bucket totals add up to all fuel spent and the direct reimbursements to all fuel reimbursements. |
| Charts.FuelRecordInOneBucket | src/App.js:206-235 | Every fuel record and every fuel reimbursement falls in exactly one bucket. |
| Charts.AllFuelTalliesFromRecords | src/App.js:206-207 | Every bucket, before trimming, is the period of some fuel record or fuel reimbursement. |
| Charts.FuelChartFromRecords | src/App.js:232-246 | Every bar of the fuel chart is the period of some fuel record or fuel reimbursement: no bar is empty of records. |
| Charts.WithNet | src/App.js:243-246 | Definition: a chart bar is its bucket's fields plus net = total − direct reimbursements. Partner lemmas: `Charts.TrimmedFuelShape`, `Charts.FuelChartShape`. |
| Charts.WithNets | src/App.js:243-246 | Definition: the `.map` that turns every bucket into its bar, in order. Partner lemmas: `Charts.TrimmedFuelShape`, `Charts.FuelChartShape`. |
| Charts.TrimmedFuelShape | src/App.js:238-246 | Trimmed sorted buckets stay sorted, are the last ones of the untrimmed list, and each carries its net. |
| Charts.FuelChartShape | src/App.js:238-246 | The fuel chart is the suffix of all buckets, sorted, each bar with net = total − direct reimbursements. |
| Charts.FuelChart | src/App.js:238-246 | Definition: every bucket, sorted by period, trimmed to the last `Limit(p)`, each with its net added. Partner lemmas: `Charts.FuelDictGivesChart`, `Charts.FuelChartShape`, `Charts.FuelChartFromRecords`. |
| Charts.FuelChartData | src/App.js:181-247 | `getFuelChartData` returns the fuel chart: at most 8 weekly or 6 monthly bars, ascending, each with its net. |
| Charts.FuelChartLength | src/App.js:238-242 | The fuel chart has one bar per period, up to the last `Limit(p)` periods: exactly `min(periods, Limit(p))` bars. |
| Charts.ValuesAt | src/App.js:240 | Definition: the dictionary's values read at the given keys, in that order. Partner lemmas: `Charts.FuelDictGivesChart`, `Charts.GroceryDictGivesChart`. |
| Charts.AddToBucket | src/App.js:287-294 | Adding a record to a grocery bucket keeps its period and raises its total by the record's amount. |
| Charts.GroceryStep | src/App.js:276-294 | One grocery step keeps every bucket holding the sums of its records, by category and in total. |
| Charts.AddGrocery | src/App.js:276-294 | Definition of one grocery step: open the bucket if its key is new, then add the amount to the part of its category and to the total. Partner lemma: `Charts.GroceryStep`; `Charts.TallyGroceries` is proved equal to its fold. |
| Charts.AddAllGroceriesHolds | src/App.js:257-295 | After the loop, every bucket holds the sums of its period's records. |
| Charts.TallyGroceries | src/App.js:257-295 | The grocery loop leaves the dictionary the fold of its step over all grocery-group records. |
| Charts.GroceryDictGivesChart | src/App.js:299-300 | The loop's dictionary has distinct keys, and its values in ascending key order are the per-period grocery tallies. |
| Charts.GroceryTalliesFromMap | src/App.js:299-300 | Reading a dictionary of correct tallies at the sorted keys gives the tallies of those keys. |
| Charts.BucketAddsUp | src/App.js:287-294 | In a bucket of grocery-group records, the total is groceries + dining + small shop. |
| Charts.GroceryTalliesSum | src/App.js:294 | The buckets' totals add up to the amounts of their periods. |
| Charts.AllGroceryTalliesSum | src/App.js:287-294 | Before trimming, the grocery bucket totals add up to all grocery-group spending. |
| Charts.AllGroceryTalliesPeriods | src/App.js:299-300 | The sorted grocery buckets carry the ascending keys, one each. |
| Charts.AllGroceryTalliesSorted | src/App.js:300 | The sorted grocery buckets' periods strictly increase. |
| Charts.AllGroceryTalliesAddUp | src/App.js:287-294 | In every grocery bucket, the total is the sum of the three parts. |
| Charts.AllGroceryTalliesFromRecords | src/App.js:276-285 | Every grocery bucket, before trimming, is the period of some grocery-group record. |
| Charts.GroceryChartFromRecords | src/App.js:276-301 | Every bucket of the grocery chart is the period of some grocery-group record: no bucket is empty of records. |
| Charts.TrimmedGroceryShape | src/App.js:297-301 | Trimmed sorted buckets stay sorted, are the last ones of the untrimmed list, and still add up. |
| Charts.GroceryChartShape | src/App.js:297-301 | The grocery chart is the suffix of all buckets, which keeps the latest ones, sorted, with each total the sum of its parts. |
| Charts.GroceryChart | src/App.js:297-301 | Definition: every grocery bucket, sorted by period, trimmed to the last `Limit(p)`. Partner lemmas: `Charts.GroceryDictGivesChart`, `Charts.GroceryChartShape`, `Charts.GroceryChartFromRecords`. |
| Charts.GroceryChartData | src/App.js:250-302 | `getGroceryChartData` returns the grocery chart: at most 8 weekly or 6 monthly buckets, ascending, each total the sum of its three parts. |
| Charts.GroceryChartLength | src/App.js:297-301 | The grocery chart has one bucket per period, up to the last `Limit(p)` periods: exactly `min(periods, Limit(p))` buckets. |
| Tracker.BlankForm | src/App.js:77-84 | Definition: the reset form, with blank fields, today's date and no reimbursement flag. Partner: `Tracker.ExpenseTracker.AddExpense`, `Tracker.ExpenseTracker.constructor`. |
| Tracker.NewExpense | src/App.js:54-62 | Definition: the draft an add sends, or none when a required field is blank; a blank reimbursement is sent as 0. Partners: `Tracker.ExpenseTracker.AddExpense` states this promise in terms of the form, and `Tracker.NetAfterSavedAdd` gives its effect on the net. |
| Tracker.Saved | app.py:67-80 | Definition: the record the store keeps and echoes for a draft, under a new id. Partners: `Tracker.NetAfterSavedAdd`, `Tracker.AddThenDelete`. |
| Tracker.Delete | src/App.js:99 | A delete keeps exactly the records whose id differs, and never lengthens the list. |
| Tracker.DeleteCons | src/App.js:99 | A delete keeps a front record exactly when its id differs, and deletes from the rest. |
| Tracker.DeleteConcat | src/App.js:99 | A delete keeps the surviving records in their order. |
| Tracker.DeleteMissing | src/App.js:99 | Deleting an id that no record carries leaves the list as it was. |
| Tracker.DeleteCount | src/App.js:99 | A delete removes exactly the records carrying the id: what it keeps and what carries the id add up to the whole list. |
| Tracker.AddThenDelete | src/App.js:76-99 | Adding a record under a fresh id and then deleting that id gives back the list from before. |
| Tracker.NetAfterSavedAdd | src/App.js:54-62 | A saved add raises the net by the typed amount, negated for a fuel reimbursement, less the typed reimbursement (0 when blank). |
| Tracker.ExpenseTracker.constructor | src/App.js:6-15 | The tracker starts with no records and a blank form dated today. |
| Tracker.ExpenseTracker.AddExpense | src/App.js:53-89 | An add sends nothing exactly when the old form's description, amount or category is blank. Otherwise it sends the form's fields, with a blank reimbursement sent as 0. With a draft and a reply, the reply goes in front of the old list and the form is reset; otherwise the list and the form are unchanged. |
| Tracker.ExpenseTracker.DeleteExpense | src/App.js:92-104 | On a confirmed delete, the list becomes the delete of its old value; otherwise it is unchanged. The form never changes. |

## Left out

- The rendered page (`src/App.js:307-828`): cards, tables, the chart components, the toggle buttons and the display
  modes. Only the card at `src/App.js:419` is modelled, as `DisplayedCarReimbursements`.
- The network calls (`src/App.js:36-50`, `src/App.js:65-75`, `src/App.js:94-97`): the initial load, the POST and the
  DELETE, with their error handling. The loaded list is the `expenses` field or the list argument. The store's replies
  are parameters of `AddExpense` and `DeleteExpense`.
- The back end (`app.py`) and the styling configuration (`tailwind.config.js`): they hold no logic of the figures.
- Bucket labels (`periodLabel`, `toLocaleDateString`): display text only.
- Time zones: `new Date(...)` parses a `YYYY-MM-DD` string as midnight UTC but reads its fields in local time, and
  `toISOString` writes a local midnight back as UTC. In zones away from UTC, this can shift a date or a week key by one
  day. The model uses naive calendar dates throughout.
- Number parsing and formatting (`parseFloat`, `toFixed`): floats, `NaN` and rounding are not modelled. Amounts are
  integer pence and a blank field is `None`.
- `Tracker.ExpenseTracker.AddExpense`, `Tracker.ExpenseTracker.DeleteExpense`: each reply is applied to the list as it
  is when the reply arrives. In the code the handlers write back `[savedExpense, ...expenses]` and
  `expenses.filter(...)` over the list that the render's closure captured before the `await` (`src/App.js:76`,
  `src/App.js:99`). The model therefore does not capture lost updates across overlapping requests. Two deletes answered
  before a re-render bring the first deleted record back, and an add pending across a delete undoes that delete.
- `Tracker.NewExpense`: an amount that does not parse as a number is not distinguished from a present one. JavaScript
  would send `NaN`.
- Record dates are assumed to be valid calendar dates. `Expense.date` is any (year, month, day) triple, and no member
  requires `ValidDate` of it. In the code, a blank or malformed date becomes an Invalid Date. Such a record drops out of
  the month and week figures, because its comparisons are false (`src/App.js:120-124`, `src/App.js:145`). In the chart
  builders, `toISOString()` throws on it (`src/App.js:193`, `src/App.js:219`, `src/App.js:263`). The model instead
  computes a key from the fields as they stand, so `Date(2025, 13, 1)` gets the monthly key of 2026-01.
- `isReimbursement` is carried on records and in the form, but no figure reads it, so no lemma is about it.
- The `id` of a record is a string; JavaScript's `!==` on mixed number/string ids is not modelled.
