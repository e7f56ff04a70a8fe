# Pocket-Mate core, modelled in Dafny

Pocket-Mate is a personal-finance web app. Users keep accounts, book
income and expense transactions against them, set a monthly budget, and
receive e-mails: a budget alert and a monthly report. This project models
the parts of the app that compute, decide or change the ledger.

- **Recurring engine** (`RecurrenceEngine`). A daily scan finds recurring
  definitions that are due and emits one event per definition. Each event
  then books one occurrence, moves the account balance and advances the
  definition's next date.
- **Budget monitor** (`BudgetMonitor`). Sums this month's expenses on the
  default account, decides whether to send an alert (80 % used, at most
  once per calendar month) and records when it sent one.
- **Monthly report** (`MonthlyReport`). Per-month statistics, the
  month-over-month comparison, the six-month trend, the chart data, the
  insights fallback and the report job over all users.
- **Ledger actions** (`TransactionActions`, `MonthlyStatsActions`). Create
  and update a transaction (balance writes and rollback on error), receipt
  scanning, and the dashboard's monthly sums.
- **Validators and tables** (`AccountSchema`, `ImageUtils`, `Categories`,
  `Currency`). The account form schema, the client image check, the
  default category table with its colour map, and the currency symbol.
- **E-mail arithmetic** (`EmailTemplate`). Percentage text, colour bands,
  remaining amount and the financial health score.
- **Client state machines** (`Goals`, `UseFetch`). The goals list hook and
  the generic fetch hook, as classes whose fields the methods update.

Shared pieces:
- `Ledger` holds the tables (users, accounts, transactions, budgets) as
  sequences of rows in insertion order. Its class `Store` performs the
  database writes. Operations are specified as functions on a `Db` value.
  Each method that changes the `Store` ensures its new snapshot equals that
  function applied to the old snapshot.
- `Dates` models the JavaScript `Date` arithmetic the code relies on,
  including day overflow (`setMonth` on the 31st) and
  `new Date(y, m + 1, 0)` for the last day of a month.
- `JsNumbers` models division by zero (`Infinity`, `NaN`), `Math.round`
  and `toFixed`.

Amounts are whole minor units (`int`, cents). A Prisma decimal's
`toNumber()` is that integer over 100. The current time, the
authenticated Clerk user id, and the replies of the generative model are
parameters.

Two lines of the recurring-transaction job disagree with the code around
them. The scan emits events keyed `transactionID`
(lib/inngest/function.js:118), while the handler that consumes them
reads `event.data.transactionId` (lib/inngest/function.js:137). The
handler books an occurrence with `db.transaction(async (tx) => …)`
(lib/inngest/function.js:152), while the same file uses `db.transaction`
as the transaction model delegate (`findMany` at line 102, `findUnique`
at line 142) and actions/transaction.js:37 books atomically with
`db.$transaction`. The model follows the code as written and records
both under "## Findings", each with a corrected variant.

## Model

| member | source | states |
|---|---|---|
| Dates.DaysInMonth | lib/inngest/function.js:307 | the day `new Date(y, m + 1, 0)` lands on: 28 to 31, and 29 exactly in February of a leap year |
| Dates.MakeDate | lib/inngest/function.js:306-307 | `new Date(y, m, d)` normalises any month and day into a valid date at the given time |
| Dates.MonthStart | lib/inngest/function.js:306 | the first of a month at midnight is a valid date |
| Dates.MonthWindowEndIsLastDay | lib/inngest/function.js:307 | the query's end date is midnight of the month's last day |
| Dates.InMonthWindowIff | actions/monthlyStats.js:17-36 | a date lies in a month's `gte`/`lte` window iff it is in that month and not after midnight of its last day |
| Dates.AddDaysIsLater | lib/inngest/function.js:201-206 | a daily or weekly `setDate` step yields a strictly later date |
| Dates.AddMonthsIsLater | lib/inngest/function.js:207-209 | a monthly `setMonth` step yields a strictly later date, overflow included |
| Dates.AddYearsIsLater | lib/inngest/function.js:210-212 | a yearly `setFullYear` step yields a strictly later date |
| Dates.MonthlyStepOverflows | lib/inngest/function.js:207-209 | 31 January plus a month is 2 March in a leap year and 3 March otherwise |
| Dates.WeeklyAndDailySteps | lib/inngest/function.js:201-206 | a weekly step inside a month and a daily step across a year end |
| Dates.YearlyStepFromLeapDay | lib/inngest/function.js:210-212 | 29 February plus a year is 1 March |
| JsNumbers.Divide | lib/inngest/function.js:53 | JavaScript division: the quotient for a non-zero divisor; Infinity for a positive dividend over 0; NaN for 0/0 |
| JsNumbers.MathRound | emails/template.jsx:415 | `Math.round`: the integer within half a unit, halves rounding up |
| JsNumbers.RoundToTenth | emails/template.jsx:200-202 | `toFixed(1)` lies within 0.05 of its argument |
| JsNumbers.RoundToWhole | emails/template.jsx:386 | `toFixed(0)` lies within 0.5 of its argument |
| JsNumbers.RoundToTenthAtLeast | emails/template.jsx:486-491 | a rounded percentage reaches a one-decimal threshold iff the unrounded value reaches it less 0.05 |
| Ledger.SignedAmount | lib/inngest/function.js:165-168 | the balance change of a row: minus the amount for EXPENSE, the amount otherwise |
| Ledger.FindTransaction | actions/transaction.js:212-222 | `findUnique({id, userId})`: the first row with that id and owner, or none exists |
| Ledger.FindAccount | lib/inngest/function.js:147-149 | the included account: the row with that id, or none exists |
| Ledger.FindOwnedAccount | actions/transaction.js:26-32 | `findUnique({id, userId})` on accounts: a row with that id and owner, or none exists |
| Ledger.FindDefaultAccount | lib/inngest/function.js:12-30 | `user.accounts[0]` under `isDefault: true`: the user's first default account, or none exists |
| Ledger.FindUser | lib/inngest/function.js:13-25 | the user a budget includes: the row with that id, or none exists |
| Ledger.FindUserByClerkId | actions/transaction.js:20-23 | `findUnique({clerkUserId})`: a row with that Clerk id, or none exists |
| Ledger.SignedInUser | actions/transaction.js:18-24 | a user results iff the Clerk id is non-empty and on file; otherwise the unauthenticated message, or "User not found" |
| Ledger.Store.InsertTransaction | actions/transaction.js:38-53 | `transaction.create` appends the row under the next id and changes no other table |
| Ledger.Store.UpdateTransaction | actions/transaction.js:256-272 | `transaction.update` replaces one row and nothing else |
| Ledger.Store.SetBalance | actions/transaction.js:239-253 | `account.update` with an absolute balance changes only that account's balance |
| Ledger.Store.IncrementBalance | lib/inngest/function.js:170-173 | `balance: { increment }` adds to that account's balance only |
| Ledger.Store.SetLastAlertSent | lib/inngest/function.js:77-80 | `budget.update` sets only that budget's `lastAlertSent` |
| RecurrenceEngine.NextRecurringDate | lib/inngest/function.js:198-215 | a valid date; an unknown or null interval returns the date unchanged |
| RecurrenceEngine.NextRecurringDateIsLater | lib/inngest/function.js:198-215 | each of the four intervals moves the date strictly forward |
| RecurrenceEngine.BeforeIsIrreflexiveAndAsymmetric | lib/inngest/function.js:195 | a strictly later next date is not yet due (`nextDue <= today` fails) |
| RecurrenceEngine.ScanMatchIsDue | lib/inngest/function.js:102-111 | every row the scan selects passes `isTransactionDue` |
| RecurrenceEngine.NullNextDateIsDueButNotScanned | lib/inngest/function.js:191-196 | a processed row with a null next date is due (`new Date(null)` is the epoch) but the scan never selects it |
| RecurrenceEngine.DueScan | lib/inngest/function.js:102-111 | a row is selected iff it is recurring, COMPLETED, and unprocessed or due by now |
| RecurrenceEngine.EventsFor | lib/inngest/function.js:116-119 | one event per selected row, named `transaction.recurring.process`, carrying its id and user |
| RecurrenceEngine.TriggerEvents | lib/inngest/function.js:116-119 | as written: one event per due row, none with a `transactionId` key |
| RecurrenceEngine.TriggerEventsCorrected | lib/inngest/function.js:116-119 | corrected: each event carries the due row's id under `transactionId` and its user |
| RecurrenceEngine.ProcessRecurringTransaction | lib/inngest/function.js:127-189 | corrected (atomic booking in place of `db.transaction(...)`): the handler's writes on the store are exactly `ProcessEvent` of the old state |
| RecurrenceEngine.ProcessStepAsWritten | lib/inngest/function.js:140-152 | as written: the ledger is unchanged and the outcome is only ever skipped or failed |
| RecurrenceEngine.ApplyEffects | lib/inngest/function.js:152-185 | one booking appends the occurrence and advances the definition; only the definition's account moves, by the signed amount; users and budgets stay |
| RecurrenceEngine.OccurrenceIsNotScanned | lib/inngest/function.js:153-164 | the occurrence copies type, amount, category, user and account, adds " (Recurring)", and is never itself scanned |
| RecurrenceEngine.ProcessStepNoOp | lib/inngest/function.js:141-151 | nothing changes unless an occurrence is booked; the step skips iff the row is missing or not due |
| RecurrenceEngine.FindAfterApply | lib/inngest/function.js:142-151 | after a booking the definition is still found at the same row |
| RecurrenceEngine.SecondStepIsNoOp | lib/inngest/function.js:151 | re-delivering the same event on the same day books nothing (idempotent re-check) |
| RecurrenceEngine.UnknownIntervalBooksAgain | lib/inngest/function.js:180-183 | with an unknown interval the next date stays at now, so a redelivery books again |
| RecurrenceEngine.AdvancedLeavesScan | lib/inngest/function.js:176-185 | an advanced definition leaves the scan now and re-enters it on its next date |
| RecurrenceEngine.ApplyKeepsDrift | lib/inngest/function.js:152-185 | a booking keeps every account's balance minus its rows' net effect unchanged |
| RecurrenceEngine.ProcessStepKeepsDrift | lib/inngest/function.js:136-188 | a whole step keeps the table invariant and every account's drift |
| RecurrenceEngine.ApplyKeepsValid | lib/inngest/function.js:152-185 | a booking keeps ids unique and below the next id |
| RecurrenceEngine.AsWrittenEventsAreRejected | lib/inngest/function.js:116-119 | every event the as-written trigger sends is rejected with "Missing required event data" and changes nothing |
| RecurrenceEngine.AsWrittenStepNeverBooks | lib/inngest/function.js:152 | as written the step never changes the ledger; it fails exactly where the atomic step would book or fail |
| RecurrenceEngine.CorrectedEventIsBooked | lib/inngest/function.js:137-186 | with corrected events every due row whose account exists is booked |
| BudgetMonitor.BudgetWindowStart | lib/inngest/function.js:33-34 | `setDate(1)` keeps the time of day: the window opens on the 1st at the current time |
| BudgetMonitor.ThresholdReached | lib/inngest/function.js:53-57 | with a positive budget, 80 % is reached iff 100 × expenses ≥ 80 × budget; a zero budget alerts iff expenses are positive |
| BudgetMonitor.WholeUnits | lib/inngest/function.js:69-70 | `parseInt` keeps whole units, truncating toward zero |
| BudgetMonitor.CheckBudget | lib/inngest/function.js:28-81 | one budget: only its `lastAlertSent` may change, set to now exactly when an alert is sent |
| BudgetMonitor.AlertContents | lib/inngest/function.js:61-72 | an alert goes to the owner's e-mail, names the default account, has the subject "Budget Alert for" that name, and carries the percentage used and the budget and expenses in whole units |
| BudgetMonitor.AlertIff | lib/inngest/function.js:56-60 | an alert is sent iff a default account exists, 80 % is reached, and the last alert is absent or in another month |
| BudgetMonitor.CheckBudgetsFrom | lib/inngest/function.js:28-84 | the loop over budgets keeps the transactions, the accounts and the number of budgets |
| BudgetMonitor.CheckBudgetLocal | lib/inngest/function.js:32-60 | one budget's check reads only its own row and the users, accounts and transactions |
| BudgetMonitor.RunFrom | lib/inngest/function.js:28-84 | checking rows `i..` gives the concatenated per-row alerts, keeps rows before `i` and leaves each later row as its own check does |
| BudgetMonitor.RunSpec | lib/inngest/function.js:28-84 | a whole run changes only `lastAlertSent` fields: every budget row ends as its own check leaves it, and the alerts are the rows' own alerts in table order |
| BudgetMonitor.AlertsFromHolds | lib/inngest/function.js:56-80 | every budget whose own check alerts has its alert among the run's alerts |
| BudgetMonitor.CheckBudgetAlerts | lib/inngest/function.js:8-85 | the job's writes and alerts are exactly `CheckBudgetsFrom` of the old state |
| BudgetMonitor.CheckOneBudget | lib/inngest/function.js:32-81 | one step's writes and alert are exactly `CheckBudget` of the old state |
| BudgetMonitor.JobRuns | lib/inngest/function.js:10 | repeated six-hourly runs of the whole job keep the number of budgets; a budget alerts at most once per run |
| BudgetMonitor.QuietAfterAlert | lib/inngest/function.js:58-59 | after an alert, no run of the job in the same calendar month alerts that budget again |
| BudgetMonitor.AtMostOneAlertPerMonth | lib/inngest/function.js:56-80 | any number of runs of the job within one month send a budget at most one alert, and one if the first run alerts it |
| BudgetMonitor.AlertAgainInNewMonth | lib/inngest/function.js:87-92 | in a new month an over-threshold budget alerts again |
| BudgetMonitor.EarlierOnTheFirstIsNotCounted | lib/inngest/function.js:33-44 | an expense on the 1st before the current time of day is outside the window |
| MonthlyReport.AddToCategory | lib/inngest/function.js:327 | a missing category counts from 0: the keys gain that category and the values' sum grows by the amount |
| MonthlyReport.AddToCategoryUpdates | lib/inngest/function.js:327 | only that category's value changes, by the amount, and the keys stay distinct |
| MonthlyReport.KeysCons | lib/inngest/function.js:345 | the category keys of a prepended entry |
| MonthlyReport.FirstMax | lib/inngest/function.js:344 | the index of the largest total, the first among equals (stable sort) |
| MonthlyReport.SavingsRate | lib/inngest/function.js:342 | 0 without income, otherwise (income − expenses) / income × 100 |
| MonthlyReport.ComputeMonthlyStats | lib/inngest/function.js:322-345 | the reduce loop and the derived metrics compute `StatsOf` of the rows |
| MonthlyReport.FoldIsSums | lib/inngest/function.js:322-339 | the fold's totals are the expense and income sums; per-category totals are the per-category sums; keys are exactly the expense categories |
| MonthlyReport.DistinctKeysCount | lib/inngest/function.js:345 | `Object.keys(byCategory).length` counts distinct categories |
| MonthlyReport.StatsProperties | lib/inngest/function.js:305-348 | totals, per-category sums, net income, transaction count and category count of the month's rows |
| MonthlyReport.MonthTotals | lib/inngest/function.js:305-345 | a month's `totalExpenses` and `netIncome` are the EXPENSE sum and income minus expenses over that month's rows of the user |
| MonthlyReport.NoExpensesMeansNoTopCategory | lib/inngest/function.js:344-345 | without expenses the top category is "None" and the count 0 |
| MonthlyReport.TopCategoryIsLargest | lib/inngest/function.js:344 | the top category has the largest expense sum (or is "None" for an empty name) |
| MonthlyReport.LookupDistinct | lib/inngest/function.js:327 | with distinct keys, a lookup returns that entry's total |
| MonthlyReport.SavingsRateGuard | lib/inngest/function.js:342-343 | the rate is 0 without income and net income over income × 100 otherwise |
| MonthlyReport.MonthRows | lib/inngest/function.js:309-320 | a row is selected iff it is the user's and inside the month window |
| MonthlyReport.LastDayAfterMidnightIsLeftOut | lib/inngest/function.js:307 | a row on the month's last day after midnight is outside the window |
| MonthlyReport.PercentChange | lib/inngest/function.js:361-364 | 0 without a previous total; otherwise the relative change × 100, positive iff it grew |
| MonthlyReport.CompareChanges | lib/inngest/function.js:350-366 | the changes add the previous totals up to the current ones; savings change is income change minus expense change |
| MonthlyReport.TrendMonths | lib/inngest/function.js:369-374 | six months, the j-th being `setMonth(getMonth() - (5 - j))` |
| MonthlyReport.TrendMonthsConsecutive | lib/inngest/function.js:370-373 | from the 1st of a month the six months are consecutive |
| MonthlyReport.TrendMonthsOverflow | lib/inngest/function.js:372 | from 31 March, one month back lands on 2 March |
| MonthlyReport.TrendData | lib/inngest/function.js:368-391 | six entries, one per trend month, the last for the month itself |
| MonthlyReport.Capitalize | lib/inngest/function.js:396 | upper-cases the first letter, keeps the rest and the length |
| MonthlyReport.PercentOf | lib/inngest/function.js:398 | with non-zero expenses, a number within 0.05 of amount / total × 100 |
| MonthlyReport.InsertDesc | lib/inngest/function.js:399 | inserting keeps the multiset plus the new entry |
| MonthlyReport.InsertDescSorted | lib/inngest/function.js:399 | inserting into a descending list keeps it descending |
| MonthlyReport.InsertDescStable | lib/inngest/function.js:399 | inserting into a descending list puts the new entry behind every entry of its own amount |
| MonthlyReport.SortDescStep | lib/inngest/function.js:399 | one insertion step keeps, for every amount, the entries of that amount in their original order |
| MonthlyReport.SortDesc | lib/inngest/function.js:399 | a descending permutation by amount, stable: for every amount, the entries of that amount appear in their original order |
| MonthlyReport.CategoryEntries | lib/inngest/function.js:395-398 | one entry per category: capitalised name, amount, percentage |
| MonthlyReport.TrendPoints | lib/inngest/function.js:402-407 | one point per trend entry with its income, expenses and savings |
| MonthlyReport.ChartCategories | lib/inngest/function.js:395-399 | category data is a descending permutation of the entries; with expenses every percentage is a number |
| MonthlyReport.ChartMatchesStats | lib/inngest/function.js:393-419 | the chart lists `categoryCount` categories and one point per trend entry |
| MonthlyReport.Insights | lib/inngest/function.js:264-303 | the parsed reply, or the four fallback insights when the call or parse fails |
| MonthlyReport.ReportMonth | lib/inngest/function.js:230-231 | `setMonth(getMonth() - 1)` gives a valid date |
| MonthlyReport.ReportMonthIsPrevious | lib/inngest/function.js:221-231 | run on the 1st as scheduled, the report covers the previous month |
| MonthlyReport.GenerateReport | lib/inngest/function.js:229-257 | one step builds exactly the report e-mail `ReportFor` |
| MonthlyReport.GenerateMonthlyReports | lib/inngest/function.js:217-262 | the loop's e-mails are `ReportsFor`: one per user, in table order, the u-th being user u's report; `processed` is the number of users |
| MonthlyStatsActions.GetMonthlySpending | actions/monthlyStats.js:6-49 | the month's expense sum iff a user is signed in and on file; otherwise the one fixed error |
| MonthlyStatsActions.NonNegative | actions/monthlyStats.js:112 | `Math.max(savings, 0)` |
| MonthlyStatsActions.GetMonthlySavings | actions/monthlyStats.js:51-117 | a non-negative result iff signed in and on file; otherwise the one fixed error |
| MonthlyStatsActions.GetMonthlySavingsFromCategory | actions/monthlyStats.js:120-164 | Ok iff signed in and on file, otherwise the one fixed error; the value is `CategoryTotal` of the user's rows in the month window, category "savings", any type, restricted to the account when one is given |
| MonthlyStatsActions.CategoryAggregateMatchesRows | actions/monthlyStats.js:144-159 | the aggregate's `_sum.amount` (0 when nothing matches) equals the category total of the month's rows |
| MonthlyStatsActions.SumExpensesAppend | lib/inngest/function.js:322-339 | expense and income sums distribute over concatenation |
| MonthlyStatsActions.AggregatesMatchMonthlyStats | actions/monthlyStats.js:29-44 | over all accounts, the EXPENSE and INCOME aggregates equal the monthly statistics' totals |
| MonthlyStatsActions.DashboardMatchesReport | actions/monthlyStats.js:6-117 | dashboard spending is the report's `totalExpenses`; savings are its `netIncome` clamped at 0 |
| MonthlyStatsActions.SavingsClamp | actions/monthlyStats.js:106-112 | savings are income − expenses when income covers expenses, else 0 |
| MonthlyStatsActions.AccountFilterSplits | actions/monthlyStats.js:37 | one account's sum is the total less the other accounts' sum |
| TransactionActions.SerializeAmount | actions/transaction.js:9-12 | the serialised amount × 100 is the stored amount |
| TransactionActions.SerializeRoundTrip | actions/transaction.js:9-12 | serialising loses nothing: the row converts back exactly |
| TransactionActions.NextRecurringDateStrict | actions/transaction.js:76-95 | a valid next date, or "Invalid interval" |
| TransactionActions.NextDatesAgree | actions/transaction.js:76-95 | for the four intervals the action's next date equals the engine's; it throws iff the interval is unknown |
| TransactionActions.OrDefault | actions/transaction.js:43 | a string or its fallback: the fallback for absent or empty |
| TransactionActions.OrNull | actions/transaction.js:48 | a string or null: none iff absent or empty |
| TransactionActions.NextDateFor | actions/transaction.js:49-52 | none unless recurring with an interval; otherwise the strict next date, failing iff the interval is unknown |
| TransactionActions.CreateTransaction | actions/transaction.js:16-73 | on error nothing changes and the message carries the creation prefix; on success one row and one id are added |
| TransactionActions.CreateTransactionAction | actions/transaction.js:16-73 | the action's writes and result are exactly `CreateTransaction` of the old state |
| TransactionActions.CreateChecks | actions/transaction.js:18-32 | not signed in, unknown user and foreign account each fail with their message and change nothing |
| TransactionActions.CreateEffects | actions/transaction.js:34-63 | the new row's fields and defaults; only the chosen account moves, by the signed amount |
| TransactionActions.InvalidIntervalRollsBack | actions/transaction.js:37-53 | an unknown interval aborts the database transaction: nothing is written |
| TransactionActions.DefaultStatusIsNeverScanned | actions/transaction.js:53 | a row created with the default status PENDING is never picked by the recurring scan |
| TransactionActions.CreateKeepsDrift | actions/transaction.js:34-63 | creation keeps every account's balance minus its rows' net effect |
| TransactionActions.EditAsWritten | actions/transaction.js:233-253 | as written: the table sizes are kept |
| TransactionActions.EditCorrected | actions/transaction.js:233-253 | corrected: the table sizes are kept |
| TransactionActions.Update | actions/transaction.js:201-286 | on error nothing changes and the message carries the update prefix; users, budgets, ids and sizes are kept |
| TransactionActions.UpdateTransaction | actions/transaction.js:201-286 | as written: on error nothing changes and the message carries the update prefix |
| TransactionActions.UpdateTransactionCorrected | actions/transaction.js:201-286 | corrected: on error nothing changes and the message carries the update prefix |
| TransactionActions.UpdateTransactionAction | actions/transaction.js:201-286 | the action's writes and result are exactly `UpdateTransaction` of the old state |
| TransactionActions.UpdateChecks | actions/transaction.js:203-231 | not signed in, unknown user, missing transaction and foreign account each fail with their message and change nothing |
| TransactionActions.EditToOtherAccountKeepsDrift | actions/transaction.js:239-253 | moving a row to another account keeps every account's drift |
| TransactionActions.EditSameAccountAsWritten | actions/transaction.js:239-253 | as written, on the same account the old row's effect is never reversed: drift shifts by it |
| TransactionActions.EditCorrectedKeepsDrift | actions/transaction.js:239-253 | corrected, every edit keeps every account's drift |
| TransactionActions.SameAccountEditExample | actions/transaction.js:239-253 | balance 1000, expense 100 edited to 50: 950 as written, 1050 corrected |
| TransactionActions.EditKeepsValid | actions/transaction.js:233-272 | an edit keeps ids unique and below the next id |
| TransactionActions.UpdateKeepsDrift | actions/transaction.js:201-286 | the corrected update keeps the table invariant and every account's drift |
| TransactionActions.ParsedAmount | actions/transaction.js:181 | `parseFloat` of the amount, else 0: a number stays, text gives its leading number or 0 |
| TransactionActions.ParsedDate | actions/transaction.js:182 | an absent date is an Invalid Date, a `null` date is the epoch yet not truthy, a string date is what `new Date` parses |
| TransactionActions.NormaliseReceipt | actions/transaction.js:176-186 | rejected iff neither amount nor date is truthy; otherwise parsed values (a `null` date becomes the epoch) and non-empty defaults |
| TransactionActions.ScanReceipt | actions/transaction.js:119-197 | size, then type, then the reply; every error carries the scan prefix |
| TransactionActions.ScanReceiptOfParsedReply | actions/transaction.js:173-191 | an accepted file with a parsed reply fails iff it has no data; non-empty fields are kept |
| TransactionActions.ReceiptSizeBoundary | actions/transaction.js:122-124 | exactly 1 MiB passes the size check; one byte more fails, whatever the type |
| TransactionActions.ReceiptExamples | actions/transaction.js:176-186 | an amount of 0 with no date is rejected; a date alone gives amount 0 and the defaults; an amount of 12.5 with a `null` date is kept and dated 1970-01-01 |
| TransactionActions.ServerChecksAreStricter | actions/transaction.js:122-128 | every file the server accepts passes the client check; images between 1 and 10 MiB pass the client but not the server |
| TransactionActions.ReceiptCategoriesAreExpenseIds | actions/transaction.js:144 | every category the prompt offers is an expense category id |
| AccountSchema.LeadingDigits | app/lib/schema.js:5 | the length of the leading run of digits |
| AccountSchema.MatcherIsPattern | app/lib/schema.js:5 | the matcher accepts exactly the strings of `^\d+(\.\d{1,2})?$` |
| AccountSchema.MatchIsNonEmpty | app/lib/schema.js:5 | every matching balance is non-empty |
| AccountSchema.BalanceExamples | app/lib/schema.js:5 | "0", "12.5", "12.50" match; "-1", ".5", "5.", "5.123", "" do not |
| AccountSchema.TypeOf | app/lib/schema.js:4 | a type iff the code is one of the four enum values |
| AccountSchema.ParseAccount | app/lib/schema.js:2-7 | accepted iff name non-empty, type in the enum and balance matches; otherwise every issue in field order |
| AccountSchema.EmptyBalanceIssues | app/lib/schema.js:5 | an empty balance reports both the `min` and the `regex` message |
| AccountSchema.IsDefaultDefault | app/lib/schema.js:6 | `isDefault` is false when absent and kept when given |
| ImageUtils.ValidateImageFile | app/lib/ImageUtils.js:28-41 | true iff an image type of at most 10 MiB; the type error wins over the size error |
| ImageUtils.TypeCheckedBeforeSize | app/lib/ImageUtils.js:30-38 | an oversized non-image reports the type error |
| ImageUtils.SizeLimitBoundary | app/lib/ImageUtils.js:35-38 | exactly 10 MiB passes; one byte more fails |
| Currency.CurrencySymbol | app/context/CurrencyContext.jsx:6-19 | ₹ for INR, € for EUR, £ for GBP, $ for anything else |
| Currency.OwnSymbolIff | app/context/CurrencyContext.jsx:6-19 | a currency gets a symbol other than $ iff it is INR, EUR or GBP |
| Currency.CurrencyProvider.constructor | app/context/CurrencyContext.jsx:24 | the currency starts as INR |
| Currency.CurrencyProvider.OnFetched | app/context/CurrencyContext.jsx:26-37 | a truthy fetched currency is adopted, anything else leaves it |
| Currency.CurrencyProvider.UpdateCurrency | app/context/CurrencyContext.jsx:39-40 | the new currency is set at once |
| Currency.CurrencyProvider.Symbol | app/context/CurrencyContext.jsx:59 | always one of the four symbols; ₹ for INR and $ for USD |
| Categories.DefaultCategories | app/data/categories.js:1-236 | the table has 31 entries |
| Categories.BuildCategoryColors | app/data/categories.js:239-242 | the reduce loop builds exactly the colour map of the table |
| Categories.ColorsOfLookup | app/data/categories.js:239-242 | the map has a key iff some entry has that id, mapped to the colour of the last such entry |
| Categories.ColorsOfDistinct | app/data/categories.js:239-242 | with distinct ids every entry's id maps to its own colour |
| Categories.LaterEntryWins | app/data/categories.js:239-242 | of two entries with one id, the later colour wins |
| Categories.Ids | app/data/categories.js:1-236 | the ids of the table in order |
| Categories.DefaultIds | app/data/categories.js:1-236 | the 31 ids, income first |
| Categories.DefaultIdsDistinct | app/data/categories.js:1-236 | no id is repeated |
| Categories.IncomeThenExpense | app/data/categories.js:3-236 | 11 income entries followed by 20 expense entries |
| Categories.SubcategoriesOnlyOnExpense | app/data/categories.js:80-236 | only expense entries carry subcategories |
| Categories.DefaultColors | app/data/categories.js:239-242 | `categoryColors` maps exactly the table's ids to their colours |
| EmailTemplate.RenderedKind | emails/template.jsx:196 | monthly report by default; nothing for an unknown type |
| EmailTemplate.PercentageText | emails/template.jsx:200-202 | "N/A" iff not a number; otherwise within 0.05 of the value |
| EmailTemplate.BarTone | emails/template.jsx:486-491 | red from 90, amber from 80, green below or for "N/A" |
| EmailTemplate.NumberOrZero | emails/template.jsx:204-205 | `Number(x)`, else 0 for NaN |
| EmailTemplate.AlertFiguresOf | emails/template.jsx:204-206 | budget and spent as given; remaining within 0.05 of their difference, green iff positive |
| EmailTemplate.BandsUseRoundedPercentage | emails/template.jsx:486-539 | critical exactly from 89.95; not green exactly from 79.95 |
| EmailTemplate.NotANumberPercentage | emails/template.jsx:200-202 | a missing percentage shows "N/A", a green bar and the warning |
| EmailTemplate.MonitorAlertsShowANumber | lib/inngest/function.js:53-68 | every alert `CheckBudget` produces shows a number, never "N/A"; for a zero budget the percentage is Infinity with a red bar |
| EmailTemplate.SavingsTone | emails/template.jsx:292-313 | green from 20 %, amber from 10 %, red below |
| EmailTemplate.SavingsScore | emails/template.jsx:411 | up to 40 points, full from a 30 % rate |
| EmailTemplate.ExpenseScore | emails/template.jsx:412-413 | 30, 20 or 10 points by the expense share of income |
| EmailTemplate.DiversityScore | emails/template.jsx:414 | up to 30 points, full from 8 categories |
| EmailTemplate.HealthScoreRange | emails/template.jsx:410-415 | with a non-negative rate the score lies in 10..100 |
| EmailTemplate.FullScore | emails/template.jsx:410-415 | the best month scores 100 |
| EmailTemplate.NegativeRateScoresBelowTen | emails/template.jsx:411 | a negative rate can take the score below 10 |
| EmailTemplate.AveragePerTransaction | emails/template.jsx:386 | 0 without transactions, else within 0.5 of expenses per transaction |
| EmailTemplate.ListedCategories | emails/template.jsx:349-361 | the first six categories at most, in order, each with its legend colour |
| Goals.DecimalString | hooks/useGoals.jsx:29 | `toString()` of a timestamp: a non-empty run of digits |
| Goals.DecimalStringValue | hooks/useGoals.jsx:29 | the digits of `toString()` read back in base ten give the timestamp |
| Goals.DecimalStringInjective | hooks/useGoals.jsx:29 | two timestamps give the same id iff they are equal |
| Goals.AppendGoal | hooks/useGoals.jsx:26-33 | the old goals, then one new goal with the timestamp id and the data |
| Goals.ReplaceById | hooks/useGoals.jsx:35-41 | every goal with the id is replaced; the rest stay in place |
| Goals.RemoveById | hooks/useGoals.jsx:43-45 | a goal remains iff it was there and has another id |
| Goals.AbsentIdChangesNothing | hooks/useGoals.jsx:35-45 | update and delete with an unknown id leave the list as it was |
| Goals.RemoveByIdSplits | hooks/useGoals.jsx:44 | filtering distributes over concatenation |
| Goals.RemoveByIdCount | hooks/useGoals.jsx:44 | delete removes exactly the goals with that id |
| Goals.SameMillisecondCollision | hooks/useGoals.jsx:29 | two goals added in one millisecond share an id: one update rewrites both |
| Goals.GoalsHook.constructor | hooks/useGoals.jsx:7 | the list starts empty |
| Goals.GoalsHook.Load | hooks/useGoals.jsx:10-19 | stored goals are loaded when they parse; otherwise the list stays |
| Goals.GoalsHook.AddGoal | hooks/useGoals.jsx:26-33 | the list becomes `AppendGoal` of the old list |
| Goals.GoalsHook.UpdateGoal | hooks/useGoals.jsx:35-41 | the list becomes `ReplaceById` of the old list |
| Goals.GoalsHook.DeleteGoal | hooks/useGoals.jsx:43-45 | the list becomes `RemoveById` of the old list |
| UseFetch.ToastText | hooks/use-fetch.jsx:19 | the error's message, or "Something went wrong" when it is empty |
| UseFetch.FetchState.constructor | hooks/use-fetch.jsx:5-7 | no data, not loading, no error |
| UseFetch.FetchState.Start | hooks/use-fetch.jsx:10-11 | loading with the error cleared; the old data stays visible |
| UseFetch.FetchState.Finish | hooks/use-fetch.jsx:12-22 | success stores and returns the response; failure clears data and records the error; loading ends either way |
| UseFetch.FetchState.Fn | hooks/use-fetch.jsx:9-23 | a whole call ends not loading, with exactly one of data and error |
| UseFetch.FetchState.SetData | hooks/use-fetch.jsx:25 | sets the data only, leaving error and loading |

## Left out

- The generative-model calls (receipt reading, insights) are not modelled; their parsed replies are parameters. Prompt texts beyond the category list are left out.
- Prisma, Clerk, e-mail delivery, `localStorage` and `fetch` are not modelled. Tables are values, the signed-in id is a parameter, and loaded or fetched data are parameters.
- Inngest scheduling, retries and throttling (10 per minute per user) are not modelled. Each job run is one call with `now` as a parameter.
- Concurrency is not modelled. Two runs racing on the same account's absolute balance write cannot be expressed in this sequential model.
- Floating point is not modelled. Amounts are integer cents, rates are exact reals, and `toFixed` and `Math.round` are modelled on reals.
- Time zones are not modelled. All dates are in one local zone, at millisecond-of-day resolution.
- `new Date(string)` and `parseFloat(string)` parsing are inputs. A date member that is not a string is not modelled.
- `orderBy: { date: 'desc' }` in the monthly query is not modelled; rows are folded in table order. Totals do not depend on the order. `topCategory` among equal totals depends on the first-seen order of the keys.
- `Object.entries` puts integer-like keys first. This order is not modelled; categories are ordered by first occurrence.
- `toUpperCase` in the chart is modelled on ASCII letters only.
- Month names (`toLocaleString`), the e-mail markup and the SVG progress bar and charts are not modelled.
- Zod's own wording for a missing field and a bad enum value is not modelled; the issue kind and path are.
- `compressImage` (browser library) and `formatCurrency` are not modelled.
- The POST in `updateCurrency` is not modelled; a failed POST is only logged.
- The `localStorage` save effect in the goals hook is not modelled.
- React's batching of state updates is not modelled; updates apply in code order.
- The toast in the fetch hook is not modelled; its text is `ToastText`.
- `revalidatePath` calls are not modelled.
- `getTransaction`, account pages and other actions outside these modules are not part of this model.
- UseFetch.FetchState.Finish: requires that no error is set on entry. The source clears the error in the same call before awaiting, which `Fn` models by calling `Start` first.
- UseFetch.FetchState.SetData: keeps no invariant. Setting data while an error is shown gives a state the hook's own calls never produce, as in the source.
- BudgetMonitor.WholeUnits: `parseInt(x).toFixed(1)` is a string in the e-mail data. The model keeps the truncated number of cents (a multiple of 100).
- RecurrenceEngine.Occurrence: the booked occurrence's status is taken to be "PENDING". The create at lib/inngest/function.js:153-165 passes no status, so the row gets the database default, and the database schema is not part of this model.
- RecurrenceEngine.ProcessRecurringTransaction: models the corrected handler, which books the occurrence atomically; the handler as written throws at `db.transaction(...)` and books nothing, which `ProcessStepAsWritten` models.
- RecurrenceEngine.TriggerEvents and the as-written update are kept alongside their corrected variants. The rest of the model (drift lemmas, reports) uses the corrected ones where stated.

## Findings

| source | as written | input that shows it | evidently intended | confidence | as-written member | corrected member |
|---|---|---|---|---|---|---|
| lib/inngest/function.js:118 | events carry `transactionID`, but the handler reads `event.data.transactionId` (line 137) | any due recurring row: its event is rejected with "Missing required event data" | events keyed `transactionId`, so due rows are booked | high (not executed) | RecurrenceEngine.AsWrittenEventsAreRejected | RecurrenceEngine.CorrectedEventIsBooked |
| lib/inngest/function.js:152 | `db.transaction(async (tx) => …)` calls the transaction model as a function instead of `db.$transaction`, so it throws and books nothing | any due row with a correctly keyed event: the step fails and the ledger is unchanged | an interactive database transaction that books the occurrence atomically | medium (not executed; lib/prisma.js is not part of this model) | RecurrenceEngine.AsWrittenStepNeverBooks | RecurrenceEngine.ProcessStepKeepsDrift |
| actions/transaction.js:239-253 | the second balance write uses `newAccount.balance` read before the first write, so on the same account the reversal of the old amount is overwritten | balance 1000 with an expense of 100 edited to 50 on the same account: 950 instead of 1050 | reverse the old effect, then apply the new one to the current balance | high (not executed) | TransactionActions.EditSameAccountAsWritten | TransactionActions.EditCorrectedKeepsDrift |
