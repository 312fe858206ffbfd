# Bridge Finances client: a verified model of its local logic

Bridge Finances is a personal-finance web client written in TypeScript and
React. It talks to a backend that owns persistence and every financial
rule. This project models, in Dafny, the computations the client performs
itself, and proves properties about them:

- **Dashboard figures.** These are the current month's totals, the savings
  rate, the top-five category breakdown keyed by `(category id, type)` and
  the five most recent transactions.
- **Charts.** There are three:
  - the six-month income/expense chart;
  - the running cumulative savings trend;
  - the expense-only pie series, with cyclic colours and a legend
    configuration.
- **The API service.** This covers the bearer token's lifecycle, the
  request headers, the error message of a failed request, the tolerant
  unwrapping of the transaction list, and the query strings of the dashboard
  endpoints.
- **The authentication session.** This covers restoring the session at
  start-up (including the clean-up after a corrupt stored record), login,
  register, logout and the `useAuth` guard. The stored user record is
  encoded and decoded in the layout `JSON.stringify` writes.
- **The query-cache keys** and each mutation hook's invalidation list.
- **The goals page.** This covers the active and completed filters, the
  total still to save, the completion guard, the per-goal progress loop,
  the progress-update guard and the colour maps.
- **The budgets page.** This covers the percentage, the over-budget flag,
  the clamped progress value, the overrun and the category label.
- **The four creation forms.** For each one the model covers the schema,
  the defaults, the category filters, the request built from the values,
  and the way a submit settles. For the category dialog this includes the
  loading flag.

Amounts are `real`. JavaScript's division, including division by zero, is
modelled with its infinities and NaN (`JsNumber`). Months are `(year, month 0..11)` pairs. The current
date is a parameter. `localStorage` is a `Storage` object holding a map.
Every HTTP call is an outcome passed in as a parameter.

Where the code keeps state, the model is imperative:
- `ApiService`, `AuthProvider`, the goals and budgets page state, and the
  category dialog are classes whose methods update their fields.
- The category grouping, the month buckets, the cumulative savings, the
  legend configuration and the per-goal progress loop are methods with
  loops.

Each of these methods is proved against a specification function, and the
properties of that function are proved as lemmas.

## Model

| member | source | states |
|---|---|---|
| Dashboard.ComputeStats | src/pages/Dashboard.tsx:18-50 | The balance is the sum of every account. Income and expenses are the current month's INCOME and EXPENSE totals. Net savings is income minus expenses. The savings rate is 0 unless income is positive, and otherwise satisfies rate × income = net × 100. The three counts are the list lengths. |
| Dashboard.TotalBalanceConcat | src/pages/Dashboard.tsx:19 | The balance total of a concatenation is the sum of the two totals, and the total of no accounts is 0. |
| Dashboard.StatsAfterOneMore | src/pages/Dashboard.tsx:24-35 | One more transaction adds its amount to the month's income only if it is an INCOME dated in the current month, and to expenses only if it is such an EXPENSE. A TRANSFER changes neither. |
| Dashboard.IndexOfKey | src/pages/Dashboard.tsx:61 | `categoryMap.get`: the position of the first entry with the key, or -1 when no entry has it. |
| Dashboard.FindGroup | src/pages/Dashboard.tsx:61 | The lookup loop returns exactly `IndexOfKey`. |
| Dashboard.GroupedSummarises | src/pages/Dashboard.tsx:56-74 | After the whole `forEach`, the map has exactly one entry per key that occurs. Each entry holds that key's total amount, its count, the name of its first transaction and its type. |
| Dashboard.OtherKeysUnchanged | src/pages/Dashboard.tsx:60-73 | A further transaction changes no key's count or entry except its own. |
| Dashboard.AddPreservesSummary | src/pages/Dashboard.tsx:56-74 | Each `forEach` step keeps the map a summary of the transactions seen so far. |
| Dashboard.BumpPreservesSummary | src/pages/Dashboard.tsx:63-65 | Adding to an existing entry (`amount +=`, `count += 1`) keeps the summary. |
| Dashboard.AppendPreservesSummary | src/pages/Dashboard.tsx:66-72 | Creating a new entry for an unseen key keeps the summary. |
| Dashboard.NoCountNoSum | src/pages/Dashboard.tsx:60-73 | A key with no transactions has total 0. |
| Dashboard.StatsOf | src/pages/Dashboard.tsx:76 | `Array.from(categoryMap.values())` keeps the entries' order and length. |
| Dashboard.CategoryStats | src/pages/Dashboard.tsx:53-79 | The imperative grouping loop, followed by the sort and the slice, returns exactly `CategoryBreakdown`. |
| Dashboard.BreakdownEntries | src/pages/Dashboard.tsx:57-78 | Every breakdown entry is the full summary of a key that occurs. Transactions without a category form no entry. |
| Dashboard.BreakdownDropsOnlySmaller | src/pages/Dashboard.tsx:76-78 | A key that occurs but is missing from the breakdown has a total no larger than any entry's amount. |
| Dashboard.BreakdownShape | src/pages/Dashboard.tsx:76-78 | The breakdown has min(5, number of keys) entries, in non-increasing order of amount. |
| Dashboard.SameKeyMerges | src/pages/Dashboard.tsx:60-73 | Two transactions with the same category id and type share one entry. The same id with different types gives separate entries. |
| Dashboard.CountPositive | src/pages/Dashboard.tsx:57-73 | A categorised transaction's key has a positive count. |
| Dashboard.CountZero | src/pages/Dashboard.tsx:57 | A key that no categorised transaction has counts 0. |
| Dashboard.FirstNameIsEarliest | src/pages/Dashboard.tsx:67-72 | An entry's name is the category name of the earliest transaction with its key. |
| Dashboard.RecentProperties | src/pages/Dashboard.tsx:82-86 | The recent list has min(5, n) transactions, drawn from the list (a sub-multiset) and newest first. No transaction left out is newer than one shown. |
| Domain.MonthTotalConcat | src/components/charts/MonthlyIncomeExpensesChart.tsx:35-47 | A month's total of one type over a concatenation is the sum of the two parts' totals. |
| MonthlyChart.MonthNumberInjective | src/components/charts/MonthlyIncomeExpensesChart.tsx:29-30 | Months with the same running number are the same month, so the bucket keys are one per month. |
| MonthlyChart.MonthsBefore | src/components/charts/MonthlyIncomeExpensesChart.tsx:29 | `new Date(year, month - i, 1)` is exactly i months before now, across year boundaries. |
| MonthlyChart.Window | src/components/charts/MonthlyIncomeExpensesChart.tsx:28-32 | The window has six months, and month k is 5 − k months before now. |
| MonthlyChart.WindowShape | src/components/charts/MonthlyIncomeExpensesChart.tsx:28-32 | The window ends at the current month, its months are consecutive and oldest first, and no month repeats. |
| MonthlyChart.WindowAcrossYears | src/components/charts/MonthlyIncomeExpensesChart.tsx:29 | Before June the window starts in the previous year, at month + 7. From June on it starts at month − 5 of the same year. |
| MonthlyChart.FindSlot | src/components/charts/MonthlyIncomeExpensesChart.tsx:39-40 | The lookup gives the month's slot in the window, or -1 exactly when the month is outside it. |
| MonthlyChart.Buckets | src/components/charts/MonthlyIncomeExpensesChart.tsx:24-47 | The seeding loop and the `forEach` leave, for each window month, the month's INCOME total and EXPENSE total. |
| MonthlyChart.MonthlyIncomeExpenses | src/components/charts/MonthlyIncomeExpensesChart.tsx:23-54 | Six rows in window order, each with its month and that month's INCOME and EXPENSE totals. |
| MonthlyChart.OneMoreTransaction | src/components/charts/MonthlyIncomeExpensesChart.tsx:39-46 | An INCOME adds to its month's income and an EXPENSE to its expenses. A TRANSFER, or a transaction dated outside the window, changes no bucket. |
| SavingsChart.SavingsTrend | src/components/charts/SavingsTrendChart.tsx:23-59 | Six rows in window order. Row k's savings is that month's income minus expenses, and its cumulative is the sum of the savings of rows 0..k. |
| SavingsChart.SumOverNoTransactions | src/components/charts/SavingsTrendChart.tsx:31 | Without transactions, every sum over months is 0, so every row is zero. |
| SavingsChart.SumOverOneMore | src/components/charts/SavingsTrendChart.tsx:35-47 | Over distinct months, a further transaction adds its amount exactly when its type matches and its month is in the window. |
| SavingsChart.SumOverMonthsIsWindowTotal | src/components/charts/SavingsTrendChart.tsx:35-56 | Over distinct months, adding month by month equals adding every transaction dated in the window. |
| SavingsChart.WindowSavingsSplit | src/components/charts/SavingsTrendChart.tsx:49-56 | The accumulated savings equal the summed income minus the summed expenses. |
| SavingsChart.FinalCumulative | src/components/charts/SavingsTrendChart.tsx:49-56 | The last row's cumulative is all INCOME dated in the window minus all EXPENSE dated in it. |
| ExpenseChart.PaletteDistinct | src/components/charts/ExpenseByCategoryChart.tsx:17 | The nine palette colours are pairwise different. |
| ExpenseChart.ExpenseOnlyMembers | src/components/charts/ExpenseByCategoryChart.tsx:21 | The filter keeps exactly the EXPENSE entries and never lengthens the list. |
| ExpenseChart.ExpenseOnlyConcat | src/components/charts/ExpenseByCategoryChart.tsx:21 | The filter of a concatenation is the concatenation of the filters, so relative order is kept. |
| ExpenseChart.ChartDataEntries | src/components/charts/ExpenseByCategoryChart.tsx:20-27 | Every slice shows the name and amount of an EXPENSE entry, and every EXPENSE entry has a slice. |
| ExpenseChart.ChartDataColors | src/components/charts/ExpenseByCategoryChart.tsx:22-26 | Slices fewer than nine apart have different colours, and the colour repeats every nine slices. |
| ExpenseChart.ColorsApart | src/components/charts/ExpenseByCategoryChart.tsx:25 | Two indices fewer than nine apart get different colours. |
| ExpenseChart.EmptyStateIff | src/components/charts/ExpenseByCategoryChart.tsx:40 | The empty state shows exactly when no entry is an EXPENSE. |
| ExpenseChart.LastIndex | src/components/charts/ExpenseByCategoryChart.tsx:31-36 | The last slice with the name: it carries the name, and no later slice does. |
| ExpenseChart.ChartConfig | src/components/charts/ExpenseByCategoryChart.tsx:29-38 | One key per distinct slice name. Each entry's label is the name and its colour is that of the last slice with the name. |
| ExpenseChart.LegendMatchesSlices | src/components/charts/ExpenseByCategoryChart.tsx:22-36 | When slice names are distinct, each legend entry's colour is its slice's colour. |
| Api.Storage.GetItem | src/services/api.ts:33 | `getItem` returns the stored value, or null for an absent key, and changes nothing. |
| Api.Storage.SetItem | src/services/api.ts:82 | `setItem` stores the value under the key and leaves the other keys unchanged. |
| Api.Storage.RemoveItem | src/services/api.ts:103 | `removeItem` drops the key and leaves the other keys unchanged. |
| Api.ErrorMessage | src/services/api.ts:63-67 | A body that is not JSON gives "Network error". A body whose `message` is a non-empty string gives that string. The body is any JSON value: `null` makes the read of `.message` throw a TypeError, and a truthy non-string message is shown as `String(message)`. |
| Api.ErrorMessageCases | src/services/api.ts:63-67 | "Network error" means an unparseable body or a truthy message reading as that text. "Request failed" means a non-null body without a truthy message, or with that text. The text is empty exactly when the message is truthy but reads as empty. |
| Api.UnusualErrorBodies | src/services/api.ts:63-67 | A `null` body gives the TypeError's text, `{"message":42}` gives "42", `{"message":[]}` gives the empty text, and `{"message":0}` gives "Request failed". |
| Api.NumberTextOfInt | src/services/api.ts:66 | A whole-number message reads as its decimal text, as `String(n)` writes it. |
| Api.Request | src/services/api.ts:63-69 | A 2xx response with a JSON body yields that body. A 2xx body that is not JSON fails with the SyntaxError's text. Any other status fails with `ErrorMessage`. |
| Api.ApiService.constructor | src/services/api.ts:31-34 | The token starts as the stored `auth_token`, or null. |
| Api.ApiService.Headers | src/services/api.ts:36-46 | The headers always hold `Content-Type: application/json`. They hold `Authorization: Bearer <token>` exactly when the token is non-null and non-empty, and nothing else. |
| Api.ApiService.Authenticate | src/services/api.ts:81-84 | On success the in-memory token and the stored `auth_token` are both the response's token. On failure neither changes. |
| Api.ApiService.Login | src/services/api.ts:73-85 | `login`: as `Authenticate`, for the login response. |
| Api.ApiService.Register | src/services/api.ts:87-99 | `register`: as `Authenticate`, for the register response. |
| Api.ApiService.Logout | src/services/api.ts:101-104 | The token is null, `auth_token` is removed, and the headers then carry no Authorization. |
| Api.TokenSurvivesReload | src/services/api.ts:31-104 | A service built on the same storage after a successful login starts with the response's token. It sends that token exactly when it is non-empty. A service built after a logout has no token and sends no Authorization header. |
| Api.UnwrapTransactions | src/services/api.ts:140-148 | Unwrapping fails only for a null body (reading `data` of null). Otherwise it succeeds. |
| Api.GetTransactions | src/services/api.ts:140-148 | A failed request fails with its message, and a 2xx body that is not JSON with the SyntaxError's text. A 2xx JSON body is unwrapped, and fails only when it is `null`. |
| Api.UnwrapShapes | src/services/api.ts:143-147 | `data.content` is used when it is an array, otherwise `data` when that is an array, otherwise `[]`. |
| Api.QueryString | src/services/api.ts:252-255 | The query string is empty exactly when there are no parameters. |
| Api.QueryRoundTrip | src/services/api.ts:252-255 | A query string built from plain names and values reads back as the same parameters, in order. |
| Api.SummaryEndpoint | src/services/api.ts:244-245 | The period is appended only when it is truthy. |
| Api.CategoryStatisticsQuery | src/services/api.ts:250-255 | The path is bare exactly when neither argument is given. Otherwise '?' is followed by a query that reads back as `period` then `type`, listing only the arguments present. |
| Api.MonthlyTrendsEndpoint | src/services/api.ts:261-262 | A count of 0, or no count, gives the bare path. |
| Api.MonthlyTrendsCount | src/services/api.ts:261-262 | A non-zero count is carried in the path and reads back as the same integer. |
| Api.PeriodComparisonQuery | src/services/api.ts:267-274 | The comparison query always carries the four dates, under their names and in order. |
| UserJson.DecodeEncode | src/contexts/AuthContext.tsx:26-27 | The stored user record (`JSON.stringify` of id, username, email and role) parses back to the same user. |
| UserJson.DecodeEscaped | src/contexts/AuthContext.tsx:26 | Every escaped string reads back as itself, whatever follows its closing quote. |
| UserJson.DecodeIntOf | src/contexts/AuthContext.tsx:26 | Every integer written as decimal text reads back as itself. |
| UserJson.LeadingZeroRejected | src/contexts/AuthContext.tsx:26 | A number written with a leading zero, with or without a minus sign, is not JSON and does not read. |
| UserJson.LeadingZeroIdRejected | src/contexts/AuthContext.tsx:26 | A record whose id has a leading zero, such as `{"id":01,...}`, does not read as a user. |
| Auth.UserOf | src/contexts/AuthContext.tsx:40-45 | The user record copies the response's id, username, email and role. |
| Auth.Restore | src/contexts/AuthContext.tsx:19-35 | A user is restored only when both keys hold truthy text and the record parses, and then it is the parsed user. Storage is either unchanged or loses exactly the two keys. |
| Auth.CorruptRecordClears | src/contexts/AuthContext.tsx:28-32 | A record that does not parse restores nobody and removes both keys, and only those. |
| Auth.LeadingZeroIdClears | src/contexts/AuthContext.tsx:26-32 | A record whose id has a leading zero is rejected by `JSON.parse`, so both keys are removed and nobody is restored. |
| Auth.MissingKeyRestoresNobody | src/contexts/AuthContext.tsx:24 | With either key missing or empty, nobody is restored and storage is untouched. |
| Auth.AuthProvider.constructor | src/contexts/AuthContext.tsx:16-17 | No user, and loading. |
| Auth.AuthProvider.Init | src/contexts/AuthContext.tsx:19-35 | Loading ends on every path. User and storage follow `Restore`. The service's in-memory token is untouched. |
| Auth.AuthProvider.Authenticated | src/contexts/AuthContext.tsx:40-47 | On success the user is the response's record and `user_data` holds its encoding. On failure the error propagates and the user and storage are unchanged. |
| Auth.AuthProvider.Login | src/contexts/AuthContext.tsx:37-48 | Success sets the user, the token, `auth_token` and `user_data` from the response. Failure, including a 2xx body that is not JSON, changes none of them and fails with the request's error text. |
| Auth.AuthProvider.Register | src/contexts/AuthContext.tsx:50-61 | As `Login`, for registration. |
| Auth.AuthProvider.Logout | src/contexts/AuthContext.tsx:63-67 | Whatever the state, there is no user and no token afterwards, and storage loses exactly the two keys. |
| Auth.LoginThenRestart | src/contexts/AuthContext.tsx:19-47 | After a login with a non-empty token, the next start-up restores exactly that user and keeps storage. |
| Auth.LogoutThenRestart | src/contexts/AuthContext.tsx:19-35 | After a logout, the next start-up restores nobody and removes nothing. |
| Auth.EmptyTokenIsNotRestored | src/contexts/AuthContext.tsx:24 | A login whose token is empty is not restored at the next start-up. |
| Auth.UseAuth | src/contexts/AuthContext.tsx:76-81 | Returns the provider inside one. Outside one, fails with "useAuth must be used within an AuthProvider". |
| QueryKeys.KeyHierarchy | src/hooks/useApi.ts:21-39 | Each single-record key is its list key plus the id. The progress key is the goal's key plus "progress". The active and completed keys sit under "goals" and differ. |
| QueryKeys.OnSettled | src/hooks/useApi.ts:62-65 | A failed mutation invalidates nothing. A successful one invalidates its list. |
| QueryKeys.TransactionMutationsRefreshDerivedData | src/hooks/useApi.ts:111-155 | Every transaction mutation invalidates transactions, accounts, budgets, the summary, the category statistics and the trends. An update also invalidates its own record. |
| QueryKeys.CategoryMutationsStayInCategories | src/hooks/useApi.ts:227-257 | Category mutations invalidate only keys under "categories", never transaction, budget or dashboard keys. |
| QueryKeys.TransactionsKeyInvalidatedBy | src/hooks/useApi.ts:58-155 | The transaction list is invalidated exactly by the transaction mutations and by deleting an account. |
| QueryKeys.CompletedGoalsInvalidatedBy | src/hooks/useApi.ts:298-368 | The completed-goals key is invalidated exactly by completing or deleting a goal. |
| QueryKeys.InvalidationListsHaveNoRepeats | src/hooks/useApi.ts:58-368 | No mutation lists the same key twice. |
| QueryKeys.Enabled | src/hooks/useApi.ts:54 | A single-record query runs exactly when its id is non-zero. |
| GoalsPage.WithStatusMembers | src/pages/Goals.tsx:184-185 | The status filter keeps exactly the goals with that status. |
| GoalsPage.WithStatusConcat | src/pages/Goals.tsx:184-185 | The filter of a concatenation is the concatenation of the filters, so order is kept. |
| GoalsPage.ActiveAndCompletedPartition | src/pages/Goals.tsx:184-185 | Active means IN_PROGRESS and completed means COMPLETED. The two lists are disjoint, and CANCELLED goals are in neither. |
| GoalsPage.TotalToSaveSteps | src/pages/Goals.tsx:333 | The total is 0 without active goals. A further goal adds its target minus its saved amount if it is active, and nothing otherwise. |
| GoalsPage.RemainingNonNegative | src/pages/Goals.tsx:333 | When no goal is past its target, the amounts still missing add up to a non-negative total. |
| GoalsPage.CompleteOfferedIff | src/pages/Goals.tsx:426 | The button at line 426 tests the percentage of line 345. Completion is offered exactly when saved / target × 100 ≥ 100: saved ≥ target for a positive target, any positive saving for a zero target, saved ≤ target for a negative one. |
| GoalsPage.ProgressMapContents | src/pages/Goals.tsx:36-44 | A goal has progress exactly when some request for its id succeeded, and it holds the last success. One failure does not stop later goals. |
| GoalsPage.GoalsView.FetchGoals | src/pages/Goals.tsx:30-52 | On a listed reply, the goals are the list and the progress map is `ProgressMap`. On failure nothing else changes. Loading ends on both paths. |
| GoalsPage.GoalsView.HandleUpdateProgress | src/pages/Goals.tsx:102-115 | Nothing happens without a selected goal or with an empty amount. Otherwise the goal's id and the parsed amount are sent, and after success the dialog is cleared. |
| GoalsPage.PriorityColor | src/pages/Goals.tsx:141-148 | HIGH, MEDIUM and LOW get red, yellow and green. Anything else gets gray. |
| GoalsPage.StatusColor | src/pages/Goals.tsx:150-157 | IN_PROGRESS gets blue and COMPLETED green. CANCELLED and anything else get gray. |
| GoalsPage.ProgressStatusColor | src/pages/Goals.tsx:159-166 | ON_TRACK, AT_RISK and ACHIEVED get green, yellow and blue. Anything else gets gray. |
| GoalsPage.ColorMapsSeparateKnownValues | src/pages/Goals.tsx:141-166 | Known values of a map never share a colour, except the status map's CANCELLED and its default. |
| GoalsPage.DaysLabel | src/pages/Goals.tsx:390 | A count ≤ 0 is shown as "Échu". |
| GoalsPage.DaysLabelShowsCount | src/pages/Goals.tsx:390 | A positive count is shown as digits that read back as the count. |
| BudgetsPage.OverBudgetIff | src/pages/Budgets.tsx:55-56 | Over budget exactly when spent > amount for a positive amount, spent > 0 for a zero amount (Infinity), or spent < amount for a negative amount. |
| BudgetsPage.ProgressValue | src/pages/Budgets.tsx:75 | The bar value never exceeds 100 and is never +Infinity. An infinite percentage draws 100. It is NaN exactly for 0 / 0. |
| BudgetsPage.ProgressBelowCap | src/pages/Budgets.tsx:75 | Within budget, the bar value is the percentage itself: value × amount = spent × 100. |
| BudgetsPage.Overrun | src/pages/Budgets.tsx:88-92 | The overrun is shown exactly when over budget. |
| BudgetsPage.OverrunSign | src/pages/Budgets.tsx:88-92 | A shown overrun is positive for a non-negative amount and negative for a negative one. |
| BudgetsPage.CategoryLabel | src/pages/Budgets.tsx:85 | The category's name when it is non-empty, otherwise "Toutes catégories". |
| BudgetsPage.BudgetsView.FetchBudgets | src/pages/Budgets.tsx:14-27 | A success installs the list. A failure keeps the previous list (empty at first). Loading ends either way. |
| JsNumber.PercentageAbove | src/pages/Budgets.tsx:55-56 | x / y × 100 > 100 exactly when x > y > 0, or y = 0 < x, or x < y < 0. |
| JsNumber.PercentageAtLeast | src/pages/Goals.tsx:345 | x / y × 100 ≥ 100 exactly when x ≥ y > 0, or y = 0 < x, or x ≤ y < 0. |
| JsNumber.Min | src/pages/Budgets.tsx:75 | `Math.min(x, y)`: NaN stays NaN. A finite result is at most y. +Infinity gives y and −Infinity stays. |
| Text.ParseIntRoundTrip | src/components/forms/TransactionForm.tsx:74-75 | `parseInt` reads back every integer written by `toString()`. |
| Text.ParseFloatOfInt | src/components/forms/TransactionForm.tsx:70 | `parseFloat` reads back every integer written as text. |
| Forms.TxTypeNames | src/components/forms/TransactionForm.tsx:36 | The type enum accepts exactly the three wire names, each read as its type. |
| Forms.OfferedFor | src/components/forms/TransactionForm.tsx:88-90 | A TRANSFER is offered expense categories. Any other type is offered its own. |
| Forms.CategoriesOfTypeMembers | src/components/forms/BudgetForm.tsx:55-58 | The category filter keeps exactly the categories of the type. |
| Forms.CategoriesOfTypeConcat | src/components/forms/BudgetForm.tsx:55-58 | The filter of a concatenation is the concatenation of the filters, so order is kept. |
| Forms.ErrorText | src/components/forms/TransactionForm.tsx:83 | `error.message || fallback`. |
| Forms.ApiErrorsShowTheirMessage | src/components/forms/TransactionForm.tsx:83 | For an error thrown by the API service, the toast shows the service's text. The form's fallback shows exactly when the server's message is truthy but reads as empty, such as `[]`. |
| Forms.Settle | src/components/forms/TransactionForm.tsx:78-84 | The dialog closes and the form resets exactly on success. A failure shows the error text. |
| TransactionForm.DefaultsNeedFourFields | src/components/forms/TransactionForm.tsx:34-64 | The default type is EXPENSE and the default form is invalid. With a date, it becomes valid exactly when the amount, a description of ≥ 3 characters, the account and the category are given. |
| TransactionForm.OfferedIff | src/components/forms/TransactionForm.tsx:87-90 | The picker offers exactly the categories of the selected type, and expense ones for a transfer. |
| TransactionForm.RequestOf | src/components/forms/TransactionForm.tsx:69-76 | The request copies the type and the description, and sends the form's `date` as `transactionDate`. |
| TransactionForm.PickedIdsReachTheRequest | src/components/forms/TransactionForm.tsx:70-75 | The ids the pickers hold (`id.toString()`) are sent as those ids, and a whole-number amount as that number. |
| TransactionForm.NonNumericAmountPassesSchema | src/components/forms/TransactionForm.tsx:70 | The schema (line 35) only asks for a non-empty amount. If the field held digit-free text, it would pass the schema and be sent as NaN. The dialog's number input does not produce such text. |
| TransactionForm.Submit | src/components/forms/TransactionForm.tsx:67-85 | Something is sent exactly when the values pass the schema. |
| TransactionForm.SubmitSettles | src/components/forms/TransactionForm.tsx:78-84 | Success closes and resets the form and invalidates the six transaction-derived keys. Failure keeps the dialog and values, invalidates nothing, and shows the error's message or the default text. |
| BudgetForm.PeriodNames | src/components/forms/BudgetForm.tsx:37 | The period enum accepts exactly the four wire names, each read as its period. |
| BudgetForm.DefaultsNeedEndDate | src/components/forms/BudgetForm.tsx:34-70 | The default period is MONTHLY and the default form is invalid. It stays invalid without an end date, however the other fields are filled. With a start date, it becomes valid exactly when name (≥ 3 characters), amount, end date and category are given. |
| BudgetForm.OfferedIff | src/components/forms/BudgetForm.tsx:55-58 | Exactly the expense categories are offered. |
| BudgetForm.RequestOf | src/components/forms/BudgetForm.tsx:74-81 | The request copies the name, the period and both dates. |
| BudgetForm.PickedCategoryReachesTheRequest | src/components/forms/BudgetForm.tsx:76-80 | The picked category id and a whole-number amount are sent as those numbers. |
| BudgetForm.Submit | src/components/forms/BudgetForm.tsx:72-90 | Something is sent exactly when the values pass the schema. |
| BudgetForm.SubmitSettles | src/components/forms/BudgetForm.tsx:83-89 | Success closes and resets the form and invalidates budgets and the summary. Failure keeps the dialog, invalidates nothing and shows the error text. |
| AccountForm.AccountTypeNames | src/components/forms/AccountForm.tsx:35 | The account-type enum accepts exactly the five wire names, each read as its type. |
| AccountForm.DefaultsNeedOnlyAName | src/components/forms/AccountForm.tsx:33-58 | The defaults are CHECKING, balance "0" and MGA, and MGA is among the currencies offered at lines 160-162. Only the name is missing: the form is valid exactly when the name has ≥ 3 characters. |
| AccountForm.CurrenciesAreValid | src/components/forms/AccountForm.tsx:160-162 | Every offered currency passes the schema's currency rule. |
| AccountForm.RequestOf | src/components/forms/AccountForm.tsx:62-67 | The request copies the name, the type and the currency. |
| AccountForm.BalanceReachesTheRequest | src/components/forms/AccountForm.tsx:65 | A whole-number balance is sent as that number, and the default "0" as 0. |
| AccountForm.Submit | src/components/forms/AccountForm.tsx:60-76 | Something is sent exactly when the values pass the schema. |
| AccountForm.SubmitSettles | src/components/forms/AccountForm.tsx:69-75 | Success closes and resets the form and invalidates accounts and the summary. Failure keeps the dialog, invalidates nothing and shows the error text. |
| CategoryForm.CategoryTypeOf | src/components/forms/CategoryForm.tsx:36 | The type enum accepts exactly INCOME and EXPENSE. |
| CategoryForm.DefaultsNeedOnlyAName | src/components/forms/CategoryForm.tsx:34-77 | The defaults are EXPENSE, the first preset colour and a preset icon. The form is valid exactly when the name has ≥ 3 characters. |
| CategoryForm.PresetsAreDistinct | src/components/forms/CategoryForm.tsx:49-64 | The preset colours are distinct, and so are the preset icons; both serve as React keys. |
| CategoryForm.RequestOf | src/components/forms/CategoryForm.tsx:82-87 | The request copies the name, colour and icon unchanged, and the type. |
| CategoryForm.CategoryDialog.constructor | src/components/forms/CategoryForm.tsx:67-77 | Not loading, the default values, and an icon from the presets. |
| CategoryForm.CategoryDialog.PickIcon | src/components/forms/CategoryForm.tsx:156-168 | The icon field is read-only. Clicking a preset sets the icon, so it is always a preset. |
| CategoryForm.CategoryDialog.SetColor | src/components/forms/CategoryForm.tsx:187-202 | The colour field takes any typed text or a swatch's value. |
| CategoryForm.CategoryDialog.SetName | src/components/forms/CategoryForm.tsx:112-124 | The name field takes any typed text, and everything else stays. |
| CategoryForm.CategoryDialog.SetType | src/components/forms/CategoryForm.tsx:126-146 | The type select sets INCOME or EXPENSE, which the schema reads back as the chosen type. Everything else stays. |
| CategoryForm.FillIn | src/components/forms/CategoryForm.tsx:100-202 | A fresh dialog reaches valid values through its own name, type, colour and icon events. |
| CategoryForm.CategoryDialog.BeginSubmit | src/components/forms/CategoryForm.tsx:79-87 | A request is sent exactly when the dialog is idle (the button at line 223 is disabled while loading) and the values pass the schema. The request is `RequestOf(values)`, and the loading flag is then up. |
| CategoryForm.CategoryDialog.FinishSubmit | src/components/forms/CategoryForm.tsx:89-98 | Loading ends on every path. Success resets the values, closes the dialog and calls `onSuccess` once. Failure keeps the values and the dialog. One toast is shown either way. |
| CategoryForm.SubmitOnce | src/components/forms/CategoryForm.tsx:79-99 | A whole submit sends the values' request and ends not loading, with the success or failure state as above. It adds exactly one toast: the success text, or the error's text or the form's fallback. |

## Left out

- HTTP, `fetch` and `console` logging are not modelled. Each call's outcome is a parameter.
- `Api.Request`: a `fetch` that rejects (no network, CORS) is not modelled. Its TypeError propagates out of `request` unchanged, and no response case stands for it. The SyntaxError's text for a 2xx body that is not JSON depends on the engine, so it is a parameter of the response.
- `Api.ApiService.Login` and `Api.ApiService.Register` receive the `data` member of the `ApiResponse` wrapper. A 2xx JSON body without a `data` object, where `response.data.token` throws a TypeError, is not modelled.
- `Api.ErrorMessage`: a numeric message is written with its exact decimal digits, at most twenty after the point. JavaScript's shortest round-trip digits and its exponent form (at 1e21 and above, below 1e-6) are not modelled.
- `localStorage` is a map inside a `Storage` object. Its quota and persistence across tabs are not modelled.
- Toasts appear only as the text they would show.
- The react-query engine is not modelled: caching, deduplication, refetching, polling, and the prefix matching `invalidateQueries` performs on keys. Only the declared key table and each hook's invalidation list are modelled.
- Dates are `(year, month, day)` integers and "now" is a parameter. `new Date(string)` parsing, time zones, `toLocaleDateString` month labels, `format` and `differenceInDays` are not modelled.
- The chart buckets are keyed by `(year, month)` rather than by the French month label. The model assumes two different months never share a label.
- JavaScript floating point is not modelled: amounts are exact reals. Rounding, `toFixed` and `toLocaleString` are not modelled.
- `Text.ParseFloatPrefix` models `parseFloat` for plain decimal text only: leading whitespace, exponents and the word "Infinity" are not read.
- `TransactionForm.NonNumericAmountPassesSchema`: the transaction amount, the budget amount, the account balance and the goal progress amount are `<Input type="number">` fields. For entry that is not a number, the browser hands the form `""`, which the schema rejects. The model takes these fields as free text, so it also admits text a number input never produces.
- `Text.ParseIntPrefix` models `parseInt` for plain decimal text only: leading whitespace is not skipped and a "0x" prefix is not read as hexadecimal. The forms only give it `id.toString()` text.
- `Api.QueryString`: `URLSearchParams` percent-encoding is not modelled. Pairs are joined as plain text. The read-back lemmas require names that are non-empty and free of '&' and '=', and values free of '&'. Values may contain '='.
- `UserJson.Decode` reads the exact layout `JSON.stringify` writes for the user record. Other well-formed JSON that `JSON.parse` would accept (different key order, extra spaces, extra fields, `\u` escapes of surrogates) is treated as corrupt. `JSON.parse` would also accept a record of any shape and install it unchecked; the model does not capture that. Text that is not JSON, such as an id with a leading zero, is corrupt in both.
- `Dashboard.RecentProperties` and `Dashboard.BreakdownShape` state the order and the selection, not the stability of JavaScript's sort among equal keys.
- The zod schemas count string length in Unicode code points, where JavaScript counts UTF-16 code units. They differ only for characters outside the Basic Multilingual Plane.
- react-hook-form and zod internals are not modelled, and neither is JSX rendering, recharts or routing. The forms are modelled by their schema predicate, defaults, request mapping and submit outcome.
- `GoalsPage`: the goal create/update dialog (`onSubmit`, `handleEdit`), `handleDelete`, `handleCompleteGoal` and `handleCancelGoal` are not modelled. They are a backend call followed by a toast and `fetchGoals`, with nothing computed locally. The `fetchGoals` they trigger after success is not modelled either. `GoalsPage.GoalsView.HandleUpdateProgress` does not model its two toasts or the `fetchGoals()` it calls after success.
- `confirm` prompts are not modelled.
- `Auth.AuthProvider.Init` removes `auth_token` from storage when the user record is corrupt, but leaves the `ApiService`'s in-memory token as it was, as the code does. Requests in that session still carry the old bearer token.
- The `Accounts`, `Transactions`, `Categories`, `Login` and `Register` pages are not part of this model: they fetch and render. `capacitor.config.ts` is static configuration.
