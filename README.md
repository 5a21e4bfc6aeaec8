# FinControl derivation and state layer, in Dafny

FinControl is a single-user personal-finance web app: the user logs in,
records income and expense transactions, and sees totals, budgets, goals
and bill reminders. Almost all of it is markup. This project models the
logic underneath:

- the dashboard and budgets-page derivations: income, expense and balance
  totals; the five most recent transactions; per-budget spending; clamped
  budget and goal percentages; the over-budget flag; the remaining amount
  and its colours; the category icon lookup;
- the notifications popover: the "all paid" branch, the in-place sort of
  the bill array by due date, the overdue flag, and the id each
  mark-as-paid button hands back;
- the application shell as a class whose handlers update its fields
  (login, logout, theme, sidebar, modal, view, adding a transaction), and
  the screen it produces;
- the add-transaction and login forms as classes: the non-emptiness
  checks that decide whether the callback fires, the name-based
  income/expense split of the category catalog, and the type buttons;
- the static category catalog and the empty seed lists.

Modules follow the source files: `Types` (types.ts), `Constants`
(constants.ts), `Dashboard`, `BudgetsPage`, `NotificationsPopover`, `App`,
`AddTransactionModal`, `LoginPage`, plus `JsNumber`, which gives the
JavaScript number outcomes the percentage formulas can reach.

Modelling choices:

- Money is an exact `real`. Sums are folds over exact reals, so the order
  of the additions does not matter.
- A bill's due date and `today` are calendar day numbers. `today` is a
  parameter. The source reads it once when the module loads, and every row
  of a render is compared with that same value.
- `spent / limit * 100` is computed in `JsNumber.Number`: a finite value,
  plus or minus infinity, or NaN. A zero limit with positive spending gives
  infinity, which `Math.min` clamps to 100, so the budget is over. With a
  zero limit and zero spending the code yields NaN, not 0, and the model
  follows the code. NaN is not `>= 100`, so that budget is not over.
- The transaction field `type` is named `kind` because `type` is a Dafny
  keyword.
- Clock readings (`Date.now()` for ids, today's date for the form) and
  `parseFloat` are parameters.
- The type buttons change the category only on "Receita". After
  "Receita" then "Despesa", the category stays "Salário". That name is
  not among the expense options then shown, and a submit files the
  expense under "Salário" (`IncomeThenExpenseKeepsSalario`).

## Model

| member | source | states |
|---|---|---|
| `JsNumber.Divide` | components/BudgetsPage.tsx:30 | a non-zero divisor gives `Finite(a / b)`; `x / 0` gives +infinity for positive `x`, -infinity for negative `x`, NaN for 0 |
| `JsNumber.Scale` | components/Dashboard.tsx:64 | `x * 100`: a finite value is multiplied, +infinity and -infinity keep their sign, NaN stays NaN |
| `JsNumber.AtLeast` | components/Dashboard.tsx:65 | `x >= y`: a finite `v` gives `v >= y`; +infinity gives true; -infinity and NaN give false |
| `JsNumber.Min` | components/Dashboard.tsx:64 | `Math.min(x, 100)`: a finite `x` at most 100 is kept; a finite `x` at least 100, or +infinity, gives exactly 100; -infinity stays; NaN exactly when `x` is NaN; never +infinity |
| `Dashboard.SumAmounts` | components/Dashboard.tsx:27 | the reduce starts at 0, so no amounts sum to 0; non-negative amounts give a non-negative sum |
| `Dashboard.OfKind` | components/Dashboard.tsx:25-30 | the filter keeps exactly the input transactions of the given type, each as often as in the input |
| `Dashboard.TotalIncome` | components/Dashboard.tsx:25-27 | a list without income transactions gives 0 |
| `Dashboard.TotalExpenses` | components/Dashboard.tsx:28-30 | a list without expense transactions gives 0 |
| `Dashboard.ComputeTotals` | components/Dashboard.tsx:24-33 | balance is income minus expenses; income plus expenses is the sum of all amounts; an empty list gives 0, 0, 0 |
| `Dashboard.GrossSumSplits` | components/Dashboard.tsx:25-30 | every amount is counted in exactly one of the two totals |
| `Dashboard.OfKindNonNegative` | components/Dashboard.tsx:26 | filtering a list of non-negative amounts keeps them non-negative |
| `Dashboard.TotalsNonNegative` | components/Dashboard.tsx:25-30 | with non-negative amounts both totals are non-negative |
| `Dashboard.TotalsOfPrepend` | components/Dashboard.tsx:25-30 | a transaction put in front raises only the total of its type, by its amount |
| `Dashboard.RecentTransactions` | components/Dashboard.tsx:35 | the recent list is the first min(5, n) transactions in store order |
| `Dashboard.RecentOfPrepend` | components/Dashboard.tsx:35 | a transaction put in front becomes the first recent one, followed by at most four of the previous ones |
| `Dashboard.ExpensesIn` | components/Dashboard.tsx:40 | the filter keeps exactly the expenses whose category equals the budget's, each as often as in the input |
| `Dashboard.Spent` | components/Dashboard.tsx:39-41 | a budget's spending is never negative when no amount is |
| `Dashboard.SpentOfPrepend` | components/Dashboard.tsx:39-41 | a transaction put in front raises a budget's spending by its amount exactly when it is an expense in that category, and leaves it unchanged otherwise |
| `Dashboard.SpentWithoutMatch` | components/Dashboard.tsx:39-41 | with no expense in the category, spent is 0; income in that category never counts |
| `Dashboard.SpentAtMostExpenses` | components/Dashboard.tsx:39-41 | with non-negative amounts, 0 <= spent <= total expenses |
| `Dashboard.BudgetWithSpent` | components/Dashboard.tsx:37-44 | same length and order as the budgets; each entry keeps its budget and adds what was spent in its category |
| `Dashboard.BudgetPercentage` | components/Dashboard.tsx:64 | the clamped percentage is never +infinity and never above 100 |
| `Dashboard.IsOverBudget` | components/Dashboard.tsx:64-65 | with a positive limit, over budget iff spent >= limit; with a zero limit, iff spent > 0 |
| `Dashboard.PercentageReachesHundred` | components/Dashboard.tsx:64-65 | with a positive limit the percentage reaches 100 exactly when the spending reaches the limit |
| `Dashboard.BudgetPercentageBounds` | components/Dashboard.tsx:64 | with a positive limit and non-negative spending the budget percentage is finite and in [0, 100] |
| `Dashboard.OverBudgetIffLimitReached` | components/Dashboard.tsx:64-65 | with a positive limit, over budget iff spent >= limit |
| `Dashboard.ZeroLimit` | components/Dashboard.tsx:64-65 | with a zero limit: positive spending gives 100 and over budget; zero gives NaN, not over; negative gives -infinity, not over |
| `Dashboard.GoalPercentage` | components/Dashboard.tsx:87 | the goal percentage is never +infinity and never above 100 |
| `Dashboard.GoalPercentageBounds` | components/Dashboard.tsx:87 | with a positive target and a non-negative current amount the goal percentage lies in [0, 100]; with a positive target it is exactly 100 once the target is reached |
| `Dashboard.FindCategory` | components/Dashboard.tsx:19 | `find` returns the first entry with exactly that name, and nothing iff no entry has it |
| `Dashboard.GetCategoryIcon` | components/Dashboard.tsx:18-21 | a catalog name yields that entry's icon; an unknown name yields `DollarSignIcon` |
| `Dashboard.Gauge` | components/Dashboard.tsx:64-66 | a budget bar carries its entry and the clamped percentage; with a positive limit it is over budget iff spent >= limit |
| `Dashboard.Render` | components/Dashboard.tsx:23-44 | the view holds the totals (balance identity), the recent prefix, one gauge per budget in order with its spending and the over-budget iff, and each goal's percentage, never +infinity |
| `BudgetsPage.BudgetWithSpent` | components/BudgetsPage.tsx:17-24 | one entry per budget, in order, each keeping its budget |
| `BudgetsPage.AgreesWithDashboard` | components/BudgetsPage.tsx:17-24 | the budgets page derives exactly the dashboard's entries from the same lists |
| `BudgetsPage.Card` | components/BudgetsPage.tsx:29-34 | the clamped percentage, never above 100; remaining = limit - spent, not clamped; red bar iff over budget; green remaining iff remaining >= 0 |
| `BudgetsPage.Cards` | components/BudgetsPage.tsx:17-34 | one card per budget, in order: the card of that budget with its spending, so its percentage, flag, remaining amount and both colours |
| `BudgetsPage.OverBudgetIffNothingRemains` | components/BudgetsPage.tsx:30-32 | with a positive limit, over budget iff spent >= limit iff remaining <= 0 |
| `BudgetsPage.AtLimitRedBarGreenRemaining` | components/BudgetsPage.tsx:31-34 | spending exactly the limit shows a red bar beside a green zero remaining |
| `BudgetsPage.OverLimitExample` | components/BudgetsPage.tsx:30-32 | limit 250 and spent 300 give 100%, over budget, remaining -50 |
| `BudgetsPage.ZeroLimitOverspent` | components/BudgetsPage.tsx:30-33 | a zero limit with positive spending gives 100%, over budget, red remaining |
| `BudgetsPage.FoodScenario` | components/BudgetsPage.tsx:17-32 | an income of 1000 and a food expense of 300 against a food budget of 250 give spent 300, 100%, over budget, remaining -50 |
| `NotificationsPopover.IsOverdue` | components/NotificationsPopover.tsx:12-15 | a bill due today is not overdue; one due yesterday is |
| `NotificationsPopover.OverdueArePrefix` | components/NotificationsPopover.tsx:15 | in due-date order, every bill before an overdue one is overdue too |
| `NotificationsPopover.SortByDueDate` | components/NotificationsPopover.tsx:37 | the array ends in non-decreasing due-date order and is a permutation of what it held |
| `NotificationsPopover.SinkInto` | components/NotificationsPopover.tsx:37 | one insertion step extends the sorted prefix by one element, keeping the multiset |
| `NotificationsPopover.SwapWithPrevious` | components/NotificationsPopover.tsx:37 | exchanges two neighbours and nothing else |
| `NotificationsPopover.Rows` | components/NotificationsPopover.tsx:37-50 | one row per bill, none filtered; overdue iff due before the one shared `today`; each button carries its own bill's id |
| `NotificationsPopover.Render` | components/NotificationsPopover.tsx:34-37 | an empty list shows the "all paid" message; a non-empty one is sorted in place, permuted only, and listed in that order |
| `App.Toggled` | App.tsx:28 | the theme always changes |
| `App.ToggleTwiceRestores` | App.tsx:27-29 | toggling twice restores the theme |
| `App.WithId` | App.tsx:38 | the stored transaction keeps every submitted field and takes the given id |
| `App.Prepend` | App.tsx:38 | the new transaction comes first and the tail is the previous list, so the length grows by one |
| `App.AddRaisesOneTotal` | App.tsx:38 | adding raises exactly the total of the new transaction's type by its amount, and moves the balance accordingly |
| `App.AddedIsMostRecent` | App.tsx:38 | the added transaction heads the dashboard's recent list |
| `App.InitialFiguresEmpty` | constants.ts:17-21 | the seeds give zero totals, no recent transactions and no budget rows |
| `App.AppState.constructor` | App.tsx:18-25 | logged out, dashboard view, sidebar and modal closed, seed lists, light theme |
| `App.AppState.ToggleTheme` | App.tsx:27-30 | only the theme changes, to the other one |
| `App.AppState.HandleAddTransaction` | App.tsx:37-40 | the list becomes the prepended one and the modal closes; budgets, goals, theme and auth stay |
| `App.AppState.HandleLogin` | App.tsx:42-44 | only the auth flag changes, to true |
| `App.AppState.HandleLogout` | App.tsx:46-48 | only the auth flag changes, to false; lists and theme stay |
| `App.AppState.OpenModal` | App.tsx:84 | only the modal flag changes, to open |
| `App.AppState.CloseModal` | App.tsx:95 | only the modal flag changes, to closed |
| `App.AppState.ToggleSidebar` | App.tsx:83 | only the sidebar flag changes, to its negation |
| `App.AppState.SetCurrentView` | App.tsx:77 | only the view changes |
| `App.AppState.Content` | App.tsx:50-65 | each of the five views selects its page: the dashboard view rendered from the three lists, the transactions list, the budget cards, the reports and settings placeholders |
| `App.AppState.Screen` | App.tsx:67-100 | the login page alone exactly when unauthenticated; otherwise the shell around the current page |
| `Constants.CatalogIds` | constants.ts:5-14 | eight categories with ids "1" to "8" in order |
| `Constants.CatalogDistinct` | constants.ts:5-14 | ids and names are pairwise distinct |
| `Constants.SalarioOnlyFirst` | constants.ts:6-13 | "Salário" is the name of entry 0 and of no other |
| `Constants.SeedsEmpty` | constants.ts:17-21 | the seed transactions, budgets and goals are empty |
| `AddTransactionModal.IncomeCategories` | components/AddTransactionModal.tsx:34 | keeps exactly the catalog entries named "Salário" |
| `AddTransactionModal.ExpenseCategories` | components/AddTransactionModal.tsx:35 | keeps exactly the catalog entries not named "Salário" |
| `AddTransactionModal.PartitionCoversCatalog` | components/AddTransactionModal.tsx:34-35 | the two lists are disjoint and together hold the catalog's entries exactly, as a multiset |
| `AddTransactionModal.NoIncomeEntries` | components/AddTransactionModal.tsx:34-35 | a catalog without "Salário" is all expense categories |
| `AddTransactionModal.CatalogSplit` | components/AddTransactionModal.tsx:34-35 | on the shipped catalog: income is entry 0 alone, expense entries 1 to 7 in order |
| `AddTransactionModal.InitialCategoryAsWritten` | components/AddTransactionModal.tsx:15 | the written initial category fails exactly on a one-entry catalog |
| `AddTransactionModal.InitialCategory` | components/AddTransactionModal.tsx:15 | agrees with the written initialiser wherever that does not fail, and is empty or the name of a catalog entry |
| `AddTransactionModal.SingleEntryCatalogFails` | components/AddTransactionModal.tsx:15 | a one-entry catalog makes the written initialiser fail |
| `AddTransactionModal.InitialCategoryIntended` | components/AddTransactionModal.tsx:15 | the corrected initialiser agrees with the written one wherever that does not fail; it is an expense option when entry 1 is not "Salário"; on the shipped catalog it is "Moradia" |
| `AddTransactionModal.CatalogHasIncomeCategory` | constants.ts:6 | the shipped catalog has the "Salário" entry the income button reads |
| `AddTransactionModal.TransactionForm.constructor` | components/AddTransactionModal.tsx:13-17 | type expense, empty amount and description, today's date, the initial category |
| `AddTransactionModal.TransactionForm.Options` | components/AddTransactionModal.tsx:83 | the select offers the expense entries for an expense and the income entries for income |
| `AddTransactionModal.TransactionForm.ChooseExpense` | components/AddTransactionModal.tsx:63 | type becomes expense; category and the other fields stay |
| `AddTransactionModal.TransactionForm.ChooseIncome` | components/AddTransactionModal.tsx:70 | type becomes income and category the first income entry's name, "Salário" |
| `AddTransactionModal.TransactionForm.SetAmount` | components/AddTransactionModal.tsx:78 | only the amount text changes |
| `AddTransactionModal.TransactionForm.SetCategory` | components/AddTransactionModal.tsx:82 | only the category changes |
| `AddTransactionModal.TransactionForm.SetDate` | components/AddTransactionModal.tsx:90 | only the date changes |
| `AddTransactionModal.TransactionForm.SetDescription` | components/AddTransactionModal.tsx:94 | only the description changes |
| `AddTransactionModal.IncomeThenExpenseKeepsSalario` | components/AddTransactionModal.tsx:63-70 | after "Receita" then "Despesa" a submit hands over an expense filed under "Salário" |
| `AddTransactionModal.TransactionForm.HandleSubmit` | components/AddTransactionModal.tsx:19-32 | rejected with the alert iff some field is empty; otherwise hands over the current type, category, date, description and parsed amount, with no id |
| `LoginPage.LoginForm.constructor` | components/LoginPage.tsx:10-12 | e-mail, password and error start empty |
| `LoginPage.LoginForm.SetEmail` | components/LoginPage.tsx:44 | only the e-mail changes |
| `LoginPage.LoginForm.SetPassword` | components/LoginPage.tsx:59 | only the password changes |
| `LoginPage.LoginForm.ShowsError` | components/LoginPage.tsx:64 | the fixed message is shown; an empty error is not |
| `LoginPage.LoginForm.HandleFormSubmit` | components/LoginPage.tsx:14-22 | `onLogin` fires iff both fields are non-empty; the error is cleared then, set to the fixed message otherwise, and shown iff login did not fire |

## Left out

- Currency and date formatting (`Intl.NumberFormat`, `toLocaleDateString`): library calls that only produce display text.
- Floating-point rounding and `parseFloat`: amounts are exact reals, and the parse is a parameter of `HandleSubmit`.
- Time zones and date parsing: `new Date("YYYY-MM-DD")` is UTC midnight while `today` is local midnight. Both are day numbers here, so a bill due today is never overdue. In the source, wherever the UTC offset is negative (UTC-3, Brazil's, for one), a bill due today IS flagged overdue; the day-number model does not show this.
- `Date.now()` ids: the id is a parameter of `HandleAddTransaction`. The source does not guarantee unique ids, and no uniqueness is claimed.
- DOM and browser effects: the `dark` class on the document root, `window.innerWidth` and the `useMemo`/`useCallback` caching, which has no effect on values.
- The `alert` on a rejected submit is the `Rejected` outcome. Closing the modal after an add is `App.AppState.HandleAddTransaction`.
- The Bill record's declaration is not part of this model. Its fields `id`, `name`, `amount` and `dueDate` are taken from their uses in the popover.
- NotificationsPopover.SortByDueDate: sorted and a permutation, but stability is not stated. JavaScript's sort is stable, and so is this insertion sort, but that is not proved.
- AddTransactionModal.TransactionForm.constructor: uses the corrected initial category (see Findings), so on a one-entry catalog it starts with an empty category where the source throws a TypeError.
- AddTransactionModal.TransactionForm.ChooseIncome: requires a "Salário" entry, because the source's `incomeCategories[0]` throws without one. The shipped catalog has it (`CatalogHasIncomeCategory`).
- Presentation-only files (Sidebar, Header, Card, ReportsPage, TransactionsPage) and `SettingsPage`, `icons`. The icon lookup duplicated in TransactionsPage is the dashboard's `GetCategoryIcon`.
- Features the code does not have: persistence to local storage, bill state and `markPaid` in App, transaction deletion, report date-range filtering, and clearing data on logout.

## Findings

| source | as written | input that shows it | evidently intended | confidence | as-written member | corrected member |
|---|---|---|---|---|---|---|
| components/AddTransactionModal.tsx:15 | `categories.length > 0 ? categories[1].name : ''` reads index 1 whenever the list is non-empty | a catalog with exactly one category: `categories[1]` is undefined and `.name` throws a TypeError while the form is set up | take index 1 only when it exists (`length > 1`), else `''` | low: not executed; App always passes the eight-entry catalog, so it cannot happen in the app | `AddTransactionModal.SingleEntryCatalogFails` | `AddTransactionModal.InitialCategoryIntended` |
