/** The budgets page (components/BudgetsPage.tsx): per budget, what was
    spent, the clamped percentage, the over-budget flag, the remaining
    amount and the two colour choices. */
module BudgetsPage {
  import opened Types
  import opened JsNumber
  import Dashboard

  /** The page's own `budgets.map(...)`, written as a recursion over the
      budgets; the per-budget fold is the dashboard's `Spent`. */
  function BudgetWithSpent(budgets: seq<Budget>, ts: seq<Transaction>): (r: seq<Dashboard.BudgetSpent>)
    ensures |r| == |budgets|
    ensures forall i :: 0 <= i < |r| ==> r[i].budget == budgets[i]
  {
    if budgets == [] then []
    else [Dashboard.BudgetSpent(budgets[0], Dashboard.Spent(ts, budgets[0].category))] + BudgetWithSpent(budgets[1..], ts)
  }

  /** Both pages derive the same entries from the same lists. */
  lemma {:induction false} AgreesWithDashboard(budgets: seq<Budget>, ts: seq<Transaction>)
    ensures BudgetWithSpent(budgets, ts) == Dashboard.BudgetWithSpent(budgets, ts)
  {
    if budgets != [] {
      AgreesWithDashboard(budgets[1..], ts);
      var d := Dashboard.BudgetWithSpent(budgets, ts);
      assert d == [d[0]] + Dashboard.BudgetWithSpent(budgets[1..], ts);
    }
  }

  datatype BarColour = Danger | Primary
  datatype FigureColour = Green | Red

  datatype BudgetCard = BudgetCard(
    category: string,
    percentage: Number,
    isOverBudget: bool,
    remaining: real,
    barColour: BarColour,
    remainingColour: FigureColour)

  /** One card: `remaining = limit - spent` is not clamped, the bar is red
      exactly when over budget, and the remaining figure is green exactly
      when it is not negative. */
  function Card(entry: Dashboard.BudgetSpent): (c: BudgetCard)
    ensures c.category == entry.budget.category
    ensures c.percentage == Dashboard.BudgetPercentage(entry.spent, entry.budget.limit)
    ensures c.remaining == entry.budget.limit - entry.spent
    ensures c.isOverBudget == Dashboard.IsOverBudget(entry.spent, entry.budget.limit)
    ensures c.barColour == Danger <==> c.isOverBudget
    ensures c.remainingColour == Green <==> c.remaining >= 0.0
  {
    var percentage := Dashboard.BudgetPercentage(entry.spent, entry.budget.limit);
    var isOverBudget := AtLeast(percentage, 100.0);
    var remaining := entry.budget.limit - entry.spent;
    BudgetCard(
      entry.budget.category,
      percentage,
      isOverBudget,
      remaining,
      if isOverBudget then Danger else Primary,
      if remaining >= 0.0 then Green else Red)
  }

  /** The page's cards, one per budget in budget order. */
  function Cards(budgets: seq<Budget>, ts: seq<Transaction>): (cs: seq<BudgetCard>)
    ensures |cs| == |budgets|
    ensures forall i :: 0 <= i < |cs| ==>
      cs[i] == Card(Dashboard.BudgetSpent(budgets[i], Dashboard.Spent(ts, budgets[i].category)))
  {
    var rows := BudgetWithSpent(budgets, ts);
    AgreesWithDashboard(budgets, ts);
    seq(|rows|, i requires 0 <= i < |rows| => Card(rows[i]))
  }

  /** With a positive limit: over budget exactly when the spending reached
      the limit, exactly when nothing remains. */
  lemma OverBudgetIffNothingRemains(entry: Dashboard.BudgetSpent)
    requires entry.budget.limit > 0.0
    ensures Card(entry).isOverBudget <==> entry.spent >= entry.budget.limit
    ensures Card(entry).isOverBudget <==> Card(entry).remaining <= 0.0
  {
    Dashboard.OverBudgetIffLimitReached(entry.spent, entry.budget.limit);
  }

  /** Spending exactly the limit shows a red bar next to a green, zero
      remaining figure. */
  lemma AtLimitRedBarGreenRemaining(entry: Dashboard.BudgetSpent)
    requires entry.budget.limit > 0.0 && entry.spent == entry.budget.limit
    ensures Card(entry).barColour == Danger && Card(entry).remainingColour == Green
    ensures Card(entry).remaining == 0.0
  {
    Dashboard.OverBudgetIffLimitReached(entry.spent, entry.budget.limit);
  }

  /** Over the limit: a limit of 250 with 300 spent shows 100%, over
      budget, and -50 remaining. */
  lemma OverLimitExample(b: Budget)
    requires b.limit == 250.0
    ensures Card(Dashboard.BudgetSpent(b, 300.0)).percentage == Finite(100.0)
    ensures Card(Dashboard.BudgetSpent(b, 300.0)).isOverBudget
    ensures Card(Dashboard.BudgetSpent(b, 300.0)).remaining == -50.0
  {
  }

  /** A zero limit with something spent clamps to 100% and is over budget. */
  lemma ZeroLimitOverspent(b: Budget, spent: real)
    requires b.limit == 0.0 && spent > 0.0
    ensures Card(Dashboard.BudgetSpent(b, spent)).percentage == Finite(100.0)
    ensures Card(Dashboard.BudgetSpent(b, spent)).isOverBudget
    ensures Card(Dashboard.BudgetSpent(b, spent)).remainingColour == Red
  {
    Dashboard.ZeroLimit(spent);
  }

  /** One income of 1000 and one food expense of 300 against a food budget
      of 250: the card shows 300 spent, 100%, over budget and -50 left. */
  lemma FoodScenario()
    ensures
      var ts := [Transaction("1", Income, "Salário", 1000.0, "2024-01-01", "salary"),
                 Transaction("2", Expense, "Alimentação", 300.0, "2024-01-02", "groceries")];
      var cs := Cards([Budget("b1", "Alimentação", 250.0)], ts);
      |cs| == 1 && cs[0].percentage == Finite(100.0) && cs[0].isOverBudget && cs[0].remaining == -50.0
  {
    var ts := [Transaction("1", Income, "Salário", 1000.0, "2024-01-01", "salary"),
               Transaction("2", Expense, "Alimentação", 300.0, "2024-01-02", "groceries")];
    assert ts[1..][1..] == [];
    assert Dashboard.ExpensesIn(ts, "Alimentação") == [ts[1]];
    assert Dashboard.Spent(ts, "Alimentação") == 300.0;
  }
}
