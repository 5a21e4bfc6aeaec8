/** The derivations of the dashboard page (components/Dashboard.tsx):
    income/expense totals and balance, the five most recent transactions,
    per-budget spending with its clamped percentage, goal progress and the
    category icon lookup. All of them are pure functions of the lists. */
module Dashboard {
  import opened Types
  import opened JsNumber
  import Constants

  /** `reduce((sum, t) => sum + t.amount, 0)`. Over exact reals the order
      of the additions does not matter, so the fold is taken from the head. */
  function SumAmounts(ts: seq<Transaction>): (r: real)
    ensures ts == [] ==> r == 0.0
    ensures NonNegativeAmounts(ts) ==> r >= 0.0
  {
    if ts == [] then 0.0
    else
      assert NonNegativeAmounts(ts) ==> NonNegativeAmounts(ts[1..]) by {
        if NonNegativeAmounts(ts) {
          forall i | 0 <= i < |ts[1..]| ensures ts[1..][i].amount >= 0.0 {
            assert ts[1..][i] == ts[i + 1];
          }
        }
      }
      ts[0].amount + SumAmounts(ts[1..])
  }

  /** `filter(t => t.type === kind)`. */
  function OfKind(ts: seq<Transaction>, kind: TransactionType): (r: seq<Transaction>)
    ensures |r| <= |ts|
    ensures forall t :: t in r <==> t in ts && t.kind == kind
    ensures forall t :: multiset(r)[t] == if t.kind == kind then multiset(ts)[t] else 0
  {
    if ts == [] then []
    else
      assert ts == [ts[0]] + ts[1..];
      if ts[0].kind == kind then [ts[0]] + OfKind(ts[1..], kind)
      else OfKind(ts[1..], kind)
  }

  /** The income card: the sum over income transactions; a list without
      income gives 0. */
  function TotalIncome(ts: seq<Transaction>): (r: real)
    ensures (forall t :: t in ts ==> t.kind == Expense) ==> r == 0.0
  {
    SumAmounts(OfKind(ts, Income))
  }

  /** The expenses card: the sum over expense transactions; a list without
      expenses gives 0. */
  function TotalExpenses(ts: seq<Transaction>): (r: real)
    ensures (forall t :: t in ts ==> t.kind == Income) ==> r == 0.0
  {
    SumAmounts(OfKind(ts, Expense))
  }

  datatype Totals = Totals(totalIncome: real, totalExpenses: real, balance: real)

  /** The three figures at the top of the dashboard. */
  function ComputeTotals(ts: seq<Transaction>): (r: Totals)
    ensures r.totalIncome == TotalIncome(ts) && r.totalExpenses == TotalExpenses(ts)
    ensures r.balance == r.totalIncome - r.totalExpenses
    ensures r.totalIncome + r.totalExpenses == SumAmounts(ts)
    ensures ts == [] ==> r == Totals(0.0, 0.0, 0.0)
  {
    GrossSumSplits(ts);
    var income := TotalIncome(ts);
    var expenses := TotalExpenses(ts);
    Totals(income, expenses, income - expenses)
  }

  predicate NonNegativeAmounts(ts: seq<Transaction>)
  {
    forall i :: 0 <= i < |ts| ==> ts[i].amount >= 0.0
  }

  /** Every transaction is either income or expense, so the two totals
      together account for every amount exactly once. */
  lemma {:induction false} GrossSumSplits(ts: seq<Transaction>)
    ensures TotalIncome(ts) + TotalExpenses(ts) == SumAmounts(ts)
  {
    if ts != [] {
      GrossSumSplits(ts[1..]);
    }
  }

  /** Filtering keeps only amounts from the input, so with non-negative
      amounts both totals are non-negative. */
  lemma OfKindNonNegative(ts: seq<Transaction>, kind: TransactionType)
    requires NonNegativeAmounts(ts)
    ensures NonNegativeAmounts(OfKind(ts, kind))
  {
  }

  lemma TotalsNonNegative(ts: seq<Transaction>)
    requires NonNegativeAmounts(ts)
    ensures TotalIncome(ts) >= 0.0 && TotalExpenses(ts) >= 0.0
  {
    OfKindNonNegative(ts, Income);
    OfKindNonNegative(ts, Expense);
  }

  /** Putting one transaction in front raises exactly the total of its kind,
      by its amount. */
  lemma TotalsOfPrepend(t: Transaction, ts: seq<Transaction>)
    ensures t.kind == Income ==>
      TotalIncome([t] + ts) == TotalIncome(ts) + t.amount && TotalExpenses([t] + ts) == TotalExpenses(ts)
    ensures t.kind == Expense ==>
      TotalExpenses([t] + ts) == TotalExpenses(ts) + t.amount && TotalIncome([t] + ts) == TotalIncome(ts)
  {
    assert ([t] + ts)[1..] == ts;
  }

  /** `transactions.slice(0, 5)`: a prefix in store order, not re-sorted. */
  function RecentTransactions(ts: seq<Transaction>): (r: seq<Transaction>)
    ensures |r| == if |ts| < 5 then |ts| else 5
    ensures r <= ts
  {
    ts[..if |ts| < 5 then |ts| else 5]
  }

  /** A transaction put in front is the first recent one, and the rest are
      the previous recent ones, at most four of them. */
  lemma RecentOfPrepend(t: Transaction, ts: seq<Transaction>)
    ensures RecentTransactions([t] + ts)[0] == t
    ensures RecentTransactions([t] + ts)[1..] == RecentTransactions(ts)[..if |ts| < 4 then |ts| else 4]
  {
  }

  /** `filter(t => t.type === 'expense' && t.category === category)`. */
  function ExpensesIn(ts: seq<Transaction>, category: string): (r: seq<Transaction>)
    ensures |r| <= |ts|
    ensures forall t :: t in r <==> t in ts && t.kind == Expense && t.category == category
    ensures forall t :: multiset(r)[t] ==
                        if t.kind == Expense && t.category == category then multiset(ts)[t] else 0
  {
    if ts == [] then []
    else
      assert ts == [ts[0]] + ts[1..];
      if ts[0].kind == Expense && ts[0].category == category then [ts[0]] + ExpensesIn(ts[1..], category)
      else ExpensesIn(ts[1..], category)
  }

  /** What a budget has spent: the expense amounts in its category, never
      negative when no amount is. */
  function Spent(ts: seq<Transaction>, category: string): (r: real)
    ensures NonNegativeAmounts(ts) ==> r >= 0.0
  {
    ExpensesInNonNegative(ts, category);
    SumAmounts(ExpensesIn(ts, category))
  }

  lemma ExpensesInNonNegative(ts: seq<Transaction>, category: string)
    ensures NonNegativeAmounts(ts) ==> NonNegativeAmounts(ExpensesIn(ts, category))
  {
  }

  /** Putting one transaction in front raises a budget's spending by its
      amount exactly when it is an expense in that budget's category. */
  lemma SpentOfPrepend(t: Transaction, ts: seq<Transaction>, category: string)
    ensures Spent([t] + ts, category) ==
      Spent(ts, category) + (if t.kind == Expense && t.category == category then t.amount else 0.0)
  {
    assert ([t] + ts)[1..] == ts;
  }

  /** A list without an expense in the category has spent nothing there;
      income in that category never counts. */
  lemma SpentWithoutMatch(ts: seq<Transaction>, category: string)
    requires forall t :: t in ts ==> t.kind == Income || t.category != category
    ensures Spent(ts, category) == 0.0
  {
  }

  /** With non-negative amounts a budget's spending lies between zero and
      the total expenses. */
  lemma {:induction false} SpentAtMostExpenses(ts: seq<Transaction>, category: string)
    requires NonNegativeAmounts(ts)
    ensures 0.0 <= Spent(ts, category) <= TotalExpenses(ts)
  {
    if ts != [] {
      assert NonNegativeAmounts(ts[1..]) by {
        forall i | 0 <= i < |ts[1..]| ensures ts[1..][i].amount >= 0.0 {
          assert ts[1..][i] == ts[i + 1];
        }
      }
      SpentAtMostExpenses(ts[1..], category);
    }
  }

  /** `{ ...budget, spent }`. */
  datatype BudgetSpent = BudgetSpent(budget: Budget, spent: real)

  /** `budgets.map(...)`: one entry per budget, in the same order, each
      keeping the budget and adding what was spent in its category. */
  function BudgetWithSpent(budgets: seq<Budget>, ts: seq<Transaction>): (r: seq<BudgetSpent>)
    ensures |r| == |budgets|
    ensures forall i :: 0 <= i < |r| ==> r[i].budget == budgets[i] && r[i].spent == Spent(ts, budgets[i].category)
  {
    seq(|budgets|, i requires 0 <= i < |budgets| => BudgetSpent(budgets[i], Spent(ts, budgets[i].category)))
  }

  /** `Math.min((spent / limit) * 100, 100)`. */
  function BudgetPercentage(spent: real, limit: real): (r: Number)
    ensures !r.PosInfinity?
    ensures r.Finite? ==> r.value <= 100.0
  {
    Min(Scale(Divide(spent, limit), 100.0), 100.0)
  }

  /** `percentage >= 100`: with a positive limit, exactly when the limit
      is reached; with a zero limit, exactly when something was spent. */
  predicate IsOverBudget(spent: real, limit: real)
    ensures limit > 0.0 ==> (IsOverBudget(spent, limit) <==> spent >= limit)
    ensures limit == 0.0 ==> (IsOverBudget(spent, limit) <==> spent > 0.0)
  {
    PercentageReachesHundred(spent, limit);
    AtLeast(BudgetPercentage(spent, limit), 100.0)
  }

  /** With a positive limit and a non-negative spending the percentage is
      a finite value in [0, 100]. */
  lemma BudgetPercentageBounds(spent: real, limit: real)
    ensures limit > 0.0 && spent >= 0.0 ==>
      BudgetPercentage(spent, limit).Finite? && 0.0 <= BudgetPercentage(spent, limit).value <= 100.0
  {
    if limit > 0.0 && spent >= 0.0 {
      assert spent / limit >= 0.0;
    }
  }

  /** With a positive limit, over budget exactly when the spending reached
      the limit. */
  lemma OverBudgetIffLimitReached(spent: real, limit: real)
    requires limit > 0.0
    ensures IsOverBudget(spent, limit) <==> spent >= limit
  {
    PercentageReachesHundred(spent, limit);
  }

  /** The arithmetic behind `IsOverBudget`: with a positive limit the
      percentage reaches 100 exactly when the spending reaches the limit. */
  lemma PercentageReachesHundred(spent: real, limit: real)
    ensures limit > 0.0 ==> (AtLeast(BudgetPercentage(spent, limit), 100.0) <==> spent >= limit)
  {
    if limit > 0.0 {
      ScaledRatioReachesHundred(spent, limit);
      assert BudgetPercentage(spent, limit) == Min(Finite(spent / limit * 100.0), 100.0);
    }
  }

  lemma ScaledRatioReachesHundred(spent: real, limit: real)
    requires limit > 0.0
    ensures spent / limit * 100.0 >= 100.0 <==> spent >= limit
  {
    var q := spent / limit;
    assert spent == q * limit;
    if q >= 1.0 {
      assert q * limit >= 1.0 * limit;
    } else {
      assert q * limit < 1.0 * limit;
    }
  }

  /** With a zero limit: any positive spending shows 100% and over budget;
      no spending gives NaN, which is not over budget; a negative spending
      gives minus infinity, not over budget either. */
  lemma ZeroLimit(spent: real)
    ensures spent > 0.0 ==> BudgetPercentage(spent, 0.0) == Finite(100.0) && IsOverBudget(spent, 0.0)
    ensures spent == 0.0 ==> BudgetPercentage(spent, 0.0) == NaN && !IsOverBudget(spent, 0.0)
    ensures spent < 0.0 ==> BudgetPercentage(spent, 0.0) == NegInfinity && !IsOverBudget(spent, 0.0)
  {
  }

  /** `Math.min((currentAmount / targetAmount) * 100, 100)`. */
  function GoalPercentage(goal: Goal): (r: Number)
    ensures !r.PosInfinity?
    ensures r.Finite? ==> r.value <= 100.0
  {
    Min(Scale(Divide(goal.currentAmount, goal.targetAmount), 100.0), 100.0)
  }

  /** With a positive target and a non-negative current amount a goal's
      progress is a finite value in [0, 100], and exactly 100 once the
      target is reached. */
  lemma GoalPercentageBounds(goal: Goal)
    ensures goal.targetAmount > 0.0 && goal.currentAmount >= 0.0 ==>
      GoalPercentage(goal).Finite? && 0.0 <= GoalPercentage(goal).value <= 100.0
    ensures goal.targetAmount > 0.0 && goal.currentAmount >= goal.targetAmount ==>
      GoalPercentage(goal) == Finite(100.0)
  {
    if goal.targetAmount > 0.0 {
      var q := goal.currentAmount / goal.targetAmount;
      assert goal.currentAmount == q * goal.targetAmount;
      ScaledRatioReachesHundred(goal.currentAmount, goal.targetAmount);
      assert GoalPercentage(goal) == Min(Finite(q * 100.0), 100.0);
    }
  }

  /** `categories.find(c => c.name === name)`: the first entry with exactly
      that name, if any. */
  function FindCategory(categories: seq<Category>, name: string): (r: Option<Category>)
    ensures r.None? <==> forall i :: 0 <= i < |categories| ==> categories[i].name != name
    ensures r.Some? ==>
      exists i :: 0 <= i < |categories| && categories[i] == r.value && r.value.name == name &&
        forall j :: 0 <= j < i ==> categories[j].name != name
  {
    if categories == [] then None
    else if categories[0].name == name then Some(categories[0])
    else
      var r := FindCategory(categories[1..], name);
      if r.Some? then
        ghost var i :| 0 <= i < |categories[1..]| && categories[1..][i] == r.value && r.value.name == name &&
          forall j :: 0 <= j < i ==> categories[1..][j].name != name;
        assert categories[i + 1] == r.value;
        r
      else r
  }

  /** The icon of the catalog entry with that name, `DollarSignIcon` for
      a name the catalog does not know. */
  /** Catalog names are distinct, so every entry's name leads to its own
      icon; any other name leads to the default. */
  function GetCategoryIcon(name: string): (r: Icon)
    ensures forall i :: 0 <= i < |Constants.MockCategories| && Constants.MockCategories[i].name == name ==>
      r == Constants.MockCategories[i].icon
    ensures (forall i :: 0 <= i < |Constants.MockCategories| ==> Constants.MockCategories[i].name != name) ==>
      r == DollarSignIcon
  {
    Constants.CatalogDistinct();
    match FindCategory(Constants.MockCategories, name)
    case Some(c) => c.icon
    case None => DollarSignIcon
  }

  /** One budget bar: the entry, its clamped percentage and its flag. */
  datatype BudgetGauge = BudgetGauge(entry: BudgetSpent, percentage: Number, isOverBudget: bool)

  function Gauge(entry: BudgetSpent): (g: BudgetGauge)
    ensures g.entry == entry
    ensures g.percentage == BudgetPercentage(entry.spent, entry.budget.limit)
    ensures g.isOverBudget == IsOverBudget(entry.spent, entry.budget.limit)
    ensures entry.budget.limit > 0.0 ==> (g.isOverBudget <==> entry.spent >= entry.budget.limit)
  {
    var p := BudgetPercentage(entry.spent, entry.budget.limit);
    BudgetGauge(entry, p, AtLeast(p, 100.0))
  }

  /** Everything the dashboard shows, derived from the three lists. */
  datatype DashboardView = DashboardView(
    totals: Totals,
    recent: seq<Transaction>,
    budgets: seq<BudgetGauge>,
    goals: seq<Number>)

  /** The balance identity, the recent prefix, the over-budget iff and the
      bounded goal bars follow from the contracts of `ComputeTotals`,
      `RecentTransactions`, `Gauge` and `GoalPercentage`. */
  function Render(ts: seq<Transaction>, budgets: seq<Budget>, goals: seq<Goal>): (v: DashboardView)
    ensures |v.budgets| == |budgets| && |v.goals| == |goals|
    ensures v.totals == ComputeTotals(ts) && v.recent == RecentTransactions(ts)
    ensures forall i :: 0 <= i < |budgets| ==>
      v.budgets[i] == Gauge(BudgetSpent(budgets[i], Spent(ts, budgets[i].category)))
    ensures forall i :: 0 <= i < |goals| ==> v.goals[i] == GoalPercentage(goals[i])
  {
    var rows := BudgetWithSpent(budgets, ts);
    DashboardView(
      ComputeTotals(ts),
      RecentTransactions(ts),
      seq(|rows|, i requires 0 <= i < |rows| => Gauge(rows[i])),
      seq(|goals|, i requires 0 <= i < |goals| => GoalPercentage(goals[i])))
  }
}
