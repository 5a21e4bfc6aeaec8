/** The application shell (App.tsx): the authentication flag, the current
    view, the sidebar and modal flags, the three record lists and the
    theme, updated in place by the handlers, and the screen they produce. */
module App {
  import opened Types
  import Constants
  import Dashboard
  import BudgetsPage

  datatype View = DashboardView | TransactionsView | BudgetsView | ReportsView | SettingsView

  datatype Theme = Light | Dark

  /** What `content` renders for the current view. */
  datatype Page =
    | ShowDashboard(dashboard: Dashboard.DashboardView)
    | ShowTransactions(transactions: seq<Transaction>)
    | ShowBudgets(cards: seq<BudgetsPage.BudgetCard>)
    | ShowReports
    | ShowSettings

  /** The whole screen: the login page alone, or the shell around a page. */
  datatype Screen =
    | LoginScreen
    | MainScreen(page: Page, sidebarOpen: bool, modalOpen: bool, theme: Theme)

  /** The state fields, as one value. */
  datatype Model = Model(
    isAuthenticated: bool,
    isSidebarOpen: bool,
    currentView: View,
    isModalOpen: bool,
    transactions: seq<Transaction>,
    budgets: seq<Budget>,
    goals: seq<Goal>,
    theme: Theme)

  /** `theme === 'light' ? 'dark' : 'light'`. */
  function Toggled(t: Theme): (r: Theme)
    ensures r != t
  {
    if t == Light then Dark else Light
  }

  lemma ToggleTwiceRestores(t: Theme)
    ensures Toggled(Toggled(t)) == t
  {
  }

  /** `{ ...newTransaction, id }`. */
  function WithId(nt: NewTransaction, id: string): (t: Transaction)
    ensures t.id == id && t.kind == nt.kind && t.category == nt.category
    ensures t.amount == nt.amount && t.date == nt.date && t.description == nt.description
  {
    Transaction(id, nt.kind, nt.category, nt.amount, nt.date, nt.description)
  }

  /** The `setTransactions` updater: the new transaction, with the given id,
      in front of the previous list. */
  function Prepend(nt: NewTransaction, id: string, prev: seq<Transaction>): (r: seq<Transaction>)
    ensures |r| == |prev| + 1
    ensures r[0] == WithId(nt, id) && r[1..] == prev
  {
    [WithId(nt, id)] + prev
  }

  /** Adding raises exactly one of the two totals, the one of the new
      transaction's kind, by its amount; the balance moves by the same
      amount up for income and down for an expense. */
  lemma AddRaisesOneTotal(nt: NewTransaction, id: string, prev: seq<Transaction>)
    ensures var after := Dashboard.ComputeTotals(Prepend(nt, id, prev));
            var before := Dashboard.ComputeTotals(prev);
            if nt.kind == Income then
              after.totalIncome == before.totalIncome + nt.amount &&
              after.totalExpenses == before.totalExpenses &&
              after.balance == before.balance + nt.amount
            else
              after.totalExpenses == before.totalExpenses + nt.amount &&
              after.totalIncome == before.totalIncome &&
              after.balance == before.balance - nt.amount
  {
    Dashboard.TotalsOfPrepend(WithId(nt, id), prev);
  }

  /** The newly added transaction is the first of the recent ones. */
  lemma AddedIsMostRecent(nt: NewTransaction, id: string, prev: seq<Transaction>)
    ensures Dashboard.RecentTransactions(Prepend(nt, id, prev))[0] == WithId(nt, id)
  {
    Dashboard.RecentOfPrepend(WithId(nt, id), prev);
  }

  /** The seeds give zero totals, no recent transactions and no budget rows. */
  lemma InitialFiguresEmpty()
    ensures Dashboard.ComputeTotals(Constants.MockTransactions) == Dashboard.Totals(0.0, 0.0, 0.0)
    ensures Dashboard.RecentTransactions(Constants.MockTransactions) == []
    ensures Dashboard.BudgetWithSpent(Constants.MockBudgets, Constants.MockTransactions) == []
  {
  }

  class AppState {
    var isAuthenticated: bool
    var isSidebarOpen: bool
    var currentView: View
    var isModalOpen: bool
    var transactions: seq<Transaction>
    var budgets: seq<Budget>
    var goals: seq<Goal>
    var theme: Theme

    function State(): Model
      reads this
    {
      Model(isAuthenticated, isSidebarOpen, currentView, isModalOpen, transactions, budgets, goals, theme)
    }

    /** Logged out, on the dashboard, sidebar and modal closed, the lists
        from the seeds, light theme. */
    constructor ()
      ensures State() == Model(false, false, DashboardView, false,
        Constants.MockTransactions, Constants.MockBudgets, Constants.MockGoals, Light)
    {
      isAuthenticated := false;
      isSidebarOpen := false;
      currentView := DashboardView;
      isModalOpen := false;
      transactions := Constants.MockTransactions;
      budgets := Constants.MockBudgets;
      goals := Constants.MockGoals;
      theme := Light;
    }

    method ToggleTheme()
      modifies this
      ensures State() == old(State()).(theme := Toggled(old(theme)))
    {
      theme := Toggled(theme);
    }

    /** Prepends the transaction under `freshId` (the clock reading the
        source uses) and closes the modal; nothing else changes. */
    method HandleAddTransaction(nt: NewTransaction, freshId: string)
      modifies this
      ensures State() == old(State()).(transactions := Prepend(nt, freshId, old(transactions)), isModalOpen := false)
    {
      transactions := Prepend(nt, freshId, transactions);
      isModalOpen := false;
    }

    method HandleLogin()
      modifies this
      ensures State() == old(State()).(isAuthenticated := true)
    {
      isAuthenticated := true;
    }

    /** Logging out only clears the flag: lists and theme stay. */
    method HandleLogout()
      modifies this
      ensures State() == old(State()).(isAuthenticated := false)
    {
      isAuthenticated := false;
    }

    /** The header's add button. */
    method OpenModal()
      modifies this
      ensures State() == old(State()).(isModalOpen := true)
    {
      isModalOpen := true;
    }

    /** The modal's close and cancel buttons. */
    method CloseModal()
      modifies this
      ensures State() == old(State()).(isModalOpen := false)
    {
      isModalOpen := false;
    }

    method ToggleSidebar()
      modifies this
      ensures State() == old(State()).(isSidebarOpen := !old(isSidebarOpen))
    {
      isSidebarOpen := !isSidebarOpen;
    }

    method SetCurrentView(v: View)
      modifies this
      ensures State() == old(State()).(currentView := v)
    {
      currentView := v;
    }

    /** `content`: the page of the current view, derived from the lists. */
    function Content(): (p: Page)
      reads this
      ensures currentView == DashboardView <==> p == ShowDashboard(Dashboard.Render(transactions, budgets, goals))
      ensures currentView == TransactionsView <==> p == ShowTransactions(transactions)
      ensures currentView == BudgetsView <==> p == ShowBudgets(BudgetsPage.Cards(budgets, transactions))
      ensures currentView == ReportsView <==> p == ShowReports
      ensures currentView == SettingsView <==> p == ShowSettings
      ensures p.ShowDashboard? ==> p.dashboard.totals == Dashboard.ComputeTotals(transactions)
      ensures p.ShowBudgets? ==> |p.cards| == |budgets|
    {
      match currentView
      case DashboardView => ShowDashboard(Dashboard.Render(transactions, budgets, goals))
      case TransactionsView => ShowTransactions(transactions)
      case BudgetsView => ShowBudgets(BudgetsPage.Cards(budgets, transactions))
      case ReportsView => ShowReports
      case SettingsView => ShowSettings
    }

    /** Unauthenticated, only the login page is produced; otherwise the
        shell around the current page. */
    function Screen(): (s: Screen)
      reads this
      ensures !isAuthenticated <==> s == LoginScreen
      ensures isAuthenticated ==> s == MainScreen(Content(), isSidebarOpen, isModalOpen, theme)
    {
      if !isAuthenticated then LoginScreen
      else MainScreen(Content(), isSidebarOpen, isModalOpen, theme)
    }
  }
}
