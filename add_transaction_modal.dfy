/** The add-transaction form (components/AddTransactionModal.tsx): its
    fields, the type buttons, the name-based income/expense split of the
    catalog, and the submit check that decides whether the transaction is
    handed to the caller. */
module AddTransactionModal {
  import opened Types
  import Constants

  const IncomeCategoryName := "Salário"
  const FillAllFieldsMessage := "Por favor, preencha todos os campos."

  /** `categories.filter(c => c.name === 'Salário')`. */
  function IncomeCategories(cats: seq<Category>): (r: seq<Category>)
    ensures forall c :: c in r <==> c in cats && c.name == IncomeCategoryName
  {
    if cats == [] then []
    else if cats[0].name == IncomeCategoryName then [cats[0]] + IncomeCategories(cats[1..])
    else IncomeCategories(cats[1..])
  }

  /** `categories.filter(c => c.name !== 'Salário')`. */
  function ExpenseCategories(cats: seq<Category>): (r: seq<Category>)
    ensures forall c :: c in r <==> c in cats && c.name != IncomeCategoryName
  {
    if cats == [] then []
    else if cats[0].name != IncomeCategoryName then [cats[0]] + ExpenseCategories(cats[1..])
    else ExpenseCategories(cats[1..])
  }

  /** The two lists split the catalog: no entry is in both, and together
      they hold every entry exactly as often as the catalog does. */
  lemma {:induction false} PartitionCoversCatalog(cats: seq<Category>)
    ensures multiset(IncomeCategories(cats)) + multiset(ExpenseCategories(cats)) == multiset(cats)
    ensures |IncomeCategories(cats)| + |ExpenseCategories(cats)| == |cats|
    ensures forall c :: !(c in IncomeCategories(cats) && c in ExpenseCategories(cats))
  {
    if cats != [] {
      PartitionCoversCatalog(cats[1..]);
      assert cats == [cats[0]] + cats[1..];
    }
  }

  /** On the shipped catalog the income list is its first entry alone and
      the expense list the other seven, in catalog order. */
  lemma CatalogSplit()
    ensures IncomeCategories(Constants.MockCategories) == [Constants.MockCategories[0]]
    ensures ExpenseCategories(Constants.MockCategories) == Constants.MockCategories[1..]
  {
    var m := Constants.MockCategories;
    Constants.SalarioOnlyFirst();
    assert forall c :: c in m[1..] ==> c.name != IncomeCategoryName;
    NoIncomeEntries(m[1..]);
  }

  /** A catalog without a "Salário" entry is all expense categories. */
  lemma {:induction false} NoIncomeEntries(cats: seq<Category>)
    requires forall c :: c in cats ==> c.name != IncomeCategoryName
    ensures IncomeCategories(cats) == [] && ExpenseCategories(cats) == cats
  {
    if cats != [] {
      NoIncomeEntries(cats[1..]);
    }
  }

  /** The initial category as written:
      `categories.length > 0 ? categories[1].name : ''`, with `None` for the
      TypeError that reading `categories[1]` raises on a one-entry list. */
  function InitialCategoryAsWritten(cats: seq<Category>): (r: Option<string>)
    ensures r.None? <==> |cats| == 1
  {
    if |cats| > 0 then (if |cats| > 1 then Some(cats[1].name) else None) else Some("")
  }

  /** A one-entry catalog makes the form fail while it is being set up. */
  lemma SingleEntryCatalogFails(c: Category)
    ensures InitialCategoryAsWritten([c]) == None
  {
  }

  /** The initial category as evidently intended: the entry at index 1
      when there is one, otherwise empty. */
  function InitialCategory(cats: seq<Category>): (r: string)
    ensures |cats| != 1 ==> InitialCategoryAsWritten(cats) == Some(r)
    ensures r == "" || exists c :: c in cats && c.name == r
  {
    if |cats| > 1 then cats[1].name else ""
  }

  /** Wherever the written guard does not fail, the intended definition
      gives the same value. When the entry at index 1 is not the income
      one, the initial category is among the expense options the form
      first shows; the shipped catalog is such a catalog. */
  lemma InitialCategoryIntended(cats: seq<Category>)
    ensures |cats| != 1 ==> InitialCategoryAsWritten(cats) == Some(InitialCategory(cats))
    ensures |cats| > 1 && cats[1].name != IncomeCategoryName ==>
      exists c :: c in ExpenseCategories(cats) && c.name == InitialCategory(cats)
    ensures InitialCategory(Constants.MockCategories) == "Moradia"
  {
    if |cats| > 1 && cats[1].name != IncomeCategoryName {
      assert cats[1] in cats;
      assert cats[1] in ExpenseCategories(cats);
    }
  }

  predicate HasIncomeCategory(cats: seq<Category>)
  {
    exists i :: 0 <= i < |cats| && cats[i].name == IncomeCategoryName
  }

  /** The outcome of a submit: the alert, or the transaction handed to
      `onAddTransaction` (which carries no id). */
  datatype Submission = Rejected(alert: string) | Submitted(transaction: NewTransaction)

  class TransactionForm {
    const categories: seq<Category>
    var kind: TransactionType
    var amount: string
    var category: string
    var date: string
    var description: string

    /** `today` is the ISO date the source reads from the clock. */
    constructor (categories: seq<Category>, today: string)
      ensures this.categories == categories
      ensures kind == Expense && amount == "" && description == "" && date == today
      ensures category == InitialCategory(categories)
    {
      this.categories := categories;
      kind := Expense;
      amount := "";
      category := InitialCategory(categories);
      date := today;
      description := "";
    }

    /** The options of the category select. */
    function Options(): (r: seq<Category>)
      reads this
      ensures kind == Expense ==> forall c :: c in r <==> c in categories && c.name != IncomeCategoryName
      ensures kind == Income ==> forall c :: c in r <==> c in categories && c.name == IncomeCategoryName
    {
      if kind == Expense then ExpenseCategories(categories) else IncomeCategories(categories)
    }

    /** "Despesa": the type becomes expense, the category stays. */
    method ChooseExpense()
      modifies this
      ensures kind == Expense
      ensures amount == old(amount) && category == old(category)
      ensures date == old(date) && description == old(description)
    {
      kind := Expense;
    }

    /** "Receita": the type becomes income and the category the first
        income entry's name. The source reads `incomeCategories[0]`, so it
        needs the catalog to hold a "Salário" entry. */
    method ChooseIncome()
      requires HasIncomeCategory(categories)
      modifies this
      ensures kind == Income && category == IncomeCategoryName
      ensures category == IncomeCategories(categories)[0].name
      ensures amount == old(amount) && date == old(date) && description == old(description)
    {
      ghost var i :| 0 <= i < |categories| && categories[i].name == IncomeCategoryName;
      assert categories[i] in IncomeCategories(categories);
      var incomeCategories := IncomeCategories(categories);
      assert incomeCategories[0] in incomeCategories;
      kind := Income;
      category := incomeCategories[0].name;
    }

    method SetAmount(s: string)
      modifies this
      ensures amount == s && kind == old(kind) && category == old(category)
      ensures date == old(date) && description == old(description)
    {
      amount := s;
    }

    method SetCategory(s: string)
      modifies this
      ensures category == s && kind == old(kind) && amount == old(amount)
      ensures date == old(date) && description == old(description)
    {
      category := s;
    }

    method SetDate(s: string)
      modifies this
      ensures date == s && kind == old(kind) && amount == old(amount)
      ensures category == old(category) && description == old(description)
    {
      date := s;
    }

    method SetDescription(s: string)
      modifies this
      ensures description == s && kind == old(kind) && amount == old(amount)
      ensures category == old(category) && date == old(date)
    {
      description := s;
    }

    /** `handleSubmit`: only emptiness is checked. With a field empty the
        alert is raised and nothing is handed over; otherwise the current
        fields, with the amount parsed by `parseAmount`, are handed over
        once. The form's own fields are left as they are. */
    method HandleSubmit(parseAmount: string -> real) returns (s: Submission)
      ensures s.Rejected? <==> amount == "" || category == "" || date == "" || description == ""
      ensures s.Rejected? ==> s.alert == FillAllFieldsMessage
      ensures s.Submitted? ==>
        s.transaction == NewTransaction(kind, category, parseAmount(amount), date, description)
    {
      if amount == "" || category == "" || date == "" || description == "" {
        s := Rejected(FillAllFieldsMessage);
        return;
      }
      s := Submitted(NewTransaction(kind, category, parseAmount(amount), date, description));
    }
  }

  /** Choosing "Receita" and then "Despesa" leaves the category at
      "Salário", which is not among the expense options then shown; a
      submit hands over an expense filed under "Salário". */
  method IncomeThenExpenseKeepsSalario(parseAmount: string -> real) returns (s: Submission)
    ensures s == Submitted(NewTransaction(Expense, IncomeCategoryName, parseAmount("10"), "2024-01-01", "rent"))
  {
    var form := new TransactionForm(Constants.MockCategories, "2024-01-01");
    CatalogHasIncomeCategory();
    form.ChooseIncome();
    form.ChooseExpense();
    form.SetAmount("10");
    form.SetDescription("rent");
    assert forall c :: c in form.Options() ==> c.name != form.category;
    s := form.HandleSubmit(parseAmount);
  }

  /** The shipped catalog has the "Salário" entry the income button reads. */
  lemma CatalogHasIncomeCategory()
    ensures HasIncomeCategory(Constants.MockCategories)
  {
    assert Constants.MockCategories[0].name == IncomeCategoryName;
  }
}
