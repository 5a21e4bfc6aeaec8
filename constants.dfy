/** The static data of constants.ts: the category catalog and the empty
    seed lists. */
module Constants {
  import opened Types

  const MockCategories: seq<Category> := [
    Category("1", "Salário", DollarSignIcon),
    Category("2", "Moradia", HomeIcon),
    Category("3", "Alimentação", UtensilsIcon),
    Category("4", "Transporte", CarIcon),
    Category("5", "Investimentos", TrendingUpIcon),
    Category("6", "Lazer", GiftIcon),
    Category("7", "Saúde", HeartIcon),
    Category("8", "Educação", GraduationCapIcon)
  ]

  const MockTransactions: seq<Transaction> := []
  const MockBudgets: seq<Budget> := []
  const MockGoals: seq<Goal> := []

  /** The catalog has eight entries with ids "1" to "8", in order. */
  lemma CatalogIds()
    ensures |MockCategories| == 8
    ensures forall i :: 0 <= i < |MockCategories| ==> MockCategories[i].id == [('1' as int + i) as char]
  {
  }

  /** No two catalog entries share an id or a name. */
  lemma CatalogDistinct()
    ensures forall i, j :: 0 <= i < j < |MockCategories| ==>
      MockCategories[i].id != MockCategories[j].id && MockCategories[i].name != MockCategories[j].name
  {
  }

  /** "Salário" is the first entry's name and no other entry's. */
  lemma SalarioOnlyFirst()
    ensures MockCategories[0].name == "Salário"
    ensures forall i :: 1 <= i < |MockCategories| ==> MockCategories[i].name != "Salário"
  {
  }

  /** The seed lists are empty. */
  lemma SeedsEmpty()
    ensures MockTransactions == [] && MockBudgets == [] && MockGoals == []
  {
  }
}
