/** The records of the finance tracker (types.ts). Money amounts are exact
    reals; a bill's due date is a calendar day number. */
module Types {

  /** Option, used for lookups that may find nothing and for operations of
      the source that throw. */
  datatype Option<T> = None | Some(value: T)

  /** `'income' | 'expense'`. */
  datatype TransactionType = Income | Expense

  /** The presentation handle a category carries, as an enumerated tag. */
  datatype Icon =
    | DollarSignIcon | HomeIcon | UtensilsIcon | CarIcon
    | TrendingUpIcon | GiftIcon | HeartIcon | GraduationCapIcon

  datatype Category = Category(id: string, name: string, icon: Icon)

  /** A stored transaction. The source's field `type` is called `kind`
      here because `type` is a Dafny keyword. `date` stays the ISO text
      the form produces. */
  datatype Transaction = Transaction(
    id: string,
    kind: TransactionType,
    category: string,
    amount: real,
    date: string,
    description: string)

  /** A transaction as the entry form hands it over: everything but `id`. */
  datatype NewTransaction = NewTransaction(
    kind: TransactionType,
    category: string,
    amount: real,
    date: string,
    description: string)

  datatype Budget = Budget(id: string, category: string, limit: real)

  datatype Goal = Goal(id: string, name: string, targetAmount: real, currentAmount: real)

  /** A bill as the notifications popover reads it; `dueDate` is a day
      number. */
  datatype Bill = Bill(id: string, name: string, amount: real, dueDate: int)
}
