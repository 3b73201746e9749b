/**
 * The entities of the expense manager: transactions, categories, settings and
 * the application state that holds them, together with the partial records
 * that the entry form and the settings screen hand to the state owner.
 */
module Model {
  import opened Calendar

  datatype Option<T> = None | Some(value: T)

  /** The four payment methods a transaction can carry. */
  datatype PaymentMethod = Cash | DebitCard | CreditCard | BankTransfer

  /** A transaction is exactly one of an expense or an income. */
  datatype TxType = Expense | Income

  /** A recorded expense or income; only the receipt photo is optional. */
  datatype Transaction = Transaction(
    id: string,
    amount: real,
    txType: TxType,
    categoryId: string,
    date: Instant,
    paymentMethod: PaymentMethod,
    notes: string,
    isRecurring: bool,
    photoUrl: Option<string>)

  /** A spending category with its monthly budget limit. */
  datatype Category = Category(id: string, name: string, icon: string, color: string, limit: real)

  /** User settings; only the time of the last backup is optional. */
  datatype AppSettings = AppSettings(
    currency: string,
    isDarkMode: bool,
    monthStartDay: int,
    lastBackup: Option<string>)

  /** The whole persisted document. */
  datatype AppState = AppState(
    transactions: seq<Transaction>,
    categories: seq<Category>,
    settings: AppSettings)

  /**
   * A partially specified transaction: every field may be absent (None).
   * A key that is present with the value `undefined` is also None here.
   */
  datatype TxPatch = TxPatch(
    id: Option<string>,
    amount: Option<real>,
    txType: Option<TxType>,
    categoryId: Option<string>,
    date: Option<Instant>,
    paymentMethod: Option<PaymentMethod>,
    notes: Option<string>,
    isRecurring: Option<bool>,
    photoUrl: Option<string>)

  /** A partially specified settings record. */
  datatype SettingsPatch = SettingsPatch(
    currency: Option<string>,
    isDarkMode: Option<bool>,
    monthStartDay: Option<int>,
    lastBackup: Option<string>)

  /** An optional field's value, or the fallback when the field is absent. */
  function OrElse<T>(o: Option<T>, fallback: T): T
  {
    match o
    case Some(v) => v
    case None => fallback
  }

  /** No two categories of the list share an id. */
  predicate DistinctIds(cats: seq<Category>)
  {
    forall i, j :: 0 <= i < j < |cats| ==> cats[i].id != cats[j].id
  }

  predicate IsExpense(t: Transaction)
  {
    t.txType == Expense
  }
}
