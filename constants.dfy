/**
 * The seed data: the eight categories every fresh state starts with, the
 * payment methods offered by the entry form, and the state used when nothing
 * has been persisted yet.
 */
module Constants {
  import opened Model
  import opened Ledger

  const InitialCategories: seq<Category> := [
    Category("1", "Housing", "home", "#13b6ec", 1200.0),
    Category("2", "Groceries", "shopping_cart", "#ffb020", 500.0),
    Category("3", "Utilities", "bolt", "#13b6ec", 300.0),
    Category("4", "Transport", "directions_car", "#a855f7", 200.0),
    Category("5", "Entertainment", "movie", "#ff4842", 200.0),
    Category("6", "Dining", "restaurant", "#f97316", 150.0),
    Category("7", "Health", "ecg_heart", "#ef4444", 100.0),
    Category("8", "Others", "more_horiz", "#64748b", 100.0)
  ]

  const PaymentMethods: seq<PaymentMethod> := [Cash, DebitCard, CreditCard, BankTransfer]

  /** The state used when no document has been stored. */
  const DefaultState: AppState :=
    AppState([], InitialCategories, AppSettings("USD", true, 1, None))

  /** The seed's monthly limits add up to 2750. */
  lemma InitialLimitsTotal()
    ensures SumLimits(InitialCategories) == 2750.0
  {
    var c := InitialCategories;
    assert SumLimits(c[..1]) == 1200.0 by { assert c[..1][..0] == []; }
    assert SumLimits(c[..2]) == 1700.0 by { assert c[..2][..1] == c[..1]; }
    assert SumLimits(c[..3]) == 2000.0 by { assert c[..3][..2] == c[..2]; }
    assert SumLimits(c[..4]) == 2200.0 by { assert c[..4][..3] == c[..3]; }
    assert SumLimits(c[..5]) == 2400.0 by { assert c[..5][..4] == c[..4]; }
    assert SumLimits(c[..6]) == 2550.0 by { assert c[..6][..5] == c[..5]; }
    assert SumLimits(c[..7]) == 2650.0 by { assert c[..7][..6] == c[..6]; }
    assert SumLimits(c[..8]) == 2750.0 by { assert c[..8][..7] == c[..7]; }
    assert c[..8] == c;
  }

  /** The seed has eight categories with distinct ids, positive limits, Housing first. */
  lemma InitialCategoriesFacts()
    ensures |InitialCategories| == 8
    ensures DistinctIds(InitialCategories)
    ensures forall c :: c in InitialCategories ==> c.limit > 0.0
    ensures InitialCategories[0].id == "1" && InitialCategories[0].name == "Housing"
  {
  }

  /** Every payment method is offered exactly once, Cash first. */
  lemma PaymentMethodsFacts()
    ensures forall m: PaymentMethod :: multiset(PaymentMethods)[m] == 1
    ensures PaymentMethods[0] == Cash
  {
    var ms := multiset(PaymentMethods);
    assert ms == multiset{Cash} + multiset{DebitCard} + multiset{CreditCard} + multiset{BankTransfer};
    forall m: PaymentMethod ensures ms[m] == 1 {
      match m
      case Cash =>
      case DebitCard =>
      case CreditCard =>
      case BankTransfer =>
    }
  }
}
