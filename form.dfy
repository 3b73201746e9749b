/**
 * The add/edit expense form: six fields held as component state, loaded
 * from the transaction being edited, reset, and turned into a partial
 * transaction on save.  The amount field holds the number `parseFloat`
 * reads from the typed text (None when it reads no number); the date
 * field holds the day ordinal of the picked date (None when the input has
 * been cleared).
 */
module Form {
  import opened Calendar
  import opened Model
  import opened Store

  /**
   * `handleSave`: nothing unless the amount is a number above zero;
   * otherwise an expense carrying the form's fields, the edited
   * transaction's id when there is one, and the date at 00:00.  A cleared
   * date makes `new Date('').toISOString()` throw before the patch reaches
   * the store, so nothing is saved then either.
   */
  function Submit(editing: Option<Transaction>, amount: Option<real>, category: string,
                  payment: PaymentMethod, notes: string, date: Option<int>, recurring: bool): (r: Option<TxPatch>)
    ensures r.Some? <==> amount.Some? && amount.value > 0.0 && date.Some?
    ensures r.Some? ==> r.value.amount == amount && r.value.amount.value > 0.0
    ensures r.Some? ==> r.value.date == Some(Instant(date.value, 0))
    ensures r.Some? ==> r.value.txType == Some(Expense)
    ensures r.Some? ==> (r.value.id.Some? <==> editing.Some?)
    ensures r.Some? && editing.Some? ==> r.value.id == Some(editing.value.id)
  {
    match amount
    case None => None
    case Some(v) =>
      if v <= 0.0 || date.None? then None
      else
        Some(TxPatch(
          if editing.Some? then Some(editing.value.id) else None,
          Some(v),
          Some(Expense),
          Some(category),
          Some(Instant(date.value, 0)),
          Some(payment),
          Some(notes),
          Some(recurring),
          None))
  }

  /**
   * A new expense saved from the form reaches the list as exactly the
   * record the form shows, under the fresh id, with no photo.
   */
  lemma SavedNewExpenseIsAppended(txs: seq<Transaction>, cats: seq<Category>, amount: Option<real>, category: string,
                                  payment: PaymentMethod, notes: string, date: int, recurring: bool,
                                  freshId: string, now: Instant)
    requires Submit(None, amount, category, payment, notes, Some(date), recurring).Some?
    requires category == "" ==> |cats| > 0
    ensures var p := Submit(None, amount, category, payment, notes, Some(date), recurring).value;
            !IsEdit(p) &&
            AddOrUpdate(txs, cats, p, freshId, now) ==
              txs + [Transaction(freshId, amount.value, Expense, if category != "" then category else cats[0].id,
                                 Instant(date, 0), payment, notes, recurring, None)]
  {
  }

  /**
   * An edit saved from the form replaces every field the form shows on the
   * edited record, keeps its id and its photo, and leaves every other
   * record alone.
   */
  lemma SavedEditUpdatesRecord(txs: seq<Transaction>, cats: seq<Category>, editing: Transaction, amount: Option<real>,
                               category: string, payment: PaymentMethod, notes: string, date: int, recurring: bool,
                               freshId: string, now: Instant, i: int)
    requires Submit(Some(editing), amount, category, payment, notes, Some(date), recurring).Some?
    requires editing.id != ""
    requires 0 <= i < |txs|
    ensures var p := Submit(Some(editing), amount, category, payment, notes, Some(date), recurring).value;
            var r := AddOrUpdate(txs, cats, p, freshId, now);
            |r| == |txs| &&
            (txs[i].id == editing.id ==>
               r[i] == Transaction(txs[i].id, amount.value, Expense, category, Instant(date, 0), payment, notes, recurring, txs[i].photoUrl)) &&
            (txs[i].id != editing.id ==> r[i] == txs[i])
  {
  }

  /** The form's state: the edited transaction and the six input fields. */
  class ExpenseForm {
    const categories: seq<Category>
    var editing: Option<Transaction>
    var amount: Option<real>
    var selectedCategory: string
    var paymentMethod: PaymentMethod
    var notes: string
    var date: Option<int>
    var isRecurring: bool

    /** The initial state: amount '0.00', the first category (or none), cash, no notes, today, not recurring. */
    constructor (categories: seq<Category>, today: int)
      ensures this.categories == categories && editing == None
      ensures amount == Some(0.0)
      ensures selectedCategory == if |categories| > 0 then categories[0].id else ""
      ensures paymentMethod == Cash && notes == "" && date == Some(today) && !isRecurring
    {
      this.categories := categories;
      editing := None;
      amount := Some(0.0);
      selectedCategory := if |categories| > 0 then categories[0].id else "";
      paymentMethod := Cash;
      notes := "";
      date := Some(today);
      isRecurring := false;
    }

    /** The effect run when the edited transaction changes: a transaction loads every field, none loads nothing. */
    method SetEditing(e: Option<Transaction>)
      modifies this
      ensures editing == e
      ensures e.None? ==>
        amount == old(amount) && selectedCategory == old(selectedCategory) && paymentMethod == old(paymentMethod) &&
        notes == old(notes) && date == old(date) && isRecurring == old(isRecurring)
      ensures e.Some? ==>
        amount == Some(e.value.amount) && selectedCategory == e.value.categoryId &&
        paymentMethod == e.value.paymentMethod && notes == e.value.notes &&
        date == Some(e.value.date.day) && isRecurring == e.value.isRecurring
    {
      editing := e;
      if e.Some? {
        var t := e.value;
        amount := Some(t.amount);
        selectedCategory := t.categoryId;
        paymentMethod := t.paymentMethod;
        notes := t.notes;
        date := Some(t.date.day);
        isRecurring := t.isRecurring;
      }
    }

    /** The amount input: the number read from the typed text. */
    method SetAmount(a: Option<real>)
      modifies this
      ensures amount == a
      ensures editing == old(editing) && selectedCategory == old(selectedCategory) && paymentMethod == old(paymentMethod)
      ensures notes == old(notes) && date == old(date) && isRecurring == old(isRecurring)
    {
      amount := a;
    }

    /** Tapping a category tile. */
    method SelectCategory(id: string)
      modifies this
      ensures selectedCategory == id
      ensures editing == old(editing) && amount == old(amount) && paymentMethod == old(paymentMethod)
      ensures notes == old(notes) && date == old(date) && isRecurring == old(isRecurring)
    {
      selectedCategory := id;
    }

    /** Tapping a payment method. */
    method SetPaymentMethod(m: PaymentMethod)
      modifies this
      ensures paymentMethod == m
      ensures editing == old(editing) && amount == old(amount) && selectedCategory == old(selectedCategory)
      ensures notes == old(notes) && date == old(date) && isRecurring == old(isRecurring)
    {
      paymentMethod := m;
    }

    /** The notes input. */
    method SetNotes(n: string)
      modifies this
      ensures notes == n
      ensures editing == old(editing) && amount == old(amount) && selectedCategory == old(selectedCategory)
      ensures paymentMethod == old(paymentMethod) && date == old(date) && isRecurring == old(isRecurring)
    {
      notes := n;
    }

    /** The date input: the picked day, or None once the input is cleared. */
    method SetDate(d: Option<int>)
      modifies this
      ensures date == d
      ensures editing == old(editing) && amount == old(amount) && selectedCategory == old(selectedCategory)
      ensures paymentMethod == old(paymentMethod) && notes == old(notes) && isRecurring == old(isRecurring)
    {
      date := d;
    }

    /** The recurring toggle. */
    method SetRecurring(b: bool)
      modifies this
      ensures isRecurring == b
      ensures editing == old(editing) && amount == old(amount) && selectedCategory == old(selectedCategory)
      ensures paymentMethod == old(paymentMethod) && notes == old(notes) && date == old(date)
    {
      isRecurring := b;
    }

    /** The Reset button: amount back to '0.00' and notes cleared; every other field kept. */
    method Reset()
      modifies this
      ensures amount == Some(0.0) && notes == ""
      ensures editing == old(editing) && selectedCategory == old(selectedCategory)
      ensures paymentMethod == old(paymentMethod) && date == old(date) && isRecurring == old(isRecurring)
    {
      amount := Some(0.0);
      notes := "";
    }

    /** `handleSave`: the partial transaction handed to the store, or nothing when the amount or the date is invalid. */
    method Save() returns (r: Option<TxPatch>)
      ensures r == Submit(editing, amount, selectedCategory, paymentMethod, notes, date, isRecurring)
      ensures r.Some? <==> amount.Some? && amount.value > 0.0 && date.Some?
    {
      r := Submit(editing, amount, selectedCategory, paymentMethod, notes, date, isRecurring);
    }
  }

  /** A freshly opened form cannot be saved: its amount is zero. */
  lemma FreshFormCannotSave(categories: seq<Category>, today: int)
    ensures Submit(None, Some(0.0), if |categories| > 0 then categories[0].id else "", Cash, "", Some(today), false) == None
  {
  }
}
