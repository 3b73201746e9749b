/**
 * The state owner: adding or editing a transaction and merging settings.
 * The random id of a new transaction and the current time are parameters.
 */
module Store {
  import opened Calendar
  import opened Model
  import opened Constants

  /** A string field that JavaScript treats as true: present and non-empty. */
  predicate Truthy(s: Option<string>)
  {
    s.Some? && s.value != ""
  }

  /** `!!tx.id`: the patch names an existing record to edit. */
  predicate IsEdit(p: TxPatch)
  {
    Truthy(p.id)
  }

  /** Adding falls back on the first category exactly when the patch gives no category id. */
  predicate NeedsDefaultCategory(p: TxPatch)
  {
    !IsEdit(p) && !Truthy(p.categoryId)
  }

  /** `{ ...t, ...tx }`: the fields the patch gives replace those of `t`. */
  function Merge(t: Transaction, p: TxPatch): Transaction
  {
    Transaction(
      OrElse(p.id, t.id),
      OrElse(p.amount, t.amount),
      OrElse(p.txType, t.txType),
      OrElse(p.categoryId, t.categoryId),
      OrElse(p.date, t.date),
      OrElse(p.paymentMethod, t.paymentMethod),
      OrElse(p.notes, t.notes),
      OrElse(p.isRecurring, t.isRecurring),
      if p.photoUrl.Some? then p.photoUrl else t.photoUrl)
  }

  /** The record an add creates: the patch's fields, with a default for every falsy one. */
  function NewTransaction(p: TxPatch, freshId: string, now: Instant, cats: seq<Category>): Transaction
    requires !Truthy(p.categoryId) ==> |cats| > 0
  {
    Transaction(
      freshId,
      OrElse(p.amount, 0.0),
      OrElse(p.txType, Expense),
      if Truthy(p.categoryId) then p.categoryId.value else cats[0].id,
      OrElse(p.date, now),
      OrElse(p.paymentMethod, Cash),
      OrElse(p.notes, ""),
      OrElse(p.isRecurring, false),
      p.photoUrl)
  }

  /** `map(t => t.id === tx.id ? { ...t, ...tx } : t)`. */
  function EditById(txs: seq<Transaction>, p: TxPatch): (r: seq<Transaction>)
    requires IsEdit(p)
    ensures |r| == |txs|
  {
    seq(|txs|, i requires 0 <= i < |txs| => if txs[i].id == p.id.value then Merge(txs[i], p) else txs[i])
  }

  /** `addOrUpdateTransaction` on the transaction list. */
  function AddOrUpdate(txs: seq<Transaction>, cats: seq<Category>, p: TxPatch, freshId: string, now: Instant): seq<Transaction>
    requires NeedsDefaultCategory(p) ==> |cats| > 0
  {
    if IsEdit(p) then EditById(txs, p) else txs + [NewTransaction(p, freshId, now, cats)]
  }

  /** `addOrUpdateTransaction` on the whole state. */
  function ApplyTransaction(s: AppState, p: TxPatch, freshId: string, now: Instant): AppState
    requires NeedsDefaultCategory(p) ==> |s.categories| > 0
  {
    s.(transactions := AddOrUpdate(s.transactions, s.categories, p, freshId, now))
  }

  /** `{ ...prev.settings, ...newSettings }`. */
  function MergeSettings(s: AppSettings, p: SettingsPatch): AppSettings
  {
    AppSettings(
      OrElse(p.currency, s.currency),
      OrElse(p.isDarkMode, s.isDarkMode),
      OrElse(p.monthStartDay, s.monthStartDay),
      if p.lastBackup.Some? then p.lastBackup else s.lastBackup)
  }

  /** `updateSettings` on the whole state. */
  function ApplySettings(s: AppState, p: SettingsPatch): AppState
  {
    s.(settings := MergeSettings(s.settings, p))
  }

  // ------------------------------------------------------------ properties

  /**
   * A merge takes every field the patch gives and keeps every other field;
   * merging the same patch again changes nothing more.
   */
  lemma MergeTakesGivenFields(t: Transaction, p: TxPatch)
    ensures var r := Merge(t, p);
            (p.amount.Some? ==> r.amount == p.amount.value) && (p.amount.None? ==> r.amount == t.amount) &&
            (p.txType.Some? ==> r.txType == p.txType.value) && (p.txType.None? ==> r.txType == t.txType) &&
            (p.categoryId.Some? ==> r.categoryId == p.categoryId.value) && (p.categoryId.None? ==> r.categoryId == t.categoryId) &&
            (p.date.Some? ==> r.date == p.date.value) && (p.date.None? ==> r.date == t.date) &&
            (p.paymentMethod.Some? ==> r.paymentMethod == p.paymentMethod.value) &&
            (p.paymentMethod.None? ==> r.paymentMethod == t.paymentMethod) &&
            (p.notes.Some? ==> r.notes == p.notes.value) && (p.notes.None? ==> r.notes == t.notes) &&
            (p.isRecurring.Some? ==> r.isRecurring == p.isRecurring.value) &&
            (p.isRecurring.None? ==> r.isRecurring == t.isRecurring) &&
            (p.photoUrl.Some? ==> r.photoUrl == p.photoUrl) && (p.photoUrl.None? ==> r.photoUrl == t.photoUrl)
    ensures Merge(Merge(t, p), p) == Merge(t, p)
    ensures p == TxPatch(None, None, None, None, None, None, None, None, None) ==> Merge(t, p) == t
  {
  }

  /** Adding appends exactly one record, with the fresh id, and leaves the earlier ones as they were. */
  lemma AddAppendsOne(txs: seq<Transaction>, cats: seq<Category>, p: TxPatch, freshId: string, now: Instant)
    requires !IsEdit(p)
    requires NeedsDefaultCategory(p) ==> |cats| > 0
    ensures var r := AddOrUpdate(txs, cats, p, freshId, now);
            |r| == |txs| + 1 && r[..|txs|] == txs && r[|txs|].id == freshId
  {
    assert (txs + [NewTransaction(p, freshId, now, cats)])[..|txs|] == txs;
  }

  /**
   * The added record takes each field the patch gives a truthy value and
   * otherwise the default: now, expense, the first category, cash, no
   * notes, not recurring, amount 0.
   */
  lemma AddFillsDefaults(txs: seq<Transaction>, cats: seq<Category>, p: TxPatch, freshId: string, now: Instant)
    requires !IsEdit(p)
    requires NeedsDefaultCategory(p) ==> |cats| > 0
    ensures var t := AddOrUpdate(txs, cats, p, freshId, now)[|txs|];
            (p.date.None? ==> t.date == now) && (p.date.Some? ==> t.date == p.date.value) &&
            (p.txType.None? ==> t.txType == Expense) && (p.txType.Some? ==> t.txType == p.txType.value) &&
            (!Truthy(p.categoryId) ==> t.categoryId == cats[0].id) &&
            (Truthy(p.categoryId) ==> t.categoryId == p.categoryId.value) &&
            (p.paymentMethod.None? ==> t.paymentMethod == Cash) &&
            (p.paymentMethod.Some? ==> t.paymentMethod == p.paymentMethod.value) &&
            (p.notes.None? ==> t.notes == "") && (p.notes.Some? ==> t.notes == p.notes.value) &&
            (p.isRecurring.None? ==> !t.isRecurring) && (p.isRecurring.Some? ==> t.isRecurring == p.isRecurring.value) &&
            (p.amount.None? ==> t.amount == 0.0) && (p.amount.Some? ==> t.amount == p.amount.value) &&
            t.photoUrl == p.photoUrl
  {
  }

  /**
   * Editing keeps the length; records with another id are untouched; the
   * matched records are merged with the patch and keep their id.
   */
  lemma EditUpdatesMatchedOnly(txs: seq<Transaction>, cats: seq<Category>, p: TxPatch, freshId: string, now: Instant)
    requires IsEdit(p)
    ensures var r := AddOrUpdate(txs, cats, p, freshId, now);
            |r| == |txs| &&
            (forall i :: 0 <= i < |txs| && txs[i].id != p.id.value ==> r[i] == txs[i]) &&
            (forall i :: 0 <= i < |txs| && txs[i].id == p.id.value ==> r[i] == Merge(txs[i], p) && r[i].id == txs[i].id)
  {
  }

  /** Editing an id that no record carries returns the list unchanged. */
  lemma EditMissingIdIsNoOp(txs: seq<Transaction>, cats: seq<Category>, p: TxPatch, freshId: string, now: Instant)
    requires IsEdit(p)
    requires forall t :: t in txs ==> t.id != p.id.value
    ensures AddOrUpdate(txs, cats, p, freshId, now) == txs
  {
    assert forall i :: 0 <= i < |txs| ==> txs[i] in txs;
  }

  /** Applying the same edit twice is the same as applying it once. */
  lemma EditIsIdempotent(txs: seq<Transaction>, cats: seq<Category>, p: TxPatch, freshId: string, now: Instant)
    requires IsEdit(p)
    ensures var once := AddOrUpdate(txs, cats, p, freshId, now);
            AddOrUpdate(once, cats, p, freshId, now) == once
  {
    var once := AddOrUpdate(txs, cats, p, freshId, now);
    forall i | 0 <= i < |txs| ensures AddOrUpdate(once, cats, p, freshId, now)[i] == once[i] {
      MergeTakesGivenFields(txs[i], p);
    }
  }

  /** Adding or editing a transaction never touches the categories or the settings. */
  lemma ApplyTransactionFrame(s: AppState, p: TxPatch, freshId: string, now: Instant)
    requires NeedsDefaultCategory(p) ==> |s.categories| > 0
    ensures ApplyTransaction(s, p, freshId, now).categories == s.categories
    ensures ApplyTransaction(s, p, freshId, now).settings == s.settings
  {
  }

  /** Updating settings overrides only the given fields and touches nothing else. */
  lemma ApplySettingsFrame(s: AppState, p: SettingsPatch)
    ensures var r := ApplySettings(s, p);
            r.transactions == s.transactions && r.categories == s.categories &&
            (p.currency.Some? ==> r.settings.currency == p.currency.value) &&
            (p.currency.None? ==> r.settings.currency == s.settings.currency) &&
            (p.isDarkMode.Some? ==> r.settings.isDarkMode == p.isDarkMode.value) &&
            (p.isDarkMode.None? ==> r.settings.isDarkMode == s.settings.isDarkMode) &&
            (p.monthStartDay.Some? ==> r.settings.monthStartDay == p.monthStartDay.value) &&
            (p.monthStartDay.None? ==> r.settings.monthStartDay == s.settings.monthStartDay) &&
            (p.lastBackup.Some? ==> r.settings.lastBackup == p.lastBackup) &&
            (p.lastBackup.None? ==> r.settings.lastBackup == s.settings.lastBackup)
  {
  }

  /** No two transactions of the list share an id. */
  predicate UniqueIds(txs: seq<Transaction>)
  {
    forall i, j :: 0 <= i < j < |txs| ==> txs[i].id != txs[j].id
  }

  /**
   * When the new id is fresh, ids stay unique: an add brings a new id and an
   * edit keeps every id.  Nothing in the store itself makes the id fresh.
   */
  lemma FreshIdKeepsIdsUnique(txs: seq<Transaction>, cats: seq<Category>, p: TxPatch, freshId: string, now: Instant)
    requires NeedsDefaultCategory(p) ==> |cats| > 0
    requires UniqueIds(txs)
    requires forall t :: t in txs ==> t.id != freshId
    ensures UniqueIds(AddOrUpdate(txs, cats, p, freshId, now))
  {
    var r := AddOrUpdate(txs, cats, p, freshId, now);
    if !IsEdit(p) {
      forall i, j | 0 <= i < j < |r| ensures r[i].id != r[j].id {
        if j == |txs| {
          assert r[i] == txs[i];
          assert txs[i] in txs;
        } else {
          assert r[i] == txs[i] && r[j] == txs[j];
        }
      }
    } else {
      assert forall i :: 0 <= i < |r| ==> r[i].id == txs[i].id;
    }
  }

  /** Positive amounts stay positive when the patch's amount is positive. */
  lemma PositiveAmountsPreserved(txs: seq<Transaction>, cats: seq<Category>, p: TxPatch, freshId: string, now: Instant)
    requires NeedsDefaultCategory(p) ==> |cats| > 0
    requires forall t :: t in txs ==> t.amount > 0.0
    requires p.amount.Some? && p.amount.value > 0.0
    ensures forall t :: t in AddOrUpdate(txs, cats, p, freshId, now) ==> t.amount > 0.0
  {
    var r := AddOrUpdate(txs, cats, p, freshId, now);
    forall t | t in r ensures t.amount > 0.0 {
      var i :| 0 <= i < |r| && r[i] == t;
      if i < |txs| {
        assert txs[i] in txs;
      }
    }
  }

  // ----------------------------------------------------------------- store

  /** The component state: one `AppState`, replaced by each callback. */
  class AppStore {
    var state: AppState

    /** The state `loadState` gives when nothing is stored. */
    constructor ()
      ensures state == DefaultState
    {
      state := DefaultState;
    }

    /** `addOrUpdateTransaction`: copy the list, then map it for an edit or push onto it for an add. */
    method AddOrUpdateTransaction(p: TxPatch, freshId: string, now: Instant)
      requires NeedsDefaultCategory(p) ==> |state.categories| > 0
      modifies this
      ensures state == ApplyTransaction(old(state), p, freshId, now)
      ensures state.categories == old(state.categories) && state.settings == old(state.settings)
    {
      var txs := state.transactions;
      if IsEdit(p) {
        txs := EditById(txs, p);
      } else {
        var t := NewTransaction(p, freshId, now, state.categories);
        txs := txs + [t];
      }
      state := state.(transactions := txs);
    }

    /** `updateSettings`. */
    method UpdateSettings(p: SettingsPatch)
      modifies this
      ensures state == ApplySettings(old(state), p)
      ensures state.transactions == old(state.transactions) && state.categories == old(state.categories)
    {
      state := state.(settings := MergeSettings(state.settings, p));
    }
  }
}
