/**
 * The filter-and-sum building blocks every view is made of: the sum of the
 * amounts of a list of transactions (a left-to-right `reduce`), a filter, and
 * the per-category tally that the home and budget views build by mutating a
 * `reduce` accumulator keyed by category id.
 */
module Ledger {
  import opened Model

  /** The sum of the amounts, added from the first transaction to the last. */
  function Sum(txs: seq<Transaction>): real
  {
    if txs == [] then 0.0 else Sum(txs[..|txs| - 1]) + txs[|txs| - 1].amount
  }

  /** The transactions that satisfy `p`, in their original order. */
  function Filter(txs: seq<Transaction>, p: Transaction -> bool): (r: seq<Transaction>)
    ensures |r| <= |txs|
  {
    if txs == [] then []
    else
      var last := txs[|txs| - 1];
      Filter(txs[..|txs| - 1], p) + (if p(last) then [last] else [])
  }

  /** The filter keeps exactly the transactions of the list that satisfy the predicate. */
  lemma {:induction false} FilterMembers(txs: seq<Transaction>, p: Transaction -> bool)
    ensures forall t :: t in Filter(txs, p) <==> t in txs && p(t)
  {
    if txs != [] {
      FilterMembers(txs[..|txs| - 1], p);
      assert txs == txs[..|txs| - 1] + [txs[|txs| - 1]];
    }
  }

  predicate NonNegative(txs: seq<Transaction>)
  {
    forall t :: t in txs ==> t.amount >= 0.0
  }

  /** The sum of a concatenation is the sum of the parts. */
  lemma {:induction false} SumAppend(a: seq<Transaction>, b: seq<Transaction>)
    ensures Sum(a + b) == Sum(a) + Sum(b)
  {
    if b == [] {
      assert a + b == a;
    } else {
      var n := |b| - 1;
      assert (a + b)[..|a + b| - 1] == a + b[..n];
      SumAppend(a, b[..n]);
    }
  }

  /** Filtering distributes over concatenation. */
  lemma {:induction false} FilterAppend(a: seq<Transaction>, b: seq<Transaction>, p: Transaction -> bool)
    ensures Filter(a + b, p) == Filter(a, p) + Filter(b, p)
  {
    if b == [] {
      assert a + b == a;
    } else {
      var n := |b| - 1;
      assert (a + b)[..|a + b| - 1] == a + b[..n];
      FilterAppend(a, b[..n], p);
    }
  }

  /** Two predicates that agree on the list select the same transactions. */
  lemma {:induction false} FilterAgree(txs: seq<Transaction>, p: Transaction -> bool, q: Transaction -> bool)
    requires forall t :: t in txs ==> (p(t) <==> q(t))
    ensures Filter(txs, p) == Filter(txs, q)
  {
    if txs != [] {
      FilterAgree(txs[..|txs| - 1], p, q);
    }
  }

  /** A predicate that holds of every transaction keeps the whole list. */
  lemma {:induction false} FilterKeepsAll(txs: seq<Transaction>, p: Transaction -> bool)
    requires forall t :: t in txs ==> p(t)
    ensures Filter(txs, p) == txs
  {
    if txs != [] {
      FilterKeepsAll(txs[..|txs| - 1], p);
    }
  }

  /** A predicate that holds of no transaction keeps nothing. */
  lemma {:induction false} FilterKeepsNone(txs: seq<Transaction>, p: Transaction -> bool)
    requires forall t :: t in txs ==> !p(t)
    ensures Filter(txs, p) == []
  {
    if txs != [] {
      FilterKeepsNone(txs[..|txs| - 1], p);
    }
  }

  /**
   * With non-negative amounts, selecting more transactions never gives a
   * smaller sum.
   */
  lemma {:induction false} SumFilterMonotone(txs: seq<Transaction>, p: Transaction -> bool, q: Transaction -> bool)
    requires NonNegative(txs)
    requires forall t :: t in txs && p(t) ==> q(t)
    ensures Sum(Filter(txs, p)) <= Sum(Filter(txs, q))
  {
    if txs != [] {
      var init, last := txs[..|txs| - 1], txs[|txs| - 1];
      SumFilterMonotone(init, p, q);
      SumAppend(Filter(init, p), if p(last) then [last] else []);
      SumAppend(Filter(init, q), if q(last) then [last] else []);
      assert Sum([last]) == last.amount by { assert [last][..0] == []; }
    }
  }

  /**
   * When `p` holds exactly where one of two exclusive predicates `q`, `r`
   * holds, the sum over `p` splits into the sums over `q` and over `r`.
   */
  lemma {:induction false} SumFilterSplit(txs: seq<Transaction>, p: Transaction -> bool, q: Transaction -> bool, r: Transaction -> bool)
    requires forall t :: t in txs ==> (p(t) <==> q(t) || r(t))
    requires forall t :: t in txs ==> !(q(t) && r(t))
    ensures Sum(Filter(txs, p)) == Sum(Filter(txs, q)) + Sum(Filter(txs, r))
  {
    if txs != [] {
      var init, last := txs[..|txs| - 1], txs[|txs| - 1];
      SumFilterSplit(init, p, q, r);
      SumAppend(Filter(init, p), if p(last) then [last] else []);
      SumAppend(Filter(init, q), if q(last) then [last] else []);
      SumAppend(Filter(init, r), if r(last) then [last] else []);
      assert Sum([last]) == last.amount by { assert [last][..0] == []; }
    }
  }

  /** Filtering twice is filtering once by the conjunction. */
  lemma {:induction false} FilterOfFilter(txs: seq<Transaction>, q: Transaction -> bool, r: Transaction -> bool, p: Transaction -> bool)
    requires forall t :: t in txs ==> (p(t) <==> q(t) && r(t))
    ensures Filter(Filter(txs, q), r) == Filter(txs, p)
  {
    if txs != [] {
      var init, last := txs[..|txs| - 1], txs[|txs| - 1];
      FilterOfFilter(init, q, r, p);
      FilterAppend(Filter(init, q), if q(last) then [last] else [], r);
      assert Filter([last], r) == if r(last) then [last] else [] by {
        assert [last][..0] == [];
      }
    }
  }

  /** With non-negative amounts, every filtered sum is non-negative. */
  lemma {:induction false} SumNonNegative(txs: seq<Transaction>)
    requires NonNegative(txs)
    ensures Sum(txs) >= 0.0
  {
    if txs != [] {
      SumNonNegative(txs[..|txs| - 1]);
    }
  }

  /** With non-negative amounts, a filtered sum is at most the full sum. */
  lemma SumFilterAtMostSum(txs: seq<Transaction>, p: Transaction -> bool)
    requires NonNegative(txs)
    ensures Sum(Filter(txs, p)) <= Sum(txs)
  {
    var all := (t: Transaction) => true;
    SumFilterMonotone(txs, p, all);
    FilterKeepsAll(txs, all);
  }

  /** The sum of the limits of a list of categories, first to last. */
  function SumLimits(cats: seq<Category>): real
  {
    if cats == [] then 0.0 else SumLimits(cats[..|cats| - 1]) + cats[|cats| - 1].limit
  }

  /** One running total of the tally: a key and the amount summed under it. */
  datatype Entry = Entry(key: string, total: real)

  /** `acc[key] = (acc[key] || 0) + amount` on an insertion-ordered dictionary. */
  function Bump(acc: seq<Entry>, key: string, amount: real): seq<Entry>
  {
    if acc == [] then [Entry(key, amount)]
    else if acc[0].key == key then [Entry(key, acc[0].total + amount)] + acc[1..]
    else [acc[0]] + Bump(acc[1..], key, amount)
  }

  /** `acc[key] || 0`: the running total under `key`, or 0 when there is none. */
  function Lookup(acc: seq<Entry>, key: string): real
  {
    if acc == [] then 0.0
    else if acc[0].key == key then acc[0].total
    else Lookup(acc[1..], key)
  }

  /** The sum of all running totals (`Object.values(acc)` summed). */
  function SumTotals(acc: seq<Entry>): real
  {
    if acc == [] then 0.0 else acc[0].total + SumTotals(acc[1..])
  }

  predicate DistinctKeys(acc: seq<Entry>)
  {
    forall i, j :: 0 <= i < j < |acc| ==> acc[i].key != acc[j].key
  }

  function Keys(acc: seq<Entry>): set<string>
  {
    set e | e in acc :: e.key
  }

  /** The per-category tally of a list: the `reduce` over it, first to last. */
  function Tally(txs: seq<Transaction>): seq<Entry>
  {
    if txs == [] then []
    else
      var last := txs[|txs| - 1];
      Bump(Tally(txs[..|txs| - 1]), last.categoryId, last.amount)
  }

  /** The transactions filed under category id `c`. */
  function InCategory(c: string): Transaction -> bool
  {
    (t: Transaction) => t.categoryId == c
  }

  /** Bumping `key` adds `amount` to its total and leaves every other total alone. */
  lemma {:induction false} BumpLookup(acc: seq<Entry>, key: string, amount: real, k: string)
    ensures Lookup(Bump(acc, key, amount), k) == Lookup(acc, k) + (if k == key then amount else 0.0)
  {
    if acc != [] && acc[0].key != key {
      BumpLookup(acc[1..], key, amount, k);
    }
  }

  /** Bumping adds `amount` to the sum of all totals. */
  lemma {:induction false} BumpSumTotals(acc: seq<Entry>, key: string, amount: real)
    ensures SumTotals(Bump(acc, key, amount)) == SumTotals(acc) + amount
  {
    if acc != [] && acc[0].key != key {
      BumpSumTotals(acc[1..], key, amount);
      assert ([acc[0]] + Bump(acc[1..], key, amount))[1..] == Bump(acc[1..], key, amount);
    } else if acc != [] {
      assert ([Entry(key, acc[0].total + amount)] + acc[1..])[1..] == acc[1..];
    }
  }

  lemma KeysCons(e: Entry, acc: seq<Entry>)
    ensures Keys([e] + acc) == {e.key} + Keys(acc)
  {
    assert forall x :: x in [e] + acc <==> x == e || x in acc;
  }

  /** Bumping adds `key` to the keys and removes none. */
  lemma {:induction false} BumpKeySet(acc: seq<Entry>, key: string, amount: real)
    ensures Keys(Bump(acc, key, amount)) == Keys(acc) + {key}
  {
    if acc != [] {
      assert acc == [acc[0]] + acc[1..];
      KeysCons(acc[0], acc[1..]);
      if acc[0].key != key {
        BumpKeySet(acc[1..], key, amount);
        KeysCons(acc[0], Bump(acc[1..], key, amount));
      } else {
        KeysCons(Entry(key, acc[0].total + amount), acc[1..]);
      }
    }
  }

  /** A list of entries has distinct keys when its head's key is not among its tail's. */
  lemma DistinctKeysCons(e: Entry, acc: seq<Entry>)
    requires DistinctKeys(acc)
    requires e.key !in Keys(acc)
    ensures DistinctKeys([e] + acc)
  {
    var r := [e] + acc;
    forall i, j | 0 <= i < j < |r| ensures r[i].key != r[j].key {
      if i == 0 {
        assert r[j] == acc[j - 1];
        assert r[j] in acc;
      } else {
        assert r[i] == acc[i - 1] && r[j] == acc[j - 1];
      }
    }
  }

  /** Bumping keeps the keys distinct. */
  lemma {:induction false} BumpDistinct(acc: seq<Entry>, key: string, amount: real)
    requires DistinctKeys(acc)
    ensures DistinctKeys(Bump(acc, key, amount))
  {
    if acc != [] {
      var tail := acc[1..];
      assert acc == [acc[0]] + tail;
      assert DistinctKeys(tail) by {
        forall i, j | 0 <= i < j < |tail| ensures tail[i].key != tail[j].key {
          assert tail[i] == acc[i + 1] && tail[j] == acc[j + 1];
        }
      }
      assert acc[0].key !in Keys(tail) by {
        forall e | e in tail ensures e.key != acc[0].key {
          var i :| 0 <= i < |tail| && tail[i] == e;
          assert acc[i + 1] == e;
        }
      }
      if acc[0].key != key {
        BumpDistinct(tail, key, amount);
        BumpKeySet(tail, key, amount);
        DistinctKeysCons(acc[0], Bump(tail, key, amount));
      } else {
        DistinctKeysCons(Entry(key, acc[0].total + amount), tail);
      }
    }
  }

  /** The tally's total under `c` is the sum of the transactions filed under `c`. */
  lemma {:induction false} TallyLookup(txs: seq<Transaction>, c: string)
    ensures Lookup(Tally(txs), c) == Sum(Filter(txs, InCategory(c)))
  {
    if txs != [] {
      var init, last := txs[..|txs| - 1], txs[|txs| - 1];
      TallyLookup(init, c);
      BumpLookup(Tally(init), last.categoryId, last.amount, c);
      SumAppend(Filter(init, InCategory(c)), if InCategory(c)(last) then [last] else []);
      assert Sum([last]) == last.amount by { assert [last][..0] == []; }
    }
  }

  /** Summing the tally gives the sum of every transaction, whatever its category. */
  lemma {:induction false} TallySumTotals(txs: seq<Transaction>)
    ensures SumTotals(Tally(txs)) == Sum(txs)
  {
    if txs != [] {
      var init, last := txs[..|txs| - 1], txs[|txs| - 1];
      TallySumTotals(init);
      BumpSumTotals(Tally(init), last.categoryId, last.amount);
    }
  }

  /** The tally is a dictionary: one entry per category id that occurs, and no other. */
  lemma {:induction false} TallyKeys(txs: seq<Transaction>)
    ensures DistinctKeys(Tally(txs))
    ensures Keys(Tally(txs)) == set t | t in txs :: t.categoryId
  {
    if txs != [] {
      var init, last := txs[..|txs| - 1], txs[|txs| - 1];
      TallyKeys(init);
      BumpKeySet(Tally(init), last.categoryId, last.amount);
      BumpDistinct(Tally(init), last.categoryId, last.amount);
      assert txs == init + [last];
      assert (set t | t in txs :: t.categoryId) == (set t | t in init :: t.categoryId) + {last.categoryId};
    }
  }

  /** The ids of a list of categories. */
  function Ids(cats: seq<Category>): set<string>
  {
    set c | c in cats :: c.id
  }

  /** The transactions filed under the id of any category of `cats`. */
  function InAnyCategory(cats: seq<Category>): Transaction -> bool
  {
    (t: Transaction) => t.categoryId in Ids(cats)
  }

  /** The per-category sums added up over `cats`, first category first. */
  function SumPerCategory(txs: seq<Transaction>, cats: seq<Category>): real
  {
    if cats == [] then 0.0
    else Sum(Filter(txs, InCategory(cats[0].id))) + SumPerCategory(txs, cats[1..])
  }

  /** Splitting off the first category of a list with distinct ids. */
  lemma IdsSplit(cats: seq<Category>)
    requires cats != [] && DistinctIds(cats)
    ensures Ids(cats) == {cats[0].id} + Ids(cats[1..])
    ensures cats[0].id !in Ids(cats[1..])
    ensures DistinctIds(cats[1..])
  {
    var tail := cats[1..];
    assert cats == [cats[0]] + tail;
    forall c | c in tail ensures c.id != cats[0].id {
      var i :| 0 <= i < |tail| && tail[i] == c;
      assert cats[i + 1] == c;
    }
    forall i, j | 0 <= i < j < |tail| ensures tail[i].id != tail[j].id {
      assert tail[i] == cats[i + 1] && tail[j] == cats[j + 1];
    }
  }

  /**
   * With distinct category ids no transaction is counted twice: the
   * per-category sums add up to the sum over the union of the categories.
   */
  lemma {:induction false} SumPerCategoryIsSumOverUnion(txs: seq<Transaction>, cats: seq<Category>)
    requires DistinctIds(cats)
    ensures SumPerCategory(txs, cats) == Sum(Filter(txs, InAnyCategory(cats)))
  {
    if cats == [] {
      FilterKeepsNone(txs, InAnyCategory(cats));
    } else {
      var head, tail := cats[0], cats[1..];
      IdsSplit(cats);
      SumPerCategoryIsSumOverUnion(txs, tail);
      SumFilterSplit(txs, InAnyCategory(cats), InCategory(head.id), InAnyCategory(tail));
    }
  }
}
