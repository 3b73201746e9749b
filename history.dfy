/**
 * The history screen: a free-text search over notes and category names, a
 * newest-first stable sort, and a grouping of the result by calendar day,
 * each group carrying the signed total of its transactions.
 */
module History {
  import opened Calendar
  import opened Model
  import opened Ledger

  // ---------------------------------------------------------------- search

  /** `toLowerCase` on the ASCII letters; other characters are kept. */
  function LowerChar(c: char): char
  {
    if 'A' <= c <= 'Z' then (c as int + 32) as char else c
  }

  function Lower(s: string): (r: string)
    ensures |r| == |s|
  {
    seq(|s|, i requires 0 <= i < |s| => LowerChar(s[i]))
  }

  predicate IsPrefix(p: string, s: string)
  {
    |p| <= |s| && s[..|p|] == p
  }

  /** `s.includes(sub)`: `sub` occurs in `s` at some position. */
  predicate Contains(s: string, sub: string)
  {
    IsPrefix(sub, s) || (s != [] && Contains(s[1..], sub))
  }

  /** `sub` occurs in `s` starting at position `i`. */
  predicate OccursAt(s: string, sub: string, i: int)
  {
    0 <= i <= |s| - |sub| && s[i..i + |sub|] == sub
  }

  /** `Contains` holds exactly when `sub` occurs at some position of `s`. */
  lemma {:induction false} ContainsAt(s: string, sub: string)
    ensures Contains(s, sub) <==> exists i :: OccursAt(s, sub, i)
  {
    if IsPrefix(sub, s) {
      assert s[0..|sub|] == s[..|sub|];
      assert OccursAt(s, sub, 0);
    } else if s != [] {
      ContainsAt(s[1..], sub);
      if exists i :: OccursAt(s, sub, i) {
        var i :| OccursAt(s, sub, i);
        assert i != 0 by {
          assert s[..|sub|] == s[0..|sub|];
        }
        assert s[1..][i - 1..i - 1 + |sub|] == s[i..i + |sub|];
        assert OccursAt(s[1..], sub, i - 1);
      }
      if exists i :: OccursAt(s[1..], sub, i) {
        var i :| OccursAt(s[1..], sub, i);
        assert s[i + 1..i + 1 + |sub|] == s[1..][i..i + |sub|];
        assert OccursAt(s, sub, i + 1);
      }
    }
  }

  /** `categories.find(c => c.id === id)`: the first category with that id. */
  function FindCategory(cats: seq<Category>, id: string): (r: Option<Category>)
    ensures r.Some? ==> r.value in cats && r.value.id == id
    ensures r.None? <==> forall c :: c in cats ==> c.id != id
    ensures r.Some? ==> exists i :: 0 <= i < |cats| && cats[i] == r.value && forall j :: 0 <= j < i ==> cats[j].id != id
  {
    if cats == [] then None
    else if cats[0].id == id then Some(cats[0])
    else FindCategory(cats[1..], id)
  }

  /** A transaction matches when its notes, or its category's name, contain the term, ignoring case. */
  function MatchesSearch(cats: seq<Category>, term: string): Transaction -> bool
  {
    (t: Transaction) =>
      Contains(Lower(t.notes), Lower(term)) ||
      (var c := FindCategory(cats, t.categoryId);
       c.Some? && Contains(Lower(c.value.name), Lower(term)))
  }

  function Search(txs: seq<Transaction>, cats: seq<Category>, term: string): seq<Transaction>
  {
    Filter(txs, MatchesSearch(cats, term))
  }

  /** An empty search term keeps every transaction, in order. */
  lemma EmptySearchKeepsAll(txs: seq<Transaction>, cats: seq<Category>)
    ensures Search(txs, cats, "") == txs
  {
    forall t | t in txs ensures MatchesSearch(cats, "")(t) {
      assert IsPrefix(Lower(""), Lower(t.notes));
    }
    FilterKeepsAll(txs, MatchesSearch(cats, ""));
  }

  /** A transaction whose category id names no category is found through its notes only. */
  lemma UnknownCategoryMatchesByNotes(cats: seq<Category>, term: string, t: Transaction)
    requires forall c :: c in cats ==> c.id != t.categoryId
    ensures MatchesSearch(cats, term)(t) <==> Contains(Lower(t.notes), Lower(term))
  {
  }

  // ------------------------------------------------------------------ sort

  /** `a` is strictly later than `b`. */
  predicate Later(a: Instant, b: Instant)
  {
    !AtOrBefore(a, b)
  }

  /** Insert `x` before the first transaction that is not strictly later than it. */
  function Insert(x: Transaction, s: seq<Transaction>): (r: seq<Transaction>)
    ensures multiset(r) == multiset(s) + multiset{x}
  {
    if s == [] then [x]
    else if Later(s[0].date, x.date) then
      assert s == [s[0]] + s[1..];
      [s[0]] + Insert(x, s[1..])
    else [x] + s
  }

  /** `sort((a, b) => compareDesc(a.date, b.date))`: newest first, equal dates kept in input order. */
  function SortNewestFirst(s: seq<Transaction>): (r: seq<Transaction>)
    ensures multiset(r) == multiset(s)
  {
    if s == [] then []
    else
      assert s == [s[0]] + s[1..];
      Insert(s[0], SortNewestFirst(s[1..]))
  }

  predicate NewestFirst(s: seq<Transaction>)
  {
    forall i, j :: 0 <= i < j < |s| ==> AtOrBefore(s[j].date, s[i].date)
  }

  lemma {:induction false} InsertKeepsOrder(x: Transaction, s: seq<Transaction>)
    requires NewestFirst(s)
    ensures NewestFirst(Insert(x, s))
  {
    if s != [] && Later(s[0].date, x.date) {
      InsertKeepsOrder(x, s[1..]);
      var r := Insert(x, s[1..]);
      forall y | y in r ensures AtOrBefore(y.date, s[0].date) {
        assert y in multiset(r);
        if y != x {
          assert y in s[1..];
        }
      }
    }
  }

  /** The sort puts every transaction at or after its successors. */
  lemma {:induction false} SortIsNewestFirst(s: seq<Transaction>)
    ensures NewestFirst(SortNewestFirst(s))
  {
    if s != [] {
      SortIsNewestFirst(s[1..]);
      InsertKeepsOrder(s[0], SortNewestFirst(s[1..]));
    }
  }

  /** The transactions dated exactly at `k`. */
  function DatedAt(k: Instant): Transaction -> bool
  {
    (t: Transaction) => t.date == k
  }

  lemma FilterSingleton(y: Transaction, p: Transaction -> bool)
    ensures Filter([y], p) == if p(y) then [y] else []
  {
    assert [y][..0] == [];
  }

  /** Two transactions with different dates commute under a date filter. */
  lemma SwapDistinctDates(x: Transaction, y: Transaction, k: Instant)
    requires x.date != y.date
    ensures Filter([y], DatedAt(k)) + Filter([x], DatedAt(k)) == Filter([x], DatedAt(k)) + Filter([y], DatedAt(k))
  {
    FilterSingleton(x, DatedAt(k));
    FilterSingleton(y, DatedAt(k));
  }

  lemma {:induction false} InsertStable(x: Transaction, s: seq<Transaction>, k: Instant)
    ensures Filter(Insert(x, s), DatedAt(k)) == Filter([x] + s, DatedAt(k))
  {
    if s != [] && Later(s[0].date, x.date) {
      var p, y, rest := DatedAt(k), s[0], s[1..];
      assert [y] + rest == s;
      assert Insert(x, s) == [y] + Insert(x, rest);
      assert x.date != y.date;
      calc {
        Filter(Insert(x, s), p);
        Filter([y] + Insert(x, rest), p);
        { FilterAppend([y], Insert(x, rest), p); }
        Filter([y], p) + Filter(Insert(x, rest), p);
        { InsertStable(x, rest, k); FilterAppend([x], rest, p); }
        Filter([y], p) + (Filter([x], p) + Filter(rest, p));
        { SwapDistinctDates(x, y, k); }
        Filter([x], p) + (Filter([y], p) + Filter(rest, p));
        { FilterAppend([y], rest, p); }
        Filter([x], p) + Filter(s, p);
        { FilterAppend([x], s, p); }
        Filter([x] + s, p);
      }
    } else {
      assert Insert(x, s) == [x] + s;
    }
  }

  /**
   * The sort is stable: for every instant, the transactions dated at it
   * appear in the same relative order as in the input.
   */
  lemma {:induction false} SortIsStable(s: seq<Transaction>, k: Instant)
    ensures Filter(SortNewestFirst(s), DatedAt(k)) == Filter(s, DatedAt(k))
  {
    if s != [] {
      SortIsStable(s[1..], k);
      InsertStable(s[0], SortNewestFirst(s[1..]), k);
      FilterAppend([s[0]], SortNewestFirst(s[1..]), DatedAt(k));
      FilterAppend([s[0]], s[1..], DatedAt(k));
      assert [s[0]] + s[1..] == s;
    }
  }

  // -------------------------------------------------------------- grouping

  datatype LabelKind = TodayLabel | YesterdayLabel | DateLabel

  /**
   * The group key of a day: "Today, ..." for the day of `now`, "Yesterday,
   * ..." for the day before, the full date otherwise.  The text itself is
   * not modelled; the key keeps the day it names.
   */
  datatype DayLabel = DayLabel(kind: LabelKind, day: int)

  function LabelOf(date: Instant, now: Instant): (l: DayLabel)
    ensures l.day == date.day
  {
    if date.day == now.day then DayLabel(TodayLabel, date.day)
    else if date.day == now.day - 1 then DayLabel(YesterdayLabel, date.day)
    else DayLabel(DateLabel, date.day)
  }

  /** Two transactions share a key exactly when they fall on the same day. */
  lemma LabelsNameDays(a: Instant, b: Instant, now: Instant)
    ensures LabelOf(a, now) == LabelOf(b, now) <==> SameDay(a, b)
  {
  }

  datatype Group = Group(key: DayLabel, items: seq<Transaction>, total: real)

  /** What a transaction adds to its group's total: income adds, an expense subtracts. */
  function Signed(t: Transaction): real
  {
    if IsExpense(t) then -t.amount else t.amount
  }

  function SignedSum(items: seq<Transaction>): real
  {
    if items == [] then 0.0 else SignedSum(items[..|items| - 1]) + Signed(items[|items| - 1])
  }

  function LabelsOf(groups: seq<Group>): (r: seq<DayLabel>)
    ensures |r| == |groups|
  {
    seq(|groups|, i requires 0 <= i < |groups| => groups[i].key)
  }

  /** The position of the first occurrence of `l`. */
  function IndexOf(labels: seq<DayLabel>, l: DayLabel): (r: Option<nat>)
    ensures r.Some? ==> r.value < |labels| && labels[r.value] == l && l !in labels[..r.value]
    ensures r.None? <==> l !in labels
  {
    if labels == [] then None
    else if labels[0] == l then Some(0)
    else
      match IndexOf(labels[1..], l)
      case None => None
      case Some(k) => (assert labels[..k + 1] == [labels[0]] + labels[1..][..k]; Some(k + 1))
  }

  /** The key of a transaction. */
  function HasLabel(l: DayLabel, now: Instant): Transaction -> bool
  {
    (t: Transaction) => LabelOf(t.date, now) == l
  }

  /** One step of the loop: file `t` under its key, opening a group for a new key. */
  function Place(groups: seq<Group>, t: Transaction, now: Instant): seq<Group>
  {
    var l := LabelOf(t.date, now);
    match IndexOf(LabelsOf(groups), l)
    case None => groups + [Group(l, [t], Signed(t))]
    case Some(i) => groups[i := Group(l, groups[i].items + [t], groups[i].total + Signed(t))]
  }

  /** The groups the loop has built after visiting `s`, first to last. */
  function GroupsOf(s: seq<Transaction>, now: Instant): seq<Group>
  {
    if s == [] then [] else Place(GroupsOf(s[..|s| - 1], now), s[|s| - 1], now)
  }

  /** The items of the group labelled `l`, or none when there is no such group. */
  function ItemsUnder(groups: seq<Group>, l: DayLabel): seq<Transaction>
  {
    match IndexOf(LabelsOf(groups), l)
    case None => []
    case Some(i) => groups[i].items
  }

  predicate DistinctLabels(groups: seq<Group>)
  {
    forall i, j :: 0 <= i < j < |groups| ==> groups[i].key != groups[j].key
  }

  /** The shape every group has: non-empty, and its total is the signed sum of its items. */
  predicate WellFormed(groups: seq<Group>)
  {
    forall g :: g in groups ==> g.items != [] && g.total == SignedSum(g.items)
  }

  lemma PlaceLabels(groups: seq<Group>, t: Transaction, now: Instant)
    ensures var l := LabelOf(t.date, now);
            LabelsOf(Place(groups, t, now)) ==
              if l in LabelsOf(groups) then LabelsOf(groups) else LabelsOf(groups) + [l]
  {
  }

  lemma {:induction false} IndexOfAppend(labels: seq<DayLabel>, x: DayLabel, l: DayLabel)
    ensures IndexOf(labels + [x], l) ==
      if l in labels then IndexOf(labels, l) else if x == l then Some(|labels|) else None
  {
    if labels != [] && labels[0] != l {
      assert (labels + [x])[1..] == labels[1..] + [x];
      IndexOfAppend(labels[1..], x, l);
    }
  }

  /** Visiting `t` adds it to the end of its key's items and leaves every other key's items alone. */
  lemma PlaceItems(groups: seq<Group>, t: Transaction, now: Instant, l: DayLabel)
    ensures ItemsUnder(Place(groups, t, now), l) ==
      ItemsUnder(groups, l) + (if LabelOf(t.date, now) == l then [t] else [])
  {
    var m := LabelOf(t.date, now);
    PlaceLabels(groups, t, now);
    if m !in LabelsOf(groups) {
      IndexOfAppend(LabelsOf(groups), m, l);
    }
  }

  /**
   * Each key's group holds exactly the transactions of that day, in
   * visiting order; a key with no transaction has no group.
   */
  lemma {:induction false} GroupsItemsAreThatDay(s: seq<Transaction>, now: Instant, l: DayLabel)
    ensures ItemsUnder(GroupsOf(s, now), l) == Filter(s, HasLabel(l, now))
  {
    if s != [] {
      GroupsItemsAreThatDay(s[..|s| - 1], now, l);
      PlaceItems(GroupsOf(s[..|s| - 1], now), s[|s| - 1], now, l);
    }
  }

  /** The groups carry distinct labels, none is empty, and each total is the signed sum of its items. */
  lemma {:induction false} GroupsWellFormed(s: seq<Transaction>, now: Instant)
    ensures DistinctLabels(GroupsOf(s, now))
    ensures WellFormed(GroupsOf(s, now))
  {
    if s != [] {
      var init, t := s[..|s| - 1], s[|s| - 1];
      GroupsWellFormed(init, now);
      var g := GroupsOf(init, now);
      var l := LabelOf(t.date, now);
      match IndexOf(LabelsOf(g), l)
      case None =>
        assert [t][..0] == [];
        forall i | 0 <= i < |g| ensures g[i].key != l {
          assert LabelsOf(g)[i] == g[i].key;
        }
      case Some(i) =>
        var items := g[i].items + [t];
        assert items[..|items| - 1] == g[i].items;
        forall h | h in Place(g, t, now) ensures h.items != [] && h.total == SignedSum(h.items) {
          var j :| 0 <= j < |Place(g, t, now)| && Place(g, t, now)[j] == h;
          if j != i {
            assert h == g[j];
          }
        }
    }
  }

  /** The concatenation of the groups' items, in group order. */
  function Flatten(groups: seq<Group>): seq<Transaction>
  {
    if groups == [] then [] else Flatten(groups[..|groups| - 1]) + groups[|groups| - 1].items
  }

  /** Days never increase along the list. */
  predicate DaysDescending(s: seq<Transaction>)
  {
    forall i, j :: 0 <= i < j < |s| ==> s[j].date.day <= s[i].date.day
  }

  /** The groups' days strictly decrease: newest day first. */
  predicate GroupsNewestFirst(groups: seq<Group>)
  {
    forall i, j :: 0 <= i < j < |groups| ==> groups[j].key.day < groups[i].key.day
  }

  lemma FlattenUpdateLast(groups: seq<Group>, g: Group, t: Transaction)
    requires groups != [] && g.items == groups[|groups| - 1].items + [t]
    ensures Flatten(groups[|groups| - 1 := g]) == Flatten(groups) + [t]
  {
    var n := |groups| - 1;
    assert groups[n := g][..n] == groups[..n];
  }

  lemma FlattenAppend(groups: seq<Group>, g: Group)
    ensures Flatten(groups + [g]) == Flatten(groups) + g.items
  {
    assert (groups + [g])[..|groups|] == groups;
  }

  /** Visiting a transaction no later in days than the last group's day, over newest-first groups. */
  lemma PlaceAfterNewestFirst(g: seq<Group>, t: Transaction, u: Transaction, now: Instant)
    requires g != [] && GroupsNewestFirst(g)
    requires g[|g| - 1].key == LabelOf(u.date, now) && t.date.day <= u.date.day
    ensures Flatten(Place(g, t, now)) == Flatten(g) + [t]
    ensures GroupsNewestFirst(Place(g, t, now))
    ensures Place(g, t, now) != [] && Place(g, t, now)[|Place(g, t, now)| - 1].key == LabelOf(t.date, now)
  {
    var n := |g| - 1;
    var l := LabelOf(t.date, now);
    if t.date.day == u.date.day {
      assert LabelsOf(g)[n] == l;
      assert IndexOf(LabelsOf(g), l) == Some(n) by {
        var k := IndexOf(LabelsOf(g), l);
        assert LabelsOf(g)[k.value] == g[k.value].key;
      }
      FlattenUpdateLast(g, Group(l, g[n].items + [t], g[n].total + Signed(t)), t);
    } else {
      forall i | 0 <= i < |g| ensures LabelsOf(g)[i] != l {
        assert g[i].key.day >= g[n].key.day;
      }
      FlattenAppend(g, Group(l, [t], Signed(t)));
    }
  }

  /** The first transaction visited opens the first group. */
  lemma PlaceFirst(t: Transaction, now: Instant)
    ensures Place([], t, now) == [Group(LabelOf(t.date, now), [t], Signed(t))]
    ensures Flatten(Place([], t, now)) == [t]
  {
    assert [Group(LabelOf(t.date, now), [t], Signed(t))][..0] == [];
  }

  /**
   * Over a list whose days never increase, the groups come newest day
   * first, and reading their items in order gives back the list itself.
   */
  lemma {:induction false} GroupsOfSortedList(s: seq<Transaction>, now: Instant)
    requires DaysDescending(s)
    ensures Flatten(GroupsOf(s, now)) == s
    ensures GroupsNewestFirst(GroupsOf(s, now))
    ensures s != [] ==>
              GroupsOf(s, now) != [] &&
              GroupsOf(s, now)[|GroupsOf(s, now)| - 1].key == LabelOf(s[|s| - 1].date, now)
  {
    if s != [] {
      var init, t := s[..|s| - 1], s[|s| - 1];
      assert s == init + [t];
      assert DaysDescending(init) by {
        forall i, j | 0 <= i < j < |init| ensures init[j].date.day <= init[i].date.day {
          assert init[i] == s[i] && init[j] == s[j];
        }
      }
      GroupsOfSortedList(init, now);
      var g := GroupsOf(init, now);
      assert GroupsOf(s, now) == Place(g, t, now);
      if init == [] {
        PlaceFirst(t, now);
      } else {
        assert t.date.day <= init[|init| - 1].date.day by {
          assert s[|init| - 1] == init[|init| - 1];
        }
        PlaceAfterNewestFirst(g, t, init[|init| - 1], now);
      }
    }
  }

  /** The `forEach` that fills the `groups` dictionary, in visiting order. */
  method GroupByDay(sorted: seq<Transaction>, now: Instant) returns (groups: seq<Group>)
    ensures groups == GroupsOf(sorted, now)
  {
    groups := [];
    var i := 0;
    while i < |sorted|
      invariant 0 <= i <= |sorted|
      invariant groups == GroupsOf(sorted[..i], now)
    {
      var t := sorted[i];
      var key := LabelOf(t.date, now);
      var k := IndexOf(LabelsOf(groups), key);
      if k.None? {
        groups := groups + [Group(key, [t], Signed(t))];
      } else {
        var g := groups[k.value];
        groups := groups[k.value := Group(key, g.items + [t], g.total + Signed(t))];
      }
      assert sorted[..i + 1][..i] == sorted[..i];
      i := i + 1;
    }
    assert sorted[..i] == sorted;
  }

  /**
   * The history list: search, sort newest first, group by day.  Reading the
   * groups' items in order gives the sorted search result, so every match
   * sits in exactly one group; groups come newest day first, none is empty,
   * each holds exactly the matches of its day and carries their signed total.
   */
  method GroupedTransactions(txs: seq<Transaction>, cats: seq<Category>, term: string, now: Instant)
    returns (groups: seq<Group>)
    ensures Flatten(groups) == SortNewestFirst(Search(txs, cats, term))
    ensures multiset(Flatten(groups)) == multiset(Search(txs, cats, term))
    ensures GroupsNewestFirst(groups) && DistinctLabels(groups) && WellFormed(groups)
    ensures forall l :: ItemsUnder(groups, l) == Filter(SortNewestFirst(Search(txs, cats, term)), HasLabel(l, now))
  {
    var found := Search(txs, cats, term);
    var sorted := SortNewestFirst(found);
    groups := GroupByDay(sorted, now);
    SortIsNewestFirst(found);
    assert DaysDescending(sorted) by {
      forall i, j | 0 <= i < j < |sorted| ensures sorted[j].date.day <= sorted[i].date.day {
        assert AtOrBefore(sorted[j].date, sorted[i].date);
      }
    }
    GroupsOfSortedList(sorted, now);
    GroupsWellFormed(sorted, now);
    forall l ensures ItemsUnder(groups, l) == Filter(sorted, HasLabel(l, now)) {
      GroupsItemsAreThatDay(sorted, now, l);
    }
  }
}
