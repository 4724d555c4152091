/** Where money goes on a budget's two pages: the element each row is filed under. */
module Filing {
  import opened Prelude
  import opened Calendar
  import C = Convertor

  datatype Envelope = Envelope(id: Id, income: bool, members: seq<Id>, archived: bool)

  /** The rows a page can show. Money without a place of its own goes to the uncategorized row of its side. */
  datatype Element =
    | EnvelopeRow(id: Id, income: bool)
    | TagRow(id: Id)
    | CategoryRow(id: Id)
    | IncomeCategoryRow(id: Id)
    | ExpenseUncategorized
    | IncomeUncategorized

  /** What filing depends on: the budget's envelopes, and the participants' categories, by side, and tags. */
  datatype Budget = Budget(envelopes: seq<Envelope>, categories: set<Id>, incomeCategories: set<Id>, tags: set<Id>)

  /** One row of a by-month read. */
  datatype Row = Row(month: Time, category: Option<Id>, tag: Option<Id>, currency: Id, amount: int)

  ghost predicate DistinctEnvelopes(envelopes: seq<Envelope>) {
    forall i, j :: 0 <= i < j < |envelopes| ==> envelopes[i].id != envelopes[j].id
  }

  predicate Claims(e: Envelope, income: bool, category: Id) {
    e.income == income && category in e.members
  }

  /** The first envelope of a side that lists the category. */
  function FirstClaim(envelopes: seq<Envelope>, income: bool, category: Id): Option<Id> {
    if envelopes == [] then None
    else if Claims(envelopes[0], income, category) then Some(envelopes[0].id)
    else FirstClaim(envelopes[1..], income, category)
  }

  ghost predicate Lists(envelopes: seq<Envelope>, income: bool, category: Id, id: Id) {
    exists i :: 0 <= i < |envelopes| && envelopes[i].id == id && Claims(envelopes[i], income, category)
  }

  /** The lowest id among the envelopes of a side that list the category: the owner, whatever order they come in. */
  ghost predicate IsOwner(envelopes: seq<Envelope>, income: bool, category: Id, owner: Option<Id>) {
    match owner
    case Some(id) => Lists(envelopes, income, category, id)
      && forall other :: Lists(envelopes, income, category, other) ==> id <= other
    case None => forall other :: !Lists(envelopes, income, category, other)
  }

  ghost predicate ById(envelopes: seq<Envelope>) {
    forall i, j :: 0 <= i < j < |envelopes| ==> envelopes[i].id < envelopes[j].id
  }

  /** In id order the first claim is the owner's. */
  lemma {:induction false} FirstOfSorted(sorted: seq<Envelope>, income: bool, category: Id)
    requires ById(sorted)
    ensures IsOwner(sorted, income, category, FirstClaim(sorted, income, category))
  {
    if sorted != [] {
      FirstOfSorted(sorted[1..], income, category);
      assert sorted == [sorted[0]] + sorted[1..];
      if Claims(sorted[0], income, category) {
        assert Lists(sorted, income, category, sorted[0].id);
      } else {
        forall id ensures Lists(sorted, income, category, id) <==> Lists(sorted[1..], income, category, id) {
          ListsRest(sorted, income, category, id);
        }
      }
    }
  }

  lemma ListsRest(envelopes: seq<Envelope>, income: bool, category: Id, id: Id)
    requires envelopes != [] && !Claims(envelopes[0], income, category)
    ensures Lists(envelopes, income, category, id) <==> Lists(envelopes[1..], income, category, id)
  {
    if Lists(envelopes, income, category, id) {
      var i :| 0 <= i < |envelopes| && envelopes[i].id == id && Claims(envelopes[i], income, category);
      assert envelopes[1..][i - 1] == envelopes[i];
    }
    if Lists(envelopes[1..], income, category, id) {
      var i :| 0 <= i < |envelopes[1..]| && envelopes[1..][i].id == id && Claims(envelopes[1..][i], income, category);
      assert envelopes[i + 1] == envelopes[1..][i];
    }
  }

  /** The owner does not depend on the order of the envelopes. */
  lemma OwnerOrderFree(a: seq<Envelope>, b: seq<Envelope>, income: bool, category: Id, owner: Option<Id>)
    requires forall e :: e in a <==> e in b
    requires IsOwner(a, income, category, owner)
    ensures IsOwner(b, income, category, owner)
  {
    forall id ensures Lists(a, income, category, id) <==> Lists(b, income, category, id) {
      ListsMember(a, income, category, id);
      ListsMember(b, income, category, id);
    }
    hide Lists;
  }

  lemma ListsMember(a: seq<Envelope>, income: bool, category: Id, id: Id)
    ensures Lists(a, income, category, id) <==> exists e :: e in a && e.id == id && Claims(e, income, category)
  {
    if Lists(a, income, category, id) {
      var i :| 0 <= i < |a| && a[i].id == id && Claims(a[i], income, category);
      assert a[i] in a;
    }
  }

  lemma FirstClaimNext(envelopes: seq<Envelope>, n: int)
    requires 0 <= n < |envelopes|
    ensures forall side, c :: FirstClaim(envelopes[..n + 1], side, c) == NextClaim(envelopes, n, side, c)
  {
    assert envelopes[..n + 1] == envelopes[..n] + [envelopes[n]];
    forall side, c ensures FirstClaim(envelopes[..n + 1], side, c) == NextClaim(envelopes, n, side, c) {
      FirstClaimAppend(envelopes[..n], envelopes[n], side, c);
    }
  }

  function NextClaim(envelopes: seq<Envelope>, n: int, side: bool, c: Id): Option<Id>
    requires 0 <= n < |envelopes|
  {
    var before := FirstClaim(envelopes[..n], side, c);
    if before.Some? then before else if Claims(envelopes[n], side, c) then Some(envelopes[n].id) else None
  }

  lemma {:induction false} FirstClaimAppend(some: seq<Envelope>, e: Envelope, side: bool, c: Id)
    ensures FirstClaim(some + [e], side, c) ==
      if FirstClaim(some, side, c).Some? then FirstClaim(some, side, c)
      else if Claims(e, side, c) then Some(e.id) else None
  {
    if some == [] {
      assert some + [e] == [e];
    } else {
      assert (some + [e])[1..] == some[1..] + [e];
      FirstClaimAppend(some[1..], e, side, c);
    }
  }

  /** The element an expense row is filed under, given who owns each category; an unknown tag has none. */
  function SpendElement(b: Budget, owner: Id -> Option<Id>, category: Option<Id>, tag: Option<Id>): Option<Element> {
    if tag.Some? then
      if tag.value in b.tags then Some(TagRow(tag.value)) else None
    else if category.None? then Some(ExpenseUncategorized)
    else if owner(category.value).Some? then Some(EnvelopeRow(owner(category.value).value, false))
    else if category.value in b.categories then Some(CategoryRow(category.value))
    else None
  }

  /** The element an income row is filed under: every income row has one. */
  function IncomeElement(b: Budget, owner: Id -> Option<Id>, category: Option<Id>): Element {
    if category.None? then IncomeUncategorized
    else if owner(category.value).Some? then EnvelopeRow(owner(category.value).value, true)
    else if category.value in b.incomeCategories then IncomeCategoryRow(category.value)
    else IncomeUncategorized
  }

  /** A row as money to convert: its month's window, its currency, the element's currency. */
  function ItemOf(r: Row, w: Window, to: Id): C.Item {
    C.Item(w.start, w.end, r.currency, to, r.amount)
  }

  /** The rows that are kept, as money to convert, in row order. */
  ghost function FilterItems(rows: seq<Row>, w: Window, to: Id, keep: Row -> bool): seq<C.Item> {
    if rows == [] then []
    else
      FilterItems(rows[..|rows| - 1], w, to, keep)
      + if keep(rows[|rows| - 1]) then [ItemOf(rows[|rows| - 1], w, to)] else []
  }

  ghost function FiledAt(month: Time, files: Row -> Option<Element>, el: Element): Row -> bool {
    (r: Row) => r.month == month && files(r) == Some(el)
  }

  /** The rows of a month that a filing puts under an element, as money to convert. */
  ghost function FiledItems(rows: seq<Row>, month: Time, w: Window, to: Id, files: Row -> Option<Element>,
                            el: Element): seq<C.Item>
  {
    FilterItems(rows, w, to, FiledAt(month, files, el))
  }

  lemma FilterNext(rows: seq<Row>, n: int, w: Window, to: Id, keep: Row -> bool)
    requires 0 <= n < |rows|
    ensures FilterItems(rows[..n + 1], w, to, keep) == FilterItems(rows[..n], w, to, keep)
            + if keep(rows[n]) then [ItemOf(rows[n], w, to)] else []
  {
    assert rows[..n + 1][..n] == rows[..n];
  }

  lemma {:induction false} FilterAgree(rows: seq<Row>, w: Window, to: Id, f: Row -> bool, g: Row -> bool)
    requires forall r :: r in rows ==> f(r) == g(r)
    ensures FilterItems(rows, w, to, f) == FilterItems(rows, w, to, g)
  {
    if rows != [] { FilterAgree(rows[..|rows| - 1], w, to, f, g); }
  }

  lemma {:induction false} FilterConcat(a: seq<Row>, b: seq<Row>, w: Window, to: Id, keep: Row -> bool)
    ensures FilterItems(a + b, w, to, keep) == FilterItems(a, w, to, keep) + FilterItems(b, w, to, keep)
  {
    if b == [] {
      assert a + b == a;
    } else {
      var n := |b| - 1;
      assert (a + b)[..|a + b| - 1] == a + b[..n];
      FilterConcat(a, b[..n], w, to, keep);
    }
  }

  ghost function One(r: Row, w: Window, to: Id, keep: Row -> bool): seq<C.Item> {
    if keep(r) then [ItemOf(r, w, to)] else []
  }

  lemma FilterTakeOut(b: seq<Row>, i: int, w: Window, to: Id, keep: Row -> bool)
    requires 0 <= i < |b|
    ensures multiset(FilterItems(b, w, to, keep)) == multiset(FilterItems(b[..i] + b[i + 1..], w, to, keep))
            + multiset(One(b[i], w, to, keep))
    ensures multiset(b[..i] + b[i + 1..]) == multiset(b) - multiset{b[i]}
  {
    assert b == b[..i] + ([b[i]] + b[i + 1..]);
    FilterConcat(b[..i], [b[i]] + b[i + 1..], w, to, keep);
    FilterConcat([b[i]], b[i + 1..], w, to, keep);
    FilterConcat(b[..i], b[i + 1..], w, to, keep);
    assert [b[i]][..0] == [];
    assert FilterItems([b[i]], w, to, keep) == One(b[i], w, to, keep);
  }

  /** Filtering the same rows in another order keeps the same money. */
  lemma {:induction false} FilterPermuted(a: seq<Row>, b: seq<Row>, w: Window, to: Id, keep: Row -> bool)
    requires multiset(a) == multiset(b)
    ensures multiset(FilterItems(a, w, to, keep)) == multiset(FilterItems(b, w, to, keep))
    decreases |a|
  {
    if a == [] {
      assert |b| == |multiset(b)| == 0;
    } else {
      var n := |a| - 1;
      assert a == a[..n] + [a[n]] && a[n] in multiset(b);
      var i :| 0 <= i < |b| && b[i] == a[n];
      FilterTakeOut(b, i, w, to, keep);
      FilterTakeOut(a, n, w, to, keep);
      assert a[..n] + a[n + 1..] == a[..n];
      hide FilterItems, One;
      FilterPermuted(a[..n], b[..i] + b[i + 1..], w, to, keep);
    }
  }

  /** Rows kept for one of two reasons that exclude each other. */
  lemma {:induction false} FilterEither(rows: seq<Row>, w: Window, to: Id, f: Row -> bool, g: Row -> bool,
                                        either: Row -> bool)
    requires forall r :: r in rows ==> either(r) == (f(r) || g(r)) && !(f(r) && g(r))
    ensures multiset(FilterItems(rows, w, to, either)) == multiset(FilterItems(rows, w, to, f))
            + multiset(FilterItems(rows, w, to, g))
  {
    if rows != [] {
      FilterEither(rows[..|rows| - 1], w, to, f, g, either);
    }
  }

  lemma {:induction false} FilterNone(rows: seq<Row>, w: Window, to: Id, keep: Row -> bool)
    requires forall r :: r in rows ==> !keep(r)
    ensures FilterItems(rows, w, to, keep) == []
  {
    if rows != [] {
      assert rows[|rows| - 1] in rows;
      FilterNone(rows[..|rows| - 1], w, to, keep);
    }
  }

  lemma {:induction false} FilterSome(rows: seq<Row>, w: Window, to: Id, keep: Row -> bool, r: Row)
    requires r in rows && keep(r)
    ensures FilterItems(rows, w, to, keep) != []
  {
    var n := |rows| - 1;
    if rows[n] != r {
      assert rows == rows[..n] + [rows[n]];
      FilterSome(rows[..n], w, to, keep, r);
    }
  }

  ghost function AmountSum(items: seq<C.Item>): int {
    if items == [] then 0 else AmountSum(items[..|items| - 1]) + items[|items| - 1].amount
  }

  /** The month's money that is filed somewhere. */
  ghost function MonthTotal(rows: seq<Row>, month: Time, files: Row -> Option<Element>): int {
    if rows == [] then 0
    else
      var r := rows[|rows| - 1];
      MonthTotal(rows[..|rows| - 1], month, files) + if r.month == month && files(r).Some? then r.amount else 0
  }

  ghost function ElementTotal(rows: seq<Row>, month: Time, w: Window, currency: Element -> Id,
                              files: Row -> Option<Element>): Element -> int
  {
    (el: Element) => AmountSum(FiledItems(rows, month, w, currency(el), files, el))
  }

  /** Filing is a partition: over any set of elements that takes every filed row, the elements' money is the month's. */
  lemma {:induction false} FilingPartitions(rows: seq<Row>, month: Time, w: Window, currency: Element -> Id,
                                            files: Row -> Option<Element>,
                                            elements: set<Element>)
    requires forall r :: r in rows && r.month == month && files(r).Some? ==> files(r).value in elements
    ensures SumSet(elements, ElementTotal(rows, month, w, currency, files)) == MonthTotal(rows, month, files)
  {
    var total := ElementTotal(rows, month, w, currency, files);
    if rows == [] {
      SumSetZero(elements, total);
    } else {
      var n := |rows| - 1;
      var r := rows[n];
      FilingPartitions(rows[..n], month, w, currency, files, elements);
      var before := ElementTotal(rows[..n], month, w, currency, files);
      var mine := (el: Element) => if r.month == month && files(r) == Some(el) then r.amount else 0;
      forall el | el in elements ensures total(el) == before(el) + mine(el) {
        var items := FiledItems(rows[..n], month, w, currency(el), files, el);
        assert items + [] == items;
        assert (items + [ItemOf(r, w, currency(el))])[..|items|] == items;
      }
      SumSetPlus(elements, before, mine, total);
      if r.month == month && files(r).Some? {
        assert r in rows;
        SumSetRemove(elements, mine, files(r).value);
        SumSetZero(elements - {files(r).value}, mine);
      } else {
        SumSetZero(elements, mine);
      }
    }
  }

  /** In one currency nothing is converted: a key's total is its items' amounts. */
  lemma OneCurrencyTotal(items: seq<C.Item>, loaded: map<int, C.Range>, current: int, p: C.RateProvider)
    requires C.Sound(p) && current in loaded
    requires forall it :: it in items ==> it.from == it.to
    ensures C.Total(items, loaded, current, p) == AmountSum(items)
  {
    var sums := (g: C.Group) => C.GroupSum(items, g);
    forall g | g in C.Groups(items) ensures C.Valuer(items, loaded, current, p)(g) == sums(g) {
      var it :| it in items && C.GroupOf(it) == g;
    }
    SumSetAgree(C.Groups(items), C.Valuer(items, loaded, current, p), sums);
    GroupsAddUp(items, C.Groups(items));
  }

  lemma {:induction false} GroupsAddUp(items: seq<C.Item>, groups: set<C.Group>)
    requires forall it :: it in items ==> C.GroupOf(it) in groups
    ensures SumSet(groups, (g: C.Group) => C.GroupSum(items, g)) == AmountSum(items)
  {
    var sums := (g: C.Group) => C.GroupSum(items, g);
    if items == [] {
      SumSetZero(groups, sums);
    } else {
      var n := |items| - 1;
      var it := items[n];
      GroupsAddUp(items[..n], groups);
      var before := (g: C.Group) => C.GroupSum(items[..n], g);
      var mine := (g: C.Group) => if g == C.GroupOf(it) then it.amount else 0;
      forall g | g in groups ensures sums(g) == before(g) + mine(g) {
        assert items == items[..n] + [it];
        C.GroupSumConcat(items[..n], [it], g);
      }
      SumSetPlus(groups, before, mine, sums);
      SumSetRemove(groups, mine, C.GroupOf(it));
      SumSetZero(groups - {C.GroupOf(it)}, mine);
    }
  }
}
