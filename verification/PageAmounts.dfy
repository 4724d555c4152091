/** What the two pages show, said of the budget's rows alone: whose money each element gathers, and at which rates. */
module PageAmounts {
  import opened Prelude
  import opened Calendar
  import opened Filing
  import C = Convertor
  import M = MonthlyPage
  import P = PlanPage
  import PagesAgree

  // ---- Which rows an element gathers ----

  /** Some envelope of the side lists the category. */
  ghost predicate InSomeEnvelope(b: Budget, income: bool, category: Id) {
    exists e :: e in b.envelopes && e.income == income && category in e.members
  }

  /** Of the side's envelopes that list the category, this is the one with the lowest id. */
  ghost predicate LowestOwner(b: Budget, income: bool, category: Id, id: Id) {
    && (exists e :: e in b.envelopes && e.income == income && category in e.members && e.id == id)
    && (forall e :: e in b.envelopes && e.income == income && category in e.members ==> id <= e.id)
  }

  /** Of the expense envelopes that list the category, this is the first. */
  ghost predicate FirstOwner(b: Budget, category: Id, id: Id) {
    exists i :: && 0 <= i < |b.envelopes| && b.envelopes[i].id == id && !b.envelopes[i].income
                && category in b.envelopes[i].members
                && forall j :: 0 <= j < i && !b.envelopes[j].income ==> category !in b.envelopes[j].members
  }

  /** An expense of the plan: its tag's, else its category's lowest envelope's, else its category's own. */
  ghost predicate PlanSpends(b: Budget, el: Element, r: Row) {
    match el
    case TagRow(t) => r.tag == Some(t) && t in b.tags
    case ExpenseUncategorized => r.tag.None? && r.category.None?
    case EnvelopeRow(id, income) =>
      !income && r.tag.None? && r.category.Some? && LowestOwner(b, false, r.category.value, id)
    case CategoryRow(c) =>
      r.tag.None? && r.category == Some(c) && c in b.categories && !InSomeEnvelope(b, false, c)
    case _ => false
  }

  /** An income of the plan: its category's lowest envelope's, else its category's own, else uncategorized. */
  ghost predicate PlanEarns(b: Budget, el: Element, r: Row) {
    match el
    case EnvelopeRow(id, income) => income && r.category.Some? && LowestOwner(b, true, r.category.value, id)
    case IncomeCategoryRow(c) => r.category == Some(c) && c in b.incomeCategories && !InSomeEnvelope(b, true, c)
    case IncomeUncategorized =>
      r.category.Some? ==> r.category.value !in b.incomeCategories && !InSomeEnvelope(b, true, r.category.value)
    case _ => false
  }

  /**
   * An expense of the monthly page: of no or a known category; its tag's, else its category's first envelope's, else
   * its category's own.
   */
  ghost predicate MonthSpends(b: Budget, el: Element, r: Row) {
    && (r.category.Some? ==> r.category.value in b.categories)
    && match el
       case TagRow(t) => r.tag == Some(t) && t in b.tags
       case ExpenseUncategorized => r.tag.None? && r.category.None?
       case EnvelopeRow(id, income) => !income && r.tag.None? && r.category.Some? && FirstOwner(b, r.category.value, id)
       case CategoryRow(c) => r.tag.None? && r.category == Some(c) && !InSomeEnvelope(b, false, c)
       case _ => false
  }

  ghost function Gathered(rows: seq<Row>, keep: Row -> bool): seq<Row> {
    if rows == [] then []
    else Gathered(rows[..|rows| - 1], keep) + if keep(rows[|rows| - 1]) then [rows[|rows| - 1]] else []
  }

  ghost function CurrencySum(rows: seq<Row>, currency: Id): int {
    if rows == [] then 0
    else
      CurrencySum(rows[..|rows| - 1], currency)
      + if rows[|rows| - 1].currency == currency then rows[|rows| - 1].amount else 0
  }

  ghost function Currencies(rows: seq<Row>): set<Id> {
    set r | r in rows :: r.currency
  }

  /**
   * What rows come to in a currency: each of their currencies' total, from it into the other, at the period's rates.
   */
  ghost function Valued(rows: seq<Row>, w: Window, to: Id, p: C.RateProvider): int
    requires C.Sound(p)
  {
    SumSet(Currencies(rows), InTo(rows, w, to, p))
  }

  ghost function InTo(rows: seq<Row>, w: Window, to: Id, p: C.RateProvider): Id -> int
    requires C.Sound(p)
  {
    (from: Id) =>
      C.Converted(p.average(C.Range(w.start, w.end)), p.base, p.digits(to), from, to, CurrencySum(rows, from))
  }

  /** The rows a plan cell gathers: the month's expenses that are the element's, and the month's income that is. */
  ghost function PlanRows(b: Budget, month: Time, el: Element, spendRows: seq<Row>, incomeRows: seq<Row>): seq<Row> {
    Gathered(spendRows, (r: Row) => r.month == month && PlanSpends(b, el, r))
    + Gathered(incomeRows, (r: Row) => r.month == month && PlanEarns(b, el, r))
  }

  // ---- Items are the rows' money ----

  /** The items are the rows, one by one: the row's amount and currency, over the period, to be had in `to`. */
  ghost predicate MoneyOf(items: seq<C.Item>, rows: seq<Row>, w: Window, to: Id) {
    && |items| == |rows|
    && forall i :: 0 <= i < |rows| ==> items[i] == C.Item(w.start, w.end, rows[i].currency, to, rows[i].amount)
  }

  lemma {:induction false} FilteredMoney(rows: seq<Row>, w: Window, to: Id, keep: Row -> bool, under: Row -> bool)
    requires forall r :: r in rows ==> (keep(r) <==> under(r))
    ensures MoneyOf(FilterItems(rows, w, to, keep), Gathered(rows, under), w, to)
  {
    if rows != [] {
      FilteredMoney(rows[..|rows| - 1], w, to, keep, under);
      assert rows[|rows| - 1] in rows;
    }
  }

  ghost function GroupFor(w: Window, to: Id): Id -> C.Group {
    (from: Id) => C.Group(from, to, DayOf(w.start), DayOf(w.end))
  }

  lemma {:induction false} MoneyGroups(items: seq<C.Item>, rows: seq<Row>, w: Window, to: Id, from: Id)
    requires MoneyOf(items, rows, w, to)
    ensures C.GroupSum(items, GroupFor(w, to)(from)) == CurrencySum(rows, from)
  {
    if rows != [] {
      var n := |rows| - 1;
      MoneyGroups(items[..n], rows[..n], w, to, from);
      assert items == items[..n] + [items[n]];
      C.GroupSumConcat(items[..n], [items[n]], GroupFor(w, to)(from));
      assert [items[n]][1..] == [];
    }
  }

  lemma MoneyGroupSet(items: seq<C.Item>, rows: seq<Row>, w: Window, to: Id)
    requires MoneyOf(items, rows, w, to)
    ensures forall g :: g in C.Groups(items) <==> g.from in Currencies(rows) && g == GroupFor(w, to)(g.from)
  {
    forall g ensures g in C.Groups(items) <==> g.from in Currencies(rows) && g == GroupFor(w, to)(g.from) {
      if g in C.Groups(items) {
        var it :| it in items && C.GroupOf(it) == g;
        var i :| 0 <= i < |items| && items[i] == it;
        assert rows[i] in rows;
      }
      if g.from in Currencies(rows) && g == GroupFor(w, to)(g.from) {
        var r :| r in rows && r.currency == g.from;
        var i :| 0 <= i < |rows| && rows[i] == r;
        assert items[i] in items && C.GroupOf(items[i]) == g;
      }
    }
  }

  lemma {:induction false} SumOverCurrencies(currencies: set<Id>, groups: set<C.Group>, w: Window, to: Id,
                                             f: C.Group -> int, g: Id -> int)
    requires forall x :: x in groups <==> x.from in currencies && x == GroupFor(w, to)(x.from)
    requires forall c :: c in currencies ==> f(GroupFor(w, to)(c)) == g(c)
    ensures SumSet(groups, f) == SumSet(currencies, g)
    decreases currencies
  {
    if currencies == {} {
      assert groups == {};
    } else {
      var c :| c in currencies;
      var x := GroupFor(w, to)(c);
      SumOverCurrencies(currencies - {c}, groups - {x}, w, to, f, g);
      SumSetRemove(currencies, g, c);
      SumSetRemove(groups, f, x);
    }
  }

  /** Converted at its period's rates, the rows' money is worth what the rows come to. */
  lemma MoneyValued(items: seq<C.Item>, rows: seq<Row>, w: Window, to: Id, p: C.RateProvider)
    requires C.Sound(p) && MoneyOf(items, rows, w, to)
    ensures PagesAgree.PeriodTotal(items, w, p) == Valued(rows, w, to, p)
  {
    MoneyGroupSet(items, rows, w, to);
    forall c | c in Currencies(rows)
      ensures PagesAgree.PeriodValuer(items, w, p)(GroupFor(w, to)(c)) == InTo(rows, w, to, p)(c) {
      MoneyGroups(items, rows, w, to, c);
      hide C.Converted, CurrencySum, C.GroupSum, MoneyOf;
    }
    hide C.Converted, MoneyOf, C.Groups, Currencies;
    SumOverCurrencies(Currencies(rows), C.Groups(items), w, to, PagesAgree.PeriodValuer(items, w, p),
                      InTo(rows, w, to, p));
  }

  // ---- Filing gathers those rows ----

  lemma OwnerMeans(b: Budget, income: bool, category: Id, owner: Option<Id>)
    requires IsOwner(b.envelopes, income, category, owner)
    ensures owner.None? <==> !InSomeEnvelope(b, income, category)
    ensures forall id: Id :: owner == Some(id) <==> LowestOwner(b, income, category, id)
  {
    forall id ensures Lists(b.envelopes, income, category, id) <==>
                      exists e :: e in b.envelopes && e.income == income && category in e.members && e.id == id {
      ListsMember(b.envelopes, income, category, id);
    }
    if e :| e in b.envelopes && e.income == income && category in e.members {
      assert Lists(b.envelopes, income, category, e.id);
    }
    if owner.Some? {
      assert Lists(b.envelopes, income, category, owner.value);
    }
    forall e | e in b.envelopes && e.income == income && category in e.members
      ensures Lists(b.envelopes, income, category, e.id) {
    }
    hide Lists;
  }

  lemma {:induction false} FirstMeans(b: Budget, n: int, category: Id)
    requires 0 <= n <= |b.envelopes|
    ensures match FirstClaim(b.envelopes[n..], false, category)
      case None => forall j :: n <= j < |b.envelopes| && !b.envelopes[j].income ==> category !in b.envelopes[j].members
      case Some(id) =>
        exists i :: && n <= i < |b.envelopes| && b.envelopes[i].id == id && !b.envelopes[i].income
                    && category in b.envelopes[i].members
                    && forall j :: n <= j < i && !b.envelopes[j].income ==> category !in b.envelopes[j].members
    decreases |b.envelopes| - n
  {
    if n < |b.envelopes| {
      assert b.envelopes[n..][1..] == b.envelopes[n + 1..] && b.envelopes[n..][0] == b.envelopes[n];
      FirstMeans(b, n + 1, category);
    }
  }

  lemma FirstIsFirst(b: Budget, category: Id)
    ensures FirstClaim(b.envelopes, false, category).None? <==> !InSomeEnvelope(b, false, category)
    ensures forall id: Id :: FirstClaim(b.envelopes, false, category) == Some(id) <==> FirstOwner(b, category, id)
  {
    FirstMeans(b, 0, category);
    assert b.envelopes[0..] == b.envelopes;
    var first := FirstClaim(b.envelopes, false, category);
    hide FirstClaim;
    if e :| e in b.envelopes && e.income == false && category in e.members {
      var i :| 0 <= i < |b.envelopes| && b.envelopes[i] == e;
    }
    if first.Some? {
      assert FirstOwner(b, category, first.value);
    }
    forall id | FirstOwner(b, category, id) ensures first == Some(id) {
      var i :| && 0 <= i < |b.envelopes| && b.envelopes[i].id == id && !b.envelopes[i].income
               && category in b.envelopes[i].members
               && forall j :: 0 <= j < i && !b.envelopes[j].income ==> category !in b.envelopes[j].members;
    }
  }

  ghost predicate Owners(b: Budget, expense: map<Id, Id>, income: map<Id, Id>) {
    forall c :: IsOwner(b.envelopes, false, c, P.Lookup(expense, c))
                && IsOwner(b.envelopes, true, c, P.Lookup(income, c))
  }

  lemma PlanFiles(b: Budget, expense: map<Id, Id>, income: map<Id, Id>, el: Element, r: Row)
    requires Owners(b, expense, income)
    ensures P.SpendFiles(b, P.OwnerOf(expense))(r) == Some(el) <==> PlanSpends(b, el, r)
    ensures P.IncomeFiles(b, P.OwnerOf(income))(r) == Some(el) <==> PlanEarns(b, el, r)
  {
    if r.category.Some? {
      var c := r.category.value;
      assert IsOwner(b.envelopes, false, c, P.Lookup(expense, c)) && IsOwner(b.envelopes, true, c, P.Lookup(income, c));
      OwnerMeans(b, false, c, P.Lookup(expense, c));
      OwnerMeans(b, true, c, P.Lookup(income, c));
    }
    hide IsOwner, LowestOwner, InSomeEnvelope, P.Lookup, Owners;
  }

  lemma MonthFiles(b: Budget, el: Element, r: Row)
    ensures M.MonthlyFiles(b, el)(r) <==> MonthSpends(b, el, r)
  {
    if r.category.Some? {
      FirstIsFirst(b, r.category.value);
    }
    hide FirstClaim, FirstOwner, InSomeEnvelope;
  }

  // ---- What the pages show ----

  lemma {:induction false} MoneyConcat(a: seq<C.Item>, b: seq<C.Item>, x: seq<Row>, y: seq<Row>, w: Window, to: Id)
    requires MoneyOf(a, x, w, to) && MoneyOf(b, y, w, to)
    ensures MoneyOf(a + b, x + y, w, to)
  {
  }

  lemma PlanItemsMoney(b: Budget, month: Time, startDay: int, to: Id, spendRows: seq<Row>, incomeRows: seq<Row>,
                       expense: map<Id, Id>, income: map<Id, Id>, el: Element)
    requires Owners(b, expense, income)
    ensures MoneyOf(P.PlanItems(b, month, startDay, to, spendRows, incomeRows, expense, income, el),
                    PlanRows(b, month, el, spendRows, incomeRows), PeriodWindow(month, startDay), to)
  {
    hide PeriodWindow, FilterItems, Gathered, P.SpendFiles, P.IncomeFiles, PlanSpends, PlanEarns, Owners, MoneyOf;
    var w := PeriodWindow(month, startDay);
    var spends, earns := P.SpendFiles(b, P.OwnerOf(expense)), P.IncomeFiles(b, P.OwnerOf(income));
    forall r | true ensures spends(r) == Some(el) <==> PlanSpends(b, el, r) { PlanFiles(b, expense, income, el, r); }
    forall r | true ensures earns(r) == Some(el) <==> PlanEarns(b, el, r) { PlanFiles(b, expense, income, el, r); }
    var underSpent, underEarned :=
      (r: Row) => r.month == month && PlanSpends(b, el, r), (r: Row) => r.month == month && PlanEarns(b, el, r);
    FilteredMoney(spendRows, w, to, FiledAt(month, spends, el), underSpent);
    FilteredMoney(incomeRows, w, to, FiledAt(month, earns, el), underEarned);
    MoneyConcat(FilterItems(spendRows, w, to, FiledAt(month, spends, el)),
                FilterItems(incomeRows, w, to, FiledAt(month, earns, el)),
                Gathered(spendRows, underSpent), Gathered(incomeRows, underEarned), w, to);
  }

  /** The rows of a plan cell, valued in the element's currency at the month's own rates. */
  ghost function PlanValue(b: Budget, month: Time, startDay: int, to: Id, spendRows: seq<Row>, incomeRows: seq<Row>,
                           p: C.RateProvider, el: Element): int
    requires C.Sound(p)
  {
    Valued(PlanRows(b, month, el, spendRows, incomeRows), PeriodWindow(month, startDay), to, p)
  }

  /** A cell of the sheet is what its month's rows of the element come to. */
  lemma CellIsValued(b: Budget, months: seq<Time>, startDay: int, currency: Element -> Id, spendRows: seq<Row>,
                     incomeRows: seq<Row>, p: C.RateProvider, cells: map<P.Cell, seq<C.Item>>,
                     actual: map<P.Cell, int>, loaded: map<int, C.Range>, expense: map<Id, Id>, income: map<Id, Id>,
                     i: int, el: Element)
    requires C.Sound(p) && PagesAgree.MonthKeys(months) && 0 <= i < |months| && Owners(b, expense, income)
    requires forall j, e :: 0 <= j < |months| ==>
      P.At(cells, j, e) == P.PlanItems(b, months[j], startDay, currency(e), spendRows, incomeRows, expense, income, e)
    requires forall c :: c in cells ==> 0 <= c.i < |months|
    requires C.Needed(P.RangeOf(PeriodWindow(months[0], startDay)), cells, loaded)
    requires actual.Keys == cells.Keys
    requires forall c :: c in actual ==>
      actual[c] == C.Total(cells[c], loaded, C.MonthKey(PeriodWindow(months[0], startDay).start), p)
    ensures P.CellAmount(actual, i)(el) == PlanValue(b, months[i], startDay, currency(el), spendRows, incomeRows, p, el)
  {
    hide PeriodWindow, C.Total, C.Needed, C.MonthKey, C.Sound, P.PlanItems, Owners, FirstOfMonth, MoneyOf, Valued,
         PlanRows;
    hide PagesAgree.PeriodTotal, PagesAgree.CellsOfPeriods;
    var w := PeriodWindow(months[i], startDay);
    PlanItemsMoney(b, months[i], startDay, currency(el), spendRows, incomeRows, expense, income, el);
    MoneyValued(P.At(cells, i, el), PlanRows(b, months[i], el, spendRows, incomeRows), w, currency(el), p);
    if P.Cell(i, el) in cells {
      PagesAgree.PlanCellsOfPeriods(b, months, startDay, currency, spendRows, incomeRows, expense, income, cells);
      PagesAgree.CellAtItsPeriod(months, startDay, cells, PagesAgree.MonthOfCell(), loaded, p, P.Cell(i, el));
    } else {
      PagesAgree.NoItemsNoTotal(w, p);
    }
  }

  /** The element has a row of its own on the sheet. */
  ghost predicate OnSheet(b: Budget, el: Element) {
    match el
    case EnvelopeRow(id, income) => exists e :: e in b.envelopes && e.id == id && e.income == income
    case TagRow(t) => t in b.tags
    case CategoryRow(c) => c in b.categories && !InSomeEnvelope(b, false, c)
    case IncomeCategoryRow(c) => c in b.incomeCategories && !InSomeEnvelope(b, true, c)
    case ExpenseUncategorized => true
    case IncomeUncategorized => true
  }

  /** Some month of the sheet has a row of the element. */
  ghost predicate HasRows(b: Budget, months: seq<Time>, spendRows: seq<Row>, incomeRows: seq<Row>, el: Element) {
    exists i :: 0 <= i < |months| && PlanRows(b, months[i], el, spendRows, incomeRows) != []
  }

  lemma SheetRows(b: Budget, expense: map<Id, Id>, income: map<Id, Id>, el: Element)
    requires Owners(b, expense, income)
    ensures el in P.PlanElements(b, expense, income) <==> OnSheet(b, el)
  {
    if el.CategoryRow? || el.IncomeCategoryRow? {
      assert IsOwner(b.envelopes, false, el.id, P.Lookup(expense, el.id))
          && IsOwner(b.envelopes, true, el.id, P.Lookup(income, el.id));
      OwnerMeans(b, false, el.id, P.Lookup(expense, el.id));
      OwnerMeans(b, true, el.id, P.Lookup(income, el.id));
    }
    hide IsOwner, InSomeEnvelope, Owners;
  }

  lemma ActiveHasRows(b: Budget, months: seq<Time>, startDay: int, currency: Element -> Id, spendRows: seq<Row>,
                      incomeRows: seq<Row>, cells: map<P.Cell, seq<C.Item>>, expense: map<Id, Id>, income: map<Id, Id>,
                      el: Element)
    requires Owners(b, expense, income)
    requires forall j, e :: 0 <= j < |months| ==>
      P.At(cells, j, e) == P.PlanItems(b, months[j], startDay, currency(e), spendRows, incomeRows, expense, income, e)
    requires forall c :: c in cells ==> 0 <= c.i < |months| && cells[c] != []
    ensures el in P.WithCells(cells) <==> HasRows(b, months, spendRows, incomeRows, el)
  {
    hide P.PlanItems, PlanRows, PeriodWindow, Owners;
    forall i | 0 <= i < |months|
      ensures P.Cell(i, el) in cells <==> PlanRows(b, months[i], el, spendRows, incomeRows) != [] {
      PlanItemsMoney(b, months[i], startDay, currency(el), spendRows, incomeRows, expense, income, el);
      assert P.At(cells, i, el) == P.PlanItems(b, months[i], startDay, currency(el), spendRows, incomeRows, expense,
                                               income, el);
    }
    if i :| 0 <= i < |months| && PlanRows(b, months[i], el, spendRows, incomeRows) != [] {
      assert P.Cell(i, el) in cells;
    }
  }

  /**
   * Which elements the sheet shows: uncategorized rows with money in some month, tags with money or plans, archived
   * rows likewise, every other row of the budget always.
   */
  ghost predicate Shows(b: Budget, months: seq<Time>, spendRows: seq<Row>, incomeRows: seq<Row>, planned: set<Element>,
                        archived: set<Element>, el: Element)
  {
    && OnSheet(b, el)
    && match el
       case ExpenseUncategorized => HasRows(b, months, spendRows, incomeRows, el)
       case IncomeUncategorized => HasRows(b, months, spendRows, incomeRows, el)
       case TagRow(_) => HasRows(b, months, spendRows, incomeRows, el) || el in planned
       case _ => HasRows(b, months, spendRows, incomeRows, el) || el in planned || el !in archived
  }

  lemma KeptShows(b: Budget, months: seq<Time>, startDay: int, currency: Element -> Id, spendRows: seq<Row>,
                  incomeRows: seq<Row>, planned: set<Element>, archived: set<Element>, cells: map<P.Cell, seq<C.Item>>,
                  expense: map<Id, Id>, income: map<Id, Id>, el: Element)
    requires Owners(b, expense, income)
    requires forall j, e :: 0 <= j < |months| ==>
      P.At(cells, j, e) == P.PlanItems(b, months[j], startDay, currency(e), spendRows, incomeRows, expense, income, e)
    requires forall c :: c in cells ==> 0 <= c.i < |months| && cells[c] != []
    ensures el in P.PlanElements(b, expense, income) && P.Shown(el, P.WithCells(cells), planned, archived)
       <==> Shows(b, months, spendRows, incomeRows, planned, archived, el)
  {
    SheetRows(b, expense, income, el);
    ActiveHasRows(b, months, startDay, currency, spendRows, incomeRows, cells, expense, income, el);
    hide P.PlanElements, P.WithCells, HasRows, OnSheet, P.PlanItems, Owners;
  }

  /** The sheet shown: which rows, and in every cell what the month's rows of the element come to. */
  method ShowPlan(b: Budget, months: seq<Time>, startDay: int, currency: Element -> Id, spendRows: seq<Row>,
                  incomeRows: seq<Row>, planned: set<Element>, archived: set<Element>, p: C.RateProvider)
    returns (sheet: map<Element, seq<int>>)
    requires DistinctEnvelopes(b.envelopes) && PagesAgree.MonthKeys(months) && months != [] && C.Sound(p)
    ensures forall el :: el in sheet <==> Shows(b, months, spendRows, incomeRows, planned, archived, el)
    ensures forall el :: el in sheet ==> |sheet[el]| == |months|
    ensures forall el, i :: el in sheet && 0 <= i < |months| ==>
      sheet[el][i] == PlanValue(b, months[i], startDay, currency(el), spendRows, incomeRows, p, el)
  {
    hide PeriodWindow, C.Total, C.Needed, C.MonthKey, C.Sound, P.PlanItems, FirstOfMonth, PlanValue, PlanRows, IsOwner;
    var kept, cells, actual, loaded, expense, income :=
      P.BuildPlan(b, months, startDay, currency, spendRows, incomeRows, planned, archived, p);
    forall el ensures el in kept <==> Shows(b, months, spendRows, incomeRows, planned, archived, el) {
      KeptShows(b, months, startDay, currency, spendRows, incomeRows, planned, archived, cells, expense, income, el);
    }
    hide Shows, P.Shown, P.PlanElements, P.WithCells;
    sheet := map[];
    var rest := kept;
    while rest != {}
      invariant rest <= kept && sheet.Keys == kept - rest
      invariant forall el :: el in sheet ==> |sheet[el]| == |months|
      invariant forall el, i :: el in sheet && 0 <= i < |months| ==>
        sheet[el][i] == PlanValue(b, months[i], startDay, currency(el), spendRows, incomeRows, p, el)
    {
      var el :| el in rest;
      rest := rest - {el};
      var row := [];
      for i := 0 to |months|
        invariant |row| == i
        invariant forall k :: 0 <= k < i ==>
          row[k] == PlanValue(b, months[k], startDay, currency(el), spendRows, incomeRows, p, el)
      {
        CellIsValued(b, months, startDay, currency, spendRows, incomeRows, p, cells, actual, loaded, expense, income, i,
                     el);
        row := row + [if P.Cell(i, el) in actual then actual[P.Cell(i, el)] else 0];
      }
      sheet := sheet[el := row];
    }
  }

  /** The monthly page: every element's spending is what the period's rows of the element come to. */
  method ShowMonth(b: Budget, rows: seq<Row>, w: Window, currency: Element -> Id, p: C.RateProvider)
    returns (spent: map<Element, int>)
    requires C.Sound(p)
    ensures forall el :: PagesAgree.Spent(spent, el)
                         == Valued(Gathered(rows, (r: Row) => MonthSpends(b, el, r)), w, currency(el), p)
  {
    hide C.Total, C.Needed, C.MonthKey, C.Sound, Valued, Gathered, FilterItems, MonthSpends;
    var toConvert, loaded;
    toConvert, spent, loaded := M.BuildStructure(b, rows, w, currency, p);
    forall el ensures PagesAgree.Spent(spent, el)
                      == Valued(Gathered(rows, (r: Row) => MonthSpends(b, el, r)), w, currency(el), p) {
      SpentIsValued(b, rows, w, currency(el), p, toConvert, spent, loaded, el);
    }
  }

  lemma SpentIsValued(b: Budget, rows: seq<Row>, w: Window, to: Id, p: C.RateProvider,
                      toConvert: map<Element, seq<C.Item>>, spent: map<Element, int>, loaded: map<int, C.Range>,
                      el: Element)
    requires C.Sound(p) && M.SameItems(M.SpentAt(toConvert, el), FilterItems(rows, w, to, M.MonthlyFiles(b, el)))
    requires C.Needed(P.RangeOf(w), toConvert, loaded) && spent.Keys == toConvert.Keys
    requires forall e :: e in spent ==> spent[e] == C.Total(toConvert[e], loaded, C.MonthKey(w.start), p)
    ensures PagesAgree.Spent(spent, el) == Valued(Gathered(rows, (r: Row) => MonthSpends(b, el, r)), w, to, p)
  {
    hide C.Total, C.Needed, C.MonthKey, Valued, Gathered, FilterItems, MonthSpends, M.MonthlyFiles,
         PagesAgree.PeriodTotal;
    var keep, under := M.MonthlyFiles(b, el), (r: Row) => MonthSpends(b, el, r);
    forall r | r in rows ensures keep(r) <==> under(r) { MonthFiles(b, el, r); }
    var items, queued := FilterItems(rows, w, to, keep), M.SpentAt(toConvert, el);
    FilteredMoney(rows, w, to, keep, under);
    MoneyValued(items, Gathered(rows, under), w, to, p);
    PagesAgree.FilterOfPeriod(rows, w, to, keep);
    PagesAgree.PermutedOfPeriod(items, queued, w);
    PagesAgree.SpentAtItsPeriod(toConvert, spent, loaded, w, p, el);
    PagesAgree.PeriodTotalPermuted(items, queued, w, p);
  }
}
