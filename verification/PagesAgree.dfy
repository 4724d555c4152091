/** The monthly page and the plan sheet show the same spending. */
module PagesAgree {
  import opened Prelude
  import opened Calendar
  import opened Filing
  import C = Convertor
  import M = MonthlyPage
  import P = PlanPage

  /** No category is named by two expense envelopes. */
  ghost predicate ClaimedOnce(envelopes: seq<Envelope>) {
    forall c, a, b :: Lists(envelopes, false, c, a) && Lists(envelopes, false, c, b) ==> a == b
  }

  /** The envelope that comes first for a category is the one the plan makes its owner. */
  ghost predicate FirstIsOwner(b: Budget, expense: map<Id, Id>) {
    forall c :: c in b.categories ==> FirstClaim(b.envelopes, false, c) == P.Lookup(expense, c)
  }

  ghost predicate Owned(b: Budget, expense: map<Id, Id>) {
    forall c :: IsOwner(b.envelopes, false, c, P.Lookup(expense, c))
  }

  lemma {:induction false} FirstClaimLists(envelopes: seq<Envelope>, side: bool, c: Id)
    ensures match FirstClaim(envelopes, side, c)
      case Some(id) => Lists(envelopes, side, c, id)
      case None => forall id :: !Lists(envelopes, side, c, id)
  {
    if envelopes != [] {
      if Claims(envelopes[0], side, c) {
        assert Lists(envelopes, side, c, envelopes[0].id);
      } else {
        FirstClaimLists(envelopes[1..], side, c);
        forall id ensures Lists(envelopes, side, c, id) <==> Lists(envelopes[1..], side, c, id) {
          ListsRest(envelopes, side, c, id);
        }
      }
    }
  }

  lemma ClaimedOnceFirstIsOwner(b: Budget, expense: map<Id, Id>)
    requires ClaimedOnce(b.envelopes) && Owned(b, expense)
    ensures FirstIsOwner(b, expense)
  {
    forall c | c in b.categories ensures FirstClaim(b.envelopes, false, c) == P.Lookup(expense, c) {
      FirstClaimLists(b.envelopes, false, c);
      assert IsOwner(b.envelopes, false, c, P.Lookup(expense, c));
      hide Lists, FirstClaim;
    }
  }

  ghost predicate KnownCategories(b: Budget, rows: seq<Row>) {
    forall r :: r in rows && r.category.Some? ==> r.category.value in b.categories
  }

  ghost function InMonth(month: Time): Row -> bool {
    (r: Row) => r.month == month
  }

  ghost function Both(f: Row -> bool, g: Row -> bool): Row -> bool {
    (r: Row) => f(r) && g(r)
  }

  lemma {:induction false} FilterOfKept(rows: seq<Row>, w: Window, to: Id, f: Row -> bool, g: Row -> bool)
    ensures FilterItems(M.Kept(rows, f), w, to, g) == FilterItems(rows, w, to, Both(f, g))
  {
    if rows != [] {
      var n := |rows| - 1;
      FilterOfKept(rows[..n], w, to, f, g);
      if f(rows[n]) {
        var kept := M.Kept(rows[..n], f);
        assert (kept + [rows[n]])[..|kept|] == kept;
      } else {
        assert M.Kept(rows, f) == M.Kept(rows[..n], f);
      }
    }
  }

  lemma {:induction false} KeptMember(rows: seq<Row>, f: Row -> bool, r: Row)
    ensures r in M.Kept(rows, f) <==> r in rows && f(r)
  {
    if rows != [] {
      var n := |rows| - 1;
      KeptMember(rows[..n], f, r);
      assert rows == rows[..n] + [rows[n]];
    }
  }

  /** The same rows, filed by either page, put the same money under an element. */
  lemma SameFiling(b: Budget, expense: map<Id, Id>, month: Time, w: Window, to: Id, monthRows: seq<Row>,
                   planRows: seq<Row>, el: Element)
    requires FirstIsOwner(b, expense) && KnownCategories(b, monthRows)
    requires multiset(monthRows) == multiset(M.Kept(planRows, InMonth(month)))
    ensures multiset(FilterItems(monthRows, w, to, M.MonthlyFiles(b, el)))
         == multiset(FiledItems(planRows, month, w, to, P.SpendFiles(b, P.OwnerOf(expense)), el))
  {
    FilterPermuted(monthRows, M.Kept(planRows, InMonth(month)), w, to, M.MonthlyFiles(b, el));
    FilterOfKept(planRows, w, to, InMonth(month), M.MonthlyFiles(b, el));
    var monthly := Both(InMonth(month), M.MonthlyFiles(b, el));
    var plan := FiledAt(month, P.SpendFiles(b, P.OwnerOf(expense)), el);
    hide FirstClaim, FilterItems;
    forall r | r in planRows ensures monthly(r) == plan(r) {
      if r.month == month {
        KeptMember(planRows, InMonth(month), r);
        assert r in multiset(monthRows);
        if r.category.Some? {
          assert FirstClaim(b.envelopes, false, r.category.value) == P.Lookup(expense, r.category.value);
        }
      }
    }
    FilterAgree(planRows, w, to, monthly, plan);
  }

  /** Every item belongs to the period. */
  ghost predicate OfPeriod(items: seq<C.Item>, w: Window) {
    forall it :: it in items ==> it.periodStart == w.start && it.periodEnd == w.end
  }

  ghost predicate SameCurrency(items: seq<C.Item>) {
    forall it :: it in items ==> it.from == it.to
  }

  /** The total of one period's items at that period's own rates. */
  ghost function PeriodTotal(items: seq<C.Item>, w: Window, p: C.RateProvider): int
    requires C.Sound(p)
  {
    SumSet(C.Groups(items), PeriodValuer(items, w, p))
  }

  ghost function PeriodValuer(items: seq<C.Item>, w: Window, p: C.RateProvider): C.Group -> int
    requires C.Sound(p)
  {
    (g: C.Group) => C.Converted(p.average(P.RangeOf(w)), p.base, p.digits(g.to), g.from, g.to, C.GroupSum(items, g))
  }

  /** Whatever else a batch holds, one period's items are converted at the rates loaded for its first month. */
  lemma TotalOfPeriod(items: seq<C.Item>, w: Window, loaded: map<int, C.Range>, current: int, p: C.RateProvider)
    requires C.Sound(p) && current in loaded && OfPeriod(items, w)
    requires SameCurrency(items) || (C.MonthKey(w.start) in loaded && loaded[C.MonthKey(w.start)] == P.RangeOf(w))
    ensures C.Total(items, loaded, current, p) == PeriodTotal(items, w, p)
  {
    var here := PeriodValuer(items, w, p);
    forall g | g in C.Groups(items) ensures C.Valuer(items, loaded, current, p)(g) == here(g) {
      var it :| it in items && C.GroupOf(it) == g;
      assert MonthOf(g.startDay) == C.MonthKey(w.start);
      hide C.GroupSum, MonthOf;
    }
    SumSetAgree(C.Groups(items), C.Valuer(items, loaded, current, p), here);
  }

  lemma PeriodTotalPermuted(a: seq<C.Item>, b: seq<C.Item>, w: Window, p: C.RateProvider)
    requires C.Sound(p) && multiset(a) == multiset(b)
    ensures PeriodTotal(a, w, p) == PeriodTotal(b, w, p)
  {
    C.SameMoneySameGroups(a, b);
    hide C.Converted, C.GroupSum, C.Groups;
    SumSetAgree(C.Groups(a), PeriodValuer(a, w, p), PeriodValuer(b, w, p));
  }

  lemma {:induction false} FilterOfPeriod(rows: seq<Row>, w: Window, to: Id, keep: Row -> bool)
    ensures OfPeriod(FilterItems(rows, w, to, keep), w)
  {
    if rows != [] { FilterOfPeriod(rows[..|rows| - 1], w, to, keep); }
  }

  /** The months of a sheet are month keys, each once. */
  ghost predicate MonthKeys(months: seq<Time>) {
    P.DistinctMonths(months) && forall i :: 0 <= i < |months| ==> months[i] == FirstOfMonth(months[i])
  }

  /** A period starts in the month it is named after, so two months' periods never share a rate month. */
  lemma PeriodStartsInItsMonth(key: Time, startDay: int)
    requires key == FirstOfMonth(key)
    ensures KeyOf(C.MonthKey(PeriodWindow(key, startDay).start)) == key
  {
    hide MonthStart;
    var m := MonthOf(DayOf(key));
    assert key == KeyOf(m);
    WindowOfMonth(m, startDay);
    MonthLength(m);
    MonthOfUnique(DayOf(WindowStart(m, startDay)), m);
  }

  /** Each key's items belong to the period of the key's month. */
  ghost predicate CellsOfPeriods<K(!new)>(months: seq<Time>, startDay: int, cells: map<K, seq<C.Item>>, at: K -> int) {
    forall c :: c in cells ==> 0 <= at(c) < |months| && OfPeriod(cells[c], PeriodWindow(months[at(c)], startDay))
  }

  lemma CrossingAsks<K(!new)>(cells: map<K, seq<C.Item>>, cell: K, it: C.Item)
    requires cell in cells && it in cells[cell]
    ensures it.from != it.to ==> C.Asked(cells, C.MonthKey(it.periodStart), C.Range(it.periodStart, it.periodEnd))
  {
    hide C.MonthKey;
    if it.from != it.to {
      assert C.Crosses(it, C.MonthKey(it.periodStart), C.Range(it.periodStart, it.periodEnd));
    }
  }

  predicate IsPeriod(it: C.Item, key: Time, startDay: int) {
    key == FirstOfMonth(key) && C.Range(it.periodStart, it.periodEnd) == P.RangeOf(PeriodWindow(key, startDay))
  }

  ghost predicate OnAPeriod(it: C.Item, startDay: int) {
    exists key :: IsPeriod(it, key, startDay)
  }

  /** Every item of a batch covers one budget period or another. */
  ghost predicate OnPeriods<K(!new)>(cells: map<K, seq<C.Item>>, startDay: int) {
    forall c, it :: c in cells && it in cells[c] ==> OnAPeriod(it, startDay)
  }

  /** A batch of whole periods, spread however it likes over them, converts a period's items at that period's rates. */
  lemma CellOfPeriod<K(!new)>(own: Time, key: Time, startDay: int, cells: map<K, seq<C.Item>>,
                              loaded: map<int, C.Range>,
                              p: C.RateProvider, cell: K)
    requires C.Sound(p) && own == FirstOfMonth(own) && key == FirstOfMonth(key)
    requires OnPeriods(cells, startDay) && cell in cells && OfPeriod(cells[cell], PeriodWindow(key, startDay))
    requires C.Needed(P.RangeOf(PeriodWindow(own, startDay)), cells, loaded)
    ensures C.Total(cells[cell], loaded, C.MonthKey(PeriodWindow(own, startDay).start), p)
         == PeriodTotal(cells[cell], PeriodWindow(key, startDay), p)
  {
    hide PeriodWindow, C.Total, PeriodTotal, C.Sound, C.MonthKey, FirstOfMonth;
    var w := PeriodWindow(key, startDay);
    var month := C.MonthKey(w.start);
    PeriodStartsInItsMonth(key, startDay);
    PeriodStartsInItsMonth(own, startDay);
    if month in loaded {
      if month != C.MonthKey(PeriodWindow(own, startDay).start) {
        assert C.Asked(cells, month, loaded[month]);
        var other, it :| other in cells && it in cells[other] && C.Crosses(it, month, loaded[month]);
        assert OnAPeriod(it, startDay);
        var theirs :| IsPeriod(it, theirs, startDay);
        PeriodStartsInItsMonth(theirs, startDay);
        assert theirs == key;
      }
    } else {
      forall it | it in cells[cell] ensures it.from == it.to {
        CrossingAsks(cells, cell, it);
      }
    }
    TotalOfPeriod(cells[cell], w, loaded, C.MonthKey(PeriodWindow(own, startDay).start), p);
  }

  /** A batch spread over distinct months converts a cell at the rates of the cell's own period. */
  lemma CellAtItsPeriod<K(!new)>(months: seq<Time>, startDay: int, cells: map<K, seq<C.Item>>, at: K -> int,
                                 loaded: map<int, C.Range>,
                                 p: C.RateProvider, cell: K)
    requires C.Sound(p) && MonthKeys(months) && months != [] && CellsOfPeriods(months, startDay, cells, at)
             && cell in cells
    requires C.Needed(P.RangeOf(PeriodWindow(months[0], startDay)), cells, loaded)
    ensures C.Total(cells[cell], loaded, C.MonthKey(PeriodWindow(months[0], startDay).start), p)
         == PeriodTotal(cells[cell], PeriodWindow(months[at(cell)], startDay), p)
  {
    hide PeriodWindow, C.Total, PeriodTotal, C.Sound, C.MonthKey, FirstOfMonth, C.Needed;
    forall c, it | c in cells && it in cells[c] ensures OnAPeriod(it, startDay) {
      assert IsPeriod(it, months[at(c)], startDay);
    }
    CellOfPeriod(months[0], months[at(cell)], startDay, cells, loaded, p, cell);
  }

  function MonthOfCell(): P.Cell -> int {
    (c: P.Cell) => c.i
  }

  ghost function Spent(spent: map<Element, int>, el: Element): int {
    if el in spent then spent[el] else 0
  }

  /** The monthly page converts an element's spending at the rates of its period. */
  lemma SpentAtItsPeriod(toConvert: map<Element, seq<C.Item>>, spent: map<Element, int>, loaded: map<int, C.Range>,
                         w: Window, p: C.RateProvider, el: Element)
    requires C.Sound(p) && C.Needed(P.RangeOf(w), toConvert, loaded) && OfPeriod(M.SpentAt(toConvert, el), w)
    requires spent.Keys == toConvert.Keys && forall e :: e in spent ==>
               spent[e] == C.Total(toConvert[e], loaded, C.MonthKey(w.start), p)
    ensures Spent(spent, el) == PeriodTotal(M.SpentAt(toConvert, el), w, p)
  {
    if el in spent {
      hide C.Total, PeriodTotal, C.MonthKey;
      TotalOfPeriod(toConvert[el], w, loaded, C.MonthKey(w.start), p);
    }
  }

  /**
   * For the same rows, an expense element's spending on the monthly page is its plan cell for that month, in the
   * element's currency, whenever the first envelope to name a category is also its owner.
   */
  lemma PagesAgree(b: Budget, months: seq<Time>, startDay: int, currency: Element -> Id, p: C.RateProvider, i: int,
                   el: Element,
                   planRows: seq<Row>, incomeRows: seq<Row>, expense: map<Id, Id>, income: map<Id, Id>,
                   cells: map<P.Cell, seq<C.Item>>, actual: map<P.Cell, int>, planLoaded: map<int, C.Range>,
                   monthRows: seq<Row>, toConvert: map<Element, seq<C.Item>>, spent: map<Element, int>,
                   monthLoaded: map<int, C.Range>)
    requires C.Sound(p) && MonthKeys(months) && 0 <= i < |months| && P.ExpenseSide(el)
    // what the plan builder promises
    requires Owned(b, expense)
    requires forall j, e :: 0 <= j < |months| ==>
      P.At(cells, j, e) == P.PlanItems(b, months[j], startDay, currency(e), planRows, incomeRows, expense, income, e)
    requires forall c :: c in cells ==> 0 <= c.i < |months|
    requires C.Needed(P.RangeOf(PeriodWindow(months[0], startDay)), cells, planLoaded)
    requires actual.Keys == cells.Keys
    requires forall c :: c in actual ==> actual[c]
                                         == C.Total(cells[c], planLoaded,
                                                    C.MonthKey(PeriodWindow(months[0], startDay).start), p)
    // what the monthly builder promises for the month's period
    requires forall e :: M.SameItems(M.SpentAt(toConvert, e),
                                     FilterItems(monthRows, PeriodWindow(months[i], startDay), currency(e),
                                                 M.MonthlyFiles(b, e)))
    requires C.Needed(P.RangeOf(PeriodWindow(months[i], startDay)), toConvert, monthLoaded)
    requires spent.Keys == toConvert.Keys
    requires forall e :: e in spent ==> spent[e]
                                        == C.Total(toConvert[e], monthLoaded,
                                                   C.MonthKey(PeriodWindow(months[i], startDay).start), p)
    // the two reads return the same rows, of known categories, and the envelopes agree on owners
    requires multiset(monthRows) == multiset(M.Kept(planRows, InMonth(months[i]))) && KnownCategories(b, monthRows)
    requires FirstIsOwner(b, expense)
    ensures Spent(spent, el) == P.CellAmount(actual, i)(el)
  {
    hide PeriodWindow, C.Total, PeriodTotal, C.Sound, C.MonthKey, FilterItems, M.Kept, C.Needed, FirstIsOwner, Owned,
         KnownCategories, FirstOfMonth;
    var w := PeriodWindow(months[i], startDay);
    P.OneSide(b, expense, income, planRows, incomeRows, months[i], startDay, currency(el), el);
    var planned := FiledItems(planRows, months[i], w, currency(el), P.SpendFiles(b, P.OwnerOf(expense)), el);
    assert P.At(cells, i, el) == planned + [] == planned;
    SameFiling(b, expense, months[i], w, currency(el), monthRows, planRows, el);
    var queued := M.SpentAt(toConvert, el);
    assert M.SameItems(queued, FilterItems(monthRows, w, currency(el), M.MonthlyFiles(b, el)));
    assert multiset(queued) == multiset(planned);
    FilterOfPeriod(planRows, w, currency(el), FiledAt(months[i], P.SpendFiles(b, P.OwnerOf(expense)), el));
    PermutedOfPeriod(planned, queued, w);
    SpentAtItsPeriod(toConvert, spent, monthLoaded, w, p, el);
    PeriodTotalPermuted(queued, planned, w, p);
    if P.Cell(i, el) in cells {
      PlanCellsOfPeriods(b, months, startDay, currency, planRows, incomeRows, expense, income, cells);
      CellAtItsPeriod(months, startDay, cells, MonthOfCell(), planLoaded, p, P.Cell(i, el));
    } else {
      NoItemsNoTotal(w, p);
    }
  }

  lemma NoItemsNoTotal(w: Window, p: C.RateProvider)
    requires C.Sound(p)
    ensures PeriodTotal([], w, p) == 0
  {
    assert C.Groups([]) == {};
  }

  lemma PermutedOfPeriod(a: seq<C.Item>, b: seq<C.Item>, w: Window)
    requires multiset(a) == multiset(b) && OfPeriod(a, w)
    ensures OfPeriod(b, w)
  {
    forall it | it in b ensures it.periodStart == w.start && it.periodEnd == w.end {
      assert it in multiset(b);
      assert it in a;
    }
  }

  lemma PlanCellsOfPeriods(b: Budget, months: seq<Time>, startDay: int, currency: Element -> Id, planRows: seq<Row>,
                           incomeRows: seq<Row>,
                           expense: map<Id, Id>, income: map<Id, Id>, cells: map<P.Cell, seq<C.Item>>)
    requires forall j, e :: 0 <= j < |months| ==>
      P.At(cells, j, e) == P.PlanItems(b, months[j], startDay, currency(e), planRows, incomeRows, expense, income, e)
    requires forall c :: c in cells ==> 0 <= c.i < |months|
    ensures CellsOfPeriods(months, startDay, cells, MonthOfCell())
  {
    hide PeriodWindow, FilterItems;
    forall c | c in cells ensures OfPeriod(cells[c], PeriodWindow(months[c.i], startDay)) {
      var w := PeriodWindow(months[c.i], startDay);
      assert cells[c] == P.At(cells, c.i, c.el);
      FilterOfPeriod(planRows, w, currency(c.el), FiledAt(months[c.i], P.SpendFiles(b, P.OwnerOf(expense)), c.el));
      FilterOfPeriod(incomeRows, w, currency(c.el), FiledAt(months[c.i], P.IncomeFiles(b, P.OwnerOf(income)), c.el));
    }
  }

  /** A cell as the plan builder fills it when there is no income. */
  ghost predicate PlannedAs(b: Budget, month: Time, startDay: int, currency: Element -> Id, rows: seq<Row>,
                            expense: map<Id, Id>,
                            income: map<Id, Id>, items: seq<C.Item>, e: Element) {
    items == P.PlanItems(b, month, startDay, currency(e), rows, [], expense, income, e)
  }

  /** Where the first envelope to name a category is not its owner, one expense of that category, in the envelope's own
      currency, is shown in full under that envelope on the monthly page and not at all in its plan cell. */
  lemma PagesDisagree(b: Budget, months: seq<Time>, startDay: int, currency: Element -> Id, p: C.RateProvider, i: int,
                      c: Id, amount: int,
                      expense: map<Id, Id>, income: map<Id, Id>,
                      cells: map<P.Cell, seq<C.Item>>, actual: map<P.Cell, int>,
                      toConvert: map<Element, seq<C.Item>>, spent: map<Element, int>, monthLoaded: map<int, C.Range>)
    requires C.Sound(p) && 0 <= i < |months| && Owned(b, expense) && c in b.categories
    requires FirstClaim(b.envelopes, false, c) != P.Lookup(expense, c)
    // what the two builders promise for the one expense
    requires forall e :: PlannedAs(b, months[i], startDay, currency, [Lone(b, months[i], currency, c, amount)], expense,
                                   income, P.At(cells, i, e), e)
    requires forall x :: x in cells ==> cells[x] != []
    requires actual.Keys == cells.Keys
    requires forall e :: M.SameItems(M.SpentAt(toConvert, e),
      FilterItems([Lone(b, months[i], currency, c, amount)], PeriodWindow(months[i], startDay), currency(e),
                  M.MonthlyFiles(b, e)))
    requires C.MonthKey(PeriodWindow(months[i], startDay).start) in monthLoaded
    requires spent.Keys == toConvert.Keys
    requires forall e :: e in spent ==> spent[e]
                                        == C.Total(toConvert[e], monthLoaded,
                                                   C.MonthKey(PeriodWindow(months[i], startDay).start), p)
    ensures Spent(spent, FirstEnvelope(b, c)) == amount
    ensures P.CellAmount(actual, i)(FirstEnvelope(b, c)) == 0
  {
    hide PeriodWindow, C.MonthKey, C.Sound;
    var el, w := FirstEnvelope(b, c), PeriodWindow(months[i], startDay);
    var r := Lone(b, months[i], currency, c, amount);
    FilesApart(b, expense, c, months[i], w, currency, amount);
    assert PlannedAs(b, months[i], startDay, currency, [r], expense, income, P.At(cells, i, el), el);
    assert P.At(cells, i, el) == [] by { assert FilterItems([], w, currency(el),
                                                            FiledAt(months[i], P.IncomeFiles(b, P.OwnerOf(income)), el))
                                                              == []; }
    var queued := M.SpentAt(toConvert, el);
    assert M.SameItems(queued, [ItemOf(r, w, currency(el))]);
    OnlyOne(queued, ItemOf(r, w, currency(el)));
    assert [ItemOf(r, w, currency(el))][..0] == [];
    OneCurrencyTotal(queued, monthLoaded, C.MonthKey(w.start), p);
    hide C.Total;
  }

  /** The first envelope to name the category, or the uncategorized row if there is none. */
  function FirstEnvelope(b: Budget, c: Id): Element {
    var first := FirstClaim(b.envelopes, false, c);
    if first.Some? then EnvelopeRow(first.value, false) else ExpenseUncategorized
  }

  /** One untagged expense of the category, in the currency of the envelope that comes first. */
  function Lone(b: Budget, month: Time, currency: Element -> Id, c: Id, amount: int): Row {
    Row(month, Some(c), None, currency(FirstEnvelope(b, c)), amount)
  }

  lemma OnlyOne(items: seq<C.Item>, it: C.Item)
    requires multiset(items) == multiset([it])
    ensures items == [it]
  {
    assert |items| == |multiset(items)| == 1;
    assert items[0] in multiset(items);
  }

  /** The two pages file the expense under different envelopes. */
  lemma FilesApart(b: Budget, expense: map<Id, Id>, c: Id, month: Time, w: Window, currency: Element -> Id, amount: int)
    requires Owned(b, expense) && c in b.categories && FirstClaim(b.envelopes, false, c) != P.Lookup(expense, c)
    ensures var el, r := FirstEnvelope(b, c), Lone(b, month, currency, c, amount);
      && FilterItems([r], w, currency(el), M.MonthlyFiles(b, el)) == [ItemOf(r, w, currency(el))]
      && FiledItems([r], month, w, currency(el), P.SpendFiles(b, P.OwnerOf(expense)), el) == []
  {
    FirstClaimLists(b.envelopes, false, c);
    assert IsOwner(b.envelopes, false, c, P.Lookup(expense, c));
    var el, r := FirstEnvelope(b, c), Lone(b, month, currency, c, amount);
    FilterNone([r], w, currency(el), FiledAt(month, P.SpendFiles(b, P.OwnerOf(expense)), el));
    assert [r][..0] == [];
    hide Lists, FirstClaim;
  }

  /** Two expense envelopes that both name category 9, stored with the higher id first. */
  function DoubleClaimed(): Budget {
    Budget([Envelope(2, false, [9], false), Envelope(1, false, [9], false)], {9}, {}, {})
  }

  lemma DoubleClaim(owner: Option<Id>)
    requires IsOwner(DoubleClaimed().envelopes, false, 9, owner)
    ensures DistinctEnvelopes(DoubleClaimed().envelopes) && 9 in DoubleClaimed().categories
    ensures FirstClaim(DoubleClaimed().envelopes, false, 9) == Some(2) && owner == Some(1)
  {
    var envelopes := DoubleClaimed().envelopes;
    assert Claims(envelopes[0], false, 9) && Claims(envelopes[1], false, 9);
    assert Lists(envelopes, false, 9, 1);
    if owner.Some? {
      var k :| 0 <= k < |envelopes| && envelopes[k].id == owner.value && Claims(envelopes[k], false, 9);
    }
  }
}
