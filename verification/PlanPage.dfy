/** The plan sheet: every month's rows filed under elements, converted per cell, and the elements worth showing. */
module PlanPage {
  import opened Prelude
  import opened Calendar
  import opened Filing
  import C = Convertor

  datatype Cell = Cell(i: int, el: Element)

  function Lookup(m: map<Id, Id>, c: Id): Option<Id> {
    if c in m then Some(m[c]) else None
  }

  function OwnerOf(m: map<Id, Id>): Id -> Option<Id> {
    (c: Id) => Lookup(m, c)
  }

  method SortEnvelopes(envelopes: seq<Envelope>) returns (sorted: seq<Envelope>)
    requires DistinctEnvelopes(envelopes)
    ensures ById(sorted) && forall e :: e in sorted <==> e in envelopes
  {
    var ids := Sorted(set e | e in envelopes :: e.id);
    sorted := [];
    for n := 0 to |ids|
      invariant |sorted| == n
      invariant forall j :: 0 <= j < n ==> sorted[j] in envelopes && sorted[j].id == ids[j]
    {
      assert ids[n] in ids;
      var e :| e in envelopes && e.id == ids[n];
      sorted := sorted + [e];
    }
    forall e ensures e in sorted <==> e in envelopes {
      if e in envelopes {
        assert e.id in ids;
        var j :| 0 <= j < |ids| && ids[j] == e.id;
        SameEnvelope(envelopes, e, sorted[j]);
      }
    }
  }

  lemma SameEnvelope(envelopes: seq<Envelope>, a: Envelope, b: Envelope)
    requires DistinctEnvelopes(envelopes) && a in envelopes && b in envelopes && a.id == b.id
    ensures a == b
  {
    var i :| 0 <= i < |envelopes| && envelopes[i] == a;
    var j :| 0 <= j < |envelopes| && envelopes[j] == b;
  }

  /** Each side's categories with the envelope that owns them: in id order, the first to list one takes it. */
  method ChildMaps(envelopes: seq<Envelope>) returns (expense: map<Id, Id>, income: map<Id, Id>)
    requires DistinctEnvelopes(envelopes)
    ensures forall c :: IsOwner(envelopes, false, c, Lookup(expense, c))
                        && IsOwner(envelopes, true, c, Lookup(income, c))
  {
    var sorted := SortEnvelopes(envelopes);
    expense, income := map[], map[];
    for n := 0 to |sorted|
      invariant forall c :: Lookup(expense, c) == FirstClaim(sorted[..n], false, c)
      invariant forall c :: Lookup(income, c) == FirstClaim(sorted[..n], true, c)
    {
      var env := sorted[n];
      ghost var x, y := expense, income;
      assert env.members[..0] == [];
      for k := 0 to |env.members|
        invariant forall c :: Lookup(expense, c) == (if Lookup(x, c).None? && !env.income
                                                     && c in env.members[..k] then Some(env.id) else Lookup(x, c))
        invariant forall c :: Lookup(income, c) == (if Lookup(y, c).None? && env.income
                                                    && c in env.members[..k] then Some(env.id) else Lookup(y, c))
      {
        assert env.members[..k + 1] == env.members[..k] + [env.members[k]];
        if env.income {
          if env.members[k] !in income {
            income := income[env.members[k] := env.id];
          }
        } else {
          if env.members[k] !in expense {
            expense := expense[env.members[k] := env.id];
          }
        }
      }
      assert env.members[..|env.members|] == env.members;
      FirstClaimNext(sorted, n);
      forall c
        ensures Lookup(expense, c) == FirstClaim(sorted[..n + 1], false, c)
        ensures Lookup(income, c) == FirstClaim(sorted[..n + 1], true, c)
      {
        assert FirstClaim(sorted[..n + 1], false, c) == NextClaim(sorted, n, false, c);
        assert FirstClaim(sorted[..n + 1], true, c) == NextClaim(sorted, n, true, c);
      }
    }
    assert sorted[..|sorted|] == sorted;
    forall c ensures IsOwner(envelopes, false, c, Lookup(expense, c))
           && IsOwner(envelopes, true, c, Lookup(income, c)) {
      FirstOfSorted(sorted, false, c);
      FirstOfSorted(sorted, true, c);
      OwnerOrderFree(sorted, envelopes, false, c, FirstClaim(sorted, false, c));
      OwnerOrderFree(sorted, envelopes, true, c, FirstClaim(sorted, true, c));
    }
  }

  ghost function SpendFiles(b: Budget, owner: Id -> Option<Id>): Row -> Option<Element> {
    (r: Row) => SpendElement(b, owner, r.category, r.tag)
  }

  ghost function IncomeFiles(b: Budget, owner: Id -> Option<Id>): Row -> Option<Element> {
    (r: Row) => Some(IncomeElement(b, owner, r.category))
  }

  ghost predicate DistinctMonths(months: seq<Time>) {
    forall i, j :: 0 <= i < j < |months| ==> months[i] != months[j]
  }

  function At(cells: map<Cell, seq<C.Item>>, i: int, el: Element): seq<C.Item> {
    if Cell(i, el) in cells then cells[Cell(i, el)] else []
  }

  /** Every cell has gained its month's rows filed under its element, and nothing else. */
  ghost predicate Gained(months: seq<Time>, startDay: int, currency: Element -> Id, before: map<Cell, seq<C.Item>>,
                         after: map<Cell, seq<C.Item>>, rows: seq<Row>, files: Row -> Option<Element>) {
    forall i, el {:trigger At(after, i, el)} :: 0 <= i < |months| ==>
      At(after, i, el) == At(before, i, el)
        + FiledItems(rows, months[i], PeriodWindow(months[i], startDay), currency(el), files, el)
  }

  lemma NothingGained(months: seq<Time>, startDay: int, currency: Element -> Id, cells: map<Cell, seq<C.Item>>,
                      files: Row -> Option<Element>)
    ensures Gained(months, startDay, currency, cells, cells, [], files)
  {
  }

  /** One more row: filed under its element in its month's cell, if it has both. */
  ghost predicate GainedRow(months: seq<Time>, startDay: int, currency: Element -> Id, before: map<Cell, seq<C.Item>>,
                            after: map<Cell, seq<C.Item>>, r: Row, el: Option<Element>) {
    forall i, x {:trigger At(after, i, x)} :: 0 <= i < |months| ==>
      At(after, i, x) == At(before, i, x)
        + (if r.month == months[i] && el == Some(x) then [ItemOf(r, PeriodWindow(months[i], startDay), currency(x))]
           else [])
  }

  lemma GainedNext(months: seq<Time>, startDay: int, currency: Element -> Id, a: map<Cell, seq<C.Item>>,
                   b: map<Cell, seq<C.Item>>,
                   c: map<Cell, seq<C.Item>>, rows: seq<Row>, n: int, files: Row -> Option<Element>)
    requires 0 <= n < |rows| && Gained(months, startDay, currency, a, b, rows[..n], files)
    requires GainedRow(months, startDay, currency, b, c, rows[n], files(rows[n]))
    ensures Gained(months, startDay, currency, a, c, rows[..n + 1], files)
  {
    hide PeriodWindow, At, ItemOf;
    forall i, el | 0 <= i < |months|
      ensures At(c, i, el) == At(a, i, el)
              + FiledItems(rows[..n + 1], months[i], PeriodWindow(months[i], startDay), currency(el), files, el)
    {
      FilterNext(rows, n, PeriodWindow(months[i], startDay), currency(el), FiledAt(months[i], files, el));
      hide At, FilterItems, ItemOf;
    }
  }

  /** The sheet under construction: money to convert per cell, and the elements that have any. */
  class Sheet {
    const months: seq<Time>
    const startDay: int
    const currency: Element -> Id
    var toConvert: map<Cell, seq<C.Item>>
    var active: set<Element>

    ghost predicate Valid()
      reads this
    {
      && DistinctMonths(months)
      && (forall c :: c in toConvert ==> 0 <= c.i < |months| && toConvert[c] != [])
      && (forall el :: el in active <==> exists i :: Cell(i, el) in toConvert)
    }

    constructor (months: seq<Time>, startDay: int, currency: Element -> Id)
      requires DistinctMonths(months)
      ensures Valid() && toConvert == map[] && active == {}
      ensures this.months == months && this.startDay == startDay && this.currency == currency
    {
      this.months, this.startDay, this.currency := months, startDay, currency;
      toConvert, active := map[], {};
    }

    method AddActual(el: Element, i: int, r: Row)
      requires Valid() && 0 <= i < |months|
      modifies this
      ensures Valid()
      ensures forall j, x :: At(toConvert, j, x) == At(old(toConvert), j, x)
                             + (if j == i && x == el then [ItemOf(r, PeriodWindow(months[i], startDay), currency(el))]
                                else [])
    {
      var item := ItemOf(r, PeriodWindow(months[i], startDay), currency(el));
      ghost var before := toConvert;
      toConvert := toConvert[Cell(i, el) := At(toConvert, i, el) + [item]];
      active := active + {el};
      forall other ensures other in active <==> exists j :: Cell(j, other) in toConvert {
        if other == el { assert Cell(i, el) in toConvert; }
        if j :| Cell(j, other) in toConvert {
          if other != el { assert Cell(j, other) in before; }
        }
        if j :| Cell(j, other) in before { assert Cell(j, other) in toConvert; }
      }
    }

    method MonthIndex(m: Time) returns (i: Option<int>)
      requires Valid()
      ensures i.Some? ==> 0 <= i.value < |months| && months[i.value] == m
      ensures i.None? ==> m !in months
    {
      for n := 0 to |months|
        invariant forall j :: 0 <= j < n ==> months[j] != m
      {
        if months[n] == m {
          return Some(n);
        }
      }
      i := None;
    }

    /** Files rows one by one; a row of no month of the sheet, or with no element, is passed over. */
    method FileRow(r: Row, el: Option<Element>)
      requires Valid()
      modifies this
      ensures Valid()
      ensures GainedRow(months, startDay, currency, old(toConvert), toConvert, r, el)
    {
      hide PeriodWindow, ItemOf;
      var i := MonthIndex(r.month);
      if i.None? || el.None? {
        return;
      }
      AddActual(el.value, i.value, r);
    }

    /** An expense goes to its tag if it has one, else to its category's envelope, else to the category's own row. */
    method FileSpending(rows: seq<Row>, b: Budget, childOf: map<Id, Id>)
      requires Valid()
      modifies this
      ensures Valid()
      ensures Gained(months, startDay, currency, old(toConvert), toConvert, rows, SpendFiles(b, OwnerOf(childOf)))
    {
      ghost var files := SpendFiles(b, OwnerOf(childOf));
      NothingGained(months, startDay, currency, toConvert, files);
      for n := 0 to |rows|
        invariant Valid() && Gained(months, startDay, currency, old(toConvert), toConvert, rows[..n], files)
      {
        hide Gained, GainedRow;
        ghost var held := toConvert;
        var r := rows[n];
        var el := None;
        if r.tag.Some? {
          if r.tag.value in b.tags {
            el := Some(TagRow(r.tag.value));
          }
        } else if r.category.None? {
          el := Some(ExpenseUncategorized);
        } else if r.category.value in childOf {
          el := Some(EnvelopeRow(childOf[r.category.value], false));
        } else if r.category.value in b.categories {
          el := Some(CategoryRow(r.category.value));
        }
        assert el == files(r);
        FileRow(r, el);
        GainedNext(months, startDay, currency, old(toConvert), held, toConvert, rows, n, files);
      }
      assert rows[..|rows|] == rows;
    }

    /** Income goes to its category's envelope, else to the category's own row; unknown categories count as none. */
    method FileIncome(rows: seq<Row>, b: Budget, childOf: map<Id, Id>)
      requires Valid()
      modifies this
      ensures Valid()
      ensures Gained(months, startDay, currency, old(toConvert), toConvert, rows, IncomeFiles(b, OwnerOf(childOf)))
    {
      ghost var files := IncomeFiles(b, OwnerOf(childOf));
      NothingGained(months, startDay, currency, toConvert, files);
      for n := 0 to |rows|
        invariant Valid() && Gained(months, startDay, currency, old(toConvert), toConvert, rows[..n], files)
      {
        hide Gained, GainedRow;
        ghost var held := toConvert;
        var r := rows[n];
        var el := IncomeUncategorized;
        if r.category.Some? && !(r.category.value !in b.incomeCategories && r.category.value !in childOf) {
          if r.category.value in childOf {
            el := EnvelopeRow(childOf[r.category.value], true);
          } else if r.category.value in b.incomeCategories {
            el := IncomeCategoryRow(r.category.value);
          }
        }
        assert Some(el) == files(r);
        FileRow(r, Some(el));
        GainedNext(months, startDay, currency, old(toConvert), held, toConvert, rows, n, files);
      }
      assert rows[..|rows|] == rows;
    }
  }

  /**
   * Every row the sheet could have: envelopes, tags, the categories no envelope owns, and the two uncategorized rows.
   */
  function PlanElements(b: Budget, expense: map<Id, Id>, income: map<Id, Id>): set<Element> {
    (set e | e in b.envelopes :: EnvelopeRow(e.id, e.income))
    + (set t | t in b.tags :: TagRow(t))
    + (set c | c in b.categories && c !in expense :: CategoryRow(c))
    + (set c | c in b.incomeCategories && c !in income :: IncomeCategoryRow(c))
    + {ExpenseUncategorized, IncomeUncategorized}
  }

  /**
   * What is worth showing: the uncategorized rows with actuals only, tags with actuals or plans, archived rows
   * likewise, and any other row always.
   */
  predicate Shown(el: Element, active: set<Element>, planned: set<Element>, archived: set<Element>) {
    match el
    case ExpenseUncategorized => el in active
    case IncomeUncategorized => el in active
    case TagRow(_) => el in active || el in planned
    case _ => el !in archived || el in active || el in planned
  }

  method EmitPlanElements(elements: set<Element>, active: set<Element>, planned: set<Element>, archived: set<Element>)
    returns (kept: set<Element>)
    ensures kept == set el | el in elements && Shown(el, active, planned, archived)
    ensures forall el :: el in elements && el in active ==> el in kept
  {
    kept := {};
    var rest := elements;
    while rest != {}
      invariant rest <= elements
      invariant kept == set el | el in elements && el !in rest && Shown(el, active, planned, archived)
    {
      var el :| el in rest;
      rest := rest - {el};
      var isActive := el in active || el in planned;
      if el.ExpenseUncategorized? || el.IncomeUncategorized? {
        if el !in active {
          continue;
        }
      } else if el.TagRow? {
        if !isActive {
          continue;
        }
      } else if el in archived && !isActive {
        continue;
      }
      kept := kept + {el};
    }
  }

  function RangeOf(w: Window): C.Range {
    C.Range(w.start, w.end)
  }

  /** The sheet: what is filed in each cell, its conversion at its month's rates, and the elements shown. */
  method BuildPlan(b: Budget, months: seq<Time>, startDay: int, currency: Element -> Id, spendRows: seq<Row>,
                   incomeRows: seq<Row>,
                   planned: set<Element>, archived: set<Element>, p: C.RateProvider)
    returns (kept: set<Element>, cells: map<Cell, seq<C.Item>>, actual: map<Cell, int>, loaded: map<int, C.Range>,
             expense: map<Id, Id>, income: map<Id, Id>)
    requires DistinctEnvelopes(b.envelopes) && DistinctMonths(months) && months != [] && C.Sound(p)
    ensures forall c :: IsOwner(b.envelopes, false, c, Lookup(expense, c))
                        && IsOwner(b.envelopes, true, c, Lookup(income, c))
    ensures forall i, el :: 0 <= i < |months| ==>
              At(cells, i, el) == PlanItems(b, months[i], startDay, currency(el), spendRows, incomeRows, expense,
                                            income, el)
    ensures forall c :: c in cells ==> 0 <= c.i < |months| && cells[c] != []
    ensures C.Needed(RangeOf(PeriodWindow(months[0], startDay)), cells, loaded)
    ensures actual.Keys == cells.Keys
    ensures forall c :: c in actual ==> actual[c]
                                        == C.Total(cells[c], loaded,
                                                   C.MonthKey(PeriodWindow(months[0], startDay).start), p)
    ensures forall i, el :: Cell(i, el) in cells && el in PlanElements(b, expense, income) ==> el in kept
    ensures kept == set el | el in PlanElements(b, expense, income) && Shown(el, WithCells(cells), planned, archived)
  {
    hide PeriodWindow, C.Needed, C.Total, C.MonthKey, FilterItems, C.Sound, DistinctEnvelopes, Shown, IsOwner;
    expense, income := ChildMaps(b.envelopes);
    var sheet := new Sheet(months, startDay, currency);
    sheet.FileSpending(spendRows, b, expense);
    ghost var spent := sheet.toConvert;
    sheet.FileIncome(incomeRows, b, income);
    cells := sheet.toConvert;
    BothFiled(months, startDay, currency, spent, cells, b, spendRows, incomeRows, expense, income);
    var own := PeriodWindow(months[0], startDay);
    actual, loaded := C.BulkConvert(RangeOf(own), cells, p);
    assert sheet.active == WithCells(cells);
    kept := EmitPlanElements(PlanElements(b, expense, income), sheet.active, planned, archived);
  }

  /** The elements some month has money for. */
  ghost function WithCells(cells: map<Cell, seq<C.Item>>): set<Element> {
    set c | c in cells :: c.el
  }

  /** What a cell holds: the month's expense rows filed under the element, then its income rows. */
  ghost function PlanItems(b: Budget, month: Time, startDay: int, to: Id, spendRows: seq<Row>, incomeRows: seq<Row>,
                           expense: map<Id, Id>, income: map<Id, Id>, el: Element): seq<C.Item> {
    FiledItems(spendRows, month, PeriodWindow(month, startDay), to, SpendFiles(b, OwnerOf(expense)), el)
    + FiledItems(incomeRows, month, PeriodWindow(month, startDay), to, IncomeFiles(b, OwnerOf(income)), el)
  }

  lemma BothFiled(months: seq<Time>, startDay: int, currency: Element -> Id, spent: map<Cell, seq<C.Item>>,
                  cells: map<Cell, seq<C.Item>>,
                  b: Budget, spendRows: seq<Row>, incomeRows: seq<Row>, expense: map<Id, Id>, income: map<Id, Id>)
    requires Gained(months, startDay, currency, map[], spent, spendRows, SpendFiles(b, OwnerOf(expense)))
    requires Gained(months, startDay, currency, spent, cells, incomeRows, IncomeFiles(b, OwnerOf(income)))
    ensures forall i, el :: 0 <= i < |months| ==>
              At(cells, i, el) == PlanItems(b, months[i], startDay, currency(el), spendRows, incomeRows, expense,
                                            income, el)
  {
    hide PeriodWindow, FilterItems;
    forall i, el | 0 <= i < |months|
      ensures At(cells, i, el) == PlanItems(b, months[i], startDay, currency(el), spendRows, incomeRows, expense,
                                            income, el)
    {
      var items := FiledItems(spendRows, months[i], PeriodWindow(months[i], startDay), currency(el),
                              SpendFiles(b, OwnerOf(expense)), el);
      assert At(spent, i, el) == [] + items == items;
    }
  }

  predicate ExpenseSide(el: Element) {
    match el
    case EnvelopeRow(_, income) => !income
    case IncomeCategoryRow(_) => false
    case IncomeUncategorized => false
    case _ => true
  }

  /**
   * Every income row has an element of the sheet, and every expense row that is untagged or has a known tag does, given
   * that the read returns no category outside the set it was asked for.
   */
  lemma EveryRowHasAnElement(b: Budget, expense: map<Id, Id>, income: map<Id, Id>, r: Row)
    requires forall c :: IsOwner(b.envelopes, false, c, Lookup(expense, c))
                         && IsOwner(b.envelopes, true, c, Lookup(income, c))
    ensures IncomeFiles(b, OwnerOf(income))(r).value in PlanElements(b, expense, income)
            && !ExpenseSide(IncomeFiles(b, OwnerOf(income))(r).value)
    ensures SpendFiles(b, OwnerOf(expense))(r).Some? ==>
      SpendFiles(b, OwnerOf(expense))(r).value in PlanElements(b, expense, income)
        && ExpenseSide(SpendFiles(b, OwnerOf(expense))(r).value)
    ensures (r.tag.Some? ==> r.tag.value in b.tags) && (r.category.Some? ==> r.category.value in b.categories) ==>
      SpendFiles(b, OwnerOf(expense))(r).Some?
  {
    if r.category.Some? {
      var c := r.category.value;
      assert IsOwner(b.envelopes, false, c, Lookup(expense, c)) && IsOwner(b.envelopes, true, c, Lookup(income, c));
      if c in expense { OwnedBy(b.envelopes, false, c, expense[c]); }
      if c in income { OwnedBy(b.envelopes, true, c, income[c]); }
    }
  }

  lemma OwnedBy(envelopes: seq<Envelope>, side: bool, c: Id, id: Id)
    requires IsOwner(envelopes, side, c, Some(id))
    ensures EnvelopeRow(id, side) in set e | e in envelopes :: EnvelopeRow(e.id, e.income)
  {
    assert Lists(envelopes, side, c, id);
    var i :| 0 <= i < |envelopes| && envelopes[i].id == id && Claims(envelopes[i], side, c);
    assert envelopes[i] in envelopes;
  }

  ghost function CellAmount(actual: map<Cell, int>, i: int): Element -> int {
    (el: Element) => if Cell(i, el) in actual then actual[Cell(i, el)] else 0
  }

  ghost predicate InOneCurrency(k: Id, currency: Element -> Id, rows: seq<Row>) {
    (forall el :: currency(el) == k) && forall r :: r in rows ==> r.currency == k
  }

  /** In one currency the shown expense elements of a month add up to the month's filed expenses, and the shown income
      elements to the month's income: nothing with actuals is pruned, and nothing counts twice. */
  lemma PlanConserves(b: Budget, months: seq<Time>, startDay: int, currency: Element -> Id, spendRows: seq<Row>,
                      incomeRows: seq<Row>,
                      p: C.RateProvider, kept: set<Element>, cells: map<Cell, seq<C.Item>>, actual: map<Cell, int>,
                      loaded: map<int, C.Range>,
                      current: int, expense: map<Id, Id>, income: map<Id, Id>, k: Id, i: int)
    requires C.Sound(p) && current in loaded && 0 <= i < |months|
    requires forall c :: IsOwner(b.envelopes, false, c, Lookup(expense, c))
                         && IsOwner(b.envelopes, true, c, Lookup(income, c))
    requires forall el :: At(cells, i, el)
                          == PlanItems(b, months[i], startDay, currency(el), spendRows, incomeRows, expense, income, el)
    requires forall c :: c in cells ==> cells[c] != []
    requires actual.Keys == cells.Keys && forall c :: c in actual ==> actual[c] == C.Total(cells[c], loaded, current, p)
    requires forall el :: Cell(i, el) in cells && el in PlanElements(b, expense, income) ==> el in kept
    requires InOneCurrency(k, currency, spendRows) && InOneCurrency(k, currency, incomeRows)
    ensures SumSet((set el | el in kept && ExpenseSide(el)), CellAmount(actual, i))
         == MonthTotal(spendRows, months[i], SpendFiles(b, OwnerOf(expense)))
    ensures SumSet((set el | el in kept && !ExpenseSide(el)), CellAmount(actual, i))
         == MonthTotal(incomeRows, months[i], IncomeFiles(b, OwnerOf(income)))
  {
    var w := PeriodWindow(months[i], startDay);
    var spendFiles, incomeFiles := SpendFiles(b, OwnerOf(expense)), IncomeFiles(b, OwnerOf(income));
    var out := set el | el in kept && ExpenseSide(el);
    var in_ := set el | el in kept && !ExpenseSide(el);
    forall el
      ensures ExpenseSide(el) ==> CellAmount(actual, i)(el)
                                  == ElementTotal(spendRows, months[i], w, currency, spendFiles)(el)
      ensures !ExpenseSide(el) ==> CellAmount(actual, i)(el)
                                   == ElementTotal(incomeRows, months[i], w, currency, incomeFiles)(el)
    {
      OneSide(b, expense, income, spendRows, incomeRows, months[i], startDay, currency(el), el);
      CellInOneCurrency(b, months[i], startDay, currency, spendRows, incomeRows, p, cells, actual, loaded, current,
                        expense, income, k, i, el);
    }
    SumSetAgree(out, CellAmount(actual, i), ElementTotal(spendRows, months[i], w, currency, spendFiles));
    SumSetAgree(in_, CellAmount(actual, i), ElementTotal(incomeRows, months[i], w, currency, incomeFiles));
    hide PeriodWindow, IsOwner, PlanElements, ElementTotal;
    forall r | r in spendRows && r.month == months[i] && spendFiles(r).Some? ensures spendFiles(r).value in out {
      EveryRowHasAnElement(b, expense, income, r);
      RowFillsCell(b, months[i], startDay, currency, spendRows, incomeRows, cells, expense, income, i, r,
                   spendFiles(r).value);
    }
    forall r | r in incomeRows && r.month == months[i] && incomeFiles(r).Some? ensures incomeFiles(r).value in in_ {
      EveryRowHasAnElement(b, expense, income, r);
      RowFillsCell(b, months[i], startDay, currency, spendRows, incomeRows, cells, expense, income, i, r,
                   incomeFiles(r).value);
    }
    FilingPartitions(spendRows, months[i], w, currency, spendFiles, out);
    FilingPartitions(incomeRows, months[i], w, currency, incomeFiles, in_);
  }

  /** A row filed under an element leaves the cell non-empty. */
  lemma RowFillsCell(b: Budget, month: Time, startDay: int, currency: Element -> Id, spendRows: seq<Row>,
                     incomeRows: seq<Row>,
                     cells: map<Cell, seq<C.Item>>, expense: map<Id, Id>, income: map<Id, Id>, i: int, r: Row,
                     el: Element)
    requires At(cells, i, el) == PlanItems(b, month, startDay, currency(el), spendRows, incomeRows, expense, income, el)
    requires r.month == month
    requires (r in spendRows && SpendFiles(b, OwnerOf(expense))(r) == Some(el))
             || (r in incomeRows && IncomeFiles(b, OwnerOf(income))(r) == Some(el))
    ensures Cell(i, el) in cells
  {
    if r in spendRows && SpendFiles(b, OwnerOf(expense))(r) == Some(el) {
      FilterSome(spendRows, PeriodWindow(month, startDay), currency(el),
                 FiledAt(month, SpendFiles(b, OwnerOf(expense)), el), r);
    } else {
      FilterSome(incomeRows, PeriodWindow(month, startDay), currency(el),
                 FiledAt(month, IncomeFiles(b, OwnerOf(income)), el), r);
    }
  }

  /** An element takes rows of its own side only. */
  lemma OneSide(b: Budget, expense: map<Id, Id>, income: map<Id, Id>, spendRows: seq<Row>, incomeRows: seq<Row>,
                month: Time, startDay: int,
                to: Id, el: Element)
    ensures ExpenseSide(el) ==> FiledItems(incomeRows, month, PeriodWindow(month, startDay), to,
                                           IncomeFiles(b, OwnerOf(income)), el) == []
    ensures !ExpenseSide(el) ==> FiledItems(spendRows, month, PeriodWindow(month, startDay), to,
                                            SpendFiles(b, OwnerOf(expense)), el) == []
  {
    var w := PeriodWindow(month, startDay);
    hide PeriodWindow;
    if ExpenseSide(el) {
      FilterNone(incomeRows, w, to, FiledAt(month, IncomeFiles(b, OwnerOf(income)), el));
    } else {
      FilterNone(spendRows, w, to, FiledAt(month, SpendFiles(b, OwnerOf(expense)), el));
    }
  }

  lemma {:induction false} FilterCurrency(rows: seq<Row>, w: Window, to: Id, keep: Row -> bool)
    requires forall r :: r in rows ==> r.currency == to
    ensures forall it :: it in FilterItems(rows, w, to, keep) ==> it.from == it.to
  {
    if rows != [] {
      assert rows[|rows| - 1] in rows;
      FilterCurrency(rows[..|rows| - 1], w, to, keep);
    }
  }

  lemma CellInOneCurrency(b: Budget, month: Time, startDay: int, currency: Element -> Id, spendRows: seq<Row>,
                          incomeRows: seq<Row>, p: C.RateProvider,
                          cells: map<Cell, seq<C.Item>>, actual: map<Cell, int>, loaded: map<int, C.Range>,
                          current: int,
                          expense: map<Id, Id>, income: map<Id, Id>, k: Id, i: int, el: Element)
    requires C.Sound(p) && current in loaded
    requires At(cells, i, el) == PlanItems(b, month, startDay, currency(el), spendRows, incomeRows, expense, income, el)
    requires actual.Keys == cells.Keys && forall c :: c in actual ==> actual[c] == C.Total(cells[c], loaded, current, p)
    requires InOneCurrency(k, currency, spendRows) && InOneCurrency(k, currency, incomeRows)
    ensures CellAmount(actual, i)(el) == AmountSum(PlanItems(b, month, startDay, currency(el), spendRows, incomeRows,
                                                             expense, income, el))
    ensures forall items: seq<C.Item> :: AmountSum(items + []) == AmountSum(items)
                                         && AmountSum([] + items) == AmountSum(items)
  {
    forall items: seq<C.Item> ensures AmountSum(items + []) == AmountSum(items)
           && AmountSum([] + items) == AmountSum(items) {
      assert items + [] == items && [] + items == items;
    }
    var w := PeriodWindow(month, startDay);
    FilterCurrency(spendRows, w, k, FiledAt(month, SpendFiles(b, OwnerOf(expense)), el));
    FilterCurrency(incomeRows, w, k, FiledAt(month, IncomeFiles(b, OwnerOf(income)), el));
    hide PeriodWindow, C.Total, FilterItems, C.Sound;
    if Cell(i, el) in cells {
      OneCurrencyTotal(cells[Cell(i, el)], loaded, current, p);
    }
  }
}
