/** The rows the two pages start from: one read per month against one read by month, over the same entries. */
module PagesFromReads {
  import opened Prelude
  import opened Calendar
  import opened Filing
  import L = MoneyLines
  import T = MoneyTheorems
  import C = Convertor
  import M = MonthlyPage
  import P = PlanPage
  import opened A = PagesAgree

  /** A row of a by-month read, filed under its month. */
  function PlanRow(l: L.Line): Row {
    if l.key.SpendKey? && l.key.spentIn.Some? then Row(l.key.spentIn.value, l.key.category, l.key.tag, l.key.currency,
                                                       l.amount)
    else Row(0, None, None, 0, 0)
  }

  function PlanRows(lines: seq<L.Line>): seq<Row> {
    seq(|lines|, i requires 0 <= i < |lines| => PlanRow(lines[i]))
  }

  /** A row of one period's read, seen as that month's. */
  function MonthRow(l: L.Line, month: Time): Row {
    if l.key.SpendKey? then Row(month, l.key.category, l.key.tag, l.key.currency, l.amount)
    else Row(month, None, None, 0, 0)
  }

  function MonthRows(lines: seq<L.Line>, month: Time): seq<Row> {
    seq(|lines|, i requires 0 <= i < |lines| => MonthRow(lines[i], month))
  }

  function SpendingOf(categories: set<Id>, accounts: set<Id>, byMonth: Option<int>): L.Query {
    L.Spending(categories, accounts, byMonth)
  }

  /** An entry a spending read counts under a key. */
  predicate CountsAs(e: L.Entry, iv: L.Interval, categories: set<Id>, accounts: set<Id>, byMonth: Option<int>, k: L.Key)
  {
    && L.FiledIn(e, iv) && e.kind == L.Expense && e.account in accounts
      && (e.category.None? || e.category.value in categories)
    && k == L.SpendKey(if byMonth.Some? then Some(PeriodOf(e.at, byMonth.value)) else None, e.category, e.tag,
                       e.currency)
  }

  /** A key occurs in a spending read exactly when some entry counts under it. */
  lemma {:induction false} KeyOccurs(entries: seq<L.Entry>, iv: L.Interval, categories: set<Id>, accounts: set<Id>,
                                     byMonth: Option<int>, k: L.Key)
    ensures L.HasKey(L.Filed(SpendingOf(categories, accounts, byMonth), entries, iv), k)
       <==> exists e :: e in entries && CountsAs(e, iv, categories, accounts, byMonth, k)
  {
    hide PeriodOf;
    var q := SpendingOf(categories, accounts, byMonth);
    if entries != [] {
      var n := |entries| - 1;
      KeyOccurs(entries[..n], iv, categories, accounts, byMonth, k);
      var before, mine := L.Filed(q, entries[..n], iv),
        if L.FiledIn(entries[n], iv) then L.Lines(q, entries[n]) else [];
      KeyInEither(before, mine, k);
      assert entries == entries[..n] + [entries[n]];
      assert L.HasKey(mine, k) <==> CountsAs(entries[n], iv, categories, accounts, byMonth, k) by {
        if CountsAs(entries[n], iv, categories, accounts, byMonth, k) { assert mine[0].key == k; }
      }
    }
  }

  lemma KeyInEither(a: seq<L.Line>, b: seq<L.Line>, k: L.Key)
    ensures L.HasKey(a + b, k) <==> L.HasKey(a, k) || L.HasKey(b, k)
  {
    if L.HasKey(a, k) {
      var i :| 0 <= i < |a| && a[i].key == k;
      assert (a + b)[i].key == k;
    }
    if L.HasKey(b, k) {
      var i :| 0 <= i < |b| && b[i].key == k;
      assert (a + b)[|a| + i].key == k;
    }
  }

  /** A month's bucket occurs in the by-month read exactly when the period's own read has it. */
  lemma SameOccurrence(entries: seq<L.Entry>, from: Time, to: Time, categories: set<Id>, accounts: set<Id>,
                       startDay: int, m: Time,
                       category: Option<Id>, tag: Option<Id>, currency: Id)
    requires m == FirstOfMonth(m) && from <= PeriodWindow(m, startDay).start && PeriodWindow(m, startDay).end <= to
    ensures var w := PeriodWindow(m, startDay);
      L.HasKey(L.Filed(SpendingOf(categories, accounts, Some(startDay)), entries, L.Between(from, to)),
               L.SpendKey(Some(m), category, tag, currency))
      <==> L.HasKey(L.Filed(SpendingOf(categories, accounts, None), entries, L.Between(w.start, w.end)),
                    L.SpendKey(None, category, tag, currency))
  {
    var w := PeriodWindow(m, startDay);
    var whole, own := L.Between(from, to), L.Between(w.start, w.end);
    var k, k' := L.SpendKey(Some(m), category, tag, currency), L.SpendKey(None, category, tag, currency);
    KeyOccurs(entries, whole, categories, accounts, Some(startDay), k);
    KeyOccurs(entries, own, categories, accounts, None, k');
    forall e ensures CountsAs(e, whole, categories, accounts, Some(startDay), k) <==>
             CountsAs(e, own, categories, accounts, None, k') {
      PeriodOfIffInWindow(e.at, m, startDay);
      hide PeriodOf, PeriodWindow, FirstOfMonth;
    }
    hide CountsAs, L.HasKey, L.Filed, PeriodOf, PeriodWindow, FirstOfMonth;
  }

  lemma SameAmount(entries: seq<L.Entry>, from: Time, to: Time, categories: set<Id>, accounts: set<Id>, startDay: int,
                   m: Time,
                   category: Option<Id>, tag: Option<Id>, currency: Id)
    requires m == FirstOfMonth(m) && from <= PeriodWindow(m, startDay).start && PeriodWindow(m, startDay).end <= to
    ensures var w := PeriodWindow(m, startDay);
      L.Sum(L.Filed(SpendingOf(categories, accounts, Some(startDay)), entries, L.Between(from, to)),
            L.Is(L.SpendKey(Some(m), category, tag, currency)))
      == L.Sum(L.Filed(SpendingOf(categories, accounts, None), entries, L.Between(w.start, w.end)),
               L.Is(L.SpendKey(None, category, tag, currency)))
  {
    var w := PeriodWindow(m, startDay);
    T.MonthBucketIsWindow(entries, L.Between(from, to), categories, accounts, startDay, m, category, tag, currency);
    assert T.Within(L.Between(from, to), w) == L.Between(w.start, w.end);
    hide PeriodWindow, FirstOfMonth, L.Filed, L.Sum;
  }

  /** What the two reads return, over the same entries: the whole sheet by month, and one period of it. */
  ghost predicate ReadPlan(lines: seq<L.Line>, entries: seq<L.Entry>, from: Time, to: Time, categories: set<Id>,
                           accounts: set<Id>, startDay: int)
  {
    L.Represents(lines, L.Filed(SpendingOf(categories, accounts, Some(startDay)), entries, L.Between(from, to)))
  }

  ghost predicate ReadMonth(lines: seq<L.Line>, entries: seq<L.Entry>, w: Window, categories: set<Id>,
                            accounts: set<Id>)
  {
    L.Represents(lines, L.Filed(SpendingOf(categories, accounts, None), entries, L.Between(w.start, w.end)))
  }

  /** A read's row of a key is there exactly when the key occurs, with the key's sum. */
  lemma RowOfKey(lines: seq<L.Line>, filed: seq<L.Line>, k: L.Key, amount: int)
    requires L.Represents(lines, filed)
    ensures L.Line(k, amount) in lines <==> L.HasKey(filed, k) && amount == L.Sum(filed, L.Is(k))
  {
    if L.Line(k, amount) in lines {
      var i :| 0 <= i < |lines| && lines[i] == L.Line(k, amount);
      assert lines[i].key == k && L.HasKey(lines, k);
    }
    if L.HasKey(filed, k) {
      assert L.HasKey(lines, k);
      var i :| 0 <= i < |lines| && lines[i].key == k;
      assert lines[i] in lines;
    }
    hide L.Sum;
  }

  /** Every row of a spending read has a spending key, of a category asked for. */
  lemma RowKeys(lines: seq<L.Line>, entries: seq<L.Entry>, iv: L.Interval, categories: set<Id>, accounts: set<Id>,
                byMonth: Option<int>, l: L.Line)
    requires L.Represents(lines, L.Filed(SpendingOf(categories, accounts, byMonth), entries, iv)) && l in lines
    ensures l.key.SpendKey? && (l.key.spentIn.Some? <==> byMonth.Some?)
            && (l.key.category.Some? ==> l.key.category.value in categories)
  {
    var i :| 0 <= i < |lines| && lines[i] == l;
    assert L.HasKey(lines, l.key);
    KeyOccurs(entries, iv, categories, accounts, byMonth, l.key);
    hide L.Filed, L.Sum, PeriodOf;
  }

  /** The period's row and the month's row of the by-month read are one and the same. */
  lemma SameRow(plan: seq<L.Line>, month: seq<L.Line>, entries: seq<L.Entry>, from: Time, to: Time, categories: set<Id>,
                accounts: set<Id>,
                startDay: int, m: Time, r: Row)
    requires m == FirstOfMonth(m) && from <= PeriodWindow(m, startDay).start && PeriodWindow(m, startDay).end <= to
    requires ReadPlan(plan, entries, from, to, categories, accounts, startDay)
    requires ReadMonth(month, entries, PeriodWindow(m, startDay), categories, accounts)
    requires r.month == m
    ensures L.Line(L.SpendKey(Some(m), r.category, r.tag, r.currency), r.amount) in plan
       <==> L.Line(L.SpendKey(None, r.category, r.tag, r.currency), r.amount) in month
  {
    hide PeriodWindow, FirstOfMonth, L.Filed, L.Sum, L.HasKey, L.Represents;
    var w := PeriodWindow(m, startDay);
    SameOccurrence(entries, from, to, categories, accounts, startDay, m, r.category, r.tag, r.currency);
    SameAmount(entries, from, to, categories, accounts, startDay, m, r.category, r.tag, r.currency);
    RowOfKey(plan, L.Filed(SpendingOf(categories, accounts, Some(startDay)), entries, L.Between(from, to)),
             L.SpendKey(Some(m), r.category, r.tag, r.currency), r.amount);
    RowOfKey(month, L.Filed(SpendingOf(categories, accounts, None), entries, L.Between(w.start, w.end)),
             L.SpendKey(None, r.category, r.tag, r.currency), r.amount);
  }

  ghost predicate Distinct(rows: seq<Row>) {
    forall i, j :: 0 <= i < j < |rows| ==> rows[i] != rows[j]
  }

  lemma {:induction false} DistinctCount(rows: seq<Row>)
    requires Distinct(rows)
    ensures forall r :: multiset(rows)[r] == if r in rows then 1 else 0
  {
    if rows != [] {
      var n := |rows| - 1;
      DistinctCount(rows[..n]);
      assert rows == rows[..n] + [rows[n]];
      assert rows[n] !in rows[..n];
    }
  }

  lemma {:induction false} KeptDistinct(rows: seq<Row>, keep: Row -> bool)
    requires Distinct(rows)
    ensures Distinct(M.Kept(rows, keep))
  {
    if rows != [] {
      var n := |rows| - 1;
      KeptDistinct(rows[..n], keep);
      KeptMember(rows[..n], keep, rows[n]);
      assert rows[n] !in rows[..n];
    }
  }

  lemma MonthRowsDistinct(lines: seq<L.Line>, filed: seq<L.Line>, m: Time)
    requires L.Represents(lines, filed)
    requires forall l :: l in lines ==> l.key.SpendKey? && l.key.spentIn.None?
    ensures Distinct(MonthRows(lines, m))
  {
    hide L.Sum, L.HasKey;
    var rows := MonthRows(lines, m);
    forall i, j | 0 <= i < j < |rows| ensures rows[i] != rows[j] {
      assert lines[i] in lines && lines[j] in lines && lines[i].key != lines[j].key;
    }
  }

  lemma PlanRowsDistinct(lines: seq<L.Line>, filed: seq<L.Line>)
    requires L.Represents(lines, filed)
    requires forall l :: l in lines ==> l.key.SpendKey? && l.key.spentIn.Some?
    ensures Distinct(PlanRows(lines))
  {
    hide L.Sum, L.HasKey;
    var rows := PlanRows(lines);
    forall i, j | 0 <= i < j < |rows| ensures rows[i] != rows[j] {
      assert lines[i] in lines && lines[j] in lines && lines[i].key != lines[j].key;
    }
  }

  lemma MonthRowMember(lines: seq<L.Line>, m: Time, r: Row)
    requires forall l :: l in lines ==> l.key.SpendKey? && l.key.spentIn.None?
    ensures r in MonthRows(lines, m) <==>
              r.month == m && L.Line(L.SpendKey(None, r.category, r.tag, r.currency), r.amount) in lines
  {
    if r in MonthRows(lines, m) {
      var i :| 0 <= i < |lines| && MonthRows(lines, m)[i] == r;
      assert lines[i] in lines;
    }
    if r.month == m && L.Line(L.SpendKey(None, r.category, r.tag, r.currency), r.amount) in lines {
      var i :| 0 <= i < |lines| && lines[i] == L.Line(L.SpendKey(None, r.category, r.tag, r.currency), r.amount);
      assert MonthRows(lines, m)[i] == r;
    }
  }

  lemma PlanRowMember(lines: seq<L.Line>, r: Row)
    requires forall l :: l in lines ==> l.key.SpendKey? && l.key.spentIn.Some?
    ensures r in PlanRows(lines) <==> L.Line(L.SpendKey(Some(r.month), r.category, r.tag, r.currency),
                                             r.amount) in lines
  {
    if r in PlanRows(lines) {
      var i :| 0 <= i < |lines| && PlanRows(lines)[i] == r;
      assert lines[i] in lines;
    }
    if L.Line(L.SpendKey(Some(r.month), r.category, r.tag, r.currency), r.amount) in lines {
      var i :| 0 <= i < |lines| && lines[i]
                                   == L.Line(L.SpendKey(Some(r.month), r.category, r.tag, r.currency), r.amount);
      assert PlanRows(lines)[i] == r;
    }
  }

  /** The period's read and that month of the by-month read are the same rows, all of categories asked for. */
  lemma ReadsAgree(plan: seq<L.Line>, month: seq<L.Line>, entries: seq<L.Entry>, from: Time, to: Time, b: Budget,
                   accounts: set<Id>,
                   startDay: int, m: Time)
    requires m == FirstOfMonth(m) && from <= PeriodWindow(m, startDay).start && PeriodWindow(m, startDay).end <= to
    requires ReadPlan(plan, entries, from, to, b.categories, accounts, startDay)
    requires ReadMonth(month, entries, PeriodWindow(m, startDay), b.categories, accounts)
    ensures multiset(MonthRows(month, m)) == multiset(M.Kept(PlanRows(plan), InMonth(m)))
    ensures KnownCategories(b, MonthRows(month, m))
  {
    var w := PeriodWindow(m, startDay);
    forall l | l in plan ensures l.key.SpendKey? && l.key.spentIn.Some? {
      RowKeys(plan, entries, L.Between(from, to), b.categories, accounts, Some(startDay), l);
    }
    forall l | l in month ensures l.key.SpendKey? && l.key.spentIn.None?
           && (l.key.category.Some? ==> l.key.category.value in b.categories) {
      RowKeys(month, entries, L.Between(w.start, w.end), b.categories, accounts, None, l);
    }
    PlanRowsDistinct(plan, L.Filed(SpendingOf(b.categories, accounts, Some(startDay)), entries, L.Between(from, to)));
    MonthRowsDistinct(month, L.Filed(SpendingOf(b.categories, accounts, None), entries, L.Between(w.start, w.end)), m);
    hide PeriodWindow, FirstOfMonth, ReadPlan, ReadMonth, Distinct;
    var mine, theirs := MonthRows(month, m), M.Kept(PlanRows(plan), InMonth(m));
    KeptDistinct(PlanRows(plan), InMonth(m));
    DistinctCount(mine);
    DistinctCount(theirs);
    forall r ensures r in mine <==> r in theirs {
      KeptMember(PlanRows(plan), InMonth(m), r);
      MonthRowMember(month, m, r);
      PlanRowMember(plan, r);
      if r.month == m {
        SameRow(plan, month, entries, from, to, b.categories, accounts, startDay, m, r);
      }
    }
    hide M.Kept;
    assert forall r :: multiset(mine)[r] == multiset(theirs)[r];
    forall r | r in mine && r.category.Some? ensures r.category.value in b.categories {
      MonthRowMember(month, m, r);
    }
  }

  /**
   * The pages agree on what they read: for the stored entries of the budget's accounts and categories, an expense
   * element's spending on a month's page is its cell of the sheet, in the element's currency.
   */
  lemma PagesAgreeOnReads(b: Budget, months: seq<Time>, startDay: int, currency: Element -> Id, p: C.RateProvider,
                          i: int, el: Element,
                          entries: seq<L.Entry>, accounts: set<Id>, from: Time, to: Time, plan: seq<L.Line>,
                          month: seq<L.Line>,
                          incomeRows: seq<Row>, expense: map<Id, Id>, income: map<Id, Id>,
                          cells: map<P.Cell, seq<C.Item>>, actual: map<P.Cell, int>, planLoaded: map<int, C.Range>,
                          toConvert: map<Element, seq<C.Item>>, spent: map<Element, int>,
                          monthLoaded: map<int, C.Range>)
    requires C.Sound(p) && MonthKeys(months) && 0 <= i < |months| && P.ExpenseSide(el)
    requires from <= PeriodWindow(months[i], startDay).start && PeriodWindow(months[i], startDay).end <= to
    requires ReadPlan(plan, entries, from, to, b.categories, accounts, startDay)
    requires ReadMonth(month, entries, PeriodWindow(months[i], startDay), b.categories, accounts)
    // what the plan builder promises
    requires Owned(b, expense)
    requires forall j, e :: 0 <= j < |months| ==>
      P.At(cells, j, e) == P.PlanItems(b, months[j], startDay, currency(e), PlanRows(plan), incomeRows, expense, income,
                                       e)
    requires forall c :: c in cells ==> 0 <= c.i < |months|
    requires C.Needed(P.RangeOf(PeriodWindow(months[0], startDay)), cells, planLoaded)
    requires actual.Keys == cells.Keys
    requires forall c :: c in actual ==> actual[c]
                                         == C.Total(cells[c], planLoaded,
                                                    C.MonthKey(PeriodWindow(months[0], startDay).start), p)
    // what the monthly builder promises for the month's period
    requires forall e :: M.SameItems(M.SpentAt(toConvert, e),
      FilterItems(MonthRows(month, months[i]), PeriodWindow(months[i], startDay), currency(e), M.MonthlyFiles(b, e)))
    requires C.Needed(P.RangeOf(PeriodWindow(months[i], startDay)), toConvert, monthLoaded)
    requires spent.Keys == toConvert.Keys
    requires forall e :: e in spent ==> spent[e]
                                        == C.Total(toConvert[e], monthLoaded,
                                                   C.MonthKey(PeriodWindow(months[i], startDay).start), p)
    requires FirstIsOwner(b, expense)
    ensures Spent(spent, el) == P.CellAmount(actual, i)(el)
  {
    hide PeriodWindow, C.Total, PeriodTotal, C.Sound, C.MonthKey, FilterItems, M.Kept, C.Needed, FirstIsOwner, Owned,
         KnownCategories,
      FirstOfMonth, ReadPlan, ReadMonth, MonthRows, PlanRows;
    ReadsAgree(plan, month, entries, from, to, b, accounts, startDay, months[i]);
    A.PagesAgree(b, months, startDay, currency, p, i, el, PlanRows(plan), incomeRows, expense, income, cells, actual,
                 planLoaded,
               MonthRows(month, months[i]), toConvert, spent, monthLoaded);
  }
}
