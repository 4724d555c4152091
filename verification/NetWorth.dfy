/** The net worth report: every account's month-end balances, and other people's everyday accounts merged per owner. */
module NetWorth {
  import opened Prelude
  import opened Calendar
  import opened MoneyLines
  import opened MoneyReads
  import opened MoneyTheorems
  import opened RunningBalances
  import C = Convertor
  import PagesAgree
  import PlanPage
  import SortKey

  datatype Account = Account(id: Id, owner: Id, currency: Id, name: string)

  /** A report row; the merged row of an owner's everyday accounts has no id and no name. */
  datatype WorthRow = WorthRow(id: Option<Id>, owner: Id, name: string, savings: bool, balances: seq<int>)

  function Ids(views: seq<Account>): (ids: seq<Id>)
    ensures |ids| == |views| && forall i :: 0 <= i < |views| ==> ids[i] == views[i].id
  {
    seq(|views|, i requires 0 <= i < |views| => views[i].id)
  }

  ghost predicate DistinctAccounts(views: seq<Account>) {
    forall i, j :: 0 <= i < j < |views| ==> views[i].id != views[j].id
  }

  /** Net worth runs on calendar months: a month's period is the month itself. */
  lemma CalendarMonth(m: int)
    ensures WindowStart(m, 1) == KeyOf(m)
    ensures PeriodWindow(KeyOf(m), 1) == Calendar.Window(KeyOf(m), KeyOf(m + 1))
  {
    WindowOfMonth(m, 1);
    hide MonthStart;
  }

  /** The balance before the end of a month, or before tomorrow if that comes first. */
  ghost function MonthEndBalance(entries: seq<Entry>, accounts: set<Id>, first: int, i: int, tomorrow: Time,
                                 account: Id): int
  {
    BalanceBefore(accounts, entries, Earlier(KeyOf(first + i + 1), tomorrow), account)
  }

  ghost predicate Series(series: seq<int>, entries: seq<Entry>, accounts: set<Id>, first: int, tomorrow: Time,
                         account: Id)
  {
    forall i :: 0 <= i < |series| ==> series[i] == MonthEndBalance(entries, accounts, first, i, tomorrow, account)
  }

  lemma WorthStep(entries: seq<Entry>, accounts: set<Id>, first: int, n: int, i: int, tomorrow: Time, account: Id,
                  nets: seq<Line>, delta: map<Id, seq<int>>)
    requires 0 <= i < n && NetsFiled(delta, MonthList(first, n), nets)
    requires Represents(nets, Filed(AccountMonths(accounts, 1, true), entries,
                                    MoneyLines.Between(KeyOf(first), Earlier(KeyOf(first + n), tomorrow))))
    ensures MonthEndBalance(entries, accounts, first, i, tomorrow, account)
         == BalanceBefore(accounts, entries, Earlier(KeyOf(first + i), tomorrow), account) + NetAt(delta, account, i)
  {
    hide KeyOf, WindowStart, Filed, Sum, Represents, PeriodWindow, FiledSum, NetsFiled, BalanceBefore, NetAt;
    CalendarMonth(first);
    CalendarMonth(first + n);
    CalendarMonth(first + i);
    CalendarMonth(first + i + 1);
    MonthMovesBalance(entries, accounts, 1, first, n, i, tomorrow, account);
    NetRead(entries, accounts, KeyOf(first), Earlier(KeyOf(first + n), tomorrow), first, n, i, account, nets, delta);
  }

  lemma NetRead(entries: seq<Entry>, accounts: set<Id>, from: Time, to: Time, first: int, n: int, i: int, account: Id,
                nets: seq<Line>, delta: map<Id, seq<int>>)
    requires 0 <= i < n && NetsFiled(delta, MonthList(first, n), nets)
    requires Represents(nets, Filed(AccountMonths(accounts, 1, true), entries, MoneyLines.Between(from, to)))
    ensures NetAt(delta, account, i)
         == FiledSum(AccountMonths(accounts, 1, true), entries, MoneyLines.Between(from, to),
                     Is(NetKey(KeyOf(first + i), account)))
  {
    hide KeyOf, Filed, Sum, Represents;
    RowsSumKey(nets, Filed(AccountMonths(accounts, 1, true), entries, MoneyLines.Between(from, to)),
               NetKey(KeyOf(first + i), account));
    assert NetAt(delta, account, i) == Sum(nets, Is(NetKey(MonthList(first, n)[i], account)));
  }

  /** One account's running balance over the months. */
  method RunSeries(ghost entries: seq<Entry>, ghost accounts: set<Id>, first: int, n: nat, ghost tomorrow: Time,
                   account: Id, opening: int,
                   ghost nets: seq<Line>, delta: map<Id, seq<int>>)
    returns (series: seq<int>)
    requires NetsFiled(delta, MonthList(first, n), nets)
    requires Represents(nets, Filed(AccountMonths(accounts, 1, true), entries,
                                    MoneyLines.Between(KeyOf(first), Earlier(KeyOf(first + n), tomorrow))))
    requires opening == BalanceBefore(accounts, entries, Earlier(KeyOf(first), tomorrow), account)
    ensures |series| == n && Series(series, entries, accounts, first, tomorrow, account)
  {
    hide KeyOf, Filed, Sum, Represents, NetsFiled, BalanceBefore;
    var bal := opening;
    series := [];
    for i := 0 to n
      invariant |series| == i && Series(series, entries, accounts, first, tomorrow, account)
      invariant bal == BalanceBefore(accounts, entries, Earlier(KeyOf(first + i), tomorrow), account)
    {
      WorthStep(entries, accounts, first, n, i, tomorrow, account, nets, delta);
      bal := bal + NetAt(delta, account, i);
      series := series + [bal];
    }
  }

  ghost predicate AllSeries(series: map<Id, seq<int>>, views: seq<Account>, k: int, entries: seq<Entry>, first: int,
                            n: nat, tomorrow: Time)
    requires 0 <= k <= |views|
  {
    forall j :: 0 <= j < k ==>
      && views[j].id in series && |series[views[j].id]| == n
      && Series(series[views[j].id], entries, AccountSet(Ids(views)), first, tomorrow, views[j].id)
  }

  /** Balances opened before the first month, or before tomorrow in a window that has not begun, then run month by month
      over what is dated before tomorrow. */
  method BuildSeries(entries: seq<Entry>, views: seq<Account>, first: int, n: nat, tomorrow: Time)
    returns (series: map<Id, seq<int>>)
    requires DistinctAccounts(views)
    ensures AllSeries(series, views, |views|, entries, first, n, tomorrow)
  {
    hide KeyOf, Filed, Sum, Represents, NetsFiled, BalanceBefore, Series;
    var accounts := Ids(views);
    var openAt := KeyOf(first);
    if tomorrow < openAt {
      openAt := tomorrow;
    }
    var opening := BalancesByAccount(entries, accounts, openAt);
    var netsTo := KeyOf(first + n);
    if tomorrow < netsTo {
      netsTo := tomorrow;
    }
    var nets := ReadAccountMonths(entries, AccountSet(accounts), KeyOf(first), netsTo, 1, true);
    var delta := MonthDeltas(nets, first, n);
    series := map[];
    for j := 0 to |views|
      invariant AllSeries(series, views, j, entries, first, n, tomorrow)
    {
      assert accounts[j] == views[j].id;
      var bal := 0;
      if views[j].id in opening {
        bal := opening[views[j].id];
      }
      var run := RunSeries(entries, AccountSet(accounts), first, n, tomorrow, views[j].id, bal, nets, delta);
      series := series[views[j].id := run];
    }
  }

  /** A month-end balance as money to convert at that month's rates. */
  function WorthItem(first: int, i: int, from: Id, to: Id, balance: int): C.Item {
    C.Item(KeyOf(first + i), KeyOf(first + i + 1), from, to, balance)
  }

  /**
   * What an account shows for a month: its balance before the month's end or tomorrow, at the month's own average
   * rates.
   */
  ghost function Shown(entries: seq<Entry>, accounts: set<Id>, v: Account, first: int, i: int, tomorrow: Time,
                       currency: Id, p: C.RateProvider): int
    requires C.Sound(p)
  {
    C.Converted(p.average(C.Range(KeyOf(first + i), KeyOf(first + i + 1))), p.base, p.digits(currency), v.currency,
                currency,
                MonthEndBalance(entries, accounts, first, i, tomorrow, v.id))
  }

  ghost function ShownRow(entries: seq<Entry>, accounts: set<Id>, v: Account, first: int, n: nat, tomorrow: Time,
                          currency: Id, p: C.RateProvider): WorthRow
    requires C.Sound(p)
  {
    WorthRow(Some(v.id), v.owner, v.name, false,
             seq(n, i => Shown(entries, accounts, v, first, i, tomorrow, currency, p)))
  }

  predicate AllZero(balances: seq<int>) {
    forall i :: 0 <= i < |balances| ==> balances[i] == 0
  }

  /** The report's rows: one per account with any non-zero balance, in account order. */
  ghost function ShownRows(entries: seq<Entry>, accounts: set<Id>, views: seq<Account>, first: int, n: nat,
                           tomorrow: Time, currency: Id, p: C.RateProvider): seq<WorthRow>
    requires C.Sound(p)
  {
    if views == [] then []
    else
      var row := ShownRow(entries, accounts, views[|views| - 1], first, n, tomorrow, currency, p);
      ShownRows(entries, accounts, views[..|views| - 1], first, n, tomorrow, currency, p)
        + if AllZero(row.balances) then [] else [row]
  }

  ghost predicate QueuedSeries(queue: map<ClosingCell, seq<C.Item>>, series: map<Id, seq<int>>, views: seq<Account>,
                               k: int, first: int, n: nat, currency: Id)
    requires 0 <= k <= |views|
  {
    && (forall c :: c in queue ==> 0 <= c.i < n && OfMonth(queue[c], first + c.i))
    && (forall j, i :: 0 <= j < k && 0 <= i < n ==> QueuedMonth(queue, series, views[j], i, first, n, currency))
  }

  ghost predicate OfMonth(items: seq<C.Item>, m: int) {
    |items| == 1 && items[0].periodStart == KeyOf(m) && items[0].periodEnd == KeyOf(m + 1)
  }

  ghost predicate QueuedMonth(queue: map<ClosingCell, seq<C.Item>>, series: map<Id, seq<int>>, v: Account, i: int,
                              first: int, n: nat, currency: Id)
  {
    && v.id in series && |series[v.id]| == n && 0 <= i < n
    && ClosingCell(i, v.id) in queue
    && queue[ClosingCell(i, v.id)] == [WorthItem(first, i, v.currency, currency, series[v.id][i])]
  }

  ghost predicate QueuedMonths(queue: map<ClosingCell, seq<C.Item>>, series: map<Id, seq<int>>, v: Account, i: int,
                               first: int, n: nat, currency: Id)
  {
    forall k :: 0 <= k < i ==> QueuedMonth(queue, series, v, k, first, n, currency)
  }

  lemma QueueNext(queue: map<ClosingCell, seq<C.Item>>, series: map<Id, seq<int>>, views: seq<Account>, j: int, i: int,
                  first: int, n: nat, currency: Id)
    requires DistinctAccounts(views) && 0 <= j < |views| && 0 <= i < n && views[j].id in series
             && |series[views[j].id]| == n
    requires QueuedSeries(queue, series, views, j, first, n, currency)
             && QueuedMonths(queue, series, views[j], i, first, n, currency)
    ensures var more := queue[ClosingCell(i,
                                          views[j].id) :=
                                            [WorthItem(first, i, views[j].currency, currency, series[views[j].id][i])]];
      QueuedSeries(more, series, views, j, first, n, currency)
        && QueuedMonths(more, series, views[j], i + 1, first, n, currency)
  {
    hide KeyOf;
    var v := views[j];
    var more := queue[ClosingCell(i, v.id) := [WorthItem(first, i, v.currency, currency, series[v.id][i])]];
    forall x, k | 0 <= x < j && 0 <= k < n ensures QueuedMonth(more, series, views[x], k, first, n, currency) {
      assert QueuedMonth(queue, series, views[x], k, first, n, currency);
      assert views[x].id != v.id;
    }
    forall k | 0 <= k < i + 1 ensures QueuedMonth(more, series, v, k, first, n, currency) {
      if k < i {
        assert QueuedMonth(queue, series, v, k, first, n, currency);
      }
    }
  }

  lemma RowQueuedToo(queue: map<ClosingCell, seq<C.Item>>, series: map<Id, seq<int>>, views: seq<Account>, j: int,
                     first: int, n: nat, currency: Id)
    requires 0 <= j < |views|
    requires QueuedSeries(queue, series, views, j, first, n, currency)
             && QueuedMonths(queue, series, views[j], n, first, n, currency)
    ensures QueuedSeries(queue, series, views, j + 1, first, n, currency)
  {
    hide QueuedMonth, OfMonth;
  }

  method QueueSeries(series: map<Id, seq<int>>, views: seq<Account>, first: int, n: nat, currency: Id)
    returns (queue: map<ClosingCell, seq<C.Item>>)
    requires DistinctAccounts(views) && forall j :: 0 <= j < |views| ==>
               views[j].id in series && |series[views[j].id]| == n
    ensures QueuedSeries(queue, series, views, |views|, first, n, currency)
  {
    hide KeyOf;
    queue := map[];
    for j := 0 to |views|
      invariant QueuedSeries(queue, series, views, j, first, n, currency)
    {
      hide QueuedSeries, QueuedMonth;
      for i := 0 to n
        invariant QueuedSeries(queue, series, views, j, first, n, currency)
        invariant QueuedMonths(queue, series, views[j], i, first, n, currency)
      {
        QueueNext(queue, series, views, j, i, first, n, currency);
        queue := queue[ClosingCell(i, views[j].id) := [WorthItem(first, i, views[j].currency, currency,
                                                                 series[views[j].id][i])]];
      }
      RowQueuedToo(queue, series, views, j, first, n, currency);
    }
  }

  /** A single item's total is its conversion. */
  lemma OneItemTotal(it: C.Item, w: Calendar.Window, p: C.RateProvider)
    requires C.Sound(p)
    ensures PagesAgree.PeriodTotal([it], w, p)
            == C.Converted(p.average(PlanPage.RangeOf(w)), p.base, p.digits(it.to), it.from, it.to, it.amount)
  {
    var g := C.GroupOf(it);
    hide C.Converted;
    assert C.Groups([it]) == {g} by { assert it in [it]; }
    SumSetRemove({g}, PagesAgree.PeriodValuer([it], w, p), g);
    assert {g} - {g} == {};
    assert [it][1..] == [];
    assert C.GroupSum([it], g) == it.amount;
  }

  function MonthOfClosing(): ClosingCell -> int {
    (c: ClosingCell) => c.i
  }

  lemma OneOfPeriod(items: seq<C.Item>, m: int)
    requires OfMonth(items, m)
    ensures PagesAgree.OfPeriod(items, PeriodWindow(KeyOf(m), 1))
  {
    hide KeyOf, PeriodWindow;
    CalendarMonth(m);
  }

  lemma QueueOfPeriods(queue: map<ClosingCell, seq<C.Item>>, series: map<Id, seq<int>>, views: seq<Account>, first: int,
                       n: nat, currency: Id)
    requires QueuedSeries(queue, series, views, |views|, first, n, currency)
    ensures PagesAgree.CellsOfPeriods(MonthList(first, n), 1, queue, MonthOfClosing())
  {
    hide KeyOf, PeriodWindow, OfMonth, QueuedMonth, PagesAgree.OfPeriod;
    var months := MonthList(first, n);
    forall c | c in queue ensures 0 <= c.i < |months| && PagesAgree.OfPeriod(queue[c], PeriodWindow(months[c.i], 1)) {
      OneOfPeriod(queue[c], first + c.i);
    }
  }

  /** Converted in one batch, each month-end balance comes out at its own month's rates. */
  lemma ConvertedAtItsMonth(queue: map<ClosingCell, seq<C.Item>>, series: map<Id, seq<int>>, views: seq<Account>,
                            first: int, n: nat, currency: Id,
                            loaded: map<int, C.Range>, p: C.RateProvider, j: int, i: int)
    requires C.Sound(p) && QueuedSeries(queue, series, views, |views|, first, n, currency)
    requires C.Needed(C.Range(KeyOf(first), KeyOf(first + 1)), queue, loaded)
    requires 0 <= j < |views| && 0 <= i < n
    ensures ClosingCell(i, views[j].id) in queue && views[j].id in series && |series[views[j].id]| == n
    ensures C.Total(queue[ClosingCell(i, views[j].id)], loaded, C.MonthKey(KeyOf(first)), p)
         == C.Converted(p.average(C.Range(KeyOf(first + i), KeyOf(first + i + 1))), p.base, p.digits(currency),
                        views[j].currency, currency, series[views[j].id][i])
  {
    hide KeyOf, C.Total, C.Converted, C.Needed, C.MonthKey, PeriodWindow, FirstOfMonth, PagesAgree.PeriodTotal;
    var months := MonthList(first, n);
    MonthListKeys(first, n);
    QueueOfPeriods(queue, series, views, first, n, currency);
    CalendarMonth(first);
    CalendarMonth(first + i);
    var cell := ClosingCell(i, views[j].id);
    assert QueuedMonth(queue, series, views[j], i, first, n, currency);
    hide QueuedSeries, C.Sound, PagesAgree.CellsOfPeriods, PagesAgree.MonthKeys;
    PagesAgree.CellAtItsPeriod(months, 1, queue, MonthOfClosing(), loaded, p, cell);
    OneItemTotal(queue[cell][0], PeriodWindow(months[i], 1), p);
    assert queue[cell] == [queue[cell][0]];
  }

  lemma MonthListKeys(first: int, n: nat)
    ensures PagesAgree.MonthKeys(MonthList(first, n))
  {
    hide KeyOf, FirstOfMonth, MonthStart, MonthOf;
    var months := MonthList(first, n);
    assert forall i :: 0 <= i < n ==> months[i] == KeyOf(first + i);
    forall i | 0 <= i < n ensures months[i] == FirstOfMonth(months[i]) {
      KeyOfMonth(first + i);
    }
    forall i, j | 0 <= i < j < n ensures months[i] != months[j] {
      KeysIncrease(first + i, first + j);
    }
  }

  // ---- The order of the rows ----

  /** The caller's rows first, then by owner, name and id; a row without an id comes last among its namesakes. */
  predicate RowBefore(a: WorthRow, b: WorthRow, me: Id) {
    if (a.owner == me) != (b.owner == me) then a.owner == me
    else if a.owner != b.owner then a.owner < b.owner
    else if a.name != b.name then SortKey.Less(a.name, b.name)
    else a.id.Some? && (b.id.None? || a.id.value < b.id.value)
  }

  /** No row comes before one that stands ahead of it. */
  ghost predicate InOrder(rows: seq<WorthRow>, me: Id) {
    forall i, j :: 0 <= i < j < |rows| ==> !RowBefore(rows[j], rows[i], me)
  }

  /** The caller's rows come first; then rows stand by owner, within an owner by name, and within a name by id, the row
      without one last. */
  ghost predicate Listed(rows: seq<WorthRow>, me: Id) {
    forall i, j :: 0 <= i < j < |rows| ==>
      var a, b := rows[i], rows[j];
      && (b.owner == me ==> a.owner == me)
      && (a.owner != me && b.owner != me ==> a.owner <= b.owner)
      && (a.owner == b.owner ==> !SortKey.Less(b.name, a.name))
      && (a.owner == b.owner && a.name == b.name && b.id.Some? ==> a.id.Some? && a.id.value <= b.id.value)
  }

  lemma InOrderListed(rows: seq<WorthRow>, me: Id)
    requires InOrder(rows, me)
    ensures Listed(rows, me)
  {
    forall i, j | 0 <= i < j < |rows|
      ensures !RowBefore(rows[j], rows[i], me) && !SortKey.Less(rows[i].name, rows[i].name)
    {
      SortKey.LessIrreflexive(rows[i].name);
    }
    hide InOrder, SortKey.Less;
  }

  lemma NotBeforeTransitive(a: WorthRow, b: WorthRow, c: WorthRow, me: Id)
    requires !RowBefore(b, a, me) && !RowBefore(c, b, me)
    ensures !RowBefore(c, a, me)
  {
    if a.owner == b.owner == c.owner {
      SortKey.LessTotal(a.name, b.name);
      SortKey.LessTotal(b.name, c.name);
      SortKey.LessIrreflexive(a.name);
      hide SortKey.Less;
      if SortKey.Less(a.name, b.name) && SortKey.Less(c.name, a.name) {
        SortKey.LessTransitive(c.name, a.name, b.name);
      }
      if SortKey.Less(c.name, a.name) && SortKey.Less(b.name, c.name) {
        SortKey.LessTransitive(b.name, c.name, a.name);
      }
      if SortKey.Less(c.name, a.name) && SortKey.Less(a.name, b.name) && b.name != c.name {
        SortKey.LessTransitive(c.name, a.name, b.name);
      }
    }
  }

  lemma NotBeforeWhenBefore(a: WorthRow, b: WorthRow, me: Id)
    requires RowBefore(a, b, me)
    ensures !RowBefore(b, a, me)
  {
    if SortKey.Less(a.name, b.name) && SortKey.Less(b.name, a.name) {
      SortKey.LessTransitive(a.name, b.name, a.name);
      SortKey.LessIrreflexive(a.name);
    }
  }

  lemma Inserted(out: seq<WorthRow>, at: nat, r: WorthRow, me: Id)
    requires at <= |out| && InOrder(out, me)
    requires forall i :: 0 <= i < at ==> !RowBefore(r, out[i], me)
    requires at < |out| ==> RowBefore(r, out[at], me)
    ensures InOrder(out[..at] + [r] + out[at..], me)
    ensures multiset(out[..at] + [r] + out[at..]) == multiset(out) + multiset{r}
  {
    hide RowBefore;
    assert out == out[..at] + out[at..];
    var more := out[..at] + [r] + out[at..];
    forall i, j | 0 <= i < j < |more| ensures !RowBefore(more[j], more[i], me) {
      if i == at {
        assert more[j] == out[j - 1];
        NotBeforeWhenBefore(r, out[at], me);
        if j - 1 > at { NotBeforeTransitive(r, out[at], out[j - 1], me); }
      } else {
        assert more[i] == if i < at then out[i] else out[i - 1];
        assert more[j] == if j < at then out[j] else if j == at then r else out[j - 1];
      }
    }
  }

  /** Stable insertion. */
  method SortRows(rows: seq<WorthRow>, me: Id) returns (out: seq<WorthRow>)
    ensures multiset(out) == multiset(rows) && Listed(out, me)
  {
    hide RowBefore, Listed;
    out := [];
    for n := 0 to |rows|
      invariant multiset(out) == multiset(rows[..n]) && InOrder(out, me)
    {
      assert rows[..n + 1] == rows[..n] + [rows[n]];
      var at := 0;
      while at < |out| && !RowBefore(rows[n], out[at], me)
        invariant 0 <= at <= |out| && forall i :: 0 <= i < at ==> !RowBefore(rows[n], out[i], me)
      {
        at := at + 1;
      }
      Inserted(out, at, rows[n], me);
      out := out[..at] + [rows[n]] + out[at..];
    }
    assert rows[..|rows|] == rows;
    InOrderListed(out, me);
  }

  method BuildNetWorth(entries: seq<Entry>, views: seq<Account>, first: int, n: nat, tomorrow: Time, currency: Id,
                       p: C.RateProvider, me: Id) returns (rows: seq<WorthRow>)
    requires DistinctAccounts(views) && C.Sound(p)
    ensures multiset(rows) == multiset(ShownRows(entries, AccountSet(Ids(views)), views, first, n, tomorrow, currency,
                                                 p))
    ensures Listed(rows, me)
  {
    hide KeyOf, C.Total, C.Converted, C.Needed, C.MonthKey, QueuedSeries, C.Sound, MonthEndBalance, AccountSet, Ids,
         Listed;
    ghost var accounts := AccountSet(Ids(views));
    var series := BuildSeries(entries, views, first, n, tomorrow);
    var queue := QueueSeries(series, views, first, n, currency);
    var converted, loaded := C.BulkConvert(C.Range(KeyOf(first), KeyOf(first + 1)), queue, p);
    rows := [];
    for j := 0 to |views|
      invariant rows == ShownRows(entries, accounts, views[..j], first, n, tomorrow, currency, p)
    {
      var v := views[j];
      var balances: seq<int> := [];
      var nonZero := false;
      for i := 0 to n
        invariant |balances| == i
        invariant forall k :: 0 <= k < i ==> balances[k] == Shown(entries, accounts, v, first, k, tomorrow, currency, p)
        invariant nonZero || AllZero(balances)
        invariant nonZero ==> exists k :: 0 <= k < i && balances[k] != 0
      {
        ConvertedAtItsMonth(queue, series, views, first, n, currency, loaded, p, j, i);
        var x := converted[ClosingCell(i, v.id)];
        balances := balances + [x];
        if x != 0 {
          assert balances[i] != 0;
          nonZero := true;
        }
      }
      assert views[..j + 1][..j] == views[..j];
      assert balances == ShownRow(entries, accounts, v, first, n, tomorrow, currency, p).balances;
      if !nonZero {
        continue;
      }
      rows := rows + [WorthRow(Some(v.id), v.owner, v.name, false, balances)];
    }
    assert views[..|views|] == views;
    rows := SortRows(rows, me);
  }

  predicate Open(r: WorthRow, me: Id, visible: set<Id>) {
    r.owner == me || r.savings || (r.id.Some? && r.id.value in visible)
  }

  /** An owner's total for a month over all their rows. */
  ghost function OwnerTotal(rows: seq<WorthRow>, owner: Id, k: int): int {
    if rows == [] then 0
    else
      var r := rows[|rows| - 1];
      OwnerTotal(rows[..|rows| - 1], owner, k) + if r.owner == owner && 0 <= k < |r.balances| then r.balances[k] else 0
  }

  /** The rows the caller may see as they are, in order. */
  ghost function OpenRows(rows: seq<WorthRow>, me: Id, visible: set<Id>): seq<WorthRow> {
    if rows == [] then []
    else OpenRows(rows[..|rows| - 1], me, visible) + if Open(rows[|rows| - 1], me, visible) then [rows[|rows| - 1]]
                                                     else []
  }

  ghost predicate SameLength(rows: seq<WorthRow>, n: nat) {
    forall r :: r in rows ==> |r.balances| == n
  }

  /** Another owner's everyday accounts are one nameless row each owner; the rest stay as they are. */
  ghost predicate MergedRows(out: seq<WorthRow>, rows: seq<WorthRow>, merged: map<Id, nat>, me: Id, visible: set<Id>,
                             n: nat)
  {
    && SameLength(out, n)
    && (forall o :: o in merged ==> merged[o] < |out| && out[merged[o]].id.None? && out[merged[o]].owner == o && o != me
                                    && out[merged[o]].name == "" && !out[merged[o]].savings)
    && (forall i :: 0 <= i < |out| ==> Open(out[i], me, visible)
                                       || (out[i].owner in merged && merged[out[i].owner] == i))
    && OpenRows(out, me, visible) == OpenRows(rows, me, visible)
    && (forall owner, k {:trigger OwnerTotal(out, owner, k)} :: OwnerTotal(out, owner, k) == OwnerTotal(rows, owner, k))
  }

  lemma MergeOpen(out: seq<WorthRow>, rows: seq<WorthRow>, merged: map<Id, nat>, me: Id, visible: set<Id>, n: nat,
                  r: WorthRow)
    requires MergedRows(out, rows, merged, me, visible, n) && Open(r, me, visible) && |r.balances| == n
    ensures MergedRows(out + [r], rows + [r], merged, me, visible, n)
  {
    assert (out + [r])[..|out|] == out && (rows + [r])[..|rows|] == rows;
    forall owner, k {:trigger OwnerTotal(out + [r], owner, k)}
      ensures OwnerTotal(out + [r], owner, k) == OwnerTotal(rows + [r], owner, k) {
      assert OwnerTotal(out, owner, k) == OwnerTotal(rows, owner, k);
    }
  }

  lemma MergeFirst(out: seq<WorthRow>, rows: seq<WorthRow>, merged: map<Id, nat>, me: Id, visible: set<Id>, n: nat,
                   r: WorthRow)
    requires MergedRows(out, rows, merged, me, visible, n) && !Open(r, me, visible) && |r.balances| == n
             && r.owner !in merged
    ensures MergedRows(out + [WorthRow(None, r.owner, "", false, r.balances)], rows + [r], merged[r.owner := |out|], me,
                       visible, n)
  {
    var s := WorthRow(None, r.owner, "", false, r.balances);
    assert (out + [s])[..|out|] == out && (rows + [r])[..|rows|] == rows;
    forall owner, k {:trigger OwnerTotal(out + [s], owner, k)}
      ensures OwnerTotal(out + [s], owner, k) == OwnerTotal(rows + [r], owner, k) {
      assert OwnerTotal(out, owner, k) == OwnerTotal(rows, owner, k);
    }
  }

  function Added(a: seq<int>, b: seq<int>): seq<int>
    requires |a| == |b|
  {
    seq(|a|, k requires 0 <= k < |a| => a[k] + b[k])
  }

  lemma {:induction false} TotalOfUpdated(out: seq<WorthRow>, i: int, b: seq<int>, owner: Id, k: int)
    requires 0 <= i < |out| && |out[i].balances| == |b|
    ensures OwnerTotal(out[i := out[i].(balances := Added(out[i].balances, b))], owner, k)
         == OwnerTotal(out, owner, k) + if out[i].owner == owner && 0 <= k < |b| then b[k] else 0
  {
    var m := |out| - 1;
    var more := out[i := out[i].(balances := Added(out[i].balances, b))];
    if i == m {
      assert more[..m] == out[..m];
    } else {
      TotalOfUpdated(out[..m], i, b, owner, k);
      assert more[..m] == out[..m][i := out[..m][i].(balances := Added(out[..m][i].balances, b))];
    }
  }

  lemma {:induction false} OpenOfUpdated(out: seq<WorthRow>, i: int, s: WorthRow, me: Id, visible: set<Id>)
    requires 0 <= i < |out| && !Open(out[i], me, visible) && !Open(s, me, visible)
    ensures OpenRows(out[i := s], me, visible) == OpenRows(out, me, visible)
  {
    var m := |out| - 1;
    if i == m {
      assert out[i := s][..m] == out[..m];
    } else {
      OpenOfUpdated(out[..m], i, s, me, visible);
      assert out[i := s][..m] == out[..m][i := s];
    }
  }

  lemma MergeAgain(out: seq<WorthRow>, rows: seq<WorthRow>, merged: map<Id, nat>, me: Id, visible: set<Id>, n: nat,
                   r: WorthRow)
    requires MergedRows(out, rows, merged, me, visible, n) && !Open(r, me, visible) && |r.balances| == n
             && r.owner in merged
    ensures merged[r.owner] < |out| && |out[merged[r.owner]].balances| == n
    ensures var i := merged[r.owner];
      MergedRows(out[i := out[i].(balances := Added(out[i].balances, r.balances))], rows + [r], merged, me, visible, n)
  {
    var i := merged[r.owner];
    assert out[i] in out;
    var more := out[i := out[i].(balances := Added(out[i].balances, r.balances))];
    assert (rows + [r])[..|rows|] == rows;
    OpenOfUpdated(out, i, more[i], me, visible);
    forall owner, k {:trigger OwnerTotal(more, owner, k)}
      ensures OwnerTotal(more, owner, k) == OwnerTotal(rows + [r], owner, k) {
      TotalOfUpdated(out, i, r.balances, owner, k);
      assert OwnerTotal(out, owner, k) == OwnerTotal(rows, owner, k);
    }
  }

  lemma OwnerTotalOfRest(rows: seq<WorthRow>, i: int, owner: Id, k: int)
    requires 0 <= i < |rows|
    ensures OwnerTotal(rows, owner, k) == OwnerTotal(rows[..i] + rows[i + 1..], owner, k)
            + OwnerTotal([rows[i]], owner, k)
  {
    OwnerTotalConcat(rows[..i], [rows[i]] + rows[i + 1..], owner, k);
    OwnerTotalConcat([rows[i]], rows[i + 1..], owner, k);
    OwnerTotalConcat(rows[..i], rows[i + 1..], owner, k);
    assert rows == rows[..i] + ([rows[i]] + rows[i + 1..]);
  }

  lemma {:induction false} OwnerTotalConcat(a: seq<WorthRow>, b: seq<WorthRow>, owner: Id, k: int)
    ensures OwnerTotal(a + b, owner, k) == OwnerTotal(a, owner, k) + OwnerTotal(b, owner, k)
  {
    if b == [] {
      assert a + b == a;
    } else {
      var m := |b| - 1;
      OwnerTotalConcat(a, b[..m], owner, k);
      assert (a + b)[..|a + b| - 1] == a + b[..m];
    }
  }

  /** An owner's total does not depend on the order of the rows. */
  lemma {:induction false} OwnerTotalPermuted(a: seq<WorthRow>, b: seq<WorthRow>, owner: Id, k: int)
    requires multiset(a) == multiset(b)
    ensures OwnerTotal(a, owner, k) == OwnerTotal(b, owner, k)
    decreases |a|
  {
    if a == [] {
      assert |multiset(b)| == 0;
    } else {
      var m := |a| - 1;
      assert a == a[..m] + [a[m]];
      assert a[m] in multiset(b);
      var i :| 0 <= i < |b| && b[i] == a[m];
      assert b == b[..i] + [b[i]] + b[i + 1..];
      assert multiset(a) == multiset(a[..m]) + multiset{a[m]};
      assert multiset(b) == multiset(b[..i] + b[i + 1..]) + multiset{b[i]};
      assert multiset(a[..m]) == multiset(a) - multiset{a[m]};
      hide OwnerTotal;
      OwnerTotalPermuted(a[..m], b[..i] + b[i + 1..], owner, k);
      OwnerTotalOfRest(b, i, owner, k);
      OwnerTotalConcat(a[..m], [a[m]], owner, k);
    }
  }

  lemma {:induction false} OpenCount(rows: seq<WorthRow>, me: Id, visible: set<Id>, r: WorthRow)
    ensures multiset(OpenRows(rows, me, visible))[r] == if Open(r, me, visible) then multiset(rows)[r] else 0
  {
    if rows != [] {
      var m := |rows| - 1;
      assert rows == rows[..m] + [rows[m]];
      OpenCount(rows[..m], me, visible, r);
    }
  }

  /** A hidden owner's everyday accounts show as one row, without an id. */
  ghost predicate OnePerOwner(rows: multiset<WorthRow>, me: Id, visible: set<Id>) {
    forall r :: r in rows && !(r.owner == me || r.savings || (r.id.Some? && r.id.value in visible)) ==>
      r.id.None? && r.name == "" && rows[r] == 1
        && forall s :: s in rows && s.owner == r.owner && !s.savings && (s.id.None? || s.id.value !in visible) ==>
            s == r
  }

  lemma OnlyThere(rows: seq<WorthRow>, i: int)
    requires 0 <= i < |rows| && forall j :: 0 <= j < |rows| && rows[j] == rows[i] ==> j == i
    ensures multiset(rows)[rows[i]] == 1
  {
    assert rows == rows[..i] + [rows[i]] + rows[i + 1..];
    assert rows[i] !in rows[..i] && rows[i] !in rows[i + 1..];
  }

  lemma HiddenAt(out: seq<WorthRow>, rows: seq<WorthRow>, merged: map<Id, nat>, me: Id, visible: set<Id>, n: nat,
                 i: int)
    requires MergedRows(out, rows, merged, me, visible, n) && 0 <= i < |out| && !Open(out[i], me, visible)
    ensures out[i].id.None? && out[i].name == "" && out[i].owner in merged && merged[out[i].owner] == i
  {
  }

  lemma MergedOnePerOwner(out: seq<WorthRow>, rows: seq<WorthRow>, merged: map<Id, nat>, me: Id, visible: set<Id>,
                          n: nat)
    requires MergedRows(out, rows, merged, me, visible, n)
    ensures OnePerOwner(multiset(out), me, visible)
  {
    hide MergedRows;
    forall r | r in multiset(out) && !Open(r, me, visible)
      ensures r.id.None? && r.name == "" && multiset(out)[r] == 1
      ensures forall s :: s in multiset(out) && !Open(s, me, visible) && s.owner == r.owner ==> s == r
    {
      assert r in out;
      var i :| 0 <= i < |out| && out[i] == r;
      HiddenAt(out, rows, merged, me, visible, n, i);
      forall j | 0 <= j < |out| && !Open(out[j], me, visible) && out[j].owner == r.owner ensures j == i {
        HiddenAt(out, rows, merged, me, visible, n, j);
      }
      OnlyThere(out, i);
      forall s | s in multiset(out) && !Open(s, me, visible) && s.owner == r.owner ensures s == r {
        assert s in out;
        var j :| 0 <= j < |out| && out[j] == s;
      }
    }
  }

  /** Every owner keeps their total for every month, and no hidden account's row, nor its id, is left. */
  method MergeOthersEveryday(rows: seq<WorthRow>, available: seq<Id>, me: Id, n: nat) returns (out: seq<WorthRow>)
    requires SameLength(rows, n)
    ensures forall owner, k {:trigger OwnerTotal(out, owner, k)} ::
              OwnerTotal(out, owner, k) == OwnerTotal(rows, owner, k)
    ensures forall r: WorthRow :: r.owner == me || r.savings || (r.id.Some? && r.id.value in available) ==>
              multiset(out)[r] == multiset(rows)[r]
    ensures OnePerOwner(multiset(out), me, AccountSet(available)) && Listed(out, me)
  {
    hide OwnerTotal, OpenRows, Listed, InOrder, OnePerOwner;
    var visible := AccountSet(available);
    out := [];
    var merged: map<Id, nat> := map[];
    for j := 0 to |rows|
      invariant MergedRows(out, rows[..j], merged, me, visible, n)
    {
      hide MergedRows;
      var r := rows[j];
      assert rows[..j + 1] == rows[..j] + [r];
      if r.owner == me || r.savings || (r.id.Some? && r.id.value in visible) {
        MergeOpen(out, rows[..j], merged, me, visible, n, r);
        out := out + [r];
        continue;
      }
      if r.owner !in merged {
        MergeFirst(out, rows[..j], merged, me, visible, n, r);
        merged := merged[r.owner := |out|];
        out := out + [WorthRow(None, r.owner, "", false, r.balances)];
        continue;
      }
      MergeAgain(out, rows[..j], merged, me, visible, n, r);
      var i := merged[r.owner];
      var sum := [];
      for k := 0 to |r.balances|
        invariant |sum| == k && forall x :: 0 <= x < k ==> sum[x] == out[i].balances[x] + r.balances[x]
      {
        sum := sum + [out[i].balances[k] + r.balances[k]];
      }
      assert sum == Added(out[i].balances, r.balances);
      out := out[i := out[i].(balances := sum)];
    }
    assert rows[..|rows|] == rows;
    ghost var unsorted := out;
    MergedOnePerOwner(out, rows, merged, me, visible, n);
    out := SortRows(out, me);
    forall r: WorthRow | r.owner == me || r.savings || (r.id.Some? && r.id.value in available)
      ensures multiset(out)[r] == multiset(rows)[r]
    {
      OpenCount(unsorted, me, visible, r);
      OpenCount(rows, me, visible, r);
    }
    forall owner, k ensures OwnerTotal(out, owner, k) == OwnerTotal(rows, owner, k) {
      OwnerTotalPermuted(out, unsorted, owner, k);
    }
  }

  function Flagged(r: WorthRow, savings: set<Id>): WorthRow {
    if r.id.Some? && r.id.value in savings then r.(savings := true) else r
  }

  /** An account's row, marked as savings if it is. */
  ghost function SeenRow(entries: seq<Entry>, accounts: set<Id>, v: Account, savings: set<Id>, first: int, n: nat,
                         tomorrow: Time, currency: Id, p: C.RateProvider): WorthRow
    requires C.Sound(p)
  {
    WorthRow(Some(v.id), v.owner, v.name, v.id in savings,
             seq(n, i => Shown(entries, accounts, v, first, i, tomorrow, currency, p)))
  }

  lemma {:induction false} ShownIn(entries: seq<Entry>, accounts: set<Id>, views: seq<Account>, first: int, n: nat,
                                   tomorrow: Time, currency: Id, p: C.RateProvider, r: WorthRow)
    requires C.Sound(p)
    ensures r in ShownRows(entries, accounts, views, first, n, tomorrow, currency, p)
       <==> !AllZero(r.balances)
            && exists v :: v in views && r == ShownRow(entries, accounts, v, first, n, tomorrow, currency, p)
  {
    hide ShownRow, AllZero, C.Sound;
    if views != [] {
      var k := |views| - 1;
      ShownIn(entries, accounts, views[..k], first, n, tomorrow, currency, p, r);
      assert forall v :: v in views <==> v in views[..k] || v == views[k];
    }
  }

  /** A row of an account is shown, and shown as it is, exactly when the account is the caller's, a savings account, or
      one the caller has access to, and not zero throughout. */
  ghost predicate SeesAccounts(out: seq<WorthRow>, entries: seq<Entry>, views: seq<Account>, savings: set<Id>,
                               available: seq<Id>, first: int, n: nat, tomorrow: Time, currency: Id, p: C.RateProvider,
                               me: Id)
    requires C.Sound(p)
  {
    forall r: WorthRow :: r.id.Some? ==>
      (r in out <==>
         && !AllZero(r.balances)
         && exists v :: && v in views && (v.owner == me || v.id in savings || v.id in available)
                        && r == SeenRow(entries, AccountSet(Ids(views)), v, savings, first, n, tomorrow, currency, p))
  }

  lemma FlaggedIn(rows: seq<WorthRow>, flagged: seq<WorthRow>, savings: set<Id>, entries: seq<Entry>,
                  views: seq<Account>, first: int, n: nat, tomorrow: Time, currency: Id, p: C.RateProvider, r: WorthRow)
    requires C.Sound(p) && |flagged| == |rows| && forall i :: 0 <= i < |rows| ==>
               flagged[i] == Flagged(rows[i], savings)
    requires var accounts := AccountSet(Ids(views));
      multiset(rows) == multiset(ShownRows(entries, accounts, views, first, n, tomorrow, currency, p))
    ensures r in flagged <==>
            && !AllZero(r.balances)
            && exists v :: v in views
                           && r == SeenRow(entries, AccountSet(Ids(views)), v, savings, first, n, tomorrow, currency, p)
  {
    hide AccountSet, Ids, Shown, C.Sound, AllZero;
    var accounts := AccountSet(Ids(views));
    var shown := ShownRows(entries, accounts, views, first, n, tomorrow, currency, p);
    forall x ensures x in rows <==> x in shown {
      assert x in rows <==> x in multiset(rows);
      assert x in shown <==> x in multiset(shown);
    }
    if r in flagged {
      var i :| 0 <= i < |flagged| && flagged[i] == r;
      assert rows[i] in shown;
      ShownIn(entries, accounts, views, first, n, tomorrow, currency, p, rows[i]);
    }
    if v :| !AllZero(r.balances) && v in views
            && r == SeenRow(entries, accounts, v, savings, first, n, tomorrow, currency, p) {
      var x := ShownRow(entries, accounts, v, first, n, tomorrow, currency, p);
      assert x.balances == r.balances;
      ShownIn(entries, accounts, views, first, n, tomorrow, currency, p, x);
      assert x in rows;
      var i :| 0 <= i < |rows| && rows[i] == x;
      assert flagged[i] == r;
    }
  }

  lemma AccountsSeen(out: seq<WorthRow>, flagged: seq<WorthRow>, rows: seq<WorthRow>, entries: seq<Entry>,
                     views: seq<Account>, savings: set<Id>, available: seq<Id>, first: int, n: nat, tomorrow: Time,
                     currency: Id, p: C.RateProvider, me: Id)
    requires C.Sound(p) && |flagged| == |rows| && forall i :: 0 <= i < |rows| ==>
               flagged[i] == Flagged(rows[i], savings)
    requires var accounts := AccountSet(Ids(views));
      multiset(rows) == multiset(ShownRows(entries, accounts, views, first, n, tomorrow, currency, p))
    requires forall r: WorthRow :: r.owner == me || r.savings || (r.id.Some? && r.id.value in available) ==>
               multiset(out)[r] == multiset(flagged)[r]
    requires OnePerOwner(multiset(out), me, AccountSet(available))
    ensures SeesAccounts(out, entries, views, savings, available, first, n, tomorrow, currency, p, me)
  {
    hide Shown, C.Sound, AllZero, Flagged;
    var accounts := AccountSet(Ids(views));
    forall r: WorthRow | r.id.Some?
      ensures r in out <==>
         && !AllZero(r.balances)
         && exists v :: && v in views && (v.owner == me || v.id in savings || v.id in available)
                        && r == SeenRow(entries, accounts, v, savings, first, n, tomorrow, currency, p)
    {
      FlaggedIn(rows, flagged, savings, entries, views, first, n, tomorrow, currency, p, r);
      assert r in out <==> r in multiset(out);
      assert r in flagged <==> r in multiset(flagged);
      hide ShownRows;
      if r in out {
        assert r.owner == me || r.savings || r.id.value in AccountSet(available);
      }
    }
  }

  method FlagSavings(rows: seq<WorthRow>, savings: set<Id>, n: nat) returns (flagged: seq<WorthRow>)
    requires SameLength(rows, n)
    ensures SameLength(flagged, n)
    ensures |flagged| == |rows| && forall j :: 0 <= j < |rows| ==> flagged[j] == Flagged(rows[j], savings)
    ensures forall owner, k {:trigger OwnerTotal(flagged, owner, k)} ::
              OwnerTotal(flagged, owner, k) == OwnerTotal(rows, owner, k)
  {
    hide OwnerTotal;
    flagged := [];
    for i := 0 to |rows|
      invariant SameLength(flagged, n)
      invariant |flagged| == i && forall j :: 0 <= j < i ==> flagged[j] == Flagged(rows[j], savings)
      invariant forall owner, k {:trigger OwnerTotal(flagged, owner, k)} ::
                  OwnerTotal(flagged, owner, k) == OwnerTotal(rows[..i], owner, k)
    {
      assert rows[..i + 1] == rows[..i] + [rows[i]];
      FlagNext(flagged, rows[..i], rows[i], savings);
      flagged := flagged + [Flagged(rows[i], savings)];
    }
    assert rows[..|rows|] == rows;
  }

  /**
   * A budget's report: the caller sees the accounts they may see as they are, every other owner's everyday accounts as
   * one nameless row, and, whoever looks, every owner's total is that of all the owner's accounts.
   */
  method BudgetNetWorth(entries: seq<Entry>, views: seq<Account>, savings: set<Id>, available: seq<Id>, first: int,
                        n: nat,
                        tomorrow: Time, currency: Id, p: C.RateProvider, me: Id) returns (out: seq<WorthRow>)
    requires DistinctAccounts(views) && C.Sound(p)
    ensures SeesAccounts(out, entries, views, savings, available, first, n, tomorrow, currency, p, me)
    ensures forall owner, k {:trigger OwnerTotal(out, owner, k)} ::
              OwnerTotal(out, owner, k)
              == OwnerTotal(ShownRows(entries, AccountSet(Ids(views)), views, first, n, tomorrow, currency, p), owner,
                            k)
    ensures OnePerOwner(multiset(out), me, AccountSet(available)) && Listed(out, me)
  {
    hide AccountSet, Ids, InOrder, Listed, OwnerTotal, OpenRows, OnePerOwner, C.Sound, SeesAccounts, Flagged;
    ghost var shown := ShownRows(entries, AccountSet(Ids(views)), views, first, n, tomorrow, currency, p);
    var rows := BuildNetWorth(entries, views, first, n, tomorrow, currency, p, me);
    ShownLengths(entries, AccountSet(Ids(views)), views, first, n, tomorrow, currency, p);
    forall r | r in rows ensures |r.balances| == n {
      assert r in multiset(rows);
      assert r in shown;
    }
    var flagged := FlagSavings(rows, savings, n);
    out := MergeOthersEveryday(flagged, available, me, n);
    AccountsSeen(out, flagged, rows, entries, views, savings, available, first, n, tomorrow, currency, p, me);
    forall owner, k ensures OwnerTotal(out, owner, k) == OwnerTotal(shown, owner, k) {
      assert OwnerTotal(flagged, owner, k) == OwnerTotal(rows, owner, k);
      OwnerTotalPermuted(rows, shown, owner, k);
    }
  }

  lemma FlagNext(flagged: seq<WorthRow>, rows: seq<WorthRow>, r: WorthRow, savings: set<Id>)
    requires forall owner, k {:trigger OwnerTotal(flagged, owner, k)} ::
               OwnerTotal(flagged, owner, k) == OwnerTotal(rows, owner, k)
    ensures forall owner, k {:trigger OwnerTotal(flagged + [Flagged(r, savings)], owner, k)} ::
              OwnerTotal(flagged + [Flagged(r, savings)], owner, k) == OwnerTotal(rows + [r], owner, k)
  {
    assert (flagged + [Flagged(r, savings)])[..|flagged|] == flagged && (rows + [r])[..|rows|] == rows;
  }

  lemma {:induction false} ShownLengths(entries: seq<Entry>, accounts: set<Id>, views: seq<Account>, first: int, n: nat,
                                        tomorrow: Time, currency: Id, p: C.RateProvider)
    requires C.Sound(p)
    ensures SameLength(ShownRows(entries, accounts, views, first, n, tomorrow, currency, p), n)
  {
    if views != [] {
      ShownLengths(entries, accounts, views[..|views| - 1], first, n, tomorrow, currency, p);
      hide Shown, C.Sound;
    }
  }
}
