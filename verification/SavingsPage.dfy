/** The monthly page's savings rows: what was saved, and a closing balance that counts on the plans not yet met. */
module SavingsPage {
  import opened Prelude
  import opened Calendar
  import opened MoneyLines
  import opened MoneyReads
  import opened MoneyTheorems
  import opened RunningBalances
  import C = Convertor
  import PagesAgree
  import PlanPage

  /** The page's one conversion batch: its own elements, and the savings rows' savings, balances and pending months. */
  datatype PageKey =
    | ElementKey(n: nat)
    | SpentKey(account: Id)
    | ClosingKey(account: Id)
    | PendingKey(account: Id, month: int)

  type Batch = map<PageKey, seq<C.Item>>

  function At(batch: Batch, k: PageKey): seq<C.Item> {
    if k in batch then batch[k] else []
  }

  /** Everything but the keys picked is as it was. */
  ghost predicate Adds(before: Batch, after: Batch, picked: PageKey -> bool) {
    forall k :: !picked(k) ==> (k in after <==> k in before) && At(after, k) == At(before, k)
  }

  function Amounts(items: seq<C.Item>): int {
    if items == [] then 0 else Amounts(items[..|items| - 1]) + items[|items| - 1].amount
  }

  function RowItem(r: SavingsRow, w: Calendar.Window, amount: int): C.Item {
    C.Item(w.start, w.end, r.accountCurrency, r.currency, amount)
  }

  /** Money of a row's account and one period, an amount in all. */
  ghost predicate Carries(items: seq<C.Item>, r: SavingsRow, w: Calendar.Window, amount: int) {
    (forall it :: it in items ==> it == RowItem(r, w, it.amount)) && Amounts(items) == amount
  }

  /** An amount of a row's account in the row's currency, at a period's rates. */
  function Worth(r: SavingsRow, w: Calendar.Window, p: C.RateProvider, amount: int): int
    requires C.Sound(p)
  {
    C.Converted(p.average(PlanPage.RangeOf(w)), p.base, p.digits(r.currency), r.accountCurrency, r.currency, amount)
  }

  /** What an account gained or lost inside a month's period. */
  ghost function Moved(entries: seq<Entry>, rows: seq<SavingsRow>, startDay: int, m: int, account: Id): int {
    BalanceBefore(AccountSet(AccountsOf(rows)), entries, WindowStart(m + 1, startDay), account)
    - BalanceBefore(AccountSet(AccountsOf(rows)), entries, WindowStart(m, startDay), account)
  }

  ghost function Booked(entries: seq<Entry>, rows: seq<SavingsRow>, startDay: int, m: int, account: Id): int {
    BalanceBefore(AccountSet(AccountsOf(rows)), entries, WindowStart(m + 1, startDay), account)
  }

  function Period(m: int, startDay: int): Calendar.Window {
    PeriodWindow(KeyOf(m), startDay)
  }

  // ---- The plans of the months ahead ----

  /** A row of the limits read: whether the element is a savings account, the element, the month and the plan. */
  datatype PlanLimit = PlanLimit(savings: bool, id: Id, month: Time, amount: int)

  function Planned(limits: seq<PlanLimit>, account: Id, month: Time): Option<int> {
    if limits == [] then None
    else
      var l := limits[|limits| - 1];
      if l.savings && l.id == account && l.month == month then Some(l.amount)
      else Planned(limits[..|limits| - 1], account, month)
  }

  method PlannedByKey(limits: seq<PlanLimit>) returns (planned: map<(Id, Time), int>)
    ensures forall a: Id, t: Time ::
      Planned(limits, a, t) == if (a, t) in planned then Some(planned[(a, t)]) else None
  {
    planned := map[];
    for k := 0 to |limits|
      invariant forall a: Id, t: Time ::
        Planned(limits[..k], a, t) == if (a, t) in planned then Some(planned[(a, t)]) else None
    {
      assert limits[..k + 1][..k] == limits[..k];
      if limits[k].savings {
        planned := planned[(limits[k].id, limits[k].month) := limits[k].amount];
      }
    }
    assert limits[..|limits|] == limits;
  }

  /** A month whose plan may yet add to the closing balance, and where its converted actual is found. */
  datatype PendingMonth = PendingMonth(planned: int, actual: PageKey)

  /** The planned months among the first n from a month on. */
  function PendingMonths(limits: seq<PlanLimit>, account: Id, from: int, n: nat): seq<PendingMonth> {
    if n == 0 then []
    else
      PendingMonths(limits, account, from, n - 1)
      + match Planned(limits, account, KeyOf(from + n - 1))
        case Some(amount) => [PendingMonth(amount, PendingKey(account, from + n - 1))]
        case None => []
  }

  method ActualByKey(rows: seq<Line>) returns (actual: map<Key, int>)
    requires forall i, j :: 0 <= i < j < |rows| ==> rows[i].key != rows[j].key
    ensures forall k :: (if k in actual then actual[k] else 0) == Sum(rows, Is(k))
  {
    actual := map[];
    for n := 0 to |rows|
      invariant forall k :: k in actual <==> HasKey(rows[..n], k)
      invariant forall k :: (if k in actual then actual[k] else 0) == Sum(rows[..n], Is(k))
    {
      assert rows[..n + 1] == rows[..n] + [rows[n]];
      LogGrows(rows[..n], rows[n]);
      assert rows[n].key !in actual;
      actual := actual[rows[n].key := rows[n].amount];
      HasKeyNext(rows, n);
    }
    assert rows[..|rows|] == rows;
  }

  lemma HasKeyNext(rows: seq<Line>, n: nat)
    requires n < |rows|
    ensures forall k :: HasKey(rows[..n + 1], k) <==> HasKey(rows[..n], k) || rows[n].key == k
  {
    forall k ensures HasKey(rows[..n + 1], k) <==> HasKey(rows[..n], k) || rows[n].key == k {
      if rows[n].key == k { assert rows[..n + 1][n].key == k; }
      if HasKey(rows[..n], k) {
        var i :| 0 <= i < n && rows[..n][i].key == k;
        assert rows[..n + 1][i].key == k;
      }
      if HasKey(rows[..n + 1], k) && rows[n].key != k {
        var i :| 0 <= i <= n && rows[..n + 1][i].key == k;
        assert rows[..n][i].key == k;
      }
    }
  }

  // ---- Queueing ----

  ghost predicate ByAccount(byId: map<Id, SavingsRow>, rows: seq<SavingsRow>) {
    && (forall a :: a in byId ==> byId[a] in rows && byId[a].account == a)
    && (forall r :: r in rows ==> r.account in byId && byId[r.account] == r)
  }

  method RowsById(rows: seq<SavingsRow>) returns (byId: map<Id, SavingsRow>)
    requires DistinctRows(rows)
    ensures ByAccount(byId, rows)
  {
    byId := map[];
    for j := 0 to |rows|
      invariant ByAccount(byId, rows[..j])
    {
      assert rows[..j + 1] == rows[..j] + [rows[j]];
      byId := byId[rows[j].account := rows[j]];
    }
    assert rows[..|rows|] == rows;
  }

  lemma CarriesMore(items: seq<C.Item>, r: SavingsRow, w: Calendar.Window, amount: int, more: int)
    requires Carries(items, r, w, amount)
    ensures Carries(items + [RowItem(r, w, more)], r, w, amount + more)
  {
    assert (items + [RowItem(r, w, more)])[..|items|] == items;
  }

  ghost function SpentKeys(): PageKey -> bool { (k: PageKey) => k.SpentKey? }

  ghost function ClosingKeys(): PageKey -> bool { (k: PageKey) => k.ClosingKey? }

  ghost function PendingKeys(account: Id): PageKey -> bool { (k: PageKey) => k.PendingKey? && k.account == account }

  /** The key is of one of the rows' accounts. */
  ghost predicate OfRows(k: PageKey, rows: seq<SavingsRow>) {
    !k.ElementKey? && exists r :: r in rows && r.account == k.account
  }

  ghost predicate OnlyRows(batch: Batch, more: Batch, rows: seq<SavingsRow>) {
    forall k :: k in more && k !in batch ==> OfRows(k, rows)
  }

  ghost predicate SpentQueued(batch: Batch, rows: seq<SavingsRow>, w: Calendar.Window, lines: seq<Line>) {
    forall r :: r in rows ==> Carries(At(batch, SpentKey(r.account)), r, w, Sum(lines, NetOf(r.account)))
  }

  lemma SpentNext(before: Batch, rows: seq<SavingsRow>, w: Calendar.Window, lines: seq<Line>, l: Line, r: SavingsRow)
    requires DistinctRows(rows) && SpentQueued(before, rows, w, lines) && r in rows && l.key.NetKey?
             && l.key.account == r.account
    ensures SpentQueued(before[SpentKey(r.account) := At(before, SpentKey(r.account)) + [RowItem(r, w, l.amount)]],
                        rows, w, lines + [l])
  {
    hide Carries;
    assert (lines + [l])[..|lines|] == lines;
    CarriesMore(At(before, SpentKey(r.account)), r, w, Sum(lines, NetOf(r.account)), l.amount);
    var after := before[SpentKey(r.account) := At(before, SpentKey(r.account)) + [RowItem(r, w, l.amount)]];
    forall x | x in rows ensures Carries(At(after, SpentKey(x.account)), x, w, Sum(lines + [l], NetOf(x.account))) {
      assert Carries(At(before, SpentKey(x.account)), x, w, Sum(lines, NetOf(x.account)));
      if x.account == r.account { assert x == r; }
    }
  }

  lemma SpentKept(batch: Batch, rows: seq<SavingsRow>, w: Calendar.Window, lines: seq<Line>, l: Line)
    requires SpentQueued(batch, rows, w, lines)
             && !(l.key.NetKey? && exists r :: r in rows && r.account == l.key.account)
    ensures SpentQueued(batch, rows, w, lines + [l])
  {
    hide Carries;
    assert (lines + [l])[..|lines|] == lines;
    forall r | r in rows ensures Sum(lines + [l], NetOf(r.account)) == Sum(lines, NetOf(r.account)) {
    }
  }

  /** What each account saved in the period, added to the batch line by line. */
  method QueueSpent(lines: seq<Line>, rows: seq<SavingsRow>, w: Calendar.Window, batch: Batch) returns (more: Batch)
    requires DistinctRows(rows) && forall k :: k in batch ==> !k.SpentKey?
    ensures Adds(batch, more, SpentKeys())
    ensures OnlyRows(batch, more, rows)
    ensures SpentQueued(more, rows, w, lines)
  {
    hide Carries, SpentQueued;
    var byId := RowsById(rows);
    more := batch;
    assert SpentQueued(more, rows, w, []) by { NothingSpent(batch, rows, w); }
    for k := 0 to |lines|
      invariant Adds(batch, more, SpentKeys())
      invariant OnlyRows(batch, more, rows)
      invariant SpentQueued(more, rows, w, lines[..k])
    {
      assert lines[..k + 1] == lines[..k] + [lines[k]];
      var key := lines[k].key;
      if key.NetKey? && key.account in byId {
        var r := byId[key.account];
        SpentNext(more, rows, w, lines[..k], lines[k], r);
        more := more[SpentKey(r.account) := At(more, SpentKey(r.account)) + [RowItem(r, w, lines[k].amount)]];
      } else {
        SpentKept(more, rows, w, lines[..k], lines[k]);
      }
    }
    assert lines[..|lines|] == lines;
  }

  lemma NothingSpent(batch: Batch, rows: seq<SavingsRow>, w: Calendar.Window)
    requires forall k :: k in batch ==> !k.SpentKey?
    ensures SpentQueued(batch, rows, w, [])
  {
  }

  lemma CarriesNothing(r: SavingsRow, w: Calendar.Window)
    ensures Carries([], r, w, 0)
  {
  }

  lemma CarriesOne(r: SavingsRow, w: Calendar.Window, amount: int)
    ensures Carries([RowItem(r, w, amount)], r, w, amount)
  {
    CarriesNothing(r, w);
    CarriesMore([], r, w, 0, amount);
    assert [] + [RowItem(r, w, amount)] == [RowItem(r, w, amount)];
  }

  /** Each row's balance, unless it is zero. */
  method QueueBooked(balance: map<Id, int>, rows: seq<SavingsRow>, w: Calendar.Window, batch: Batch)
    returns (more: Batch)
    requires DistinctRows(rows) && forall k :: k in batch ==> !k.ClosingKey?
    requires forall r :: r in rows ==> r.account in balance
    ensures Adds(batch, more, ClosingKeys())
    ensures OnlyRows(batch, more, rows)
    ensures forall r :: r in rows ==> Carries(At(more, ClosingKey(r.account)), r, w, balance[r.account])
  {
    hide Carries;
    more := batch;
    for j := 0 to |rows|
      invariant Adds(batch, more, ClosingKeys())
      invariant OnlyRows(batch, more, rows[..j])
      invariant forall x :: 0 <= x < j ==>
                  Carries(At(more, ClosingKey(rows[x].account)), rows[x], w, balance[rows[x].account])
    {
      var r := rows[j];
      assert rows[..j + 1] == rows[..j] + [r];
      assert ClosingKey(r.account) !in more;
      CarriesNothing(r, w);
      CarriesOne(r, w, balance[r.account]);
      if balance[r.account] != 0 {
        more := more[ClosingKey(r.account) := [RowItem(r, w, balance[r.account])]];
      }
    }
  }

  function ActualOf(actual: map<Key, int>, account: Id, m: int): int {
    if NetKey(KeyOf(m), account) in actual then actual[NetKey(KeyOf(m), account)] else 0
  }

  predicate PlannedIn(limits: seq<PlanLimit>, account: Id, from: int, n: nat, m: int) {
    from <= m < from + n && Planned(limits, account, KeyOf(m)).Some?
  }

  /** Each planned month of the first n carries its actual; nothing else is queued for the row's months. */
  ghost predicate PendingQueued(batch: Batch, r: SavingsRow, limits: seq<PlanLimit>, actual: map<Key, int>,
                                startDay: int, from: int, n: nat)
  {
    forall m :: Carries(At(batch, PendingKey(r.account, m)), r, Period(m, startDay),
                        if PlannedIn(limits, r.account, from, n, m) then ActualOf(actual, r.account, m) else 0)
  }

  lemma PendingNext(before: Batch, after: Batch, r: SavingsRow, limits: seq<PlanLimit>, actual: map<Key, int>,
                    startDay: int, from: int, n: nat)
    requires PendingQueued(before, r, limits, actual, startDay, from, n)
    requires forall m :: m != from + n ==> At(after, PendingKey(r.account, m)) == At(before, PendingKey(r.account, m))
    requires Carries(At(after, PendingKey(r.account, from + n)), r, Period(from + n, startDay),
                     if Planned(limits, r.account, KeyOf(from + n)).Some? then ActualOf(actual, r.account, from + n)
                     else 0)
    ensures PendingQueued(after, r, limits, actual, startDay, from, n + 1)
  {
    hide Carries, Planned, ActualOf, Period;
    forall m ensures Carries(At(after, PendingKey(r.account, m)), r, Period(m, startDay),
                             if PlannedIn(limits, r.account, from, n + 1, m) then ActualOf(actual, r.account, m)
                             else 0) {
      if m != from + n {
        assert At(after, PendingKey(r.account, m)) == At(before, PendingKey(r.account, m));
        assert PlannedIn(limits, r.account, from, n + 1, m) == PlannedIn(limits, r.account, from, n, m);
      }
    }
  }

  method QueuePending(r: SavingsRow, ghost limits: seq<PlanLimit>, planned: map<(Id, Time), int>, actual: map<Key, int>,
                      startDay: int,
                      from: int, n: nat, batch: Batch) returns (more: Batch, months: seq<PendingMonth>)
    requires forall a: Id, t: Time :: Planned(limits, a, t) == if (a, t) in planned then Some(planned[(a, t)]) else None
    requires forall m :: PendingKey(r.account, m) !in batch
    ensures months == PendingMonths(limits, r.account, from, n)
    ensures Adds(batch, more, PendingKeys(r.account))
    ensures PendingQueued(more, r, limits, actual, startDay, from, n)
  {
    hide Carries, PeriodWindow, KeyOf, Planned, PendingQueued;
    more, months := batch, [];
    assert PendingQueued(more, r, limits, actual, startDay, from,
                         0) by { NonePending(more, r, limits, actual, startDay, from); }
    for i := 0 to n
      invariant months == PendingMonths(limits, r.account, from, i)
      invariant Adds(batch, more, PendingKeys(r.account))
      invariant forall m :: m >= from + i ==> PendingKey(r.account, m) !in more
      invariant PendingQueued(more, r, limits, actual, startDay, from, i)
    {
      var m := from + i;
      var w := Period(m, startDay);
      ghost var before := more;
      CarriesNothing(r, w);
      CarriesOne(r, w, ActualOf(actual, r.account, m));
      assert Planned(limits, r.account, KeyOf(m))
             == if (r.account, KeyOf(m)) in planned then Some(planned[(r.account, KeyOf(m))]) else None;
      if (r.account, KeyOf(m)) in planned {
        if NetKey(KeyOf(m), r.account) in actual {
          more := more[PendingKey(r.account, m) := [RowItem(r, w, actual[NetKey(KeyOf(m), r.account)])]];
        }
        months := months + [PendingMonth(planned[(r.account, KeyOf(m))], PendingKey(r.account, m))];
      }
      PendingNext(before, more, r, limits, actual, startDay, from, i);
    }
  }

  lemma NonePending(batch: Batch, r: SavingsRow, limits: seq<PlanLimit>, actual: map<Key, int>, startDay: int,
                    from: int)
    requires forall m :: PendingKey(r.account, m) !in batch
    ensures PendingQueued(batch, r, limits, actual, startDay, from, 0)
  {
    hide Carries, PeriodWindow, KeyOf, Planned;
    forall m ensures Carries(At(batch, PendingKey(r.account, m)), r, Period(m, startDay), 0) {
      CarriesNothing(r, Period(m, startDay));
    }
  }

  function PendingOf(pending: map<Id, seq<PendingMonth>>, account: Id): seq<PendingMonth> {
    if account in pending then pending[account] else []
  }

  /** How many months from the current one through the selected one; a past month has none. */
  function MonthsAhead(current: int, selected: int): nat {
    if selected < current then 0 else selected + 1 - current
  }

  /** The months of a row whose plans may add to its balance: none for a deleted account. */
  function RowPending(limits: seq<PlanLimit>, r: SavingsRow, current: int, selected: int): seq<PendingMonth> {
    if r.deleted then [] else PendingMonths(limits, r.account, current, MonthsAhead(current, selected))
  }

  ghost predicate RowAhead(batch: Batch, r: SavingsRow, limits: seq<PlanLimit>, actual: map<Key, int>, startDay: int,
                           current: int, selected: int)
  {
    PendingQueued(batch, r, limits, actual, startDay, current, if r.deleted then 0 else MonthsAhead(current, selected))
  }

  lemma RowAheadKept(before: Batch, after: Batch, r: SavingsRow, limits: seq<PlanLimit>, actual: map<Key, int>,
                     startDay: int,
                     current: int, selected: int)
    requires RowAhead(before, r, limits, actual, startDay, current, selected)
    requires forall m :: At(after, PendingKey(r.account, m)) == At(before, PendingKey(r.account, m))
    ensures RowAhead(after, r, limits, actual, startDay, current, selected)
  {
    hide Carries, Planned, ActualOf, Period, At;
  }

  ghost function AllPendingKeys(): PageKey -> bool { (k: PageKey) => k.PendingKey? }

  /** The months ahead of every row that is not deleted. */
  method QueueMonthsAhead(limits: seq<PlanLimit>, rows: seq<SavingsRow>, actual: map<Key, int>, startDay: int,
                          current: int, selected: int,
                          batch: Batch)
    returns (more: Batch, pending: map<Id, seq<PendingMonth>>)
    requires DistinctRows(rows) && forall k :: k in batch ==> !k.PendingKey?
    ensures Adds(batch, more, AllPendingKeys()) && OnlyRows(batch, more, rows)
    ensures forall r :: r in rows ==> RowAhead(more, r, limits, actual, startDay, current, selected)
    ensures forall r :: r in rows ==> PendingOf(pending, r.account) == RowPending(limits, r, current, selected)
  {
    hide RowAhead, PendingMonths, PendingQueued, OfRows;
    more, pending := batch, map[];
    var planned := PlannedByKey(limits);
    for j := 0 to |rows|
      invariant Adds(batch, more, AllPendingKeys()) && OnlyRows(batch, more, rows[..j])
      invariant forall a, m :: PendingKey(a, m) in more ==> exists x :: 0 <= x < j && rows[x].account == a
      invariant forall x :: 0 <= x < j ==> RowAhead(more, rows[x], limits, actual, startDay, current, selected)
      invariant forall x :: 0 <= x < j ==>
                  PendingOf(pending, rows[x].account) == RowPending(limits, rows[x], current, selected)
      invariant forall a :: a in pending ==> exists x :: 0 <= x < j && rows[x].account == a
    {
      var r := rows[j];
      ghost var before := more;
      if !r.deleted {
        var months;
        more, months := QueuePending(r, limits, planned, actual, startDay, current, MonthsAhead(current, selected),
                                     more);
        pending := pending[r.account := months];
        AheadNow(more, r, limits, actual, startDay, current, selected);
      } else {
        NoneAhead(more, r, limits, actual, startDay, current, selected);
      }
      RowsMore(batch, before, more, rows, j);
      forall x | 0 <= x < j ensures RowAhead(more, rows[x], limits, actual, startDay, current, selected) {
        RowAheadKept(before, more, rows[x], limits, actual, startDay, current, selected);
      }
    }
    assert rows[..|rows|] == rows;
  }

  lemma NoMonths(limits: seq<PlanLimit>, from: int)
    ensures forall a: Id :: PendingMonths(limits, a, from, 0) == []
  {
  }

  lemma AheadNow(batch: Batch, r: SavingsRow, limits: seq<PlanLimit>, actual: map<Key, int>, startDay: int,
                 current: int, selected: int)
    requires !r.deleted && PendingQueued(batch, r, limits, actual, startDay, current, MonthsAhead(current, selected))
    ensures RowAhead(batch, r, limits, actual, startDay, current, selected)
  {
  }

  lemma NoneAhead(batch: Batch, r: SavingsRow, limits: seq<PlanLimit>, actual: map<Key, int>, startDay: int,
                  current: int, selected: int)
    requires r.deleted || selected < current
    requires forall m :: PendingKey(r.account, m) !in batch
    ensures RowAhead(batch, r, limits, actual, startDay, current, selected)
  {
    NonePending(batch, r, limits, actual, startDay, current);
  }

  lemma RowsMore(batch: Batch, before: Batch, after: Batch, rows: seq<SavingsRow>, j: nat)
    requires j < |rows| && OnlyRows(batch, before, rows[..j]) && Adds(before, after, PendingKeys(rows[j].account))
    ensures OnlyRows(batch, after, rows[..j + 1])
  {
    assert rows[..j + 1] == rows[..j] + [rows[j]];
    forall k | k in after && k !in batch ensures OfRows(k, rows[..j + 1]) {
      if k in before {
        assert OfRows(k, rows[..j]);
      } else {
        assert PendingKeys(rows[j].account)(k);
        assert rows[j] in rows[..j + 1];
      }
    }
  }

  /** The month's plan counts on for the row's closing balance. */
  predicate Pends(limits: seq<PlanLimit>, r: SavingsRow, current: int, selected: int, m: int) {
    !r.deleted && current <= m <= selected && Planned(limits, r.account, KeyOf(m)).Some?
  }

  /** Each pending month carries what moved in it; the row's other months carry nothing. */
  ghost predicate MonthsShare(batch: Batch, r: SavingsRow, entries: seq<Entry>, rows: seq<SavingsRow>,
                              limits: seq<PlanLimit>, startDay: int,
                              current: int, selected: int) {
    forall m :: Carries(At(batch, PendingKey(r.account, m)), r, Period(m, startDay),
                        if Pends(limits, r, current, selected, m) then Moved(entries, rows, startDay, m, r.account)
                        else 0)
  }

  /** A row's share of the batch: what moved in the period, what is booked by its end, and the pending months. */
  ghost predicate RowShare(batch: Batch, r: SavingsRow, entries: seq<Entry>, rows: seq<SavingsRow>,
                           limits: seq<PlanLimit>, startDay: int,
                           current: int, selected: int) {
    && Carries(At(batch, SpentKey(r.account)), r, Period(selected, startDay),
               Moved(entries, rows, startDay, selected, r.account))
    && Carries(At(batch, ClosingKey(r.account)), r, Period(selected, startDay),
               Booked(entries, rows, startDay, selected, r.account))
    && MonthsShare(batch, r, entries, rows, limits, startDay, current, selected)
  }

  /** A month of the nets read over a span of periods is what moved in the month's own period. */
  lemma NetOfMonth(entries: seq<Entry>, rows: seq<SavingsRow>, startDay: int, from: int, to: int, m: int,
                   nets: seq<Line>, account: Id)
    requires from <= m <= to
    requires Represents(nets, Filed(AccountMonths(AccountSet(AccountsOf(rows)), startDay, true), entries,
                                    MoneyLines.Between(WindowStart(from, startDay), WindowStart(to + 1, startDay))))
    ensures Sum(nets, Is(NetKey(KeyOf(m), account))) == Moved(entries, rows, startDay, m, account)
  {
    hide Represents, Filed, Sum, KeyOf, WindowStart, AccountSet, AccountsOf, BalanceBefore;
    var n, i := to + 1 - from, m - from;
    var accounts := AccountSet(AccountsOf(rows));
    MonthMovesBalance(entries, accounts, startDay, from, n, i, WindowStart(to + 1, startDay), account);
    Ordered(m, to + 1, startDay);
    Ordered(m + 1, to + 1, startDay);
    RowsSumKey(nets, Filed(AccountMonths(accounts, startDay, true), entries,
                           MoneyLines.Between(WindowStart(from, startDay), WindowStart(to + 1, startDay))),
                           NetKey(KeyOf(m), account));
  }

  lemma SpentMoved(entries: seq<Entry>, rows: seq<SavingsRow>, startDay: int, m: int, nets: seq<Line>, account: Id)
    requires Represents(nets, Filed(AccountMonths(AccountSet(AccountsOf(rows)), startDay, true), entries,
                                    MoneyLines.Between(WindowStart(m, startDay), WindowStart(m + 1, startDay))))
    ensures Sum(nets, NetOf(account)) == Moved(entries, rows, startDay, m, account)
  {
    hide Represents, Filed, Sum, WindowStart, AccountSet, AccountsOf, BalanceBefore;
    var iv := MoneyLines.Between(WindowStart(m, startDay), WindowStart(m + 1, startDay));
    RowsSum(nets, Filed(AccountMonths(AccountSet(AccountsOf(rows)), startDay, true), entries, iv), NetOf(account));
    Ordered(m, m + 1, startDay);
    NetsAreBalanceDifference(entries, WindowStart(m, startDay), WindowStart(m + 1, startDay),
                             AccountSet(AccountsOf(rows)), startDay, account);
  }

  lemma DistinctNets(nets: seq<Line>)
    requires forall i, j :: 0 <= i < j < |nets| ==> NetBefore(nets[i].key, nets[j].key)
    ensures forall i, j :: 0 <= i < j < |nets| ==> nets[i].key != nets[j].key
  {
  }

  lemma PendingShare(batch: Batch, r: SavingsRow, entries: seq<Entry>, rows: seq<SavingsRow>, limits: seq<PlanLimit>,
                     startDay: int,
                     current: int, selected: int, nets: seq<Line>, actual: map<Key, int>)
    requires current <= selected && RowAhead(batch, r, limits, actual, startDay, current, selected)
    requires forall k :: (if k in actual then actual[k] else 0) == Sum(nets, Is(k))
    requires Represents(nets, Filed(AccountMonths(AccountSet(AccountsOf(rows)), startDay, true), entries,
                                    MoneyLines.Between(WindowStart(current, startDay),
                                                       WindowStart(selected + 1, startDay))))
    ensures MonthsShare(batch, r, entries, rows, limits, startDay, current, selected)
  {
    hide Carries, Sum, Filed, Represents, Moved, KeyOf, PeriodWindow, WindowStart, Planned;
    forall m ensures Carries(At(batch, PendingKey(r.account, m)), r, Period(m, startDay),
                             if Pends(limits, r, current, selected, m) then Moved(entries, rows, startDay, m, r.account)
                             else 0) {
      if current <= m <= selected {
        NetOfMonth(entries, rows, startDay, current, selected, m, nets, r.account);
        assert ActualOf(actual, r.account, m) == Sum(nets, Is(NetKey(KeyOf(m), r.account)));
      }
    }
  }

  lemma NothingAhead(batch: Batch, r: SavingsRow, entries: seq<Entry>, rows: seq<SavingsRow>, limits: seq<PlanLimit>,
                     startDay: int,
                     current: int, selected: int)
    requires selected < current && forall k :: k in batch ==> !k.PendingKey?
    ensures MonthsShare(batch, r, entries, rows, limits, startDay, current, selected)
    ensures RowPending(limits, r, current, selected) == []
  {
    hide PeriodWindow, Moved;
  }

  /**
   * Once the selected period is not over yet: the plans from the current period on, each with what moved in its month.
   */
  method AddSavingsPending(entries: seq<Entry>, rows: seq<SavingsRow>, limits: seq<PlanLimit>, startDay: int,
                           current: int, selected: int,
                           batch: Batch)
    returns (more: Batch, pending: map<Id, seq<PendingMonth>>)
    requires DistinctRows(rows) && forall k :: k in batch ==> !k.PendingKey?
    ensures Adds(batch, more, AllPendingKeys()) && OnlyRows(batch, more, rows)
    ensures forall r :: r in rows ==> MonthsShare(more, r, entries, rows, limits, startDay, current, selected)
    ensures forall r :: r in rows ==> PendingOf(pending, r.account) == RowPending(limits, r, current, selected)
  {
    hide Sum, Filed, Represents, RowAhead, RowPending, MonthsShare, OfRows, AccountSet, KeyOf, PeriodWindow,
         WindowStart;
    if selected < current {
      forall r | r in rows
        ensures MonthsShare(batch, r, entries, rows, limits, startDay, current, selected)
                && RowPending(limits, r, current, selected) == [] {
        NothingAhead(batch, r, entries, rows, limits, startDay, current, selected);
      }
      return batch, map[];
    }
    var nets := ReadAccountMonths(entries, AccountSet(AccountsOf(rows)), WindowStart(current, startDay),
                                  WindowStart(selected + 1, startDay),
                                  startDay, true);
    DistinctNets(nets);
    var actual := ActualByKey(nets);
    more, pending := QueueMonthsAhead(limits, rows, actual, startDay, current, selected, batch);
    forall r | r in rows ensures MonthsShare(more, r, entries, rows, limits, startDay, current, selected) {
      PendingShare(more, r, entries, rows, limits, startDay, current, selected, nets, actual);
    }
  }

  ghost predicate ElementsKept(batch: Batch, more: Batch) {
    forall k: PageKey :: k.ElementKey? ==> (k in more <==> k in batch) && At(more, k) == At(batch, k)
  }

  lemma AccountsListed(rows: seq<SavingsRow>)
    ensures forall r :: r in rows ==> r.account in AccountsOf(rows)
  {
    forall r | r in rows ensures r.account in AccountsOf(rows) {
      var i :| 0 <= i < |rows| && rows[i] == r;
      assert AccountsOf(rows)[i] == r.account;
    }
  }

  lemma SpentShare(batch: Batch, rows: seq<SavingsRow>, w: Calendar.Window, lines: seq<Line>, r: SavingsRow)
    requires SpentQueued(batch, rows, w, lines) && r in rows
    ensures Carries(At(batch, SpentKey(r.account)), r, w, Sum(lines, NetOf(r.account)))
  {
  }

  lemma ShareOf(batch: Batch, r: SavingsRow, entries: seq<Entry>, rows: seq<SavingsRow>, limits: seq<PlanLimit>,
                startDay: int,
                current: int, selected: int)
    requires Carries(At(batch, SpentKey(r.account)), r, Period(selected, startDay),
                     Moved(entries, rows, startDay, selected, r.account))
    requires Carries(At(batch, ClosingKey(r.account)), r, Period(selected, startDay),
                     Booked(entries, rows, startDay, selected, r.account))
    requires MonthsShare(batch, r, entries, rows, limits, startDay, current, selected)
    ensures RowShare(batch, r, entries, rows, limits, startDay, current, selected)
  {
  }

  /** Everything the savings rows add to the page's batch. */
  method AddMonthlySavings(entries: seq<Entry>, rows: seq<SavingsRow>, limits: seq<PlanLimit>, startDay: int,
                           current: int, selected: int,
                           batch: Batch)
    returns (more: Batch, pending: map<Id, seq<PendingMonth>>)
    requires DistinctRows(rows) && forall k :: k in batch ==> k.ElementKey?
    ensures ElementsKept(batch, more) && OnlyRows(batch, more, rows)
    ensures forall r :: r in rows ==> RowShare(more, r, entries, rows, limits, startDay, current, selected)
    ensures forall r :: r in rows ==> PendingOf(pending, r.account) == RowPending(limits, r, current, selected)
  {
    hide Carries, Sum, Filed, Represents, SpentQueued, RowPending, RowShare, MonthsShare, OfRows, AccountSet, KeyOf,
         PeriodWindow, WindowStart;
    hide BalanceBefore, AccountsOf;
    var accounts := AccountsOf(rows);
    var w := Period(selected, startDay);
    WindowOfMonth(selected, startDay);
    AccountsListed(rows);
    DistinctAccounts(rows);
    var spent := ReadAccountMonths(entries, AccountSet(accounts), w.start, w.end, startDay, true);
    var balance := BalancesByAccount(entries, accounts, w.end);
    var withSpent := QueueSpent(spent, rows, w, batch);
    var withClosing := QueueBooked(balance, rows, w, withSpent);
    more, pending := AddSavingsPending(entries, rows, limits, startDay, current, selected, withClosing);
    forall r | r in rows ensures RowShare(more, r, entries, rows, limits, startDay, current, selected) {
      SpentMoved(entries, rows, startDay, selected, spent, r.account);
      SpentShare(withSpent, rows, w, spent, r);
      assert At(more, SpentKey(r.account)) == At(withClosing, SpentKey(r.account))
             == At(withSpent, SpentKey(r.account));
      assert At(more, ClosingKey(r.account)) == At(withClosing, ClosingKey(r.account));
      ShareOf(more, r, entries, rows, limits, startDay, current, selected);
    }
  }

  lemma DistinctAccounts(rows: seq<SavingsRow>)
    requires DistinctRows(rows)
    ensures forall i, j :: 0 <= i < j < |AccountsOf(rows)| ==> AccountsOf(rows)[i] != AccountsOf(rows)[j]
  {
  }

  // ---- What the page shows ----

  datatype SavingsElement = SavingsElement(account: Id, archived: bool, budgeted: int, isBudgeted: bool, spent: int,
                                           available: int, closing: int)

  function Get(totals: map<PageKey, int>, k: PageKey): int {
    if k in totals then totals[k] else 0
  }

  function Gap(m: PendingMonth, totals: map<PageKey, int>): int {
    var gap := m.planned - Get(totals, m.actual);
    if gap > 0 then gap else 0
  }

  function Gaps(months: seq<PendingMonth>, totals: map<PageKey, int>): int {
    if months == [] then 0 else Gaps(months[..|months| - 1], totals) + Gap(months[|months| - 1], totals)
  }

  method ProjectedClosing(months: seq<PendingMonth>, totals: map<PageKey, int>, booked: int) returns (closing: int)
    ensures closing == booked + Gaps(months, totals)
  {
    closing := booked;
    for k := 0 to |months|
      invariant closing == booked + Gaps(months[..k], totals)
    {
      assert months[..k + 1][..k] == months[..k];
      var gap := months[k].planned - Get(totals, months[k].actual);
      if gap > 0 {
        closing := closing + gap;
      }
    }
    assert months[..|months|] == months;
  }

  /** A row as the page shows it, from the batch's totals. */
  function Element(r: SavingsRow, months: seq<PendingMonth>, budgets: map<Id, int>,
                   totals: map<PageKey, int>): SavingsElement
  {
    var budgeted := if r.account in budgets then budgets[r.account] else 0;
    var spent := Get(totals, SpentKey(r.account));
    SavingsElement(r.account, r.deleted, budgeted, r.account in budgets, spent, budgeted - spent,
                   Get(totals, ClosingKey(r.account)) + Gaps(months, totals))
  }

  predicate Shows(r: SavingsRow, e: SavingsElement) {
    !r.deleted || e.spent != 0
  }

  /** The rows shown, in row order: a deleted account only when it saved or lost something in the period. */
  function Shown(rows: seq<SavingsRow>, element: SavingsRow -> SavingsElement): seq<SavingsElement> {
    if rows == [] then []
    else
      var r := rows[|rows| - 1];
      Shown(rows[..|rows| - 1], element) + if Shows(r, element(r)) then [element(r)] else []
  }

  function Emitted(pending: map<Id, seq<PendingMonth>>, budgets: map<Id, int>,
                   totals: map<PageKey, int>): SavingsRow -> SavingsElement
  {
    (r: SavingsRow) => Element(r, PendingOf(pending, r.account), budgets, totals)
  }

  method EmitMonthlySavings(rows: seq<SavingsRow>, pending: map<Id, seq<PendingMonth>>, budgets: map<Id, int>,
                            totals: map<PageKey, int>)
    returns (out: seq<SavingsElement>)
    ensures out == Shown(rows, Emitted(pending, budgets, totals))
  {
    out := [];
    for j := 0 to |rows|
      invariant out == Shown(rows[..j], Emitted(pending, budgets, totals))
    {
      assert rows[..j + 1][..j] == rows[..j];
      var r := rows[j];
      var budgeted := if r.account in budgets then budgets[r.account] else 0;
      var spent := Get(totals, SpentKey(r.account));
      if r.deleted && spent == 0 {
        continue;
      }
      var closing := ProjectedClosing(PendingOf(pending, r.account), totals, Get(totals, ClosingKey(r.account)));
      out := out + [SavingsElement(r.account, r.deleted, budgeted, r.account in budgets, spent, budgeted - spent,
                                   closing)];
    }
    assert rows[..|rows|] == rows;
  }

  lemma {:induction false} ShownAgree(rows: seq<SavingsRow>, f: SavingsRow -> SavingsElement,
                                      g: SavingsRow -> SavingsElement)
    requires forall r :: r in rows ==> f(r) == g(r)
    ensures Shown(rows, f) == Shown(rows, g)
  {
    if rows != [] { ShownAgree(rows[..|rows| - 1], f, g); }
  }

  // ---- What it comes to ----

  /** How far the planned months among the first n fall short, each valued at its own period's rates. */
  ghost function Shortfall(entries: seq<Entry>, rows: seq<SavingsRow>, limits: seq<PlanLimit>, r: SavingsRow,
                           startDay: int, from: int, n: nat,
                           p: C.RateProvider): int
    requires C.Sound(p)
  {
    if n == 0 then 0
    else
      var m := from + n - 1;
      Shortfall(entries, rows, limits, r, startDay, from, n - 1, p)
      + match Planned(limits, r.account, KeyOf(m))
        case Some(plan) => Unmet(plan, Worth(r, Period(m, startDay), p, Moved(entries, rows, startDay, m, r.account)))
        case None => 0
  }

  function Unmet(plan: int, saved: int): int {
    if plan > saved then plan - saved else 0
  }

  /** A row's plans not met yet: none in a past period or for a deleted account. */
  ghost function UnmetPlans(entries: seq<Entry>, rows: seq<SavingsRow>, limits: seq<PlanLimit>, r: SavingsRow,
                            startDay: int, current: int,
                            selected: int, p: C.RateProvider): int
    requires C.Sound(p)
  {
    if r.deleted then 0 else Shortfall(entries, rows, limits, r, startDay, current, MonthsAhead(current, selected), p)
  }

  /** What the page promises of a row, with no mention of a batch: saved in the period, booked by its end, and unmet. */
  ghost function Promised(entries: seq<Entry>, rows: seq<SavingsRow>, limits: seq<PlanLimit>, budgets: map<Id, int>,
                          startDay: int, current: int,
                          selected: int, p: C.RateProvider, r: SavingsRow): SavingsElement
    requires C.Sound(p)
  {
    var w := Period(selected, startDay);
    var budgeted := if r.account in budgets then budgets[r.account] else 0;
    var spent := Worth(r, w, p, Moved(entries, rows, startDay, selected, r.account));
    SavingsElement(r.account, r.deleted, budgeted, r.account in budgets, spent, budgeted - spent,
                   Worth(r, w, p, Booked(entries, rows, startDay, selected, r.account))
                   + UnmetPlans(entries, rows, limits, r, startDay, current, selected, p))
  }

  ghost function PromisedRow(entries: seq<Entry>, rows: seq<SavingsRow>, limits: seq<PlanLimit>, budgets: map<Id, int>,
                             startDay: int,
                             current: int, selected: int, p: C.RateProvider): SavingsRow -> SavingsElement
    requires C.Sound(p)
  {
    (r: SavingsRow) => Promised(entries, rows, limits, budgets, startDay, current, selected, p, r)
  }

  lemma {:induction false} AmountsAreGroup(items: seq<C.Item>, g: C.Group)
    requires forall it :: it in items ==> C.GroupOf(it) == g
    ensures C.GroupSum(items, g) == Amounts(items)
  {
    if items != [] {
      var n := |items| - 1;
      AmountsAreGroup(items[..n], g);
      assert items == items[..n] + [items[n]];
      C.GroupSumConcat(items[..n], [items[n]], g);
      assert [items[n]][1..] == [];
    }
  }

  /** Items of one row and period are converted as the one amount they carry. */
  lemma WorthOfCarried(items: seq<C.Item>, r: SavingsRow, w: Calendar.Window, amount: int, p: C.RateProvider)
    requires C.Sound(p) && Carries(items, r, w, amount)
    ensures PagesAgree.PeriodTotal(items, w, p) == Worth(r, w, p, amount)
  {
    hide C.Converted;
    if items == [] {
      PagesAgree.NoItemsNoTotal(w, p);
      C.ConvertedOdd(p.average(PlanPage.RangeOf(w)), p.base, p.digits(r.currency), r.accountCurrency, r.currency, 0);
    } else {
      var g := C.GroupOf(items[0]);
      AmountsAreGroup(items, g);
      assert C.Groups(items) == {g} by {
        forall x | x in C.Groups(items) ensures x == g {
          var it :| it in items && C.GroupOf(it) == x;
        }
        assert g in C.Groups(items);
      }
      SumSetRemove({g}, PagesAgree.PeriodValuer(items, w, p), g);
      assert {g} - {g} == {};
    }
  }

  /** The totals a batch of whole periods was converted to, the selected period's rates being its own. */
  ghost predicate ConvertedTo(batch: Batch, totals: map<PageKey, int>, loaded: map<int, C.Range>, startDay: int,
                              selected: int, p: C.RateProvider)
    requires C.Sound(p)
  {
    && PagesAgree.OnPeriods(batch, startDay)
    && C.Needed(PlanPage.RangeOf(Period(selected, startDay)), batch, loaded)
    && totals.Keys == batch.Keys
    && forall k :: k in batch ==> totals[k]
                                  == C.Total(batch[k], loaded, C.MonthKey(Period(selected, startDay).start), p)
  }

  lemma CarriedTotal(batch: Batch, totals: map<PageKey, int>, loaded: map<int, C.Range>, startDay: int, selected: int,
                     p: C.RateProvider,
                     k: PageKey, r: SavingsRow, m: int, amount: int)
    requires C.Sound(p) && ConvertedTo(batch, totals, loaded, startDay, selected, p)
    requires Carries(At(batch, k), r, Period(m, startDay), amount)
    ensures Get(totals, k) == Worth(r, Period(m, startDay), p, amount)
  {
    hide PeriodWindow, KeyOf, FirstOfMonth, C.Total, C.MonthKey, C.Needed, C.Sound, PagesAgree.PeriodTotal,
         PagesAgree.OnPeriods;
    WorthOfCarried(At(batch, k), r, Period(m, startDay), amount, p);
    if k in batch {
      KeyOfMonth(m);
      KeyOfMonth(selected);
      assert PagesAgree.OfPeriod(batch[k], Period(m, startDay));
      PagesAgree.CellOfPeriod(KeyOf(selected), KeyOf(m), startDay, batch, loaded, p, k);
    } else {
      PagesAgree.NoItemsNoTotal(Period(m, startDay), p);
    }
  }

  lemma {:induction false} GapsAreShortfall(entries: seq<Entry>, rows: seq<SavingsRow>, limits: seq<PlanLimit>,
                                            r: SavingsRow, startDay: int,
                                            current: int, selected: int, n: nat, p: C.RateProvider, batch: Batch,
                                            totals: map<PageKey, int>,
                                            loaded: map<int, C.Range>)
    requires C.Sound(p) && ConvertedTo(batch, totals, loaded, startDay, selected, p)
    requires MonthsShare(batch, r, entries, rows, limits, startDay, current, selected)
    requires !r.deleted && n <= MonthsAhead(current, selected)
    ensures Gaps(PendingMonths(limits, r.account, current, n), totals)
            == Shortfall(entries, rows, limits, r, startDay, current, n, p)
  {
    hide ConvertedTo, Worth, Carries, PeriodWindow, KeyOf, Moved, C.Sound, Planned;
    if n > 0 {
      var m := current + n - 1;
      var before := PendingMonths(limits, r.account, current, n - 1);
      GapsAreShortfall(entries, rows, limits, r, startDay, current, selected, n - 1, p, batch, totals, loaded);
      if Planned(limits, r.account, KeyOf(m)).Some? {
        var last := PendingMonth(Planned(limits, r.account, KeyOf(m)).value, PendingKey(r.account, m));
        assert PendingMonths(limits, r.account, current, n) == before + [last];
        assert (before + [last])[..|before|] == before;
        assert Pends(limits, r, current, selected, m);
        CarriedTotal(batch, totals, loaded, startDay, selected, p, PendingKey(r.account, m), r, m,
                     Moved(entries, rows, startDay, m, r.account));
      } else {
        assert before + [] == before;
        assert Planned(limits, r.account, KeyOf(m)) == None;
      }
    }
  }

  /** What a row shows is what is promised of it. */
  lemma RowAsPromised(entries: seq<Entry>, rows: seq<SavingsRow>, limits: seq<PlanLimit>, budgets: map<Id, int>,
                      startDay: int, current: int,
                      selected: int, p: C.RateProvider, batch: Batch, totals: map<PageKey, int>,
                      loaded: map<int, C.Range>, r: SavingsRow)
    requires C.Sound(p) && ConvertedTo(batch, totals, loaded, startDay, selected, p)
    requires RowShare(batch, r, entries, rows, limits, startDay, current, selected)
    ensures Element(r, RowPending(limits, r, current, selected), budgets, totals)
         == Promised(entries, rows, limits, budgets, startDay, current, selected, p, r)
  {
    CarriedTotal(batch, totals, loaded, startDay, selected, p, SpentKey(r.account), r, selected,
                 Moved(entries, rows, startDay, selected, r.account));
    CarriedTotal(batch, totals, loaded, startDay, selected, p, ClosingKey(r.account), r, selected,
                 Booked(entries, rows, startDay, selected, r.account));
    if !r.deleted {
      GapsAreShortfall(entries, rows, limits, r, startDay, current, selected, MonthsAhead(current, selected), p, batch,
                       totals, loaded);
    }
    hide ConvertedTo, Worth, Carries, PeriodWindow, KeyOf, Moved, Booked, C.Sound, RowShare;
  }

  lemma CarriedOnPeriod(items: seq<C.Item>, r: SavingsRow, m: int, amount: int, startDay: int, it: C.Item)
    requires Carries(items, r, Period(m, startDay), amount) && it in items
    ensures PagesAgree.OnAPeriod(it, startDay)
  {
    hide PeriodWindow, FirstOfMonth, KeyOf;
    KeyOfMonth(m);
    assert PagesAgree.IsPeriod(it, KeyOf(m), startDay);
  }

  lemma SharesOnPeriods(batch: Batch, more: Batch, entries: seq<Entry>, rows: seq<SavingsRow>, limits: seq<PlanLimit>,
                        startDay: int,
                        current: int, selected: int)
    requires PagesAgree.OnPeriods(batch, startDay) && ElementsKept(batch, more) && OnlyRows(batch, more, rows)
    requires (forall k :: k in batch ==> k.ElementKey?)
    requires forall r :: r in rows ==> RowShare(more, r, entries, rows, limits, startDay, current, selected)
    ensures PagesAgree.OnPeriods(more, startDay)
  {
    hide Carries, Moved, Booked, PagesAgree.OnAPeriod, Pends, Period;
    forall k, it | k in more && it in more[k] ensures PagesAgree.OnAPeriod(it, startDay) {
      if k in batch {
        assert At(more, k) == At(batch, k);
      } else {
        assert OfRows(k, rows);
        var r :| r in rows && r.account == k.account;
        assert RowShare(more, r, entries, rows, limits, startDay, current, selected);
        if k.PendingKey? {
          assert At(more, PendingKey(r.account, k.month)) == more[k];
          CarriedOnPeriod(more[k], r, k.month, if Pends(limits, r, current, selected, k.month)
                            then Moved(entries, rows, startDay, k.month, r.account) else 0, startDay, it);
        } else if k.SpentKey? {
          CarriedOnPeriod(more[k], r, selected, Moved(entries, rows, startDay, selected, r.account), startDay, it);
        } else {
          CarriedOnPeriod(more[k], r, selected, Booked(entries, rows, startDay, selected, r.account), startDay, it);
        }
      }
    }
  }

  /** A pending month beside earlier spending walked from the 15th, as by a budget whose stored start is a 15th. */
  function MidMonthBatch(m: int): Batch {
    map[ElementKey(0) := [C.Item(KeyOf(m) + 14 * DAY, KeyOf(m + 1) + 14 * DAY, 1, 2, 5)],
        PendingKey(7, m) := [C.Item(KeyOf(m), KeyOf(m + 1), 1, 2, 9)]]
  }

  /** Such a month can be converted at other rates than its own; a batch of whole periods rules that out. */
  lemma MidMonthStart(m: int)
    ensures Carries(At(MidMonthBatch(m), PendingKey(7, m)), SavingsRow(7, 1, 2, false), Period(m, 1), 9)
    ensures !C.AlwaysLoads(PlanPage.RangeOf(Period(m + 1, 1)), MidMonthBatch(m), m, PlanPage.RangeOf(Period(m, 1)))
  {
    hide MonthStart, PeriodWindow;
    WindowOfMonth(m, 1);
    WindowOfMonth(m + 1, 1);
    KeyOfMonth(m);
    KeyOfMonth(m + 1);
    MonthLength(m);
    var batch, own := MidMonthBatch(m), PlanPage.RangeOf(Period(m + 1, 1));
    CarriesOne(SavingsRow(7, 1, 2, false), Period(m, 1), 9);
    var early: C.Item, whole: C.Item := batch[ElementKey(0)][0], batch[PendingKey(7, m)][0];
    assert DayOf(early.periodStart) == MonthStart(m) + 14;
    MonthOfUnique(MonthStart(m) + 14, m);
    var other := C.Range(early.periodStart, early.periodEnd);
    assert early in batch[ElementKey(0)] && C.Crosses(early, m, other);
    assert C.Asked(batch, m, other);
    var loaded := map[m + 1 := own, m := other];
    forall k, it: C.Item | k in batch && it in batch[k] ensures C.MonthKey(it.periodStart) == m {
      assert it == early || it == whole;
    }
    forall month, r | C.Asked(batch, month, r) ensures month == m {
      var k, it :| k in batch && it in batch[k] && C.Crosses(it, month, r);
    }
    assert C.Needed(own, batch, loaded);
  }

  /**
   * The page's savings rows, through its one batch: every row shows what was saved in the period, and closes with the
   * booked balance plus each month's unmet plan, all at their own periods' rates, whatever else the page converts.
   */
  method BuildMonthlySavings(entries: seq<Entry>, rows: seq<SavingsRow>, limits: seq<PlanLimit>, budgets: map<Id, int>,
                             startDay: int,
                             current: int, selected: int, p: C.RateProvider, batch: Batch)
    returns (out: seq<SavingsElement>)
    requires DistinctRows(rows) && C.Sound(p)
    requires PagesAgree.OnPeriods(batch, startDay) && forall k :: k in batch ==> k.ElementKey?
    ensures out == Shown(rows, PromisedRow(entries, rows, limits, budgets, startDay, current, selected, p))
  {
    hide RowShare, RowPending, Promised, Element, C.Total, C.Needed, C.MonthKey, PeriodWindow, KeyOf,
         PagesAgree.OnPeriods;
    var more, pending := AddMonthlySavings(entries, rows, limits, startDay, current, selected, batch);
    SharesOnPeriods(batch, more, entries, rows, limits, startDay, current, selected);
    var totals, loaded := C.BulkConvert(PlanPage.RangeOf(Period(selected, startDay)), more, p);
    out := EmitMonthlySavings(rows, pending, budgets, totals);
    var shown, promised := Emitted(pending, budgets, totals),
      PromisedRow(entries, rows, limits, budgets, startDay, current, selected, p);
    forall r | r in rows ensures shown(r) == promised(r) {
      RowAsPromised(entries, rows, limits, budgets, startDay, current, selected, p, more, totals, loaded, r);
    }
    ShownAgree(rows, shown, promised);
  }

  /** A cell of the plan's batch that carries an amount of one period is worth the amount at that period's rates. */
  lemma CellWorth<K(!new)>(sheet: map<K, seq<C.Item>>, cell: K, r: SavingsRow, startDay: int, first: int, m: int,
                           amount: int,
                           loaded: map<int, C.Range>, p: C.RateProvider)
    requires C.Sound(p) && PagesAgree.OnPeriods(sheet, startDay)
             && C.Needed(PlanPage.RangeOf(Period(first, startDay)), sheet, loaded)
    requires cell in sheet && Carries(sheet[cell], r, Period(m, startDay), amount)
    ensures C.Total(sheet[cell], loaded, C.MonthKey(Period(first, startDay).start), p)
            == Worth(r, Period(m, startDay), p, amount)
  {
    hide PeriodWindow, KeyOf, FirstOfMonth, C.Total, C.MonthKey, C.Needed, C.Sound, PagesAgree.OnPeriods,
         PagesAgree.PeriodTotal, Worth;
    KeyOfMonth(m);
    KeyOfMonth(first);
    WorthOfCarried(sheet[cell], r, Period(m, startDay), amount, p);
    CarriedOfPeriod(sheet[cell], r, Period(m, startDay), amount);
    hide Carries, PagesAgree.OfPeriod;
    PagesAgree.CellOfPeriod(KeyOf(first), KeyOf(m), startDay, sheet, loaded, p, cell);
  }

  /**
   * The plan's closing cell for a month, out of a batch of its own, is the monthly page's closing without the unmet
   * plans.
   */
  lemma ClosingsAgree<K(!new)>(entries: seq<Entry>, rows: seq<SavingsRow>, limits: seq<PlanLimit>,
                               budgets: map<Id, int>, startDay: int,
                               current: int, first: int, n: nat, i: int, queue: map<ClosingCell, seq<C.Item>>,
                               r: SavingsRow,
                               sheet: map<K, seq<C.Item>>, cell: K, loaded: map<int, C.Range>, p: C.RateProvider)
    requires C.Sound(p) && 0 <= i < n && RowQueued(queue, entries, rows, r, startDay, first, n)
    requires PagesAgree.OnPeriods(sheet, startDay) && C.Needed(PlanPage.RangeOf(Period(first, startDay)), sheet, loaded)
    requires cell in sheet && sheet[cell] == QueuedAt(queue, i, r.account)
    ensures C.Total(sheet[cell], loaded, C.MonthKey(Period(first, startDay).start), p)
         == Promised(entries, rows, limits, budgets, startDay, current, first + i, p, r).closing
          - UnmetPlans(entries, rows, limits, r, startDay, current, first + i, p)
  {
    hide Period, C.Total, C.MonthKey, C.Needed, C.Sound, PagesAgree.OnPeriods, UnmetPlans, Worth, RowQueued, QueuedAt,
         Carries, Promised, Booked;
    CellCarriesBooked(entries, rows, startDay, first, n, i, queue, r);
    CellWorth(sheet, cell, r, startDay, first, first + i, Booked(entries, rows, startDay, first + i, r.account), loaded,
              p);
    PromisedClosing(entries, rows, limits, budgets, startDay, current, first + i, p, r);
  }

  lemma CellCarriesBooked(entries: seq<Entry>, rows: seq<SavingsRow>, startDay: int, first: int, n: nat, i: int,
                          queue: map<ClosingCell, seq<C.Item>>, r: SavingsRow)
    requires 0 <= i < n && RowQueued(queue, entries, rows, r, startDay, first, n)
    ensures Carries(QueuedAt(queue, i, r.account), r, Period(first + i, startDay),
                    Booked(entries, rows, startDay, first + i, r.account))
  {
    hide PeriodWindow, KeyOf, BalanceBefore, Carries, QueuedAt;
    WindowOfMonth(first + i, startDay);
    CarriesNothing(r, Period(first + i, startDay));
    CarriesOne(r, Period(first + i, startDay), Booked(entries, rows, startDay, first + i, r.account));
    assert QueuedAt(queue, i, r.account) == BookedClosing(entries, rows, r, PeriodWindow(KeyOf(first + i), startDay));
  }

  lemma CarriedOfPeriod(items: seq<C.Item>, r: SavingsRow, w: Calendar.Window, amount: int)
    requires Carries(items, r, w, amount)
    ensures PagesAgree.OfPeriod(items, w)
  {
  }

  lemma PromisedClosing(entries: seq<Entry>, rows: seq<SavingsRow>, limits: seq<PlanLimit>, budgets: map<Id, int>,
                        startDay: int,
                        current: int, selected: int, p: C.RateProvider, r: SavingsRow)
    requires C.Sound(p)
    ensures Promised(entries, rows, limits, budgets, startDay, current, selected, p, r).closing
         == Worth(r, Period(selected, startDay), p, Booked(entries, rows, startDay, selected, r.account))
          + UnmetPlans(entries, rows, limits, r, startDay, current, selected, p)
  {
    hide Worth, Booked, UnmetPlans, Moved;
  }
}
