/** Running balances: what savings accounts close a month with, and net worth month by month. */
module RunningBalances {
  import opened Prelude
  import opened Calendar
  import opened MoneyLines
  import opened MoneyReads
  import opened MoneyTheorems
  import C = Convertor

  function Earlier(a: Time, b: Time): Time {
    if b < a then b else a
  }

  /** A month's net, read over an interval, is what the account's balance moves by inside that month. */
  lemma {:induction false} NetIsBalanceMove(entries: seq<Entry>, iv: Interval, accounts: set<Id>, startDay: int,
                                            m: Time, account: Id)
    requires m == FirstOfMonth(m)
    ensures FiledSum(AccountMonths(accounts, startDay, true), entries, iv, Is(NetKey(m, account)))
         == FiledSum(Balances(accounts), entries, Within(iv, PeriodWindow(m, startDay)), Is(BalanceKey(account)))
  {
    if entries != [] {
      var e := entries[|entries| - 1];
      NetIsBalanceMove(entries[..|entries| - 1], iv, accounts, startDay, m, account);
      FiledSumLast(AccountMonths(accounts, startDay, true), entries, iv, Is(NetKey(m, account)));
      FiledSumLast(Balances(accounts), entries, Within(iv, PeriodWindow(m, startDay)), Is(BalanceKey(account)));
      NetPart(accounts, startDay, e, Is(NetKey(m, account)));
      BalancePart(accounts, e, Is(BalanceKey(account)));
      WithinMonth(e, iv, m, startDay);
      hide Part, FiledSum, PeriodWindow, PeriodOf, FirstOfMonth, Within, FiledIn;
    }
  }

  /**
   * Over consecutive months, with nothing dated from the cap on: the balance before a month's end is the balance before
   * its start plus the month's net, both cut at the cap.
   */
  lemma MonthMovesBalance(entries: seq<Entry>, accounts: set<Id>, startDay: int, first: int, n: int, i: int, cap: Time,
                          account: Id)
    requires 0 <= i < n
    ensures BalanceBefore(accounts, entries, Earlier(WindowStart(first + i + 1, startDay), cap), account)
         == BalanceBefore(accounts, entries, Earlier(WindowStart(first + i, startDay), cap), account)
          + MonthNet(entries, accounts, startDay, first, n, cap, KeyOf(first + i), account)
  {
    hide MonthStart, FiledSum, PeriodWindow, FirstOfMonth;
    var m := first + i;
    var start, end := WindowStart(m, startDay), WindowStart(m + 1, startDay);
    KeyOfMonth(m);
    WindowOfMonth(m, startDay);
    Ordered(first, m, startDay);
    Ordered(m + 1, first + n, startDay);
    var iv := MoneyLines.Between(WindowStart(first, startDay), Earlier(WindowStart(first + n, startDay), cap));
    NetIsBalanceMove(entries, iv, accounts, startDay, KeyOf(m), account);
    var inside := Within(iv, PeriodWindow(KeyOf(m), startDay));
    assert inside == MoneyLines.Between(start, Earlier(end, cap));
    WindowStartsIncrease(m, m + 1, startDay);
    if start <= cap {
      assert Splits(Before(Earlier(end, cap)), Before(Earlier(start, cap)), inside);
      FiledSplit(Balances(accounts), entries, Before(Earlier(end, cap)), Before(Earlier(start, cap)), inside,
                 Is(BalanceKey(account)));
    } else {
      NothingFiled(Balances(accounts), entries, inside, Is(BalanceKey(account)));
    }
  }

  lemma Ordered(a: int, b: int, startDay: int)
    requires a <= b
    ensures WindowStart(a, startDay) <= WindowStart(b, startDay)
  {
    if a < b { WindowStartsIncrease(a, b, startDay); }
  }

  /** A month's net over the months from the first on, up to the cap. */
  ghost function MonthNet(entries: seq<Entry>, accounts: set<Id>, startDay: int, first: int, n: int, cap: Time,
                          month: Time, account: Id): int
  {
    FiledSum(AccountMonths(accounts, startDay, true), entries,
             MoneyLines.Between(WindowStart(first, startDay), Earlier(WindowStart(first + n, startDay), cap)),
             Is(NetKey(month, account)))
  }

  function MonthList(first: int, n: nat): seq<Time> {
    seq(n, i => KeyOf(first + i))
  }

  function NetAt(net: map<Id, seq<int>>, account: Id, i: int): int {
    if account in net && 0 <= i < |net[account]| then net[account][i] else 0
  }

  /** Every account's nets by month index. */
  ghost predicate NetsFiled(net: map<Id, seq<int>>, months: seq<Time>, rows: seq<Line>) {
    && (forall a :: a in net ==> |net[a]| == |months|)
    && (forall a, i {:trigger NetAt(net, a, i)} :: 0 <= i < |months| ==>
          NetAt(net, a, i) == Sum(rows, Is(NetKey(months[i], a))))
  }

  method MonthIndexes(months: seq<Time>) returns (index: map<Time, nat>)
    ensures forall m :: m in index <==> m in months
    ensures forall m :: m in index ==> index[m] < |months| && months[index[m]] == m
  {
    index := map[];
    for k := 0 to |months|
      invariant forall m :: m in index <==> m in months[..k]
      invariant forall m :: m in index ==> index[m] < k && months[index[m]] == m
    {
      assert months[..k + 1] == months[..k] + [months[k]];
      index := index[months[k] := k];
    }
    assert months[..|months|] == months;
  }

  lemma NetPlaced(net: map<Id, seq<int>>, first: int, n: nat, rows: seq<Line>, l: Line, a: Id, i: nat,
                  after: map<Id, seq<int>>)
    requires NetsFiled(net, MonthList(first, n), rows) && i < n && l.key == NetKey(KeyOf(first + i), a)
    requires after.Keys == net.Keys + {a} && (forall x :: x in net && x != a ==> after[x] == net[x]) && |after[a]| == n
    requires forall j :: 0 <= j < n ==> after[a][j] == NetAt(net, a, j) + if j == i then l.amount else 0
    ensures NetsFiled(after, MonthList(first, n), rows + [l])
  {
    hide KeyOf, Sum;
    LogGrows(rows, l);
    forall x, j {:trigger NetAt(after, x, j)} | 0 <= j < n
      ensures NetAt(after, x, j) == Sum(rows + [l], Is(NetKey(MonthList(first, n)[j], x))) {
      assert NetAt(net, x, j) == Sum(rows, Is(NetKey(MonthList(first, n)[j], x)));
      if j != i {
        KeysIncrease(first + i, first + j);
        KeysIncrease(first + j, first + i);
      }
    }
  }

  lemma NetSkipped(net: map<Id, seq<int>>, months: seq<Time>, rows: seq<Line>, l: Line)
    requires NetsFiled(net, months, rows) && !(l.key.NetKey? && l.key.month in months)
    ensures NetsFiled(net, months, rows + [l])
  {
    hide Sum;
    LogGrows(rows, l);
    forall x, j {:trigger NetAt(net, x, j)} | 0 <= j < |months|
      ensures NetAt(net, x, j) == Sum(rows + [l], Is(NetKey(months[j], x))) {
      assert NetAt(net, x, j) == Sum(rows, Is(NetKey(months[j], x)));
    }
  }

  /** Each account's moves by month, added up; a row of no month of the list is passed over. */
  method MonthDeltas(rows: seq<Line>, first: int, n: nat) returns (net: map<Id, seq<int>>)
    ensures NetsFiled(net, MonthList(first, n), rows)
  {
    hide KeyOf, NetsFiled;
    var months := MonthList(first, n);
    var index := MonthIndexes(months);
    net := map[];
    assert NetsFiled(net, months, []) by { NoNets(months); }
    for k := 0 to |rows|
      invariant NetsFiled(net, months, rows[..k])
    {
      assert rows[..k + 1] == rows[..k] + [rows[k]];
      if rows[k].key.NetKey? && rows[k].key.month in index {
        var a, i := rows[k].key.account, index[rows[k].key.month];
        ghost var before := net;
        NetLengths(net, months, rows[..k]);
        if a !in net {
          net := net[a := seq(n, _ => 0)];
        }
        net := net[a := net[a][i := net[a][i] + rows[k].amount]];
        NetPlaced(before, first, n, rows[..k], rows[k], a, i, net);
      } else {
        NetSkipped(net, months, rows[..k], rows[k]);
      }
    }
    assert rows[..|rows|] == rows;
  }

  /** The same when no two rows share a key: each is put in its place. */
  method NetsByMonth(rows: seq<Line>, first: int, n: nat) returns (net: map<Id, seq<int>>)
    requires forall i, j :: 0 <= i < j < |rows| ==> rows[i].key != rows[j].key
    ensures NetsFiled(net, MonthList(first, n), rows)
  {
    hide KeyOf, NetsFiled;
    var months := MonthList(first, n);
    var index := MonthIndexes(months);
    net := map[];
    assert NetsFiled(net, months, []) by { NoNets(months); }
    for k := 0 to |rows|
      invariant NetsFiled(net, months, rows[..k])
    {
      assert rows[..k + 1] == rows[..k] + [rows[k]];
      if rows[k].key.NetKey? && rows[k].key.month in index {
        var a, i := rows[k].key.account, index[rows[k].key.month];
        ghost var before := net;
        NetLengths(net, months, rows[..k]);
        NetUnset(net, months, rows, k, i);
        if a !in net {
          net := net[a := seq(n, _ => 0)];
        }
        net := net[a := net[a][i := rows[k].amount]];
        NetPlaced(before, first, n, rows[..k], rows[k], a, i, net);
      } else {
        NetSkipped(net, months, rows[..k], rows[k]);
      }
    }
    assert rows[..|rows|] == rows;
  }

  lemma NetUnset(net: map<Id, seq<int>>, months: seq<Time>, rows: seq<Line>, k: int, i: int)
    requires 0 <= k < |rows| && forall i, j :: 0 <= i < j < |rows| ==> rows[i].key != rows[j].key
    requires NetsFiled(net, months, rows[..k]) && 0 <= i < |months| && rows[k].key.NetKey?
             && rows[k].key.month == months[i]
    ensures NetAt(net, rows[k].key.account, i) == 0
  {
    SumNone(rows[..k], Is(rows[k].key));
    assert NetAt(net, rows[k].key.account, i) == Sum(rows[..k], Is(NetKey(months[i], rows[k].key.account)));
  }

  lemma NoNets(months: seq<Time>)
    ensures NetsFiled(map[], months, [])
  {
  }

  lemma NetLengths(net: map<Id, seq<int>>, months: seq<Time>, rows: seq<Line>)
    requires NetsFiled(net, months, rows)
    ensures forall a :: a in net ==> |net[a]| == |months|
  {
  }

  /** A read's balances by account; an account with no row counts as zero. */
  method Openings(rows: seq<Line>) returns (opening: map<Id, int>)
    requires forall i, j :: 0 <= i < j < |rows| ==> rows[i].key != rows[j].key
    ensures forall i :: 0 <= i < |rows| && rows[i].key.BalanceKey? ==>
      rows[i].key.account in opening && opening[rows[i].key.account] == rows[i].amount
  {
    opening := map[];
    for k := 0 to |rows|
      invariant forall i :: 0 <= i < k && rows[i].key.BalanceKey? ==>
        rows[i].key.account in opening && opening[rows[i].key.account] == rows[i].amount
    {
      if rows[k].key.BalanceKey? {
        opening := opening[rows[k].key.account := rows[k].amount];
      }
    }
  }

  /**
   * A savings row: its account, the account's currency, the currency the row is shown in, and if the account is
   * deleted.
   */
  datatype SavingsRow = SavingsRow(account: Id, accountCurrency: Id, currency: Id, deleted: bool)

  datatype ClosingCell = ClosingCell(i: int, account: Id)

  function QueuedAt(queue: map<ClosingCell, seq<C.Item>>, i: int, account: Id): seq<C.Item> {
    if ClosingCell(i, account) in queue then queue[ClosingCell(i, account)] else []
  }

  function AccountsOf(rows: seq<SavingsRow>): (ids: seq<Id>)
    ensures |ids| == |rows| && forall i :: 0 <= i < |rows| ==> ids[i] == rows[i].account
  {
    seq(|rows|, i requires 0 <= i < |rows| => rows[i].account)
  }

  /** A balance as money to convert at its period's rates; zero queues nothing. */
  function BalanceItems(r: SavingsRow, w: Calendar.Window, balance: int): seq<C.Item> {
    if balance == 0 then [] else [C.Item(w.start, w.end, r.accountCurrency, r.currency, balance)]
  }

  /** What is booked on a row's account before a period's end, queued at that period's rates. */
  ghost function BookedClosing(entries: seq<Entry>, rows: seq<SavingsRow>, r: SavingsRow,
                               w: Calendar.Window): seq<C.Item>
  {
    BalanceItems(r, w, BalanceBefore(AccountSet(AccountsOf(rows)), entries, w.end, r.account))
  }

  method QueueSavingsBalance(queue: map<ClosingCell, seq<C.Item>>, i: int, w: Calendar.Window, r: SavingsRow,
                             amount: int)
    returns (more: map<ClosingCell, seq<C.Item>>)
    requires ClosingCell(i, r.account) !in queue
    ensures QueuedAt(more, i, r.account) == BalanceItems(r, w, amount)
    ensures forall c :: c != ClosingCell(i, r.account) ==>
              (c in more <==> c in queue) && (c in queue ==> more[c] == queue[c])
  {
    more := queue;
    if amount == 0 {
      return;
    }
    more := more[ClosingCell(i, r.account) := [C.Item(w.start, w.end, r.accountCurrency, r.currency, amount)]];
  }

  ghost predicate DistinctRows(rows: seq<SavingsRow>) {
    forall i, j :: 0 <= i < j < |rows| ==> rows[i].account != rows[j].account
  }

  lemma {:induction false} KeptAll(accounts: seq<Id>, known: set<Id>)
    requires forall a :: a in accounts ==> a in known
    ensures Kept(accounts, known) == accounts
  {
    if accounts != [] {
      KeptAll(accounts[..|accounts| - 1], known);
    }
  }

  /** Balances read for distinct known accounts, by account. */
  method BalancesByAccount(entries: seq<Entry>, accounts: seq<Id>, date: Time) returns (balance: map<Id, int>)
    requires forall i, j :: 0 <= i < j < |accounts| ==> accounts[i] != accounts[j]
    ensures forall a :: a in accounts ==>
              a in balance && balance[a] == BalanceBefore(AccountSet(accounts), entries, date, a)
  {
    hide Filed, Sum, Kept;
    KeptAll(accounts, AccountSet(accounts));
    var rows := ReadBalances(entries, accounts, AccountSet(accounts), date);
    balance := Openings(rows);
    forall a | a in accounts ensures a in balance
           && balance[a] == BalanceBefore(AccountSet(accounts), entries, date, a) {
      var i :| 0 <= i < |accounts| && accounts[i] == a;
      assert rows[i].key == BalanceKey(a);
    }
  }

  /**
   * The plan: each row's balance before the first month, then the months' nets added one by one. Every cell ends up
   * with the balance booked before its own month's end.
   */
  method AddPlanSavingsClosings(entries: seq<Entry>, rows: seq<SavingsRow>, startDay: int, first: int, n: nat)
    returns (queue: map<ClosingCell, seq<C.Item>>)
    requires DistinctRows(rows)
    ensures forall j :: 0 <= j < |rows| ==> RowQueued(queue, entries, rows, rows[j], startDay, first, n)
  {
    hide KeyOf, WindowStart, Filed, Sum, PeriodWindow, NetsFiled, NetAt, Represents, RowQueued, QueuedAt;
    var accounts := AccountsOf(rows);
    ghost var set_ := AccountSet(accounts);
    var from, to := WindowStart(first, startDay), WindowStart(first + n, startDay);
    var opening := BalancesByAccount(entries, accounts, from);
    var nets := ReadAccountMonths(entries, AccountSet(accounts), from, to, startDay, true);
    DistinctKeys(nets, Filed(AccountMonths(set_, startDay, true), entries, MoneyLines.Between(from, to)));
    var netByMonth := NetsByMonth(nets, first, n);
    queue := map[];
    for j := 0 to |rows|
      invariant forall c :: c in queue ==> c.account in accounts[..j]
      invariant forall x :: 0 <= x < j ==> RowQueued(queue, entries, rows, rows[x], startDay, first, n)
    {
      var r := rows[j];
      var running := 0;
      if r.account in opening {
        running := opening[r.account];
      }
      assert accounts[j] == r.account && r.account !in accounts[..j];
      assert accounts[..j + 1] == accounts[..j] + [r.account];
      ghost var before := queue;
      queue := QueueClosings(entries, rows, r, startDay, first, n, running, nets, netByMonth, queue);
      forall x | 0 <= x < j ensures RowQueued(queue, entries, rows, rows[x], startDay, first, n) {
        assert rows[x].account != r.account;
        RowKept(before, queue, entries, rows, rows[x], startDay, first, n);
      }
    }
  }

  /** Every month's cell of a row holds the balance booked before that month's end. */
  ghost predicate RowQueued(queue: map<ClosingCell, seq<C.Item>>, entries: seq<Entry>, rows: seq<SavingsRow>,
                            r: SavingsRow, startDay: int, first: int, n: nat)
  {
    forall i :: 0 <= i < n ==> QueuedAt(queue, i, r.account)
                               == BookedClosing(entries, rows, r, PeriodWindow(KeyOf(first + i), startDay))
  }

  ghost predicate OthersKept(before: map<ClosingCell, seq<C.Item>>, after: map<ClosingCell, seq<C.Item>>, account: Id) {
    forall i, a :: a != account ==> QueuedAt(after, i, a) == QueuedAt(before, i, a)
  }

  lemma RowKept(before: map<ClosingCell, seq<C.Item>>, after: map<ClosingCell, seq<C.Item>>, entries: seq<Entry>,
                rows: seq<SavingsRow>,
                r: SavingsRow, startDay: int, first: int, n: nat)
    requires RowQueued(before, entries, rows, r, startDay, first, n)
    requires forall i :: QueuedAt(after, i, r.account) == QueuedAt(before, i, r.account)
    ensures RowQueued(after, entries, rows, r, startDay, first, n)
  {
    hide QueuedAt, BookedClosing, PeriodWindow, KeyOf;
  }

  lemma RowNext(before: map<ClosingCell, seq<C.Item>>, after: map<ClosingCell, seq<C.Item>>, entries: seq<Entry>,
                rows: seq<SavingsRow>,
                r: SavingsRow, startDay: int, first: int, i: nat)
    requires RowQueued(before, entries, rows, r, startDay, first, i)
    requires forall k :: k != i ==> QueuedAt(after, k, r.account) == QueuedAt(before, k, r.account)
    requires QueuedAt(after, i, r.account) == BookedClosing(entries, rows, r, PeriodWindow(KeyOf(first + i), startDay))
    ensures RowQueued(after, entries, rows, r, startDay, first, i + 1)
  {
    hide QueuedAt, BookedClosing, PeriodWindow, KeyOf;
    forall k | 0 <= k < i + 1
      ensures QueuedAt(after, k, r.account) == BookedClosing(entries, rows, r, PeriodWindow(KeyOf(first + k), startDay))
    {
      if k < i {
        assert QueuedAt(before, k, r.account)
               == BookedClosing(entries, rows, r, PeriodWindow(KeyOf(first + k), startDay));
      }
    }
  }

  /** One row of the plan: the running balance after each month's net. */
  method QueueClosings(ghost entries: seq<Entry>, ghost rows: seq<SavingsRow>, r: SavingsRow, startDay: int, first: int,
                       n: nat, opening: int,
                       ghost nets: seq<Line>, net: map<Id, seq<int>>, queue: map<ClosingCell, seq<C.Item>>)
    returns (more: map<ClosingCell, seq<C.Item>>)
    requires NetsFiled(net, MonthList(first, n), nets)
    requires Represents(nets, Filed(AccountMonths(AccountSet(AccountsOf(rows)), startDay, true), entries,
                                    MoneyLines.Between(WindowStart(first, startDay), WindowStart(first + n, startDay))))
    requires opening == BalanceBefore(AccountSet(AccountsOf(rows)), entries, WindowStart(first, startDay), r.account)
    requires forall c :: c in queue ==> c.account != r.account
    ensures RowQueued(more, entries, rows, r, startDay, first, n)
    ensures OthersKept(queue, more, r.account)
    ensures forall c :: c in more ==> c in queue || c.account == r.account
  {
    hide KeyOf, WindowStart, Filed, PeriodWindow, NetsFiled, NetAt, Represents, AccountsOf, AccountSet, BalanceBefore;
    more := queue;
    var running := opening;
    for i := 0 to n
      invariant running == BalanceBefore(AccountSet(AccountsOf(rows)), entries, WindowStart(first + i, startDay),
                                         r.account)
      invariant forall c :: c in more ==> c in queue || (c.account == r.account && c.i < i)
      invariant forall c: ClosingCell :: c.account != r.account ==>
                  (c in more <==> c in queue) && (c in queue ==> more[c] == queue[c])
      invariant RowQueued(more, entries, rows, r, startDay, first, i)
    {
      PlanStep(entries, AccountSet(AccountsOf(rows)), startDay, first, n, i, r.account, nets, net);
      if NetAt(net, r.account, i) != 0 {
        running := running + NetAt(net, r.account, i);
      }
      ghost var before := more;
      more := QueueSavingsBalance(more, i, PeriodWindow(KeyOf(first + i), startDay), r, running);
      RowNext(before, more, entries, rows, r, startDay, first, i);
    }
  }

  lemma DistinctKeys(rows: seq<Line>, lines: seq<Line>)
    requires Represents(rows, lines)
    ensures forall i, j :: 0 <= i < j < |rows| ==> rows[i].key != rows[j].key
  {
  }

  lemma PlanStep(entries: seq<Entry>, accounts: set<Id>, startDay: int, first: int, n: int, i: int, account: Id,
                 nets: seq<Line>, net: map<Id, seq<int>>)
    requires 0 <= i < n && NetsFiled(net, MonthList(first, n), nets)
    requires Represents(nets, Filed(AccountMonths(accounts, startDay, true), entries,
                                    MoneyLines.Between(WindowStart(first, startDay), WindowStart(first + n, startDay))))
    ensures PeriodWindow(KeyOf(first + i), startDay).end == WindowStart(first + i + 1, startDay)
    ensures BalanceBefore(accounts, entries, WindowStart(first + i + 1, startDay), account)
         == BalanceBefore(accounts, entries, WindowStart(first + i, startDay), account) + NetAt(net, account, i)
  {
    hide MonthStart, Filed, Sum, PeriodWindow, Represents;
    var to := WindowStart(first + n, startDay);
    WindowOfMonth(first + i, startDay);
    Ordered(first + i + 1, first + n, startDay);
    Ordered(first + i, first + n, startDay);
    MonthMovesBalance(entries, accounts, startDay, first, n, i, to, account);
    var k := NetKey(KeyOf(first + i), account);
    RowsSumKey(nets, Filed(AccountMonths(accounts, startDay, true), entries,
                           MoneyLines.Between(WindowStart(first, startDay), to)), k);
    assert NetAt(net, account, i) == Sum(nets, Is(NetKey(MonthList(first, n)[i], account)));
  }
}
