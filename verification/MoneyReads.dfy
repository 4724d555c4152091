/** The projected read model: each report loops over the entries and adds amounts up per key. */
module MoneyReads {
  import opened Prelude
  import opened Calendar
  import opened MoneyLines

  function AccountSet(ids: seq<Id>): (accounts: set<Id>)
    ensures forall a :: a in accounts <==> a in ids
  {
    set a | a in ids
  }

  /** Totals in first-seen key order. */
  class Sums {
    var keys: seq<Key>
    var vals: map<Key, int>
    ghost var log: seq<Line>

    ghost predicate Valid()
      reads this
    {
      && (forall i, j :: 0 <= i < j < |keys| ==> keys[i] != keys[j])
      && (forall k :: k in keys <==> k in vals)
      && (forall k :: k in vals <==> HasKey(log, k))
      && (forall k :: k in vals ==> vals[k] == Sum(log, Is(k)))
    }

    constructor ()
      ensures Valid() && log == []
    {
      keys, vals, log := [], map[], [];
    }

    method Add(k: Key, v: int)
      requires Valid()
      modifies this
      ensures Valid() && log == old(log) + [Line(k, v)]
    {
      var cur := 0;
      if k in vals {
        cur := vals[k];
      } else {
        keys := keys + [k];
        NoSum(log, k);
      }
      vals := vals[k := cur + v];
      LogGrows(log, Line(k, v));
      log := log + [Line(k, v)];
    }

    /** The rows, in first-seen order. */
    method Rows() returns (rows: seq<Line>)
      requires Valid()
      ensures Represents(rows, log)
      ensures |rows| == |keys| && forall i :: 0 <= i < |keys| ==> rows[i].key == keys[i]
    {
      rows := [];
      for i := 0 to |keys|
        invariant |rows| == i
        invariant forall j :: 0 <= j < i ==> keys[j] in vals && rows[j] == Line(keys[j], vals[keys[j]])
      {
        assert keys[i] in keys;
        rows := rows + [Line(keys[i], vals[keys[i]])];
      }
      forall k ensures HasKey(rows, k) <==> HasKey(log, k) {
        if k in vals {
          assert k in keys;
          var i :| 0 <= i < |keys| && keys[i] == k;
          assert rows[i].key == k;
        }
        if HasKey(rows, k) {
          var i :| 0 <= i < |rows| && rows[i].key == k;
          assert keys[i] in vals;
        }
      }
    }
  }

  lemma NoSum(log: seq<Line>, k: Key)
    requires !HasKey(log, k)
    ensures Sum(log, Is(k)) == 0
  {
    forall l | l in log ensures l.key != k {
      var i :| 0 <= i < |log| && log[i] == l;
    }
    SumNone(log, Is(k));
  }

  lemma LogGrows(log: seq<Line>, l: Line)
    ensures forall k :: HasKey(log + [l], k) <==> HasKey(log, k) || k == l.key
    ensures forall k :: Sum(log + [l], Is(k)) == Sum(log, Is(k)) + if k == l.key then l.amount else 0
  {
    assert (log + [l])[..|log|] == log && (log + [l])[|log|] == l;
    forall k ensures HasKey(log + [l], k) <==> HasKey(log, k) || k == l.key {
      if HasKey(log, k) {
        var i :| 0 <= i < |log| && log[i].key == k;
        assert (log + [l])[i].key == k;
      }
    }
  }

  lemma FiledNext(q: Query, entries: seq<Entry>, n: int, iv: Interval)
    requires 0 <= n < |entries|
    ensures Filed(q, entries[..n + 1], iv) == Filed(q, entries[..n], iv)
            + if FiledIn(entries[n], iv) then Lines(q, entries[n]) else []
  {
    assert entries[..n + 1][..n] == entries[..n];
  }

  /** What was spent from the accounts, leaving out foreign categories; split by period when a start day is given. */
  method ReadSpending(entries: seq<Entry>, categories: set<Id>, accounts: set<Id>, start: Time, end: Time,
                      byMonth: Option<int>)
    returns (rows: seq<Line>)
    ensures Represents(rows, Filed(Spending(categories, accounts, byMonth), entries, Between(start, end)))
  {
    hide PeriodOf;
    ghost var q, iv := Spending(categories, accounts, byMonth), Between(start, end);
    var out := new Sums();
    for i := 0 to |entries|
      invariant fresh(out) && out.Valid() && out.log == Filed(q, entries[..i], iv)
    {
      FiledNext(q, entries, i, iv);
      var o := entries[i];
      if o.kind != Expense || o.account !in accounts || !(start <= o.at < end) {
        assert out.log + [] == out.log;
        continue;
      }
      if o.category.Some? && o.category.value !in categories {
        assert out.log + [] == out.log;
        continue;
      }
      var month := None;
      if byMonth.Some? {
        month := Some(PeriodOf(o.at, byMonth.value));
      }
      out.Add(SpendKey(month, o.category, o.tag, o.currency), o.amount);
    }
    assert entries[..|entries|] == entries;
    rows := out.Rows();
  }

  /** Each expense counts in full under every label it carries. */
  method ReadLabelSpending(entries: seq<Entry>, accounts: set<Id>, start: Time, end: Time) returns (rows: seq<Line>)
    ensures Represents(rows, Filed(LabelSpending(accounts), entries, Between(start, end)))
  {
    hide PeriodOf;
    ghost var q, iv := LabelSpending(accounts), Between(start, end);
    var out := new Sums();
    for i := 0 to |entries|
      invariant fresh(out) && out.Valid() && out.log == Filed(q, entries[..i], iv)
    {
      FiledNext(q, entries, i, iv);
      var o := entries[i];
      if o.kind != Expense || o.account !in accounts || !(start <= o.at < end) {
        assert out.log + [] == out.log;
        continue;
      }
      ghost var before := out.log;
      assert before + LabelLines(o, o.labels[..0]) == before;
      for j := 0 to |o.labels|
        invariant fresh(out) && out.Valid() && out.log == before + LabelLines(o, o.labels[..j])
      {
        assert o.labels[..j + 1][..j] == o.labels[..j];
        out.Add(LabelKey(o.labels[j], o.category, o.currency), o.amount);
      }
      assert o.labels[..|o.labels|] == o.labels;
    }
    assert entries[..|entries|] == entries;
    rows := out.Rows();
  }

  method ReadIncomeByMonth(entries: seq<Entry>, accounts: set<Id>, from: Time, to: Time, startDay: int)
    returns (rows: seq<Line>)
    ensures Represents(rows, Filed(IncomeByMonth(accounts, startDay), entries, Between(from, to)))
  {
    hide PeriodOf;
    ghost var q, iv := IncomeByMonth(accounts, startDay), Between(from, to);
    var out := new Sums();
    for i := 0 to |entries|
      invariant fresh(out) && out.Valid() && out.log == Filed(q, entries[..i], iv)
    {
      FiledNext(q, entries, i, iv);
      var o := entries[i];
      if o.kind != Income || o.account !in accounts || !(from <= o.at < to) {
        assert out.log + [] == out.log;
        continue;
      }
      out.Add(IncomeKey(PeriodOf(o.at, startDay), o.category, o.currency), o.amount);
    }
    assert entries[..|entries|] == entries;
    rows := out.Rows();
  }

  /** What transfers move out of the account set and into it, each side in its own currency. */
  method ReadTransfersByMonth(entries: seq<Entry>, accounts: set<Id>, from: Time, to: Time, startDay: int)
    returns (rows: seq<Line>)
    ensures Represents(rows, Filed(TransfersByMonth(accounts, startDay), entries, Between(from, to)))
  {
    hide PeriodOf;
    ghost var q, iv := TransfersByMonth(accounts, startDay), Between(from, to);
    var out := new Sums();
    for i := 0 to |entries|
      invariant fresh(out) && out.Valid() && out.log == Filed(q, entries[..i], iv)
    {
      FiledNext(q, entries, i, iv);
      var o := entries[i];
      ghost var before := out.log;
      if !(from <= o.at < to) {
        assert before + [] == before;
        continue;
      }
      var isOut, isIn := CrossesOut(o, accounts), CrossesIn(o, accounts);
      var month := PeriodOf(o.at, startDay);
      if isOut {
        out.Add(OutKey(month, o.currency), o.amount);
      }
      if isIn {
        out.Add(InKey(month, o.recipientCurrency), o.amountRecipient);
      }
      assert out.log == before + Lines(q, o);
    }
    assert entries[..|entries|] == entries;
    rows := out.Rows();
  }

  /** What each account gained or lost per month; without transfers, only its income and expenses. */
  method ReadAccountMonths(entries: seq<Entry>, accounts: set<Id>, from: Time, to: Time, startDay: int, transfers: bool)
    returns (rows: seq<Line>)
    ensures Represents(rows, Filed(AccountMonths(accounts, startDay, transfers), entries, Between(from, to)))
    ensures forall i, j :: 0 <= i < j < |rows| ==> NetBefore(rows[i].key, rows[j].key)
  {
    hide PeriodOf;
    ghost var q, iv := AccountMonths(accounts, startDay, transfers), Between(from, to);
    var out := new Sums();
    for i := 0 to |entries|
      invariant fresh(out) && out.Valid() && out.log == Filed(q, entries[..i], iv)
    {
      FiledNext(q, entries, i, iv);
      var o := entries[i];
      ghost var before := out.log;
      if !(from <= o.at < to) || (!transfers && o.kind == Transfer) {
        assert before + [] == before;
        continue;
      }
      var month := PeriodOf(o.at, startDay);
      if o.account in accounts {
        out.Add(NetKey(month, o.account), SignedOnSource(o));
      }
      if transfers && o.recipient.Some? && o.recipient.value in accounts {
        out.Add(NetKey(month, o.recipient.value), o.amountRecipient);
      }
      assert out.log == before + Lines(q, o);
    }
    assert entries[..|entries|] == entries;
    rows := out.Rows();
    NetKeysOnly(entries, iv, accounts, startDay, transfers, rows);
    rows := ByMonthAndAccount(rows, out.log);
  }

  /** By month, then by account. */
  predicate NetBefore(a: Key, b: Key) {
    a.NetKey? && b.NetKey? && (a.month < b.month || (a.month == b.month && a.account < b.account))
  }

  lemma NetKeysOnly(entries: seq<Entry>, iv: Interval, accounts: set<Id>, startDay: int, transfers: bool,
                    rows: seq<Line>)
    requires Represents(rows, Filed(AccountMonths(accounts, startDay, transfers), entries, iv))
    ensures forall l :: l in rows ==> l.key.NetKey?
  {
    FiledNetKeys(entries, iv, accounts, startDay, transfers);
    hide Filed, Sum;
    forall l | l in rows ensures l.key.NetKey? {
      var i :| 0 <= i < |rows| && rows[i] == l;
      assert HasKey(rows, l.key);
    }
  }

  lemma {:induction false} FiledNetKeys(entries: seq<Entry>, iv: Interval, accounts: set<Id>, startDay: int,
                                        transfers: bool)
    ensures forall k :: HasKey(Filed(AccountMonths(accounts, startDay, transfers), entries, iv), k) ==> k.NetKey?
  {
    if entries != [] {
      var n := |entries| - 1;
      FiledNetKeys(entries[..n], iv, accounts, startDay, transfers);
      LinesNetKeys(entries[n], accounts, startDay, transfers);
      hide PeriodOf, FiledIn, Lines;
      var before := Filed(AccountMonths(accounts, startDay, transfers), entries[..n], iv);
      forall k | HasKey(Filed(AccountMonths(accounts, startDay, transfers), entries, iv), k) ensures k.NetKey? {
        var all := Filed(AccountMonths(accounts, startDay, transfers), entries, iv);
        var i :| 0 <= i < |all| && all[i].key == k;
        if i < |before| { assert before[i].key == k; }
      }
    }
  }

  lemma LinesNetKeys(e: Entry, accounts: set<Id>, startDay: int, transfers: bool)
    ensures forall l :: l in Lines(AccountMonths(accounts, startDay, transfers), e) ==> l.key.NetKey?
  {
    hide PeriodOf;
  }

  /** Inserts each row before the first one it precedes. */
  method ByMonthAndAccount(rows: seq<Line>, ghost lines: seq<Line>) returns (out: seq<Line>)
    requires Represents(rows, lines) && forall l :: l in rows ==> l.key.NetKey?
    ensures Represents(out, lines)
    ensures forall i, j :: 0 <= i < j < |out| ==> NetBefore(out[i].key, out[j].key)
  {
    hide Represents;
    RepresentsDistinct(rows, lines);
    out := [];
    for n := 0 to |rows|
      invariant forall i, j :: 0 <= i < j < |out| ==> NetBefore(out[i].key, out[j].key)
      invariant forall l :: l in out <==> l in rows[..n]
    {
      var at := 0;
      while at < |out| && NetBefore(out[at].key, rows[n].key)
        invariant 0 <= at <= |out| && forall i :: 0 <= i < at ==> NetBefore(out[i].key, rows[n].key)
      {
        at := at + 1;
      }
      assert rows[n] in rows && rows[..n + 1] == rows[..n] + [rows[n]];
      forall i | at <= i < |out| ensures NetBefore(rows[n].key, out[i].key) {
        assert out[i] in out && out[i] in rows[..n];
        var j :| 0 <= j < n && rows[..n][j] == out[i];
        assert rows[j].key != rows[n].key && rows[j] in rows;
        assert out[at] in out && out[at] in rows[..n];
        var m :| 0 <= m < n && rows[..n][m] == out[at];
        assert rows[m].key != rows[n].key && rows[m] in rows;
      }
      out := out[..at] + [rows[n]] + out[at..];
    }
    assert rows[..|rows|] == rows;
    SameRowsRepresent(rows, out, lines);
  }

  lemma RepresentsDistinct(rows: seq<Line>, lines: seq<Line>)
    requires Represents(rows, lines)
    ensures forall i, j :: 0 <= i < j < |rows| ==> rows[i].key != rows[j].key
  {
    hide Sum, HasKey;
  }

  lemma SameRowsRepresent(a: seq<Line>, b: seq<Line>, lines: seq<Line>)
    requires Represents(a, lines) && (forall l :: l in b <==> l in a)
    requires forall i, j :: 0 <= i < j < |b| ==> b[i].key != b[j].key
    ensures Represents(b, lines)
  {
    hide Sum;
    forall k ensures HasKey(b, k) <==> HasKey(a, k) {
      if HasKey(a, k) {
        var i :| 0 <= i < |a| && a[i].key == k;
        assert a[i] in b;
        var j :| 0 <= j < |b| && b[j] == a[i];
      }
      if HasKey(b, k) {
        var i :| 0 <= i < |b| && b[i].key == k;
        assert b[i] in a;
        var j :| 0 <= j < |a| && a[j] == b[i];
      }
    }
    forall i | 0 <= i < |b| ensures b[i].amount == Sum(lines, Is(b[i].key)) {
      assert b[i] in a;
      var j :| 0 <= j < |a| && a[j] == b[i];
    }
  }

  /** A month's crossings in one currency, both ways. */
  datatype TransferRow = TransferRow(month: Time, currency: Id, incoming: int, outgoing: int)

  predicate TransferBefore(a: TransferRow, b: TransferRow) {
    a.month < b.month || (a.month == b.month && a.currency < b.currency)
  }

  /**
   * One row per month and currency in which something crossed, with both sides' totals, by month and then by currency.
   */
  ghost predicate Joined(out: seq<TransferRow>, lines: seq<Line>) {
    && (forall i, j :: 0 <= i < j < |out| ==> TransferBefore(out[i], out[j]))
    && (forall i :: 0 <= i < |out| ==> BothSides(out[i], lines))
    && (forall m: Time, c: Id {:trigger Crossed(lines, m, c)} :: Crossed(lines, m, c) ==>
          exists i :: 0 <= i < |out| && out[i].month == m && out[i].currency == c)
  }

  ghost predicate Crossed(lines: seq<Line>, m: Time, c: Id) {
    HasKey(lines, OutKey(m, c)) || HasKey(lines, InKey(m, c))
  }

  ghost predicate BothSides(r: TransferRow, lines: seq<Line>) {
    && Crossed(lines, r.month, r.currency)
    && r.outgoing == Sum(lines, Is(OutKey(r.month, r.currency)))
      && r.incoming == Sum(lines, Is(InKey(r.month, r.currency)))
  }

  method TransfersByMonthRows(entries: seq<Entry>, accounts: set<Id>, from: Time, to: Time, startDay: int)
    returns (out: seq<TransferRow>)
    ensures Joined(out, Filed(TransfersByMonth(accounts, startDay), entries, Between(from, to)))
  {
    hide *;
    var rows := ReadTransfersByMonth(entries, accounts, from, to, startDay);
    out := JoinSides(rows, Filed(TransfersByMonth(accounts, startDay), entries, Between(from, to)));
  }

  /** Each side's total goes into its month and currency's row; a side with nothing stays zero. */
  method JoinSides(rows: seq<Line>, ghost lines: seq<Line>) returns (out: seq<TransferRow>)
    requires Represents(rows, lines)
    ensures Joined(out, lines)
  {
    hide Sum, HasKey, Represents, Crossed;
    var merged: map<(Time, Id), TransferRow> := map[];
    assert Tallied(merged, []) by { NothingTallied(); }
    for n := 0 to |rows|
      invariant Tallied(merged, rows[..n])
    {
      hide Tallied;
      assert rows[..n + 1] == rows[..n] + [rows[n]];
      SideAdded(merged, rows[..n], rows[n]);
      var l := rows[n];
      if l.key.OutKey? || l.key.InKey? {
        merged := merged[(l.key.month, l.key.currency) := WithSide(merged, l)];
      }
    }
    assert rows[..|rows|] == rows;
    SameTally(merged, rows, lines);
    out := InOrder(merged, lines);
  }

  /** Every month and currency that crossed has its row, with both sides so far. */
  ghost predicate Tallied(merged: map<(Time, Id), TransferRow>, lines: seq<Line>) {
    && (forall k :: k in merged <==> Crossed(lines, k.0, k.1))
    && (forall k :: k in merged ==> merged[k].month == k.0 && merged[k].currency == k.1 && BothSides(merged[k], lines))
  }

  function WithSide(merged: map<(Time, Id), TransferRow>, l: Line): TransferRow
    requires l.key.OutKey? || l.key.InKey?
  {
    var k := (l.key.month, l.key.currency);
    var r := if k in merged then merged[k] else TransferRow(k.0, k.1, 0, 0);
    if l.key.OutKey? then r.(outgoing := r.outgoing + l.amount) else r.(incoming := r.incoming + l.amount)
  }

  lemma NothingTallied()
    ensures Tallied(map[], [])
  {
  }

  lemma SideAdded(merged: map<(Time, Id), TransferRow>, lines: seq<Line>, l: Line)
    requires Tallied(merged, lines)
    ensures Tallied(if l.key.OutKey? || l.key.InKey? then merged[(l.key.month, l.key.currency) := WithSide(merged, l)]
                    else merged, lines + [l])
  {
    hide Sum, HasKey;
    LogGrows(lines, l);
    NotCrossed(lines);
    var after := if l.key.OutKey? || l.key.InKey? then merged[(l.key.month, l.key.currency) := WithSide(merged, l)]
                 else merged;
    forall k: (Time, Id) ensures Crossed(lines + [l], k.0, k.1) <==>
      Crossed(lines, k.0, k.1) || l.key == OutKey(k.0, k.1) || l.key == InKey(k.0, k.1) {
    }
    forall k | k in after ensures after[k].month == k.0 && after[k].currency == k.1
           && BothSides(after[k], lines + [l]) {
      assert !(k in merged) ==> !Crossed(lines, k.0, k.1);
    }
  }

  lemma SameTally(merged: map<(Time, Id), TransferRow>, rows: seq<Line>, lines: seq<Line>)
    requires Tallied(merged, rows) && Represents(rows, lines)
    ensures Tallied(merged, lines)
  {
    SameCrossings(rows, lines);
    hide Sum, HasKey, Represents;
    forall k | k in merged ensures BothSides(merged[k], lines) {
      assert BothSides(merged[k], rows);
    }
    hide BothSides;
  }

  lemma NotCrossed(lines: seq<Line>)
    ensures forall m: Time, c: Id {:trigger Crossed(lines, m, c)} ::
      !Crossed(lines, m, c) ==> Sum(lines, Is(OutKey(m, c))) == 0 && Sum(lines, Is(InKey(m, c))) == 0
  {
    forall m: Time, c: Id {:trigger Crossed(lines, m, c)} | !Crossed(lines, m, c)
      ensures Sum(lines, Is(OutKey(m, c))) == 0 && Sum(lines, Is(InKey(m, c))) == 0
    {
      NoSum(lines, OutKey(m, c));
      NoSum(lines, InKey(m, c));
    }
  }

  lemma SameCrossings(rows: seq<Line>, lines: seq<Line>)
    requires Represents(rows, lines)
    ensures forall m: Time, c: Id {:trigger Crossed(rows, m, c)} :: Crossed(rows, m, c) <==> Crossed(lines, m, c)
    ensures forall k {:trigger Sum(rows, Is(k))} :: Sum(rows, Is(k)) == Sum(lines, Is(k))
  {
    forall k {:trigger Sum(rows, Is(k))} ensures Sum(rows, Is(k)) == Sum(lines, Is(k)) {
      RowsSumKey(rows, lines, k);
    }
    hide Sum, HasKey;
  }

  /** The rows of a map, by month and then by currency. */
  method InOrder(merged: map<(Time, Id), TransferRow>, ghost lines: seq<Line>) returns (out: seq<TransferRow>)
    requires Tallied(merged, lines)
    ensures Joined(out, lines)
  {
    hide Crossed, BothSides, Joined;
    out := [];
    var rest := merged.Keys;
    while rest != {}
      invariant rest <= merged.Keys
      invariant forall i, j :: 0 <= i < j < |out| ==> TransferBefore(out[i], out[j])
      invariant forall i :: 0 <= i < |out| ==> Taken(merged, rest, out[i])
      invariant forall k :: k in merged && k !in rest ==> merged[k] in out
    {
      var k :| k in rest;
      rest := rest - {k};
      var r := merged[k];
      forall i | 0 <= i < |out| ensures TransferBefore(out[i], r) || TransferBefore(r, out[i]) {
        assert Taken(merged, rest + {k}, out[i]);
      }
      ghost var before := out;
      out := Placed(out, r);
      forall i | 0 <= i < |out| ensures Taken(merged, rest, out[i]) {
        assert out[i] in before || out[i] == r;
        if out[i] in before {
          var j :| 0 <= j < |before| && before[j] == out[i];
        }
      }
    }
    AllJoined(merged, out, lines);
  }

  /** The row goes before the first one it precedes. */
  method Placed(rows: seq<TransferRow>, r: TransferRow) returns (more: seq<TransferRow>)
    requires forall i, j :: 0 <= i < j < |rows| ==> TransferBefore(rows[i], rows[j])
    requires forall i :: 0 <= i < |rows| ==> TransferBefore(rows[i], r) || TransferBefore(r, rows[i])
    ensures forall i, j :: 0 <= i < j < |more| ==> TransferBefore(more[i], more[j])
    ensures forall x :: x in more <==> x in rows || x == r
  {
    var at := 0;
    while at < |rows| && TransferBefore(rows[at], r)
      invariant 0 <= at <= |rows| && forall i :: 0 <= i < at ==> TransferBefore(rows[i], r)
    {
      at := at + 1;
    }
    assert forall i :: at <= i < |rows| ==> TransferBefore(r, rows[i]);
    more := rows[..at] + [r] + rows[at..];
    assert rows == rows[..at] + rows[at..];
  }

  ghost predicate Taken(merged: map<(Time, Id), TransferRow>, rest: set<(Time, Id)>, r: TransferRow) {
    var k := (r.month, r.currency);
    k in merged && k !in rest && merged[k] == r
  }

  lemma AllJoined(merged: map<(Time, Id), TransferRow>, out: seq<TransferRow>, lines: seq<Line>)
    requires Tallied(merged, lines)
    requires forall i, j :: 0 <= i < j < |out| ==> TransferBefore(out[i], out[j])
    requires forall i :: 0 <= i < |out| ==> Taken(merged, {}, out[i])
    requires forall k :: k in merged ==> merged[k] in out
    ensures Joined(out, lines)
  {
    hide Crossed, BothSides;
    forall m: Time, c: Id {:trigger Crossed(lines, m, c)} | Crossed(lines, m, c)
      ensures exists i :: 0 <= i < |out| && out[i].month == m && out[i].currency == c
    {
      assert (m, c) in merged && merged[(m, c)] in out;
      var i :| 0 <= i < |out| && out[i] == merged[(m, c)];
    }
  }

  /** The balance change before a date of every account asked for that is known, zero where nothing moved. */
  method ReadBalances(entries: seq<Entry>, accounts: seq<Id>, known: set<Id>, date: Time) returns (rows: seq<Line>)
    ensures BalanceRows(rows, Filed(Balances(AccountSet(accounts)), entries, Before(date)), accounts, known)
  {
    var acc := AccountSet(accounts);
    hide PeriodOf;
    ghost var q, iv := Balances(acc), Before(date);
    var totals := new Sums();
    for i := 0 to |entries|
      invariant fresh(totals) && totals.Valid() && totals.log == Filed(q, entries[..i], iv)
    {
      FiledNext(q, entries, i, iv);
      var o := entries[i];
      ghost var before := totals.log;
      if !(o.at < date) {
        assert before + [] == before;
        continue;
      }
      if o.account in acc {
        totals.Add(BalanceKey(o.account), SignedOnSource(o));
      }
      if o.recipient.Some? && o.recipient.value in acc {
        totals.Add(BalanceKey(o.recipient.value), o.amountRecipient);
      }
      assert totals.log == before + Lines(q, o);
    }
    assert entries[..|entries|] == entries;
    rows := BalancesOf(totals, accounts, known);
  }

  /** The accounts that are known, in the order given. */
  ghost function Kept(accounts: seq<Id>, known: set<Id>): seq<Id> {
    if accounts == [] then []
    else
      var n := |accounts| - 1;
      Kept(accounts[..n], known) + if accounts[n] in known then [accounts[n]] else []
  }

  /** One row per known account asked for, in the order asked, with its total. */
  ghost predicate BalanceRows(rows: seq<Line>, lines: seq<Line>, accounts: seq<Id>, known: set<Id>) {
    && |rows| == |Kept(accounts, known)|
    && forall i :: 0 <= i < |rows| ==>
         rows[i] == Line(BalanceKey(Kept(accounts, known)[i]), Sum(lines, Is(BalanceKey(Kept(accounts, known)[i]))))
  }

  method BalancesOf(totals: Sums, accounts: seq<Id>, known: set<Id>) returns (rows: seq<Line>)
    requires totals.Valid()
    ensures BalanceRows(rows, totals.log, accounts, known)
  {
    rows := [];
    for i := 0 to |accounts|
      invariant BalanceRows(rows, totals.log, accounts[..i], known)
    {
      assert accounts[..i + 1][..i] == accounts[..i];
      if accounts[i] !in known {
        continue;
      }
      var k := BalanceKey(accounts[i]);
      var bal := 0;
      if k in totals.vals {
        bal := totals.vals[k];
      } else {
        NoSum(totals.log, k);
      }
      rows := rows + [Line(k, bal)];
    }
    assert accounts[..|accounts|] == accounts;
  }
}
