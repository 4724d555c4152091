/**
 * What a money read adds up. Every read files each entry of an interval under some keys with some amounts; its result
 * is the total per key. The stored reads and the projected ones follow the same filing rules.
 */
module MoneyLines {
  import opened Prelude
  import opened Calendar

  datatype Kind = Expense | Income | Transfer

  /** A transaction, stored or projected; `at` is when it counts. Only a transfer names a recipient. */
  datatype Entry = Entry(
    kind: Kind, account: Id, currency: Id, amount: int, category: Option<Id>, tag: Option<Id>, labels: seq<Id>,
    recipient: Option<Id>, recipientCurrency: Id, amountRecipient: int, at: Time)

  datatype Key =
    | SpendKey(spentIn: Option<Time>, category: Option<Id>, tag: Option<Id>, currency: Id)
    | LabelKey(tagLabel: Id, category: Option<Id>, currency: Id)
    | IncomeKey(month: Time, category: Option<Id>, currency: Id)
    | OutKey(month: Time, currency: Id)
    | InKey(month: Time, currency: Id)
    | NetKey(month: Time, account: Id)
    | BalanceKey(account: Id)

  datatype Line = Line(key: Key, amount: int)

  /** The reads and their parameters; a spending read by month carries the period start day. */
  datatype Query =
    | Spending(categories: set<Id>, accounts: set<Id>, byMonth: Option<int>)
    | LabelSpending(accounts: set<Id>)
    | IncomeByMonth(accounts: set<Id>, startDay: int)
    | TransfersByMonth(accounts: set<Id>, startDay: int)
    | AccountMonths(accounts: set<Id>, startDay: int, transfers: bool)
    | Balances(accounts: set<Id>)

  /** A half-open interval; a missing bound is open. */
  datatype Interval = Interval(from: Option<Time>, until: Option<Time>)

  function Between(start: Time, end: Time): Interval {
    Interval(Some(start), Some(end))
  }

  function Before(date: Time): Interval {
    Interval(None, Some(date))
  }

  predicate FiledIn(e: Entry, iv: Interval) {
    (iv.from.Some? ==> iv.from.value <= e.at) && (iv.until.Some? ==> e.at < iv.until.value)
  }

  /** An entry's effect on its source account. */
  function SignedOnSource(e: Entry): int {
    if e.kind == Income then e.amount else -e.amount
  }

  /** A transfer leaves the account set, or enters it, or neither. */
  predicate CrossesOut(e: Entry, accounts: set<Id>) {
    e.kind == Transfer && e.recipient.Some? && e.account in accounts && e.recipient.value !in accounts
  }

  predicate CrossesIn(e: Entry, accounts: set<Id>) {
    e.kind == Transfer && e.recipient.Some? && e.account !in accounts && e.recipient.value in accounts
  }

  function When(c: bool, l: Line): seq<Line> {
    if c then [l] else []
  }

  function LabelLines(e: Entry, labels: seq<Id>): seq<Line> {
    if labels == [] then []
    else
      LabelLines(e, labels[..|labels| - 1])
      + [Line(LabelKey(labels[|labels| - 1], e.category, e.currency), e.amount)]
  }

  /** The lines one entry adds to a read. */
  function Lines(q: Query, e: Entry): seq<Line> {
    match q
    case Spending(categories, accounts, byMonth) =>
      When(e.kind == Expense && e.account in accounts && (e.category.None? || e.category.value in categories),
           Line(SpendKey(if byMonth.Some? then Some(PeriodOf(e.at, byMonth.value)) else None, e.category, e.tag,
                         e.currency), e.amount))
    case LabelSpending(accounts) =>
      if e.kind == Expense && e.account in accounts then LabelLines(e, e.labels) else []
    case IncomeByMonth(accounts, startDay) =>
      When(e.kind == Income && e.account in accounts,
           Line(IncomeKey(PeriodOf(e.at, startDay), e.category, e.currency), e.amount))
    case TransfersByMonth(accounts, startDay) =>
      When(CrossesOut(e, accounts), Line(OutKey(PeriodOf(e.at, startDay), e.currency), e.amount))
      + When(CrossesIn(e, accounts), Line(InKey(PeriodOf(e.at, startDay), e.recipientCurrency), e.amountRecipient))
    case AccountMonths(accounts, startDay, transfers) =>
      if !transfers && e.kind == Transfer then []
      else
        When(e.account in accounts, Line(NetKey(PeriodOf(e.at, startDay), e.account), SignedOnSource(e)))
        + (if e.recipient.Some? then
             When(transfers && e.recipient.value in accounts,
                  Line(NetKey(PeriodOf(e.at, startDay), e.recipient.value), e.amountRecipient))
           else [])
    case Balances(accounts) =>
      When(e.account in accounts, Line(BalanceKey(e.account), SignedOnSource(e)))
      + (if e.recipient.Some? then When(e.recipient.value in accounts,
                                        Line(BalanceKey(e.recipient.value), e.amountRecipient)) else [])
  }

  /** The lines of every entry of an interval, in entry order. */
  ghost function Filed(q: Query, entries: seq<Entry>, iv: Interval): seq<Line> {
    if entries == [] then []
    else
      var n := |entries| - 1;
      Filed(q, entries[..n], iv) + if FiledIn(entries[n], iv) then Lines(q, entries[n]) else []
  }

  /** The total of the lines under the keys asked for. */
  ghost function Sum(lines: seq<Line>, p: Key -> bool): int {
    if lines == [] then 0
    else Sum(lines[..|lines| - 1], p) + if p(lines[|lines| - 1].key) then lines[|lines| - 1].amount else 0
  }

  ghost function Is(k: Key): Key -> bool {
    x => x == k
  }

  lemma {:induction false} SumConcat(a: seq<Line>, b: seq<Line>, p: Key -> bool)
    ensures Sum(a + b, p) == Sum(a, p) + Sum(b, p)
  {
    if b == [] {
      assert a + b == a;
    } else {
      var n := |b| - 1;
      assert (a + b)[..|a + b| - 1] == a + b[..n];
      SumConcat(a, b[..n], p);
    }
  }

  lemma {:induction false} SumNone(lines: seq<Line>, p: Key -> bool)
    requires forall l :: l in lines ==> !p(l.key)
    ensures Sum(lines, p) == 0
  {
    if lines != [] { SumNone(lines[..|lines| - 1], p); }
  }

  /** Two filters that agree on the lines' keys have the same sum. */
  lemma {:induction false} SumAgree(lines: seq<Line>, p: Key -> bool, r: Key -> bool)
    requires forall l :: l in lines ==> p(l.key) == r(l.key)
    ensures Sum(lines, p) == Sum(lines, r)
  {
    if lines != [] { SumAgree(lines[..|lines| - 1], p, r); }
  }

  ghost predicate HasKey(lines: seq<Line>, k: Key) {
    exists i :: 0 <= i < |lines| && lines[i].key == k
  }

  /** Rows stand for lines: one row per key that occurs, with the key's total. */
  ghost predicate Represents(rows: seq<Line>, lines: seq<Line>) {
    && (forall i, j :: 0 <= i < j < |rows| ==> rows[i].key != rows[j].key)
    && (forall k :: HasKey(rows, k) <==> HasKey(lines, k))
    && (forall i :: 0 <= i < |rows| ==> rows[i].amount == Sum(lines, Is(rows[i].key)))
  }

  lemma {:induction false} SumOneRow(rows: seq<Line>, i: int)
    requires 0 <= i < |rows| && forall j, m :: 0 <= j < m < |rows| ==> rows[j].key != rows[m].key
    ensures Sum(rows, Is(rows[i].key)) == rows[i].amount
  {
    var n := |rows| - 1;
    if i == n {
      SumNone(rows[..n], Is(rows[i].key));
    } else {
      SumOneRow(rows[..n], i);
      assert rows[n].key != rows[i].key;
    }
  }

  /** Rows that stand for lines have the same total under every key. */
  lemma RowsSumKey(rows: seq<Line>, lines: seq<Line>, k: Key)
    requires Represents(rows, lines)
    ensures Sum(rows, Is(k)) == Sum(lines, Is(k))
  {
    if HasKey(rows, k) {
      var i :| 0 <= i < |rows| && rows[i].key == k;
      SumOneRow(rows, i);
    } else {
      forall l | l in rows ensures l.key != k {
        var i :| 0 <= i < |rows| && rows[i] == l;
      }
      SumNone(rows, Is(k));
      forall l | l in lines ensures l.key != k {
        var i :| 0 <= i < |lines| && lines[i] == l;
      }
      SumNone(lines, Is(k));
    }
  }

  /** Rows agreeing with lines key by key agree on every group of keys. */
  lemma {:induction false} SumsAgree(a: seq<Line>, b: seq<Line>, p: Key -> bool)
    requires forall k :: Sum(a, Is(k)) == Sum(b, Is(k))
    ensures Sum(a, p) == Sum(b, p)
    decreases |a| + |b|
  {
    if a == [] && b == [] {
    } else {
      var k := if a != [] then a[0].key else b[0].key;
      DropKey(a, k, p);
      DropKey(b, k, p);
      var a', b' := Dropped(a, k), Dropped(b, k);
      forall x ensures Sum(a', Is(x)) == Sum(b', Is(x)) {
        DroppedKey(a, k, x);
        DroppedKey(b, k, x);
      }
      DroppedShorter(a, k);
      DroppedShorter(b, k);
      SumsAgree(a', b', p);
    }
  }

  ghost function Dropped(lines: seq<Line>, k: Key): seq<Line> {
    if lines == [] then []
    else Dropped(lines[..|lines| - 1], k) + if lines[|lines| - 1].key == k then [] else [lines[|lines| - 1]]
  }

  lemma {:induction false} DropKey(lines: seq<Line>, k: Key, p: Key -> bool)
    ensures Sum(lines, p) == Sum(Dropped(lines, k), p) + if p(k) then Sum(lines, Is(k)) else 0
  {
    if lines != [] {
      var n := |lines| - 1;
      DropKey(lines[..n], k, p);
      var d := Dropped(lines[..n], k);
      assert d + [] == d && (d + [lines[n]])[..|d|] == d;
    }
  }

  lemma {:induction false} DroppedKey(lines: seq<Line>, k: Key, x: Key)
    ensures Sum(Dropped(lines, k), Is(x)) == if x == k then 0 else Sum(lines, Is(x))
  {
    if lines != [] {
      var n := |lines| - 1;
      DroppedKey(lines[..n], k, x);
      var d := Dropped(lines[..n], k);
      assert d + [] == d && (d + [lines[n]])[..|d|] == d;
    }
  }

  lemma {:induction false} DroppedShorter(lines: seq<Line>, k: Key)
    ensures |Dropped(lines, k)| <= |lines|
    ensures lines != [] && lines[0].key == k ==> |Dropped(lines, k)| < |lines|
  {
    if lines != [] {
      DroppedShorter(lines[..|lines| - 1], k);
    }
  }

  /** Adding up a read's rows over any group of keys adds up the entries' lines over it. */
  lemma RowsSum(rows: seq<Line>, lines: seq<Line>, p: Key -> bool)
    requires Represents(rows, lines)
    ensures Sum(rows, p) == Sum(lines, p)
  {
    forall k ensures Sum(rows, Is(k)) == Sum(lines, Is(k)) {
      RowsSumKey(rows, lines, k);
    }
    SumsAgree(rows, lines, p);
  }
}
