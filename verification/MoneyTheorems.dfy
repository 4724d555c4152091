/** Conservation laws of the money reads: splitting in time, double entry, and drill-downs that refine their totals. */
module MoneyTheorems {
  import opened Prelude
  import opened Calendar
  import opened MoneyLines

  /** What one entry adds to a read's total under a group of keys. */
  ghost function Part(q: Query, e: Entry, p: Key -> bool): int {
    Sum(Lines(q, e), p)
  }

  ghost function FiledSum(q: Query, entries: seq<Entry>, iv: Interval, p: Key -> bool): int {
    Sum(Filed(q, entries, iv), p)
  }

  lemma FiledSumLast(q: Query, entries: seq<Entry>, iv: Interval, p: Key -> bool)
    requires entries != []
    ensures var n := |entries| - 1;
      FiledSum(q, entries, iv, p) == FiledSum(q, entries[..n], iv, p)
        + if FiledIn(entries[n], iv) then Part(q, entries[n], p) else 0
  {
    hide Lines;
    var n := |entries| - 1;
    SumConcat(Filed(q, entries[..n], iv), if FiledIn(entries[n], iv) then Lines(q, entries[n]) else [], p);
  }

  /** Every entry of one interval lies in exactly one of two others. */
  ghost predicate Splits(iv: Interval, a: Interval, b: Interval) {
    forall e :: (FiledIn(e, iv) <==> FiledIn(e, a) || FiledIn(e, b)) && !(FiledIn(e, a) && FiledIn(e, b))
  }

  lemma {:induction false} FiledSplit(q: Query, entries: seq<Entry>, iv: Interval, a: Interval, b: Interval,
                                      p: Key -> bool)
    requires Splits(iv, a, b)
    ensures FiledSum(q, entries, iv, p) == FiledSum(q, entries, a, p) + FiledSum(q, entries, b, p)
  {
    if entries != [] {
      FiledSplit(q, entries[..|entries| - 1], iv, a, b, p);
      FiledSumLast(q, entries, iv, p);
      FiledSumLast(q, entries, a, p);
      FiledSumLast(q, entries, b, p);
      hide Filed, FiledSum, FiledIn, Part;
      assert FiledIn(entries[|entries| - 1], iv) <==>
               FiledIn(entries[|entries| - 1], a) || FiledIn(entries[|entries| - 1], b);
    }
  }

  /** A window's bounds; a missing one is open. */
  datatype ReadWindow = ReadWindow(from: Option<Time>, until: Option<Time>)

  /** [start, end) narrowed to the window; None when nothing is left and the read is skipped. */
  function Clamp(w: ReadWindow, start: Time, end: Time): Option<(Time, Time)> {
    var s := if w.from.Some? && start < w.from.value then w.from.value else start;
    var e := if w.until.Some? && end > w.until.value then w.until.value else end;
    if s < e then Some((s, e)) else None
  }

  /** A read through a window: its total under some keys, zero when the read is skipped. */
  ghost function WindowSum(w: ReadWindow, q: Query, entries: seq<Entry>, start: Time, end: Time, p: Key -> bool): int {
    match Clamp(w, start, end)
    case Some((s, e)) => FiledSum(q, entries, Between(s, e), p)
    case None => 0
  }

  lemma {:induction false} NothingFiled(q: Query, entries: seq<Entry>, iv: Interval, p: Key -> bool)
    requires forall e :: !FiledIn(e, iv)
    ensures FiledSum(q, entries, iv, p) == 0
  {
    if entries != [] {
      NothingFiled(q, entries[..|entries| - 1], iv, p);
      FiledSumLast(q, entries, iv, p);
    }
  }

  lemma WindowIs(w: ReadWindow, q: Query, entries: seq<Entry>, start: Time, end: Time, p: Key -> bool)
    ensures var s := if w.from.Some? && start < w.from.value then w.from.value else start;
      var e := if w.until.Some? && end > w.until.value then w.until.value else end;
      WindowSum(w, q, entries, start, end, p) == FiledSum(q, entries, Between(s, e), p)
  {
    var s := if w.from.Some? && start < w.from.value then w.from.value else start;
    var e := if w.until.Some? && end > w.until.value then w.until.value else end;
    if s >= e {
      NothingFiled(q, entries, Between(s, e), p);
    }
  }

  /** Split at any instant, over any interval, for any read: what is dated before and what is dated from it on add up to
      the read with no window. */
  lemma SplitAnywhere(q: Query, entries: seq<Entry>, start: Time, end: Time, t: Time, p: Key -> bool)
    ensures WindowSum(ReadWindow(None, Some(t)), q, entries, start, end, p)
            + WindowSum(ReadWindow(Some(t), None), q, entries, start, end, p)
         == WindowSum(ReadWindow(None, None), q, entries, start, end, p)
  {
    WindowIs(ReadWindow(None, Some(t)), q, entries, start, end, p);
    WindowIs(ReadWindow(Some(t), None), q, entries, start, end, p);
    WindowIs(ReadWindow(None, None), q, entries, start, end, p);
    hide WindowSum, FiledSum, Filed;
    var a := Between(start, if end > t then t else end);
    var b := Between(if start < t then t else start, end);
    assert Splits(Between(start, end), a, b);
    FiledSplit(q, entries, Between(start, end), a, b, p);
  }

  /** A balance read through a window: clamped above by the upper bound, less what lies before the lower one. */
  ghost function WindowBalance(w: ReadWindow, accounts: set<Id>, entries: seq<Entry>, date: Time, account: Id): int {
    var d := if w.until.Some? && date > w.until.value then w.until.value else date;
    if w.from.None? then BalanceBefore(accounts, entries, d, account)
    else if d <= w.from.value then 0
    else BalanceBefore(accounts, entries, d, account) - BalanceBefore(accounts, entries, w.from.value, account)
  }

  ghost function BalanceBefore(accounts: set<Id>, entries: seq<Entry>, date: Time, account: Id): int {
    FiledSum(Balances(accounts), entries, Before(date), Is(BalanceKey(account)))
  }

  /** A windowed balance is the total of the entries dated inside the window, before the date. */
  lemma WindowBalanceMeans(w: ReadWindow, accounts: set<Id>, entries: seq<Entry>, date: Time, account: Id)
    ensures var d := if w.until.Some? && date > w.until.value then w.until.value else date;
      WindowBalance(w, accounts, entries, date, account)
        == FiledSum(Balances(accounts), entries, Interval(w.from, Some(d)), Is(BalanceKey(account)))
  {
    var d := if w.until.Some? && date > w.until.value then w.until.value else date;
    if w.from.Some? {
      if d <= w.from.value {
        NothingFiled(Balances(accounts), entries, Interval(w.from, Some(d)), Is(BalanceKey(account)));
      } else {
        assert Splits(Before(d), Before(w.from.value), Interval(w.from, Some(d)));
        FiledSplit(Balances(accounts), entries, Before(d), Before(w.from.value), Interval(w.from, Some(d)),
                   Is(BalanceKey(account)));
      }
    }
  }

  lemma BalanceSplitAnywhere(accounts: set<Id>, entries: seq<Entry>, date: Time, t: Time, account: Id)
    ensures WindowBalance(ReadWindow(None, Some(t)), accounts, entries, date, account)
          + WindowBalance(ReadWindow(Some(t), None), accounts, entries, date, account)
         == WindowBalance(ReadWindow(None, None), accounts, entries, date, account)
  {
    hide FiledSum, Filed;
  }

  /** What one entry does to an account's balance: an income adds, an expense and an outgoing transfer take, an incoming
      transfer adds what arrives. */
  function Effect(e: Entry, account: Id): int {
    (if e.account != account then 0 else if e.kind == Income then e.amount else -e.amount)
    + (if e.recipient == Some(account) then e.amountRecipient else 0)
  }

  ghost function Effects(entries: seq<Entry>, date: Time, account: Id): int {
    if entries == [] then 0
    else
      var e := entries[|entries| - 1];
      Effects(entries[..|entries| - 1], date, account) + if e.at < date then Effect(e, account) else 0
  }

  /** The balance of an account asked for is what the entries before the date did to it, whatever else is asked for. */
  lemma {:induction false} BalanceIsEffects(accounts: set<Id>, entries: seq<Entry>, date: Time, account: Id)
    requires account in accounts
    ensures BalanceBefore(accounts, entries, date, account) == Effects(entries, date, account)
  {
    if entries != [] {
      var n := |entries| - 1;
      BalanceIsEffects(accounts, entries[..n], date, account);
      FiledSumLast(Balances(accounts), entries, Before(date), Is(BalanceKey(account)));
      BalancePart(accounts, entries[n], Is(BalanceKey(account)));
      hide FiledSum, Part;
    }
  }

  ghost function LabelTotal(entries: seq<Entry>, start: Time, end: Time, accounts: set<Id>, mark: Id,
                            category: Option<Id>, currency: Id): int
  {
    if entries == [] then 0
    else
      var e := entries[|entries| - 1];
      LabelTotal(entries[..|entries| - 1], start, end, accounts, mark, category, currency)
      + if start <= e.at < end && e.kind == Expense && e.account in accounts && e.category == category
           && e.currency == currency then multiset(e.labels)[mark] * e.amount
        else 0
  }

  lemma {:induction false} LabelPart(e: Entry, labels: seq<Id>, mark: Id, category: Option<Id>, currency: Id)
    ensures Sum(LabelLines(e, labels), Is(LabelKey(mark, category, currency)))
         == if e.category == category && e.currency == currency then multiset(labels)[mark] * e.amount else 0
  {
    if labels != [] {
      var n := |labels| - 1;
      LabelPart(e, labels[..n], mark, category, currency);
      var last := Line(LabelKey(labels[n], e.category, e.currency), e.amount);
      SumConcat(LabelLines(e, labels[..n]), [last], Is(LabelKey(mark, category, currency)));
      CountLast(labels, mark, e.amount);
      hide LabelLines;
      assert [last][..0] == [];
    }
  }

  lemma CountLast(labels: seq<Id>, mark: Id, amount: int)
    requires labels != []
    ensures var n := |labels| - 1;
      multiset(labels)[mark] * amount == multiset(labels[..n])[mark] * amount + if labels[n] == mark then amount else 0
  {
    var n := |labels| - 1;
    assert labels == labels[..n] + [labels[n]];
    var k := multiset(labels[..n])[mark];
    assert multiset(labels)[mark] == k + if labels[n] == mark then 1 else 0;
    assert (k + 1) * amount == k * amount + amount;
  }

  /** An expense counts in full under each of its labels: a label's total is that of the expenses that carry it. */
  lemma {:induction false} LabelsCountInFull(entries: seq<Entry>, start: Time, end: Time, accounts: set<Id>,
                                             mark: Id, category: Option<Id>, currency: Id)
    ensures FiledSum(LabelSpending(accounts), entries, Between(start, end), Is(LabelKey(mark, category, currency)))
         == LabelTotal(entries, start, end, accounts, mark, category, currency)
  {
    if entries != [] {
      var n := |entries| - 1;
      LabelsCountInFull(entries[..n], start, end, accounts, mark, category, currency);
      FiledSumLast(LabelSpending(accounts), entries, Between(start, end), Is(LabelKey(mark, category, currency)));
      LabelPart(entries[n], entries[n].labels, mark, category, currency);
      hide FiledSum, LabelLines;
    }
  }

  /** What a transfer's recipient means: nothing but a transfer has one. */
  ghost predicate WellFormed(e: Entry) {
    e.recipient.Some? ==> e.kind == Transfer
  }

  ghost function SpentIn(m: Time): Key -> bool { (k: Key) => k.SpendKey? && k.spentIn == Some(m) }
  ghost function EarnedIn(m: Time): Key -> bool { (k: Key) => k.IncomeKey? && k.month == m }
  ghost function OutIn(m: Time): Key -> bool { (k: Key) => k.OutKey? && k.month == m }
  ghost function InIn(m: Time): Key -> bool { (k: Key) => k.InKey? && k.month == m }
  ghost function NetIn(m: Time): Key -> bool { (k: Key) => k.NetKey? && k.month == m }

  /**
   * What the reports other than the net leave out of an entry: an expense in a category outside the set, a transfer
   * with no recipient, and what a transfer inside the account set loses or gains on the way.
   */
  function Drift(e: Entry, accounts: set<Id>, categories: set<Id>): int {
    if e.kind == Expense then
      if e.account in accounts && e.category.Some? && e.category.value !in categories then -e.amount else 0
    else if e.kind == Transfer && e.account in accounts then
      if e.recipient.None? then -e.amount
      else if e.recipient.value in accounts then e.amountRecipient - e.amount
      else 0
    else 0
  }

  ghost function DriftIn(entries: seq<Entry>, iv: Interval, accounts: set<Id>, categories: set<Id>, m: Time,
                         startDay: int): int
  {
    if entries == [] then 0
    else
      var e := entries[|entries| - 1];
      DriftIn(entries[..|entries| - 1], iv, accounts, categories, m, startDay)
      + if FiledIn(e, iv) && PeriodOf(e.at, startDay) == m then Drift(e, accounts, categories) else 0
  }

  lemma WhenSum(c: bool, l: Line, p: Key -> bool)
    ensures Sum(When(c, l), p) == if c && p(l.key) then l.amount else 0
  {
    assert [l][..0] == [];
  }

  lemma TwoSum(c: bool, l: Line, d: bool, r: Line, p: Key -> bool)
    ensures Sum(When(c, l) + When(d, r), p) == (if c && p(l.key) then l.amount else 0)
            + (if d && p(r.key) then r.amount else 0)
  {
    SumConcat(When(c, l), When(d, r), p);
    WhenSum(c, l, p);
    WhenSum(d, r, p);
  }

  lemma SpendingPart(categories: set<Id>, accounts: set<Id>, byMonth: Option<int>, e: Entry, p: Key -> bool)
    ensures Part(Spending(categories, accounts, byMonth), e, p) ==
      if e.kind == Expense && e.account in accounts && (e.category.None? || e.category.value in categories)
         && p(SpendKey(if byMonth.Some? then Some(PeriodOf(e.at, byMonth.value)) else None, e.category, e.tag,
                       e.currency))
      then e.amount else 0
  {
    hide PeriodOf, Sum;
    WhenSum(e.kind == Expense && e.account in accounts && (e.category.None? || e.category.value in categories),
            Line(SpendKey(if byMonth.Some? then Some(PeriodOf(e.at, byMonth.value)) else None, e.category, e.tag,
                          e.currency), e.amount), p);
  }

  lemma IncomePart(accounts: set<Id>, startDay: int, e: Entry, p: Key -> bool)
    ensures Part(IncomeByMonth(accounts, startDay), e, p) ==
      if e.kind == Income && e.account in accounts
         && p(IncomeKey(PeriodOf(e.at, startDay), e.category, e.currency)) then e.amount else 0
  {
    hide PeriodOf, Sum;
    WhenSum(e.kind == Income && e.account in accounts,
            Line(IncomeKey(PeriodOf(e.at, startDay), e.category, e.currency), e.amount), p);
  }

  lemma TransferPart(accounts: set<Id>, startDay: int, e: Entry, p: Key -> bool)
    ensures Part(TransfersByMonth(accounts, startDay), e, p) ==
      (if CrossesOut(e, accounts) && p(OutKey(PeriodOf(e.at, startDay), e.currency)) then e.amount else 0)
      + (if CrossesIn(e, accounts) && p(InKey(PeriodOf(e.at, startDay), e.recipientCurrency)) then e.amountRecipient
         else 0)
  {
    hide PeriodOf, Sum;
    TwoSum(CrossesOut(e, accounts), Line(OutKey(PeriodOf(e.at, startDay), e.currency), e.amount),
           CrossesIn(e, accounts), Line(InKey(PeriodOf(e.at, startDay), e.recipientCurrency), e.amountRecipient), p);
  }

  lemma NetPart(accounts: set<Id>, startDay: int, e: Entry, p: Key -> bool)
    ensures Part(AccountMonths(accounts, startDay, true), e, p) ==
      (if e.account in accounts && p(NetKey(PeriodOf(e.at, startDay), e.account)) then SignedOnSource(e) else 0)
      + (if e.recipient.Some? && e.recipient.value in accounts
         && p(NetKey(PeriodOf(e.at, startDay), e.recipient.value)) then e.amountRecipient else 0)
  {
    hide PeriodOf, Sum;
    var l := Line(NetKey(PeriodOf(e.at, startDay), e.account), SignedOnSource(e));
    if e.recipient.Some? {
      TwoSum(e.account in accounts, l, e.recipient.value in accounts,
             Line(NetKey(PeriodOf(e.at, startDay), e.recipient.value), e.amountRecipient), p);
    } else {
      WhenSum(e.account in accounts, l, p);
      assert When(e.account in accounts, l) + [] == When(e.account in accounts, l);
    }
  }

  lemma BalancePart(accounts: set<Id>, e: Entry, p: Key -> bool)
    ensures Part(Balances(accounts), e, p) ==
      (if e.account in accounts && p(BalanceKey(e.account)) then SignedOnSource(e) else 0)
      + (if e.recipient.Some? && e.recipient.value in accounts
         && p(BalanceKey(e.recipient.value)) then e.amountRecipient else 0)
  {
    hide Sum;
    var l := Line(BalanceKey(e.account), SignedOnSource(e));
    if e.recipient.Some? {
      TwoSum(e.account in accounts, l, e.recipient.value in accounts,
             Line(BalanceKey(e.recipient.value), e.amountRecipient), p);
    } else {
      WhenSum(e.account in accounts, l, p);
      assert When(e.account in accounts, l) + [] == When(e.account in accounts, l);
    }
  }

  lemma DoubleEntryPart(e: Entry, accounts: set<Id>, categories: set<Id>, m: Time, startDay: int)
    requires WellFormed(e)
    ensures Part(AccountMonths(accounts, startDay, true), e, NetIn(m)) ==
      Part(IncomeByMonth(accounts, startDay), e, EarnedIn(m))
        - Part(Spending(categories, accounts, Some(startDay)), e, SpentIn(m))
      + Part(TransfersByMonth(accounts, startDay), e, InIn(m)) - Part(TransfersByMonth(accounts, startDay), e, OutIn(m))
      + if PeriodOf(e.at, startDay) == m then Drift(e, accounts, categories) else 0
  {
    NetPart(accounts, startDay, e, NetIn(m));
    IncomePart(accounts, startDay, e, EarnedIn(m));
    SpendingPart(categories, accounts, Some(startDay), e, SpentIn(m));
    TransferPart(accounts, startDay, e, InIn(m));
    TransferPart(accounts, startDay, e, OutIn(m));
    hide PeriodOf, Part;
  }

  /**
   * Double entry, month by month: what the accounts netted is income less expenses, plus transfers in less transfers
   * out, plus exactly what those reports leave out.
   */
  lemma {:induction false} DoubleEntry(entries: seq<Entry>, iv: Interval, accounts: set<Id>, categories: set<Id>,
                                       m: Time, startDay: int)
    requires forall e :: e in entries ==> WellFormed(e)
    ensures FiledSum(AccountMonths(accounts, startDay, true), entries, iv, NetIn(m)) ==
      FiledSum(IncomeByMonth(accounts, startDay), entries, iv, EarnedIn(m))
      - FiledSum(Spending(categories, accounts, Some(startDay)), entries, iv, SpentIn(m))
      + FiledSum(TransfersByMonth(accounts, startDay), entries, iv, InIn(m))
      - FiledSum(TransfersByMonth(accounts, startDay), entries, iv, OutIn(m))
      + DriftIn(entries, iv, accounts, categories, m, startDay)
  {
    if entries != [] {
      var n := |entries| - 1;
      DoubleEntry(entries[..n], iv, accounts, categories, m, startDay);
      FiledSumLast(AccountMonths(accounts, startDay, true), entries, iv, NetIn(m));
      FiledSumLast(IncomeByMonth(accounts, startDay), entries, iv, EarnedIn(m));
      FiledSumLast(Spending(categories, accounts, Some(startDay)), entries, iv, SpentIn(m));
      FiledSumLast(TransfersByMonth(accounts, startDay), entries, iv, InIn(m));
      FiledSumLast(TransfersByMonth(accounts, startDay), entries, iv, OutIn(m));
      DoubleEntryPart(entries[n], accounts, categories, m, startDay);
      hide FiledSum, Filed, Part, PeriodOf, Drift, FiledIn;
    }
  }

  /** Nothing is left out: every category is in the set, every transfer names a recipient, and transfers between the
      accounts arrive whole. */
  ghost predicate Complete(e: Entry, accounts: set<Id>, categories: set<Id>) {
    && WellFormed(e)
    && (e.kind == Expense && e.category.Some? ==> e.category.value in categories)
    && (e.kind == Transfer ==> e.recipient.Some?)
    && (e.kind == Transfer && e.account in accounts && e.recipient.Some? && e.recipient.value in accounts ==>
          e.amountRecipient == e.amount)
  }

  lemma {:induction false} NoDrift(entries: seq<Entry>, iv: Interval, accounts: set<Id>, categories: set<Id>, m: Time,
                                   startDay: int)
    requires forall e :: e in entries ==> Complete(e, accounts, categories)
    ensures DriftIn(entries, iv, accounts, categories, m, startDay) == 0
  {
    if entries != [] {
      NoDrift(entries[..|entries| - 1], iv, accounts, categories, m, startDay);
      assert Complete(entries[|entries| - 1], accounts, categories);
      hide PeriodOf;
    }
  }

  lemma DoubleEntryExact(entries: seq<Entry>, iv: Interval, accounts: set<Id>, categories: set<Id>, m: Time,
                         startDay: int)
    requires forall e :: e in entries ==> Complete(e, accounts, categories)
    ensures FiledSum(AccountMonths(accounts, startDay, true), entries, iv, NetIn(m)) ==
      FiledSum(IncomeByMonth(accounts, startDay), entries, iv, EarnedIn(m))
      - FiledSum(Spending(categories, accounts, Some(startDay)), entries, iv, SpentIn(m))
      + FiledSum(TransfersByMonth(accounts, startDay), entries, iv, InIn(m))
      - FiledSum(TransfersByMonth(accounts, startDay), entries, iv, OutIn(m))
  {
    DoubleEntry(entries, iv, accounts, categories, m, startDay);
    NoDrift(entries, iv, accounts, categories, m, startDay);
    hide FiledSum;
  }

  ghost function NetOf(account: Id): Key -> bool { (k: Key) => k.NetKey? && k.account == account }

  /** Per account, over any interval and all its months: the nets are the balance difference. */
  lemma {:induction false} NetsAreBalances(entries: seq<Entry>, iv: Interval, accounts: set<Id>, startDay: int,
                                           account: Id)
    ensures FiledSum(AccountMonths(accounts, startDay, true), entries, iv, NetOf(account))
         == FiledSum(Balances(accounts), entries, iv, Is(BalanceKey(account)))
  {
    if entries != [] {
      var n := |entries| - 1;
      NetsAreBalances(entries[..n], iv, accounts, startDay, account);
      FiledSumLast(AccountMonths(accounts, startDay, true), entries, iv, NetOf(account));
      FiledSumLast(Balances(accounts), entries, iv, Is(BalanceKey(account)));
      NetPart(accounts, startDay, entries[n], NetOf(account));
      BalancePart(accounts, entries[n], Is(BalanceKey(account)));
      hide FiledSum, Filed, Part, PeriodOf, FiledIn;
    }
  }

  lemma NetsAreBalanceDifference(entries: seq<Entry>, from: Time, to: Time, accounts: set<Id>, startDay: int,
                                 account: Id)
    requires from <= to
    ensures FiledSum(AccountMonths(accounts, startDay, true), entries, Between(from, to), NetOf(account))
         == BalanceBefore(accounts, entries, to, account) - BalanceBefore(accounts, entries, from, account)
  {
    NetsAreBalances(entries, Between(from, to), accounts, startDay, account);
    assert Splits(Before(to), Before(from), Between(from, to));
    FiledSplit(Balances(accounts), entries, Before(to), Before(from), Between(from, to), Is(BalanceKey(account)));
  }

  /** The month bucket of a by-month spending read is the plain spending read over the month's own window. */
  lemma {:induction false} MonthBucketIsWindow(entries: seq<Entry>, iv: Interval, categories: set<Id>,
                                               accounts: set<Id>, startDay: int,
                                               m: Time, category: Option<Id>, tag: Option<Id>, currency: Id)
    requires m == FirstOfMonth(m)
    ensures FiledSum(Spending(categories, accounts, Some(startDay)), entries, iv,
                     Is(SpendKey(Some(m), category, tag, currency)))
         == FiledSum(Spending(categories, accounts, None), entries, Within(iv, PeriodWindow(m, startDay)),
                     Is(SpendKey(None, category, tag, currency)))
  {
    if entries != [] {
      var n := |entries| - 1;
      var whole, month := Spending(categories, accounts, Some(startDay)), Spending(categories, accounts, None);
      var a, b := Is(SpendKey(Some(m), category, tag, currency)), Is(SpendKey(None, category, tag, currency));
      MonthBucketIsWindow(entries[..n], iv, categories, accounts, startDay, m, category, tag, currency);
      FiledSumLast(whole, entries, iv, a);
      FiledSumLast(month, entries, Within(iv, PeriodWindow(m, startDay)), b);
      SpendingPart(categories, accounts, Some(startDay), entries[n], a);
      SpendingPart(categories, accounts, None, entries[n], b);
      WithinMonth(entries[n], iv, m, startDay);
      hide FiledSum, Filed, Part, PeriodOf, PeriodWindow, FiledIn, Within, FirstOfMonth;
    }
  }

  /** The part of an interval inside a period's window. */
  function Within(iv: Interval, w: Calendar.Window): Interval {
    Interval(Some(if iv.from.Some? && iv.from.value > w.start then iv.from.value else w.start),
             Some(if iv.until.Some? && iv.until.value < w.end then iv.until.value else w.end))
  }

  lemma WithinMonth(e: Entry, iv: Interval, m: Time, startDay: int)
    requires m == FirstOfMonth(m)
    ensures FiledIn(e, Within(iv, PeriodWindow(m, startDay))) <==> FiledIn(e, iv) && PeriodOf(e.at, startDay) == m
  {
    PeriodOfIffInWindow(e.at, m, startDay);
    hide PeriodOf, PeriodWindow, FirstOfMonth;
  }

  datatype Direction = Incoming | Outgoing

  /** A row of a transaction list; expenses are listed without a direction. */
  datatype Listed = Listed(amount: int, currency: Id, direction: Option<Direction>)

  /** The entries of an interval that a list picks, as it shows them. */
  ghost function Picked(entries: seq<Entry>, iv: Interval, pick: Entry -> Option<Listed>): seq<Listed> {
    if entries == [] then []
    else
      var e := entries[|entries| - 1];
      Picked(entries[..|entries| - 1], iv, pick) + if FiledIn(e, iv) && pick(e).Some? then [pick(e).value] else []
  }

  /** The amounts of a list that count, as they count. */
  ghost function ListSum(rows: seq<Listed>, worth: Listed -> int): int {
    if rows == [] then 0 else ListSum(rows[..|rows| - 1], worth) + worth(rows[|rows| - 1])
  }

  ghost function PickedSum(entries: seq<Entry>, iv: Interval, pick: Entry -> Option<Listed>, worth: Listed -> int): int
  {
    ListSum(Picked(entries, iv, pick), worth)
  }

  lemma PickedSumLast(entries: seq<Entry>, iv: Interval, pick: Entry -> Option<Listed>, worth: Listed -> int)
    requires entries != []
    ensures var e := entries[|entries| - 1];
      PickedSum(entries, iv, pick, worth) == PickedSum(entries[..|entries| - 1], iv, pick, worth)
        + if FiledIn(e, iv) && pick(e).Some? then worth(pick(e).value) else 0
  {
    var e, before := entries[|entries| - 1], Picked(entries[..|entries| - 1], iv, pick);
    if FiledIn(e, iv) && pick(e).Some? {
      assert (before + [pick(e).value])[..|before|] == before;
    } else {
      assert before + [] == before;
    }
  }

  /** A list and a read agree when they do on every entry. */
  lemma {:induction false} ListIsRead(entries: seq<Entry>, iv: Interval, pick: Entry -> Option<Listed>,
                                      worth: Listed -> int, q: Query, p: Key -> bool)
    requires forall e :: e in entries ==> Part(q, e, p) == if pick(e).Some? then worth(pick(e).value) else 0
    ensures PickedSum(entries, iv, pick, worth) == FiledSum(q, entries, iv, p)
  {
    if entries != [] {
      ListIsRead(entries[..|entries| - 1], iv, pick, worth, q, p);
      PickedSumLast(entries, iv, pick, worth);
      FiledSumLast(q, entries, iv, p);
      hide PickedSum, Picked, FiledSum, Filed, FiledIn, Part;
    }
  }

  ghost function InCurrency(currency: Id): Listed -> int {
    (r: Listed) => if r.currency == currency then r.amount else 0
  }

  ghost function Toward(direction: Direction, currency: Id): Listed -> int {
    (r: Listed) => if r.direction == Some(direction) && r.currency == currency then r.amount else 0
  }

  /** What a list row does to the balance it is listed for. */
  ghost function Signed(): Listed -> int {
    (r: Listed) => if r.direction == Some(Outgoing) then -r.amount else r.amount
  }

  predicate ExpenseOn(e: Entry, accounts: set<Id>) {
    e.kind == Expense && e.account in accounts
  }

  function Plain(e: Entry): Listed {
    Listed(e.amount, e.currency, None)
  }

  /** The untagged expenses of the categories. */
  function ByCategories(categories: set<Id>, accounts: set<Id>): Entry -> Option<Listed> {
    (e: Entry) => if ExpenseOn(e, accounts) && e.tag.None? && e.category.Some?
      && e.category.value in categories then Some(Plain(e)) else None
  }

  /** The tag's expenses: of one category, of none, or all. */
  function ByTag(tag: Id, category: Option<Id>, uncategorized: bool, accounts: set<Id>): Entry -> Option<Listed> {
    (e: Entry) => if ExpenseOn(e, accounts) && e.tag == Some(tag)
              && (if category.Some? then e.category == category else uncategorized ==> e.category.None?)
         then Some(Plain(e)) else None
  }

  function Uncategorized(accounts: set<Id>): Entry -> Option<Listed> {
    (e: Entry) => if ExpenseOn(e, accounts) && e.category.None? && e.tag.None? then Some(Plain(e)) else None
  }

  /** The list a spending cell drills down to. */
  function DrillDown(category: Option<Id>, tag: Option<Id>, accounts: set<Id>): Entry -> Option<Listed> {
    match (category, tag)
    case (Some(c), None) => ByCategories({c}, accounts)
    case (_, Some(t)) => ByTag(t, category, category.None?, accounts)
    case (None, None) => Uncategorized(accounts)
  }

  /** Every cell of the spending read is the sum of the one list it drills down to, in its currency. */
  lemma SpendingDrillsDown(entries: seq<Entry>, iv: Interval, categories: set<Id>, accounts: set<Id>,
                           category: Option<Id>, tag: Option<Id>, currency: Id)
    requires category.Some? ==> category.value in categories
    ensures FiledSum(Spending(categories, accounts, None), entries, iv, Is(SpendKey(None, category, tag, currency)))
         == PickedSum(entries, iv, DrillDown(category, tag, accounts), InCurrency(currency))
  {
    var q, p := Spending(categories, accounts, None), Is(SpendKey(None, category, tag, currency));
    var pick, worth := DrillDown(category, tag, accounts), InCurrency(currency);
    forall e | e in entries
      ensures Part(q, e, p) == if pick(e).Some? then worth(pick(e).value) else 0
    {
      SpendingPart(categories, accounts, None, e, p);
      hide Part;
    }
    ListIsRead(entries, iv, pick, worth, q, p);
  }

  function IncomeOn(e: Entry, accounts: set<Id>): Option<Listed> {
    if e.kind == Income && e.account in accounts then Some(Listed(e.amount, e.currency, Some(Incoming))) else None
  }

  /** Income in the given categories. */
  function IncomeOf(categories: set<Id>, accounts: set<Id>): Entry -> Option<Listed> {
    (e: Entry) => if e.category.Some? && e.category.value in categories then IncomeOn(e, accounts) else None
  }

  /** Income in no known category. */
  function IncomeOutside(known: set<Id>, accounts: set<Id>): Entry -> Option<Listed> {
    (e: Entry) => if e.category.Some? && e.category.value in known then None else IncomeOn(e, accounts)
  }

  ghost function EarnedAs(currency: Id): Key -> bool { (k: Key) => k.IncomeKey? && k.currency == currency }

  /** Every income entry on the accounts is in exactly one of the two income lists. */
  lemma IncomeListsPartition(e: Entry, known: set<Id>, accounts: set<Id>)
    ensures IncomeOn(e, accounts).Some? <==>
              (IncomeOf(known, accounts)(e).Some? <==> IncomeOutside(known, accounts)(e).None?)
    ensures !(IncomeOf(known, accounts)(e).Some? && IncomeOutside(known, accounts)(e).Some?)
    ensures IncomeOf(known, accounts)(e).Some? ==> IncomeOf(known, accounts)(e) == IncomeOn(e, accounts)
    ensures IncomeOutside(known, accounts)(e).Some? ==> IncomeOutside(known, accounts)(e) == IncomeOn(e, accounts)
  {
  }

  lemma {:induction false} IncomeListsCover(entries: seq<Entry>, iv: Interval, known: set<Id>, accounts: set<Id>,
                                            startDay: int, currency: Id)
    ensures PickedSum(entries, iv, IncomeOf(known, accounts), InCurrency(currency))
          + PickedSum(entries, iv, IncomeOutside(known, accounts), InCurrency(currency))
         == FiledSum(IncomeByMonth(accounts, startDay), entries, iv, EarnedAs(currency))
  {
    if entries != [] {
      var n := |entries| - 1;
      IncomeListsCover(entries[..n], iv, known, accounts, startDay, currency);
      PickedSumLast(entries, iv, IncomeOf(known, accounts), InCurrency(currency));
      PickedSumLast(entries, iv, IncomeOutside(known, accounts), InCurrency(currency));
      FiledSumLast(IncomeByMonth(accounts, startDay), entries, iv, EarnedAs(currency));
      IncomePart(accounts, startDay, entries[n], EarnedAs(currency));
      IncomeListsPartition(entries[n], known, accounts);
      hide IncomeOf, IncomeOutside, PickedSum, Picked, FiledSum, Filed, FiledIn, Part, PeriodOf;
    }
  }

  /** The transfers that cross the account set, each from the included side. */
  function Crossings(accounts: set<Id>): Entry -> Option<Listed> {
    (e: Entry) => if CrossesOut(e, accounts) then Some(Listed(e.amount, e.currency, Some(Outgoing)))
         else if CrossesIn(e, accounts) then Some(Listed(e.amountRecipient, e.recipientCurrency, Some(Incoming)))
         else None
  }

  ghost function OutAs(currency: Id): Key -> bool { (k: Key) => k.OutKey? && k.currency == currency }
  ghost function InAs(currency: Id): Key -> bool { (k: Key) => k.InKey? && k.currency == currency }

  lemma TransfersDrillDown(entries: seq<Entry>, iv: Interval, accounts: set<Id>, startDay: int, currency: Id)
    ensures FiledSum(TransfersByMonth(accounts, startDay), entries, iv, OutAs(currency))
         == PickedSum(entries, iv, Crossings(accounts), Toward(Outgoing, currency))
    ensures FiledSum(TransfersByMonth(accounts, startDay), entries, iv, InAs(currency))
         == PickedSum(entries, iv, Crossings(accounts), Toward(Incoming, currency))
  {
    var q := TransfersByMonth(accounts, startDay);
    forall e | e in entries
      ensures Part(q, e, OutAs(currency)) ==
        if Crossings(accounts)(e).Some? then Toward(Outgoing, currency)(Crossings(accounts)(e).value) else 0
      ensures Part(q, e, InAs(currency)) ==
        if Crossings(accounts)(e).Some? then Toward(Incoming, currency)(Crossings(accounts)(e).value) else 0
    {
      TransferPart(accounts, startDay, e, OutAs(currency));
      TransferPart(accounts, startDay, e, InAs(currency));
      hide Part, PeriodOf;
    }
    ListIsRead(entries, iv, Crossings(accounts), Toward(Outgoing, currency), q, OutAs(currency));
    ListIsRead(entries, iv, Crossings(accounts), Toward(Incoming, currency), q, InAs(currency));
  }

  /** Everything that moved on one account: as its source first, as a transfer's recipient otherwise. */
  function OnAccount(account: Id): Entry -> Option<Listed> {
    (e: Entry) => if e.account == account then
           Some(Listed(e.amount, e.currency, Some(if e.kind == Income then Incoming else Outgoing)))
         else if e.kind == Transfer && e.recipient == Some(account) then
           Some(Listed(e.amountRecipient, e.recipientCurrency, Some(Incoming)))
         else None
  }

  /** What transfers from the account to itself bring back. */
  ghost function SelfGain(entries: seq<Entry>, iv: Interval, account: Id): int {
    if entries == [] then 0
    else
      var e := entries[|entries| - 1];
      SelfGain(entries[..|entries| - 1], iv, account)
      + if FiledIn(e, iv) && e.account == account && e.recipient == Some(account) then e.amountRecipient else 0
  }

  /**
   * The signed account list is the account's net, short of what self-transfers bring back: a self-transfer is listed
   * once, as money out. So the two agree if and only if self-transfers bring back nothing.
   */
  lemma {:induction false} AccountListIsNet(entries: seq<Entry>, iv: Interval, accounts: set<Id>, startDay: int,
                                            account: Id)
    requires account in accounts && forall e :: e in entries ==> WellFormed(e)
    ensures PickedSum(entries, iv, OnAccount(account), Signed()) + SelfGain(entries, iv, account)
         == FiledSum(AccountMonths(accounts, startDay, true), entries, iv, NetOf(account))
  {
    if entries != [] {
      var n := |entries| - 1;
      AccountListIsNet(entries[..n], iv, accounts, startDay, account);
      PickedSumLast(entries, iv, OnAccount(account), Signed());
      FiledSumLast(AccountMonths(accounts, startDay, true), entries, iv, NetOf(account));
      AccountListPart(entries[n], accounts, startDay, account);
      hide PickedSum, Picked, FiledSum, Filed, FiledIn, Part, OnAccount, Signed;
    }
  }

  lemma AccountListPart(e: Entry, accounts: set<Id>, startDay: int, account: Id)
    requires account in accounts && WellFormed(e)
    ensures Part(AccountMonths(accounts, startDay, true), e, NetOf(account)) ==
      (if OnAccount(account)(e).Some? then Signed()(OnAccount(account)(e).value) else 0)
      + (if e.account == account && e.recipient == Some(account) then e.amountRecipient else 0)
  {
    NetPart(accounts, startDay, e, NetOf(account));
    hide Part, PeriodOf;
  }

  /** Without self-transfers the signed list is the net. */
  lemma {:induction false} NoSelfGain(entries: seq<Entry>, iv: Interval, account: Id)
    requires forall e :: e in entries ==> e.recipient != Some(e.account)
    ensures SelfGain(entries, iv, account) == 0
  {
    if entries != [] { NoSelfGain(entries[..|entries| - 1], iv, account); }
  }

  /** A filed entry on the account that names the account itself as its recipient. */
  ghost predicate SelfTransferred(entries: seq<Entry>, iv: Interval, account: Id) {
    exists e :: e in entries && FiledIn(e, iv) && e.account == account && e.recipient == Some(account)
  }

  lemma {:induction false} SelfGainPositive(entries: seq<Entry>, iv: Interval, account: Id)
    requires forall e :: e in entries && e.recipient == Some(e.account) ==> e.amountRecipient > 0
    ensures SelfGain(entries, iv, account) >= 0
    ensures SelfGain(entries, iv, account) > 0 <==> SelfTransferred(entries, iv, account)
  {
    if entries != [] {
      var n := |entries| - 1;
      SelfGainPositive(entries[..n], iv, account);
      assert entries == entries[..n] + [entries[n]];
      hide FiledIn;
    }
  }

  /**
   * Amounts being positive, the signed list is the net if and only if no filed entry on the account names it as
   * recipient.
   */
  lemma AccountListAgrees(entries: seq<Entry>, iv: Interval, accounts: set<Id>, startDay: int, account: Id)
    requires account in accounts && forall e :: e in entries ==> WellFormed(e)
    requires forall e :: e in entries && e.recipient == Some(e.account) ==> e.amountRecipient > 0
    ensures PickedSum(entries, iv, OnAccount(account), Signed())
            == FiledSum(AccountMonths(accounts, startDay, true), entries, iv, NetOf(account))
       <==> !SelfTransferred(entries, iv, account)
  {
    AccountListIsNet(entries, iv, accounts, startDay, account);
    SelfGainPositive(entries, iv, account);
    hide PickedSum, FiledSum, SelfGain, SelfTransferred;
  }

  /** Account 1 sends itself 30: the list says 30 went out, the net says nothing moved. */
  lemma SelfTransferDiffers()
    ensures var entries := [Entry(Transfer, 1, 5, 30, None, None, [], Some(1), 5, 30, 0)];
      && PickedSum(entries, Interval(None, None), OnAccount(1), Signed()) == -30
      && FiledSum(AccountMonths({1}, 1, true), entries, Interval(None, None), NetOf(1)) == 0
  {
    var e := Entry(Transfer, 1, 5, 30, None, None, [], Some(1), 5, 30, 0);
    var entries, iv := [e], Interval(None, None);
    assert entries[..0] == [];
    PickedSumLast(entries, iv, OnAccount(1), Signed());
    FiledSumLast(AccountMonths({1}, 1, true), entries, iv, NetOf(1));
    AccountListPart(e, {1}, 1, 1);
    assert PickedSum([], iv, OnAccount(1), Signed()) == 0;
    assert FiledSum(AccountMonths({1}, 1, true), [], iv, NetOf(1)) == 0;
    hide PickedSum, FiledSum, Part, Lines;
  }
}
