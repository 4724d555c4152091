/** The reads split at an instant and joined again, and the transaction lists they drill down to. */
module DatedReads {
  import opened Prelude
  import opened Calendar
  import opened MoneyLines
  import opened MoneyReads
  import opened MoneyTheorems

  /** Any of the reports over an interval. */
  method Report(q: Query, entries: seq<Entry>, start: Time, end: Time) returns (rows: seq<Line>)
    requires !q.Balances?
    ensures Represents(rows, Filed(q, entries, MoneyLines.Between(start, end)))
  {
    match q {
      case Spending(categories, accounts, byMonth) => rows :=
        ReadSpending(entries, categories, accounts, start, end, byMonth);
      case LabelSpending(accounts) => rows := ReadLabelSpending(entries, accounts, start, end);
      case IncomeByMonth(accounts, startDay) => rows := ReadIncomeByMonth(entries, accounts, start, end, startDay);
      case TransfersByMonth(accounts, startDay) => rows :=
        ReadTransfersByMonth(entries, accounts, start, end, startDay);
      case AccountMonths(accounts, startDay, transfers) => rows :=
        ReadAccountMonths(entries, accounts, start, end, startDay, transfers);
    }
  }

  /** A report through a window: clamped, or skipped when nothing is left of it. */
  method WindowReport(w: ReadWindow, q: Query, entries: seq<Entry>, start: Time, end: Time) returns (rows: seq<Line>)
    requires !q.Balances?
    ensures forall p :: Sum(rows, p) == WindowSum(w, q, entries, start, end, p)
    ensures Clamp(w, start, end).None? ==> rows == []
    ensures Clamp(w, start, end).Some? ==>
      Represents(rows, Filed(q, entries, MoneyLines.Between(Clamp(w, start, end).value.0,
                                                            Clamp(w, start, end).value.1)))
  {
    var from, to := start, end;
    if w.from.Some? && from < w.from.value {
      from := w.from.value;
    }
    if w.until.Some? && to > w.until.value {
      to := w.until.value;
    }
    if !(from < to) {
      return [];
    }
    rows := Report(q, entries, from, to);
    forall p ensures Sum(rows, p) == WindowSum(w, q, entries, start, end, p) {
      RowsSum(rows, Filed(q, entries, MoneyLines.Between(from, to)), p);
    }
  }

  /** Rows for the known accounts asked for, in the order asked, each the windowed balance. */
  ghost predicate WindowBalanceRows(rows: seq<Line>, w: ReadWindow, entries: seq<Entry>, accounts: seq<Id>,
                                    known: set<Id>, date: Time)
  {
    && |rows| == |Kept(accounts, known)|
    && forall i :: 0 <= i < |rows| ==>
         rows[i] == Line(BalanceKey(Kept(accounts, known)[i]),
                         WindowBalance(w, AccountSet(accounts), entries, date, Kept(accounts, known)[i]))
  }

  /**
   * The balance change of the window's entries dated before the date: read up to it, less what is before the window.
   */
  method WindowBalances(w: ReadWindow, entries: seq<Entry>, accounts: seq<Id>, known: set<Id>, date: Time)
    returns (rows: seq<Line>)
    ensures WindowBalanceRows(rows, w, entries, accounts, known, date)
  {
    hide Filed, Sum, Kept;
    var d := date;
    if w.until.Some? && d > w.until.value {
      d := w.until.value;
    }
    rows := ReadBalances(entries, accounts, known, d);
    if w.from.None? {
      return;
    }
    ghost var full := rows;
    if !(d > w.from.value) {
      for i := 0 to |rows|
        invariant |rows| == |full|
        invariant forall j :: 0 <= j < i ==> rows[j] == Line(full[j].key, 0)
        invariant forall j :: i <= j < |rows| ==> rows[j] == full[j]
      {
        rows := rows[i := rows[i].(amount := 0)];
      }
      return;
    }
    var before := ReadBalances(entries, accounts, known, w.from.value);
    var sub: map<Key, int> := map[];
    for i := 0 to |before|
      invariant forall k :: k in sub ==> exists j :: 0 <= j < i && before[j].key == k && sub[k] == before[j].amount
      invariant forall j :: 0 <= j < i ==> before[j].key in sub
    {
      sub := sub[before[i].key := before[i].amount];
    }
    for i := 0 to |rows|
      invariant |rows| == |full|
      invariant forall j :: 0 <= j < i ==> rows[j] == Line(full[j].key, full[j].amount - sub[before[j].key])
      invariant forall j :: i <= j < |rows| ==> rows[j] == full[j]
    {
      assert rows[i].key == before[i].key;
      if rows[i].key in sub {
        rows := rows[i := rows[i].(amount := rows[i].amount - sub[rows[i].key])];
      }
    }
    forall i | 0 <= i < |rows|
      ensures sub[before[i].key] == before[i].amount
    {
      var j :| 0 <= j < |before| && before[j].key == before[i].key && sub[before[i].key] == before[j].amount;
    }
  }

  function KeysOf(rows: seq<Line>): seq<Key> {
    seq(|rows|, i requires 0 <= i < |rows| => rows[i].key)
  }

  /** The keys of some lines, each at its first occurrence. */
  ghost function FirstSeen(lines: seq<Line>): seq<Key> {
    if lines == [] then []
    else
      var n := |lines| - 1;
      FirstSeen(lines[..n]) + if HasKey(lines[..n], lines[n].key) then [] else [lines[n].key]
  }

  lemma SeenNext(lines: seq<Line>, n: int)
    requires 0 <= n < |lines|
    ensures FirstSeen(lines[..n + 1]) == FirstSeen(lines[..n])
            + if HasKey(lines[..n], lines[n].key) then [] else [lines[n].key]
  {
    assert lines[..n + 1][..n] == lines[..n];
    hide HasKey;
  }

  lemma SameKeys(rows: seq<Line>, i: int, amount: int)
    requires 0 <= i < |rows|
    ensures KeysOf(rows[i := rows[i].(amount := amount)]) == KeysOf(rows)
  {
  }

  lemma OneMoreKey(rows: seq<Line>, l: Line)
    ensures KeysOf(rows + [l]) == KeysOf(rows) + [l.key]
  {
  }

  /** Rows of two reads as one: a key both hold is added up, and keys keep the order they are first seen in. */
  method MergeRows(a: seq<Line>, b: seq<Line>) returns (out: seq<Line>)
    ensures b == [] ==> out == a
    ensures b != [] ==> Represents(out, a + b) && KeysOf(out) == FirstSeen(a + b)
    ensures forall p :: Sum(out, p) == Sum(a, p) + Sum(b, p)
  {
    if |b| == 0 {
      forall p ensures Sum(a, p) == Sum(a, p) + Sum(b, p) {}
      return a;
    }
    hide *;
    out := AddUp(a + b);
    MergedSums(out, a, b);
  }

  /** One row per key, at the key's first occurrence and with its total. */
  method AddUp(all: seq<Line>) returns (out: seq<Line>)
    ensures Represents(out, all) && KeysOf(out) == FirstSeen(all)
  {
    hide Sum;
    var at: map<Key, nat> := map[];
    out := [];
    for n := 0 to |all|
      invariant Merging(at, out, all[..n]) && KeysOf(out) == FirstSeen(all[..n])
    {
      hide FirstSeen, KeysOf;
      SeenNext(all, n);
      assert all[..n + 1] == all[..n] + [all[n]];
      var k := all[n].key;
      MergingIndex(at, out, all[..n], k);
      hide Merging, HasKey;
      if k in at {
        var i := at[k];
        MergeInto(at, out, all[..n], all[n]);
        SameKeys(out, i, out[i].amount + all[n].amount);
        out := out[i := out[i].(amount := out[i].amount + all[n].amount)];
      } else {
        MergeNew(at, out, all[..n], all[n]);
        OneMoreKey(out, all[n]);
        at := at[k := |out|];
        out := out + [all[n]];
      }
    }
    assert all[..|all|] == all;
    MergedRepresents(at, out, all);
  }

  lemma MergedSums(out: seq<Line>, a: seq<Line>, b: seq<Line>)
    requires Represents(out, a + b)
    ensures forall p :: Sum(out, p) == Sum(a, p) + Sum(b, p)
  {
    forall p ensures Sum(out, p) == Sum(a, p) + Sum(b, p) {
      RowsSum(out, a + b, p);
      SumConcat(a, b, p);
    }
  }

  /** The index finds every row by its key, and each row holds its key's total so far. */
  ghost predicate Merging(at: map<Key, nat>, out: seq<Line>, lines: seq<Line>) {
    && (forall k :: k in at <==> HasKey(lines, k))
    && (forall k :: k in at ==> at[k] < |out| && out[at[k]].key == k)
    && (forall i :: 0 <= i < |out| ==> out[i].key in at && at[out[i].key] == i)
    && (forall i :: 0 <= i < |out| ==> out[i].amount == Sum(lines, Is(out[i].key)))
  }

  lemma MergingIndex(at: map<Key, nat>, out: seq<Line>, lines: seq<Line>, k: Key)
    requires Merging(at, out, lines)
    ensures k in at <==> HasKey(lines, k)
    ensures k in at ==> at[k] < |out|
  {
  }

  lemma MergeInto(at: map<Key, nat>, out: seq<Line>, lines: seq<Line>, l: Line)
    requires Merging(at, out, lines) && l.key in at
    ensures Merging(at, out[at[l.key] := out[at[l.key]].(amount := out[at[l.key]].amount + l.amount)], lines + [l])
  {
    LogGrows(lines, l);
    hide Sum, HasKey;
  }

  lemma MergeNew(at: map<Key, nat>, out: seq<Line>, lines: seq<Line>, l: Line)
    requires Merging(at, out, lines) && l.key !in at
    ensures Merging(at[l.key := |out|], out + [l], lines + [l])
  {
    LogGrows(lines, l);
    NoSum(lines, l.key);
    hide Sum, HasKey;
  }

  lemma MergedRepresents(at: map<Key, nat>, out: seq<Line>, lines: seq<Line>)
    requires Merging(at, out, lines)
    ensures Represents(out, lines)
  {
    hide Sum;
    forall k ensures HasKey(out, k) <==> k in at {
      if k in at { assert out[at[k]].key == k; }
    }
    hide HasKey;
  }

  ghost function UpcomingSum(q: Query, stored: seq<Entry>, projected: seq<Entry>, t: Time, start: Time, end: Time,
                             p: Key -> bool): int
  {
    WindowSum(ReadWindow(Some(t), None), q, stored, start, end, p)
      + FiledSum(q, projected, MoneyLines.Between(start, end), p)
  }

  /**
   * The upcoming pass: what is dated from t on, and the projected occurrences on top. Every key's total is both reads'.
   */
  method UnionReport(q: Query, stored: seq<Entry>, projected: seq<Entry>, t: Time, start: Time, end: Time)
    returns (rows: seq<Line>)
    requires !q.Balances?
    ensures forall p :: Sum(rows, p) == UpcomingSum(q, stored, projected, t, start, end, p)
  {
    var a := WindowReport(ReadWindow(Some(t), None), q, stored, start, end);
    var b := Report(q, projected, start, end);
    rows := MergeRows(a, b);
    forall p ensures Sum(b, p) == FiledSum(q, projected, MoneyLines.Between(start, end), p) {
      RowsSum(b, Filed(q, projected, MoneyLines.Between(start, end)), p);
    }
  }

  /** The accounts a report is about. */
  function AccountsIn(q: Query): set<Id> {
    match q
    case Spending(_, accounts, _) => accounts
    case LabelSpending(accounts) => accounts
    case IncomeByMonth(accounts, _) => accounts
    case TransfersByMonth(accounts, _) => accounts
    case AccountMonths(accounts, _, _) => accounts
    case Balances(accounts) => accounts
  }

  predicate Touches(e: Entry, accounts: set<Id>) {
    e.account in accounts || (e.recipient.Some? && e.recipient.value in accounts)
  }

  lemma UntouchedFilesNothing(q: Query, e: Entry)
    requires !Touches(e, AccountsIn(q))
    ensures Lines(q, e) == []
  {
    hide PeriodOf;
  }

  /** Entries that are outside an interval or touch none of the accounts count for nothing. */
  lemma {:induction false} NothingTouched(q: Query, entries: seq<Entry>, iv: Interval, p: Key -> bool)
    requires forall e :: e in entries && FiledIn(e, iv) ==> !Touches(e, AccountsIn(q))
    ensures FiledSum(q, entries, iv, p) == 0
  {
    if entries != [] {
      var n := |entries| - 1;
      NothingTouched(q, entries[..n], iv, p);
      FiledSumLast(q, entries, iv, p);
      if FiledIn(entries[n], iv) { UntouchedFilesNothing(q, entries[n]); }
    }
  }

  /**
   * What the upcoming pass of a window is built from: nothing when the window is past or holds neither kind of money,
   * the projection alone when nothing stored is dated ahead inside it, else both.
   */
  datatype Upcoming = Nothing | ProjectionOnly | Both

  method ChooseUpcoming(stored: seq<Entry>, projected: seq<Entry>, included: set<Id>, t: Time, current: Time,
                        w: Calendar.Window)
    returns (choice: Upcoming)
    ensures choice.Nothing? <==> w.end <= current || (projected == [] && NoneDated(stored, included, t, w))
    ensures choice.Both? <==> current < w.end && !NoneDated(stored, included, t, w)
  {
    if !(w.end > current) {
      return Nothing;
    }
    var dated := false;
    if w.end > t {
      var from := t;
      if w.start > from {
        from := w.start;
      }
      for i := 0 to |stored|
        invariant dated <==> exists j :: 0 <= j < i && from <= stored[j].at < w.end && Touches(stored[j], included)
      {
        dated := dated || (from <= stored[i].at < w.end && Touches(stored[i], included));
      }
    }
    if !dated {
      return if projected == [] then Nothing else ProjectionOnly;
    }
    choice := Both;
  }

  /** Nothing stored on the accounts is dated in the window from t on. */
  ghost predicate NoneDated(stored: seq<Entry>, included: set<Id>, t: Time, w: Calendar.Window) {
    forall e :: e in stored && t <= e.at && w.start <= e.at < w.end ==> !Touches(e, included)
  }

  /**
   * Whatever the choice, a report over an interval of the window shows every key's future-dated and projected money.
   */
  method UpcomingReport(q: Query, stored: seq<Entry>, projected: seq<Entry>, included: set<Id>, t: Time, current: Time,
                        w: Calendar.Window,
                        start: Time, end: Time)
    returns (rows: seq<Line>)
    requires !q.Balances? && AccountsIn(q) <= included && w.start <= start && end <= w.end
    requires current <= t && forall e :: e in projected ==> current <= e.at
    ensures forall p :: Sum(rows, p) == UpcomingSum(q, stored, projected, t, start, end, p)
  {
    var choice := ChooseUpcoming(stored, projected, included, t, current, w);
    match choice {
      case Nothing => rows := [];
      case ProjectionOnly => rows := Report(q, projected, start, end);
      case Both => rows := UnionReport(q, stored, projected, t, start, end);
    }
    forall p ensures Sum(rows, p) == UpcomingSum(q, stored, projected, t, start, end, p) {
      if choice != Both {
        NothingDated(q, stored, included, t, w, start, end, p, w.end <= current);
        if choice == Nothing {
          NothingProjected(q, projected, current, w, start, end, p);
        } else {
          RowsSum(rows, Filed(q, projected, MoneyLines.Between(start, end)), p);
        }
      }
    }
  }

  lemma NothingDated(q: Query, stored: seq<Entry>, included: set<Id>, t: Time, w: Calendar.Window, start: Time,
                     end: Time, p: Key -> bool, past: bool)
    requires AccountsIn(q) <= included && w.start <= start && end <= w.end
    requires past ==> w.end <= t
    requires past || NoneDated(stored, included, t, w)
    ensures WindowSum(ReadWindow(Some(t), None), q, stored, start, end, p) == 0
  {
    WindowIs(ReadWindow(Some(t), None), q, stored, start, end, p);
    var s := if start < t then t else start;
    forall e | e in stored && FiledIn(e, MoneyLines.Between(s, end)) ensures !Touches(e, AccountsIn(q)) {
      assert !past;
    }
    NothingTouched(q, stored, MoneyLines.Between(s, end), p);
  }

  lemma NothingProjected(q: Query, projected: seq<Entry>, current: Time, w: Calendar.Window, start: Time, end: Time,
                         p: Key -> bool)
    requires end <= w.end && (w.end <= current || projected == []) && forall e :: e in projected ==> current <= e.at
    ensures FiledSum(q, projected, MoneyLines.Between(start, end), p) == 0
  {
    NothingTouched(q, projected, MoneyLines.Between(start, end), p);
  }

  /** The booked pass and the upcoming pass together show all stored money once, and all projected money. */
  lemma BothPassesCoverOnce(q: Query, stored: seq<Entry>, projected: seq<Entry>, t: Time, start: Time, end: Time,
                            p: Key -> bool,
                            booked: int, upcoming: int)
    requires booked == WindowSum(ReadWindow(None, Some(t)), q, stored, start, end, p)
    requires upcoming == UpcomingSum(q, stored, projected, t, start, end, p)
    ensures booked + upcoming == FiledSum(q, stored, MoneyLines.Between(start, end), p)
            + FiledSum(q, projected, MoneyLines.Between(start, end), p)
  {
    SplitAnywhere(q, stored, start, end, t, p);
    WindowIs(ReadWindow(None, None), q, stored, start, end, p);
  }

  lemma PickedNext(entries: seq<Entry>, n: int, iv: Interval, pick: Entry -> Option<Listed>)
    requires 0 <= n < |entries|
    ensures Picked(entries[..n + 1], iv, pick) ==
      Picked(entries[..n], iv, pick) + if FiledIn(entries[n], iv)
        && pick(entries[n]).Some? then [pick(entries[n]).value] else []
  {
    assert entries[..n + 1][..n] == entries[..n];
  }

  lemma {:induction false} PickedSame(entries: seq<Entry>, iv: Interval, f: Entry -> Option<Listed>,
                                      g: Entry -> Option<Listed>)
    requires forall e :: f(e) == g(e)
    ensures Picked(entries, iv, f) == Picked(entries, iv, g)
  {
    if entries != [] { PickedSame(entries[..|entries| - 1], iv, f, g); }
  }

  ghost function KeptExpenses(keep: Entry -> bool, accounts: set<Id>): Entry -> Option<Listed> {
    (e: Entry) => if ExpenseOn(e, accounts) && keep(e) then Some(Plain(e)) else None
  }

  /** The expenses on the accounts that a list keeps. */
  method ListExpenses(entries: seq<Entry>, accounts: set<Id>, start: Time, end: Time, keep: Entry -> bool)
    returns (out: seq<Listed>)
    ensures out == Picked(entries, MoneyLines.Between(start, end), KeptExpenses(keep, accounts))
  {
    ghost var iv, pick := MoneyLines.Between(start, end), KeptExpenses(keep, accounts);
    out := [];
    for n := 0 to |entries|
      invariant out == Picked(entries[..n], iv, pick)
    {
      PickedNext(entries, n, iv, pick);
      var o := entries[n];
      assert out + [] == out;
      if o.kind == Expense && o.account in accounts && start <= o.at < end && keep(o) {
        out := out + [Listed(o.amount, o.currency, None)];
      }
    }
    assert entries[..|entries|] == entries;
  }

  method BudgetTransactionsByCategories(entries: seq<Entry>, categories: set<Id>, accounts: set<Id>, start: Time,
                                        end: Time) returns (out: seq<Listed>)
    ensures out == Picked(entries, MoneyLines.Between(start, end), ByCategories(categories, accounts))
  {
    var keep := (o: Entry) => o.tag.None? && o.category.Some? && o.category.value in categories;
    out := ListExpenses(entries, accounts, start, end, keep);
    PickedSame(entries, MoneyLines.Between(start, end), KeptExpenses(keep, accounts),
               ByCategories(categories, accounts));
  }

  method BudgetTransactionsByTag(entries: seq<Entry>, tag: Id, category: Option<Id>, uncategorized: bool,
                                 accounts: set<Id>, start: Time, end: Time)
    returns (out: seq<Listed>)
    ensures out == Picked(entries, MoneyLines.Between(start, end), ByTag(tag, category, uncategorized, accounts))
  {
    var keep := (o: Entry) =>
      if o.tag != Some(tag) then false
      else if category.Some? then o.category == category
      else if uncategorized then o.category.None?
      else true;
    out := ListExpenses(entries, accounts, start, end, keep);
    PickedSame(entries, MoneyLines.Between(start, end), KeptExpenses(keep, accounts),
               ByTag(tag, category, uncategorized, accounts));
  }

  method BudgetTransactionsOnAccount(entries: seq<Entry>, account: Id, start: Time, end: Time)
    returns (out: seq<Listed>)
    ensures out == Picked(entries, MoneyLines.Between(start, end), OnAccount(account))
  {
    ghost var iv, pick := MoneyLines.Between(start, end), OnAccount(account);
    out := [];
    for n := 0 to |entries|
      invariant out == Picked(entries[..n], iv, pick)
    {
      PickedNext(entries, n, iv, pick);
      var o := entries[n];
      assert out + [] == out;
      if !(start <= o.at < end) {
        continue;
      }
      if o.account == account {
        out := out + [Listed(o.amount, o.currency, Some(if o.kind == Income then Incoming else Outgoing))];
      } else if o.kind == Transfer && o.recipient == Some(account) {
        out := out + [Listed(o.amountRecipient, o.recipientCurrency, Some(Incoming))];
      }
    }
    assert entries[..|entries|] == entries;
  }

  method BudgetTransactionsTransfers(entries: seq<Entry>, accounts: set<Id>, start: Time, end: Time)
    returns (out: seq<Listed>)
    ensures out == Picked(entries, MoneyLines.Between(start, end), Crossings(accounts))
  {
    ghost var iv, pick := MoneyLines.Between(start, end), Crossings(accounts);
    out := [];
    for n := 0 to |entries|
      invariant out == Picked(entries[..n], iv, pick)
    {
      PickedNext(entries, n, iv, pick);
      var o := entries[n];
      assert out + [] == out;
      if !(start <= o.at < end) {
        continue;
      }
      if CrossesOut(o, accounts) {
        out := out + [Listed(o.amount, o.currency, Some(Outgoing))];
      } else if CrossesIn(o, accounts) {
        out := out + [Listed(o.amountRecipient, o.recipientCurrency, Some(Incoming))];
      }
    }
    assert entries[..|entries|] == entries;
  }

  method BudgetTransactionsIncome(entries: seq<Entry>, categories: set<Id>, accounts: set<Id>, start: Time, end: Time)
    returns (out: seq<Listed>)
    ensures out == Picked(entries, MoneyLines.Between(start, end), IncomeOf(categories, accounts))
  {
    ghost var iv, pick := MoneyLines.Between(start, end), IncomeOf(categories, accounts);
    out := [];
    for n := 0 to |entries|
      invariant out == Picked(entries[..n], iv, pick)
    {
      PickedNext(entries, n, iv, pick);
      var o := entries[n];
      assert out + [] == out;
      if o.kind != Income || o.account !in accounts || !(start <= o.at < end) || o.category.None?
         || o.category.value !in categories {
        continue;
      }
      out := out + [Listed(o.amount, o.currency, Some(Incoming))];
    }
    assert entries[..|entries|] == entries;
  }

  method BudgetTransactionsIncomeUncategorized(entries: seq<Entry>, known: set<Id>, accounts: set<Id>, start: Time,
                                               end: Time)
    returns (out: seq<Listed>)
    ensures out == Picked(entries, MoneyLines.Between(start, end), IncomeOutside(known, accounts))
  {
    ghost var iv, pick := MoneyLines.Between(start, end), IncomeOutside(known, accounts);
    out := [];
    for n := 0 to |entries|
      invariant out == Picked(entries[..n], iv, pick)
    {
      PickedNext(entries, n, iv, pick);
      var o := entries[n];
      assert out + [] == out;
      if o.kind != Income || o.account !in accounts || !(start <= o.at < end)
         || (o.category.Some? && o.category.value in known) {
        continue;
      }
      out := out + [Listed(o.amount, o.currency, Some(Incoming))];
    }
    assert entries[..|entries|] == entries;
  }
}
