/** Handing out the sort keys that live rows lack: at the end of their group, in row order. */
module MissingKeys {
  import opened Prelude
  import opened BudgetStore
  import opened ElementClaims
  import SortKey

  predicate InSavings(e: Element) {
    e.kind == Savings
  }

  predicate LiveRow(row: map<Id, Element>, live: set<Name>, r: Id) {
    r in row && NameOf(row[r]) in live
  }

  /** A row that belongs in the listing and has no place in it yet. */
  predicate Needs(row: map<Id, Element>, live: set<Name>, r: Id) {
    LiveRow(row, live, r) && row[r].key == ""
  }

  /** A row placed in the no-folder group of the savings rows, or of all others. */
  predicate Sits(row: map<Id, Element>, live: set<Name>, r: Id, savings: bool) {
    LiveRow(row, live, r) && row[r].key != "" && row[r].folder.None? && InSavings(row[r]) == savings
  }

  /** The highest key of a group; empty when the group is. */
  ghost predicate TailOf(row: map<Id, Element>, live: set<Name>, g: bool, t: SortKey.Key) {
    && (forall q :: Sits(row, live, q, g) ==> t != "" && !SortKey.Less(t, row[q].key))
    && (t != "" ==> exists q :: Sits(row, live, q, g) && row[q].key == t)
  }

  function Tail(tails: map<bool, SortKey.Key>, g: bool): SortKey.Key {
    if g in tails then tails[g] else ""
  }

  function KeyOf(row: map<Id, Element>, r: Id): SortKey.Key {
    if r in row then row[r].key else ""
  }

  predicate GroupOf(row: map<Id, Element>, r: Id) {
    r in row && InSavings(row[r])
  }

  /** Every key missing is handed out, at the end of its group and in id order; nothing else changes. */
  ghost predicate Keyed(row: map<Id, Element>, live: set<Name>, next: map<Id, Element>) {
    && next.Keys == row.Keys
    && (forall r :: r in row && !Needs(row, live, r) ==> next[r] == row[r])
    && (forall r :: Needs(row, live, r) ==> next[r] == row[r].(key := next[r].key) && SortKey.Valid(next[r].key))
    && (forall r, q :: Needs(row, live, r) && Sits(row, live, q, GroupOf(row, r)) ==>
          SortKey.Less(KeyOf(row, q), KeyOf(next, r)))
    && (forall r, q :: Needs(row, live, r) && Needs(row, live, q) && GroupOf(row, r) == GroupOf(row, q) && r < q ==>
          SortKey.Less(KeyOf(next, r), KeyOf(next, q)))
  }

  /** The last row of every group that gains one carries a well-formed key. */
  ghost predicate Extendable(row: map<Id, Element>, live: set<Name>) {
    forall r, t :: Needs(row, live, r) && TailOf(row, live, GroupOf(row, r), t) && t != "" ==> SortKey.Valid(t)
  }

  lemma NothingScanned(row: map<Id, Element>, live: set<Name>, byKey: map<Name, Id>, byExternal: map<Id, Id>)
    requires Indexed(row, byKey, byExternal)
    ensures forall r :: !LiveRow(row, live - byKey.Keys, r)
  {
  }

  lemma ScanStep(row: map<Id, Element>, live: set<Name>, byKey: map<Name, Id>, byExternal: map<Id, Id>, rest: set<Name>,
                 key: Name)
    requires Indexed(row, byKey, byExternal) && key in rest && rest <= byKey.Keys
    ensures byKey[key] in row
    ensures forall r :: LiveRow(row, live - (rest - {key}), r) <==>
      LiveRow(row, live - rest, r) || (key in live && r == byKey[key])
    ensures forall r :: Needs(row, live - (rest - {key}), r) <==>
      Needs(row, live - rest, r) || (key in live && r == byKey[key] && row[r].key == "")
  {
  }

  ghost predicate TailsOf(row: map<Id, Element>, live: set<Name>, tails: map<bool, SortKey.Key>) {
    forall g :: TailOf(row, live, g, Tail(tails, g))
  }

  /** The tails with one more row taken in. */
  function NextTails(e: Element, tails: map<bool, SortKey.Key>): map<bool, SortKey.Key> {
    if e.key != "" && e.folder.None? && SortKey.Less(Tail(tails, InSavings(e)), e.key) then tails[InSavings(e) := e.key]
    else tails
  }

  lemma TailsGrow(row: map<Id, Element>, live: set<Name>, more: set<Name>, r: Id, tails: map<bool, SortKey.Key>)
    requires r in row && TailsOf(row, live, tails)
    requires forall q :: LiveRow(row, more, q) <==> LiveRow(row, live, q) || q == r
    ensures TailsOf(row, more, NextTails(row[r], tails))
  {
    var g := InSavings(row[r]);
    SameTail(row, live, more, r, !g, Tail(tails, !g));
    if row[r].key != "" && row[r].folder.None? {
      TailGrows(row, live, more, r, Tail(tails, g));
    } else {
      SameTail(row, live, more, r, g, Tail(tails, g));
    }
    hide TailOf, SortKey.Less, LiveRow;
  }

  lemma SameTail(row: map<Id, Element>, live: set<Name>, more: set<Name>, r: Id, g: bool, t: SortKey.Key)
    requires TailOf(row, live, g, t) && r in row
    requires forall q :: LiveRow(row, more, q) <==> LiveRow(row, live, q) || q == r
    requires !Sits(row, more, r, g)
    ensures TailOf(row, more, g, t)
  {
    hide SortKey.Less, NameOf, LiveRow;
    assert LiveRow(row, more, r);
    forall q
      ensures Sits(row, more, q, g) <==> Sits(row, live, q, g)
    {
      if q != r { assert LiveRow(row, more, q) <==> LiveRow(row, live, q); }
      SitsLive(row, more, live, q, g);
    }
    hide Sits;
  }

  lemma SitsLive(row: map<Id, Element>, live: set<Name>, other: set<Name>, q: Id, g: bool)
    ensures Sits(row, live, q, g) ==> LiveRow(row, live, q)
    ensures (LiveRow(row, live, q) <==> LiveRow(row, other, q)) ==> (Sits(row, live, q, g) <==> Sits(row, other, q, g))
  {
  }

  lemma TailGrows(row: map<Id, Element>, live: set<Name>, more: set<Name>, r: Id, t: SortKey.Key)
    requires r in row && row[r].key != "" && row[r].folder.None?
    requires TailOf(row, live, InSavings(row[r]), t)
    requires forall q :: LiveRow(row, more, q) <==> LiveRow(row, live, q) || q == r
    ensures TailOf(row, more, InSavings(row[r]), if SortKey.Less(t, row[r].key) then row[r].key else t)
  {
    var k := row[r].key;
    assert t == "" ==> SortKey.Less(t, k);
    hide NameOf, SortKey.Less;
    SortKey.LessIrreflexive(k);
    var t' := if SortKey.Less(t, k) then k else t;
    forall q | Sits(row, more, q, InSavings(row[r]))
      ensures t' != "" && !SortKey.Less(t', row[q].key)
    {
      if q != r && SortKey.Less(t, k) && SortKey.Less(k, row[q].key) {
        SortKey.LessTransitive(t, k, row[q].key);
      }
    }
    if SortKey.Less(t, k) {
      assert Sits(row, more, r, InSavings(row[r]));
    } else {
      var q :| Sits(row, live, q, InSavings(row[r])) && row[q].key == t;
      assert Sits(row, more, q, InSavings(row[r]));
    }
  }

  /** The rows in `done` have their keys, in order and above everything placed before; other rows are untouched. */
  ghost predicate HandedOut(rows: map<Id, Element>, live: set<Name>, done: set<Id>, row: map<Id, Element>) {
    && row.Keys == rows.Keys
    && (forall r :: r in rows && r !in done ==> row[r] == rows[r])
    && (forall r :: r in done ==> Needs(rows, live, r) && row[r] == rows[r].(key := row[r].key)
                                  && SortKey.Valid(row[r].key))
    && (forall r, q :: r in done && Sits(rows, live, q, GroupOf(rows, r)) ==>
          SortKey.Less(KeyOf(rows, q), KeyOf(row, r)))
    && (forall r, q :: r in done && q in done && GroupOf(rows, r) == GroupOf(rows, q) && r < q ==>
          SortKey.Less(KeyOf(row, r), KeyOf(row, q)))
  }

  /** Nothing placed in the group, before or since, is above t. */
  ghost predicate Ceiling(rows: map<Id, Element>, live: set<Name>, done: set<Id>, row: map<Id, Element>, g: bool,
                          t: SortKey.Key)
  {
    && (forall q :: Sits(rows, live, q, g) ==> t != "" && !SortKey.Less(t, KeyOf(rows, q)))
    && (forall q :: q in done && GroupOf(rows, q) == g ==> t != "" && !SortKey.Less(t, KeyOf(row, q)))
  }

  ghost predicate Capped(rows: map<Id, Element>, live: set<Name>, done: set<Id>, row: map<Id, Element>,
                         tails: map<bool, SortKey.Key>)
  {
    forall g :: Ceiling(rows, live, done, row, g, Tail(tails, g))
  }

  lemma FirstCeiling(rows: map<Id, Element>, live: set<Name>, g: bool, t: SortKey.Key)
    requires TailOf(rows, live, g, t)
    ensures Ceiling(rows, live, {}, rows, g, t)
  {
    hide SortKey.Less;
  }

  /** Above the ceiling is above everything under it. */
  lemma AboveCeiling(t: SortKey.Key, k: SortKey.Key, x: SortKey.Key)
    requires SortKey.Less(t, k) && !SortKey.Less(t, x)
    ensures SortKey.Less(x, k) && !SortKey.Less(k, x)
  {
    hide SortKey.Less;
    SortKey.LessTotal(x, t);
    if SortKey.Less(x, t) { SortKey.LessTransitive(x, t, k); }
    if SortKey.Less(k, x) {
      SortKey.LessTransitive(k, x, k);
      SortKey.LessIrreflexive(k);
    }
  }

  lemma AboveAll(rows: map<Id, Element>, live: set<Name>, done: set<Id>, row: map<Id, Element>, g: bool, t: SortKey.Key,
                 k: SortKey.Key)
    requires Ceiling(rows, live, done, row, g, t) && (t != "" ==> SortKey.Less(t, k))
    ensures forall q :: Sits(rows, live, q, g) ==>
      SortKey.Less(KeyOf(rows, q), k) && !SortKey.Less(k, KeyOf(rows, q))
    ensures forall q :: q in done && GroupOf(rows, q) == g ==>
      SortKey.Less(KeyOf(row, q), k) && !SortKey.Less(k, KeyOf(row, q))
  {
    hide SortKey.Less, Sits, KeyOf, GroupOf;
    forall q | Sits(rows, live, q, g)
      ensures SortKey.Less(KeyOf(rows, q), k) && !SortKey.Less(k, KeyOf(rows, q))
    {
      AboveCeiling(t, k, KeyOf(rows, q));
    }
    forall q | q in done && GroupOf(rows, q) == g
      ensures SortKey.Less(KeyOf(row, q), k) && !SortKey.Less(k, KeyOf(row, q))
    {
      AboveCeiling(t, k, KeyOf(row, q));
    }
  }

  lemma HandOver(rows: map<Id, Element>, live: set<Name>, done: set<Id>, r: Id, row: map<Id, Element>,
                 next: map<Id, Element>,
                 tails: map<bool, SortKey.Key>, k: SortKey.Key)
    requires HandedOut(rows, live, done, row) && Needs(rows, live, r) && r !in done
    requires forall q :: q in done ==> q < r
    requires Capped(rows, live, done, row, tails)
    requires SortKey.Valid(k) && (Tail(tails, GroupOf(rows, r)) != "" ==>
                                    SortKey.Less(Tail(tails, GroupOf(rows, r)), k))
    requires r in row && next == row[r := row[r].(key := k)]
    ensures HandedOut(rows, live, done + {r}, next)
  {
    hide SortKey.Less, SortKey.Valid, Sits, Ceiling, GroupOf, Needs;
    AboveAll(rows, live, done, row, GroupOf(rows, r), Tail(tails, GroupOf(rows, r)), k);
    NeedsRow(rows, live);
    assert KeyOf(next, r) == k;
    assert forall q :: q in done ==> q != r && KeyOf(next, q) == KeyOf(row, q);
    forall p, q | p in done + {r} && q in done + {r} && GroupOf(rows, p) == GroupOf(rows, q) && p < q
      ensures SortKey.Less(KeyOf(next, p), KeyOf(next, q))
    {
      assert p in done;
    }
  }

  lemma NeedsRow(rows: map<Id, Element>, live: set<Name>)
    ensures forall r :: Needs(rows, live, r) ==> r in rows
  {
  }

  lemma NewCeiling(rows: map<Id, Element>, live: set<Name>, done: set<Id>, r: Id, row: map<Id, Element>,
                   next: map<Id, Element>,
                   t: SortKey.Key, k: SortKey.Key)
    requires Ceiling(rows, live, done, row, GroupOf(rows, r), t)
    requires SortKey.Valid(k) && (t != "" ==> SortKey.Less(t, k))
    requires r !in done && r in row && next == row[r := row[r].(key := k)]
    ensures Ceiling(rows, live, done + {r}, next, GroupOf(rows, r), k)
  {
    assert k != "";
    AboveAll(rows, live, done, row, GroupOf(rows, r), t, k);
    SortKey.LessIrreflexive(k);
    hide SortKey.Less, SortKey.Valid, Sits, GroupOf;
    assert forall q :: q in done ==> KeyOf(next, q) == KeyOf(row, q);
  }

  lemma OtherCeiling(rows: map<Id, Element>, live: set<Name>, done: set<Id>, r: Id, row: map<Id, Element>,
                     next: map<Id, Element>,
                     g: bool, t: SortKey.Key)
    requires Ceiling(rows, live, done, row, g, t) && GroupOf(rows, r) != g
    requires r in row && r in next && next == row[r := next[r]]
    ensures Ceiling(rows, live, done + {r}, next, g, t)
  {
    hide SortKey.Less, Sits, GroupOf;
  }

  lemma AllHandedOut(rows: map<Id, Element>, live: set<Name>, done: set<Id>, row: map<Id, Element>)
    requires HandedOut(rows, live, done, row) && forall r :: r in done <==> Needs(rows, live, r)
    ensures Keyed(rows, live, row)
  {
    hide SortKey.Less, SortKey.Valid, NameOf;
  }

  lemma TailUnique(row: map<Id, Element>, live: set<Name>, g: bool, t: SortKey.Key, u: SortKey.Key)
    requires TailOf(row, live, g, t) && TailOf(row, live, g, u)
    ensures t == u
  {
    hide SortKey.Less, Sits;
    SortKey.LessTotal(t, u);
  }

  lemma NotExtendable(row: map<Id, Element>, live: set<Name>, r: Id, t: SortKey.Key)
    requires Needs(row, live, r) && TailOf(row, live, GroupOf(row, r), t) && !Followable(t)
    ensures !Extendable(row, live)
  {
  }

  lemma Ceilings(rows: map<Id, Element>, live: set<Name>, done: set<Id>, r: Id, row: map<Id, Element>,
                 next: map<Id, Element>,
                 tails: map<bool, SortKey.Key>, k: SortKey.Key)
    requires Capped(rows, live, done, row, tails)
    requires SortKey.Valid(k) && (Tail(tails, GroupOf(rows, r)) != "" ==>
                                    SortKey.Less(Tail(tails, GroupOf(rows, r)), k))
    requires r !in done && r in row && next == row[r := row[r].(key := k)]
    ensures Capped(rows, live, done + {r}, next, tails[GroupOf(rows, r) := k])
  {
    hide SortKey.Less, SortKey.Valid, Ceiling, GroupOf;
    var mine := GroupOf(rows, r);
    NewCeiling(rows, live, done, r, row, next, Tail(tails, mine), k);
    OtherCeiling(rows, live, done, r, row, next, !mine, Tail(tails, !mine));
  }

  lemma NothingHanded(rows: map<Id, Element>, live: set<Name>, tails: map<bool, SortKey.Key>)
    requires TailsOf(rows, live, tails)
    ensures HandedOut(rows, live, {}, rows)
    ensures Capped(rows, live, {}, rows, tails)
  {
    FirstCeiling(rows, live, true, Tail(tails, true));
    FirstCeiling(rows, live, false, Tail(tails, false));
    hide SortKey.Less, SortKey.Valid, Ceiling, TailOf;
  }

  lemma RowInHand(rows: map<Id, Element>, live: set<Name>, done: set<Id>, row: map<Id, Element>, r: Id)
    requires HandedOut(rows, live, done, row) && Needs(rows, live, r) && r !in done
    ensures r in row && r in rows && row[r] == rows[r] && GroupOf(rows, r) == GroupOf(row, r)
  {
  }

  lemma AllExtended(rows: map<Id, Element>, live: set<Name>, first: map<bool, SortKey.Key>)
    requires TailsOf(rows, live, first)
    requires forall q :: Needs(rows, live, q) ==> Followable(Tail(first, GroupOf(rows, q)))
    ensures Extendable(rows, live)
  {
    hide SortKey.Valid, TailOf;
    forall r, t | Needs(rows, live, r) && TailOf(rows, live, GroupOf(rows, r), t) && t != ""
      ensures SortKey.Valid(t)
    {
      TailUnique(rows, live, GroupOf(rows, r), t, Tail(first, GroupOf(rows, r)));
    }
  }

  /** Whether a key can be followed by another: the empty key by the seed, a well-formed one by its successor. */
  predicate Followable(tail: SortKey.Key) {
    tail == "" || SortKey.Valid(tail)
  }

  method FollowingKey(tail: SortKey.Key) returns (ok: bool, k: SortKey.Key)
    ensures ok <==> Followable(tail)
    ensures ok ==> SortKey.Valid(k) && (tail != "" ==> SortKey.Less(tail, k))
  {
    if tail == "" {
      SortKey.SeedsValid();
      return true, SortKey.Seed(SortKey.GrowsDown);
    }
    SortKey.BetweenIsBetween(tail, "");
    match SortKey.Between(tail, "") {
      case Some(next) => return true, next;
      case None => return false, "";
    }
  }
}
