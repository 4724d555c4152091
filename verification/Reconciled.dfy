/** What a finished reconciliation has established, and what follows: a second one finds nothing to do. */
module Reconciled {
  import opened Prelude
  import opened BudgetStore
  import opened ElementClaims
  import opened MissingKeys
  import SortKey

  /** The row is its claim's: the stored row settled, or a new one; keyed exactly when the claim is for the listing, and
      with the key it had if it had one. */
  ghost predicate Meets(budget: Id, before: map<Id, Element>, c: Claim, r: Id, e: Element) {
    && e == Outcome(budget, before, c, r).(key := e.key)
    && (e.key != "" <==> c.live)
    && (c.live && KeyOf(before, r) != "" ==> e.key == before[r].key)
  }

  ghost predicate MeetsOne(budget: Id, before: map<Id, Element>, claims: seq<Claim>, r: Id, e: Element) {
    exists i :: 0 <= i < |claims| && claims[i].external == e.external && Meets(budget, before, claims[i], r, e)
  }

  ghost predicate NewlyKeyed(before: map<Id, Element>, after: map<Id, Element>, r: Id) {
    r in after && after[r].key != "" && KeyOf(before, r) == ""
  }

  /** A place in a no-folder group held from before. */
  ghost predicate Kept(before: map<Id, Element>, after: map<Id, Element>, r: Id) {
    r in after && after[r].key != "" && after[r].folder.None? && KeyOf(before, r) != ""
  }

  ghost predicate NewKeysLast(before: map<Id, Element>, after: map<Id, Element>) {
    && (forall r, q :: NewlyKeyed(before, after, r) && Kept(before, after, q)
                       && GroupOf(after, r) == GroupOf(after, q) ==>
          SortKey.Less(KeyOf(after, q), KeyOf(after, r)))
    && (forall r, q :: NewlyKeyed(before, after, r) && NewlyKeyed(before, after, q) && r < q
                       && GroupOf(after, r) == GroupOf(after, q) ==>
          SortKey.Less(KeyOf(after, r), KeyOf(after, q)))
  }

  ghost predicate HasRow(rows: map<Id, Element>, external: Id) {
    exists r :: r in rows && rows[r].external == external
  }

  ghost predicate OnePerEntity(rows: map<Id, Element>) {
    forall r, q :: r in rows && q in rows && r != q ==> rows[r].external != rows[q].external
  }

  /** The budget's rows after a reconciliation: one per claim and no other, each as its claim wants it, a row surviving
      exactly when its entity is claimed, and new keys after the old ones. */
  ghost predicate Synced(budget: Id, before: map<Id, Element>, after: map<Id, Element>, claims: seq<Claim>) {
    && OnePerEntity(after)
    && (forall i :: 0 <= i < |claims| ==> HasRow(after, claims[i].external))
    && (forall r :: r in after ==> MeetsOne(budget, before, claims, r, after[r]))
    && (forall r :: r in before ==> (r in after <==> Claimed(claims, before[r].external)))
    && NewKeysLast(before, after)
  }

  ghost function Changed(before: map<Id, Element>, after: map<Id, Element>): set<Id> {
    set r | r in after && (r !in before || after[r] != before[r])
  }

  /** Reconciling again, with the same participants, changes no row, makes none and deletes none. */
  lemma SyncIdempotent(budget: Id, p: Participants, before: map<Id, Element>, once: map<Id, Element>,
                       twice: map<Id, Element>)
    requires Distinct(Claims(p, before))
    requires Synced(budget, before, once, Claims(p, before))
    requires Synced(budget, once, twice, Claims(p, once))
    ensures twice == once && Changed(once, twice) == {} && once.Keys - twice.Keys == {}
  {
    SameClaims(budget, p, before, once);
    var claims := Claims(p, before);
    forall r | r in once
      ensures r in twice
    {
      var i :| 0 <= i < |claims| && claims[i].external == once[r].external
          && Meets(budget, before, claims[i], r, once[r]);
      assert Claimed(claims, once[r].external);
    }
    forall r | r in twice
      ensures r in once && twice[r] == once[r]
    {
      SecondPassKeeps(budget, before, once, twice, claims, r);
    }
  }

  lemma SecondPassKeeps(budget: Id, before: map<Id, Element>, once: map<Id, Element>, twice: map<Id, Element>,
                        claims: seq<Claim>, r: Id)
    requires Distinct(claims) && Synced(budget, before, once, claims) && Synced(budget, once, twice, claims)
    requires forall q :: q in once ==> q in twice
    requires r in twice
    ensures r in once && twice[r] == once[r]
  {
    hide NewKeysLast, Meets;
    var i :| 0 <= i < |claims| && claims[i].external == twice[r].external
        && Meets(budget, once, claims[i], r, twice[r]);
    assert HasRow(once, claims[i].external);
    var q :| q in once && once[q].external == claims[i].external;
    ItsClaim(budget, before, once, claims, i, q);
    SameEntity(budget, once, twice, claims, q);
    assert q == r;
    MetTwice(budget, before, once, claims[i], r, twice[r]);
  }

  lemma ItsClaim(budget: Id, before: map<Id, Element>, after: map<Id, Element>, claims: seq<Claim>, i: int, r: Id)
    requires Distinct(claims) && Synced(budget, before, after, claims)
    requires 0 <= i < |claims| && r in after && after[r].external == claims[i].external
    ensures Meets(budget, before, claims[i], r, after[r])
  {
    hide NewKeysLast, Meets;
    assert MeetsOne(budget, before, claims, r, after[r]);
  }

  lemma SameEntity(budget: Id, before: map<Id, Element>, after: map<Id, Element>, claims: seq<Claim>, r: Id)
    requires Synced(budget, before, after, claims) && r in before && r in after
    ensures after[r].external == before[r].external
  {
    hide NewKeysLast;
    assert MeetsOne(budget, before, claims, r, after[r]);
  }

  lemma MetTwice(budget: Id, before: map<Id, Element>, once: map<Id, Element>, c: Claim, r: Id, e: Element)
    requires r in once && Meets(budget, before, c, r, once[r]) && Meets(budget, once, c, r, e)
    ensures e == once[r]
  {
  }

  /** The reconciled rows make the same claims again: an envelope keeps the side it had. */
  lemma SameClaims(budget: Id, p: Participants, before: map<Id, Element>, once: map<Id, Element>)
    requires Distinct(Claims(p, before)) && Synced(budget, before, once, Claims(p, before))
    ensures Claims(p, once) == Claims(p, before)
  {
    forall i | 0 <= i < |p.envelopes|
      ensures EnvelopeClaims(p, once)[i] == EnvelopeClaims(p, before)[i]
    {
      SideKept(budget, p, before, once, i);
    }
    assert EnvelopeClaims(p, once) == EnvelopeClaims(p, before);
  }

  lemma SideKept(budget: Id, p: Participants, before: map<Id, Element>, once: map<Id, Element>, i: int)
    requires 0 <= i < |p.envelopes|
    requires Distinct(Claims(p, before)) && Synced(budget, before, once, Claims(p, before))
    ensures WasIncome(once, p.envelopes[i].id) <==> WasIncome(before, p.envelopes[i].id)
  {
    hide NewKeysLast, HasRow;
    var claims := Claims(p, before);
    var c := EnvelopeClaim(before, p.envelopes[i]);
    assert claims[i] == c;
    forall r | r in once && once[r].external == c.external
      ensures once[r].kind == c.kind
    {
      ItsClaim(budget, before, once, claims, i, r);
    }
    ClaimHasRow(budget, before, once, claims, i);
  }

  lemma ClaimHasRow(budget: Id, before: map<Id, Element>, after: map<Id, Element>, claims: seq<Claim>, i: int)
    requires Synced(budget, before, after, claims) && 0 <= i < |claims|
    ensures exists r :: r in after && after[r].external == claims[i].external
  {
    hide NewKeysLast;
    assert HasRow(after, claims[i].external);
  }

  /** Live rows that stay in the listing never change places, whatever else joins or leaves. */
  lemma OrderKept(budget: Id, before: map<Id, Element>, after: map<Id, Element>, claims: seq<Claim>, r: Id, q: Id)
    requires Synced(budget, before, after, claims)
    requires r in after && q in after && after[r].key != "" && after[q].key != ""
    requires KeyOf(before, r) != "" && KeyOf(before, q) != ""
    ensures SortKey.Less(after[r].key, after[q].key) <==> SortKey.Less(before[r].key, before[q].key)
  {
    hide NewKeysLast, SortKey.Less;
    assert MeetsOne(budget, before, claims, r, after[r]);
    assert MeetsOne(budget, before, claims, q, after[q]);
  }

  /** The rows left once those nobody claims are deleted. */
  ghost function Surviving(seen: set<Name>, row: map<Id, Element>): map<Id, Element> {
    map r | r in row && NameOf(row[r]) in seen :: row[r]
  }

  /** When the passes are over, the row of a claim is its outcome, seen, and live exactly when the claim is. */
  lemma RowOfClaim(budget: Id, stored: map<Id, Element>, claims: seq<Claim>, w: Work, i: int, r: Id)
    requires Progress(budget, stored, claims, w) && Distinct(claims)
    requires 0 <= i < |claims| && r in w.row && w.row[r].external == claims[i].external
    ensures w.row[r] == Outcome(budget, RowsOf(stored, budget), claims[i], r)
    ensures NameOf(w.row[r]) in w.seen
    ensures LiveRow(w.row, w.live, r) <==> claims[i].live
  {
    hide Listed, OthersUntouched, Extends, RowsOf;
    assert claims[i] in claims;
    assert w.byExternal[claims[i].external] == r;
    if LiveRow(w.row, w.live, r) {
      var c :| c in claims && c.live && Name(c.external, c.kind) == NameOf(w.row[r]);
      assert c == claims[i];
    }
  }

  lemma RowsSeen(budget: Id, stored: map<Id, Element>, claims: seq<Claim>, w: Work, final: map<Id, Element>)
    requires Progress(budget, stored, claims, w) && Distinct(claims) && Keyed(w.row, w.live, final)
    ensures forall r :: r in w.row ==> NameOf(final[r]) == NameOf(w.row[r])
    ensures forall r :: r in w.row ==> (NameOf(w.row[r]) in w.seen <==> Claimed(claims, w.row[r].external))
  {
    hide SortKey.Valid, SortKey.Less, Outcome, Listed, OthersUntouched, Extends, RowsOf, Sits;
    assert forall r :: r in w.row && !Needs(w.row, w.live, r) ==> final[r] == w.row[r];
    forall r | r in w.row
      ensures NameOf(w.row[r]) in w.seen <==> Claimed(claims, w.row[r].external)
    {
      if Claimed(claims, w.row[r].external) {
        var i :| 0 <= i < |claims| && claims[i].external == w.row[r].external;
        RowOfClaim(budget, stored, claims, w, i, r);
      }
    }
  }

  lemma KeyedMeets(budget: Id, before: map<Id, Element>, c: Claim, r: Id, row: map<Id, Element>, live: set<Name>,
                   final: map<Id, Element>)
    requires Keyed(row, live, final)
    requires r in row && row[r] == Outcome(budget, before, c, r) && (LiveRow(row, live, r) <==> c.live)
    ensures Meets(budget, before, c, r, final[r])
    ensures final[r].key != "" ==> (Needs(row, live, r) <==> KeyOf(before, r) == "") && LiveRow(row, live, r)
  {
    hide SortKey.Less, Sits;
    assert SortKey.Valid(final[r].key) ==> final[r].key != "";
    hide SortKey.Valid;
  }

  lemma ReconciledRows(budget: Id, stored: map<Id, Element>, claims: seq<Claim>, w: Work, final: map<Id, Element>)
    requires Progress(budget, stored, claims, w) && Distinct(claims) && Keyed(w.row, w.live, final)
    ensures Synced(budget, RowsOf(stored, budget), Surviving(w.seen, final), claims)
  {
    hide SortKey.Valid, SortKey.Less, Outcome, Listed, OthersUntouched, RowsOf, Sits, Needs, LiveRow, Keyed, Meets,
         NewKeysLast, Names, LiveNames;
    var before, after := RowsOf(stored, budget), Surviving(w.seen, final);
    RowsSeen(budget, stored, claims, w, final);
    KeyedDomain(w.row, w.live, final);
    forall i | 0 <= i < |claims|
      ensures HasRow(after, claims[i].external)
    {
      var r := w.byExternal[claims[i].external];
      RowOfClaim(budget, stored, claims, w, i, r);
      assert r in after;
    }
    forall r | r in after
      ensures MeetsOne(budget, before, claims, r, after[r])
    {
      var i :| 0 <= i < |claims| && claims[i].external == w.row[r].external;
      RowOfClaim(budget, stored, claims, w, i, r);
      KeyedMeets(budget, before, claims[i], r, w.row, w.live, final);
    }
    NewKeysFollow(budget, stored, claims, w, final);
  }

  lemma KeyedDomain(row: map<Id, Element>, live: set<Name>, final: map<Id, Element>)
    requires Keyed(row, live, final)
    ensures final.Keys == row.Keys && forall r :: r in row ==> final[r].external == row[r].external
  {
    hide SortKey.Valid, SortKey.Less, Sits, Needs;
  }

  lemma KeyedPlaces(budget: Id, stored: map<Id, Element>, claims: seq<Claim>, w: Work, final: map<Id, Element>, r: Id)
    requires Progress(budget, stored, claims, w) && Distinct(claims) && Keyed(w.row, w.live, final)
    ensures var before, after := RowsOf(stored, budget), Surviving(w.seen, final);
      && (NewlyKeyed(before, after, r) ==> Needs(w.row, w.live, r))
      && (Kept(before, after, r) ==> Sits(w.row, w.live, r, GroupOf(after, r)) && KeyOf(after, r) == KeyOf(w.row, r))
      && (r in after ==> GroupOf(after, r) == GroupOf(w.row, r) && KeyOf(after, r) == KeyOf(final, r))
  {
    hide SortKey.Valid, SortKey.Less, Outcome, Listed, OthersUntouched, RowsOf, SettledSoFar, Names, LiveNames, Indexed,
         Meets;
    var before, after := RowsOf(stored, budget), Surviving(w.seen, final);
    RowsSeen(budget, stored, claims, w, final);
    KeyedDomain(w.row, w.live, final);
    if r in after {
      var i :| 0 <= i < |claims| && claims[i].external == w.row[r].external;
      RowOfClaim(budget, stored, claims, w, i, r);
      KeyedMeets(budget, before, claims[i], r, w.row, w.live, final);
    }
  }

  lemma NewKeysFollow(budget: Id, stored: map<Id, Element>, claims: seq<Claim>, w: Work, final: map<Id, Element>)
    requires Progress(budget, stored, claims, w) && Distinct(claims) && Keyed(w.row, w.live, final)
    ensures NewKeysLast(RowsOf(stored, budget), Surviving(w.seen, final))
  {
    hide SortKey.Valid, SortKey.Less, RowsOf, Progress, Needs, Sits, KeyOf, GroupOf, Surviving, Claimed, Distinct;
    var before, after := RowsOf(stored, budget), Surviving(w.seen, final);
    forall r, q | NewlyKeyed(before, after, r) && Kept(before, after, q) && GroupOf(after, r) == GroupOf(after, q)
      ensures SortKey.Less(KeyOf(after, q), KeyOf(after, r))
    {
      KeyedPlaces(budget, stored, claims, w, final, r);
      KeyedPlaces(budget, stored, claims, w, final, q);
    }
    forall r, q | NewlyKeyed(before, after, r) && NewlyKeyed(before, after, q) && r < q
           && GroupOf(after, r) == GroupOf(after, q)
      ensures SortKey.Less(KeyOf(after, r), KeyOf(after, q))
    {
      KeyedPlaces(budget, stored, claims, w, final, r);
      KeyedPlaces(budget, stored, claims, w, final, q);
    }
  }

  /** A claim for the listing whose entity has no place in it yet. */
  ghost predicate Lacks(before: map<Id, Element>, c: Claim) {
    c.live && forall r :: r in before && before[r].external == c.external ==> before[r].key == ""
  }

  /** A stored row that keeps its place in a no-folder group. */
  ghost predicate Holds(before: map<Id, Element>, c: Claim, r: Id) {
    && r in before && before[r].external == c.external
    && c.live && before[r].key != "" && (c.loose || before[r].folder.None?)
  }

  ghost predicate HoldsIn(before: map<Id, Element>, claims: seq<Claim>, r: Id, savings: bool) {
    exists i :: 0 <= i < |claims| && Holds(before, claims[i], r) && (claims[i].kind == Savings) == savings
  }

  /** Some group must grow past a malformed highest key. */
  ghost predicate Blocked(before: map<Id, Element>, claims: seq<Claim>) {
    exists i, q :: 0 <= i < |claims| && BlockedAt(before, claims, claims[i], q)
  }

  ghost predicate BlockedAt(before: map<Id, Element>, claims: seq<Claim>, c: Claim, q: Id) {
    var g := c.kind == Savings;
    && Lacks(before, c) && HoldsIn(before, claims, q, g) && !SortKey.Valid(KeyOf(before, q))
    && forall s :: HoldsIn(before, claims, s, g) ==> !SortKey.Less(KeyOf(before, q), KeyOf(before, s))
  }

  lemma SitsMeansHolds(budget: Id, stored: map<Id, Element>, claims: seq<Claim>, w: Work, q: Id, g: bool)
    requires Progress(budget, stored, claims, w) && Distinct(claims)
    ensures Sits(w.row, w.live, q, g) <==> HoldsIn(RowsOf(stored, budget), claims, q, g)
    ensures Sits(w.row, w.live, q, g) ==> KeyOf(w.row, q) == KeyOf(RowsOf(stored, budget), q)
  {
    hide Listed, OthersUntouched, RowsOf, Names, SettledSoFar, SortKey.Less, SortKey.Valid, Indexed, Distinct;
    var before := RowsOf(stored, budget);
    if Sits(w.row, w.live, q, g) {
      var c :| c in claims && c.live && Name(c.external, c.kind) == NameOf(w.row[q]);
      var i :| 0 <= i < |claims| && claims[i] == c;
      RowOfClaim(budget, stored, claims, w, i, q);
      assert Holds(before, claims[i], q);
    }
    if HoldsIn(before, claims, q, g) {
      var i :| 0 <= i < |claims| && Holds(before, claims[i], q) && (claims[i].kind == Savings) == g;
      RowOfClaim(budget, stored, claims, w, i, q);
    }
  }

  lemma NeedsMeansLacks(budget: Id, stored: map<Id, Element>, claims: seq<Claim>, w: Work, i: int)
    requires Progress(budget, stored, claims, w) && Distinct(claims) && 0 <= i < |claims|
    ensures claims[i].external in w.byExternal
    ensures var r := w.byExternal[claims[i].external];
      && (Needs(w.row, w.live, r) <==> Lacks(RowsOf(stored, budget), claims[i]))
      && GroupOf(w.row, r) == (claims[i].kind == Savings)
  {
    hide Listed, OthersUntouched, RowsOf, Names, LiveNames, SortKey.Less, SortKey.Valid, Distinct, LiveRow;
    var r := w.byExternal[claims[i].external];
    RowOfClaim(budget, stored, claims, w, i, r);
    var before := RowsOf(stored, budget);
    forall q | q in before && before[q].external == claims[i].external
      ensures q == r
    {
      assert w.row[q].external == before[q].external;
    }
  }

  lemma LiveClaim(budget: Id, stored: map<Id, Element>, claims: seq<Claim>, w: Work, r: Id)
    requires Progress(budget, stored, claims, w) && LiveRow(w.row, w.live, r)
    ensures exists i :: 0 <= i < |claims| && claims[i].external in w.byExternal && w.byExternal[claims[i].external] == r
  {
    hide Listed, OthersUntouched, RowsOf, Names;
    var c :| c in claims && c.live && Name(c.external, c.kind) == NameOf(w.row[r]);
    var i :| 0 <= i < |claims| && claims[i] == c;
    assert w.byExternal[w.row[r].external] == r;
  }

  /** The keys can be handed out exactly when no group is blocked. */
  lemma ExtendableUnlessBlocked(budget: Id, stored: map<Id, Element>, claims: seq<Claim>, w: Work)
    requires Progress(budget, stored, claims, w) && Distinct(claims)
    ensures Extendable(w.row, w.live) <==> !Blocked(RowsOf(stored, budget), claims)
  {
    hide Progress, Distinct, RowsOf, SortKey.Less, SortKey.Valid, Lacks, HoldsIn, Sits, Needs, LiveRow;
    var before := RowsOf(stored, budget);
    forall q, g
      ensures Sits(w.row, w.live, q, g) <==> HoldsIn(before, claims, q, g)
      ensures Sits(w.row, w.live, q, g) ==> KeyOf(w.row, q) == KeyOf(before, q)
    {
      SitsMeansHolds(budget, stored, claims, w, q, g);
    }
    if Blocked(before, claims) {
      var i, q :| 0 <= i < |claims| && BlockedAt(before, claims, claims[i], q);
      NeedsMeansLacks(budget, stored, claims, w, i);
      TopIsTail(w.row, w.live, q, claims[i].kind == Savings);
      var r := w.byExternal[claims[i].external];
      assert Needs(w.row, w.live, r) && TailOf(w.row, w.live, GroupOf(w.row, r), KeyOf(w.row, q));
    }
    if !Extendable(w.row, w.live) {
      var r, t :| Needs(w.row, w.live, r) && TailOf(w.row, w.live, GroupOf(w.row, r), t) && t != ""
          && !SortKey.Valid(t);
      assert LiveRow(w.row, w.live, r) by { NeedsLive(w.row, w.live, r); }
      LiveClaim(budget, stored, claims, w, r);
      var i :| 0 <= i < |claims| && claims[i].external in w.byExternal && w.byExternal[claims[i].external] == r;
      NeedsMeansLacks(budget, stored, claims, w, i);
      TailIsTop(w.row, w.live, GroupOf(w.row, r), t);
      var q :| Sits(w.row, w.live, q, GroupOf(w.row, r)) && KeyOf(w.row, q) == t;
      assert BlockedAt(before, claims, claims[i], q);
    }
  }

  lemma NeedsLive(row: map<Id, Element>, live: set<Name>, r: Id)
    requires Needs(row, live, r)
    ensures LiveRow(row, live, r)
  {
  }

  lemma TopIsTail(row: map<Id, Element>, live: set<Name>, q: Id, g: bool)
    requires Sits(row, live, q, g)
    requires forall s :: Sits(row, live, s, g) ==> !SortKey.Less(KeyOf(row, q), KeyOf(row, s))
    ensures KeyOf(row, q) != "" && TailOf(row, live, g, KeyOf(row, q))
  {
    hide SortKey.Less;
  }

  lemma TailIsTop(row: map<Id, Element>, live: set<Name>, g: bool, t: SortKey.Key)
    requires TailOf(row, live, g, t)
    ensures forall s :: Sits(row, live, s, g) ==> !SortKey.Less(t, KeyOf(row, s))
    ensures t != "" ==> exists q :: Sits(row, live, q, g) && KeyOf(row, q) == t
  {
    hide SortKey.Less;
  }
}
