/** What a reconciled budget's rows are, said of the envelopes, categories, tags and savings accounts that take part. */
module ParticipantRows {
  import opened Prelude
  import opened BudgetStore
  import opened ElementClaims
  import opened Reconciled
  import SortKey

  /** The entity's one row: its kind, whether it has a place in the listing, whether it may be in a folder, and the
      currency it starts with. A stored row keeps its currency, its folder if it may be in one, and its place. */
  ghost predicate Placed(before: map<Id, Element>, after: map<Id, Element>, x: Id, kind: Kind, listed: bool,
                         folders: bool, currency: Option<Id>)
  {
    && (exists r :: r in after && after[r].external == x)
    && forall r :: r in after && after[r].external == x ==>
         && after[r].kind == kind && (after[r].key != "" <==> listed)
         && (!folders ==> after[r].folder == None)
         && (r in before ==> after[r].currency == before[r].currency)
         && (r in before && folders ==> after[r].folder == before[r].folder)
         && (r in before && listed && before[r].key != "" ==> after[r].key == before[r].key)
         && (r !in before ==> after[r].currency == currency && after[r].folder == None)
  }

  ghost predicate InEnvelope(p: Participants, category: Id) {
    exists e :: e in p.envelopes && category in e.categories
  }

  /** The envelope was stored on the income side. */
  ghost predicate StoredIncome(before: map<Id, Element>, envelope: Id) {
    exists r :: r in before && before[r].external == envelope && before[r].kind == IncomeEnvelope
  }

  ghost predicate TakesPart(p: Participants, x: Id) {
    || (exists e :: e in p.envelopes && e.id == x)
    || (exists c :: c in p.categories && c.id == x)
    || (exists t :: t in p.tags && t.id == x)
    || (exists v :: v in p.savings && v.account == x)
  }

  ghost predicate EnvelopesPlaced(p: Participants, before: map<Id, Element>, after: map<Id, Element>) {
    forall e :: e in p.envelopes ==>
      Placed(before, after, e.id, if StoredIncome(before, e.id) then IncomeEnvelope else Envelope, !e.archived, true,
             None)
  }

  ghost predicate CategoriesPlaced(p: Participants, before: map<Id, Element>, after: map<Id, Element>) {
    forall c :: c in p.categories ==>
      Placed(before, after, c.id, if c.income then IncomeCategory else Category,
             !c.archived && !InEnvelope(p, c.id), !InEnvelope(p, c.id), None)
  }

  ghost predicate TagsPlaced(p: Participants, before: map<Id, Element>, after: map<Id, Element>) {
    forall t :: t in p.tags ==> Placed(before, after, t.id, Tag, !t.archived, true, None)
  }

  ghost predicate SavingsPlaced(p: Participants, before: map<Id, Element>, after: map<Id, Element>) {
    forall v :: v in p.savings ==> Placed(before, after, v.account, Savings, true, false, Some(v.currency))
  }

  /**
   * One row for each that takes part and no other, each in its place; a stored row stays exactly if its entity does.
   */
  ghost predicate AllPlaced(p: Participants, before: map<Id, Element>, after: map<Id, Element>) {
    && EnvelopesPlaced(p, before, after) && CategoriesPlaced(p, before, after)
    && TagsPlaced(p, before, after) && SavingsPlaced(p, before, after)
    && (forall r :: r in after ==> TakesPart(p, after[r].external))
    && (forall r :: r in before ==> (r in after <==> TakesPart(p, before[r].external)))
  }

  lemma ClaimPlaced(budget: Id, before: map<Id, Element>, after: map<Id, Element>, claims: seq<Claim>, i: int)
    requires Distinct(claims) && Synced(budget, before, after, claims) && 0 <= i < |claims|
    ensures var c := claims[i]; Placed(before, after, c.external, c.kind, c.live, !c.loose, c.currency)
  {
    hide NewKeysLast;
    ClaimHasRow(budget, before, after, claims, i);
    forall r | r in after && after[r].external == claims[i].external
      ensures Meets(budget, before, claims[i], r, after[r]) {
      ItsClaim(budget, before, after, claims, i, r);
    }
    hide Synced, Distinct;
  }

  lemma ClaimsAt(p: Participants, before: map<Id, Element>)
    ensures var claims, a, b, c := Claims(p, before), |p.envelopes|, |p.envelopes| + |p.categories|,
                                   |p.envelopes| + |p.categories| + |p.tags|;
      && |claims| == c + |p.savings|
      && (forall i :: 0 <= i < |p.envelopes| ==> claims[i] == EnvelopeClaim(before, p.envelopes[i]))
      && (forall i :: 0 <= i < |p.categories| ==> claims[a + i] == CategoryClaim(p.envelopes, p.categories[i]))
      && (forall i :: 0 <= i < |p.tags| ==> claims[b + i] == TagClaim(p.tags[i]))
      && (forall i :: 0 <= i < |p.savings| ==> claims[c + i] == SavingsClaim(p.savings[i]))
  {
    hide EnvelopeClaim, CategoryClaim, TagClaim, SavingsClaim;
  }

  lemma ClaimedTakesPart(p: Participants, before: map<Id, Element>, x: Id)
    ensures Claimed(Claims(p, before), x) <==> TakesPart(p, x)
  {
    var claims, a, b, c := Claims(p, before), |p.envelopes|, |p.envelopes| + |p.categories|,
      |p.envelopes| + |p.categories| + |p.tags|;
    ClaimsAt(p, before);
    hide Claims;
    if Claimed(claims, x) {
      var i :| 0 <= i < |claims| && claims[i].external == x;
      if i < a {
        assert claims[i] == EnvelopeClaim(before, p.envelopes[i]) && p.envelopes[i] in p.envelopes;
      } else if i < b {
        assert claims[a + (i - a)] == CategoryClaim(p.envelopes, p.categories[i - a])
               && p.categories[i - a] in p.categories;
      } else if i < c {
        assert claims[b + (i - b)] == TagClaim(p.tags[i - b]) && p.tags[i - b] in p.tags;
      } else {
        assert claims[c + (i - c)] == SavingsClaim(p.savings[i - c]) && p.savings[i - c] in p.savings;
      }
    }
    if e :| e in p.envelopes && e.id == x {
      var i :| 0 <= i < |p.envelopes| && p.envelopes[i] == e;
      assert claims[i].external == x;
    } else if d :| d in p.categories && d.id == x {
      var i :| 0 <= i < |p.categories| && p.categories[i] == d;
      assert claims[a + i].external == x;
    } else if t :| t in p.tags && t.id == x {
      var i :| 0 <= i < |p.tags| && p.tags[i] == t;
      assert claims[b + i].external == x;
    } else if v :| v in p.savings && v.account == x {
      var i :| 0 <= i < |p.savings| && p.savings[i] == v;
      assert claims[c + i].external == x;
    }
  }

  lemma ChildInEnvelope(p: Participants, x: Id)
    ensures IsChild(p.envelopes, x) <==> InEnvelope(p, x)
  {
    if IsChild(p.envelopes, x) {
      var i :| 0 <= i < |p.envelopes| && x in p.envelopes[i].categories;
      assert p.envelopes[i] in p.envelopes;
    }
    if InEnvelope(p, x) {
      var e :| e in p.envelopes && x in e.categories;
      var i :| 0 <= i < |p.envelopes| && p.envelopes[i] == e;
      assert x in p.envelopes[i].categories;
    }
  }

  lemma EnvelopesAre(budget: Id, p: Participants, before: map<Id, Element>, after: map<Id, Element>)
    requires Distinct(Claims(p, before)) && Synced(budget, before, after, Claims(p, before))
    ensures EnvelopesPlaced(p, before, after)
  {
    ClaimsAt(p, before);
    var claims := Claims(p, before);
    hide Claims, Placed, Synced, IsChild, InEnvelope, Distinct;
    forall e | e in p.envelopes
      ensures Placed(before, after, e.id, if StoredIncome(before, e.id) then IncomeEnvelope else Envelope, !e.archived,
                     true, None) {
      var i :| 0 <= i < |p.envelopes| && p.envelopes[i] == e;
      ClaimPlaced(budget, before, after, claims, i);
    }
  }

  lemma CategoriesAre(budget: Id, p: Participants, before: map<Id, Element>, after: map<Id, Element>)
    requires Distinct(Claims(p, before)) && Synced(budget, before, after, Claims(p, before))
    ensures CategoriesPlaced(p, before, after)
  {
    ClaimsAt(p, before);
    var claims := Claims(p, before);
    hide Claims, Placed, Synced, IsChild, InEnvelope, Distinct;
    forall d | d in p.categories
      ensures Placed(before, after, d.id, if d.income then IncomeCategory else Category,
                     !d.archived && !InEnvelope(p, d.id), !InEnvelope(p, d.id), None) {
      var i :| 0 <= i < |p.categories| && p.categories[i] == d;
      ClaimPlaced(budget, before, after, claims, |p.envelopes| + i);
      ChildInEnvelope(p, d.id);
    }
  }

  lemma TagsAre(budget: Id, p: Participants, before: map<Id, Element>, after: map<Id, Element>)
    requires Distinct(Claims(p, before)) && Synced(budget, before, after, Claims(p, before))
    ensures TagsPlaced(p, before, after)
  {
    ClaimsAt(p, before);
    var claims := Claims(p, before);
    hide Claims, Placed, Synced, IsChild, InEnvelope, Distinct;
    forall t | t in p.tags
      ensures Placed(before, after, t.id, Tag, !t.archived, true, None) {
      var i :| 0 <= i < |p.tags| && p.tags[i] == t;
      ClaimPlaced(budget, before, after, claims, |p.envelopes| + |p.categories| + i);
    }
  }

  lemma SavingsAre(budget: Id, p: Participants, before: map<Id, Element>, after: map<Id, Element>)
    requires Distinct(Claims(p, before)) && Synced(budget, before, after, Claims(p, before))
    ensures SavingsPlaced(p, before, after)
  {
    ClaimsAt(p, before);
    var claims := Claims(p, before);
    hide Claims, Placed, Synced, IsChild, InEnvelope, Distinct;
    forall v | v in p.savings
      ensures Placed(before, after, v.account, Savings, true, false, Some(v.currency)) {
      var i :| 0 <= i < |p.savings| && p.savings[i] == v;
      ClaimPlaced(budget, before, after, claims, |p.envelopes| + |p.categories| + |p.tags| + i);
    }
  }

  /** A reconciled budget, in terms of what takes part in it. */
  lemma SyncedPlaces(budget: Id, p: Participants, before: map<Id, Element>, after: map<Id, Element>)
    requires Distinct(Claims(p, before)) && Synced(budget, before, after, Claims(p, before))
    ensures AllPlaced(p, before, after)
  {
    EnvelopesAre(budget, p, before, after);
    CategoriesAre(budget, p, before, after);
    TagsAre(budget, p, before, after);
    SavingsAre(budget, p, before, after);
    WhoIsThere(budget, p, before, after);
    hide EnvelopesPlaced, CategoriesPlaced, TagsPlaced, SavingsPlaced, Claims, Synced, Distinct, TakesPart;
  }

  lemma WhoIsThere(budget: Id, p: Participants, before: map<Id, Element>, after: map<Id, Element>)
    requires Synced(budget, before, after, Claims(p, before))
    ensures forall r :: r in after ==> TakesPart(p, after[r].external)
    ensures forall r :: r in before ==> (r in after <==> TakesPart(p, before[r].external))
  {
    hide Claims, TakesPart, NewKeysLast, Meets;
    forall r | r in after ensures TakesPart(p, after[r].external) {
      assert MeetsOne(budget, before, Claims(p, before), r, after[r]);
      assert Claimed(Claims(p, before), after[r].external);
      ClaimedTakesPart(p, before, after[r].external);
    }
    forall r | r in before ensures r in after <==> TakesPart(p, before[r].external) {
      ClaimedTakesPart(p, before, before[r].external);
    }
  }
}
