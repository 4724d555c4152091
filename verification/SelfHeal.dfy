/** Finding the row to write under: a miss restores the budget's rows once and looks again. */
module SelfHeal {
  import opened Prelude
  import opened BudgetStore
  import opened ElementClaims
  import opened Reconciled
  import opened ElementSync
  import opened Membership
  import MergeElements

  /**
   * A row that is there is answered as it is. Otherwise the rows are reconciled, and an entity is found exactly when it
   * takes part in the budget or is one of its savings accounts: nothing else makes it appear, and a savings account let
   * go of does not come back.
   */
  method GetElementSelfHeal(store: Store, budget: Id, p: Participants, accounts: map<Id, Account>, external: Id)
    returns (ok: bool, found: Option<Id>)
    requires Consistent(store.State()) && budget in store.members
    requires Apart(p, store.members[budget], RowsOf(store.elements, budget))
    requires forall x :: x in store.members[budget] ==> x in accounts
    modifies store
    ensures Consistent(store.State())
    ensures found.Some? ==> ok && MergeElements.RowFor(store.State(), budget, external, found.value)
    ensures HasRow(RowsOf(old(store.elements), budget), external) ==> found.Some? && store.State() == old(store.State())
    ensures !HasRow(RowsOf(old(store.elements), budget), external) && ok ==>
      (found.Some? <==> Claimed(Claims(p, RowsOf(old(store.elements), budget)), external)
                        || SavingsIn(old(store.members)[budget], external))
    ensures !HasRow(RowsOf(old(store.elements), budget), external) && ok ==>
      Followed(budget, old(store.State()), store.State(), p, old(store.members)[budget], accounts)
    ensures !ok ==> store.State() == old(store.State()) && BlockedWith(old(store.State()), budget, p, accounts)
  {
    hide Claims, Apart, BlockedWith, Consistent, Followed;
    found := MergeElements.FindRow(store, budget, external);
    ghost var rows := store.State();
    HasRowFor(store.State(), budget, external);
    if found.Some? {
      return true, found;
    }
    ok := SyncBudget(store, budget, p, accounts);
    if !ok {
      return;
    }
    found := MergeElements.FindRow(store, budget, external);
    HasRowFor(store.State(), budget, external);
    FollowedHasRow(budget, rows, store.State(), p, rows.members[budget], accounts, external);
  }

  lemma FollowedHasRow(budget: Id, old_: Rows, new_: Rows, p: Participants, members: map<Id, bool>,
                       accounts: map<Id, Account>, external: Id)
    requires Followed(budget, old_, new_, p, members, accounts) && Apart(p, members, RowsOf(old_.elements, budget))
    ensures HasRow(RowsOf(new_.elements, budget), external) <==>
      Claimed(Claims(p, RowsOf(old_.elements, budget)), external) || SavingsIn(members, external)
  {
    var before, after := RowsOf(old_.elements, budget), RowsOf(new_.elements, budget);
    hide Claims, Synced, Without, RowsOf, Apart;
    var all :| Joined(p, members, accounts, all)
      && Outcomes(budget, old_, new_, Claims(all, before), Changed(before, after), before.Keys - after.Keys);
    hide Joined;
    JoinedDistinct(p, members, before, accounts, all);
    ClaimedHasRow(budget, before, after, Claims(all, before), external);
  }

  lemma HasRowFor(rows: Rows, budget: Id, external: Id)
    ensures HasRow(RowsOf(rows.elements, budget), external) <==>
              exists r :: MergeElements.RowFor(rows, budget, external, r)
  {
    if HasRow(RowsOf(rows.elements, budget), external) {
      var r :| r in RowsOf(rows.elements, budget) && RowsOf(rows.elements, budget)[r].external == external;
      assert MergeElements.RowFor(rows, budget, external, r);
    }
    if r :| MergeElements.RowFor(rows, budget, external, r) {
      assert r in RowsOf(rows.elements, budget);
    }
  }

  /** After a reconciliation an entity has a row exactly when it takes part. */
  lemma ClaimedHasRow(budget: Id, before: map<Id, Element>, after: map<Id, Element>, claims: seq<Claim>, external: Id)
    requires Synced(budget, before, after, claims)
    ensures HasRow(after, external) <==> Claimed(claims, external)
  {
    if Claimed(claims, external) {
      var i :| 0 <= i < |claims| && claims[i].external == external;
      assert HasRow(after, claims[i].external);
    }
    if HasRow(after, external) {
      var r :| r in after && after[r].external == external;
      assert MeetsOne(budget, before, claims, r, after[r]);
    }
  }
}
