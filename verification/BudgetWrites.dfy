/**
 * Every way a budget's rows are written, and what no run of them can produce: a savings row without a savings account.
 */
module BudgetWrites {
  import opened Prelude
  import opened BudgetStore
  import opened ElementClaims
  import opened Reconciled
  import opened ElementSync
  import opened Membership
  import MergeElements

  /** Every savings row belongs to an account that plays the savings role in its budget. */
  ghost predicate Rooted(rows: Rows) {
    forall r :: r in rows.elements ==> Held(rows, rows.elements[r])
  }

  predicate Held(rows: Rows, e: Element) {
    e.kind == Savings ==> SavingsIn(MembersOf(rows, e.budget), e.external)
  }

  lemma RootedNoStale(rows: Rows, budget: Id)
    requires Rooted(rows)
    ensures NoStale(rows, budget)
  {
  }

  /** A participant joins: their live accounts become members, none of them for savings. */
  method SeedMemberAccounts(store: Store, budget: Id, live: seq<Id>)
    requires Consistent(store.State()) && budget in store.members
    modifies store`members
    ensures Consistent(store.State()) && Joins(old(store.State()), store.State(), budget, IdSet(live))
  {
    for i := 0 to |live|
      invariant budget in store.members && store.members == old(store.members)[budget := store.members[budget]]
      invariant Joining(old(store.members)[budget], store.members[budget], IdSet(live[..i]))
    {
      assert live[..i + 1] == live[..i] + [live[i]];
      store.AddAccount(budget, live[i], false);
    }
    assert live[..|live|] == live;
    assert store.State() == old(store.State()).(members := store.members);
    assert Consistent(store.State()) by { MembersApart(old(store.State()), store.State()); }
  }

  ghost predicate Joining(before: map<Id, bool>, after: map<Id, bool>, live: set<Id>) {
    && after.Keys == before.Keys + live
    && forall x :: x in after ==> after[x] == (x in before && before[x])
  }

  ghost predicate Joins(a: Rows, b: Rows, budget: Id, live: set<Id>) {
    && budget in a.members && budget in b.members && b == a.(members := a.members[budget := b.members[budget]])
    && Joining(a.members[budget], b.members[budget], live)
  }

  /**
   * The rows a departing participant takes along: those of their categories and tags, and of their savings accounts.
   */
  ghost predicate Leaves(rows: Rows, budget: Id, owned: set<Id>, accounts: set<Id>, r: Id) {
    && r in rows.elements && rows.elements[r].budget == budget
    && var e := rows.elements[r];
    || (e.kind != Envelope && e.external in owned)
    || (e.kind == Savings && e.external in accounts && e.external in MembersOf(rows, budget))
  }

  ghost predicate Departs(a: Rows, b: Rows, budget: Id, owned: set<Id>, accounts: set<Id>) {
    && budget in a.members
    && exists gone :: AllLeaving(a, budget, owned, accounts, gone)
         && b == Without(a, gone).(members := a.members[budget := a.members[budget] - accounts])
  }

  ghost predicate AllLeaving(rows: Rows, budget: Id, owned: set<Id>, accounts: set<Id>, gone: set<Id>) {
    forall r :: r in gone <==> Leaves(rows, budget, owned, accounts, r)
  }

  /** Together the two passes take exactly the rows that leave. */
  lemma TwoPasses(rows: Rows, budget: Id, owned: set<Id>, accounts: set<Id>, first: set<Id>, second: set<Id>)
    requires forall r :: r in first <==>
               r in rows.elements && rows.elements[r].budget == budget && rows.elements[r].kind != Envelope
               && rows.elements[r].external in owned
    requires var left := Without(rows, first);
      forall r :: r in second <==>
        r in left.elements && left.elements[r].budget == budget && left.elements[r].kind == Savings
        && left.elements[r].external in accounts && left.elements[r].external in MembersOf(rows, budget)
    ensures AllLeaving(rows, budget, owned, accounts, first + second)
  {
    assert Without(rows, first).elements == rows.elements - first;
    hide Without;
  }

  /** A participant departs, without being asked to confirm: their rows go first, then their accounts. */
  method RemoveMemberRecords(store: Store, budget: Id, owned: set<Id>, accounts: set<Id>)
    requires Consistent(store.State()) && budget in store.members
    modifies store
    ensures Consistent(store.State()) && Departs(old(store.State()), store.State(), budget, owned, accounts)
  {
    hide Without, AllLeaving, Consistent;
    ghost var rows := store.State();
    var first := set r | r in store.elements && store.elements[r].budget == budget
      && store.elements[r].kind != Envelope && store.elements[r].external in owned;
    DeleteRows(store, first);
    var second := set r | r in store.elements && store.elements[r].budget == budget && store.elements[r].kind == Savings
      && store.elements[r].external in accounts && store.elements[r].external in store.members[budget];
    DeleteRows(store, second);
    TwiceWithout(rows, first, second);
    TwoPasses(rows, budget, owned, accounts, first, second);
    ghost var gone := store.State();
    store.members := store.members[budget := store.members[budget] - accounts];
    assert Consistent(store.State()) by { MembersApart(gone, store.State()); }
  }

  method DeleteRows(store: Store, gone: set<Id>)
    requires Consistent(store.State())
    modifies store`elements, store`limits, store`comments
    ensures Consistent(store.State()) && store.State() == Without(old(store.State()), gone)
  {
    ghost var rows := store.State();
    var rest := gone;
    NothingGone(rows);
    while rest != {}
      invariant rest <= gone && Consistent(store.State()) && store.State() == Without(rows, gone - rest)
    {
      hide Without, Consistent;
      var r :| r in rest;
      store.DeleteElement(r);
      MoreGone(rows, gone - rest, r);
      assert gone - (rest - {r}) == gone - rest + {r};
      rest := rest - {r};
    }
    assert gone - rest == gone;
  }

  lemma TwiceWithout(rows: Rows, a: set<Id>, b: set<Id>)
    ensures Without(Without(rows, a), b) == Without(rows, a + b)
  {
    var twice, once := Without(Without(rows, a), b), Without(rows, a + b);
    assert twice.elements == once.elements;
    assert twice.limits == once.limits;
    assert twice.comments == once.comments;
  }

  /** A budget comes into being without rows. */
  ghost predicate Opens(a: Rows, b: Rows, budget: Id, members: map<Id, bool>) {
    && budget !in a.members && (forall r :: r in a.elements ==> a.elements[r].budget != budget)
    && b == a.(members := a.members[budget := members])
  }

  /** Envelopes, categories and tags get rows: a new budget is seeded, a participant joins, an envelope is made. */
  ghost predicate Seeds(a: Rows, b: Rows) {
    && b == a.(elements := b.elements)
    && (forall r :: r in a.elements ==> r in b.elements && b.elements[r] == a.elements[r])
    && (forall r :: r in b.elements && r !in a.elements ==> b.elements[r].kind != Savings)
  }

  /** Rows are moved, or shown in another currency. */
  ghost predicate Rearranges(a: Rows, b: Rows) {
    && b == a.(elements := b.elements) && b.elements.Keys == a.elements.Keys
    && forall r :: r in a.elements ==> SameEntity(a.elements[r], b.elements[r])
  }

  predicate SameEntity(e: Element, f: Element) {
    f == e.(currency := f.currency, folder := f.folder, key := f.key)
  }

  /** An envelope goes, and its row with it. */
  ghost predicate DropsRow(a: Rows, b: Rows, r: Id) {
    r in a.elements && a.elements[r].kind != Savings && b == Without(a, {r})
  }

  /** A budget is copied: the same members in the same roles, and a row for each row of the source. */
  ghost predicate Clones(a: Rows, b: Rows, source: Id, copy: Id) {
    && source in a.members && copy !in a.members
    && b == a.(members := a.members[copy := a.members[source]], elements := b.elements, limits := b.limits,
               comments := b.comments)
    && (forall r :: r in a.elements ==> r in b.elements && b.elements[r] == a.elements[r])
    && (forall r :: r in b.elements && r !in a.elements ==> CopiedFrom(a, source, copy, b.elements[r]))
  }

  /** An envelope's copy has a new name; every other row's copy keeps its entity. */
  ghost predicate CopiedFrom(a: Rows, source: Id, copy: Id, e: Element) {
    exists r :: r in a.elements && a.elements[r].budget == source && e.budget == copy && e.kind == a.elements[r].kind
                && (e.kind != Envelope ==> e.external == a.elements[r].external)
  }

  /** A budget is deleted with everything in it. */
  ghost predicate Closes(a: Rows, b: Rows, budget: Id) {
    b == Without(a, RowsIn(a, budget)).(members := a.members - {budget})
  }

  function RowsIn(rows: Rows, budget: Id): set<Id> {
    set r | r in rows.elements && rows.elements[r].budget == budget
  }

  /** Planned amounts and comments change. */
  ghost predicate Plans(a: Rows, b: Rows) {
    b == a.(limits := b.limits, comments := b.comments)
  }

  ghost predicate ChangesMembers(a: Rows, b: Rows, budget: Id, p: Participants, goal: map<Id, bool>,
                                 accounts: map<Id, Account>)
  {
    budget in a.members && Apart(p, goal, RowsOf(a.elements, budget)) && Written(budget, a, b, p, goal, accounts)
  }

  ghost predicate Syncs(a: Rows, b: Rows, budget: Id, p: Participants, accounts: map<Id, Account>) {
    budget in a.members && Followed(budget, a, b, p, a.members[budget], accounts)
  }

  /** Two categories or two tags are merged; neither is an account of any budget. */
  ghost predicate Merges(a: Rows, b: Rows, x: Id, y: Id) {
    && x != y && MergeElements.Merged(a, b, MergeElements.AllBudgets(a, x), x, y)
    && forall budget :: x !in MembersOf(a, budget)
  }

  /** One write of any kind, to a store that accepts it. */
  ghost predicate Writes(a: Rows, b: Rows) {
    && Consistent(b)
    && (|| (exists budget, p, goal, accounts :: ChangesMembers(a, b, budget, p, goal, accounts))
        || (exists budget, p, accounts :: Syncs(a, b, budget, p, accounts))
        || (exists x, y :: Merges(a, b, x, y))
        || (exists budget, live :: Joins(a, b, budget, live))
        || (exists budget, owned, accounts :: Departs(a, b, budget, owned, accounts))
        || (exists budget, members :: Opens(a, b, budget, members))
        || (exists source, copy :: Clones(a, b, source, copy))
        || (exists budget :: Closes(a, b, budget))
        || (exists r :: DropsRow(a, b, r))
        || Seeds(a, b) || Rearranges(a, b) || Plans(a, b))
  }

  /** A reconciliation leaves its budget's savings rows to the savings members, and every other budget alone. */
  lemma FollowedRooted(budget: Id, old_: Rows, new_: Rows, p: Participants, members: map<Id, bool>,
                       accounts: map<Id, Account>)
    requires Followed(budget, old_, new_, p, members, accounts) && MembersOf(old_, budget) == members
    ensures new_.members == old_.members
    ensures forall r :: r in new_.elements && new_.elements[r].budget != budget ==>
              r in old_.elements && new_.elements[r] == old_.elements[r]
    ensures NoStale(new_, budget)
  {
    hide Claims;
    var before, after := RowsOf(old_.elements, budget), RowsOf(new_.elements, budget);
    var all :| Joined(p, members, accounts, all)
      && Outcomes(budget, old_, new_, Claims(all, before), Changed(before, after), before.Keys - after.Keys);
    WithoutElements(old_.(elements := old_.elements + after), before.Keys - after.Keys);
    assert new_.members == old_.members by { WithoutMembers(old_.(elements := old_.elements + after),
                                                            before.Keys - after.Keys); }
    forall r | IsSavingsRow(new_, budget, r)
      ensures SavingsIn(MembersOf(new_, budget), new_.elements[r].external)
    {
      assert r in after && MeetsOne(budget, before, Claims(all, before), r, after[r]);
      SavingsClaimed(p, members, accounts, all, budget, before, r, after[r]);
    }
    hide Joined, Synced, Without, MeetsOne;
  }

  lemma RootedElsewhere(old_: Rows, new_: Rows, budget: Id)
    requires Rooted(old_) && NoStale(new_, budget)
    requires forall b :: b != budget ==> MembersOf(new_, b) == MembersOf(old_, b)
    requires forall r :: r in new_.elements && new_.elements[r].budget != budget ==>
               r in old_.elements && new_.elements[r] == old_.elements[r]
    ensures Rooted(new_)
  {
    forall r | r in new_.elements ensures Held(new_, new_.elements[r])
    {
      if new_.elements[r].budget == budget {
        assert new_.elements[r].kind == Savings ==> IsSavingsRow(new_, budget, r);
      } else {
        assert Held(old_, old_.elements[r]);
        assert old_.elements[r] == new_.elements[r];
      }
    }
  }

  lemma SyncsRooted(a: Rows, b: Rows, budget: Id, p: Participants, accounts: map<Id, Account>)
    requires Rooted(a) && Syncs(a, b, budget, p, accounts)
    ensures Rooted(b)
  {
    FollowedRooted(budget, a, b, p, a.members[budget], accounts);
    hide Followed, NoStale, Rooted;
    RootedElsewhere(a, b, budget);
  }

  lemma ChangesMembersRooted(a: Rows, b: Rows, budget: Id, p: Participants, goal: map<Id, bool>,
                             accounts: map<Id, Account>)
    requires Rooted(a) && ChangesMembers(a, b, budget, p, goal, accounts)
    ensures Rooted(b)
  {
    RootedNoStale(a, budget);
    StaleFree(budget, a, b, p, goal, accounts);
    WrittenElsewhere(a, b, budget, p, goal, accounts);
    hide *;
    RootedElsewhere(a, b, budget);
  }

  lemma WrittenElsewhere(a: Rows, b: Rows, budget: Id, p: Participants, goal: map<Id, bool>, accounts: map<Id, Account>)
    requires Written(budget, a, b, p, goal, accounts)
    ensures b.members == a.members[budget := goal]
    ensures forall x :: x != budget ==> MembersOf(b, x) == MembersOf(a, x)
    ensures forall r :: r in b.elements && b.elements[r].budget != budget ==>
              r in a.elements && b.elements[r] == a.elements[r]
  {
    var moved := a.(members := a.members[budget := goal]);
    if !SameSavings(MembersOf(a, budget), goal) {
      hide SameSavings;
      FollowedRooted(budget, moved, b, p, goal, accounts);
    }
    hide Followed, SameSavings;
  }

  lemma MergesRooted(a: Rows, b: Rows, x: Id, y: Id)
    requires Rooted(a) && Merges(a, b, x, y)
    ensures Rooted(b)
  {
    hide MergeElements.LimitsMerged, MergeElements.CommentsMerged, MergeElements.Absorbed;
    forall r | r in b.elements ensures Held(b, b.elements[r])
    {
      var e := a.elements[r];
      assert Held(a, e) && e.kind == b.elements[r].kind && e.budget == b.elements[r].budget;
      assert x !in MembersOf(a, e.budget);
    }
  }

  lemma MembershipRooted(a: Rows, b: Rows, budget: Id)
    requires Rooted(a)
    requires (exists live :: Joins(a, b, budget, live))
             || (exists owned, accounts :: Departs(a, b, budget, owned, accounts))
      || (exists members :: Opens(a, b, budget, members)) || Plans(a, b)
    ensures Rooted(b)
  {
    if owned, accounts :| Departs(a, b, budget, owned, accounts) {
      DepartsRooted(a, b, budget, owned, accounts);
    }
  }

  lemma DepartsRooted(a: Rows, b: Rows, budget: Id, owned: set<Id>, accounts: set<Id>)
    requires Rooted(a) && Departs(a, b, budget, owned, accounts)
    ensures Rooted(b)
  {
    var gone :| AllLeaving(a, budget, owned, accounts, gone)
      && b == Without(a, gone).(members := a.members[budget := a.members[budget] - accounts]);
    forall r | r in b.elements ensures Held(b, b.elements[r])
    {
      assert r in a.elements && a.elements[r] == b.elements[r] && !Leaves(a, budget, owned, accounts, r);
    }
  }

  lemma ClonesRooted(a: Rows, b: Rows, source: Id, copy: Id)
    requires Rooted(a) && Clones(a, b, source, copy)
    ensures Rooted(b)
  {
    forall r | r in b.elements ensures Held(b, b.elements[r]) {
      if r in a.elements {
        assert Held(a, a.elements[r]);
      } else {
        var o :| o in a.elements && a.elements[o].budget == source && b.elements[r].budget == copy
          && b.elements[r].kind == a.elements[o].kind
          && (b.elements[r].kind != Envelope ==> b.elements[r].external == a.elements[o].external);
        assert Held(a, a.elements[o]);
      }
    }
  }

  lemma ClosesRooted(a: Rows, b: Rows, budget: Id)
    requires Rooted(a) && Closes(a, b, budget)
    ensures Rooted(b)
  {
    forall r | r in b.elements ensures Held(b, b.elements[r]) {
      assert r in a.elements && Held(a, a.elements[r]) && a.elements[r].budget != budget;
    }
  }

  lemma RowsRooted(a: Rows, b: Rows)
    requires Rooted(a) && (Seeds(a, b) || Rearranges(a, b) || (exists r :: DropsRow(a, b, r)))
    ensures Rooted(b)
  {
    forall r | r in b.elements ensures Held(b, b.elements[r]) {
      if r in a.elements { assert Held(a, a.elements[r]); }
    }
  }

  /** No write leaves a savings row behind its account's savings role. */
  lemma WritesRooted(a: Rows, b: Rows)
    requires Rooted(a) && Writes(a, b)
    ensures Rooted(b)
  {
    hide Rooted, ChangesMembers, Syncs, Merges, Joins, Departs, Opens, Plans, Consistent;
    hide Clones, Closes, DropsRow, Seeds, Rearranges;
    if budget, p, goal, accounts :| ChangesMembers(a, b, budget, p, goal, accounts) {
      ChangesMembersRooted(a, b, budget, p, goal, accounts);
    } else if budget, p, accounts :| Syncs(a, b, budget, p, accounts) {
      SyncsRooted(a, b, budget, p, accounts);
    } else if x, y :| Merges(a, b, x, y) {
      MergesRooted(a, b, x, y);
    } else if budget, live :| Joins(a, b, budget, live) {
      MembershipRooted(a, b, budget);
    } else if budget, owned, accounts :| Departs(a, b, budget, owned, accounts) {
      MembershipRooted(a, b, budget);
    } else if budget, members :| Opens(a, b, budget, members) {
      MembershipRooted(a, b, budget);
    } else if source, copy :| Clones(a, b, source, copy) {
      ClonesRooted(a, b, source, copy);
    } else if budget :| Closes(a, b, budget) {
      ClosesRooted(a, b, budget);
    } else if r :| DropsRow(a, b, r) {
      RowsRooted(a, b);
    } else if Plans(a, b) {
      MembershipRooted(a, b, 0);
    } else {
      RowsRooted(a, b);
    }
  }

  /** A run of writes, from a store without rows. */
  ghost predicate History(trace: seq<Rows>) {
    && trace != [] && Consistent(trace[0]) && trace[0].elements == map[]
    && forall i :: 0 <= i < |trace| - 1 ==> Writes(trace[i], trace[i + 1])
  }

  lemma {:induction false} HistoryRooted(trace: seq<Rows>)
    requires History(trace)
    ensures Rooted(trace[|trace| - 1]) && Consistent(trace[|trace| - 1])
    decreases |trace|
  {
    var n := |trace| - 1;
    if n > 0 {
      hide Writes, Consistent, Rooted;
      assert History(trace[..n]) by {
        forall i | 0 <= i < n - 1 ensures Writes(trace[..n][i], trace[..n][i + 1]) {
          assert Writes(trace[i], trace[i + 1]);
        }
      }
      HistoryRooted(trace[..n]);
      assert Writes(trace[n - 1], trace[n]);
      WritesRooted(trace[n - 1], trace[n]);
      WritesConsistent(trace[n - 1], trace[n]);
    }
  }

  lemma WritesConsistent(a: Rows, b: Rows)
    requires Writes(a, b)
    ensures Consistent(b)
  {
  }

  /**
   * On every store a run of writes can reach, an unconfirmed membership write either changes nothing or leaves every
   * planned amount and every comment on the budget's savings rows where it was, unchanged.
   */
  lemma UnconfirmedNeverLoses(trace: seq<Rows>, budget: Id, new_: Rows, p: Participants, goal: map<Id, bool>,
                              accounts: map<Id, Account>,
                              refusal: Option<Refusal>)
    requires History(trace)
    requires Apart(p, goal, RowsOf(trace[|trace| - 1].elements, budget))
    requires Concluded(refusal, budget, trace[|trace| - 1], new_, p, goal, accounts, false)
    ensures var s := trace[|trace| - 1];
      || new_ == s
      || (&& (forall l :: l in s.limits && l.element in s.elements && s.elements[l.element].budget == budget
                          && s.elements[l.element].kind == Savings ==>
                l in new_.limits && new_.limits[l] == s.limits[l])
          && (forall c :: c in s.comments && s.comments[c].element in s.elements
                          && s.elements[s.comments[c].element].budget == budget
                          && s.elements[s.comments[c].element].kind == Savings ==>
                c in new_.comments && new_.comments[c] == s.comments[c]))
  {
    var s := trace[|trace| - 1];
    HistoryRooted(trace);
    RootedNoStale(s, budget);
    hide History, Rooted, Apart, Written, LosesData, NoStale, Consistent;
    if refusal.None? {
      UnconfirmedKeepsPlans(budget, s, new_, p, goal, accounts);
    }
  }

  /** The store in which a write could delete a leftover row unasked is out of every run's reach. */
  lemma LeftoverUnreachable(trace: seq<Rows>)
    requires History(trace)
    ensures trace[|trace| - 1] != LeftoverBefore()
  {
    HistoryRooted(trace);
    var rows := LeftoverBefore();
    assert !Held(rows, rows.elements[10]);
    hide History, Consistent;
  }
}
