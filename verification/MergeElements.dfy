/**
 * Folding one classification's budget presence into another's, in every budget it appears in, without losing a plan.
 */
module MergeElements {
  import opened Prelude
  import opened BudgetStore

  function Amount(limits: map<Slot, int>, r: Id, month: int): Option<int> {
    if Slot(r, month) in limits then Some(limits[Slot(r, month)]) else None
  }

  /** Two planned amounts together; a missing one counts nothing, and two missing ones stay missing. */
  function Plus(a: Option<int>, b: Option<int>): Option<int> {
    if a.None? then b else if b.None? then a else Some(a.value + b.value)
  }

  ghost predicate RowFor(rows: Rows, budget: Id, external: Id, r: Id) {
    r in rows.elements && rows.elements[r].budget == budget && rows.elements[r].external == external
  }

  /** s is merged into t: same budget, one the row of the old entity, the other of the new. */
  ghost predicate Absorbs(rows: Rows, done: set<Id>, x: Id, y: Id, t: Id, s: Id) {
    && t in rows.elements && s in rows.elements
    && rows.elements[t].budget == rows.elements[s].budget && rows.elements[t].budget in done
    && rows.elements[s].external == x && rows.elements[t].external == y
  }

  ghost predicate Absorbed(rows: Rows, done: set<Id>, x: Id, y: Id, s: Id) {
    exists t :: Absorbs(rows, done, x, y, t, s)
  }

  /** The row takes over the new entity in place. */
  ghost predicate Renamed(rows: Rows, done: set<Id>, x: Id, y: Id, r: Id) {
    && r in rows.elements && rows.elements[r].external == x && rows.elements[r].budget in done
    && !Absorbed(rows, done, x, y, r)
  }

  ghost predicate ElementsMerged(rows: Rows, next: Rows, done: set<Id>, x: Id, y: Id) {
    && (forall r :: r in next.elements <==> r in rows.elements && !Absorbed(rows, done, x, y, r))
    && (forall r :: r in next.elements ==>
          next.elements[r] == if Renamed(rows, done, x, y, r) then rows.elements[r].(external := y)
                              else rows.elements[r])
  }

  ghost predicate LimitsMerged(rows: Rows, next: Rows, done: set<Id>, x: Id, y: Id) {
    && (forall t, s, m {:trigger Absorbs(rows, done, x, y, t, s), Amount(next.limits, t, m)} ::
          Absorbs(rows, done, x, y, t, s) ==>
              Amount(next.limits, t, m) == Plus(Amount(rows.limits, t, m), Amount(rows.limits, s, m)))
    && (forall t, m {:trigger Amount(next.limits, t, m)} ::
          t in next.elements && (forall s :: !Absorbs(rows, done, x, y, t, s)) ==>
              Amount(next.limits, t, m) == Amount(rows.limits, t, m))
  }

  ghost predicate CommentsMerged(rows: Rows, next: Rows, done: set<Id>, x: Id, y: Id) {
    && next.comments.Keys == rows.comments.Keys
    && (forall c :: c in rows.comments ==>
          && next.comments[c] == rows.comments[c].(element := next.comments[c].element)
          && (forall t :: Absorbs(rows, done, x, y, t, rows.comments[c].element) ==> next.comments[c].element == t)
          && (!Absorbed(rows, done, x, y, rows.comments[c].element) ==> next.comments[c] == rows.comments[c]))
  }

  /** In the budgets done, the old entity's row is merged into the new entity's, or becomes it where there is none. */
  ghost predicate Merged(rows: Rows, next: Rows, done: set<Id>, x: Id, y: Id) {
    && next.members == rows.members
    && ElementsMerged(rows, next, done, x, y) && LimitsMerged(rows, next, done, x, y)
      && CommentsMerged(rows, next, done, x, y)
  }

  /** What one budget plans for an entity in a month. */
  ghost predicate Plans(rows: Rows, budget: Id, external: Id, month: int, amount: Option<int>) {
    if exists r :: RowFor(rows, budget, external, r) then
      exists r :: RowFor(rows, budget, external, r) && amount == Amount(rows.limits, r, month)
    else amount == None
  }

  ghost function AllBudgets(rows: Rows, x: Id): set<Id> {
    set r | r in rows.elements && rows.elements[r].external == x :: rows.elements[r].budget
  }

  /** The budget plans the amount for the entity in the month. */
  ghost predicate PlansAmount(rows: Rows, budget: Id, external: Id, month: int, amount: int) {
    exists r :: RowFor(rows, budget, external, r) && Slot(r, month) in rows.limits
                && rows.limits[Slot(r, month)] == amount
  }

  ghost predicate PlansNothing(rows: Rows, budget: Id, external: Id, month: int) {
    forall r :: RowFor(rows, budget, external, r) ==> Slot(r, month) !in rows.limits
  }

  /** In every budget and month the new entity plans the sum of what both planned, or the one amount there was. */
  lemma PlansConserved(rows: Rows, next: Rows, x: Id, y: Id, budget: Id, month: int)
    requires x != y && Consistent(rows) && Merged(rows, next, AllBudgets(rows, x), x, y)
    ensures forall a, b :: PlansAmount(rows, budget, x, month, a) && PlansAmount(rows, budget, y, month, b) ==>
              PlansAmount(next, budget, y, month, a + b)
    ensures forall a :: PlansAmount(rows, budget, x, month, a) && PlansNothing(rows, budget, y, month) ==>
              PlansAmount(next, budget, y, month, a)
    ensures forall b :: PlansNothing(rows, budget, x, month) && PlansAmount(rows, budget, y, month, b) ==>
              PlansAmount(next, budget, y, month, b)
    ensures PlansNothing(rows, budget, x, month) && PlansNothing(rows, budget, y, month) ==>
              PlansNothing(next, budget, y, month)
  {
    hide Merged, Consistent;
    PlannedOnce(rows, budget, x, month);
    PlannedOnce(rows, budget, y, month);
    var a :| Plans(rows, budget, x, month, a);
    var b :| Plans(rows, budget, y, month, b);
    PlansAdd(rows, next, x, y, budget, month, a, b);
    SourceGone(rows, next, x, y);
    UniqueRows(rows);
    PlansSame(rows, budget, x, month, a);
    PlansSame(rows, budget, y, month, b);
    PlansSame(next, budget, y, month, Plus(b, a));
    hide PlansAmount, PlansNothing, Plans;
  }

  lemma UniqueRows(rows: Rows)
    requires Consistent(rows)
    ensures Unique(rows.elements)
  {
  }

  lemma PlannedOnce(rows: Rows, budget: Id, external: Id, month: int)
    ensures exists a :: Plans(rows, budget, external, month, a)
  {
    if r :| RowFor(rows, budget, external, r) {
      assert Plans(rows, budget, external, month, Amount(rows.limits, r, month));
    } else {
      assert Plans(rows, budget, external, month, None);
    }
  }

  lemma PlansSame(rows: Rows, budget: Id, external: Id, month: int, a: Option<int>)
    requires Unique(rows.elements) && Plans(rows, budget, external, month, a)
    ensures forall n :: PlansAmount(rows, budget, external, month, n) <==> a == Some(n)
    ensures PlansNothing(rows, budget, external, month) <==> a == None
  {
    if r :| RowFor(rows, budget, external, r) {
      assert forall q :: RowFor(rows, budget, external, q) ==> q == r;
      assert a == Amount(rows.limits, r, month);
    }
  }

  lemma PlansAdd(rows: Rows, next: Rows, x: Id, y: Id, budget: Id, month: int, a: Option<int>, b: Option<int>)
    requires x != y && Consistent(rows) && Merged(rows, next, AllBudgets(rows, x), x, y)
    requires Plans(rows, budget, x, month, a) && Plans(rows, budget, y, month, b)
    ensures Plans(next, budget, y, month, Plus(b, a))
  {
    var done := AllBudgets(rows, x);
    if s :| RowFor(rows, budget, x, s) {
      assert rows.elements[s].budget in done;
      if t :| RowFor(rows, budget, y, t) {
        assert Absorbs(rows, done, x, y, t, s);
        assert RowFor(next, budget, y, t);
      } else {
        forall t ensures !Absorbs(rows, done, x, y, t, s) { assert !RowFor(rows, budget, y, t); }
        assert Renamed(rows, done, x, y, s);
        assert RowFor(next, budget, y, s);
      }
    } else if t :| RowFor(rows, budget, y, t) {
      forall s ensures !Absorbs(rows, done, x, y, t, s) { assert !RowFor(rows, budget, x, s); }
      assert RowFor(next, budget, y, t);
    } else {
      forall r ensures !RowFor(next, budget, y, r) {
        assert !RowFor(rows, budget, y, r) && !RowFor(rows, budget, x, r);
      }
    }
  }

  /** No row of the old entity is left anywhere, and the new entity has one row per budget. */
  lemma SourceGone(rows: Rows, next: Rows, x: Id, y: Id)
    requires x != y && Consistent(rows) && Merged(rows, next, AllBudgets(rows, x), x, y)
    ensures forall budget, r :: !RowFor(next, budget, x, r)
    ensures Unique(next.elements)
  {
    var done := AllBudgets(rows, x);
    forall r, q | r in next.elements && q in next.elements && r != q
      ensures next.elements[r].budget != next.elements[q].budget
              || next.elements[r].external != next.elements[q].external
    {
      if next.elements[r].budget == next.elements[q].budget && next.elements[r].external == next.elements[q].external {
        if Renamed(rows, done, x, y, r) && !Renamed(rows, done, x, y, q) {
          assert Absorbs(rows, done, x, y, q, r);
        } else if Renamed(rows, done, x, y, q) && !Renamed(rows, done, x, y, r) {
          assert Absorbs(rows, done, x, y, r, q);
        }
        assert false;
      }
    }
  }

  /** Rows of every other entity keep their place, their amounts and their comments. */
  lemma OthersKept(rows: Rows, next: Rows, x: Id, y: Id, r: Id, month: int)
    requires x != y && Merged(rows, next, AllBudgets(rows, x), x, y)
    requires r in rows.elements && rows.elements[r].external !in {x, y}
    ensures r in next.elements && next.elements[r] == rows.elements[r]
    ensures Amount(next.limits, r, month) == Amount(rows.limits, r, month)
    ensures forall c :: c in rows.comments && rows.comments[c].element == r ==>
              c in next.comments && next.comments[c] == rows.comments[c]
  {
  }

  /** Every comment on either entity ends on the surviving row of its budget, word for word. */
  lemma CommentsFollow(rows: Rows, next: Rows, x: Id, y: Id, budget: Id, c: Id)
    requires x != y && Consistent(rows) && Merged(rows, next, AllBudgets(rows, x), x, y)
    requires c in rows.comments && (RowFor(rows, budget, x, rows.comments[c].element)
                                    || RowFor(rows, budget, y, rows.comments[c].element))
    ensures c in next.comments && RowFor(next, budget, y, next.comments[c].element)
    ensures next.comments[c].text == rows.comments[c].text && next.comments[c].month == rows.comments[c].month
  {
    var done, e := AllBudgets(rows, x), rows.comments[c].element;
    if RowFor(rows, budget, x, e) {
      assert rows.elements[e].budget in done;
      if t :| Absorbs(rows, done, x, y, t, e) {
        assert next.comments[c].element == t;
      } else {
        assert Renamed(rows, done, x, y, e);
      }
    }
  }

  /** One month: two planned amounts are added as integers, a single one is the amount, and none stays none. */
  ghost predicate FoldsAt(before: map<Slot, int>, after: map<Slot, int>, s: Slot, t: Slot) {
    && (t in after <==> s in before || t in before)
    && (s in before && t in before ==> after[t] == before[t] + before[s])
    && (s !in before && t in before ==> after[t] == before[t])
    && (s in before && t !in before ==> after[t] == before[s])
  }

  /** Every month of src is folded into dst's; every other row's limits are as they were. */
  ghost predicate Folds(before: map<Slot, int>, after: map<Slot, int>, src: Id, dst: Id) {
    && (forall m {:trigger Slot(dst, m)} :: FoldsAt(before, after, Slot(src, m), Slot(dst, m)))
    && (forall l: Slot :: l.element != dst ==> (l in after <==> l in before) && (l in before ==> after[l] == before[l]))
  }

  method FindRow(store: Store, budget: Id, external: Id) returns (found: Option<Id>)
    ensures found.None? <==> forall r :: !RowFor(store.State(), budget, external, r)
    ensures found.Some? ==> RowFor(store.State(), budget, external, found.value)
  {
    var matches := set r | r in store.elements && store.elements[r].budget == budget
        && store.elements[r].external == external;
    if matches == {} {
      assert forall r :: RowFor(store.State(), budget, external, r) ==> r in matches;
      return None;
    }
    var r :| r in matches;
    assert RowFor(store.State(), budget, external, r);
    found := Some(r);
  }

  /** Adds each of the source's limits into the target's; the source's own stay until its row goes. */
  method MergeElementLimits(store: Store, src: Id, dst: Id)
    requires Consistent(store.State()) && src in store.elements && dst in store.elements && src != dst
    modifies store`limits
    ensures Consistent(store.State())
    ensures Folds(old(store.limits), store.limits, src, dst)
  {
    ghost var limits := store.limits;
    var rest := set l | l in store.limits && l.element == src;
    while rest != {}
      invariant Consistent(store.State())
      invariant forall l :: l in rest ==> l in limits && l.element == src
      invariant Unadded(limits, store.limits, dst)
      invariant forall m :: Amount(store.limits, dst, m) == SoFar(limits, rest, src, dst, m)
    {
      hide Consistent;
      var l :| l in rest;
      ghost var held := store.limits;
      var slot := Slot(dst, l.month);
      if slot in store.limits {
        store.SaveLimit(slot, store.limits[slot] + store.limits[l]);
      } else {
        store.SaveLimit(slot, store.limits[l]);
      }
      AddedOne(limits, held, store.limits, rest, src, dst, l);
      rest := rest - {l};
    }
    FoldsByAmount(limits, store.limits, src, dst);
  }

  lemma FoldsByAmount(before: map<Slot, int>, after: map<Slot, int>, src: Id, dst: Id)
    requires forall m :: Amount(after, dst, m) == Plus(Amount(before, dst, m), Amount(before, src, m))
    requires forall r, m :: r != dst ==> Amount(after, r, m) == Amount(before, r, m)
    ensures Folds(before, after, src, dst)
  {
    forall m ensures FoldsAt(before, after, Slot(src, m), Slot(dst, m)) {
      assert Amount(after, dst, m) == Plus(Amount(before, dst, m), Amount(before, src, m));
    }
    forall l: Slot | l.element != dst
      ensures (l in after <==> l in before) && (l in before ==> after[l] == before[l]) {
      assert Slot(l.element, l.month) == l && Amount(after, l.element, l.month) == Amount(before, l.element, l.month);
    }
  }

  ghost predicate Unadded(limits: map<Slot, int>, now: map<Slot, int>, dst: Id) {
    forall k: Slot :: k.element != dst ==> (k in now <==> k in limits) && (k in now ==> now[k] == limits[k])
  }

  ghost function SoFar(limits: map<Slot, int>, rest: set<Slot>, src: Id, dst: Id, m: int): Option<int> {
    if Slot(src, m) in limits && Slot(src, m) !in rest then Plus(Amount(limits, dst, m), Amount(limits, src, m))
    else Amount(limits, dst, m)
  }

  lemma AddedOne(limits: map<Slot, int>, held: map<Slot, int>, now: map<Slot, int>, rest: set<Slot>, src: Id, dst: Id,
                 l: Slot)
    requires src != dst && l in rest && l in limits && l.element == src && Unadded(limits, held, dst)
    requires forall m :: Amount(held, dst, m) == SoFar(limits, rest, src, dst, m)
    requires l in held && now == held[Slot(dst, l.month) := Plus(Amount(held, dst, l.month), Some(held[l])).value]
    ensures Unadded(limits, now, dst)
    ensures forall m :: Amount(now, dst, m) == SoFar(limits, rest - {l}, src, dst, m)
  {
    forall m
      ensures Amount(now, dst, m) == SoFar(limits, rest - {l}, src, dst, m)
    {
      if m != l.month { assert Slot(src, m) != l && Amount(now, dst, m) == Amount(held, dst, m); }
    }
  }

  lemma RenameStep(rows: Rows, now: Rows, next: Rows, done: set<Id>, x: Id, y: Id, s: Id)
    requires x != y && Consistent(rows) && Merged(rows, now, done, x, y)
    requires s in rows.elements && rows.elements[s].external == x && rows.elements[s].budget !in done
    requires forall r :: !RowFor(now, rows.elements[s].budget, y, r)
    requires s in now.elements && next == now.(elements := now.elements[s := now.elements[s].(external := y)])
    ensures Merged(rows, next, done + {rows.elements[s].budget}, x, y)
  {
    var b := rows.elements[s].budget;
    var more := done + {b};
    forall r ensures !RowFor(rows, b, y, r) { assert !RowFor(now, b, y, r); }
    forall t, q ensures Absorbs(rows, more, x, y, t, q) <==> Absorbs(rows, done, x, y, t, q) {
      assert !RowFor(rows, b, y, t);
    }
    SameAbsorbed(rows, done, more, x, y);
    RenameElements(rows, now, next, done, more, x, y, s);
    RenameRest(rows, now, next, done, more, x, y, s);
  }

  lemma RenameElements(rows: Rows, now: Rows, next: Rows, done: set<Id>, more: set<Id>, x: Id, y: Id, s: Id)
    requires Consistent(rows) && ElementsMerged(rows, now, done, x, y)
    requires s in rows.elements && rows.elements[s].external == x && more == done + {rows.elements[s].budget}
    requires s in now.elements && next.elements == now.elements[s := now.elements[s].(external := y)]
    requires forall q :: Absorbed(rows, more, x, y, q) <==> Absorbed(rows, done, x, y, q)
    ensures ElementsMerged(rows, next, more, x, y)
  {
    hide Absorbed;
  }

  lemma RenameRest(rows: Rows, now: Rows, next: Rows, done: set<Id>, more: set<Id>, x: Id, y: Id, s: Id)
    requires LimitsMerged(rows, now, done, x, y) && CommentsMerged(rows, now, done, x, y)
    requires s in now.elements && next == now.(elements := now.elements[s := now.elements[s].(external := y)])
    requires forall t, q :: Absorbs(rows, more, x, y, t, q) <==> Absorbs(rows, done, x, y, t, q)
    requires forall q :: Absorbed(rows, more, x, y, q) <==> Absorbed(rows, done, x, y, q)
    ensures LimitsMerged(rows, next, more, x, y) && CommentsMerged(rows, next, more, x, y)
  {
    hide Absorbs, Absorbed;
  }

  lemma SameAbsorbed(rows: Rows, done: set<Id>, more: set<Id>, x: Id, y: Id)
    requires forall t, q :: Absorbs(rows, more, x, y, t, q) <==> Absorbs(rows, done, x, y, t, q)
    ensures forall q :: Absorbed(rows, more, x, y, q) <==> Absorbed(rows, done, x, y, q)
  {
  }

  /** One source merged into its target: the limits are added, the comments moved, the row deleted. */
  ghost predicate Folded(now: Rows, next: Rows, s: Id, t: Id) {
    && next.members == now.members && next.elements == now.elements - {s}
    && (forall m :: Amount(next.limits, t, m) == Plus(Amount(now.limits, t, m), Amount(now.limits, s, m)))
    && (forall r, m :: r != t && r != s ==> Amount(next.limits, r, m) == Amount(now.limits, r, m))
    && (forall m :: Amount(next.limits, s, m) == None)
    && next.comments == Repointed(now.comments, s, t)
  }

  lemma FoldStep(rows: Rows, now: Rows, next: Rows, done: set<Id>, x: Id, y: Id, s: Id, t: Id)
    requires x != y && Consistent(rows) && Merged(rows, now, done, x, y)
    requires s in rows.elements && rows.elements[s].external == x && rows.elements[s].budget !in done
    requires RowFor(now, rows.elements[s].budget, y, t)
    requires Folded(now, next, s, t)
    ensures Merged(rows, next, done + {rows.elements[s].budget}, x, y)
  {
    var b := rows.elements[s].budget;
    var more := done + {b};
    assert RowFor(rows, b, y, t);
    forall u, q ensures Absorbs(rows, more, x, y, u, q) <==> Absorbs(rows, done, x, y, u, q) || (u == t && q == s) {
    }
    OneMoreAbsorbed(rows, done, more, x, y, s, t);
    FoldElements(rows, now, next, done, more, x, y, s, t);
    FoldLimits(rows, now, next, done, more, x, y, s, t);
    FoldComments(rows, now, next, done, more, x, y, s, t);
  }

  lemma OneMoreAbsorbed(rows: Rows, done: set<Id>, more: set<Id>, x: Id, y: Id, s: Id, t: Id)
    requires forall u, q :: Absorbs(rows, more, x, y, u, q) <==> Absorbs(rows, done, x, y, u, q) || (u == t && q == s)
    ensures forall q :: Absorbed(rows, more, x, y, q) <==> Absorbed(rows, done, x, y, q) || q == s
  {
    assert Absorbs(rows, more, x, y, t, s);
    hide Absorbs;
  }

  lemma FoldElements(rows: Rows, now: Rows, next: Rows, done: set<Id>, more: set<Id>, x: Id, y: Id, s: Id, t: Id)
    requires Consistent(rows) && ElementsMerged(rows, now, done, x, y) && Folded(now, next, s, t)
    requires s in rows.elements && rows.elements[s].external == x && more == done + {rows.elements[s].budget}
    requires forall q :: Absorbed(rows, more, x, y, q) <==> Absorbed(rows, done, x, y, q) || q == s
    ensures ElementsMerged(rows, next, more, x, y)
  {
    hide Absorbed;
  }

  lemma FoldLimits(rows: Rows, now: Rows, next: Rows, done: set<Id>, more: set<Id>, x: Id, y: Id, s: Id, t: Id)
    requires LimitsMerged(rows, now, done, x, y) && ElementsMerged(rows, now, done, x, y) && Folded(now, next, s, t)
    requires x != y && t in rows.elements && RowFor(rows, rows.elements[t].budget, y, t)
             && RowFor(rows, rows.elements[t].budget, x, s)
    requires rows.elements[t].budget !in done && more == done + {rows.elements[t].budget}
    requires forall u, q :: Absorbs(rows, more, x, y, u, q) <==> Absorbs(rows, done, x, y, u, q) || (u == t && q == s)
    ensures LimitsMerged(rows, next, more, x, y)
  {
    forall q ensures !Absorbs(rows, done, x, y, t, q) && !Absorbs(rows, done, x, y, s, q) {}
    assert t in now.elements && s in now.elements by { NotYetAbsorbed(rows, now, done, x, y, s, t); }
    forall u, q, m | Absorbs(rows, more, x, y, u, q)
      ensures Amount(next.limits, u, m) == Plus(Amount(rows.limits, u, m), Amount(rows.limits, q, m))
    {
      assert Amount(now.limits, t, m) == Amount(rows.limits, t, m)
             && Amount(now.limits, s, m) == Amount(rows.limits, s, m);
      if Absorbs(rows, done, x, y, u, q) { assert u != t && u != s; }
    }
    forall u, m | u in next.elements && (forall q :: !Absorbs(rows, more, x, y, u, q))
      ensures Amount(next.limits, u, m) == Amount(rows.limits, u, m)
    {
      assert Absorbs(rows, more, x, y, t, s);
      assert u != t && u != s && Amount(next.limits, u, m) == Amount(now.limits, u, m);
    }
  }

  lemma NotYetAbsorbed(rows: Rows, now: Rows, done: set<Id>, x: Id, y: Id, s: Id, t: Id)
    requires ElementsMerged(rows, now, done, x, y)
    requires t in rows.elements && s in rows.elements && rows.elements[t].budget !in done
             && rows.elements[s].budget !in done
    ensures t in now.elements && s in now.elements
  {
  }

  lemma FoldComments(rows: Rows, now: Rows, next: Rows, done: set<Id>, more: set<Id>, x: Id, y: Id, s: Id, t: Id)
    requires CommentsMerged(rows, now, done, x, y) && Folded(now, next, s, t)
    requires s in rows.elements && t in rows.elements && rows.elements[s].budget !in done && x != y
             && rows.elements[s].external == x
    requires forall u, q :: Absorbs(rows, more, x, y, u, q) <==> Absorbs(rows, done, x, y, u, q) || (u == t && q == s)
    requires forall q :: Absorbed(rows, more, x, y, q) <==> Absorbed(rows, done, x, y, q) || q == s
    ensures CommentsMerged(rows, next, more, x, y)
  {
    forall c | c in rows.comments && Absorbed(rows, done, x, y, rows.comments[c].element)
      ensures now.comments[c].element != s
    {
      var u :| Absorbs(rows, done, x, y, u, rows.comments[c].element);
      assert u != s;
    }
    assert !Absorbed(rows, done, x, y, s);
    hide Absorbs, Absorbed;
  }

  /** One source row: handed over in place where its budget has no target, folded into the target otherwise. */
  method MergeSource(store: Store, src: Id, y: Id, ghost rows: Rows, ghost done: set<Id>, ghost x: Id)
    requires x != y && Consistent(rows) && Consistent(store.State()) && Merged(rows, store.State(), done, x, y)
    requires src in rows.elements && rows.elements[src].external == x && rows.elements[src].budget !in done
    modifies store
    ensures Consistent(store.State()) && Merged(rows, store.State(), done + {rows.elements[src].budget}, x, y)
  {
    SourceStands(rows, store.State(), done, x, y, src);
    hide Merged, Consistent, Folded;
    ghost var now := store.State();
    var target := FindRow(store, store.elements[src].budget, y);
    if target.None? {
      assert store.State() == now;
      FreeEntity(now, src, y);
      store.RepointElement(src, y);
      RenameStep(rows, now, store.State(), done, x, y, src);
    } else {
      FoldInto(store, src, target.value);
      FoldStep(rows, now, store.State(), done, x, y, src, target.value);
    }
  }

  method MergeElements(store: Store, x: Id, y: Id)
    requires Consistent(store.State()) && x != y
    modifies store
    ensures Consistent(store.State())
    ensures Merged(old(store.State()), store.State(), AllBudgets(old(store.State()), x), x, y)
  {
    ghost var rows := store.State();
    var rest := set r | r in store.elements && store.elements[r].external == x;
    ghost var done := {};
    while rest != {}
      invariant Consistent(store.State()) && Merged(rows, store.State(), done, x, y)
      invariant ToDo(rows, x, rest, done)
    {
      hide Merged, Consistent;
      var src :| src in rest;
      MergeSource(store, src, y, rows, done, x);
      OneDone(rows, x, rest, done, src);
      rest := rest - {src};
      done := done + {rows.elements[src].budget};
    }
    AllDone(rows, x, done);
  }

  /** The old entity's rows not handled yet, against the budgets that are. */
  ghost predicate ToDo(rows: Rows, x: Id, rest: set<Id>, done: set<Id>) {
    && (forall r :: r in rest ==> r in rows.elements && rows.elements[r].external == x
                                  && rows.elements[r].budget !in done)
    && (forall r :: r in rows.elements && rows.elements[r].external == x && r !in rest ==>
          rows.elements[r].budget in done)
    && done <= AllBudgets(rows, x)
  }

  lemma OneDone(rows: Rows, x: Id, rest: set<Id>, done: set<Id>, s: Id)
    requires Consistent(rows) && ToDo(rows, x, rest, done) && s in rest
    ensures s in rows.elements && ToDo(rows, x, rest - {s}, done + {rows.elements[s].budget})
  {
  }

  lemma AllDone(rows: Rows, x: Id, done: set<Id>)
    requires ToDo(rows, x, {}, done)
    ensures done == AllBudgets(rows, x)
  {
  }

  method FoldInto(store: Store, src: Id, dst: Id)
    requires Consistent(store.State()) && src in store.elements && dst in store.elements && src != dst
    modifies store
    ensures Consistent(store.State()) && Folded(old(store.State()), store.State(), src, dst)
  {
    hide Consistent, Folds, Folded, Without, Repointed;
    ghost var before := store.State();
    MergeElementLimits(store, src, dst);
    ghost var limits := store.limits;
    store.RepointComments(src, dst);
    store.DeleteElement(src);
    FoldedWhen(before, limits, src, dst);
  }

  lemma FoldedWhen(before: Rows, limits: map<Slot, int>, s: Id, t: Id)
    requires Consistent(before) && s in before.elements && t in before.elements && s != t
    requires Folds(before.limits, limits, s, t)
    ensures Folded(before, Without(before.(limits := limits, comments := Repointed(before.comments, s, t)), {s}), s, t)
  {
    var moved := before.(limits := limits, comments := Repointed(before.comments, s, t));
    var next := Without(moved, {s});
    assert forall c :: c in moved.comments ==> moved.comments[c].element != s;
    assert next.comments == moved.comments;
    hide Consistent;
    forall m ensures Amount(next.limits, t, m) == Plus(Amount(before.limits, t, m), Amount(before.limits, s, m)) {
      assert FoldsAt(before.limits, limits, Slot(s, m), Slot(t, m));
    }
  }

  lemma SourceStands(rows: Rows, now: Rows, done: set<Id>, x: Id, y: Id, s: Id)
    requires Merged(rows, now, done, x, y)
    requires s in rows.elements && rows.elements[s].external == x && rows.elements[s].budget !in done
    ensures s in now.elements && now.elements[s] == rows.elements[s]
  {
  }

  lemma FreeEntity(now: Rows, s: Id, y: Id)
    requires s in now.elements && forall r :: !RowFor(now, now.elements[s].budget, y, r)
    ensures forall r :: r in now.elements ==>
              now.elements[r].budget != now.elements[s].budget || now.elements[r].external != y
  {
    forall r | r in now.elements
      ensures now.elements[r].budget != now.elements[s].budget || now.elements[r].external != y
    {
      assert !RowFor(now, now.elements[s].budget, y, r);
    }
  }
}
