/**
 * Reconciling a budget's element rows with the entities that take part in it. Limits and comments hang off the row,
 * so what matters is which rows survive, and that a row survives a change of side.
 */
module ElementSync {
  import opened Prelude
  import opened BudgetStore
  import opened ElementClaims
  import opened MissingKeys
  import opened ParticipantRows
  import opened Reconciled
  import SortKey

  lemma OneRowEach(budget: Id, elements: map<Id, Element>)
    requires Unique(elements)
    ensures OnePerEntity(RowsOf(elements, budget))
  {
  }

  lemma IndexOne(row: map<Id, Element>, r: Id, e: Element, byKey: map<Name, Id>, byExternal: map<Id, Id>)
    requires Indexed(row, byKey, byExternal) && r !in row
    requires forall q :: q in row ==> row[q].external != e.external
    ensures Indexed(row[r := e], byKey[NameOf(e) := r], byExternal[e.external := r])
  {
  }

  lemma NothingDone(budget: Id, elements: map<Id, Element>, w: Work)
    requires w.row == RowsOf(elements, budget) && Indexed(w.row, w.byKey, w.byExternal)
    requires w.seen == {} && w.created == map[] && w.dirty == {} && w.live == {}
    ensures Progress(budget, elements, [], w)
  {
    hide Indexed;
    assert Names([]) == {} && LiveNames([]) == {};
  }

  /** The state of one reconciliation. Rows are shared between the indexes by row id. */
  class Reconciler {
    const budget: Id
    ghost const stored: map<Id, Element>
    const taken: set<Id>
    var row: map<Id, Element>
    var byKey: map<Name, Id>
    var byExternal: map<Id, Id>
    var seen: set<Name>
    var created: map<Name, Id>
    var dirty: set<Id>
    var live: set<Name>

    ghost function State(): Work
      reads this
    {
      Work(row, byKey, byExternal, seen, created, dirty, live)
    }

    /** Loads the budget's rows and indexes them by name and by external id. */
    constructor (budget: Id, elements: map<Id, Element>)
      requires Unique(elements)
      ensures this.budget == budget && stored == elements && taken == elements.Keys
      ensures Progress(budget, elements, [], State())
    {
      this.budget, stored, taken := budget, elements, elements.Keys;
      var rows := map r | r in elements && elements[r].budget == budget :: elements[r];
      row, seen, created, dirty, live := rows, {}, map[], {}, {};
      byKey, byExternal := map[], map[];
      new;
      var rest := rows.Keys;
      OneRowEach(budget, elements);
      while rest != {}
        invariant row == rows && rest <= rows.Keys && seen == {} && created == map[] && dirty == {} && live == {}
        invariant Indexed(rows - rest, byKey, byExternal)
      {
        hide Progress, Indexed, Unique, NameOf;
        var r :| r in rest;
        ghost var left := rows - rest;
        IndexOne(left, r, rows[r], byKey, byExternal);
        byKey := byKey[NameOf(rows[r]) := r];
        byExternal := byExternal[rows[r].external := r];
        rest := rest - {r};
        assert rows - rest == left[r := rows[r]];
      }
      assert rows - {} == rows;
      NothingDone(budget, elements, State());
    }

    method NextIdentity() returns (r: Id)
      ensures r !in row && r !in taken
    {
      r := Prelude.NextIdentity(row.Keys + taken);
    }

    /** Moves a row to another kind in place, and its name in the index with it. */
    method Retype(r: Id, kind: Kind)
      requires Indexed(row, byKey, byExternal) && r in row && row[r].kind != kind
      modifies `row, `byKey, `dirty
      ensures Indexed(row, byKey, byExternal)
      ensures row == old(row)[r := old(row)[r].(kind := kind)]
      ensures dirty == old(dirty) + {r}
    {
      byKey := byKey - {NameOf(row[r])};
      row := row[r := row[r].(kind := kind)];
      byKey := byKey[NameOf(row[r]) := r];
      dirty := dirty + {r};
    }

    method Create(external: Id, kind: Kind) returns (r: Id)
      requires Indexed(row, byKey, byExternal) && external !in byExternal
      modifies `row, `byKey, `byExternal, `created
      ensures Indexed(row, byKey, byExternal)
      ensures r !in old(row) && r !in taken
      ensures row == old(row)[r := Element(budget, external, kind, None, None, "")]
      ensures created == old(created)[Name(external, kind) := r]
    {
      r := NextIdentity();
      row := row[r := Element(budget, external, kind, None, None, "")];
      byKey := byKey[Name(external, kind) := r];
      byExternal := byExternal[external := r];
      created := created[Name(external, kind) := r];
    }

    /** Finds the entity's row, moving it to the wanted kind in place, or makes one without a key. */
    method Ensure(external: Id, kind: Kind) returns (r: Id)
      requires Indexed(row, byKey, byExternal)
      modifies this
      ensures Indexed(row, byKey, byExternal)
      ensures if external in old(byExternal) then r == old(byExternal)[external] && r in old(row)
              else r !in old(row) && r !in taken
      ensures row == old(row)[r := if r in old(row) then old(row)[r].(kind := kind)
                                   else Element(budget, external, kind, None, None, "")]
      ensures row[r].external == external
      ensures seen == old(seen) + {Name(external, kind)} && live == old(live)
      ensures created == (if r in old(row) then old(created) else old(created)[Name(external, kind) := r])
      ensures dirty == old(dirty) + (if r in old(row) && old(row)[r].kind != kind then {r} else {})
    {
      if external in byExternal && row[byExternal[external]].kind != kind {
        Retype(byExternal[external], kind);
      }
      var key := Name(external, kind);
      seen := seen + {key};
      if key in byKey {
        r := byKey[key];
      } else {
        r := Create(external, kind);
      }
    }

    method ForceUnset(r: Id)
      requires Indexed(row, byKey, byExternal) && r in row
      modifies `row, `dirty
      ensures Indexed(row, byKey, byExternal)
      ensures row == old(row)[r := old(row)[r].(key := "")]
      ensures dirty == old(dirty) + (if old(row)[r].key != "" then {r} else {})
    {
      if row[r].key != "" {
        row := row[r := row[r].(key := "")];
        dirty := dirty + {r};
      }
    }

    method LeaveFolder(r: Id)
      requires Indexed(row, byKey, byExternal) && r in row
      modifies `row, `dirty
      ensures Indexed(row, byKey, byExternal)
      ensures row == old(row)[r := old(row)[r].(folder := None)]
      ensures dirty == old(dirty) + (if old(row)[r].folder.Some? then {r} else {})
    {
      if row[r].folder.Some? {
        row := row[r := row[r].(folder := None)];
        dirty := dirty + {r};
      }
    }

    /** A category inside an envelope is in neither the listing nor a folder. */
    method TuckAway(r: Id)
      requires Indexed(row, byKey, byExternal) && r in row
      modifies `row, `dirty
      ensures Indexed(row, byKey, byExternal)
      ensures row == old(row)[r := old(row)[r].(key := "", folder := None)]
      ensures dirty == old(dirty) + (if row[r] != old(row)[r] then {r} else {})
    {
      hide Indexed, NameOf;
      ForceUnset(r);
      LeaveFolder(r);
    }

    method SetCurrency(r: Id, currency: Id)
      requires Indexed(row, byKey, byExternal) && r in row
      modifies `row
      ensures Indexed(row, byKey, byExternal)
      ensures row == old(row)[r := old(row)[r].(currency := Some(currency))]
    {
      row := row[r := row[r].(currency := Some(currency))];
    }

    /** A child is tucked away, an archived entity's row drops out of the listing, and any other belongs in it. */
    method Settle(r: Id, name: Name, child: bool, archived: bool)
      requires Indexed(row, byKey, byExternal) && r in row
      modifies `row, `dirty, `live
      ensures Indexed(row, byKey, byExternal)
      ensures var e := old(row)[r];
        row == old(row)[r := e.(key := if child || archived then "" else e.key,
                                folder := if child then None else e.folder)]
      ensures live == old(live) + (if child || archived then {} else {name})
      ensures dirty == old(dirty) + (if row[r] != old(row)[r] then {r} else {})
    {
      hide Indexed, NameOf;
      if child {
        TuckAway(r);
      } else if archived {
        ForceUnset(r);
      } else {
        live := live + {name};
      }
    }

    method List(external: Id, kind: Kind, archived: bool, ghost c: Claim) returns (r: Id)
      requires Indexed(row, byKey, byExternal) && taken == stored.Keys
      requires c == Claim(external, kind, !archived, false, None)
      modifies this
      ensures Handled(budget, stored, c, r, old(State()), State())
    {
      hide Indexed, NameOf;
      r := Ensure(external, kind);
      Settle(r, Name(external, kind), false, archived);
      assert row == old(row)[r := if r in old(row) then Settled(c, old(row)[r]) else Fresh(budget, c)];
    }

    method ListCategory(category: CategoryRow, child: bool, ghost c: Claim) returns (r: Id)
      requires Indexed(row, byKey, byExternal) && taken == stored.Keys
      requires c == Claim(category.id, if category.income then IncomeCategory else Category,
                          !child && !category.archived, child, None)
      modifies this
      ensures Handled(budget, stored, c, r, old(State()), State())
    {
      hide Indexed, NameOf;
      var kind := if category.income then IncomeCategory else Category;
      r := Ensure(category.id, kind);
      Settle(r, Name(category.id, kind), child, category.archived);
      assert row == old(row)[r := if r in old(row) then Settled(c, old(row)[r]) else Fresh(budget, c)];
    }

    method SettleSavings(r: Id, s: SavingsRow)
      requires Indexed(row, byKey, byExternal) && r in row
      modifies `row, `dirty
      ensures Indexed(row, byKey, byExternal)
      ensures dirty == old(dirty) + (if old(row)[r].folder.Some? then {r} else {})
      ensures var new_ := Name(s.account, Savings) in created && old(row)[r].currency.None?;
        row == old(row)[r := old(row)[r].(currency := if new_ then Some(s.currency) else old(row)[r].currency,
                                          folder := None)]
    {
      hide Indexed, NameOf;
      if Name(s.account, Savings) in created && row[r].currency.None? {
        SetCurrency(r, s.currency);
      }
      LeaveFolder(r);
    }

    /** A savings row is always listed and never in a folder; a new one takes its account's currency. */
    method ListSavings(s: SavingsRow, ghost c: Claim) returns (r: Id)
      requires Indexed(row, byKey, byExternal) && taken == stored.Keys && c == SavingsClaim(s)
      requires s.account in byExternal ==> Name(s.account, Savings) !in created
      modifies this
      ensures Handled(budget, stored, c, r, old(State()), State())
    {
      hide Indexed, NameOf;
      r := Ensure(s.account, Savings);
      SettleSavings(r, s);
      live := live + {Name(s.account, Savings)};
      assert row == old(row)[r := if r in old(row) then Settled(c, old(row)[r]) else Fresh(budget, c)];
    }

    method EnvelopePass(p: Participants) returns (children: set<Id>)
      requires Progress(budget, stored, [], State()) && taken == stored.Keys
      requires Distinct(EnvelopeClaims(p, RowsOf(stored, budget)))
      modifies this
      ensures Progress(budget, stored, EnvelopeClaims(p, RowsOf(stored, budget)), State())
      ensures forall x :: x in children <==> IsChild(p.envelopes, x)
    {
      hide Progress, Handled, Claimed, Distinct, Indexed, NameOf, Names, LiveNames, IsChild, WasIncome, EnvelopeClaims,
           EnvelopeClaim, RowsOf;
      ghost var pass := EnvelopeClaims(p, RowsOf(stored, budget));
      children := {};
      NoChildrenYet(p.envelopes);
      assert [] + pass == pass && [] + pass[..0] == [];
      for i := 0 to |p.envelopes|
        invariant Progress(budget, stored, [] + pass[..i], State())
        invariant forall x :: x in children <==> IsChild(p.envelopes[..i], x)
      {
        NextUnclaimed([], pass, i);
        EnvelopeClaimAt(p, RowsOf(stored, budget), i);
        var env := p.envelopes[i];
        ghost var before := State();
        SideAsStored(budget, stored, [] + pass[..i], before, env.id);
        var kind := Envelope;
        if env.id in byExternal && row[byExternal[env.id]].kind == IncomeEnvelope {
          kind := IncomeEnvelope;
        }
        var r := List(env.id, kind, env.archived, pass[i]);
        Advance(budget, stored, [] + pass[..i], pass[i], r, before, State());
        ChildrenGrow(p.envelopes, i);
        children := children + (set c | c in env.categories);
      }
      assert [] + pass[..|p.envelopes|] == pass && p.envelopes[..|p.envelopes|] == p.envelopes;
    }

    method CategoryPass(p: Participants, children: set<Id>, ghost done: seq<Claim>)
      requires Progress(budget, stored, done, State()) && taken == stored.Keys
      requires forall x :: x in children <==> IsChild(p.envelopes, x)
      requires Distinct(done + CategoryClaims(p))
      modifies this
      ensures Progress(budget, stored, done + CategoryClaims(p), State())
    {
      hide Progress, Handled, Claimed, Distinct, Indexed, NameOf, Names, LiveNames, IsChild, RowsOf;
      ghost var pass := CategoryClaims(p);
      assert done + pass[..0] == done;
      for i := 0 to |p.categories|
        invariant Progress(budget, stored, done + pass[..i], State())
      {
        NextUnclaimed(done, pass, i);
        ghost var before := State();
        SideAsStored(budget, stored, done + pass[..i], before, pass[i].external);
        var r := ListCategory(p.categories[i], p.categories[i].id in children, pass[i]);
        Advance(budget, stored, done + pass[..i], pass[i], r, before, State());
      }
      assert pass[..|p.categories|] == pass;
    }

    method TagPass(p: Participants, ghost done: seq<Claim>)
      requires Progress(budget, stored, done, State()) && taken == stored.Keys
      requires Distinct(done + TagClaims(p))
      modifies this
      ensures Progress(budget, stored, done + TagClaims(p), State())
    {
      hide Progress, Handled, Claimed, Distinct, Indexed, NameOf, Names, LiveNames, IsChild, RowsOf;
      ghost var pass := TagClaims(p);
      assert done + pass[..0] == done;
      for i := 0 to |p.tags|
        invariant Progress(budget, stored, done + pass[..i], State())
      {
        NextUnclaimed(done, pass, i);
        ghost var before := State();
        SideAsStored(budget, stored, done + pass[..i], before, pass[i].external);
        var r := List(p.tags[i].id, Tag, p.tags[i].archived, pass[i]);
        Advance(budget, stored, done + pass[..i], pass[i], r, before, State());
      }
      assert pass[..|p.tags|] == pass;
    }

    method SavingsPass(p: Participants, ghost done: seq<Claim>)
      requires Progress(budget, stored, done, State()) && taken == stored.Keys
      requires Distinct(done + SavingsClaims(p))
      modifies this
      ensures Progress(budget, stored, done + SavingsClaims(p), State())
    {
      hide Progress, Handled, Claimed, Distinct, Indexed, NameOf, Names, LiveNames, IsChild, RowsOf;
      ghost var pass := SavingsClaims(p);
      assert done + pass[..0] == done;
      for i := 0 to |p.savings|
        invariant Progress(budget, stored, done + pass[..i], State())
      {
        NextUnclaimed(done, pass, i);
        ghost var before := State();
        SideAsStored(budget, stored, done + pass[..i], before, pass[i].external);
        NotYetCreated(budget, stored, done + pass[..i], before, pass[i]);
        var r := ListSavings(p.savings[i], pass[i]);
        Advance(budget, stored, done + pass[..i], pass[i], r, before, State());
      }
      assert pass[..|p.savings|] == pass;
    }

    /** The live rows without a key, and the highest key of each no-folder group. */
    method ScanKeys() returns (missing: set<Id>, tails: map<bool, SortKey.Key>)
      requires Indexed(row, byKey, byExternal)
      ensures forall r :: r in missing <==> Needs(row, live, r)
      ensures TailsOf(row, live, tails)
    {
      missing, tails := {}, map[];
      var rest := byKey.Keys;
      NothingScanned(row, live, byKey, byExternal);
      while rest != {}
        invariant rest <= byKey.Keys
        invariant forall r :: r in missing <==> Needs(row, live - rest, r)
        invariant TailsOf(row, live - rest, tails)
      {
        hide Indexed, Needs, LiveRow, TailsOf, SortKey.Less;
        ghost var before, held := rest, tails;
        var key :| key in rest;
        rest := rest - {key};
        ScanStep(row, live, byKey, byExternal, before, key);
        if key in live {
          var e := row[byKey[key]];
          if e.key == "" {
            missing := missing + {byKey[key]};
          } else {
            var g := InSavings(e);
            if e.folder.None? && SortKey.Less(Tail(tails, g), e.key) {
              tails := tails[g := e.key];
            }
          }
          assert tails == NextTails(e, held);
          TailsGrow(row, live - before, live - rest, byKey[key], held);
        } else {
          assert live - rest == live - before;
        }
      }
      assert live - {} == live;
    }

    /** Gives every live row without a key the next one of its group; fails, for the caller to roll back, when the key
        to follow is malformed. */
    method AssignMissingKeys() returns (ok: bool)
      requires Indexed(row, byKey, byExternal)
      modifies `row, `dirty
      ensures ok <==> Extendable(old(row), live)
      ensures ok ==> Indexed(row, byKey, byExternal) && Keyed(old(row), live, row)
      ensures ok ==> forall r :: r in dirty <==> r in old(dirty) || Needs(old(row), live, r)
    {
      hide SortKey.Less, SortKey.Valid, Ceiling, Capped, HandedOut, Extendable, Keyed, TailOf, Needs, Indexed, GroupOf;
      var missing, tails := ScanKeys();
      ghost var first, rows := tails, row;
      var ids := Sorted(missing);
      ghost var done := {};
      NothingHanded(rows, live, tails);
      for i := 0 to |ids|
        invariant Indexed(row, byKey, byExternal)
        invariant HandedOut(rows, live, done, row)
        invariant Capped(rows, live, done, row, tails)
        invariant forall g :: Tail(tails, g) == Tail(first, g)
                              || (SortKey.Valid(Tail(tails, g)) && Followable(Tail(first, g)))
        invariant forall q :: q in done ==> Followable(Tail(first, GroupOf(rows, q)))
        invariant done == set q | q in ids[..i]
        invariant dirty == old(dirty) + done
      {
        ghost var current, held, before := row, tails, done;
        var r := ids[i];
        assert ids[..i + 1] == ids[..i] + [r];
        RowInHand(rows, live, done, row, r);
        var g := GroupOf(row, r);
        var tail := Tail(tails, g);
        var k;
        ok, k := FollowingKey(tail);
        if !ok {
          NotExtendable(rows, live, r, tail);
          return;
        }
        SetKey(r, k);
        dirty := dirty + {r};
        tails := tails[g := k];
        done := done + {r};
        HandOver(rows, live, before, r, current, row, held, k);
        Ceilings(rows, live, before, r, current, row, held, k);
      }
      ok := true;
      assert ids[..|ids|] == ids;
      AllHandedOut(rows, live, done, row);
      AllExtended(rows, live, first);
    }

    method SetKey(r: Id, k: SortKey.Key)
      requires Indexed(row, byKey, byExternal) && r in row
      modifies `row
      ensures Indexed(row, byKey, byExternal)
      ensures row == old(row)[r := old(row)[r].(key := k)]
    {
      row := row[r := row[r].(key := k)];
    }
  }

  lemma DistinctPrefixes(p: Participants, before: map<Id, Element>)
    requires Distinct(Claims(p, before))
    ensures Distinct(EnvelopeClaims(p, before))
    ensures Distinct(EnvelopeClaims(p, before) + CategoryClaims(p))
    ensures Distinct(EnvelopeClaims(p, before) + CategoryClaims(p) + TagClaims(p))
    ensures Distinct(EnvelopeClaims(p, before) + CategoryClaims(p) + TagClaims(p) + SavingsClaims(p))
  {
    var a, b, c := EnvelopeClaims(p, before), CategoryClaims(p), TagClaims(p);
    DistinctPrefix(a + b + c, SavingsClaims(p));
    DistinctPrefix(a + b, c);
    DistinctPrefix(a, b);
  }

  lemma DistinctPrefix(some: seq<Claim>, more: seq<Claim>)
    requires Distinct(some + more)
    ensures Distinct(some)
  {
    assert forall i :: 0 <= i < |some| ==> (some + more)[i] == some[i];
  }

  /** All passes over one budget, up to the in-memory result. */
  method Reconcile(store: Store, budget: Id, p: Participants) returns (ok: bool, rec: Reconciler, ghost w: Work)
    requires Consistent(store.State())
    requires Distinct(Claims(p, RowsOf(store.elements, budget)))
    ensures fresh(rec)
    ensures Progress(budget, store.elements, Claims(p, RowsOf(store.elements, budget)), w)
    ensures ok <==> Extendable(w.row, w.live)
    ensures ok ==> rec.State() == w.(row := rec.row, dirty := rec.dirty)
    ensures ok ==> Indexed(rec.row, rec.byKey, rec.byExternal) && Keyed(w.row, w.live, rec.row)
    ensures ok ==> forall r :: r in rec.dirty <==> r in w.dirty || Needs(w.row, w.live, r)
  {
    hide Progress, Distinct, Indexed, Keyed, Needs, Extendable, RowsOf, IsChild, SortKey.Less, SortKey.Valid;
    ghost var before := RowsOf(store.elements, budget);
    DistinctPrefixes(p, before);
    rec := new Reconciler(budget, store.elements);
    var children := rec.EnvelopePass(p);
    rec.CategoryPass(p, children, EnvelopeClaims(p, before));
    rec.TagPass(p, EnvelopeClaims(p, before) + CategoryClaims(p));
    rec.SavingsPass(p, EnvelopeClaims(p, before) + CategoryClaims(p) + TagClaims(p));
    w := rec.State();
    InOrder(budget, store.elements, Claims(p, before), w);
    ok := rec.AssignMissingKeys();
  }

  lemma InOrder(budget: Id, stored: map<Id, Element>, done: seq<Claim>, w: Work)
    requires Progress(budget, stored, done, w)
    ensures Indexed(w.row, w.byKey, w.byExternal)
  {
  }

  /** A finished working set, before it is written: the state the passes left, and the rows with their keys. */
  ghost predicate Finished(budget: Id, stored: map<Id, Element>, claims: seq<Claim>, w: Work, row: map<Id, Element>) {
    && Progress(budget, stored, claims, w) && Distinct(claims) && Keyed(w.row, w.live, row)
    && Indexed(row, w.byKey, w.byExternal)
  }

  /**
   * What writing back relies on: rows of this budget, one per entity, new ids unused, loaded ones still their entity's.
   */
  ghost predicate Writable(budget: Id, stored: map<Id, Element>, row: map<Id, Element>) {
    && (forall r :: r in row ==> row[r].budget == budget)
    && OnePerEntity(row)
    && (forall r :: r in row && r in stored ==> stored[r].budget == budget && stored[r].external == row[r].external)
    && (forall r :: r in stored && stored[r].budget == budget ==> r in row)
  }

  lemma FinishedWritable(budget: Id, stored: map<Id, Element>, claims: seq<Claim>, w: Work, row: map<Id, Element>)
    requires Finished(budget, stored, claims, w, row)
    ensures Writable(budget, stored, row)
  {
    hide SortKey.Valid, SortKey.Less, Listed, Sits, Names, LiveNames, Claimed;
    var before := RowsOf(stored, budget);
    KeyedDomain(w.row, w.live, row);
    forall r | r in row
      ensures row[r].budget == budget
    {
      if Claimed(claims, w.row[r].external) {
        ClaimOf(claims, w.row[r].external);
        var i :| 0 <= i < |claims| && claims[i].external == w.row[r].external;
        assert w.byExternal[claims[i].external] == r;
      }
    }
  }

  lemma ClaimOf(claims: seq<Claim>, external: Id)
    requires Claimed(claims, external)
    ensures exists i :: 0 <= i < |claims| && claims[i].external == external
  {
  }

  /** The rows written are exactly those that differ from what is stored. */
  lemma WrittenRows(budget: Id, stored: map<Id, Element>, claims: seq<Claim>, w: Work, row: map<Id, Element>,
                    dirty: set<Id>)
    requires Finished(budget, stored, claims, w, row)
    requires forall r :: r in dirty <==> r in w.dirty || Needs(w.row, w.live, r)
    ensures w.created.Values + dirty == Changed(RowsOf(stored, budget), Surviving(w.seen, row))
  {
    hide SortKey.Valid, SortKey.Less, Names, LiveNames, Claimed, RowsOf, SettledSoFar;
    var before, after := RowsOf(stored, budget), Surviving(w.seen, row);
    RowsSeen(budget, stored, claims, w, row);
    KeyedDomain(w.row, w.live, row);
    forall r
      ensures r in w.created.Values + dirty <==> r in Changed(before, after)
    {
      WrittenRow(budget, stored, claims, w, row, dirty, r);
    }
  }

  lemma WrittenRow(budget: Id, stored: map<Id, Element>, claims: seq<Claim>, w: Work, row: map<Id, Element>,
                   dirty: set<Id>, r: Id)
    requires Finished(budget, stored, claims, w, row)
    requires forall r :: r in dirty <==> r in w.dirty || Needs(w.row, w.live, r)
    ensures r in w.created.Values + dirty <==> r in Changed(RowsOf(stored, budget), Surviving(w.seen, row))
  {
    hide SortKey.Valid, SortKey.Less, Names, LiveNames, Claimed, RowsOf, SettledSoFar, Sits;
    var before, after := RowsOf(stored, budget), Surviving(w.seen, row);
    RowsSeen(budget, stored, claims, w, row);
    KeyedDomain(w.row, w.live, row);
    if r in w.row {
      KeyedChange(w.row, w.live, row, r);
      if r !in before {
        var n := NameOf(w.row[r]);
        assert w.byKey[NameOf(row[w.created[n]])] == w.created[n];
        assert w.created[n] in w.created.Values;
      }
      UnseenUnchanged(budget, stored, claims, w, r);
      if Needs(w.row, w.live, r) { NeedyHadNone(budget, stored, claims, w, row, r); }
    }
  }

  lemma NeedyHadNone(budget: Id, stored: map<Id, Element>, claims: seq<Claim>, w: Work, row: map<Id, Element>, r: Id)
    requires Finished(budget, stored, claims, w, row) && Needs(w.row, w.live, r)
    requires r in w.row && Claimed(claims, w.row[r].external)
    ensures r in row && row[r].key != "" && KeyOf(RowsOf(stored, budget), r) == ""
  {
    hide Progress, Distinct, Indexed, Meets, RowsOf, SortKey.Less, Sits;
    assert row[r].key != "" by { assert SortKey.Valid(row[r].key); }
    hide SortKey.Valid, Keyed;
    var i :| 0 <= i < |claims| && claims[i].external == w.row[r].external;
    RowOfClaim(budget, stored, claims, w, i, r);
    KeyedMeets(budget, RowsOf(stored, budget), claims[i], r, w.row, w.live, row);
  }

  lemma KeyedChange(row: map<Id, Element>, live: set<Name>, next: map<Id, Element>, r: Id)
    requires Keyed(row, live, next) && r in row
    ensures r in next && (Needs(row, live, r) <==> next[r] != row[r])
  {
    hide SortKey.Less, Sits, NameOf;
    assert Needs(row, live, r) ==> SortKey.Valid(next[r].key);
  }

  lemma UnseenUnchanged(budget: Id, stored: map<Id, Element>, claims: seq<Claim>, w: Work, r: Id)
    requires Progress(budget, stored, claims, w) && r in w.row
    ensures NameOf(w.row[r]) !in w.seen ==> r in RowsOf(stored, budget) && r !in w.dirty && !Needs(w.row, w.live, r)
  {
  }

  function Picked(row: map<Id, Element>, ids: set<Id>): map<Id, Element> {
    map r | r in row && r in ids :: row[r]
  }

  /** Saves the rows that changed. The unique index holds after every single write. */
  method SaveRows(store: Store, budget: Id, row: map<Id, Element>, saved: set<Id>)
    requires Consistent(store.State()) && Writable(budget, store.elements, row) && saved <= row.Keys
    modifies store
    ensures store.State() == old(store.State()).(elements := old(store.elements) + Picked(row, saved))
    ensures Consistent(store.State())
  {
    hide Consistent, Writable, Without, Picked;
    var rest := saved;
    ghost var stored := store.elements;
    PickedNone(stored, row);
    assert saved - rest == {};
    while rest != {}
      invariant rest <= saved
      invariant Consistent(store.State())
      invariant store.State() == old(store.State()).(elements := stored + Picked(row, saved - rest))
    {
      var r :| r in rest;
      FreeToSave(budget, stored, row, saved - rest, r);
      PickedOne(stored, row, saved - rest, r);
      store.SaveElement(r, row[r]);
      ghost var held := rest;
      rest := rest - {r};
      assert saved - rest == saved - held + {r};
    }
    assert saved - rest == saved;
  }

  lemma PickedNone(stored: map<Id, Element>, row: map<Id, Element>)
    ensures stored + Picked(row, {}) == stored
  {
  }

  lemma PickedOne(stored: map<Id, Element>, row: map<Id, Element>, done: set<Id>, r: Id)
    requires r in row
    ensures stored + Picked(row, done + {r}) == (stored + Picked(row, done))[r := row[r]]
  {
  }

  lemma FreeToSave(budget: Id, stored: map<Id, Element>, row: map<Id, Element>, done: set<Id>, r: Id)
    requires Writable(budget, stored, row) && r in row
    ensures var elements := stored + Picked(row, done);
      forall q :: q in elements && q != r ==>
               elements[q].budget != row[r].budget || elements[q].external != row[r].external
  {
    var elements := stored + Picked(row, done);
    forall q | q in elements && q != r
      ensures elements[q].budget != row[r].budget || elements[q].external != row[r].external
    {
      if q in row && q in done {
        assert elements[q] == row[q];
      } else {
        assert elements[q] == stored[q];
      }
    }
  }

  /** Deletes the rows whose entity no longer takes part. */
  method DeleteUnseen(store: Store, byKey: map<Name, Id>, seen: set<Name>) returns (deleted: set<Id>)
    requires Consistent(store.State())
    modifies store
    ensures Consistent(store.State())
    ensures store.State() == Without(old(store.State()), deleted)
    ensures forall r :: r in deleted <==> exists n :: n in byKey && n !in seen && byKey[n] == r
  {
    hide Consistent, Without;
    deleted := {};
    var rest := byKey.Keys;
    NothingGone(store.State());
    while rest != {}
      invariant rest <= byKey.Keys
      invariant Consistent(store.State())
      invariant store.State() == Without(old(store.State()), deleted)
      invariant forall r :: r in deleted <==> exists n :: n in byKey && n !in rest && n !in seen && byKey[n] == r
    {
      var key :| key in rest;
      rest := rest - {key};
      if key !in seen {
        store.DeleteElement(byKey[key]);
        MoreGone(old(store.State()), deleted, byKey[key]);
        deleted := deleted + {byKey[key]};
      }
    }
  }

  lemma NothingGone(rows: Rows)
    ensures Without(rows, {}) == rows
  {
    assert rows.elements - {} == rows.elements;
    assert (map l | l in rows.limits && l.element !in {} :: rows.limits[l]) == rows.limits;
    assert (map c | c in rows.comments && rows.comments[c].element !in {} :: rows.comments[c]) == rows.comments;
  }

  lemma MoreGone(rows: Rows, gone: set<Id>, r: Id)
    ensures Without(Without(rows, gone), {r}) == Without(rows, gone + {r})
  {
    var twice, once := Without(Without(rows, gone), {r}), Without(rows, gone + {r});
    assert twice.elements == once.elements;
    assert twice.limits == once.limits;
    assert twice.comments == once.comments;
  }

  /** What a reconciliation leaves in the store: the budget's rows reconciled, the written and deleted rows no more than
      needed, limits and comments lost with deleted rows only, and no other budget touched. */
  ghost predicate Outcomes(budget: Id, old_: Rows, new_: Rows, claims: seq<Claim>, saved: set<Id>, deleted: set<Id>) {
    var before, after := RowsOf(old_.elements, budget), RowsOf(new_.elements, budget);
    && Synced(budget, before, after, claims)
    && saved == Changed(before, after) && deleted == before.Keys - after.Keys
    && new_ == Without(old_.(elements := old_.elements + after), deleted)
    && forall r :: r in after && r in old_.elements ==> r in before
  }

  lemma WrittenBack(budget: Id, rows: Rows, claims: seq<Claim>, w: Work, row: map<Id, Element>, saved: set<Id>,
                    deleted: set<Id>)
    requires Finished(budget, rows.elements, claims, w, row)
    requires saved == Changed(RowsOf(rows.elements, budget), Surviving(w.seen, row))
    requires forall r :: r in deleted <==> exists n :: n in w.byKey && n !in w.seen && w.byKey[n] == r
    ensures var new_ := Without(rows.(elements := rows.elements + Picked(row, saved)), deleted);
      && RowsOf(new_.elements, budget) == Surviving(w.seen, row)
      && deleted == RowsOf(rows.elements, budget).Keys - Surviving(w.seen, row).Keys
      && new_ == Without(rows.(elements := rows.elements + Surviving(w.seen, row)), deleted)
    ensures forall r :: r in Surviving(w.seen, row) && r in rows.elements ==> r in RowsOf(rows.elements, budget)
  {
    var before, after := RowsOf(rows.elements, budget), Surviving(w.seen, row);
    DeletedRows(budget, rows.elements, claims, w, row, deleted);
    FinishedWritable(budget, rows.elements, claims, w, row);
    hide Finished, Without;
    PickedChanges(budget, rows.elements, row, after, saved);
    WithoutElements(rows.(elements := rows.elements + after), deleted);
    RowsLeft(budget, rows.elements, row, after);
  }

  lemma PickedChanges(budget: Id, stored: map<Id, Element>, row: map<Id, Element>, after: map<Id, Element>,
                      saved: set<Id>)
    requires forall r :: r in after ==> r in row && row[r] == after[r]
    requires saved == Changed(RowsOf(stored, budget), after)
    ensures stored + Picked(row, saved) == stored + after
  {
    forall r | r in after && r !in saved
      ensures r in stored && stored[r] == after[r]
    {
      assert r in RowsOf(stored, budget);
    }
  }

  lemma RowsLeft(budget: Id, stored: map<Id, Element>, row: map<Id, Element>, after: map<Id, Element>)
    requires Writable(budget, stored, row)
    requires forall r :: r in after ==> r in row && row[r] == after[r]
    ensures RowsOf(stored + after - (RowsOf(stored, budget).Keys - after.Keys), budget) == after
  {
    hide OnePerEntity;
  }

  lemma WithoutElements(rows: Rows, gone: set<Id>)
    ensures Without(rows, gone).elements == rows.elements - gone
  {
  }

  lemma DeletedRows(budget: Id, stored: map<Id, Element>, claims: seq<Claim>, w: Work, row: map<Id, Element>,
                    deleted: set<Id>)
    requires Finished(budget, stored, claims, w, row)
    requires forall r :: r in deleted <==> exists n :: n in w.byKey && n !in w.seen && w.byKey[n] == r
    ensures deleted == RowsOf(stored, budget).Keys - Surviving(w.seen, row).Keys
  {
    hide SortKey.Valid, SortKey.Less, Names, LiveNames, Claimed, RowsOf, SettledSoFar, Sits, Listed;
    RowsSeen(budget, stored, claims, w, row);
    KeyedDomain(w.row, w.live, row);
    var before, after := RowsOf(stored, budget), Surviving(w.seen, row);
    forall r
      ensures r in deleted <==> r in before && r !in after
    {
      if r in deleted {
        var n :| n in w.byKey && n !in w.seen && w.byKey[n] == r;
        UnseenUnchanged(budget, stored, claims, w, r);
      }
      if r in before && r !in after {
        assert w.byKey[NameOf(row[r])] == r;
      }
    }
  }

  /** The rows of other budgets keep everything: place, amounts and comments. */
  ghost predicate ElsewhereKept(budget: Id, old_: Rows, new_: Rows) {
    && (forall r :: r in old_.elements && old_.elements[r].budget != budget ==>
          r in new_.elements && new_.elements[r] == old_.elements[r])
    && (forall r :: r in new_.elements && new_.elements[r].budget != budget ==> r in old_.elements)
    && (forall l :: l in old_.limits && l.element in old_.elements && old_.elements[l.element].budget != budget ==>
          l in new_.limits && new_.limits[l] == old_.limits[l])
    && (forall c :: c in old_.comments && old_.comments[c].element in old_.elements
                    && old_.elements[old_.comments[c].element].budget != budget ==>
          c in new_.comments && new_.comments[c] == old_.comments[c])
  }

  lemma OutcomesElsewhere(budget: Id, old_: Rows, new_: Rows, claims: seq<Claim>, saved: set<Id>, deleted: set<Id>)
    requires Consistent(old_) && Outcomes(budget, old_, new_, claims, saved, deleted)
    ensures ElsewhereKept(budget, old_, new_)
  {
    hide Synced, Unique;
  }

  /** One reconciliation in its transaction: it fails, without a trace, exactly when a group to extend ends in a
      malformed key. */
  method SyncElements(store: Store, budget: Id, p: Participants) returns (ok: bool, saved: set<Id>, deleted: set<Id>)
    requires Consistent(store.State())
    requires Distinct(Claims(p, RowsOf(store.elements, budget)))
    modifies store
    ensures Consistent(store.State())
    ensures !ok <==> Blocked(RowsOf(old(store.elements), budget), Claims(p, RowsOf(old(store.elements), budget)))
    ensures !ok ==> store.State() == old(store.State())
    ensures ok ==> Outcomes(budget, old(store.State()), store.State(), Claims(p, RowsOf(old(store.elements), budget)),
                            saved, deleted)
    ensures ok ==> AllPlaced(p, RowsOf(old(store.elements), budget), RowsOf(store.elements, budget))
    ensures ok ==> ElsewhereKept(budget, old(store.State()), store.State())
  {
    hide AllPlaced, ElsewhereKept;
    hide Progress, Distinct, Indexed, Keyed, Needs, Extendable, RowsOf, Consistent, Synced, Without, Writable, Blocked;
    ghost var before, rows := RowsOf(store.elements, budget), store.State();
    ghost var claims := Claims(p, before);
    hide Claims;
    saved, deleted := {}, {};
    var rec;
    ghost var w;
    ok, rec, w := Reconcile(store, budget, p);
    ExtendableUnlessBlocked(budget, rows.elements, claims, w);
    if !ok {
      return;
    }
    WrittenRows(budget, rows.elements, claims, w, rec.row, rec.dirty);
    FinishedWritable(budget, rows.elements, claims, w, rec.row);
    ReconciledRows(budget, rows.elements, claims, w, rec.row);
    saved := rec.created.Values + rec.dirty;
    SaveRows(store, budget, rec.row, saved);
    deleted := DeleteUnseen(store, rec.byKey, rec.seen);
    WrittenBack(budget, rows, claims, w, rec.row, saved, deleted);
    SyncedPlaces(budget, p, before, RowsOf(store.elements, budget));
    OutcomesElsewhere(budget, rows, store.State(), claims, saved, deleted);
  }

  /** A planned amount or comment is lost exactly when its row's entity stopped taking part; a change of side loses
      nothing. */
  lemma PlansSurvive(budget: Id, old_: Rows, new_: Rows, claims: seq<Claim>, saved: set<Id>, deleted: set<Id>, l: Slot)
    requires Consistent(old_) && Outcomes(budget, old_, new_, claims, saved, deleted)
    requires l in old_.limits
    ensures l in new_.limits <==>
      old_.elements[l.element].budget != budget || Claimed(claims, old_.elements[l.element].external)
    ensures l in new_.limits ==> new_.limits[l] == old_.limits[l]
  {
    hide NewKeysLast, MeetsOne, OnePerEntity, Claimed;
  }

  /** Running it again right away writes nothing, deletes nothing and cannot fail. */
  lemma SecondSyncDoesNothing(budget: Id, p: Participants, old_: Rows, mid: Rows, new_: Rows,
                              saved: set<Id>, deleted: set<Id>, saved2: set<Id>, deleted2: set<Id>)
    requires Distinct(Claims(p, RowsOf(old_.elements, budget)))
    requires Outcomes(budget, old_, mid, Claims(p, RowsOf(old_.elements, budget)), saved, deleted)
    ensures !Blocked(RowsOf(mid.elements, budget), Claims(p, RowsOf(mid.elements, budget)))
    ensures Outcomes(budget, mid, new_, Claims(p, RowsOf(mid.elements, budget)), saved2, deleted2) ==>
      saved2 == {} && deleted2 == {} && new_ == mid
  {
    hide Distinct, Claims, Blocked, Synced, Without, RowsOf;
    var before, once := RowsOf(old_.elements, budget), RowsOf(mid.elements, budget);
    SameClaims(budget, p, before, once);
    SyncedNotBlocked(budget, before, once, Claims(p, before));
    if Outcomes(budget, mid, new_, Claims(p, once), saved2, deleted2) {
      SyncIdempotent(budget, p, before, once, RowsOf(new_.elements, budget));
      NothingGone(mid);
      RowsThere(mid.elements, budget);
    }
  }

  lemma RowsThere(stored: map<Id, Element>, budget: Id)
    ensures stored + RowsOf(stored, budget) == stored
  {
  }

  lemma SyncedNotBlocked(budget: Id, before: map<Id, Element>, after: map<Id, Element>, claims: seq<Claim>)
    requires Distinct(claims) && Synced(budget, before, after, claims)
    ensures !Blocked(after, claims)
  {
    forall i | 0 <= i < |claims|
      ensures !Lacks(after, claims[i])
    {
      ClaimHasRow(budget, before, after, claims, i);
      var r :| r in after && after[r].external == claims[i].external;
      ItsClaim(budget, before, after, claims, i, r);
    }
    hide Lacks, Synced, Distinct, HoldsIn, SortKey.Less, SortKey.Valid;
  }
}
