/**
 * Changing a budget's member accounts and their savings roles: a change is worked out in full, guarded, and only then
 * written, with the savings rows following in the same transaction.
 */
module Membership {
  import opened Prelude
  import opened BudgetStore
  import opened ElementClaims
  import opened Reconciled
  import opened ElementSync

  datatype Account = Account(owner: Id, currency: Id, deleted: bool)

  datatype Refusal = BlankId | NotRemovable | NotMember | Unconfirmed | SyncFailed

  predicate SavingsIn(members: map<Id, bool>, account: Id) {
    account in members && members[account]
  }

  predicate Owns(accounts: map<Id, Account>, user: Id, account: Id) {
    account in accounts && accounts[account].owner == user
  }

  function IdSet(ids: seq<Id>): set<Id> {
    set id | id in ids
  }

  function FlagIds(flags: seq<Flag>): set<Id> {
    set f | f in flags :: f.id
  }

  ghost predicate DistinctFlags(flags: seq<Flag>) {
    forall i, j :: 0 <= i < j < |flags| ==> flags[i].id != flags[j].id
  }

  /** One write's plan. */
  datatype Plan = Plan(remove: seq<Id>, add: seq<Flag>, flags: seq<Flag>)

  /** What every plan keeps: members leave, outsiders join, and only staying members change role. */
  ghost predicate WellFormed(current: map<Id, bool>, plan: Plan) {
    && (forall id :: id in plan.remove ==> id in current)
    && DistinctFlags(plan.add) && (forall f :: f in plan.add ==> f.id !in current)
    && DistinctFlags(plan.flags)
    && (forall f :: f in plan.flags ==> f.id in current && f.id !in plan.remove && f.on != current[f.id])
  }

  function AllAdded(members: map<Id, bool>, add: seq<Flag>): map<Id, bool> {
    if add == [] then members else Added(AllAdded(members, add[..|add| - 1]), add[|add| - 1])
  }

  function AllFlagged(members: map<Id, bool>, flags: seq<Flag>): map<Id, bool> {
    if flags == [] then members else Flagged(AllFlagged(members, flags[..|flags| - 1]), flags[|flags| - 1])
  }

  /** The members once a plan is written: removals, then additions, then role changes. */
  ghost function Result(current: map<Id, bool>, plan: Plan): map<Id, bool> {
    AllFlagged(AllAdded(current - IdSet(plan.remove), plan.add), plan.flags)
  }

  lemma {:induction false} AllAddedIs(members: map<Id, bool>, add: seq<Flag>)
    requires DistinctFlags(add) && forall f :: f in add ==> f.id !in members
    ensures AllAdded(members, add).Keys == members.Keys + FlagIds(add)
    ensures forall x :: x in members ==> AllAdded(members, add)[x] == members[x]
    ensures forall f :: f in add ==> AllAdded(members, add)[f.id] == f.on
  {
    if add != [] {
      var n := |add| - 1;
      AllAddedIs(members, add[..n]);
      assert add == add[..n] + [add[n]];
      assert add[n].id !in FlagIds(add[..n]);
    }
  }

  lemma {:induction false} AllFlaggedIs(members: map<Id, bool>, flags: seq<Flag>)
    requires DistinctFlags(flags) && forall f :: f in flags ==> f.id in members
    ensures AllFlagged(members, flags).Keys == members.Keys
    ensures forall f :: f in flags ==> AllFlagged(members, flags)[f.id] == f.on
    ensures forall x :: x in members && x !in FlagIds(flags) ==> AllFlagged(members, flags)[x] == members[x]
  {
    if flags != [] {
      var n := |flags| - 1;
      AllFlaggedIs(members, flags[..n]);
      assert flags == flags[..n] + [flags[n]];
      assert flags[n].id !in FlagIds(flags[..n]);
    }
  }

  /** Where a well-formed plan takes one account. */
  lemma ResultOf(current: map<Id, bool>, plan: Plan, x: Id)
    requires WellFormed(current, plan)
    ensures x in Result(current, plan) <==> (x in current && x !in plan.remove) || x in FlagIds(plan.add)
    ensures forall f :: f in plan.add && f.id == x ==> Result(current, plan)[x] == f.on
    ensures forall f :: f in plan.flags && f.id == x ==> Result(current, plan)[x] == f.on
    ensures x in current && x !in plan.remove && x !in FlagIds(plan.flags) ==> Result(current, plan)[x] == current[x]
  {
    var left := current - IdSet(plan.remove);
    AllAddedIs(left, plan.add);
    AllFlaggedIs(AllAdded(left, plan.add), plan.flags);
  }

  ghost function LeavingSet(current: map<Id, bool>, plan: Plan): set<Id> {
    (set id | id in plan.remove && SavingsIn(current, id)) + (set f | f in plan.flags && !f.on :: f.id)
  }

  /** The leaving accounts are exactly those that had a savings row and will not have one. */
  lemma LeavingExact(current: map<Id, bool>, plan: Plan, x: Id)
    requires WellFormed(current, plan)
    ensures x in LeavingSet(current, plan) <==> SavingsIn(current, x) && !SavingsIn(Result(current, plan), x)
  {
    ResultOf(current, plan, x);
    hide Result;
    if x in FlagIds(plan.flags) {
      var f :| f in plan.flags && f.id == x;
    }
  }

  ghost predicate Touches(current: map<Id, bool>, plan: Plan) {
    || LeavingSet(current, plan) != {}
    || (exists f :: f in plan.add && f.on)
    || (exists f :: f in plan.flags && f.on)
  }

  ghost predicate SameSavings(before: map<Id, bool>, after: map<Id, bool>) {
    forall x :: SavingsIn(before, x) <==> SavingsIn(after, x)
  }

  /** A plan touches savings exactly when some savings row appears or disappears. */
  lemma TouchesExact(current: map<Id, bool>, plan: Plan)
    requires WellFormed(current, plan)
    ensures Touches(current, plan) <==> !SameSavings(current, Result(current, plan))
  {
    var after := Result(current, plan);
    if Touches(current, plan) {
      if LeavingSet(current, plan) != {} {
        var x :| x in LeavingSet(current, plan);
        LeavingExact(current, plan, x);
      } else {
        var f :| (f in plan.add || f in plan.flags) && f.on;
        JoiningExact(current, plan, f.id);
      }
    }
    if !SameSavings(current, after) {
      var x :| SavingsIn(current, x) != SavingsIn(after, x);
      LeavingExact(current, plan, x);
      JoiningExact(current, plan, x);
    }
  }

  lemma JoiningExact(current: map<Id, bool>, plan: Plan, x: Id)
    requires WellFormed(current, plan)
    ensures SavingsIn(Result(current, plan), x) && !SavingsIn(current, x) <==>
      (exists f :: f in plan.add && f.on && f.id == x) || (exists f :: f in plan.flags && f.on && f.id == x)
  {
    ResultOf(current, plan, x);
    hide Result;
    if x in FlagIds(plan.add) {
      var f :| f in plan.add && f.id == x;
    }
    if x in FlagIds(plan.flags) {
      var f :| f in plan.flags && f.id == x;
    }
  }

  /** A change under construction, over the members as they were read. */
  class MemberChange {
    const current: map<Id, bool>
    var remove: seq<Id>
    var add: seq<Flag>
    var flags: seq<Flag>

    ghost function Planned(): Plan
      reads this
    {
      Plan(remove, add, flags)
    }

    constructor (current: map<Id, bool>)
      ensures this.current == current && Planned() == Plan([], [], [])
      ensures WellFormed(current, Planned())
    {
      this.current := current;
      remove, add, flags := [], [], [];
    }

    method AddMember(id: Id, savings: bool)
      requires WellFormed(current, Planned()) && id !in current && id !in FlagIds(add)
      modifies `add
      ensures WellFormed(current, Planned()) && add == old(add) + [Flag(id, savings)]
    {
      add := add + [Flag(id, savings)];
    }

    method RemoveMember(id: Id)
      requires WellFormed(current, Planned()) && id in current && id !in FlagIds(flags)
      modifies `remove
      ensures WellFormed(current, Planned()) && remove == old(remove) + [id]
    {
      remove := remove + [id];
    }

    /** Only a real change of role is recorded. */
    method SetFlag(id: Id, on: bool)
      requires WellFormed(current, Planned()) && id in current && id !in remove && id !in FlagIds(flags)
      modifies `flags
      ensures WellFormed(current, Planned())
      ensures flags == old(flags) + (if current[id] != on then [Flag(id, on)] else [])
    {
      if current[id] != on {
        flags := flags + [Flag(id, on)];
      }
    }

    method Leaving() returns (out: seq<Id>)
      requires WellFormed(current, Planned())
      ensures forall x :: x in out <==> x in LeavingSet(current, Planned())
      ensures forall x :: x in out <==> SavingsIn(current, x) && !SavingsIn(Result(current, Planned()), x)
    {
      hide WellFormed, Result;
      out := [];
      for i := 0 to |remove|
        invariant forall x :: x in out <==> x in remove[..i] && SavingsIn(current, x)
      {
        assert remove[..i + 1] == remove[..i] + [remove[i]];
        if remove[i] in current && current[remove[i]] {
          out := out + [remove[i]];
        }
      }
      ghost var gone := out;
      for i := 0 to |flags|
        invariant forall x :: x in out <==> x in gone || exists f :: f in flags[..i] && !f.on && f.id == x
      {
        assert flags[..i + 1] == flags[..i] + [flags[i]];
        if !flags[i].on {
          out := out + [flags[i].id];
        }
      }
      assert remove[..|remove|] == remove && flags[..|flags|] == flags;
      forall x
        ensures x in LeavingSet(current, Planned()) <==>
                  SavingsIn(current, x) && !SavingsIn(Result(current, Planned()), x)
      {
        LeavingExact(current, Planned(), x);
      }
    }

    method TouchesSavings() returns (touches: bool)
      requires WellFormed(current, Planned())
      ensures touches <==> !SameSavings(current, Result(current, Planned()))
    {
      hide WellFormed, Result;
      TouchesExact(current, Planned());
      var leaving := Leaving();
      if |leaving| > 0 {
        assert leaving[0] in leaving;
        return true;
      }
      for i := 0 to |add|
        invariant forall f :: f in add[..i] ==> !f.on
      {
        if add[i].on {
          assert add[i] in add;
          return true;
        }
        assert add[..i + 1] == add[..i] + [add[i]];
      }
      for i := 0 to |flags|
        invariant forall f :: f in flags[..i] ==> !f.on
      {
        if flags[i].on {
          assert flags[i] in flags;
          return true;
        }
        assert flags[..i + 1] == flags[..i] + [flags[i]];
      }
      assert add[..|add|] == add && flags[..|flags|] == flags;
      touches := false;
    }
  }

  /** An id as it came in the request; None does not parse. */
  type RawId = Option<Id>

  ghost function Own(current: map<Id, bool>, accounts: map<Id, Account>, user: Id): set<Id> {
    set x | x in current && Owns(accounts, user, x)
  }

  /** The caller's accounts a request names; accounts of others are passed over. */
  ghost function Wanted(accounts: map<Id, Account>, user: Id, ids: seq<RawId>): set<Id> {
    set x | x in accounts && Owns(accounts, user, x) && Some(x) in ids
  }

  ghost function OwnAfter(current: map<Id, bool>, accounts: map<Id, Account>, user: Id,
                          accountIds: Option<seq<RawId>>): set<Id>
  {
    if accountIds.None? then Own(current, accounts, user) else Wanted(accounts, user, accountIds.value)
  }

  /** What update-budget is asked for: the caller's members and roles replaced as named, everybody else's kept. */
  ghost function Goal(current: map<Id, bool>, accounts: map<Id, Account>, user: Id,
                      accountIds: Option<seq<RawId>>, savingsIds: Option<seq<RawId>>): map<Id, bool> {
    map x | x in (current.Keys - Own(current, accounts, user)) + OwnAfter(current, accounts, user, accountIds) ::
      if Owns(accounts, user, x) && savingsIds.Some? then Some(x) in savingsIds.value
      else SavingsIn(current, x)
  }

  /** Why a request is refused before anything is written; the checks run in this order. */
  ghost function Verdict(current: map<Id, bool>, accounts: map<Id, Account>, user: Id, locked: set<Id>,
                         accountIds: Option<seq<RawId>>, savingsIds: Option<seq<RawId>>): Option<Refusal> {
    var after := OwnAfter(current, accounts, user, accountIds);
    if accountIds.Some? && None in accountIds.value then Some(BlankId)
    else if accountIds.Some? && (exists x :: x in Own(current, accounts, user) && x !in after
                                             && x in locked) then Some(NotRemovable)
    else if accountIds.Some? && (exists x :: x in after && x !in current && accounts[x].deleted) then Some(BlankId)
    else if savingsIds.Some? && (exists raw :: raw in savingsIds.value
                                               && (raw.None? || raw.value !in after)) then Some(NotMember)
    else None
  }

  ghost predicate NoRepeats(s: seq<Id>) {
    forall i, j :: 0 <= i < j < |s| ==> s[i] != s[j]
  }

  method OwnMembers(members: seq<Id>, current: map<Id, bool>, accounts: map<Id, Account>, user: Id)
    returns (own: seq<Id>)
    requires NoRepeats(members) && forall x :: x in members <==> x in current
    ensures NoRepeats(own) && forall x :: x in own <==> x in Own(current, accounts, user)
  {
    own := [];
    for i := 0 to |members|
      invariant NoRepeats(own)
      invariant forall x :: x in own <==> x in members[..i] && Owns(accounts, user, x)
    {
      assert members[..i + 1] == members[..i] + [members[i]];
      assert members[i] !in members[..i];
      if Owns(accounts, user, members[i]) {
        own := own + [members[i]];
      }
    }
    assert members[..|members|] == members;
  }

  /** The caller's accounts named in the request, first mention first; None when some id does not parse. */
  method ReadWanted(accounts: map<Id, Account>, user: Id, ids: seq<RawId>) returns (wanted: Option<seq<Id>>)
    ensures wanted.None? <==> None in ids
    ensures wanted.Some? ==> NoRepeats(wanted.value) && forall x :: x in wanted.value <==>
              x in Wanted(accounts, user, ids)
  {
    var want, order := {}, [];
    for i := 0 to |ids|
      invariant NoRepeats(order) && None !in ids[..i]
      invariant forall x :: x in order <==> x in want
      invariant forall x: Id :: x in want <==> Owns(accounts, user, x) && Some(x) in ids[..i]
    {
      assert ids[..i + 1] == ids[..i] + [ids[i]];
      if ids[i].None? {
        return None;
      }
      var id := ids[i].value;
      if Owns(accounts, user, id) && id !in want {
        want := want + {id};
        order := order + [id];
      }
    }
    assert ids[..|ids|] == ids;
    wanted := Some(order);
  }

  /** The members part of a plan, before roles: unwanted own members out, wanted outsiders in. */
  ghost predicate MembersPlanned(current: map<Id, bool>, own: seq<Id>, want: seq<Id>, plan: Plan) {
    && plan.flags == []
    && (forall x :: x in plan.remove <==> x in own && x !in want)
    && (forall x :: x in FlagIds(plan.add) <==> x in want && x !in current)
    && (forall f :: f in plan.add ==> !f.on)
  }

  method PlanMembers(c: MemberChange, own: seq<Id>, want: seq<Id>, accounts: map<Id, Account>, locked: set<Id>)
    returns (refusal: Option<Refusal>, after: set<Id>)
    requires c.Planned() == Plan([], [], []) && NoRepeats(own) && NoRepeats(want)
    requires forall x :: x in own ==> x in c.current
    requires forall x :: x in want ==> x in accounts && (x in c.current ==> x in own)
    modifies c
    ensures WellFormed(c.current, c.Planned())
    ensures refusal == (if exists x :: x in own && x !in want && x in locked then Some(NotRemovable)
                        else if exists x :: x in want && x !in c.current && accounts[x].deleted then Some(BlankId)
                        else None)
    ensures refusal.None? ==> MembersPlanned(c.current, own, want, c.Planned()) && forall x :: x in after <==> x in want
  {
    after := set x | x in own;
    for i := 0 to |own|
      invariant WellFormed(c.current, c.Planned()) && c.add == [] && c.flags == []
      invariant forall x :: x in own[..i] && x !in want ==> x !in locked
      invariant forall x :: x in c.remove <==> x in own[..i] && x !in want
      invariant forall x :: x in after <==> x in own && x !in c.remove
    {
      assert own[..i + 1] == own[..i] + [own[i]];
      if own[i] in want {
        continue;
      }
      if own[i] in locked {
        return Some(NotRemovable), after;
      }
      c.RemoveMember(own[i]);
      after := after - {own[i]};
    }
    assert own[..|own|] == own;
    ghost var removed := c.remove;
    for i := 0 to |want|
      invariant WellFormed(c.current, c.Planned()) && c.remove == removed && c.flags == []
      invariant forall x :: x in want[..i] && x !in c.current ==> !accounts[x].deleted
      invariant forall x :: x in FlagIds(c.add) <==> x in want[..i] && x !in c.current
      invariant forall f :: f in c.add ==> !f.on
      invariant forall x :: x in after <==> (x in own && x in want) || (x in want[..i] && x !in c.current)
    {
      assert want[..i + 1] == want[..i] + [want[i]];
      assert want[i] !in want[..i];
      if want[i] in c.current {
        continue;
      }
      if accounts[want[i]].deleted {
        return Some(BlankId), after;
      }
      ghost var added := c.add;
      c.AddMember(want[i], false);
      assert FlagIds(c.add) == FlagIds(added) + {want[i]};
      after := after + {want[i]};
    }
    assert want[..|want|] == want;
    refusal := None;
  }

  /** The savings the request names, all of which must be among the caller's members afterwards. */
  method ReadSavings(ids: seq<RawId>, after: set<Id>) returns (target: Option<set<Id>>)
    ensures target.None? <==> exists raw :: raw in ids && (raw.None? || raw.value !in after)
    ensures target.Some? ==> forall x: Id :: x in target.value <==> Some(x) in ids
  {
    var named := {};
    for i := 0 to |ids|
      invariant forall raw :: raw in ids[..i] ==> raw.Some? && raw.value in after
      invariant forall x: Id :: x in named <==> Some(x) in ids[..i]
    {
      assert ids[..i + 1] == ids[..i] + [ids[i]];
      assert ids[i] in ids;
      if ids[i].None? || ids[i].value !in after {
        return None;
      }
      named := named + {ids[i].value};
    }
    assert ids[..|ids|] == ids;
    target := Some(named);
  }

  /** A plan with its roles: newcomers as named, and every staying member of the caller whose role differs. */
  ghost predicate RolesPlanned(c: map<Id, bool>, own: seq<Id>, after: set<Id>, target: set<Id>, before: Plan,
                               plan: Plan)
  {
    && plan.remove == before.remove
    && FlagIds(plan.add) == FlagIds(before.add)
    && (forall f :: f in plan.add ==> f.on == (f.id in target))
    && (forall f :: f in plan.flags ==> f.id in own && f.id in after && f.on == (f.id in target))
    && (forall x :: x in own && x in after && SavingsIn(c, x) != (x in target) ==> x in FlagIds(plan.flags))
  }

  method PlanRoles(c: MemberChange, own: seq<Id>, after: set<Id>, target: set<Id>)
    requires WellFormed(c.current, c.Planned()) && c.flags == [] && NoRepeats(own)
    requires forall x :: x in own ==> x in c.current && (x in after <==> x !in c.remove)
    modifies c
    ensures WellFormed(c.current, c.Planned())
    ensures RolesPlanned(c.current, own, after, target, old(c.Planned()), c.Planned())
  {
    ghost var add := c.add;
    for i := 0 to |c.add|
      invariant |c.add| == |add| && c.remove == old(c.remove) && c.flags == []
      invariant forall j :: 0 <= j < |add| ==> c.add[j].id == add[j].id
      invariant forall j :: 0 <= j < i ==> c.add[j].on == (c.add[j].id in target)
    {
      c.add := c.add[i := Flag(c.add[i].id, c.add[i].id in target)];
    }
    SameIds(add, c.add);
    for i := 0 to |own|
      invariant WellFormed(c.current, c.Planned()) && c.remove == old(c.remove)
      invariant FlagIds(c.add) == FlagIds(add) && (forall f :: f in c.add ==> f.on == (f.id in target))
      invariant forall f :: f in c.flags ==> f.id in own[..i] && f.id in after && f.on == (f.id in target)
      invariant forall x :: x in own[..i] && x in after && SavingsIn(c.current, x) != (x in target) ==>
                  x in FlagIds(c.flags)
    {
      assert own[..i + 1] == own[..i] + [own[i]];
      assert own[i] !in own[..i];
      if own[i] in after {
        ghost var flags := c.flags;
        c.SetFlag(own[i], own[i] in target);
        assert FlagIds(c.flags) == FlagIds(flags) + FlagIds(c.flags[|flags|..]);
      }
    }
    assert own[..|own|] == own;
  }

  lemma SameIds(a: seq<Flag>, b: seq<Flag>)
    requires |a| == |b| && forall j :: 0 <= j < |a| ==> b[j].id == a[j].id
    ensures FlagIds(a) == FlagIds(b)
    ensures forall f :: f in b ==> f.id in FlagIds(a)
    ensures DistinctFlags(a) ==> DistinctFlags(b)
  {
    assert forall j :: 0 <= j < |a| ==> a[j] in a && b[j] in b;
  }

  /** The members are planned, the roles not yet. */
  ghost predicate Halfway(current: map<Id, bool>, accounts: map<Id, Account>, user: Id, accountIds: Option<seq<RawId>>,
                          plan: Plan)
  {
    var own, after := Own(current, accounts, user), OwnAfter(current, accounts, user, accountIds);
    && WellFormed(current, plan) && plan.flags == []
    && (forall x :: x in plan.remove <==> x in own && x !in after)
    && (forall x :: x in FlagIds(plan.add) <==> x in after && x !in current)
    && (forall f :: f in plan.add ==> !f.on)
  }

  lemma MembersReached(current: map<Id, bool>, accounts: map<Id, Account>, user: Id, ids: seq<RawId>,
                       own: seq<Id>, want: seq<Id>, plan: Plan)
    requires WellFormed(current, plan) && MembersPlanned(current, own, want, plan)
    requires forall x :: x in own <==> x in Own(current, accounts, user)
    requires forall x :: x in want <==> x in Wanted(accounts, user, ids)
    ensures Halfway(current, accounts, user, Some(ids), plan)
  {
    hide WellFormed, Own, Wanted;
  }

  lemma NothingPlanned(current: map<Id, bool>, accounts: map<Id, Account>, user: Id, plan: Plan)
    requires plan == Plan([], [], [])
    ensures Halfway(current, accounts, user, None, plan)
  {
  }

  lemma HalfwayGoal(current: map<Id, bool>, accounts: map<Id, Account>, user: Id, accountIds: Option<seq<RawId>>,
                    plan: Plan)
    requires Halfway(current, accounts, user, accountIds, plan)
    ensures WellFormed(current, plan) && plan.flags == []
    ensures forall x :: x in Own(current, accounts, user) ==>
      (x in OwnAfter(current, accounts, user, accountIds) <==> x !in plan.remove)
    ensures Result(current, plan) == Goal(current, accounts, user, accountIds, None)
  {
    var goal := Goal(current, accounts, user, accountIds, None);
    forall x
      ensures x in Result(current, plan) <==> x in goal
      ensures x in goal ==> Result(current, plan)[x] == goal[x]
    {
      ResultOf(current, plan, x);
      hide Result, WellFormed;
      if x in FlagIds(plan.add) {
        var f :| f in plan.add && f.id == x;
      }
    }
  }

  lemma RolesReached(current: map<Id, bool>, accounts: map<Id, Account>, user: Id, accountIds: Option<seq<RawId>>,
                     ids: seq<RawId>,
                     own: seq<Id>, target: set<Id>, half: Plan, plan: Plan)
    requires Halfway(current, accounts, user, accountIds, half) && WellFormed(current, plan)
    requires forall x :: x in own <==> x in Own(current, accounts, user)
    requires RolesPlanned(current, own, OwnAfter(current, accounts, user, accountIds), target, half, plan)
    requires forall x: Id :: x in target <==> Some(x) in ids
    ensures Result(current, plan) == Goal(current, accounts, user, accountIds, Some(ids))
  {
    var goal := Goal(current, accounts, user, accountIds, Some(ids));
    forall x
      ensures x in Result(current, plan) <==> x in goal
      ensures x in goal ==> Result(current, plan)[x] == goal[x]
    {
      ResultOf(current, plan, x);
      hide Result, WellFormed;
      if x in FlagIds(plan.add) {
        var f :| f in plan.add && f.id == x;
      }
      if x in FlagIds(plan.flags) {
        var f :| f in plan.flags && f.id == x;
      }
    }
  }

  /** Works the change out; nothing is written. A finished plan leads exactly to what was asked for. */
  method PlanOwnMembership(members: seq<Id>, current: map<Id, bool>, accounts: map<Id, Account>, user: Id,
                           locked: set<Id>,
                           accountIds: Option<seq<RawId>>, savingsIds: Option<seq<RawId>>)
    returns (refusal: Option<Refusal>, c: MemberChange)
    requires NoRepeats(members) && forall x :: x in members <==> x in current
    ensures fresh(c) && c.current == current && WellFormed(current, c.Planned())
    ensures refusal == Verdict(current, accounts, user, locked, accountIds, savingsIds)
    ensures refusal.None? ==> Result(current, c.Planned()) == Goal(current, accounts, user, accountIds, savingsIds)
  {
    hide WellFormed, Result, Goal, MembersPlanned, RolesPlanned, Halfway;
    c := new MemberChange(current);
    var own := OwnMembers(members, current, accounts, user);
    var after := set x | x in own;
    if accountIds.Some? {
      var want := ReadWanted(accounts, user, accountIds.value);
      if want.None? {
        return Some(BlankId), c;
      }
      refusal, after := PlanMembers(c, own, want.value, accounts, locked);
      if refusal.Some? {
        return;
      }
      MembersReached(current, accounts, user, accountIds.value, own, want.value, c.Planned());
      assert after == OwnAfter(current, accounts, user, accountIds);
    } else {
      NothingPlanned(current, accounts, user, c.Planned());
      assert after == OwnAfter(current, accounts, user, accountIds);
    }
    ghost var plan := c.Planned();
    HalfwayGoal(current, accounts, user, accountIds, plan);
    if savingsIds.Some? {
      var target := ReadSavings(savingsIds.value, after);
      if target.None? {
        return Some(NotMember), c;
      }
      PlanRoles(c, own, after, target.value);
      RolesReached(current, accounts, user, accountIds, savingsIds.value, own, target.value, plan, c.Planned());
    }
    refusal := None;
  }

  /** Whether the account's savings row in the budget carries planned amounts or comments. */
  predicate SavingsHasData(rows: Rows, budget: Id, account: Id) {
    exists r :: r in rows.elements && IsSavingsRow(rows, budget, r) && rows.elements[r].external == account
                && HasData(rows, r)
  }

  predicate IsSavingsRow(rows: Rows, budget: Id, r: Id) {
    r in rows.elements && rows.elements[r].budget == budget && rows.elements[r].kind == Savings
  }

  /** The row is the savings row of one of the accounts. */
  predicate RowOfAny(rows: Rows, budget: Id, accounts: seq<Id>, r: Id) {
    && r in rows.elements && rows.elements[r].budget == budget && rows.elements[r].kind == Savings
    && rows.elements[r].external in accounts
  }

  /** No planned amount and no comment hangs off a savings row of one of the accounts. */
  ghost predicate NothingOn(rows: Rows, budget: Id, accounts: seq<Id>) {
    && (forall l :: l in rows.limits ==> !RowOfAny(rows, budget, accounts, l.element))
    && (forall c :: c in rows.comments ==> !RowOfAny(rows, budget, accounts, rows.comments[c].element))
  }

  lemma NothingOnMeans(rows: Rows, budget: Id, accounts: seq<Id>)
    ensures NothingOn(rows, budget, accounts) <==> forall x :: x in accounts ==> !SavingsHasData(rows, budget, x)
  {
    if l :| l in rows.limits && RowOfAny(rows, budget, accounts, l.element) {
      assert HasData(rows, l.element) && SavingsHasData(rows, budget, rows.elements[l.element].external);
    } else if c :| c in rows.comments && RowOfAny(rows, budget, accounts, rows.comments[c].element) {
      var r := rows.comments[c].element;
      assert HasData(rows, r) && SavingsHasData(rows, budget, rows.elements[r].external);
    }
  }

  /**
   * Refuses, unless confirmed, exactly when a planned amount or a comment hangs off a leaving account's savings row.
   */
  method GuardSavingsRemoval(rows: Rows, budget: Id, leaving: seq<Id>, confirmed: bool) returns (ok: bool)
    ensures ok <==> confirmed || NothingOn(rows, budget, leaving)
  {
    NothingOnMeans(rows, budget, leaving);
    hide SavingsHasData, NothingOn;
    if confirmed {
      return true;
    }
    for i := 0 to |leaving|
      invariant forall x :: x in leaving[..i] ==> !SavingsHasData(rows, budget, x)
    {
      assert leaving[..i + 1] == leaving[..i] + [leaving[i]];
      if SavingsHasData(rows, budget, leaving[i]) {
        assert leaving[i] in leaving;
        return false;
      }
    }
    assert leaving[..|leaving|] == leaving;
    ok := true;
  }

  /** The participants with the budget's savings members among them. */
  ghost predicate Joined(p: Participants, members: map<Id, bool>, accounts: map<Id, Account>, all: Participants) {
    && all == p.(savings := all.savings)
    && (forall i, j :: 0 <= i < j < |all.savings| ==> all.savings[i].account != all.savings[j].account)
    && (forall x: Id :: SavingsIn(members, x) <==> exists i :: 0 <= i < |all.savings| && all.savings[i].account == x)
    && (forall i :: 0 <= i < |all.savings| ==>
          && var row := all.savings[i]; row.account in accounts && row.currency == accounts[row.account].currency)
  }

  /** Account ids are never ids of envelopes, categories or tags, and those are not shared either. */
  ghost predicate Apart<T>(p: Participants, members: map<Id, T>, before: map<Id, Element>) {
    && p.savings == [] && Distinct(Claims(p, before))
    && forall i :: 0 <= i < |Claims(p, before)| ==> Claims(p, before)[i].external !in members
  }

  lemma JoinedDistinct(p: Participants, members: map<Id, bool>, before: map<Id, Element>, accounts: map<Id, Account>,
                       all: Participants)
    requires Apart(p, members, before) && Joined(p, members, accounts, all)
    ensures Distinct(Claims(all, before))
    ensures forall x :: Claimed(Claims(all, before), x) <==> Claimed(Claims(p, before), x) || SavingsIn(members, x)
  {
    var some, more := Claims(p, before), SavingsClaims(all);
    assert EnvelopeClaims(all, before) == EnvelopeClaims(p, before);
    assert CategoryClaims(all) == CategoryClaims(p);
    assert TagClaims(all) == TagClaims(p);
    assert SavingsClaims(p) == [];
    assert Claims(all, before) == some + more;
    forall i | 0 <= i < |more|
      ensures more[i].external == all.savings[i].account && SavingsIn(members, more[i].external)
    {
    }
    hide Claims, SavingsClaims, EnvelopeClaims, CategoryClaims, TagClaims;
    JoinDistinct(some, more);
    forall x
      ensures Claimed(some + more, x) <==> Claimed(some, x) || SavingsIn(members, x)
    {
      ClaimedEither(some, more, x);
      if SavingsIn(members, x) {
        var i :| 0 <= i < |all.savings| && all.savings[i].account == x;
        assert more[i].external == x;
      }
    }
  }

  lemma JoinDistinct(some: seq<Claim>, more: seq<Claim>)
    requires Distinct(some) && Distinct(more)
    requires forall i, j :: 0 <= i < |some| && 0 <= j < |more| ==> some[i].external != more[j].external
    ensures Distinct(some + more)
  {
  }

  lemma ClaimedEither(some: seq<Claim>, more: seq<Claim>, x: Id)
    ensures Claimed(some + more, x) <==> Claimed(some, x) || Claimed(more, x)
  {
    var all := some + more;
    if Claimed(all, x) {
      var i :| 0 <= i < |all| && all[i].external == x;
      if i >= |some| { assert more[i - |some|] == all[i]; }
    }
    if Claimed(some, x) {
      var i :| 0 <= i < |some| && some[i].external == x;
      assert all[i] == some[i];
    }
    if Claimed(more, x) {
      var i :| 0 <= i < |more| && more[i].external == x;
      assert all[|some| + i] == more[i];
    }
  }

  method JoinSavings(p: Participants, members: map<Id, bool>, accounts: map<Id, Account>) returns (all: Participants)
    requires forall x :: x in members ==> x in accounts
    ensures Joined(p, members, accounts, all)
  {
    var ids := Sorted(set x | x in members && members[x]);
    var savings: seq<SavingsRow> := [];
    for i := 0 to |ids|
      invariant |savings| == i
      invariant forall j :: 0 <= j < i ==>
                  savings[j].account == ids[j] && ids[j] in accounts && savings[j].currency == accounts[ids[j]].currency
    {
      assert ids[i] in ids;
      savings := savings + [SavingsRow(ids[i], accounts[ids[i]].currency)];
    }
    all := p.(savings := savings);
    forall x: Id
      ensures SavingsIn(members, x) <==> exists i :: 0 <= i < |savings| && savings[i].account == x
    {
      if SavingsIn(members, x) {
        assert x in ids;
        var i :| 0 <= i < |ids| && ids[i] == x;
        assert savings[i].account == x;
      }
      if i :| 0 <= i < |savings| && savings[i].account == x {
        assert ids[i] in ids;
      }
    }
  }

  /** A reconciliation of the rows, against the participants with the members' savings. */
  ghost predicate Followed(budget: Id, old_: Rows, new_: Rows, p: Participants, members: map<Id, bool>,
                           accounts: map<Id, Account>)
  {
    exists all :: Joined(p, members, accounts, all)
      && var before, after := RowsOf(old_.elements, budget), RowsOf(new_.elements, budget);
         Outcomes(budget, old_, new_, Claims(all, before), Changed(before, after), before.Keys - after.Keys)
  }

  /**
   * The reconciliation every operation ends with: the savings it lists are the budget's own members as they are stored.
   */
  method SyncBudget(store: Store, budget: Id, p: Participants, accounts: map<Id, Account>) returns (ok: bool)
    requires Consistent(store.State()) && budget in store.members
    requires Apart(p, store.members[budget], RowsOf(store.elements, budget))
    requires forall x :: x in store.members[budget] ==> x in accounts
    modifies store
    ensures Consistent(store.State())
    ensures ok ==> Followed(budget, old(store.State()), store.State(), p, old(store.members)[budget], accounts)
    ensures !ok ==> store.State() == old(store.State())
    ensures !ok ==> BlockedWith(old(store.State()), budget, p, accounts)
  {
    hide Apart, Claims, Consistent, Outcomes, RowsOf, Joined, Distinct, Blocked;
    ghost var rows := store.State();
    var all := JoinSavings(p, store.members[budget], accounts);
    JoinedDistinct(p, store.members[budget], RowsOf(store.elements, budget), accounts, all);
    var saved, deleted;
    ok, saved, deleted := SyncElements(store, budget, all);
    if ok {
      OutcomesDetermined(budget, rows, store.State(), Claims(all, RowsOf(rows.elements, budget)), saved, deleted);
    }
  }

  /** Some group that must grow, the savings members' included, ends in a malformed key. */
  ghost predicate BlockedWith(rows: Rows, budget: Id, p: Participants, accounts: map<Id, Account>) {
    exists all :: Joined(p, MembersOf(rows, budget), accounts, all)
      && Blocked(RowsOf(rows.elements, budget), Claims(all, RowsOf(rows.elements, budget)))
  }

  /** A completed membership write: the members are the goal, and the rows followed if and only if savings moved. */
  ghost predicate Written(budget: Id, old_: Rows, new_: Rows, p: Participants, goal: map<Id, bool>,
                          accounts: map<Id, Account>)
  {
    var moved := old_.(members := old_.members[budget := goal]);
    if SameSavings(MembersOf(old_, budget), goal) then new_ == moved
    else Followed(budget, moved, new_, p, goal, accounts)
  }

  /** Writes a plan and, when the savings moved, reconciles the rows, in one transaction. */
  method ApplyMemberChange(store: Store, budget: Id, c: MemberChange, p: Participants, accounts: map<Id, Account>)
    returns (ok: bool)
    requires Consistent(store.State()) && budget in store.members && store.members[budget] == c.current
    requires WellFormed(c.current, c.Planned())
    requires Apart(p, Result(c.current, c.Planned()), RowsOf(store.elements, budget))
    requires forall x :: x in Result(c.current, c.Planned()) ==> x in accounts
    modifies store
    ensures Consistent(store.State())
    ensures ok ==> Written(budget, old(store.State()), store.State(), p, Result(c.current, c.Planned()), accounts)
    ensures !ok ==> store.State() == old(store.State())
  {
    ghost var rows := store.State();
    WriteMembers(store, budget, c);
    ghost var goal := Result(c.current, c.Planned());
    ghost var moved := store.State();
    hide WellFormed, Apart, Claims, Consistent, Outcomes, Result, RowsOf, SameSavings, Joined, Distinct;
    assert Consistent(moved) by { MembersApart(rows, moved); }
    var touches := c.TouchesSavings();
    if !touches {
      return true;
    }
    var all := JoinSavings(p, store.members[budget], accounts);
    JoinedDistinct(p, goal, RowsOf(store.elements, budget), accounts, all);
    var saved, deleted;
    ok, saved, deleted := SyncElements(store, budget, all);
    if !ok {
      Restore(store, budget, c.current);
      assert store.State() == rows;
      assert Consistent(store.State()) by { MembersApart(moved, rows); }
    } else {
      OutcomesDetermined(budget, moved, store.State(), Claims(all, RowsOf(moved.elements, budget)), saved, deleted);
    }
  }

  lemma OutcomesDetermined(budget: Id, old_: Rows, new_: Rows, claims: seq<Claim>, saved: set<Id>, deleted: set<Id>)
    requires Outcomes(budget, old_, new_, claims, saved, deleted)
    ensures var before, after := RowsOf(old_.elements, budget), RowsOf(new_.elements, budget);
      Outcomes(budget, old_, new_, claims, Changed(before, after), before.Keys - after.Keys)
  {
  }

  lemma MembersApart(a: Rows, b: Rows)
    requires Consistent(a) && b == a.(members := b.members)
    ensures Consistent(b)
  {
  }

  /** Rollback: the members go back to what they were. */
  method Restore(store: Store, budget: Id, members: map<Id, bool>)
    modifies store`members
    ensures store.members == old(store.members)[budget := members]
  {
    store.members := store.members[budget := members];
  }

  method WriteMembers(store: Store, budget: Id, c: MemberChange)
    requires budget in store.members && store.members[budget] == c.current
    modifies store`members
    ensures store.members == old(store.members)[budget := Result(c.current, c.Planned())]
  {
    RemoveAll(store, budget, c.remove);
    AddAll(store, budget, c.add);
    FlagAll(store, budget, c.flags);
  }

  method RemoveAll(store: Store, budget: Id, remove: seq<Id>)
    requires budget in store.members
    modifies store`members
    ensures store.members == old(store.members)[budget := old(store.members)[budget] - IdSet(remove)]
  {
    ghost var members := store.members[budget];
    assert members - IdSet(remove[..0]) == members;
    for i := 0 to |remove|
      invariant store.members == old(store.members)[budget := members - IdSet(remove[..i])]
    {
      assert IdSet(remove[..i + 1]) == IdSet(remove[..i]) + {remove[i]};
      assert members - IdSet(remove[..i]) - {remove[i]} == members - IdSet(remove[..i + 1]);
      store.RemoveAccount(budget, remove[i]);
    }
    assert remove[..|remove|] == remove;
  }

  method AddAll(store: Store, budget: Id, add: seq<Flag>)
    requires budget in store.members
    modifies store`members
    ensures store.members == old(store.members)[budget := AllAdded(old(store.members)[budget], add)]
  {
    hide Added;
    ghost var members := store.members[budget];
    for i := 0 to |add|
      invariant store.members == old(store.members)[budget := AllAdded(members, add[..i])]
    {
      assert add[..i + 1][..i] == add[..i];
      store.AddAccount(budget, add[i].id, add[i].on);
    }
    assert add[..|add|] == add;
  }

  method FlagAll(store: Store, budget: Id, flags: seq<Flag>)
    requires budget in store.members
    modifies store`members
    ensures store.members == old(store.members)[budget := AllFlagged(old(store.members)[budget], flags)]
  {
    hide Flagged;
    ghost var members := store.members[budget];
    for i := 0 to |flags|
      invariant store.members == old(store.members)[budget := AllFlagged(members, flags[..i])]
    {
      assert flags[..i + 1][..i] == flags[..i];
      store.SetAccountSavings(budget, flags[i].id, flags[i].on);
    }
    assert flags[..|flags|] == flags;
  }

  /**
   * What every membership write owes once its plan stands: refused for lack of confirmation exactly when data would go,
   * otherwise written as planned.
   */
  ghost predicate Concluded(refusal: Option<Refusal>, budget: Id, old_: Rows, new_: Rows, p: Participants,
                            goal: map<Id, bool>,
                            accounts: map<Id, Account>, confirmed: bool) {
    && (refusal.Some? ==> new_ == old_ && refusal.value in {Unconfirmed, SyncFailed})
    && (refusal == Some(Unconfirmed) <==> !confirmed && LosesData(old_, budget, goal))
    && (refusal.None? ==> Written(budget, old_, new_, p, goal, accounts))
  }

  /** Guard and write, in the caller's transaction. */
  method GuardAndApply(store: Store, budget: Id, c: MemberChange, p: Participants, accounts: map<Id, Account>,
                       confirmed: bool)
    returns (refusal: Option<Refusal>)
    requires Consistent(store.State()) && budget in store.members && store.members[budget] == c.current
    requires WellFormed(c.current, c.Planned())
    requires Apart(p, accounts, RowsOf(store.elements, budget))
    requires forall x :: x in Result(c.current, c.Planned()) ==> x in accounts
    modifies store
    ensures Consistent(store.State())
    ensures Concluded(refusal, budget, old(store.State()), store.State(), p, Result(c.current, c.Planned()), accounts,
                      confirmed)
  {
    hide Consistent, Apart, Claims, Result, WellFormed, Written, SavingsHasData, NothingOn, LosesData;
    LosesDataMeans(store.State(), budget, Result(c.current, c.Planned()));
    var leaving := c.Leaving();
    NothingOnMeans(store.State(), budget, leaving);
    var ok := GuardSavingsRemoval(Rows(store.members, store.elements, store.limits, store.comments), budget, leaving,
                                  confirmed);
    if !ok {
      return Some(Unconfirmed);
    }
    ApartFewer(p, accounts, Result(c.current, c.Planned()), RowsOf(store.elements, budget));
    ok := ApplyMemberChange(store, budget, c, p, accounts);
    refusal := if ok then None else Some(SyncFailed);
  }

  /** The membership part of update-budget: plan, guard and write in one transaction. */
  method UpdateBudget(store: Store, budget: Id, members: seq<Id>, p: Participants, accounts: map<Id, Account>, user: Id,
                      locked: set<Id>, accountIds: Option<seq<RawId>>, savingsIds: Option<seq<RawId>>, confirmed: bool)
    returns (refusal: Option<Refusal>)
    requires Consistent(store.State()) && budget in store.members
    requires NoRepeats(members) && forall x :: x in members <==> x in store.members[budget]
    requires forall x :: x in store.members[budget] ==> x in accounts
    requires Apart(p, accounts, RowsOf(store.elements, budget))
    modifies store
    ensures Consistent(store.State())
    ensures var current := old(store.members)[budget];
      var verdict := Verdict(current, accounts, user, locked, accountIds, savingsIds);
      if verdict.Some? then refusal == verdict && store.State() == old(store.State())
      else Concluded(refusal, budget, old(store.State()), store.State(), p,
                     Goal(current, accounts, user, accountIds, savingsIds), accounts, confirmed)
    ensures refusal.None? ==>
      store.members == old(store.members)[budget := Goal(old(store.members)[budget], accounts, user, accountIds,
                                                         savingsIds)]
  {
    hide Consistent, Apart, Claims, Goal, Verdict, Result, WellFormed, Written;
    ghost var rows := store.State();
    var c;
    refusal, c := PlanOwnMembership(members, store.members[budget], accounts, user, locked, accountIds, savingsIds);
    if refusal.Some? {
      return;
    }
    GoalKnown(store.members[budget], accounts, user, accountIds, savingsIds);
    refusal := GuardAndApply(store, budget, c, p, accounts, confirmed);
    if refusal.None? {
      WrittenMembers(budget, rows, store.State(), p,
                     Goal(rows.members[budget], accounts, user, accountIds, savingsIds), accounts);
    }
  }

  /** A written change is the members' change. */
  lemma WrittenMembers(budget: Id, old_: Rows, new_: Rows, p: Participants, goal: map<Id, bool>,
                       accounts: map<Id, Account>)
    requires Written(budget, old_, new_, p, goal, accounts)
    ensures new_.members == old_.members[budget := goal]
  {
    hide Claims, Synced, RowsOf, Joined, SameSavings;
  }

  /** Where add-account takes the members: naming a member again changes at most its role. */
  function AddGoal(current: map<Id, bool>, account: Id, savings: Option<bool>): map<Id, bool> {
    if savings.Some? then current[account := savings.value]
    else if account in current then current
    else current[account := false]
  }

  /** Nobody else's membership or role changes, and the account has the role asked for, or the one it had, or none. */
  lemma AddGoalMeans(current: map<Id, bool>, account: Id, savings: Option<bool>)
    ensures var goal := AddGoal(current, account, savings);
      && goal.Keys == current.Keys + {account} && goal - {account} == current - {account}
      && goal[account] == match savings case Some(on) => on case None => account in current && current[account]
  {
  }

  /** The change that names one account. */
  method PlanAccount(current: map<Id, bool>, account: Id, savings: Option<bool>) returns (c: MemberChange)
    ensures fresh(c) && c.current == current && WellFormed(current, c.Planned())
    ensures Result(current, c.Planned()) == AddGoal(current, account, savings)
  {
    c := new MemberChange(current);
    if account in current {
      if savings.Some? {
        c.SetFlag(account, savings.value);
        assert c.flags == [] || c.flags == [Flag(account, savings.value)];
      }
    } else {
      c.AddMember(account, savings == Some(true));
      assert c.add == [Flag(account, savings == Some(true))];
    }
    PlanForOne(current, c.Planned(), account, AddGoal(current, account, savings));
  }

  method AddAccount(store: Store, budget: Id, account: Id, savings: Option<bool>, p: Participants,
                    accounts: map<Id, Account>,
                    confirmed: bool) returns (refusal: Option<Refusal>)
    requires Consistent(store.State()) && budget in store.members && account in accounts
    requires forall x :: x in store.members[budget] ==> x in accounts
    requires Apart(p, accounts, RowsOf(store.elements, budget))
    modifies store
    ensures Consistent(store.State())
    ensures var current := old(store.members)[budget];
      if account !in current && accounts[account].deleted then refusal == Some(BlankId)
         && store.State() == old(store.State())
      else Concluded(refusal, budget, old(store.State()), store.State(), p, AddGoal(current, account, savings),
                     accounts, confirmed)
    ensures refusal.None? ==>
      && store.members == old(store.members)[budget := store.members[budget]]
      && var current, now := old(store.members)[budget], store.members[budget];
         && account in now && now - {account} == current - {account}
         && now[account] == match savings case Some(on) => on case None => account in current && current[account]
  {
    hide Consistent, Apart, Claims, Written, AddGoal, Result, WellFormed;
    var current := store.members[budget];
    if account !in current && accounts[account].deleted {
      return Some(BlankId);
    }
    var c := PlanAccount(current, account, savings);
    AddGoalMeans(current, account, savings);
    ghost var rows := store.State();
    refusal := GuardAndApply(store, budget, c, p, accounts, confirmed);
    if refusal.None? {
      WrittenMembers(budget, rows, store.State(), p, AddGoal(current, account, savings), accounts);
    }
  }

  /** An account with history in closed months stays; any other leaves, and one that is no member is left alone. */
  method RemoveAccount(store: Store, budget: Id, account: Id, locked: set<Id>, p: Participants,
                       accounts: map<Id, Account>,
                       confirmed: bool) returns (refusal: Option<Refusal>)
    requires Consistent(store.State()) && budget in store.members && account in accounts
    requires forall x :: x in store.members[budget] ==> x in accounts
    requires Apart(p, accounts, RowsOf(store.elements, budget))
    modifies store
    ensures Consistent(store.State())
    ensures var current := old(store.members)[budget];
      if account in current && account in locked then refusal == Some(NotRemovable)
         && store.State() == old(store.State())
      else Concluded(refusal, budget, old(store.State()), store.State(), p, current - {account}, accounts, confirmed)
    ensures refusal.None? ==> store.members == old(store.members)[budget := old(store.members)[budget] - {account}]
  {
    hide Consistent, Apart, Claims, Written;
    var current := store.members[budget];
    var c := new MemberChange(current);
    if account in current {
      if account in locked {
        return Some(NotRemovable);
      }
      c.RemoveMember(account);
      assert c.remove == [account];
    }
    PlanForOne(current, c.Planned(), account, current - {account});
    hide Result, WellFormed;
    ghost var rows := store.State();
    refusal := GuardAndApply(store, budget, c, p, accounts, confirmed);
    if refusal.None? {
      WrittenMembers(budget, rows, store.State(), p, current - {account}, accounts);
    }
  }

  /** A plan about one account leads where the account is taken. */
  lemma PlanForOne(current: map<Id, bool>, plan: Plan, account: Id, goal: map<Id, bool>)
    requires WellFormed(current, plan)
    requires var f := Flag(account, account in goal && goal[account]);
      plan == Plan([], [], []) || plan == Plan([account], [], []) || plan == Plan([], [f], [])
        || plan == Plan([], [], [f])
    requires plan == Plan([], [], []) ==> goal == current
    requires plan.remove != [] ==> goal == current - {account}
    requires plan.add + plan.flags != [] ==> account in goal && goal == current[account := goal[account]]
    ensures Result(current, plan) == goal
  {
    forall x
      ensures x in Result(current, plan) <==> x in goal
      ensures x in goal ==> Result(current, plan)[x] == goal[x]
    {
      ResultOf(current, plan, x);
    }
  }

  /** The savings row of an account that plays the role in the budget now, and would not. */
  predicate LetGo(rows: Rows, budget: Id, goal: map<Id, bool>, r: Id) {
    && r in rows.elements && rows.elements[r].budget == budget && rows.elements[r].kind == Savings
    && var x := rows.elements[r].external;
       && budget in rows.members && x in rows.members[budget] && rows.members[budget][x] && !(x in goal && goal[x])
  }

  /** Some planned amount or comment hangs off a savings row that would be let go. */
  ghost predicate LosesData(rows: Rows, budget: Id, goal: map<Id, bool>) {
    || (exists l :: l in rows.limits && LetGo(rows, budget, goal, l.element))
    || (exists c :: c in rows.comments && LetGo(rows, budget, goal, rows.comments[c].element))
  }

  /** The guard asks account by account. */
  lemma LosesDataMeans(rows: Rows, budget: Id, goal: map<Id, bool>)
    ensures LosesData(rows, budget, goal) <==>
      exists x :: SavingsIn(MembersOf(rows, budget), x) && !SavingsIn(goal, x) && SavingsHasData(rows, budget, x)
  {
    if l :| l in rows.limits && LetGo(rows, budget, goal, l.element) {
      assert HasData(rows, l.element) && SavingsHasData(rows, budget, rows.elements[l.element].external);
    } else if c :| c in rows.comments && LetGo(rows, budget, goal, rows.comments[c].element) {
      var r := rows.comments[c].element;
      assert HasData(rows, r) && SavingsHasData(rows, budget, rows.elements[r].external);
    }
    if x :| SavingsIn(MembersOf(rows, budget), x) && !SavingsIn(goal, x) && SavingsHasData(rows, budget, x) {
      var r :| r in rows.elements && IsSavingsRow(rows, budget, r) && rows.elements[r].external == x
        && HasData(rows, r);
      assert LetGo(rows, budget, goal, r);
    }
  }

  lemma GoalKnown(current: map<Id, bool>, accounts: map<Id, Account>, user: Id,
                  accountIds: Option<seq<RawId>>, savingsIds: Option<seq<RawId>>)
    requires forall x :: x in current ==> x in accounts
    ensures forall x :: x in Goal(current, accounts, user, accountIds, savingsIds) ==> x in accounts
  {
  }

  lemma ApartFewer(p: Participants, accounts: map<Id, Account>, members: map<Id, bool>, before: map<Id, Element>)
    requires Apart(p, accounts, before) && forall x :: x in members ==> x in accounts
    ensures Apart(p, members, before)
  {
  }

  /** Members and roles of other participants come through update-budget as they were. */
  lemma OthersUntouched(current: map<Id, bool>, accounts: map<Id, Account>, user: Id,
                        accountIds: Option<seq<RawId>>, savingsIds: Option<seq<RawId>>, x: Id)
    requires !(x in accounts && accounts[x].owner == user)
    ensures var goal := Goal(current, accounts, user, accountIds, savingsIds);
      (x in goal <==> x in current) && (x in goal ==> goal[x] == current[x])
  {
    assert x !in Own(current, accounts, user);
    if accountIds.Some? { assert x !in Wanted(accounts, user, accountIds.value); }
  }

  /** The caller's own accounts are members exactly as named, if members are named at all, and play the savings role
      exactly as named, if roles are; what is not named stays, and an account newly a member plays no role. */
  lemma OwnAsNamed(current: map<Id, bool>, accounts: map<Id, Account>, user: Id,
                   accountIds: Option<seq<RawId>>, savingsIds: Option<seq<RawId>>, x: Id)
    requires x in accounts && accounts[x].owner == user
    ensures var goal := Goal(current, accounts, user, accountIds, savingsIds);
      && (x in goal <==> match accountIds case Some(ids) => Some(x) in ids case None => x in current)
      && (x in goal ==> (goal[x] <==> match savingsIds
                                      case Some(ids) => Some(x) in ids
                                      case None => x in current && current[x]))
  {
    assert x in Own(current, accounts, user) <==> x in current;
    if accountIds.Some? { assert x in Wanted(accounts, user, accountIds.value) <==> Some(x) in accountIds.value; }
  }

  /**
   * A request goes through to the guard exactly when its ids are accounts, no own member it drops is locked, no account
   * it adds is deleted, and every role it names is of an own account that will be a member.
   */
  lemma AllowedExactly(current: map<Id, bool>, accounts: map<Id, Account>, user: Id, locked: set<Id>,
                       accountIds: Option<seq<RawId>>, savingsIds: Option<seq<RawId>>)
    ensures Verdict(current, accounts, user, locked, accountIds, savingsIds).None? <==>
      && (accountIds.Some? ==>
            && None !in accountIds.value
            && (forall x :: x in current && x in accounts && accounts[x].owner == user && x in locked ==>
                  Some(x) in accountIds.value)
            && (forall x :: x in accounts && accounts[x].owner == user && Some(x) in accountIds.value &&
                            accounts[x].deleted ==>
                  x in current))
      && (savingsIds.Some? ==> forall raw :: raw in savingsIds.value ==>
            && raw.Some? && raw.value in accounts && accounts[raw.value].owner == user
            && match accountIds case Some(ids) => raw in ids case None => raw.value in current)
  {
    var after := OwnAfter(current, accounts, user, accountIds);
    forall x ensures x in after <==> && x in accounts && accounts[x].owner == user
                                     && match accountIds case Some(ids) => Some(x) in ids case None => x in current {
    }
    forall x ensures x in Own(current, accounts, user) <==> x in current && x in accounts && accounts[x].owner == user {
    }
    hide OwnAfter, Own, Owns;
  }

  /** Every savings row belongs to an account flagged savings. */
  ghost predicate NoStale(rows: Rows, budget: Id) {
    forall r :: IsSavingsRow(rows, budget, r) ==> SavingsIn(MembersOf(rows, budget), rows.elements[r].external)
  }

  /** After an unconfirmed write a savings row that carries something is gone in one case only: the write moved other
      savings, and the row had outlived its account's savings role. */
  lemma UnconfirmedLoss(budget: Id, old_: Rows, new_: Rows, p: Participants, goal: map<Id, bool>,
                        accounts: map<Id, Account>, r: Id)
    requires Consistent(old_) && Written(budget, old_, new_, p, goal, accounts) && !LosesData(old_, budget, goal)
    requires Apart(p, goal, RowsOf(old_.elements, budget))
    requires r in old_.elements && old_.elements[r].budget == budget && old_.elements[r].kind == Savings
    requires (exists l :: l in old_.limits && l.element == r)
             || (exists c :: c in old_.comments && old_.comments[c].element == r)
    ensures var x, current := old_.elements[r].external, MembersOf(old_, budget);
      r !in new_.elements <==>
        && !SameSavings(current, goal) && !SavingsIn(current, x) && !SavingsIn(goal, x)
        && !Claimed(Claims(p, RowsOf(old_.elements, budget)), x)
  {
    assert HasData(old_, r);
    LosesDataMeans(old_, budget, goal);
    hide Claims, Apart, HasData, SameSavings, LosesData;
    var current, x := MembersOf(old_, budget), old_.elements[r].external;
    assert SavingsHasData(old_, budget, x);
    assert SavingsIn(current, x) ==> SavingsIn(goal, x);
    hide SavingsHasData, LosesData;
    if !SameSavings(current, goal) {
      var moved := old_.(members := old_.members[budget := goal]);
      var before, after := RowsOf(moved.elements, budget), RowsOf(new_.elements, budget);
      var all :| Joined(p, goal, accounts, all)
        && Outcomes(budget, moved, new_, Claims(all, before), Changed(before, after), before.Keys - after.Keys);
      hide Joined;
      JoinedDistinct(p, goal, before, accounts, all);
      hide Synced, Claimed;
      RowSurvives(budget, moved, new_, Claims(all, before), r);
    }
  }

  lemma RowSurvives(budget: Id, old_: Rows, new_: Rows, claims: seq<Claim>, r: Id)
    requires var before, after := RowsOf(old_.elements, budget), RowsOf(new_.elements, budget);
      Outcomes(budget, old_, new_, claims, Changed(before, after), before.Keys - after.Keys)
    requires r in old_.elements && old_.elements[r].budget == budget
    ensures r in new_.elements <==> Claimed(claims, old_.elements[r].external)
  {
    hide NewKeysLast, MeetsOne, OnePerEntity, Claimed;
  }

  /** Everything planned or noted on the budget's savings rows is still there, unchanged. */
  ghost predicate SavingsDataKept(budget: Id, old_: Rows, new_: Rows) {
    && (forall l :: l in old_.limits && l.element in old_.elements && old_.elements[l.element].budget == budget
                    && old_.elements[l.element].kind == Savings ==>
          l in new_.limits && new_.limits[l] == old_.limits[l])
    && (forall c :: c in old_.comments && old_.comments[c].element in old_.elements
                    && old_.elements[old_.comments[c].element].budget == budget
                    && old_.elements[old_.comments[c].element].kind == Savings ==>
          c in new_.comments && new_.comments[c] == old_.comments[c])
  }

  /**
   * Without such leftovers, an unconfirmed write deletes no savings row that carries anything, and leaves none behind.
   */
  lemma UnconfirmedKeepsPlans(budget: Id, old_: Rows, new_: Rows, p: Participants, goal: map<Id, bool>,
                              accounts: map<Id, Account>)
    requires Consistent(old_) && Written(budget, old_, new_, p, goal, accounts)
    requires Apart(p, goal, RowsOf(old_.elements, budget))
    requires NoStale(old_, budget)
    ensures !LosesData(old_, budget, goal) ==> SavingsDataKept(budget, old_, new_)
    ensures NoStale(new_, budget)
  {
    hide Apart, LosesData, Claims, Claimed;
    if !LosesData(old_, budget, goal) {
      hide Written, Consistent, SameSavings;
      forall r | IsSavingsRow(old_, budget, r) && HasData(old_, r)
        ensures r in new_.elements
      {
        UnconfirmedLoss(budget, old_, new_, p, goal, accounts, r);
      }
      KeptWithRows(budget, old_, new_, p, goal, accounts);
    }
    StaleFree(budget, old_, new_, p, goal, accounts);
  }

  /** Limits and comments go with deleted rows and in no other way. */
  lemma WrittenKeeps(budget: Id, old_: Rows, new_: Rows, p: Participants, goal: map<Id, bool>,
                     accounts: map<Id, Account>)
    requires Consistent(old_) && Written(budget, old_, new_, p, goal, accounts)
    ensures forall l :: l in old_.limits && l.element in new_.elements ==>
              l in new_.limits && new_.limits[l] == old_.limits[l]
    ensures forall c :: c in old_.comments && old_.comments[c].element in new_.elements ==>
              c in new_.comments && new_.comments[c] == old_.comments[c]
  {
    hide Claims, Synced, RowsOf, Joined;
    if !SameSavings(MembersOf(old_, budget), goal) {
      var moved := old_.(members := old_.members[budget := goal]);
      var before, after := RowsOf(moved.elements, budget), RowsOf(new_.elements, budget);
      var all :| Joined(p, goal, accounts, all)
        && Outcomes(budget, moved, new_, Claims(all, before), Changed(before, after), before.Keys - after.Keys);
      hide Changed, SameSavings;
    }
  }

  lemma KeptWithRows(budget: Id, old_: Rows, new_: Rows, p: Participants, goal: map<Id, bool>,
                     accounts: map<Id, Account>)
    requires Consistent(old_) && Written(budget, old_, new_, p, goal, accounts)
    requires forall r :: IsSavingsRow(old_, budget, r) && HasData(old_, r) ==> r in new_.elements
    ensures SavingsDataKept(budget, old_, new_)
  {
    WrittenKeeps(budget, old_, new_, p, goal, accounts);
    hide Written, Consistent;
    forall l | l in old_.limits && IsSavingsRow(old_, budget, l.element) ensures l.element in new_.elements {
      assert HasData(old_, l.element);
    }
    forall c | c in old_.comments && IsSavingsRow(old_, budget, old_.comments[c].element)
      ensures old_.comments[c].element in new_.elements {
      assert HasData(old_, old_.comments[c].element);
    }
  }

  lemma StaleFree(budget: Id, old_: Rows, new_: Rows, p: Participants, goal: map<Id, bool>, accounts: map<Id, Account>)
    requires Written(budget, old_, new_, p, goal, accounts) && NoStale(old_, budget)
    ensures NoStale(new_, budget)
  {
    hide Claims, Without;
    if !SameSavings(MembersOf(old_, budget), goal) {
      var moved := old_.(members := old_.members[budget := goal]);
      var before, after := RowsOf(moved.elements, budget), RowsOf(new_.elements, budget);
      var all :| Joined(p, goal, accounts, all)
        && Outcomes(budget, moved, new_, Claims(all, before), Changed(before, after), before.Keys - after.Keys);
      assert new_.members == moved.members by { WithoutMembers(moved.(elements := moved.elements + after),
                                                               before.Keys - after.Keys); }
      forall r | IsSavingsRow(new_, budget, r)
        ensures SavingsIn(MembersOf(new_, budget), new_.elements[r].external)
      {
        assert r in after && MeetsOne(budget, before, Claims(all, before), r, after[r]);
        SavingsClaimed(p, goal, accounts, all, budget, before, r, after[r]);
      }
    }
  }

  lemma WithoutMembers(rows: Rows, gone: set<Id>)
    ensures Without(rows, gone).members == rows.members
  {
  }

  lemma SavingsClaimed(p: Participants, goal: map<Id, bool>, accounts: map<Id, Account>, all: Participants,
                       budget: Id, before: map<Id, Element>, r: Id, e: Element)
    requires Joined(p, goal, accounts, all) && MeetsOne(budget, before, Claims(all, before), r, e) && e.kind == Savings
    ensures SavingsIn(goal, e.external)
  {
    var claims := Claims(all, before);
    var i :| 0 <= i < |claims| && claims[i].external == e.external && Meets(budget, before, claims[i], r, e);
    assert claims[i].kind == Savings;
    hide Meets, Joined;
    SavingsLast(all, before, i);
    assert Joined(p, goal, accounts, all);
    JoinedFlag(p, goal, accounts, all, i - (|claims| - |all.savings|));
  }

  lemma JoinedFlag(p: Participants, members: map<Id, bool>, accounts: map<Id, Account>, all: Participants, i: int)
    requires Joined(p, members, accounts, all) && 0 <= i < |all.savings|
    ensures SavingsIn(members, all.savings[i].account)
  {
  }

  lemma SavingsLast(all: Participants, before: map<Id, Element>, i: int)
    requires 0 <= i < |Claims(all, before)| && Claims(all, before)[i].kind == Savings
    ensures var j := i - (|Claims(all, before)| - |all.savings|);
      0 <= j < |all.savings| && Claims(all, before)[i].external == all.savings[j].account
  {
    var some, more := EnvelopeClaims(all, before) + CategoryClaims(all) + TagClaims(all), SavingsClaims(all);
    NoSavingsBefore(all, before);
    hide EnvelopeClaims, CategoryClaims, TagClaims;
    assert Claims(all, before) == some + more;
    assert forall j :: 0 <= j < |some| ==> some[j] in some && (some + more)[j] == some[j];
    assert i >= |some|;
  }

  lemma NoSavingsBefore(all: Participants, before: map<Id, Element>)
    ensures forall c :: c in EnvelopeClaims(all, before) + CategoryClaims(all) + TagClaims(all) ==> c.kind != Savings
  {
    assert forall c :: c in EnvelopeClaims(all, before) ==> c.kind != Savings;
    assert forall c :: c in CategoryClaims(all) ==> c.kind != Savings;
    assert forall c :: c in TagClaims(all) ==> c.kind != Savings;
  }

  /**
   * A budget with a savings row left over from account 7, and one of the savings account 8; only the first is planned.
   */
  ghost function LeftoverBefore(): Rows {
    Rows(map[1 := map[8 := true]], map[10 := Element(1, 7, Savings, None, None, "c000"),
                                       11 := Element(1, 8, Savings, None, None, "c001")],
         map[Slot(10, 0) := 5], map[])
  }

  ghost function LeftoverAfter(): Rows {
    Rows(map[1 := map[8 := false]], map[], map[], map[])
  }

  /**
   * A leftover row is really lost: turning account 8's savings off, unconfirmed, deletes account 7's row and its plan.
   */
  lemma LeftoverRowLost()
    ensures Written(1, LeftoverBefore(), LeftoverAfter(), Participants([], [], [], []), map[8 := false], map[])
    ensures !LosesData(LeftoverBefore(), 1, map[8 := false])
    ensures IsSavingsRow(LeftoverBefore(), 1, 10) && Slot(10, 0) in LeftoverBefore().limits
    ensures 10 !in LeftoverAfter().elements && LeftoverAfter().limits == map[]
  {
    LeftoverWritten();
    LeftoverUnseen();
    hide Written, LosesData;
    assert Slot(10, 0) in LeftoverBefore().limits;
  }

  lemma LeftoverUnseen()
    ensures !LosesData(LeftoverBefore(), 1, map[8 := false])
  {
    hide Written;
  }

  lemma LeftoverWritten()
    ensures Written(1, LeftoverBefore(), LeftoverAfter(), Participants([], [], [], []), map[8 := false], map[])
  {
    var old_, new_, p := LeftoverBefore(), LeftoverAfter(), Participants([], [], [], []);
    var goal: map<Id, bool> := map[8 := false];
    var moved := old_.(members := old_.members[1 := goal]);
    assert moved.members == new_.members;
    EverythingDeleted(1, moved, new_, p);
    assert Claims(p, RowsOf(moved.elements, 1)) == [];
    assert SavingsIn(MembersOf(old_, 1), 8) && !SavingsIn(goal, 8);
    hide Outcomes, Claims, Without, RowsOf, Changed;
    assert Joined(p, goal, map[], p);
    hide Joined;
    assert Followed(1, moved, new_, p, goal, map[]);
  }

  lemma EverythingDeleted(budget: Id, old_: Rows, new_: Rows, p: Participants)
    requires new_ == old_.(elements := map[], limits := map[], comments := map[])
    requires forall r :: r in old_.elements ==> old_.elements[r].budget == budget
    requires forall l :: l in old_.limits ==> l.element in old_.elements
    requires forall c :: c in old_.comments ==> old_.comments[c].element in old_.elements
    ensures var before, after := RowsOf(old_.elements, budget), RowsOf(new_.elements, budget);
      Outcomes(budget, old_, new_, [], Changed(before, after), before.Keys - after.Keys)
  {
    var before, after := RowsOf(old_.elements, budget), RowsOf(new_.elements, budget);
    assert before == old_.elements && after == map[];
    var kept := Without(old_.(elements := old_.elements + after), before.Keys - after.Keys);
    assert kept.elements == map[] && kept.limits == map[] && kept.comments == map[];
  }
}
