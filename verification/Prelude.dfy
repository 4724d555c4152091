/** Vocabulary shared by every part of the model. */
module Prelude {
  /** Identifiers are UUIDs; a number stands for one, and the order of the numbers for the order of the string forms. */
  type Id = nat

  datatype Option<+T> = None | Some(value: T)

  /** The total of f over a finite set. */
  ghost function SumSet<K>(s: set<K>, f: K -> int): int {
    if s == {} then 0
    else
      var x :| x in s;
      f(x) + SumSet(s - {x}, f)
  }

  lemma {:induction false} SumSetRemove<K>(s: set<K>, f: K -> int, y: K)
    requires y in s
    ensures SumSet(s, f) == f(y) + SumSet(s - {y}, f)
    decreases s
  {
    var x :| x in s && SumSet(s, f) == f(x) + SumSet(s - {x}, f);
    if x != y {
      SumSetRemove(s - {x}, f, y);
      SumSetRemove(s - {y}, f, x);
      assert s - {x} - {y} == s - {y} - {x};
    }
  }

  lemma {:induction false} SumSetAdd<K>(s: set<K>, f: K -> int, y: K)
    requires y !in s
    ensures SumSet(s + {y}, f) == f(y) + SumSet(s, f)
  {
    SumSetRemove(s + {y}, f, y);
    assert s + {y} - {y} == s;
  }

  /** Two functions that agree on the set have the same total. */
  lemma {:induction false} SumSetAgree<K>(s: set<K>, f: K -> int, g: K -> int)
    requires forall x :: x in s ==> f(x) == g(x)
    ensures SumSet(s, f) == SumSet(s, g)
    decreases s
  {
    if s != {} {
      var x :| x in s;
      SumSetRemove(s, f, x);
      SumSetRemove(s, g, x);
      SumSetAgree(s - {x}, f, g);
    }
  }

  lemma {:induction false} SumSetPlus<K>(s: set<K>, f: K -> int, g: K -> int, h: K -> int)
    requires forall x :: x in s ==> h(x) == f(x) + g(x)
    ensures SumSet(s, h) == SumSet(s, f) + SumSet(s, g)
    decreases s
  {
    if s != {} {
      var x :| x in s;
      SumSetRemove(s, f, x);
      SumSetRemove(s, g, x);
      SumSetRemove(s, h, x);
      SumSetPlus(s - {x}, f, g, h);
    }
  }

  lemma {:induction false} SumSetZero<K>(s: set<K>, f: K -> int)
    requires forall x :: x in s ==> f(x) == 0
    ensures SumSet(s, f) == 0
    decreases s
  {
    if s != {} {
      var x :| x in s;
      SumSetRemove(s, f, x);
      SumSetZero(s - {x}, f);
    }
  }

  ghost predicate Increasing(s: seq<Id>) {
    forall i, j :: 0 <= i < j < |s| ==> s[i] < s[j]
  }

  method Least(s: set<Id>) returns (least: Id)
    requires s != {}
    ensures least in s && forall x :: x in s ==> least <= x
  {
    least :| least in s;
    var rest := s - {least};
    while rest != {}
      invariant rest <= s && least in s
      invariant forall x :: x in s && x !in rest ==> least <= x
    {
      var x :| x in rest;
      rest := rest - {x};
      if x < least { least := x; }
    }
  }

  /** The members of a set in id order. */
  method Sorted(s: set<Id>) returns (r: seq<Id>)
    ensures Increasing(r)
    ensures forall x :: x in r <==> x in s
  {
    r := [];
    var rest := s;
    while rest != {}
      invariant rest <= s && Increasing(r)
      invariant forall x :: x in r <==> x in s && x !in rest
      invariant forall x, y :: x in r && y in rest ==> x < y
    {
      var x := Least(rest);
      assert forall i :: 0 <= i < |r| ==> r[i] in r;
      rest := rest - {x};
      r := r + [x];
    }
  }

  lemma FreshIdExists(taken: set<Id>)
    ensures exists r: Id :: r !in taken
  {
    var bound := Bound(taken);
    assert bound !in taken;
  }

  ghost function Bound(taken: set<Id>): (b: Id)
    ensures forall r :: r in taken ==> r < b
  {
    if taken == {} then 0
    else
      var r :| r in taken;
      var b := Bound(taken - {r});
      assert forall q :: q in taken ==> q == r || q in taken - {r};
      if r < b then b else r + 1
  }

  /** An id in no row there is. */
  method NextIdentity(taken: set<Id>) returns (id: Id)
    ensures id !in taken
  {
    FreshIdExists(taken);
    id :| id !in taken;
  }
}
