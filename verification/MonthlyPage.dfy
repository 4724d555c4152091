/** The monthly page: one period's expense rows bucketed by tag and category, then taken by the page's elements. */
module MonthlyPage {
  import opened Prelude
  import opened Calendar
  import opened Filing
  import C = Convertor

  /** A bucket of spending: by tag if there is one, else by category, and by category inside a tag. */
  datatype Slot = Slot(tag: Option<Id>, category: Option<Id>)

  function SlotOf(r: Row): Slot {
    Slot(r.tag, r.category)
  }

  function Bucket(data: map<Slot, seq<Row>>, s: Slot): seq<Row> {
    if s in data then data[s] else []
  }

  ghost function InSlot(s: Slot): Row -> bool {
    (r: Row) => SlotOf(r) == s
  }

  ghost function InSlots(slots: set<Slot>): Row -> bool {
    (r: Row) => SlotOf(r) in slots
  }

  /** The rows that are kept, in row order. */
  ghost function Kept(rows: seq<Row>, keep: Row -> bool): seq<Row> {
    if rows == [] then []
    else Kept(rows[..|rows| - 1], keep) + if keep(rows[|rows| - 1]) then [rows[|rows| - 1]] else []
  }

  ghost predicate Bucketed(rows: seq<Row>, data: map<Slot, seq<Row>>) {
    forall s {:trigger Bucket(data, s)} :: Bucket(data, s) == Kept(rows, InSlot(s))
  }

  lemma NoBuckets()
    ensures Bucketed([], map[])
  {
  }

  lemma BucketNext(rows: seq<Row>, n: int, data: map<Slot, seq<Row>>)
    requires 0 <= n < |rows| && Bucketed(rows[..n], data)
    ensures Bucketed(rows[..n + 1], data[SlotOf(rows[n]) := Bucket(data, SlotOf(rows[n])) + [rows[n]]])
  {
    var after := data[SlotOf(rows[n]) := Bucket(data, SlotOf(rows[n])) + [rows[n]]];
    forall x {:trigger Bucket(after, x)} ensures Bucket(after, x) == Kept(rows[..n + 1], InSlot(x)) {
      assert Bucket(data, x) == Kept(rows[..n], InSlot(x));
      assert rows[..n + 1][..n] == rows[..n];
    }
  }

  method BuildElementsSpending(rows: seq<Row>) returns (data: map<Slot, seq<Row>>)
    ensures Bucketed(rows, data)
    ensures forall r :: r in rows ==> SlotOf(r) in data
  {
    hide Bucketed;
    data := map[];
    assert Bucketed([], data) by { NoBuckets(); }
    for n := 0 to |rows|
      invariant Bucketed(rows[..n], data)
      invariant forall i :: 0 <= i < n ==> SlotOf(rows[i]) in data
    {
      ghost var before := data;
      var s := SlotOf(rows[n]);
      data := data[s := Bucket(data, s) + [rows[n]]];
      BucketNext(rows, n, before);
    }
    assert rows[..|rows|] == rows;
  }

  /** Rows as money to convert. */
  function Items(rows: seq<Row>, w: Window, to: Id): seq<C.Item> {
    seq(|rows|, i requires 0 <= i < |rows| => ItemOf(rows[i], w, to))
  }

  lemma {:induction false} ItemsOfKept(rows: seq<Row>, w: Window, to: Id, keep: Row -> bool)
    ensures Items(Kept(rows, keep), w, to) == FilterItems(rows, w, to, keep)
  {
    if rows != [] {
      ItemsOfKept(rows[..|rows| - 1], w, to, keep);
    }
  }

  function SpentAt(toConvert: map<Element, seq<C.Item>>, el: Element): seq<C.Item> {
    if el in toConvert then toConvert[el] else []
  }

  function Takes(takes: map<Element, set<Slot>>, el: Element): set<Slot> {
    if el in takes then takes[el] else {}
  }

  /** What is queued under each element is the money of the buckets it has taken. */
  ghost predicate Queued(rows: seq<Row>, w: Window, currency: Element -> Id, toConvert: map<Element, seq<C.Item>>,
                         takes: map<Element, set<Slot>>)
  {
    forall el {:trigger SpentAt(toConvert, el)} ::
      SameItems(SpentAt(toConvert, el), FilterItems(rows, w, currency(el), InSlots(Takes(takes, el))))
  }

  ghost predicate SameItems(a: seq<C.Item>, b: seq<C.Item>) {
    multiset(a) == multiset(b)
  }

  lemma NothingQueued(rows: seq<Row>, w: Window, currency: Element -> Id)
    ensures Queued(rows, w, currency, map[], map[])
  {
    forall el {:trigger currency(el)} ensures FilterItems(rows, w, currency(el), InSlots({})) == [] {
      FilterNone(rows, w, currency(el), InSlots({}));
    }
  }

  method AddSpendingConvert(toConvert: map<Element, seq<C.Item>>, el: Element, cs: seq<Row>, w: Window, to: Id)
    returns (more: map<Element, seq<C.Item>>)
    ensures SpentAt(more, el) == SpentAt(toConvert, el) + Items(cs, w, to)
    ensures forall x :: x != el ==> SpentAt(more, x) == SpentAt(toConvert, x)
    ensures forall x :: x in more ==> x in toConvert || more[x] != []
  {
    more := toConvert;
    for n := 0 to |cs|
      invariant SpentAt(more, el) == SpentAt(toConvert, el) + Items(cs[..n], w, to)
      invariant forall x :: x != el ==> SpentAt(more, x) == SpentAt(toConvert, x)
      invariant forall x :: x in more ==> x in toConvert || more[x] != []
    {
      more := more[el := SpentAt(more, el) + [ItemOf(cs[n], w, to)]];
      assert Items(cs[..n + 1], w, to) == Items(cs[..n], w, to) + [ItemOf(cs[n], w, to)];
    }
    assert cs[..|cs|] == cs;
  }

  ghost function Taken(takes: map<Element, set<Slot>>, el: Element, s: Slot): map<Element, set<Slot>> {
    takes[el := Takes(takes, el) + {s}]
  }

  /** An element takes one more bucket. */
  method TakeBucket(ghost rows: seq<Row>, data: map<Slot, seq<Row>>, w: Window, currency: Element -> Id,
                    toConvert: map<Element, seq<C.Item>>,
                    ghost takes: map<Element, set<Slot>>, el: Element, s: Slot)
    returns (more: map<Element, seq<C.Item>>)
    requires Bucketed(rows, data) && Queued(rows, w, currency, toConvert, takes) && s !in Takes(takes, el)
    ensures Queued(rows, w, currency, more, Taken(takes, el, s))
  {
    more := AddSpendingConvert(toConvert, el, Bucket(data, s), w, currency(el));
    ghost var after := Taken(takes, el, s);
    forall x {:trigger SpentAt(more, x)}
      ensures SameItems(SpentAt(more, x), FilterItems(rows, w, currency(x), InSlots(Takes(after, x))))
    {
      assert SameItems(SpentAt(toConvert, x), FilterItems(rows, w, currency(x), InSlots(Takes(takes, x))));
      if x == el {
        ItemsOfKept(rows, w, currency(el), InSlot(s));
        assert Bucket(data, s) == Kept(rows, InSlot(s));
        FilterEither(rows, w, currency(el), InSlots(Takes(takes, el)), InSlot(s), InSlots(Takes(after, el)));
      } else {
        assert Takes(after, x) == Takes(takes, x);
      }
    }
  }

  /**
   * Who takes a category's own bucket: the first expense envelope of the list that names it, if it is a known category.
   */
  function Claimer(b: Budget, envelopes: seq<Envelope>, c: Id): Option<Id> {
    if c in b.categories then FirstClaim(envelopes, false, c) else None
  }

  ghost predicate EnvelopeClaims(b: Budget, envelopes: seq<Envelope>, el: Element, s: Slot) {
    s.tag.None? && s.category.Some? && el.EnvelopeRow? && !el.income
      && Claimer(b, envelopes, s.category.value) == Some(el.id)
  }

  /** After some envelopes each has taken the buckets of the known categories it is the first to name. */
  ghost predicate EnvelopesTook(b: Budget, envelopes: seq<Envelope>, takes: map<Element, set<Slot>>, used: set<Id>) {
    && (forall c :: c in used <==> Claimer(b, envelopes, c).Some?)
    && (forall el, s {:trigger s in Takes(takes, el)} ::
          s in Takes(takes, el) <==> EnvelopeClaims(b, envelopes, el, s))
  }

  ghost function ClaimerAfter(b: Budget, envelopes: seq<Envelope>, n: int, c: Id): Option<Id>
    requires 0 <= n < |envelopes|
  {
    if Claimer(b, envelopes[..n], c).Some? then Claimer(b, envelopes[..n], c)
    else if c in b.categories && Claims(envelopes[n], false, c) then Some(envelopes[n].id) else None
  }

  lemma ClaimerNext(b: Budget, envelopes: seq<Envelope>, n: int)
    requires 0 <= n < |envelopes|
    ensures forall c :: Claimer(b, envelopes[..n + 1], c) == ClaimerAfter(b, envelopes, n, c)
  {
    FirstClaimNext(envelopes, n);
    forall c ensures Claimer(b, envelopes[..n + 1], c) == ClaimerAfter(b, envelopes, n, c) {
      assert FirstClaim(envelopes[..n + 1], false, c) == NextClaim(envelopes, n, false, c);
    }
  }

  /** One envelope part-way through its members. */
  ghost predicate EnvelopeTaking(b: Budget, envelopes: seq<Envelope>, n: int, k: int, takes: map<Element, set<Slot>>,
                                 used: set<Id>)
    requires 0 <= n < |envelopes| && 0 <= k <= |envelopes[n].members|
  {
    && (forall c :: c in used <==> (Claimer(b, envelopes[..n], c).Some?
                                    || (c in b.categories && c in envelopes[n].members[..k])))
    && (forall el, s {:trigger s in Takes(takes, el)} :: s in Takes(takes, el) <==>
          s.tag.None? && s.category.Some? && el.EnvelopeRow? && !el.income
            && MidClaim(b, envelopes, n, k, s.category.value, el.id))
  }

  ghost predicate MidClaim(b: Budget, envelopes: seq<Envelope>, n: int, k: int, c: Id, id: Id)
    requires 0 <= n < |envelopes| && 0 <= k <= |envelopes[n].members|
  {
    || Claimer(b, envelopes[..n], c) == Some(id)
    || (Claimer(b, envelopes[..n], c).None? && c in b.categories && c in envelopes[n].members[..k]
        && id == envelopes[n].id)
  }

  lemma IncomeEnvelopeTakesNothing(b: Budget, envelopes: seq<Envelope>, n: int, takes: map<Element, set<Slot>>,
                                   used: set<Id>)
    requires 0 <= n < |envelopes| && envelopes[n].income
    requires EnvelopesTook(b, envelopes[..n], takes, used)
    ensures EnvelopesTook(b, envelopes[..n + 1], takes, used)
  {
    ClaimerNext(b, envelopes, n);
    forall c ensures Claimer(b, envelopes[..n + 1], c) == Claimer(b, envelopes[..n], c) {
      assert Claimer(b, envelopes[..n + 1], c) == ClaimerAfter(b, envelopes, n, c);
    }
    hide Claimer;
    forall el, s {:trigger s in Takes(takes, el)}
      ensures s in Takes(takes, el) <==> EnvelopeClaims(b, envelopes[..n + 1], el, s) {
      assert s in Takes(takes, el) <==> EnvelopeClaims(b, envelopes[..n], el, s);
    }
  }

  /** An envelope's next member: taken unless some envelope used it already, or it is no known category. */
  lemma MemberTaken(b: Budget, envelopes: seq<Envelope>, n: int, k: int, takes: map<Element, set<Slot>>, used: set<Id>)
    requires 0 <= n < |envelopes| && 0 <= k < |envelopes[n].members|
    requires EnvelopeTaking(b, envelopes, n, k, takes, used)
    ensures var c := envelopes[n].members[k];
      var el, s := EnvelopeRow(envelopes[n].id, false), Slot(None, Some(c));
      if c in used || c !in b.categories then EnvelopeTaking(b, envelopes, n, k + 1, takes, used)
      else s !in Takes(takes, el) && EnvelopeTaking(b, envelopes, n, k + 1, Taken(takes, el, s), used + {c})
  {
    var env := envelopes[n];
    var c := env.members[k];
    assert env.members[..k + 1] == env.members[..k] + [c];
    var target, bucket := EnvelopeRow(env.id, false), Slot(None, Some(c));
    assert bucket in Takes(takes, target) <==> MidClaim(b, envelopes, n, k, c, env.id);
    hide Claimer;
    var skip := c in used || c !in b.categories;
    var after := if skip then takes else Taken(takes, target, bucket);
    forall el, s {:trigger s in Takes(after, el)}
      ensures s in Takes(after, el) <==> (s.tag.None? && s.category.Some? && el.EnvelopeRow? && !el.income
        && MidClaim(b, envelopes, n, k + 1, s.category.value, el.id))
    {
      assert s in Takes(takes, el) <==> (s.tag.None? && s.category.Some? && el.EnvelopeRow? && !el.income
        && MidClaim(b, envelopes, n, k, s.category.value, el.id));
      if s.category == Some(c) {
        assert c in used <==> (Claimer(b, envelopes[..n], c).Some? || (c in b.categories && c in env.members[..k]));
      }
    }
  }

  lemma EnvelopeDone(b: Budget, envelopes: seq<Envelope>, n: int, takes: map<Element, set<Slot>>, used: set<Id>)
    requires 0 <= n < |envelopes| && !envelopes[n].income
    requires EnvelopeTaking(b, envelopes, n, |envelopes[n].members|, takes, used)
    ensures EnvelopesTook(b, envelopes[..n + 1], takes, used)
  {
    hide Claimer;
    ClaimerNext(b, envelopes, n);
    assert envelopes[n].members[..|envelopes[n].members|] == envelopes[n].members;
    forall c ensures c in used <==> Claimer(b, envelopes[..n + 1], c).Some? {
      assert Claimer(b, envelopes[..n + 1], c) == ClaimerAfter(b, envelopes, n, c);
    }
    forall el, s {:trigger s in Takes(takes, el)}
      ensures s in Takes(takes, el) <==> EnvelopeClaims(b, envelopes[..n + 1], el, s) {
      if s.category.Some? && el.EnvelopeRow? {
        assert Claimer(b, envelopes[..n + 1], s.category.value) == ClaimerAfter(b, envelopes, n, s.category.value);
        assert s in Takes(takes, el) <==> s.tag.None? && !el.income
                                          && MidClaim(b, envelopes, n, |envelopes[n].members|, s.category.value, el.id);
      }
    }
  }

  method EnvelopePass(b: Budget, ghost rows: seq<Row>, data: map<Slot, seq<Row>>, w: Window, currency: Element -> Id)
    returns (toConvert: map<Element, seq<C.Item>>, used: set<Id>, ghost takes: map<Element, set<Slot>>)
    requires Bucketed(rows, data)
    ensures Queued(rows, w, currency, toConvert, takes)
    ensures EnvelopesTook(b, b.envelopes, takes, used)
    ensures forall c :: c in used <==> c in b.categories && FirstClaim(b.envelopes, false, c).Some?
  {
    hide Bucketed, Queued;
    toConvert, used, takes := map[], {}, map[];
    NothingQueued(rows, w, currency);
    for n := 0 to |b.envelopes|
      invariant Queued(rows, w, currency, toConvert, takes)
      invariant EnvelopesTook(b, b.envelopes[..n], takes, used)
    {
      var env := b.envelopes[n];
      ClaimerNext(b, b.envelopes, n);
      if env.income {
        IncomeEnvelopeTakesNothing(b, b.envelopes, n, takes, used);
        continue;
      }
      for k := 0 to |env.members|
        invariant Queued(rows, w, currency, toConvert, takes)
        invariant EnvelopeTaking(b, b.envelopes, n, k, takes, used)
      {
        var c := env.members[k];
        MemberTaken(b, b.envelopes, n, k, takes, used);
        if c in used || c !in b.categories {
          continue;
        }
        toConvert := TakeBucket(rows, data, w, currency, toConvert, takes, EnvelopeRow(env.id, false),
                                Slot(None, Some(c)));
        takes, used := Taken(takes, EnvelopeRow(env.id, false), Slot(None, Some(c))), used + {c};
      }
      EnvelopeDone(b, b.envelopes, n, takes, used);
    }
    assert b.envelopes[..|b.envelopes|] == b.envelopes;
    assert forall c :: c in used <==> Claimer(b, b.envelopes, c).Some?;
  }

  /** A tag takes its uncategorized bucket and those of known categories; any other is dropped. */
  ghost predicate TagTakes(b: Budget, data: map<Slot, seq<Row>>, t: Id, s: Slot) {
    s in data && s.tag == Some(t) && (s.category.Some? ==> s.category.value in b.categories)
  }

  /** The taken buckets, plus those of the tags in a set, plus part of one more tag's. */
  ghost predicate TagsTook(b: Budget, data: map<Slot, seq<Row>>, tags: set<Id>, before: map<Element, set<Slot>>,
                           after: map<Element, set<Slot>>)
  {
    forall el, s {:trigger s in Takes(after, el)} ::
      s in Takes(after, el) <==> s in Takes(before, el) || (el.TagRow? && el.id in tags && TagTakes(b, data, el.id, s))
  }

  ghost predicate TagTaking(b: Budget, data: map<Slot, seq<Row>>, t: Id, slots: set<Slot>,
                            began: map<Element, set<Slot>>, taken: map<Element, set<Slot>>)
  {
    forall el, s {:trigger s in Takes(taken, el)} ::
      s in Takes(taken, el) <==> s in Takes(began, el) || (el == TagRow(t) && s in slots && TagTakes(b, data, t, s))
  }

  lemma TagBucketTaken(b: Budget, data: map<Slot, seq<Row>>, t: Id, slots: set<Slot>, s: Slot,
                       began: map<Element, set<Slot>>, taken: map<Element, set<Slot>>)
    requires TagTaking(b, data, t, slots, began, taken) && s !in slots && s in data && s.tag == Some(t)
             && Takes(began, TagRow(t)) == {}
    ensures if s.category.Some? && s.category.value !in b.categories
      then TagTaking(b, data, t, slots + {s}, began, taken)
      else s !in Takes(taken, TagRow(t)) && TagTaking(b, data, t, slots + {s}, began, Taken(taken, TagRow(t), s))
  {
    assert s in Takes(taken, TagRow(t)) <==> s in Takes(began, TagRow(t)) || (s in slots && TagTakes(b, data, t, s));
    var after := if TagTakes(b, data, t, s) then Taken(taken, TagRow(t), s) else taken;
    forall el, x {:trigger x in Takes(after, el)}
      ensures x in Takes(after, el) <==> x in Takes(began, el)
                                         || (el == TagRow(t) && x in slots + {s} && TagTakes(b, data, t, x))
    {
      assert x in Takes(taken, el) <==> x in Takes(began, el)
                                        || (el == TagRow(t) && x in slots && TagTakes(b, data, t, x));
    }
  }

  lemma TagDone(b: Budget, data: map<Slot, seq<Row>>, tags: set<Id>, t: Id, slots: set<Slot>,
                before: map<Element, set<Slot>>,
                began: map<Element, set<Slot>>, taken: map<Element, set<Slot>>)
    requires TagsTook(b, data, tags, before, began) && TagTaking(b, data, t, slots, began, taken)
    requires slots == set s | s in data && s.tag == Some(t)
    ensures TagsTook(b, data, tags + {t}, before, taken)
  {
    forall el, s {:trigger s in Takes(taken, el)}
      ensures s in Takes(taken, el) <==> s in Takes(before, el)
                                         || (el.TagRow? && el.id in tags + {t} && TagTakes(b, data, el.id, s))
    {
      assert s in Takes(began, el) <==> s in Takes(before, el)
                                        || (el.TagRow? && el.id in tags && TagTakes(b, data, el.id, s));
    }
  }

  method TagPass(b: Budget, ghost rows: seq<Row>, data: map<Slot, seq<Row>>, w: Window, currency: Element -> Id,
                 toConvert: map<Element, seq<C.Item>>, ghost takes: map<Element, set<Slot>>)
    returns (more: map<Element, seq<C.Item>>, ghost taken: map<Element, set<Slot>>)
    requires Bucketed(rows, data) && Queued(rows, w, currency, toConvert, takes)
    requires forall t :: Takes(takes, TagRow(t)) == {}
    ensures Queued(rows, w, currency, more, taken)
    ensures TagsTook(b, data, b.tags, takes, taken)
  {
    hide Bucketed, Queued;
    more, taken := toConvert, takes;
    var tags := b.tags;
    while tags != {}
      invariant tags <= b.tags
      invariant Queued(rows, w, currency, more, taken)
      invariant TagsTook(b, data, b.tags - tags, takes, taken)
    {
      var t :| t in tags;
      ghost var began := taken;
      var slots := set s | s in data && s.tag == Some(t);
      ghost var all := slots;
      assert Takes(began, TagRow(t)) == {};
      while slots != {}
        invariant slots <= all
        invariant Queued(rows, w, currency, more, taken)
        invariant TagTaking(b, data, t, all - slots, began, taken)
      {
        var s :| s in slots;
        TagBucketTaken(b, data, t, all - slots, s, began, taken);
        assert all - (slots - {s}) == all - slots + {s};
        if s.category.None? || s.category.value in b.categories {
          more := TakeBucket(rows, data, w, currency, more, taken, TagRow(t), s);
          taken := Taken(taken, TagRow(t), s);
        }
        slots := slots - {s};
      }
      TagDone(b, data, b.tags - tags, t, all, takes, began, taken);
      assert b.tags - tags + {t} == b.tags - (tags - {t});
      tags := tags - {t};
    }
  }

  lemma OwnNext(categories: set<Id>, c: Id, before: map<Element, set<Slot>>, taken: map<Element, set<Slot>>)
    requires OwnTook(categories, {}, before, taken)
    ensures OwnTook(categories + {c}, {}, before, Taken(taken, CategoryRow(c), Slot(None, Some(c))))
  {
    var after := Taken(taken, CategoryRow(c), Slot(None, Some(c)));
    forall el, s {:trigger s in Takes(after, el)}
      ensures s in Takes(after, el) <==> s in Takes(before, el) || OwnBucket(categories + {c}, el, s)
    {
      assert s in Takes(taken, el) <==> s in Takes(before, el) || (el.ExpenseUncategorized? && s in {})
                                        || OwnBucket(categories, el, s);
    }
  }

  lemma UncategorizedTaken(categories: set<Id>, before: map<Element, set<Slot>>, taken: map<Element, set<Slot>>)
    requires OwnTook(categories, {}, before, taken) && Takes(before, ExpenseUncategorized) == {}
    ensures Slot(None, None) !in Takes(taken, ExpenseUncategorized)
    ensures OwnTook(categories, {Slot(None, None)}, before, Taken(taken, ExpenseUncategorized, Slot(None, None)))
  {
    var after := Taken(taken, ExpenseUncategorized, Slot(None, None));
    forall el, s {:trigger s in Takes(after, el)}
      ensures s in Takes(after, el) <==>
        s in Takes(before, el) || (el.ExpenseUncategorized? && s in {Slot(None, None)}) || OwnBucket(categories, el, s)
    {
      assert s in Takes(taken, el) <==> s in Takes(before, el) || (el.ExpenseUncategorized? && s in {})
                                        || OwnBucket(categories, el, s);
    }
  }

  /** The known categories no envelope used take their own bucket. */
  method CategoryPass(b: Budget, ghost rows: seq<Row>, data: map<Slot, seq<Row>>, w: Window, currency: Element -> Id,
                      used: set<Id>,
                      toConvert: map<Element, seq<C.Item>>, ghost takes: map<Element, set<Slot>>)
    returns (more: map<Element, seq<C.Item>>, ghost taken: map<Element, set<Slot>>)
    requires Bucketed(rows, data) && Queued(rows, w, currency, toConvert, takes)
    requires forall c :: Takes(takes, CategoryRow(c)) == {}
    requires Takes(takes, ExpenseUncategorized) == {}
    ensures Queued(rows, w, currency, more, taken)
    ensures OwnTook(b.categories - used, {Slot(None, None)}, takes, taken)
  {
    hide Bucketed, Queued;
    more, taken := toConvert, takes;
    var rest := b.categories;
    while rest != {}
      invariant rest <= b.categories
      invariant Queued(rows, w, currency, more, taken)
      invariant OwnTook(b.categories - rest - used, {}, takes, taken)
    {
      var c :| c in rest;
      rest := rest - {c};
      if c in used {
        assert b.categories - rest - used == b.categories - (rest + {c}) - used;
        continue;
      }
      assert b.categories - (rest + {c}) - used == b.categories - rest - {c} - used;
      OwnNext(b.categories - rest - {c} - used, c, takes, taken);
      assert b.categories - rest - used == b.categories - rest - {c} - used + {c};
      more := TakeBucket(rows, data, w, currency, more, taken, CategoryRow(c), Slot(None, Some(c)));
      taken := Taken(taken, CategoryRow(c), Slot(None, Some(c)));
    }
    UncategorizedTaken(b.categories - used, takes, taken);
    assert b.categories - {} - used == b.categories - used;
    more := TakeBucket(rows, data, w, currency, more, taken, ExpenseUncategorized, Slot(None, None));
    taken := Taken(taken, ExpenseUncategorized, Slot(None, None));
  }

  ghost predicate OwnBucket(categories: set<Id>, el: Element, s: Slot) {
    el.CategoryRow? && el.id in categories && s == Slot(None, Some(el.id))
  }

  ghost predicate OwnTook(categories: set<Id>, none: set<Slot>, before: map<Element, set<Slot>>,
                          after: map<Element, set<Slot>>)
  {
    forall el, s {:trigger s in Takes(after, el)} ::
      s in Takes(after, el) <==> s in Takes(before, el) || (el.ExpenseUncategorized? && s in none)
                                 || OwnBucket(categories, el, s)
  }

  /** Where the monthly page files a row: as the plan would with the first claim as owner, but only known categories. */
  function MonthlyElement(b: Budget, r: Row): Option<Element> {
    if r.category.Some? && r.category.value !in b.categories then None
    else SpendElement(b, (c: Id) => FirstClaim(b.envelopes, false, c), r.category, r.tag)
  }

  ghost function MonthlyFiles(b: Budget, el: Element): Row -> bool {
    (r: Row) => MonthlyElement(b, r) == Some(el)
  }

  /** The three passes leave no bucket out and take none twice. */
  lemma PassesCover(b: Budget, rows: seq<Row>, data: map<Slot, seq<Row>>, used: set<Id>,
                    first: map<Element, set<Slot>>, second: map<Element, set<Slot>>, third: map<Element, set<Slot>>,
                    el: Element)
    requires forall r :: r in rows ==> SlotOf(r) in data
    requires EnvelopesTook(b, b.envelopes, first, used)
    requires TagsTook(b, data, b.tags, first, second)
    requires OwnTook(b.categories - used, {Slot(None, None)}, second, third)
    ensures forall r :: r in rows ==> (InSlots(Takes(third, el))(r) <==> MonthlyFiles(b, el)(r))
  {
    hide FirstClaim;
    forall r | r in rows ensures InSlots(Takes(third, el))(r) <==> MonthlyFiles(b, el)(r) {
      var s := SlotOf(r);
      assert s in Takes(third, el) <==>
        s in Takes(second, el) || (el.ExpenseUncategorized? && s in {Slot(None, None)})
          || OwnBucket(b.categories - used, el, s);
      assert s in Takes(first, el) <==> EnvelopeClaims(b, b.envelopes, el, s);
      assert s in Takes(second, el) <==> s in Takes(first, el)
                                         || (el.TagRow? && el.id in b.tags && TagTakes(b, data, el.id, s));
      if r.category.Some? {
        assert r.category.value in used <==> Claimer(b, b.envelopes, r.category.value).Some?;
      }
    }
  }

  /** The page's conversion: every element's queued money is that of the rows filed under it. */
  method BuildStructure(b: Budget, rows: seq<Row>, w: Window, currency: Element -> Id, p: C.RateProvider)
    returns (toConvert: map<Element, seq<C.Item>>, spent: map<Element, int>, loaded: map<int, C.Range>)
    requires C.Sound(p)
    ensures forall el :: SameItems(SpentAt(toConvert, el), FilterItems(rows, w, currency(el), MonthlyFiles(b, el)))
    ensures C.Needed(C.Range(w.start, w.end), toConvert, loaded)
    ensures spent.Keys == toConvert.Keys
    ensures forall el :: el in spent ==> spent[el] == C.Total(toConvert[el], loaded, C.MonthKey(w.start), p)
  {
    hide Bucketed, C.Needed, C.Total, C.MonthKey, FilterItems, C.Sound, EnvelopesTook, TagsTook, OwnTook;
    var data := BuildElementsSpending(rows);
    ghost var first, second, third;
    var used;
    toConvert, used, first := EnvelopePass(b, rows, data, w, currency);
    EnvelopesOnly(b, first, used);
    toConvert, second := TagPass(b, rows, data, w, currency, toConvert, first);
    TagsOnly(b, data, first, second);
    toConvert, third := CategoryPass(b, rows, data, w, currency, used, toConvert, second);
    forall el ensures SameItems(SpentAt(toConvert, el), FilterItems(rows, w, currency(el), MonthlyFiles(b, el))) {
      PassesCover(b, rows, data, used, first, second, third, el);
      FilterAgree(rows, w, currency(el), InSlots(Takes(third, el)), MonthlyFiles(b, el));
    }
    spent, loaded := C.BulkConvert(C.Range(w.start, w.end), toConvert, p);
  }

  lemma EnvelopesOnly(b: Budget, takes: map<Element, set<Slot>>, used: set<Id>)
    requires EnvelopesTook(b, b.envelopes, takes, used)
    ensures forall el: Element {:trigger Takes(takes, el)} :: !el.EnvelopeRow? ==> Takes(takes, el) == {}
  {
    forall el: Element {:trigger Takes(takes, el)} | !el.EnvelopeRow? ensures Takes(takes, el) == {} {
      forall s ensures s !in Takes(takes, el) {
      }
    }
  }

  lemma TagsOnly(b: Budget, data: map<Slot, seq<Row>>, first: map<Element, set<Slot>>, second: map<Element, set<Slot>>)
    requires TagsTook(b, data, b.tags, first, second)
    requires forall el: Element {:trigger Takes(first, el)} :: !el.EnvelopeRow? ==> Takes(first, el) == {}
    ensures forall el: Element {:trigger Takes(second, el)} :: !el.EnvelopeRow? && !el.TagRow? ==>
              Takes(second, el) == {}
  {
    forall el: Element {:trigger Takes(second, el)} | !el.EnvelopeRow? && !el.TagRow? ensures Takes(second, el) == {} {
      forall s ensures s !in Takes(second, el) {
        assert s in Takes(second, el) <==> s in Takes(first, el);
      }
    }
  }
}
