/** The stored rows of budgets: members, elements, and the limits and comments that hang off an element. */
module BudgetStore {
  import opened Prelude
  import SortKey

  datatype Kind = Envelope | Category | Tag | IncomeCategory | IncomeEnvelope | Savings

  /** A positioned member of a budget. An empty key keeps the row out of the listing. */
  datatype Element = Element(
    budget: Id, external: Id, kind: Kind, currency: Option<Id>, folder: Option<Id>, key: SortKey.Key)

  /** A planned amount belongs to one element in one month, and there is one per pair. */
  datatype Slot = Slot(element: Id, month: int)

  datatype Comment = Comment(element: Id, month: int, text: string)

  /** Members are kept per budget: the account, and whether it plays the savings role there. */
  datatype Rows = Rows(
    members: map<Id, map<Id, bool>>, elements: map<Id, Element>, limits: map<Slot, int>, comments: map<Id, Comment>)

  /** The unique index on (budget, external id). */
  ghost predicate Unique(elements: map<Id, Element>) {
    forall r, q :: r in elements && q in elements && r != q ==>
      elements[r].budget != elements[q].budget || elements[r].external != elements[q].external
  }

  /** Every limit and comment belongs to a stored element. */
  ghost predicate Anchored(rows: Rows) {
    && (forall l :: l in rows.limits ==> l.element in rows.elements)
    && (forall c :: c in rows.comments ==> rows.comments[c].element in rows.elements)
  }

  ghost predicate Consistent(rows: Rows) {
    Unique(rows.elements) && Anchored(rows)
  }

  /** What a set of deleted elements leaves: their limits and comments go with them. */
  ghost function Without(rows: Rows, gone: set<Id>): Rows {
    rows.(elements := rows.elements - gone,
          limits := map l | l in rows.limits && l.element !in gone :: rows.limits[l],
          comments := map c | c in rows.comments && rows.comments[c].element !in gone :: rows.comments[c])
  }

  function MembersOf(rows: Rows, budget: Id): map<Id, bool> {
    if budget in rows.members then rows.members[budget] else map[]
  }

  predicate HasData(rows: Rows, element: Id) {
    || (exists l :: l in rows.limits && l.element == element)
    || (exists c :: c in rows.comments && rows.comments[c].element == element)
  }

  class Store {
    var members: map<Id, map<Id, bool>>
    var elements: map<Id, Element>
    var limits: map<Slot, int>
    var comments: map<Id, Comment>

    ghost function State(): Rows
      reads this
    {
      Rows(members, elements, limits, comments)
    }

    constructor ()
      ensures Consistent(State())
    {
      members, elements, limits, comments := map[], map[], map[], map[];
    }

    method SaveElement(id: Id, e: Element)
      requires Consistent(State())
      requires forall r :: r in elements && r != id ==>
                 elements[r].budget != e.budget || elements[r].external != e.external
      modifies `elements
      ensures State() == old(State()).(elements := old(elements)[id := e])
      ensures Consistent(State())
    {
      elements := elements[id := e];
    }

    /** Deleting an element cascades to its limits and comments. */
    method DeleteElement(id: Id)
      requires Consistent(State())
      modifies `elements, `limits, `comments
      ensures State() == Without(old(State()), {id})
      ensures Consistent(State())
    {
      elements := elements - {id};
      limits := map l | l in limits && l.element !in {id} :: limits[l];
      comments := map c | c in comments && comments[c].element !in {id} :: comments[c];
    }

    method SaveLimit(slot: Slot, amount: int)
      requires Consistent(State()) && slot.element in elements
      modifies `limits
      ensures State() == old(State()).(limits := old(limits)[slot := amount])
      ensures Consistent(State())
    {
      limits := limits[slot := amount];
    }

    method RepointElement(id: Id, external: Id)
      requires Consistent(State()) && id in elements
      requires forall r :: r in elements && r != id ==>
                 elements[r].budget != elements[id].budget || elements[r].external != external
      modifies `elements
      ensures State() == old(State()).(elements := old(elements)[id := old(elements)[id].(external := external)])
      ensures Consistent(State())
    {
      elements := elements[id := elements[id].(external := external)];
    }

    method RepointComments(src: Id, dst: Id)
      requires Consistent(State()) && dst in elements
      modifies `comments
      ensures State() == old(State()).(comments := Repointed(old(comments), src, dst))
      ensures Consistent(State())
    {
      comments := Repointed(comments, src, dst);
    }

    /** Joining a budget twice changes nothing. */
    method AddAccount(budget: Id, account: Id, savings: bool)
      requires budget in members
      modifies `members
      ensures members == old(members)[budget := Added(old(members)[budget], Flag(account, savings))]
    {
      if account !in members[budget] {
        var joined: map<Id, bool> := members[budget][account := savings];
        members := members[budget := joined];
      }
    }

    method RemoveAccount(budget: Id, account: Id)
      requires budget in members
      modifies `members
      ensures members == old(members)[budget := old(members)[budget] - {account}]
    {
      members := members[budget := members[budget] - {account}];
    }

    method SetAccountSavings(budget: Id, account: Id, savings: bool)
      requires budget in members
      modifies `members
      ensures members == old(members)[budget := Flagged(old(members)[budget], Flag(account, savings))]
    {
      if account in members[budget] {
        var joined: map<Id, bool> := members[budget][account := savings];
        members := members[budget := joined];
      }
    }
  }

  function Repointed(comments: map<Id, Comment>, src: Id, dst: Id): map<Id, Comment> {
    map c | c in comments :: if comments[c].element == src then comments[c].(element := dst) else comments[c]
  }

  datatype Flag = Flag(id: Id, on: bool)

  function Added(members: map<Id, bool>, f: Flag): map<Id, bool> {
    if f.id in members then members else members[f.id := f.on]
  }

  function Flagged(members: map<Id, bool>, f: Flag): map<Id, bool> {
    if f.id in members then members[f.id := f.on] else members
  }
}
