/** What the entities taking part in a budget ask of its element rows, and how far a reconciliation has met it. */
module ElementClaims {
  import opened Prelude
  import opened BudgetStore

  datatype EnvelopeRow = EnvelopeRow(id: Id, archived: bool, categories: seq<Id>)
  datatype CategoryRow = CategoryRow(id: Id, income: bool, archived: bool)
  datatype TagRow = TagRow(id: Id, archived: bool)
  datatype SavingsRow = SavingsRow(account: Id, currency: Id)

  /** The entities of the owner and the accepted non-guest participants, as the stores list them. */
  datatype Participants = Participants(
    envelopes: seq<EnvelopeRow>, categories: seq<CategoryRow>, tags: seq<TagRow>, savings: seq<SavingsRow>)

  /** What one entity asks of its row: a kind, a place in the listing or none, no folder, a currency when created. */
  datatype Claim = Claim(external: Id, kind: Kind, live: bool, loose: bool, currency: Option<Id>)

  ghost predicate IsChild(envelopes: seq<EnvelopeRow>, category: Id) {
    exists i :: 0 <= i < |envelopes| && category in envelopes[i].categories
  }

  /** An envelope's side is stored on its row alone. */
  ghost predicate WasIncome(before: map<Id, Element>, external: Id) {
    exists r :: r in before && before[r].external == external && before[r].kind == IncomeEnvelope
  }

  ghost function EnvelopeClaim(before: map<Id, Element>, e: EnvelopeRow): Claim {
    Claim(e.id, if WasIncome(before, e.id) then IncomeEnvelope else Envelope, !e.archived, false, None)
  }

  ghost function CategoryClaim(envelopes: seq<EnvelopeRow>, c: CategoryRow): Claim {
    var child := IsChild(envelopes, c.id);
    Claim(c.id, if c.income then IncomeCategory else Category, !child && !c.archived, child, None)
  }

  ghost function TagClaim(t: TagRow): Claim {
    Claim(t.id, Tag, !t.archived, false, None)
  }

  ghost function SavingsClaim(s: SavingsRow): Claim {
    Claim(s.account, Savings, true, true, Some(s.currency))
  }

  ghost function EnvelopeClaims(p: Participants, before: map<Id, Element>): (r: seq<Claim>)
    ensures |r| == |p.envelopes|
  {
    seq(|p.envelopes|, i requires 0 <= i < |p.envelopes| => EnvelopeClaim(before, p.envelopes[i]))
  }

  ghost function CategoryClaims(p: Participants): (r: seq<Claim>)
    ensures |r| == |p.categories|
  {
    seq(|p.categories|, i requires 0 <= i < |p.categories| => CategoryClaim(p.envelopes, p.categories[i]))
  }

  ghost function TagClaims(p: Participants): (r: seq<Claim>)
    ensures |r| == |p.tags|
  {
    seq(|p.tags|, i requires 0 <= i < |p.tags| => TagClaim(p.tags[i]))
  }

  ghost function SavingsClaims(p: Participants): (r: seq<Claim>)
    ensures |r| == |p.savings|
  {
    seq(|p.savings|, i requires 0 <= i < |p.savings| => SavingsClaim(p.savings[i]))
  }

  ghost function Claims(p: Participants, before: map<Id, Element>): seq<Claim> {
    EnvelopeClaims(p, before) + CategoryClaims(p) + TagClaims(p) + SavingsClaims(p)
  }

  ghost predicate Claimed(claims: seq<Claim>, external: Id) {
    exists i :: 0 <= i < |claims| && claims[i].external == external
  }

  /** Entity ids are never shared, within a kind or across kinds. */
  ghost predicate Distinct(claims: seq<Claim>) {
    forall i, j :: 0 <= i < j < |claims| ==> claims[i].external != claims[j].external
  }

  /** An existing row as its claim leaves it, before missing keys are handed out. */
  function Settled(c: Claim, e: Element): Element {
    e.(kind := c.kind, key := if c.live then e.key else "", folder := if c.loose then None else e.folder)
  }

  /** A row made for a claim that has none. */
  function Fresh(budget: Id, c: Claim): Element {
    Element(budget, c.external, c.kind, c.currency, None, "")
  }

  function Outcome(budget: Id, before: map<Id, Element>, c: Claim, r: Id): Element {
    if r in before then Settled(c, before[r]) else Fresh(budget, c)
  }

  /** The name under which a row is indexed. */
  datatype Name = Name(external: Id, kind: Kind)

  function NameOf(e: Element): Name {
    Name(e.external, e.kind)
  }

  /** The working set: in-memory rows by row id, and the indexes, marks and lists over them. */
  datatype Work = Work(
    row: map<Id, Element>, byKey: map<Name, Id>, byExternal: map<Id, Id>,
    seen: set<Name>, created: map<Name, Id>, dirty: set<Id>, live: set<Name>)

  /** Both indexes find exactly the rows there are. */
  ghost predicate Indexed(row: map<Id, Element>, byKey: map<Name, Id>, byExternal: map<Id, Id>) {
    && (forall r :: r in row ==> row[r].external in byExternal && byExternal[row[r].external] == r)
    && (forall x :: x in byExternal ==> byExternal[x] in row && row[byExternal[x]].external == x)
    && (forall r :: r in row ==> NameOf(row[r]) in byKey && byKey[NameOf(row[r])] == r)
    && (forall n :: n in byKey ==> byKey[n] in row && NameOf(row[byKey[n]]) == n)
  }

  ghost function Names(claims: seq<Claim>): set<Name> {
    set c | c in claims :: Name(c.external, c.kind)
  }

  ghost function LiveNames(claims: seq<Claim>): set<Name> {
    set c | c in claims && c.live :: Name(c.external, c.kind)
  }

  lemma NamesGrow(done: seq<Claim>, c: Claim)
    ensures Names(done + [c]) == Names(done) + {Name(c.external, c.kind)}
    ensures LiveNames(done + [c]) == LiveNames(done) + (if c.live then {Name(c.external, c.kind)} else {})
  {
    assert forall d :: d in done + [c] <==> d in done || d == c;
  }

  /** The rows of one budget, inside all stored rows. */
  ghost function RowsOf(stored: map<Id, Element>, budget: Id): map<Id, Element> {
    map r | r in stored && stored[r].budget == budget :: stored[r]
  }

  /** Loaded rows stay, and keep their entity; new rows have ids no stored row has. */
  ghost predicate Extends(before: map<Id, Element>, stored: map<Id, Element>, row: map<Id, Element>) {
    && (forall r :: r in before ==> r in row && row[r].external == before[r].external)
    && (forall r :: r in row && r !in before ==> r !in stored)
  }

  ghost predicate SettledSoFar(budget: Id, before: map<Id, Element>, done: seq<Claim>, w: Work)
    requires Indexed(w.row, w.byKey, w.byExternal)
  {
    forall i :: 0 <= i < |done| ==>
      && done[i].external in w.byExternal
      && var r := w.byExternal[done[i].external]; w.row[r] == Outcome(budget, before, done[i], r)
  }

  ghost predicate OthersUntouched(before: map<Id, Element>, done: seq<Claim>, row: map<Id, Element>) {
    forall r :: r in row && !Claimed(done, row[r].external) ==> r in before && row[r] == before[r]
  }

  /** The new rows are listed as created, and the loaded rows that changed as dirty. */
  ghost predicate Listed(before: map<Id, Element>, w: Work) {
    && (forall n :: n in w.created ==> w.created[n] in w.row && w.created[n] !in before
                                       && NameOf(w.row[w.created[n]]) == n)
    && (forall r :: r in w.row && r !in before ==> NameOf(w.row[r]) in w.created)
    && (forall r :: r in w.dirty <==> r in before && r in w.row && w.row[r] != before[r])
  }

  /** How far the passes have come: the claims in `done` are settled, every other row is as it was loaded. */
  ghost predicate Progress(budget: Id, stored: map<Id, Element>, done: seq<Claim>, w: Work) {
    var before := RowsOf(stored, budget);
    && Indexed(w.row, w.byKey, w.byExternal)
    && Extends(before, stored, w.row)
    && SettledSoFar(budget, before, done, w)
    && OthersUntouched(before, done, w.row)
    && w.seen == Names(done) && w.live == LiveNames(done)
    && Listed(before, w)
  }

  /** One entity handled: its row, found or made, is as its claim wants it. */
  ghost predicate Handled(budget: Id, stored: map<Id, Element>, c: Claim, r: Id, w: Work, next: Work) {
    && Indexed(next.row, next.byKey, next.byExternal)
    && (if c.external in w.byExternal then r == w.byExternal[c.external] && r in w.row else r !in w.row && r !in stored)
    && next.row == w.row[r := if r in w.row then Settled(c, w.row[r]) else Fresh(budget, c)]
    && next.seen == w.seen + {Name(c.external, c.kind)}
    && next.live == w.live + (if c.live then {Name(c.external, c.kind)} else {})
    && next.created == (if r in w.row then w.created else w.created[Name(c.external, c.kind) := r])
    && next.dirty == w.dirty + (if r in w.row && next.row[r] != w.row[r] then {r} else {})
  }

  lemma Advance(budget: Id, stored: map<Id, Element>, done: seq<Claim>, c: Claim, r: Id, w: Work, next: Work)
    requires Progress(budget, stored, done, w)
    requires !Claimed(done, c.external)
    requires Handled(budget, stored, c, r, w, next)
    ensures Progress(budget, stored, done + [c], next)
  {
    NamesGrow(done, c);
    ClaimedGrows(done, c);
    HandledRow(budget, stored, done, c, r, w, next);
    hide Names, LiveNames, RowsOf, Claimed, SettledSoFar, OthersUntouched, Listed, Extends, Outcome, Settled, Fresh;
    var before := RowsOf(stored, budget);
    AdvanceSettled(budget, before, done, c, r, w, next);
    AdvanceListed(before, c, r, w, next);
    AdvanceOthers(before, stored, done, c, r, w, next);
  }

  lemma HandledRow(budget: Id, stored: map<Id, Element>, done: seq<Claim>, c: Claim, r: Id, w: Work, next: Work)
    requires Progress(budget, stored, done, w) && !Claimed(done, c.external)
    requires Handled(budget, stored, c, r, w, next)
    ensures var before := RowsOf(stored, budget);
      && (r in w.row <==> r in before)
      && (r in w.row ==> w.row[r] == before[r] && w.row[r].external == c.external)
      && (r in w.row || r !in stored)
      && next.row == w.row[r := Outcome(budget, before, c, r)]
      && NameOf(next.row[r]) == Name(c.external, c.kind)
  {
    hide Names, LiveNames, RowsOf, Claimed, SettledSoFar, Listed;
    assert forall q :: q in RowsOf(stored, budget) ==> q in stored by { RowsStored(stored, budget); }
  }

  lemma AdvanceOthers(before: map<Id, Element>, stored: map<Id, Element>, done: seq<Claim>, c: Claim, r: Id, w: Work,
                      next: Work)
    requires Extends(before, stored, w.row) && OthersUntouched(before, done, w.row)
    requires r in before || r !in stored
    requires r in w.row ==> w.row[r].external == c.external
    requires r in next.row && next.row == w.row[r := next.row[r]] && next.row[r].external == c.external
    ensures Extends(before, stored, next.row) && OthersUntouched(before, done + [c], next.row)
  {
    ClaimedGrows(done, c);
    hide Claimed;
  }

  lemma RowsStored(stored: map<Id, Element>, budget: Id)
    ensures forall q :: q in RowsOf(stored, budget) ==> q in stored
  {
  }

  lemma ClaimedGrows(done: seq<Claim>, c: Claim)
    ensures forall x :: Claimed(done + [c], x) <==> Claimed(done, x) || x == c.external
  {
    forall x
      ensures Claimed(done + [c], x) <==> Claimed(done, x) || x == c.external
    {
      assert (done + [c])[|done|] == c;
      if Claimed(done, x) {
        var i :| 0 <= i < |done| && done[i].external == x;
        assert (done + [c])[i] == done[i];
      }
    }
  }

  lemma AdvanceSettled(budget: Id, before: map<Id, Element>, done: seq<Claim>, c: Claim, r: Id, w: Work, next: Work)
    requires Indexed(w.row, w.byKey, w.byExternal) && Indexed(next.row, next.byKey, next.byExternal)
             && SettledSoFar(budget, before, done, w)
    requires !Claimed(done, c.external)
    requires r in w.row ==> w.row[r].external == c.external
    requires next.row == w.row[r := Outcome(budget, before, c, r)]
    requires next.row[r].external == c.external
    ensures SettledSoFar(budget, before, done + [c], next)
  {
    hide Outcome;
    forall i | 0 <= i < |done + [c]|
      ensures (done + [c])[i].external in next.byExternal
      ensures var q := next.byExternal[(done + [c])[i].external];
        next.row[q] == Outcome(budget, before, (done + [c])[i], q)
    {
      if i < |done| {
        var q := w.byExternal[done[i].external];
        assert Claimed(done, done[i].external);
        assert next.row[q] == w.row[q];
      } else {
        assert next.byExternal[next.row[r].external] == r;
      }
    }
  }

  lemma AdvanceListed(before: map<Id, Element>, c: Claim, r: Id, w: Work, next: Work)
    requires Listed(before, w)
    requires r in w.row <==> r in before
    requires r in w.row ==> w.row[r] == before[r]
    requires r in next.row && next.row == w.row[r := next.row[r]] && NameOf(next.row[r]) == Name(c.external, c.kind)
    requires next.created == (if r in w.row then w.created else w.created[Name(c.external, c.kind) := r])
    requires next.dirty == w.dirty + (if r in w.row && next.row[r] != w.row[r] then {r} else {})
    ensures Listed(before, next)
  {
  }

  lemma NextUnclaimed(done: seq<Claim>, pass: seq<Claim>, i: int)
    requires Distinct(done + pass) && 0 <= i < |pass|
    ensures !Claimed(done + pass[..i], pass[i].external)
    ensures done + pass[..i + 1] == done + pass[..i] + [pass[i]]
  {
    var all := done + pass;
    assert done + pass[..i] == all[..|done| + i] && pass[i] == all[|done| + i];
    assert forall j :: 0 <= j < |done| + i ==> all[..|done| + i][j] == all[j];
  }

  /** Until its own claim is handled, an envelope's row still tells the side it was stored with. */
  lemma SideAsStored(budget: Id, stored: map<Id, Element>, done: seq<Claim>, w: Work, external: Id)
    requires Progress(budget, stored, done, w) && !Claimed(done, external)
    ensures Indexed(w.row, w.byKey, w.byExternal) && (external in w.byExternal ==> w.byExternal[external] in w.row)
    ensures WasIncome(RowsOf(stored, budget), external) <==>
      external in w.byExternal && w.row[w.byExternal[external]].kind == IncomeEnvelope
  {
    hide Names, LiveNames, RowsOf, Claimed, SettledSoFar, Listed;
  }

  lemma NotYetCreated(budget: Id, stored: map<Id, Element>, done: seq<Claim>, w: Work, c: Claim)
    requires Progress(budget, stored, done, w) && !Claimed(done, c.external)
    ensures Name(c.external, c.kind) !in w.created
  {
    hide Names, LiveNames, RowsOf, Claimed, SettledSoFar;
  }

  lemma EnvelopeClaimAt(p: Participants, before: map<Id, Element>, i: int)
    requires 0 <= i < |p.envelopes|
    ensures var env := p.envelopes[i];
      EnvelopeClaims(p, before)[i] ==
        Claim(env.id, if WasIncome(before, env.id) then IncomeEnvelope else Envelope, !env.archived, false, None)
  {
  }

  lemma NoChildrenYet(envelopes: seq<EnvelopeRow>)
    ensures forall x :: !IsChild(envelopes[..0], x)
  {
  }

  lemma ChildrenGrow(envelopes: seq<EnvelopeRow>, i: int)
    requires 0 <= i < |envelopes|
    ensures forall x :: IsChild(envelopes[..i + 1], x) <==> IsChild(envelopes[..i], x) || x in envelopes[i].categories
  {
    assert forall j :: 0 <= j < i ==> envelopes[..i + 1][j] == envelopes[..i][j];
    assert envelopes[..i + 1][i] == envelopes[i];
  }
}
