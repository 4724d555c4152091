/** When the order of a candidate's links decides whether its amount is corrected, and when it cannot. */
module ImportLinkOrder {
  import opened Prelude
  import opened ImportMatcher
  import Decimal

  /** The same candidates, each with its links in some order. */
  ghost predicate Relinked(a: seq<Candidate>, b: seq<Candidate>) {
    |a| == |b| && forall i :: 0 <= i < |a| ==> SameLinks(a[i], b[i])
  }

  ghost predicate SameLinks(c: Candidate, d: Candidate) {
    d == c.(links := d.links) && multiset(d.links) == multiset(c.links)
  }

  /** A tip that no other comes before. */
  ghost predicate Minimal(ev: Event, source: Id, cfg: Config, candidates: seq<Candidate>, i: int, k: int) {
    && 0 <= i < |candidates| && Tip(ev, source, cfg, candidates[i], k)
    && forall j, m :: 0 <= j < |candidates| && Tip(ev, source, cfg, candidates[j], m) ==>
        !TipBefore(ev, candidates[j], m, candidates[i], k)
  }

  /** The link holds the amount the transaction is recorded with. */
  predicate Recorded(c: Candidate, k: int)
    requires 0 <= k < |c.links|
  {
    c.amount == c.links[k].amount
  }

  /** No exact-amount candidate, and a best one with two taps equally far off: one the recorded amount, one not. */
  ghost predicate Ambiguous(ev: Event, source: Id, cfg: Config, candidates: seq<Candidate>) {
    && !AnyAdopt(ev, source, cfg, candidates)
    && exists i, k, m :: Torn(ev, source, cfg, candidates, i, k, m)
  }

  ghost predicate Torn(ev: Event, source: Id, cfg: Config, candidates: seq<Candidate>, i: int, k: int, m: int) {
    && Minimal(ev, source, cfg, candidates, i, k) && Minimal(ev, source, cfg, candidates, i, m)
    && Recorded(candidates[i], k) && !Recorded(candidates[i], m)
  }

  lemma SameLinkIndex(c: Candidate, d: Candidate, k: int) returns (m: int)
    requires SameLinks(c, d) && 0 <= k < |c.links|
    ensures 0 <= m < |d.links| && d.links[m] == c.links[k]
  {
    assert c.links[k] in multiset(d.links);
    m :| 0 <= m < |d.links| && d.links[m] == c.links[k];
  }

  lemma SameSources(c: Candidate, d: Candidate, source: Id)
    requires SameLinks(c, d)
    ensures LinkedFrom(c, source) <==> LinkedFrom(d, source)
  {
    if k :| 0 <= k < |c.links| && c.links[k].source == source {
      var m := SameLinkIndex(c, d, k);
    }
    if k :| 0 <= k < |d.links| && d.links[k].source == source {
      var m := SameLinkIndex(d, c, k);
    }
  }

  lemma SameAdopts(ev: Event, source: Id, cfg: Config, c: Candidate, d: Candidate)
    requires SameLinks(c, d)
    ensures Adoptable(ev, source, cfg, c) <==> Adoptable(ev, source, cfg, d)
    ensures AdoptDays(ev, c) == AdoptDays(ev, d)
    ensures InTipWindow(ev, source, cfg, c) <==> InTipWindow(ev, source, cfg, d)
  {
    SameSources(c, d, source);
  }

  lemma SameTip(ev: Event, source: Id, cfg: Config, c: Candidate, d: Candidate, k: int) returns (m: int)
    requires SameLinks(c, d) && Tip(ev, source, cfg, c, k)
    ensures Tip(ev, source, cfg, d, m) && d.links[m] == c.links[k]
  {
    m := SameLinkIndex(c, d, k);
    SameAdopts(ev, source, cfg, c, d);
    hide InTipWindow, TipLink;
  }

  lemma RelinkedBack(a: seq<Candidate>, b: seq<Candidate>)
    requires Relinked(a, b)
    ensures Relinked(b, a)
  {
  }

  lemma RelinkedOn(a: seq<Candidate>, b: seq<Candidate>, c: seq<Candidate>)
    requires Relinked(a, b) && Relinked(a, c)
    ensures Relinked(b, c)
  {
    forall i | 0 <= i < |b| ensures SameLinks(b[i], c[i]) {
      assert SameLinks(a[i], b[i]) && SameLinks(a[i], c[i]);
    }
  }

  lemma SameAnyAdopt(ev: Event, source: Id, cfg: Config, a: seq<Candidate>, b: seq<Candidate>)
    requires Relinked(a, b)
    ensures AnyAdopt(ev, source, cfg, a) <==> AnyAdopt(ev, source, cfg, b)
    ensures forall i :: 0 <= i < |a| ==> (Adoptable(ev, source, cfg, a[i]) <==> Adoptable(ev, source, cfg, b[i]))
  {
    forall i | 0 <= i < |a| ensures Adoptable(ev, source, cfg, a[i]) <==> Adoptable(ev, source, cfg, b[i]) {
      SameAdopts(ev, source, cfg, a[i], b[i]);
    }
    hide Adoptable;
    if i :| 0 <= i < |a| && Adoptable(ev, source, cfg, a[i]) {
      assert Adoptable(ev, source, cfg, b[i]);
    }
    if i :| 0 <= i < |b| && Adoptable(ev, source, cfg, b[i]) {
      assert Adoptable(ev, source, cfg, a[i]);
    }
  }

  lemma SameAnyTip(ev: Event, source: Id, cfg: Config, a: seq<Candidate>, b: seq<Candidate>)
    requires Relinked(a, b) && AnyTip(ev, source, cfg, a)
    ensures AnyTip(ev, source, cfg, b)
  {
    var i, k :| 0 <= i < |a| && Tip(ev, source, cfg, a[i], k);
    assert SameLinks(a[i], b[i]);
    var m := SameTip(ev, source, cfg, a[i], b[i], k);
  }

  /** A best tip stays one under its link's new position. */
  lemma MinimalMoves(ev: Event, source: Id, cfg: Config, a: seq<Candidate>, b: seq<Candidate>, i: int, k: int, m: int)
    requires Relinked(a, b) && Minimal(ev, source, cfg, a, i, k)
    requires 0 <= m < |b[i].links| && b[i].links[m] == a[i].links[k]
    ensures Minimal(ev, source, cfg, b, i, m)
  {
    assert SameLinks(a[i], b[i]);
    SameAdopts(ev, source, cfg, a[i], b[i]);
    assert Tip(ev, source, cfg, b[i], m);
    forall j, n | 0 <= j < |b| && Tip(ev, source, cfg, b[j], n) ensures !TipBefore(ev, b[j], n, b[i], m) {
      assert SameLinks(a[j], b[j]);
      var n' := SameTip(ev, source, cfg, b[j], a[j], n);
      assert !TipBefore(ev, a[j], n', a[i], k);
      hide Tip, Relinked;
    }
  }

  lemma BestMinimal(ev: Event, source: Id, cfg: Config, candidates: seq<Candidate>, i: int, k: int)
    requires BestTip(ev, source, cfg, candidates, i, k)
    ensures Minimal(ev, source, cfg, candidates, i, k)
  {
    hide Tip, TipBefore;
  }

  /** Two best tips are of one transaction. */
  lemma MinimalTogether(ev: Event, source: Id, cfg: Config, candidates: seq<Candidate>, i: int, k: int, j: int, m: int)
    requires DistinctTx(candidates) && Minimal(ev, source, cfg, candidates, i, k)
             && Minimal(ev, source, cfg, candidates, j, m)
    ensures i == j
  {
    TipTotal(ev, candidates[i], k, candidates[j], m);
    hide Tip, TipBefore;
  }

  lemma RelinkedTx(a: seq<Candidate>, b: seq<Candidate>)
    requires Relinked(a, b) && DistinctTx(a)
    ensures DistinctTx(b) && forall i :: 0 <= i < |a| ==> a[i].tx == b[i].tx && a[i].amount == b[i].amount
  {
    forall i | 0 <= i < |a| ensures a[i].tx == b[i].tx && a[i].amount == b[i].amount {
      assert SameLinks(a[i], b[i]);
    }
  }

  lemma SameBestAdopt(ev: Event, source: Id, cfg: Config, a: seq<Candidate>, b: seq<Candidate>, r: Result, q: Result)
    requires Relinked(a, b) && DistinctTx(a) && AnyAdopt(ev, source, cfg, a)
    requires Matched(ev, source, cfg, a, r) && Matched(ev, source, cfg, b, q)
    ensures r == q
  {
    SameAnyAdopt(ev, source, cfg, a, b);
    RelinkedTx(a, b);
    hide Adoptable;
    var i :| BestAdopt(ev, source, cfg, a, i) && r == Adopt(a[i].tx);
    var j :| BestAdopt(ev, source, cfg, b, j) && q == Adopt(b[j].tx);
    assert SameLinks(a[i], b[i]) && SameLinks(a[j], b[j]);
    SameAdopts(ev, source, cfg, a[i], b[i]);
    SameAdopts(ev, source, cfg, a[j], b[j]);
    AdoptTotal(ev, a[i], a[j]);
    hide AdoptDays;
  }

  /** Where the links leave no doubt, every order of them gives the same result. */
  lemma NoDoubt(ev: Event, source: Id, cfg: Config, a: seq<Candidate>, b: seq<Candidate>, r: Result, q: Result)
    requires DistinctTx(a) && Relinked(a, b) && !Ambiguous(ev, source, cfg, a)
    requires Matched(ev, source, cfg, a, r) && Matched(ev, source, cfg, b, q)
    ensures r == q
  {
    SameAnyAdopt(ev, source, cfg, a, b);
    RelinkedBack(a, b);
    hide Adoptable;
    if AnyAdopt(ev, source, cfg, a) {
      SameBestAdopt(ev, source, cfg, a, b, r, q);
    } else if AnyTip(ev, source, cfg, a) {
      SameAnyTip(ev, source, cfg, a, b);
      NoDoubtTips(ev, source, cfg, a, b, r, q);
    } else {
      if AnyTip(ev, source, cfg, b) { SameAnyTip(ev, source, cfg, b, a); }
    }
  }

  lemma NoDoubtTips(ev: Event, source: Id, cfg: Config, a: seq<Candidate>, b: seq<Candidate>, r: Result, q: Result)
    requires DistinctTx(a) && Relinked(a, b) && Relinked(b, a) && !Ambiguous(ev, source, cfg, a)
    requires !AnyAdopt(ev, source, cfg, a) && !AnyAdopt(ev, source, cfg, b) && AnyTip(ev, source, cfg, a)
             && AnyTip(ev, source, cfg, b)
    requires Matched(ev, source, cfg, a, r) && Matched(ev, source, cfg, b, q)
    ensures r == q
  {
    RelinkedTx(a, b);
    hide AnyAdopt, AnyTip, Tip, TipBefore, Ambiguous, SameLinks, Relinked;
    var i, k :| BestTip(ev, source, cfg, a, i, k) && r == TipAdopt(a[i].tx, a[i].amount == a[i].links[k].amount);
    var j, m :| BestTip(ev, source, cfg, b, j, m) && q == TipAdopt(b[j].tx, b[j].amount == b[j].links[m].amount);
    hide Matched;
    var n := SameBestTips(ev, source, cfg, a, b, i, k, j, m);
    hide BestTip;
    NotTorn(ev, source, cfg, a, i, k, n);
  }

  /** The best tips of two orders are of one candidate, whose links hold them both. */
  lemma SameBestTips(ev: Event, source: Id, cfg: Config, a: seq<Candidate>, b: seq<Candidate>, i: int, k: int, j: int,
                     m: int) returns (n: int)
    requires DistinctTx(a) && Relinked(a, b) && Relinked(b, a)
    requires BestTip(ev, source, cfg, a, i, k) && BestTip(ev, source, cfg, b, j, m)
    ensures i == j && Minimal(ev, source, cfg, a, i, k) && Minimal(ev, source, cfg, a, i, n)
    ensures 0 <= n < |a[i].links| && 0 <= m < |b[j].links| && a[i].links[n] == b[j].links[m]
  {
    BestMinimal(ev, source, cfg, a, i, k);
    BestMinimal(ev, source, cfg, b, j, m);
    assert SameLinks(b[j], a[j]);
    hide BestTip, Tip, TipBefore, SameLinks, Relinked, DistinctTx;
    MinimalLink(ev, source, cfg, b, j, m);
    n := SameLinkIndex(b[j], a[j], m);
    MinimalMoves(ev, source, cfg, b, a, j, m, n);
    MinimalTogether(ev, source, cfg, a, i, k, j, n);
    hide Minimal;
  }

  lemma MinimalLink(ev: Event, source: Id, cfg: Config, candidates: seq<Candidate>, i: int, k: int)
    requires Minimal(ev, source, cfg, candidates, i, k)
    ensures 0 <= i < |candidates| && 0 <= k < |candidates[i].links|
  {
    hide TipBefore, TipLink, InTipWindow;
  }

  lemma NotTorn(ev: Event, source: Id, cfg: Config, a: seq<Candidate>, i: int, k: int, n: int)
    requires !Ambiguous(ev, source, cfg, a) && !AnyAdopt(ev, source, cfg, a)
    requires Minimal(ev, source, cfg, a, i, k) && Minimal(ev, source, cfg, a, i, n)
    ensures 0 <= i < |a| && 0 <= k < |a[i].links| && 0 <= n < |a[i].links| && Recorded(a[i], k) == Recorded(a[i], n)
  {
    MinimalLink(ev, source, cfg, a, i, k);
    MinimalLink(ev, source, cfg, a, i, n);
    hide Minimal, AnyAdopt;
    assert !Torn(ev, source, cfg, a, i, k, n) && !Torn(ev, source, cfg, a, i, n, k);
  }

  /** The candidates with one link of one of them moved to the front. */
  function Fronted(candidates: seq<Candidate>, i: int, k: int): seq<Candidate>
    requires 0 <= i < |candidates| && 0 <= k < |candidates[i].links|
  {
    var l := candidates[i].links;
    candidates[i := candidates[i].(links := [l[k]] + l[..k] + l[k + 1..])]
  }

  lemma FrontedRelinked(candidates: seq<Candidate>, i: int, k: int)
    requires 0 <= i < |candidates| && 0 <= k < |candidates[i].links|
    ensures Relinked(candidates, Fronted(candidates, i, k))
            && Fronted(candidates, i, k)[i].links[0] == candidates[i].links[k]
  {
    var l := candidates[i].links;
    assert l == l[..k] + [l[k]] + l[k + 1..];
  }

  /** A best tip moved to the front decides. */
  lemma FrontDecides(ev: Event, source: Id, cfg: Config, a: seq<Candidate>, i: int, k: int)
    requires DistinctTx(a) && !AnyAdopt(ev, source, cfg, a) && Minimal(ev, source, cfg, a, i, k)
    ensures Relinked(a, Fronted(a, i, k))
    ensures Matched(ev, source, cfg, Fronted(a, i, k), TipAdopt(a[i].tx, Recorded(a[i], k)))
  {
    var b := Fronted(a, i, k);
    FrontedRelinked(a, i, k);
    SameAnyAdopt(ev, source, cfg, a, b);
    RelinkedTx(a, b);
    MinimalMoves(ev, source, cfg, a, b, i, k, 0);
    hide Fronted, Relinked, AnyAdopt;
    FrontBest(ev, source, cfg, b, i);
    hide BestTip, Minimal, Tip;
    assert AnyTip(ev, source, cfg, b) by { MinimalIsTip(ev, source, cfg, b, i, 0); }
    assert BestTip(ev, source, cfg, b, i, 0);
  }

  lemma MinimalIsTip(ev: Event, source: Id, cfg: Config, candidates: seq<Candidate>, i: int, k: int)
    requires Minimal(ev, source, cfg, candidates, i, k)
    ensures AnyTip(ev, source, cfg, candidates)
  {
    hide Tip, TipBefore;
  }

  lemma FrontBest(ev: Event, source: Id, cfg: Config, b: seq<Candidate>, i: int)
    requires DistinctTx(b) && Minimal(ev, source, cfg, b, i, 0)
    ensures BestTip(ev, source, cfg, b, i, 0)
  {
    forall j, m | 0 <= j < |b| && Tip(ev, source, cfg, b[j], m) && Earlier(j, m, i, 0)
      ensures TipBefore(ev, b[i], 0, b[j], m)
    {
      TipTotal(ev, b[i], 0, b[j], m);
    }
    hide Tip, TipBefore;
  }

  /** The links' order cannot matter if and only if no best candidate is torn between two of them. */
  lemma LinkOrderFree(ev: Event, source: Id, cfg: Config, a: seq<Candidate>)
    requires DistinctTx(a)
    ensures OneResult(ev, source, cfg, a) <==> !Ambiguous(ev, source, cfg, a)
  {
    if !Ambiguous(ev, source, cfg, a) {
      forall b, c, r, q | Relinked(a, b) && Relinked(a, c) && Matched(ev, source, cfg, b, r)
             && Matched(ev, source, cfg, c, q)
        ensures r == q
      {
        Unambiguous(ev, source, cfg, a, b);
        RelinkedTx(a, b);
        RelinkedOn(a, b, c);
        NoDoubt(ev, source, cfg, b, c, r, q);
      }
    } else {
      var i, k, m :| Torn(ev, source, cfg, a, i, k, m);
      FrontDecides(ev, source, cfg, a, i, k);
      FrontDecides(ev, source, cfg, a, i, m);
      hide Fronted, Matched, Relinked, Minimal, AnyAdopt;
      assert TipAdopt(a[i].tx, Recorded(a[i], k)) != TipAdopt(a[i].tx, Recorded(a[i], m));
    }
  }

  /** Every order of every candidate's links gives one and the same result. */
  ghost predicate OneResult(ev: Event, source: Id, cfg: Config, a: seq<Candidate>) {
    forall b, c, r, q {:trigger Relinked(a, b), Relinked(a, c), Matched(ev, source, cfg, b, r),
      Matched(ev, source, cfg, c, q)} ::
      Relinked(a, b) && Relinked(a, c) && Matched(ev, source, cfg, b, r) && Matched(ev, source, cfg, c, q) ==> r == q
  }

  lemma Unambiguous(ev: Event, source: Id, cfg: Config, a: seq<Candidate>, b: seq<Candidate>)
    requires Relinked(a, b) && !Ambiguous(ev, source, cfg, a)
    ensures !Ambiguous(ev, source, cfg, b)
  {
    RelinkedBack(a, b);
    if Ambiguous(ev, source, cfg, b) {
      AmbiguousMoves(ev, source, cfg, b, a);
    }
  }

  lemma AmbiguousMoves(ev: Event, source: Id, cfg: Config, a: seq<Candidate>, b: seq<Candidate>)
    requires Relinked(a, b) && Ambiguous(ev, source, cfg, a)
    ensures Ambiguous(ev, source, cfg, b)
  {
    SameAnyAdopt(ev, source, cfg, a, b);
    hide AnyAdopt;
    var i, k, m :| Torn(ev, source, cfg, a, i, k, m);
    assert SameLinks(a[i], b[i]);
    var k' := SameLinkIndex(a[i], b[i], k);
    var m' := SameLinkIndex(a[i], b[i], m);
    MinimalMoves(ev, source, cfg, a, b, i, k, k');
    MinimalMoves(ev, source, cfg, a, b, i, m, m');
    hide Minimal;
    assert Torn(ev, source, cfg, b, i, k', m');
  }

  /** An event of 110 and a transaction of 100 with taps of 100 and 120, ten apart either way. */
  function TornEvent(): Event { Event(110, 0, 0, "shop", "") }
  function TornConfig(): Config { Config(3, 5, 20, 3) }
  function TornCandidate(): Candidate { Candidate(7, 0, 100, 0,
                                                  [Link(1, true, 100, "shop"), Link(2, true, 120, "shop")]) }

  /** There the first link listed decides: the amount is corrected, or it is not. */
  lemma LinkOrderMatters()
    ensures Ambiguous(TornEvent(), 3, TornConfig(), [TornCandidate()])
    ensures Matched(TornEvent(), 3, TornConfig(), Fronted([TornCandidate()], 0, 0), TipAdopt(7, true))
    ensures Matched(TornEvent(), 3, TornConfig(), Fronted([TornCandidate()], 0, 1), TipAdopt(7, false))
  {
    var ev, cfg, c := TornEvent(), TornConfig(), TornCandidate();
    ShopMatches();
    TornTolerances();
    hide NamesMatch, Tolerance;
    assert Tip(ev, 3, cfg, [c][0], 0) && Tip(ev, 3, cfg, [c][0], 1);
    assert forall j :: 0 <= j < |[c]| ==> !Adoptable(ev, 3, cfg, [c][j]);
    assert Minimal(ev, 3, cfg, [c], 0, 0) && Minimal(ev, 3, cfg, [c], 0, 1);
    assert Torn(ev, 3, cfg, [c], 0, 0, 1);
    FrontDecides(ev, 3, cfg, [c], 0, 0);
    FrontDecides(ev, 3, cfg, [c], 0, 1);
  }

  lemma TornTolerances()
    ensures Tolerance(TornConfig(), 100) == 20 && Tolerance(TornConfig(), 120) == 24
  {
  }

  lemma ShopMatches()
    ensures NamesMatch(TornEvent(), TornConfig(), "shop")
  {
    var words := "shop" + " " + "";
    assert words == "shop ";
    assert IsWord("shop", 0, 4) && "shop"[0..4] == "shop";
    assert IsToken("shop", 3, LowerAll("shop"));
    assert IsWord(words, 0, 4) && words[0..4] == "shop";
    forall w | IsToken("shop", 3, w) ensures IsToken(words, 1, w) {
      var i, j :| IsWord("shop", i, j) && j - i >= 3 && w == LowerAll("shop"[i..j]);
      assert i == 0 && j == 4;
    }
  }
}
