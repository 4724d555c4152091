/** What an incoming bank event becomes: an existing transaction it adopts, or a new one. */
module ImportMatcher {
  import opened Prelude
  import Calendar
  import Decimal

  datatype Config = Config(matchDays: int, tipDays: int, tipTolerancePct: int, tokenMinLength: int)

  datatype Event = Event(amount: int, posted: Calendar.Time, kind: nat, payee: string, description: string)

  datatype Link = Link(source: Id, push: bool, amount: int, payee: string)

  datatype Candidate = Candidate(tx: Id, kind: nat, amount: int, spent: Calendar.Time, links: seq<Link>)

  datatype Result = Create | Adopt(tx: Id) | TipAdopt(tx: Id, correctAmount: bool)

  /** Lower-casing of the ASCII letters; other characters separate tokens either way. */
  function Lower(c: char): char {
    if 'A' <= c <= 'Z' then (c as int + 32) as char else c
  }

  predicate IsWordChar(c: char) {
    'a' <= Lower(c) <= 'z' || '0' <= c <= '9'
  }

  function LowerAll(s: string): (r: string)
    ensures |r| == |s|
  {
    seq(|s|, i requires 0 <= i < |s| => Lower(s[i]))
  }

  /** s[i..j] is a whole word: nothing but word characters, and none on either side. */
  predicate IsWord(s: string, i: int, j: int) {
    && 0 <= i < j <= |s|
    && (forall k :: i <= k < j ==> IsWordChar(s[k]))
    && (i > 0 ==> !IsWordChar(s[i - 1]))
    && (j < |s| ==> !IsWordChar(s[j]))
  }

  ghost predicate IsToken(s: string, minLen: int, w: string) {
    exists i, j :: IsWord(s, i, j) && j - i >= minLen && w == LowerAll(s[i..j])
  }

  /** The words of at least minLen characters, lower-cased. */
  method Tokens(s: string, minLen: int) returns (out: set<string>)
    ensures forall w :: w in out <==> IsToken(s, minLen, w)
  {
    out := {};
    var i := 0;
    while i < |s|
      invariant 0 <= i <= |s|
      invariant i > 0 && i < |s| && IsWordChar(s[i]) ==> !IsWordChar(s[i - 1])
      invariant forall w :: w in out <==> TokenBefore(s, minLen, w, i)
    {
      if !IsWordChar(s[i]) {
        SkipOne(s, minLen, i);
        i := i + 1;
        continue;
      }
      var j := i + 1;
      while j < |s| && IsWordChar(s[j])
        invariant i < j <= |s|
        invariant forall k :: i <= k < j ==> IsWordChar(s[k])
      {
        j := j + 1;
      }
      TakeWord(s, minLen, i, j);
      if j - i >= minLen {
        out := out + {LowerAll(s[i..j])};
      }
      i := j;
    }
  }

  ghost predicate TokenBefore(s: string, minLen: int, w: string, n: int) {
    exists i, j :: IsWord(s, i, j) && i < n && j - i >= minLen && w == LowerAll(s[i..j])
  }

  lemma SkipOne(s: string, minLen: int, n: int)
    requires 0 <= n < |s| && !IsWordChar(s[n])
    ensures forall w :: TokenBefore(s, minLen, w, n + 1) <==> TokenBefore(s, minLen, w, n)
  {
  }

  lemma TakeWord(s: string, minLen: int, n: int, m: int)
    requires IsWord(s, n, m)
    ensures forall w :: TokenBefore(s, minLen, w, m) <==>
      TokenBefore(s, minLen, w, n) || (m - n >= minLen && w == LowerAll(s[n..m]))
  {
    forall i, j | IsWord(s, i, j) && n <= i < m
      ensures i == n && j == m
    {
    }
  }

  function DaysBetween(a: Calendar.Time, b: Calendar.Time): int {
    Calendar.DayOf(b) - Calendar.DayOf(a)
  }

  predicate LinkedFrom(c: Candidate, source: Id) {
    exists k :: 0 <= k < |c.links| && c.links[k].source == source
  }

  predicate Eligible(ev: Event, source: Id, c: Candidate) {
    c.kind == ev.kind && !LinkedFrom(c, source)
  }

  function AdoptDays(ev: Event, c: Candidate): nat {
    Decimal.Abs(DaysBetween(c.spent, ev.posted))
  }

  predicate Adoptable(ev: Event, source: Id, cfg: Config, c: Candidate) {
    Eligible(ev, source, c) && c.amount == ev.amount && AdoptDays(ev, c) <= cfg.matchDays
  }

  /** Nearer in days, then smaller id. */
  predicate AdoptBefore(ev: Event, a: Candidate, b: Candidate) {
    AdoptDays(ev, a) < AdoptDays(ev, b) || (AdoptDays(ev, a) == AdoptDays(ev, b) && a.tx < b.tx)
  }

  /** The event's words hold every token of the tap's payee, of which there is at least one. */
  ghost predicate NamesMatch(ev: Event, cfg: Config, payee: string) {
    && (exists w :: IsToken(payee, cfg.tokenMinLength, w))
    && (forall w :: IsToken(payee, cfg.tokenMinLength, w) ==> IsToken(ev.payee + " " + ev.description, 1, w))
  }

  /** The most a posted amount may differ from the tap. */
  function Tolerance(cfg: Config, tap: int): int {
    Decimal.Div(Decimal.Mul(tap, cfg.tipTolerancePct * Decimal.SCALE), 100 * Decimal.SCALE)
  }

  function Delta(ev: Event, l: Link): nat {
    Decimal.Abs(ev.amount - l.amount)
  }

  ghost predicate TipLink(ev: Event, cfg: Config, l: Link) {
    l.push && Delta(ev, l) <= Tolerance(cfg, l.amount) && NamesMatch(ev, cfg, l.payee)
  }

  predicate InTipWindow(ev: Event, source: Id, cfg: Config, c: Candidate) {
    Eligible(ev, source, c) && 0 <= DaysBetween(c.spent, ev.posted) <= cfg.tipDays
  }

  ghost predicate Tip(ev: Event, source: Id, cfg: Config, c: Candidate, k: int) {
    0 <= k < |c.links| && InTipWindow(ev, source, cfg, c) && TipLink(ev, cfg, c.links[k])
  }

  /** Nearer in amount, then in days, then smaller id. */
  predicate TipBefore(ev: Event, a: Candidate, k: int, b: Candidate, m: int)
    requires 0 <= k < |a.links| && 0 <= m < |b.links|
  {
    var da, db := Delta(ev, a.links[k]), Delta(ev, b.links[m]);
    var na, nb := DaysBetween(a.spent, ev.posted), DaysBetween(b.spent, ev.posted);
    da < db || (da == db && (na < nb || (na == nb && a.tx < b.tx)))
  }

  /** A candidate's link by position: tips are listed candidate by candidate, link by link. */
  predicate Earlier(i: int, k: int, j: int, m: int) {
    i < j || (i == j && k < m)
  }

  ghost predicate BestAdopt(ev: Event, source: Id, cfg: Config, candidates: seq<Candidate>, i: int) {
    && 0 <= i < |candidates| && Adoptable(ev, source, cfg, candidates[i])
    && forall j :: 0 <= j < |candidates| && Adoptable(ev, source, cfg, candidates[j]) ==>
        !AdoptBefore(ev, candidates[j], candidates[i])
  }

  /** No tip comes before this one, and of those as good it is the first listed. */
  ghost predicate BestTip(ev: Event, source: Id, cfg: Config, candidates: seq<Candidate>, i: int, k: int) {
    && 0 <= i < |candidates| && Tip(ev, source, cfg, candidates[i], k)
    && forall j, m :: 0 <= j < |candidates| && Tip(ev, source, cfg, candidates[j], m) ==>
         && !TipBefore(ev, candidates[j], m, candidates[i], k)
         && (Earlier(j, m, i, k) ==> TipBefore(ev, candidates[i], k, candidates[j], m))
  }

  ghost predicate AnyAdopt(ev: Event, source: Id, cfg: Config, candidates: seq<Candidate>) {
    exists i :: 0 <= i < |candidates| && Adoptable(ev, source, cfg, candidates[i])
  }

  ghost predicate AnyTip(ev: Event, source: Id, cfg: Config, candidates: seq<Candidate>) {
    exists i, k :: 0 <= i < |candidates| && Tip(ev, source, cfg, candidates[i], k)
  }

  /** The best exact-amount candidate if there is one, else the best tip, else a new transaction. */
  ghost predicate Matched(ev: Event, source: Id, cfg: Config, candidates: seq<Candidate>, r: Result) {
    if AnyAdopt(ev, source, cfg, candidates) then
      exists i :: BestAdopt(ev, source, cfg, candidates, i) && r == Adopt(candidates[i].tx)
    else if AnyTip(ev, source, cfg, candidates) then
      exists i, k :: BestTip(ev, source, cfg, candidates, i, k)
        && r == TipAdopt(candidates[i].tx, candidates[i].amount == candidates[i].links[k].amount)
    else r == Create
  }

  /** No two candidates are the same transaction. */
  ghost predicate DistinctTx(candidates: seq<Candidate>) {
    forall i, j :: 0 <= i < j < |candidates| ==> candidates[i].tx != candidates[j].tx
  }

  /** With distinct transactions the whole result is the same in whatever order the candidates come. */
  lemma OrderFree(ev: Event, source: Id, cfg: Config, a: seq<Candidate>, b: seq<Candidate>, r: Result, q: Result)
    requires multiset(a) == multiset(b) && DistinctTx(a)
    requires Matched(ev, source, cfg, a, r) && Matched(ev, source, cfg, b, q)
    ensures r == q
  {
    hide Adoptable, AdoptBefore, Tip, TipBefore;
    SameMembers(a, b);
    if AnyAdopt(ev, source, cfg, a) {
      var i :| BestAdopt(ev, source, cfg, a, i) && r == Adopt(a[i].tx);
      var i' :| 0 <= i' < |b| && b[i'] == a[i];
      var j :| BestAdopt(ev, source, cfg, b, j) && q == Adopt(b[j].tx);
      var j' :| 0 <= j' < |a| && a[j'] == b[j];
      AdoptTotal(ev, a[i], b[j]);
    } else if AnyTip(ev, source, cfg, a) {
      AnyTipIn(ev, source, cfg, a, b);
      OrderFreeTips(ev, source, cfg, a, b, r, q);
    } else if AnyTip(ev, source, cfg, b) {
      AnyTipIn(ev, source, cfg, b, a);
    }
  }

  lemma SameMembers(a: seq<Candidate>, b: seq<Candidate>)
    requires multiset(a) == multiset(b)
    ensures forall i :: 0 <= i < |a| ==> exists j :: 0 <= j < |b| && b[j] == a[i]
    ensures forall j :: 0 <= j < |b| ==> exists i :: 0 <= i < |a| && a[i] == b[j]
  {
    forall i | 0 <= i < |a| ensures exists j :: 0 <= j < |b| && b[j] == a[i] {
      assert a[i] in multiset(a);
      assert a[i] in b;
    }
    forall j | 0 <= j < |b| ensures exists i :: 0 <= i < |a| && a[i] == b[j] {
      assert b[j] in multiset(b);
      assert b[j] in a;
    }
  }

  lemma AdoptTotal(ev: Event, a: Candidate, b: Candidate)
    ensures AdoptBefore(ev, a, b) || AdoptBefore(ev, b, a) || a.tx == b.tx
  {
  }

  lemma TipTotal(ev: Event, a: Candidate, k: int, b: Candidate, m: int)
    requires 0 <= k < |a.links| && 0 <= m < |b.links|
    ensures TipBefore(ev, a, k, b, m) || TipBefore(ev, b, m, a, k)
            || (a.tx == b.tx && Delta(ev, a.links[k]) == Delta(ev, b.links[m]))
    ensures !(TipBefore(ev, a, k, b, m) && TipBefore(ev, b, m, a, k))
  {
  }

  lemma AnyTipIn(ev: Event, source: Id, cfg: Config, a: seq<Candidate>, b: seq<Candidate>)
    requires forall i :: 0 <= i < |a| ==> exists j :: 0 <= j < |b| && b[j] == a[i]
    requires AnyTip(ev, source, cfg, a)
    ensures AnyTip(ev, source, cfg, b)
  {
    hide Tip;
    var i, k :| 0 <= i < |a| && Tip(ev, source, cfg, a[i], k);
    var j :| 0 <= j < |b| && b[j] == a[i];
    assert Tip(ev, source, cfg, b[j], k);
  }

  lemma OrderFreeTips(ev: Event, source: Id, cfg: Config, a: seq<Candidate>, b: seq<Candidate>, r: Result, q: Result)
    requires multiset(a) == multiset(b) && DistinctTx(a)
    requires Matched(ev, source, cfg, a, r) && Matched(ev, source, cfg, b, q)
    requires !AnyAdopt(ev, source, cfg, a) && !AnyAdopt(ev, source, cfg, b)
    requires AnyTip(ev, source, cfg, a) && AnyTip(ev, source, cfg, b)
    ensures r == q
  {
    hide AnyAdopt, AnyTip, DistinctTx, InTipWindow, TipLink, TipBefore, Delta;
    var i, k :| BestTip(ev, source, cfg, a, i, k) && r == TipAdopt(a[i].tx, a[i].amount == a[i].links[k].amount);
    var j, m :| BestTip(ev, source, cfg, b, j, m) && q == TipAdopt(b[j].tx, b[j].amount == b[j].links[m].amount);
    SameBest(ev, source, cfg, a, b, i, k, j, m);
  }

  lemma SameBest(ev: Event, source: Id, cfg: Config, a: seq<Candidate>, b: seq<Candidate>, i: int, k: int, j: int,
                 m: int)
    requires multiset(a) == multiset(b) && DistinctTx(a)
    requires BestTip(ev, source, cfg, a, i, k) && BestTip(ev, source, cfg, b, j, m)
    ensures a[i] == b[j] && k == m
  {
    SameMembers(a, b);
    var i' :| 0 <= i' < |b| && b[i'] == a[i];
    var j' :| 0 <= j' < |a| && a[j'] == b[j];
    hide InTipWindow, TipLink, TipBefore, Delta;
    assert Tip(ev, source, cfg, b[i'], k) && Tip(ev, source, cfg, a[j'], m);
    hide Tip;
    TipTotal(ev, a[i], k, b[j], m);
    assert i == j';
    hide BestTip;
    FirstOfEqual(ev, source, cfg, a, i, k, m);
    FirstOfEqual(ev, source, cfg, b, j, m, k);
  }

  lemma FirstOfEqual(ev: Event, source: Id, cfg: Config, candidates: seq<Candidate>, i: int, k: int, m: int)
    requires BestTip(ev, source, cfg, candidates, i, k) && Tip(ev, source, cfg, candidates[i], m)
    requires Delta(ev, candidates[i].links[k]) == Delta(ev, candidates[i].links[m])
    ensures k <= m
  {
    hide InTipWindow, TipLink;
    assert Earlier(i, m, i, k) <==> m < k;
  }

  /** A tip: which candidate, which of its links, and what it scores. */
  datatype Scored = Scored(i: int, k: int, delta: int, days: int, tx: Id, correct: bool)

  method FindAdopts(ev: Event, source: Id, cfg: Config, candidates: seq<Candidate>) returns (adopt: seq<int>)
    ensures forall i :: i in adopt <==> 0 <= i < |candidates| && Adoptable(ev, source, cfg, candidates[i])
  {
    adopt := [];
    for n := 0 to |candidates|
      invariant forall i :: i in adopt <==> 0 <= i < n && Adoptable(ev, source, cfg, candidates[i])
    {
      var c := candidates[n];
      if c.kind != ev.kind || LinkedFrom(c, source) || c.amount != ev.amount {
        continue;
      }
      if AdoptDays(ev, c) <= cfg.matchDays {
        adopt := adopt + [n];
      }
    }
  }

  /** The head of the list once sorted. */
  method NearestAdopt(ev: Event, candidates: seq<Candidate>, adopt: seq<int>) returns (best: int)
    requires adopt != [] && forall j :: 0 <= j < |adopt| ==> 0 <= adopt[j] < |candidates|
    ensures best in adopt && 0 <= best < |candidates|
    ensures forall j :: 0 <= j < |adopt| ==> !AdoptBefore(ev, candidates[adopt[j]], candidates[best])
  {
    best := adopt[0];
    for n := 1 to |adopt|
      invariant best in adopt && 0 <= best < |candidates|
      invariant forall j :: 0 <= j < n ==> !AdoptBefore(ev, candidates[adopt[j]], candidates[best])
    {
      if AdoptBefore(ev, candidates[adopt[n]], candidates[best]) {
        best := adopt[n];
      }
    }
  }

  /** The list entry tells its candidate's link and score. */
  ghost predicate ScoredRight(ev: Event, candidates: seq<Candidate>, t: Scored) {
    && 0 <= t.i < |candidates| && 0 <= t.k < |candidates[t.i].links|
    && t == Scored(t.i, t.k, Delta(ev, candidates[t.i].links[t.k]), DaysBetween(candidates[t.i].spent, ev.posted),
                   candidates[t.i].tx,
                   candidates[t.i].amount == candidates[t.i].links[t.k].amount)
  }

  ghost predicate ListsTip(tips: seq<Scored>, i: int, k: int) {
    exists j :: 0 <= j < |tips| && tips[j].i == i && tips[j].k == k
  }

  /** The tips among all links before link k of candidate n, in that order. */
  ghost predicate TipsListed(ev: Event, source: Id, cfg: Config, candidates: seq<Candidate>, tips: seq<Scored>, n: int,
                             k: int)
  {
    && (forall j :: 0 <= j < |tips| ==> ScoredRight(ev, candidates, tips[j]) && Earlier(tips[j].i, tips[j].k, n, k)
                                        && Tip(ev, source, cfg, candidates[tips[j].i], tips[j].k))
    && (forall j, m :: 0 <= j < m < |tips| ==> Earlier(tips[j].i, tips[j].k, tips[m].i, tips[m].k))
    && (forall i, l :: 0 <= i < |candidates| && Earlier(i, l, n, k) && Tip(ev, source, cfg, candidates[i], l) ==>
          ListsTip(tips, i, l))
  }

  lemma TipAdded(ev: Event, source: Id, cfg: Config, candidates: seq<Candidate>, tips: seq<Scored>, n: int, k: int,
                 t: Scored)
    requires TipsListed(ev, source, cfg, candidates, tips, n, k) && t.i == n && t.k == k
    requires ScoredRight(ev, candidates, t) && Tip(ev, source, cfg, candidates[n], k)
    ensures TipsListed(ev, source, cfg, candidates, tips + [t], n, k + 1)
  {
    hide Tip, ScoredRight;
    var more := tips + [t];
    forall i, l | 0 <= i < |candidates| && Earlier(i, l, n, k + 1) && Tip(ev, source, cfg, candidates[i], l)
      ensures ListsTip(more, i, l)
    {
      if i == n && l == k {
        assert more[|tips|] == t;
      } else {
        assert ListsTip(tips, i, l);
        var j :| 0 <= j < |tips| && tips[j].i == i && tips[j].k == l;
        assert more[j] == tips[j];
      }
    }
  }

  lemma TipSkipped(ev: Event, source: Id, cfg: Config, candidates: seq<Candidate>, tips: seq<Scored>, n: int, k: int)
    requires TipsListed(ev, source, cfg, candidates, tips, n, k) && 0 <= n < |candidates|
             && !Tip(ev, source, cfg, candidates[n], k)
    ensures TipsListed(ev, source, cfg, candidates, tips, n, k + 1)
  {
    hide Tip, ScoredRight, ListsTip;
  }

  lemma CandidateDone(ev: Event, source: Id, cfg: Config, candidates: seq<Candidate>, tips: seq<Scored>, n: int, k: int)
    requires TipsListed(ev, source, cfg, candidates, tips, n, k) && 0 <= n < |candidates|
    requires forall l :: l >= k ==> !Tip(ev, source, cfg, candidates[n], l)
    ensures TipsListed(ev, source, cfg, candidates, tips, n + 1, 0)
  {
    hide ScoredRight, ListsTip;
  }

  method FindTips(ev: Event, source: Id, cfg: Config, candidates: seq<Candidate>) returns (tips: seq<Scored>)
    ensures TipsListed(ev, source, cfg, candidates, tips, |candidates|, 0)
  {
    tips := [];
    var evTokens := Tokens(ev.payee + " " + ev.description, 1);
    NoTipsYet(ev, source, cfg, candidates);
    for n := 0 to |candidates|
      invariant TipsListed(ev, source, cfg, candidates, tips, n, 0)
    {
      hide TipsListed, TipLink, ScoredRight, LinkedFrom, NamesMatch;
      var c := candidates[n];
      var days := DaysBetween(c.spent, ev.posted);
      if c.kind != ev.kind || LinkedFrom(c, source) || days < 0 || days > cfg.tipDays {
        CandidateDone(ev, source, cfg, candidates, tips, n, 0);
        continue;
      }
      for k := 0 to |c.links|
        invariant TipsListed(ev, source, cfg, candidates, tips, n, k)
      {
        var l := c.links[k];
        var good := IsTipLink(ev, cfg, evTokens, l);
        if good {
          var t := Scored(n, k, Delta(ev, l), days, c.tx, c.amount == l.amount);
          ScoredHere(ev, candidates, t);
          TipAdded(ev, source, cfg, candidates, tips, n, k, t);
          tips := tips + [t];
        } else {
          TipSkipped(ev, source, cfg, candidates, tips, n, k);
        }
      }
      CandidateDone(ev, source, cfg, candidates, tips, n, |c.links|);
    }
  }

  lemma NoTipsYet(ev: Event, source: Id, cfg: Config, candidates: seq<Candidate>)
    ensures TipsListed(ev, source, cfg, candidates, [], 0, 0)
  {
  }

  lemma ScoredHere(ev: Event, candidates: seq<Candidate>, t: Scored)
    requires 0 <= t.i < |candidates| && 0 <= t.k < |candidates[t.i].links|
    requires t == Scored(t.i, t.k, Delta(ev, candidates[t.i].links[t.k]), DaysBetween(candidates[t.i].spent, ev.posted),
                         candidates[t.i].tx,
                         candidates[t.i].amount == candidates[t.i].links[t.k].amount)
    ensures ScoredRight(ev, candidates, t)
  {
  }

  method IsTipLink(ev: Event, cfg: Config, evTokens: set<string>, l: Link) returns (good: bool)
    requires forall w :: w in evTokens <==> IsToken(ev.payee + " " + ev.description, 1, w)
    ensures good <==> TipLink(ev, cfg, l)
  {
    if !l.push || Delta(ev, l) > Tolerance(cfg, l.amount) {
      return false;
    }
    var need := Tokens(l.payee, cfg.tokenMinLength);
    hide IsToken, Tolerance;
    assert need != {} ==> exists w :: w in need;
    good := need != {} && need <= evTokens;
  }

  predicate ScoreBefore(a: Scored, b: Scored) {
    a.delta < b.delta || (a.delta == b.delta && (a.days < b.days || (a.days == b.days && a.tx < b.tx)))
  }

  /** The head of the list once stably sorted: the first of the least. */
  method NearestTip(tips: seq<Scored>) returns (best: int)
    requires tips != []
    ensures 0 <= best < |tips|
    ensures forall j :: 0 <= j < |tips| ==> !ScoreBefore(tips[j], tips[best])
    ensures forall j :: 0 <= j < best ==> ScoreBefore(tips[best], tips[j])
  {
    best := 0;
    for n := 1 to |tips|
      invariant 0 <= best < n
      invariant forall j :: 0 <= j < n ==> !ScoreBefore(tips[j], tips[best])
      invariant forall j :: 0 <= j < best ==> ScoreBefore(tips[best], tips[j])
    {
      if ScoreBefore(tips[n], tips[best]) {
        best := n;
      }
    }
  }

  lemma NearestIsBest(ev: Event, source: Id, cfg: Config, candidates: seq<Candidate>, tips: seq<Scored>, best: int)
    requires TipsListed(ev, source, cfg, candidates, tips, |candidates|, 0) && 0 <= best < |tips|
    requires forall j :: 0 <= j < |tips| ==> !ScoreBefore(tips[j], tips[best])
    requires forall j :: 0 <= j < best ==> ScoreBefore(tips[best], tips[j])
    ensures BestTip(ev, source, cfg, candidates, tips[best].i, tips[best].k)
  {
    hide InTipWindow, TipLink, Delta;
    var t := tips[best];
    forall j, m | 0 <= j < |candidates| && Tip(ev, source, cfg, candidates[j], m)
      ensures !TipBefore(ev, candidates[j], m, candidates[t.i], t.k)
      ensures Earlier(j, m, t.i, t.k) ==> TipBefore(ev, candidates[t.i], t.k, candidates[j], m)
    {
      assert Earlier(j, m, |candidates|, 0) && ListsTip(tips, j, m);
      var n :| 0 <= n < |tips| && tips[n].i == j && tips[n].k == m;
      assert n > best ==> Earlier(t.i, t.k, tips[n].i, tips[n].k);
    }
  }

  /** The decision for one event. */
  method Match(ev: Event, source: Id, candidates: seq<Candidate>, cfg: Config) returns (r: Result)
    ensures Matched(ev, source, cfg, candidates, r)
  {
    var adopt := FindAdopts(ev, source, cfg, candidates);
    if |adopt| > 0 {
      assert forall j :: 0 <= j < |adopt| ==> adopt[j] in adopt;
      var best := NearestAdopt(ev, candidates, adopt);
      hide Adoptable, AdoptBefore;
      assert BestAdopt(ev, source, cfg, candidates, best);
      return Adopt(candidates[best].tx);
    }
    assert !AnyAdopt(ev, source, cfg, candidates);
    var tips := FindTips(ev, source, cfg, candidates);
    hide AnyAdopt, Tip, TipBefore;
    if |tips| == 0 {
      forall i, k | 0 <= i < |candidates| ensures !Tip(ev, source, cfg, candidates[i], k) {
        assert Earlier(i, k, |candidates|, 0);
        assert !ListsTip(tips, i, k);
      }
      return Create;
    }
    var best := NearestTip(tips);
    NearestIsBest(ev, source, cfg, candidates, tips, best);
    var t := tips[best];
    assert AnyTip(ev, source, cfg, candidates);
    r := TipAdopt(t.tx, t.correct);
  }
}
