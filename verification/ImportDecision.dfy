/** What the import code decides and writes, said over the stored rows and the calendar days alone. */
module ImportDecision {
  import opened Prelude
  import opened ImportLedger
  import opened ImportService
  import Calendar
  import Decimal
  import M = ImportMatcher

  /** The calendar day of an instant. */
  function Day(t: Calendar.Time): int {
    t / 86_400_000_000_000
  }

  function Apart(x: int, y: int): nat {
    if x < y then y - x else x - y
  }

  // ---- Words ----

  predicate Alphanumeric(c: char) {
    'a' <= c <= 'z' || 'A' <= c <= 'Z' || '0' <= c <= '9'
  }

  /** Equal up to the case of ASCII letters. */
  predicate SameLetter(c: char, d: char) {
    c == d || ('a' <= c <= 'z' && c as int == d as int + 32) || ('a' <= d <= 'z' && d as int == c as int + 32)
  }

  predicate SameText(a: string, b: string) {
    |a| == |b| && forall k :: 0 <= k < |a| ==> SameLetter(a[k], b[k])
  }

  /** s[i..j] is a longest run of letters and digits. */
  predicate Run(s: string, i: int, j: int) {
    && 0 <= i < j <= |s| && (forall k :: i <= k < j ==> Alphanumeric(s[k]))
    && (i == 0 || !Alphanumeric(s[i - 1])) && (j == |s| || !Alphanumeric(s[j]))
  }

  ghost predicate Contains(s: string, word: string) {
    exists i, j :: Run(s, i, j) && SameText(s[i..j], word)
  }

  /** The payee has a word of the least length, and each such word is one of the event's. */
  ghost predicate Named(ev: M.Event, cfg: M.Config, payee: string) {
    && (exists i, j :: Run(payee, i, j) && j - i >= cfg.tokenMinLength)
    && (forall i, j :: Run(payee, i, j) && j - i >= cfg.tokenMinLength ==>
          Contains(ev.payee + " " + ev.description, payee[i..j]))
  }

  lemma LowerSame(c: char, d: char)
    ensures M.Lower(c) == M.Lower(d) <==> SameLetter(c, d)
  {
  }

  lemma LowerAllSame(a: string, b: string)
    ensures M.LowerAll(a) == M.LowerAll(b) <==> SameText(a, b)
  {
    forall c, d ensures M.Lower(c) == M.Lower(d) <==> SameLetter(c, d) {
      LowerSame(c, d);
    }
    hide M.Lower, SameLetter;
    if M.LowerAll(a) == M.LowerAll(b) {
      assert |a| == |b|;
      forall k | 0 <= k < |a| ensures M.Lower(a[k]) == M.Lower(b[k]) {
        assert M.LowerAll(a)[k] == M.LowerAll(b)[k];
      }
    }
  }

  lemma RunIsWord(s: string)
    ensures forall i, j :: M.IsWord(s, i, j) <==> Run(s, i, j)
  {
    forall c: char ensures M.IsWordChar(c) <==> Alphanumeric(c) {
    }
    hide M.IsWordChar, Alphanumeric;
  }

  lemma ContainsIsToken(s: string, word: string)
    ensures M.IsToken(s, 1, M.LowerAll(word)) <==> Contains(s, word)
  {
    RunIsWord(s);
    forall i, j | Run(s, i, j) ensures M.LowerAll(s[i..j]) == M.LowerAll(word) <==> SameText(s[i..j], word) {
      LowerAllSame(s[i..j], word);
    }
    hide M.LowerAll, SameText;
  }

  lemma NamedIs(ev: M.Event, cfg: M.Config, payee: string)
    ensures M.NamesMatch(ev, cfg, payee) <==> Named(ev, cfg, payee)
  {
    var text := ev.payee + " " + ev.description;
    RunIsWord(payee);
    forall word ensures M.IsToken(text, 1, M.LowerAll(word)) <==> Contains(text, word) {
      ContainsIsToken(text, word);
    }
    hide M.LowerAll, Contains, Run;
    if Named(ev, cfg, payee) {
      var i, j :| Run(payee, i, j) && j - i >= cfg.tokenMinLength;
      assert M.IsToken(payee, cfg.tokenMinLength, M.LowerAll(payee[i..j]));
    }
    if M.NamesMatch(ev, cfg, payee) {
      forall i, j | Run(payee, i, j) && j - i >= cfg.tokenMinLength ensures Contains(text, payee[i..j]) {
        assert M.IsToken(payee, cfg.tokenMinLength, M.LowerAll(payee[i..j]));
      }
    }
  }

  // ---- The matcher's decision ----

  /** Of the event's kind, and not linked from its source yet. */
  predicate Free(ev: M.Event, source: Id, c: M.Candidate) {
    c.kind == ev.kind && forall k :: 0 <= k < |c.links| ==> c.links[k].source != source
  }

  /** The same money, at most the match window's days before or after. */
  predicate SameMoney(ev: M.Event, source: Id, cfg: M.Config, c: M.Candidate) {
    Free(ev, source, c) && c.amount == ev.amount && Apart(Day(c.spent), Day(ev.posted)) <= cfg.matchDays
  }

  /**
   * Link k is a tap the event may settle: pushed, posted on its day or at most the tip window's days later, off by at
   * most the percentage, cut to eight decimals, and naming the same merchant.
   */
  ghost predicate Tap(ev: M.Event, source: Id, cfg: M.Config, c: M.Candidate, k: int) {
    && Free(ev, source, c) && 0 <= Day(ev.posted) - Day(c.spent) <= cfg.tipDays
    && 0 <= k < |c.links| && var l := c.links[k];
    && l.push && Named(ev, cfg, l.payee) && WithinTip(cfg, l.amount, Apart(l.amount, ev.amount))
  }

  predicate WithinTip(cfg: M.Config, tap: int, delta: nat) {
    100 * delta <= tap * cfg.tipTolerancePct || (delta == 0 && -100 < tap * cfg.tipTolerancePct)
  }

  /** Fewer days apart, and of as many the smaller id. */
  predicate NoFarther(ev: M.Event, a: M.Candidate, b: M.Candidate) {
    var x, y := Apart(Day(a.spent), Day(ev.posted)), Apart(Day(b.spent), Day(ev.posted));
    x < y || (x == y && a.tx <= b.tx)
  }

  /** Nearer in amount, then in days, then the smaller id, then the first listed. */
  predicate NoWorse(ev: M.Event, candidates: seq<M.Candidate>, i: int, k: int, j: int, m: int)
    requires 0 <= i < |candidates| && 0 <= j < |candidates|
    requires 0 <= k < |candidates[i].links| && 0 <= m < |candidates[j].links|
  {
    var a, b := candidates[i], candidates[j];
    var x, y := Apart(a.links[k].amount, ev.amount), Apart(b.links[m].amount, ev.amount);
    var p, q := Day(ev.posted) - Day(a.spent), Day(ev.posted) - Day(b.spent);
    if x != y then x < y
    else if p != q then p < q
    else if a.tx != b.tx then a.tx < b.tx
    else if i != j then i < j
    else k <= m
  }

  ghost predicate NearestMoney(ev: M.Event, source: Id, cfg: M.Config, candidates: seq<M.Candidate>, i: int) {
    && 0 <= i < |candidates| && SameMoney(ev, source, cfg, candidates[i])
    && forall j :: 0 <= j < |candidates| && SameMoney(ev, source, cfg, candidates[j]) ==>
         NoFarther(ev, candidates[i], candidates[j])
  }

  ghost predicate NearestTap(ev: M.Event, source: Id, cfg: M.Config, candidates: seq<M.Candidate>, i: int, k: int) {
    && 0 <= i < |candidates| && Tap(ev, source, cfg, candidates[i], k)
    && forall j, m :: 0 <= j < |candidates| && Tap(ev, source, cfg, candidates[j], m) ==>
         NoWorse(ev, candidates, i, k, j, m)
  }

  ghost predicate Decided(ev: M.Event, source: Id, cfg: M.Config, candidates: seq<M.Candidate>, r: M.Result) {
    if exists c :: c in candidates && SameMoney(ev, source, cfg, c) then
      exists i :: NearestMoney(ev, source, cfg, candidates, i) && r == M.Adopt(candidates[i].tx)
    else if exists c, k :: c in candidates && Tap(ev, source, cfg, c, k) then
      exists i, k :: NearestTap(ev, source, cfg, candidates, i, k)
        && r == M.TipAdopt(candidates[i].tx, candidates[i].links[k].amount == candidates[i].amount)
    else r == M.Create
  }

  lemma WithinTipIs(ev: M.Event, cfg: M.Config, l: M.Link)
    ensures M.Delta(ev, l) <= M.Tolerance(cfg, l.amount) <==> WithinTip(cfg, l.amount, Apart(l.amount, ev.amount))
  {
    var x := l.amount * cfg.tipTolerancePct;
    assert l.amount * (cfg.tipTolerancePct * Decimal.SCALE) == x * Decimal.SCALE;
    assert Decimal.Mul(l.amount, cfg.tipTolerancePct * Decimal.SCALE) == x;
    assert M.Tolerance(cfg, l.amount) == Decimal.Quo(x, 100);
  }

  lemma TapIs(ev: M.Event, source: Id, cfg: M.Config, c: M.Candidate, k: int)
    ensures M.Tip(ev, source, cfg, c, k) <==> Tap(ev, source, cfg, c, k)
  {
    hide M.NamesMatch, Named, M.Tolerance, WithinTip;
    if 0 <= k < |c.links| {
      NamedIs(ev, cfg, c.links[k].payee);
      WithinTipIs(ev, cfg, c.links[k]);
    }
  }

  lemma SameMoneyIs(ev: M.Event, source: Id, cfg: M.Config, c: M.Candidate)
    ensures M.Adoptable(ev, source, cfg, c) <==> SameMoney(ev, source, cfg, c)
  {
  }

  lemma NoFartherIs(ev: M.Event, a: M.Candidate, b: M.Candidate)
    ensures NoFarther(ev, a, b) <==> !M.AdoptBefore(ev, b, a)
  {
  }

  lemma NoWorseIs(ev: M.Event, candidates: seq<M.Candidate>, i: int, k: int, j: int, m: int)
    requires 0 <= i < |candidates| && 0 <= j < |candidates|
    requires 0 <= k < |candidates[i].links| && 0 <= m < |candidates[j].links|
    ensures NoWorse(ev, candidates, i, k, j, m) <==>
      !M.TipBefore(ev, candidates[j], m, candidates[i], k)
      && (M.Earlier(j, m, i, k) ==> M.TipBefore(ev, candidates[i], k, candidates[j], m))
  {
  }

  lemma NearestMoneyIs(ev: M.Event, source: Id, cfg: M.Config, candidates: seq<M.Candidate>, i: int)
    ensures M.BestAdopt(ev, source, cfg, candidates, i) <==> NearestMoney(ev, source, cfg, candidates, i)
  {
    forall c ensures M.Adoptable(ev, source, cfg, c) <==> SameMoney(ev, source, cfg, c) {
      SameMoneyIs(ev, source, cfg, c);
    }
    forall a, b ensures NoFarther(ev, a, b) <==> !M.AdoptBefore(ev, b, a) {
      NoFartherIs(ev, a, b);
    }
    hide M.Adoptable, SameMoney, NoFarther, M.AdoptBefore;
  }

  lemma NearestTapIs(ev: M.Event, source: Id, cfg: M.Config, candidates: seq<M.Candidate>, i: int, k: int)
    ensures M.BestTip(ev, source, cfg, candidates, i, k) <==> NearestTap(ev, source, cfg, candidates, i, k)
  {
    forall c, m ensures M.Tip(ev, source, cfg, c, m) <==> Tap(ev, source, cfg, c, m) {
      TapIs(ev, source, cfg, c, m);
    }
    forall c, m | Tap(ev, source, cfg, c, m) ensures 0 <= m < |c.links| {
    }
    hide M.Tip, Tap;
    if 0 <= i < |candidates| && Tap(ev, source, cfg, candidates[i], k) {
      forall j, m | 0 <= j < |candidates| && Tap(ev, source, cfg, candidates[j], m)
        ensures NoWorse(ev, candidates, i, k, j, m) <==>
          !M.TipBefore(ev, candidates[j], m, candidates[i], k)
          && (M.Earlier(j, m, i, k) ==> M.TipBefore(ev, candidates[i], k, candidates[j], m))
      {
        NoWorseIs(ev, candidates, i, k, j, m);
      }
      hide NoWorse, M.TipBefore, M.Earlier;
    }
  }

  /** The matcher decides exactly this: the same money nearest in days, else the best tap, else a new transaction. */
  lemma DecidedExactly(ev: M.Event, source: Id, cfg: M.Config, candidates: seq<M.Candidate>, r: M.Result)
    ensures M.Matched(ev, source, cfg, candidates, r) <==> Decided(ev, source, cfg, candidates, r)
  {
    forall c ensures M.Adoptable(ev, source, cfg, c) <==> SameMoney(ev, source, cfg, c) {
      SameMoneyIs(ev, source, cfg, c);
    }
    forall c, k ensures M.Tip(ev, source, cfg, c, k) <==> Tap(ev, source, cfg, c, k) {
      TapIs(ev, source, cfg, c, k);
    }
    forall i ensures M.BestAdopt(ev, source, cfg, candidates, i) <==> NearestMoney(ev, source, cfg, candidates, i) {
      NearestMoneyIs(ev, source, cfg, candidates, i);
    }
    forall i, k ensures M.BestTip(ev, source, cfg, candidates, i, k) <==>
             NearestTap(ev, source, cfg, candidates, i, k) {
      NearestTapIs(ev, source, cfg, candidates, i, k);
    }
    InRange(ev, source, cfg, candidates);
    hide M.Adoptable, SameMoney, M.Tip, Tap, M.BestAdopt, NearestMoney, M.BestTip, NearestTap;
  }

  lemma InRange(ev: M.Event, source: Id, cfg: M.Config, candidates: seq<M.Candidate>)
    ensures forall i :: NearestMoney(ev, source, cfg, candidates, i) ==> 0 <= i < |candidates|
    ensures forall i, k :: NearestTap(ev, source, cfg, candidates, i, k) ==>
              0 <= i < |candidates| && 0 <= k < |candidates[i].links|
    ensures forall i, k :: M.BestTip(ev, source, cfg, candidates, i, k) ==>
              0 <= i < |candidates| && 0 <= k < |candidates[i].links|
  {
    hide M.TipLink, Named;
  }

  // ---- What a placed event does ----

  /** The links are the ledger's rows for the transaction, each once and as it stands. */
  ghost predicate Tells(b: Books, c: M.Candidate, rows: seq<Id>) {
    && (forall i, j :: 0 <= i < j < |rows| ==> rows[i] != rows[j])
    && (forall r :: r in rows <==> r in b.ledger && b.ledger[r].tx == Some(c.tx))
    && |c.links| == |rows| && forall i :: 0 <= i < |rows| ==>
        rows[i] in b.ledger && ToldBy(b, b.ledger[rows[i]], c.links[i])
  }

  predicate ToldBy(b: Books, row: Row, l: M.Link) {
    && l.source == row.source && l.amount == row.amount && l.payee == row.payee
    && (l.push <==> row.source in b.sources && b.sources[row.source])
  }

  /**
   * A transaction of the account, either way, spent within the wider window of the instant, and one day more after it.
   */
  predicate Around(cfg: M.Config, t: Tx, account: Id, at: Calendar.Time) {
    var days := if cfg.matchDays < cfg.tipDays then cfg.tipDays else cfg.matchDays;
    && (t.account == account || t.recipient == Some(account))
    && at - days * 86_400_000_000_000 <= t.spent < at + (days + 1) * 86_400_000_000_000
  }

  ghost predicate StoredAs(b: Books, c: M.Candidate) {
    && c.tx in b.txs && c.kind == b.txs[c.tx].kind && c.amount == b.txs[c.tx].amount && c.spent == b.txs[c.tx].spent
    && exists rows :: Tells(b, c, rows)
  }

  ghost predicate Sees(seen: seq<M.Candidate>, t: Id) {
    exists i :: 0 <= i < |seen| && seen[i].tx == t
  }

  /** The transactions around the instant, in id order, as they are stored. */
  ghost predicate SeenAround(cfg: M.Config, b: Books, account: Id, at: Calendar.Time, seen: seq<M.Candidate>) {
    && (forall i, j :: 0 <= i < j < |seen| ==> seen[i].tx < seen[j].tx)
    && (forall t: Id :: Sees(seen, t) <==> t in b.txs && Around(cfg, b.txs[t], account, at))
    && forall i :: 0 <= i < |seen| ==> StoredAs(b, seen[i])
  }

  /**
   * A decision carried out: a new transaction of the account, or an adopted one, whose amount is overwritten exactly
   * when that is allowed and it still carries the tap's.
   */
  ghost predicate CarriedOut(b: Books, txs: map<Id, Tx>, ev: Incoming, to: Destination, tx: Id, adopted: bool,
                             updated: bool, decision: M.Result)
  {
    match decision
    case Create =>
      !adopted && !updated && tx !in b.txs && txs == b.txs[tx := Tx(to.account, None, ev.kind, to.amount, ev.posted)]
    case Adopt(t) => adopted && !updated && tx == t && tx in b.txs && txs == b.txs
    case TipAdopt(t, stale) =>
      && adopted && tx == t && tx in b.txs && (updated <==> to.correct && stale)
      && txs == if to.correct && stale then b.txs[tx := b.txs[tx].(amount := to.amount)] else b.txs
  }

  ghost predicate PlacedSo(cfg: M.Config, b: Books, txs: map<Id, Tx>, source: Id, ev: Incoming, to: Destination, tx: Id,
                           adopted: bool, updated: bool)
  {
    exists seen, decision ::
      && SeenAround(cfg, b, to.account, ev.posted, seen)
      && Decided(M.Event(to.amount, ev.posted, ev.kind, ev.payee, ev.description), source, cfg, seen, decision)
      && CarriedOut(b, txs, ev, to, tx, adopted, updated, decision)
  }

  lemma NearbyIs(cfg: M.Config, b: Books, account: Id, at: Calendar.Time, t: Id)
    ensures t in Nearby(cfg, b.txs, account, at) <==> t in b.txs && Around(cfg, b.txs[t], account, at)
  {
  }

  lemma CandidateStored(b: Books, c: M.Candidate, t: Id)
    requires Shows(b.txs, c, t) && Faithful(b, c)
    ensures c.tx == t && StoredAs(b, c)
  {
    var rows :| ShowsRows(b, c, rows);
    assert Tells(b, c, rows);
  }

  lemma CandidatesSeen(cfg: M.Config, b: Books, account: Id, at: Calendar.Time, listed: seq<Id>,
                       seen: seq<M.Candidate>)
    requires Increasing(listed) && forall t :: t in listed <==> t in Nearby(cfg, b.txs, account, at)
    requires Candidates(b, listed, seen)
    ensures SeenAround(cfg, b, account, at, seen)
  {
    forall i | 0 <= i < |seen| ensures seen[i].tx == listed[i] && StoredAs(b, seen[i]) {
      CandidateStored(b, seen[i], listed[i]);
    }
    hide StoredAs, Candidates;
    forall t: Id ensures Sees(seen, t) <==> t in b.txs && Around(cfg, b.txs[t], account, at) {
      NearbyIs(cfg, b, account, at, t);
      if t in listed {
        var i :| 0 <= i < |listed| && listed[i] == t;
        assert seen[i].tx == t;
      }
    }
  }

  lemma PlacedByExactly(cfg: M.Config, b: Books, txs: map<Id, Tx>, source: Id, ev: Incoming, to: Destination, tx: Id,
                        adopted: bool, updated: bool, listed: seq<Id>, seen: seq<M.Candidate>, decision: M.Result)
    requires PlacedBy(cfg, b, txs, source, ev, to, tx, adopted, updated, listed, seen, decision)
    ensures SeenAround(cfg, b, to.account, ev.posted, seen)
    ensures Decided(M.Event(to.amount, ev.posted, ev.kind, ev.payee, ev.description), source, cfg, seen, decision)
    ensures CarriedOut(b, txs, ev, to, tx, adopted, updated, decision)
  {
    hide Candidates, SeenAround, Decided, M.Matched, Nearby;
    CandidatesSeen(cfg, b, to.account, ev.posted, listed, seen);
    DecidedExactly(M.Event(to.amount, ev.posted, ev.kind, ev.payee, ev.description), source, cfg, seen, decision);
  }

  /** Where an event is placed: by that decision over the account's transactions around it, as they are stored. */
  lemma PlacedExactly(cfg: M.Config, b: Books, txs: map<Id, Tx>, source: Id, ev: Incoming, to: Destination, tx: Id,
                      adopted: bool, updated: bool)
    requires Placed(cfg, b, txs, source, ev, to, tx, adopted, updated)
    ensures PlacedSo(cfg, b, txs, source, ev, to, tx, adopted, updated)
  {
    hide PlacedBy, SeenAround, Decided, CarriedOut;
    var listed, seen, decision :| PlacedBy(cfg, b, txs, source, ev, to, tx, adopted, updated, listed, seen, decision);
    PlacedByExactly(cfg, b, txs, source, ev, to, tx, adopted, updated, listed, seen, decision);
  }

  /**
   * The ledger's row for the event: of the source, of the same card whatever the case of its name, and of the same
   * external id.
   */
  predicate RowOf(ledger: map<Id, Row>, r: Id, source: Id, ev: Incoming) {
    r in ledger && ledger[r].source == source && SameText(ledger[r].card, ev.card) && ledger[r].ext == ev.ext
  }

  ghost predicate Recorded(ledger: map<Id, Row>, source: Id, ev: Incoming) {
    exists r :: RowOf(ledger, r, source, ev)
  }

  lemma RowOfIs(ledger: map<Id, Row>, r: Id, source: Id, ev: Incoming)
    ensures RowAt(ledger, r, KeyFor(source, ev)) <==> RowOf(ledger, r, source, ev)
  {
    if r in ledger {
      LowerAllSame(ledger[r].card, ev.card);
    }
  }

  /**
   * A recorded event changes nothing. A new one leaves one row more with what it said: waiting, passed over, or linked
   * to where it was placed, the transactions changing in that case only.
   */
  ghost predicate Applied(cfg: M.Config, b: Books, c: Books, source: Id, hash: nat, ev: Incoming, to: Resolution,
                          correct: bool, outcome: Outcome, updated: bool)
  {
    if Recorded(b.ledger, source, ev) then
      && c == b && !updated
      && exists r :: RowOf(b.ledger, r, source, ev)
                     && outcome == if b.ledger[r].status == Queued then Waiting else Duplicate
    else
      exists id: Id, tx: Option<Id> :: AppliedAs(cfg, b, c, source, hash, ev, to, correct, outcome, updated, id, tx)
  }

  ghost predicate AppliedAs(cfg: M.Config, b: Books, c: Books, source: Id, hash: nat, ev: Incoming, to: Resolution,
                            correct: bool, outcome: Outcome, updated: bool, id: Id, tx: Option<Id>)
  {
    && id !in b.ledger && c.sources == b.sources
    && var row := Row(source, ev.card, ev.ext, Queued, None, ev.amount, ev.payee, hash);
    match to
    case ToQueue => outcome == Waiting && !updated && c.txs == b.txs && c.ledger == b.ledger[id := row]
    case ToSkip(_) =>
      outcome == Passed && !updated && c.txs == b.txs && c.ledger == b.ledger[id := row.(status := Skipped)]
    case ToAccount(amount, account) =>
      && tx.Some? && (outcome == Adopted || outcome == Created)
      && c.ledger == b.ledger[id := row.(status := Linked, tx := tx)]
      && PlacedSo(cfg, b, c.txs, source, ev, Destination(amount, account, correct), tx.value, outcome == Adopted,
                  updated)
  }

  /** What one event does to the books, in full. */
  lemma TakenExactly(cfg: M.Config, b: Books, c: Books, source: Id, hash: nat, ev: Incoming, to: Resolution,
                     correct: bool, outcome: Outcome, updated: bool)
    requires Taken(cfg, b, c, source, hash, ev, to, correct, outcome, updated)
    ensures Applied(cfg, b, c, source, hash, ev, to, correct, outcome, updated)
  {
    var k := KeyFor(source, ev);
    forall r: Id ensures RowAt(b.ledger, r, k) <==> RowOf(b.ledger, r, source, ev) {
      RowOfIs(b.ledger, r, source, ev);
    }
    hide RowOf, RowAt, KeyFor, PlacedSo, Placed;
    if exists r :: RowAt(b.ledger, r, k) {
      var r :| RowAt(b.ledger, r, k) && outcome == (if b.ledger[r].status == Queued then Waiting else Duplicate);
      assert RowOf(b.ledger, r, source, ev);
    } else {
      NewExactly(cfg, b, c, source, hash, ev, to, correct, outcome, updated);
    }
  }

  lemma NewExactly(cfg: M.Config, b: Books, c: Books, source: Id, hash: nat, ev: Incoming, to: Resolution,
                   correct: bool, outcome: Outcome, updated: bool)
    requires Taken(cfg, b, c, source, hash, ev, to, correct, outcome, updated)
    requires !exists r :: RowAt(b.ledger, r, KeyFor(source, ev))
    ensures exists id: Id, tx: Option<Id> ::
              AppliedAs(cfg, b, c, source, hash, ev, to, correct, outcome, updated, id, tx)
  {
    var row :| RowFor(cfg, b, c.txs, source, hash, ev, to, correct, row, outcome, updated)
      && NewRow(b.ledger, c.ledger, row);
    var id: Id :| id !in b.ledger && c.ledger == b.ledger[id := row];
    hide Placed, PlacedSo;
    if to.ToAccount? {
      PlacedExactly(cfg, b, c.txs, source, ev, Destination(to.amount, to.account, correct), row.tx.value,
                    outcome == Adopted, updated);
    }
    assert AppliedAs(cfg, b, c, source, hash, ev, to, correct, outcome, updated, id, row.tx);
  }

  /** A row waits on a card whatever the case of the card's name. */
  lemma OnCardExactly(ledger: map<Id, Row>, r: Id, source: Id, card: string)
    ensures OnCard(ledger, r, source, card) <==>
      r in ledger && ledger[r].source == source && ledger[r].status == Queued && SameText(ledger[r].card, card)
    ensures r in QueuedOn(ledger, source, card) <==> OnCard(ledger, r, source, card)
  {
    if r in ledger {
      LowerAllSame(ledger[r].card, card);
    }
  }
}
