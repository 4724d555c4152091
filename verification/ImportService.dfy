/** The import pipeline's code: each method is one transaction over the ledger. */
module ImportService {
  import opened Prelude
  import opened ImportLedger
  import Calendar
  import M = ImportMatcher

  /** A parsed external transaction. */
  datatype Incoming = Incoming(card: string, ext: string, kind: nat, amount: int, posted: Calendar.Time, payee: string,
                               description: string)

  /** Where an event goes: nowhere yet, nowhere at all (by a rule, or because its card is ignored), or to an account, in
      that account's currency. */
  datatype Resolution = ToQueue | ToSkip(byRule: bool) | ToAccount(amount: int, account: Id)

  datatype Outcome = Created | Adopted | Waiting | Passed | Duplicate

  datatype Counters = Counters(imported: nat, matched: nat, skipped: nat, failed: nat, queued: nat, updated: nat)

  /** An inbox event is known by its source and payload. */
  datatype Inbox = Inbox(source: Id, hash: nat)

  /**
   * A fetched row: its payload, what it parses to if it does, where that would go, and whether the store breaks on it.
   */
  datatype Pulled = Pulled(hash: nat, parsed: Option<Incoming>, to: Resolution, breaks: bool)

  function KeyFor(source: Id, ev: Incoming): Key {
    Key(source, M.LowerAll(ev.card), ev.ext)
  }

  function EventFor(ev: Incoming, amount: int): M.Event {
    M.Event(amount, ev.posted, ev.kind, ev.payee, ev.description)
  }

  function RowsOfTx(ledger: map<Id, Row>, tx: Id): set<Id> {
    set r | r in ledger && ledger[r].tx == Some(tx)
  }

  /** A ledger row as the matcher sees it. */
  function LinkOf(b: Books, r: Id): M.Link
    requires r in b.ledger
  {
    var row := b.ledger[r];
    M.Link(row.source, row.source in b.sources && b.sources[row.source], row.amount, row.payee)
  }

  ghost predicate ShowsRows(b: Books, c: M.Candidate, rows: seq<Id>) {
    && (forall i, j :: 0 <= i < j < |rows| ==> rows[i] != rows[j])
    && (forall r :: r in rows <==> r in RowsOfTx(b.ledger, c.tx))
    && |c.links| == |rows| && forall i :: 0 <= i < |rows| ==> rows[i] in b.ledger && c.links[i] == LinkOf(b, rows[i])
  }

  /** A candidate's links are the ledger rows that point at it, each once and as it is stored. */
  ghost predicate Faithful(b: Books, c: M.Candidate) {
    exists rows :: ShowsRows(b, c, rows)
  }

  /** The candidate is this transaction, as it is stored. */
  ghost predicate Shows(txs: map<Id, Tx>, c: M.Candidate, t: Id) {
    t in txs && c == M.Candidate(t, txs[t].kind, txs[t].amount, txs[t].spent, c.links)
  }

  /** The candidates are the listed transactions with their ledger rows. */
  ghost predicate Candidates(b: Books, listed: seq<Id>, candidates: seq<M.Candidate>) {
    && |candidates| == |listed|
    && forall n :: 0 <= n < |listed| ==> Shows(b.txs, candidates[n], listed[n]) && Faithful(b, candidates[n])
  }

  lemma LinkedFromSource(b: Books, c: M.Candidate, source: Id)
    requires Faithful(b, c)
    ensures M.LinkedFrom(c, source) <==> exists r :: r in b.ledger && b.ledger[r].tx == Some(c.tx)
                                                     && b.ledger[r].source == source
  {
    var rows :| ShowsRows(b, c, rows);
    if k :| 0 <= k < |c.links| && c.links[k].source == source {
      assert rows[k] in rows;
      assert rows[k] in RowsOfTx(b.ledger, c.tx) && b.ledger[rows[k]].source == source;
    }
    if r :| r in b.ledger && b.ledger[r].tx == Some(c.tx) && b.ledger[r].source == source {
      assert r in RowsOfTx(b.ledger, c.tx);
      var k :| 0 <= k < |rows| && rows[k] == r;
      assert c.links[k].source == source;
    }
  }

  /** The account's transactions spent in a half-open interval, as source or recipient. */
  function ListByAccount(txs: map<Id, Tx>, account: Id, from: Calendar.Time, until: Calendar.Time): set<Id> {
    set t | t in txs && (txs[t].account == account || txs[t].recipient == Some(account)) && from <= txs[t].spent < until
  }

  /**
   * The interval searched around an event: as many days either way as the wider of the two windows, and one more after.
   */
  function Nearby(cfg: M.Config, txs: map<Id, Tx>, account: Id, at: Calendar.Time): set<Id> {
    var window := if cfg.tipDays > cfg.matchDays then cfg.tipDays else cfg.matchDays;
    ListByAccount(txs, account, at - window * Calendar.DAY, at + (window + 1) * Calendar.DAY)
  }

  class Importer {
    const cfg: M.Config
    var sources: map<Id, bool>
    var txs: map<Id, Tx>
    var ledger: map<Id, Row>
    var inbox: set<Inbox>
    ghost var known: set<Id>
    ghost var links: seq<Key>

    ghost function State(): Books
      reads this
    {
      Books(sources, txs, ledger, known, links)
    }

    constructor (cfg: M.Config)
      ensures this.cfg == cfg && Sound(State())
    {
      this.cfg := cfg;
      sources, txs, ledger, inbox, known, links := map[], map[], map[], {}, {}, [];
    }

    /** The ledger row of a key; card names fold case. */
    method FindRow(k: Key) returns (found: Option<Id>)
      ensures found.Some? ==> found.value in ledger && KeyOf(ledger[found.value]) == k
      ensures found.None? ==> forall r :: r in ledger ==> KeyOf(ledger[r]) != k
    {
      var rows := set r | r in ledger && KeyOf(ledger[r]) == k;
      if rows == {} {
        assert forall r :: r in ledger && KeyOf(ledger[r]) == k ==> r in rows;
        return None;
      }
      var r :| r in rows;
      found := Some(r);
    }

    method CandidateFor(t: Id) returns (c: M.Candidate)
      requires t in txs && forall r :: r in ledger ==> ledger[r].source in sources
      ensures Shows(txs, c, t) && Faithful(State(), c)
    {
      var out: seq<M.Link> := [];
      ghost var listed: seq<Id> := [];
      var rows := RowsOfTx(ledger, t);
      var rest := rows;
      while rest != {}
        invariant rest <= rows
        invariant forall i, j :: 0 <= i < j < |listed| ==> listed[i] != listed[j]
        invariant forall r :: r in listed <==> r in rows && r !in rest
        invariant |out| == |listed| && forall i :: 0 <= i < |listed| ==>
                    listed[i] in ledger && out[i] == LinkOf(State(), listed[i])
      {
        var r :| r in rest;
        rest := rest - {r};
        assert forall i :: 0 <= i < |listed| ==> listed[i] in listed;
        out := out + [M.Link(ledger[r].source, sources[ledger[r].source], ledger[r].amount, ledger[r].payee)];
        listed := listed + [r];
      }
      c := M.Candidate(t, txs[t].kind, txs[t].amount, txs[t].spent, out);
      assert ShowsRows(State(), c, listed);
    }

    method ListCandidates(listed: seq<Id>) returns (out: seq<M.Candidate>)
      requires References(State()) && forall n :: 0 <= n < |listed| ==> listed[n] in txs
      ensures Candidates(State(), listed, out)
    {
      out := [];
      for n := 0 to |listed|
        invariant Candidates(State(), listed[..n], out)
      {
        hide Faithful;
        var c := CandidateFor(listed[n]);
        out := out + [c];
      }
      assert listed[..|listed|] == listed;
    }

    /**
     * Adopts the transaction the matcher recognises, correcting a tap-time amount where asked to, or makes a new one.
     */
    method Place(source: Id, ev: Incoming, amount: int, account: Id, correct: bool)
      returns (tx: Id, adopted: bool, updated: bool)
      requires References(State())
      modifies `txs
      ensures Placed(cfg, old(State()), txs, source, ev, Destination(amount, account, correct), tx, adopted, updated)
      ensures Unclaimed(State(), source, tx) && tx in txs && old(txs).Keys <= txs.Keys
    {
      ghost var b := State();
      var ids := Sorted(Nearby(cfg, txs, account, ev.posted));
      assert forall n :: 0 <= n < |ids| ==> ids[n] in ids;
      var candidates := ListCandidates(ids);
      var m := M.Match(EventFor(ev, amount), source, candidates, cfg);
      hide Faithful, M.Matched;
      adopted, updated := m != M.Create, false;
      if adopted {
        MatchedUnclaimed(b, source, EventFor(ev, amount), cfg, ids, candidates, m);
        tx := m.tx;
        if correct && m.TipAdopt? && m.correctAmount {
          txs := txs[tx := txs[tx].(amount := amount)];
          updated := true;
        }
      } else {
        tx := NextIdentity(txs.Keys);
        txs := txs[tx := Tx(account, None, ev.kind, amount, ev.posted)];
      }
      assert PlacedBy(cfg, b, txs, source, ev, Destination(amount, account, correct), tx, adopted, updated, ids,
                      candidates, m);
    }

    /** The row a new key gets, its transaction placed if it has an account to go to. */
    method NewLink(source: Id, hash: nat, ev: Incoming, to: Resolution, correct: bool)
      returns (row: Row, outcome: Outcome, updated: bool)
      requires References(State()) && source in sources
      modifies `txs
      ensures RowFor(cfg, old(State()), txs, source, hash, ev, to, correct, row, outcome, updated)
      ensures row.tx.Some? ==> row.tx.value in txs && Unclaimed(State(), source, row.tx.value)
      ensures old(txs).Keys <= txs.Keys
    {
      updated := false;
      row := Row(source, ev.card, ev.ext, Queued, None, ev.amount, ev.payee, hash);
      hide Placed;
      match to {
        case ToQueue =>
          outcome := Waiting;
        case ToSkip(byRule) =>
          row := row.(status := Skipped);
          outcome := Passed;
        case ToAccount(amount, account) =>
          var tx, adopted;
          tx, adopted, updated := Place(source, ev, amount, account, correct);
          row := row.(status := Linked, tx := Some(tx));
          outcome := if adopted then Adopted else Created;
      }
    }

    /** One parsed event against the ledger. A key already there is a duplicate or still waiting, and changes nothing;
        a new one leaves exactly one row. */
    method ApplyEvent(source: Id, hash: nat, ev: Incoming, to: Resolution, correct: bool)
      returns (outcome: Outcome, updated: bool)
      requires References(State()) && source in sources
      modifies `ledger, `txs, `links
      ensures Reaches(old(State()), State())
      ensures Taken(cfg, old(State()), State(), source, hash, ev, to, correct, outcome, updated)
      ensures old(txs).Keys <= txs.Keys
    {
      hide Reaches, Insertable, Unclaimed, Placed;
      ghost var b0 := State();
      var existing := FindRow(KeyFor(source, ev));
      if existing.Some? {
        ReachesRefl(b0);
        assert RowAt(ledger, existing.value, KeyFor(source, ev));
        return (if ledger[existing.value].status == Queued then Waiting else Duplicate), false;
      }
      var id := NextIdentity(ledger.Keys);
      var row;
      row, outcome, updated := NewLink(source, hash, ev, to, correct);
      ghost var b1 := State();
      TxStep(b0, txs);
      RowForKey(cfg, b0, txs, source, hash, ev, to, correct, row, outcome, updated);
      assert Insertable(b1, id, row) by { NewRowFits(b1, id, row); }
      hide RowFor;
      ledger := ledger[id := row];
      if row.status == Linked {
        links := links + [KeyFor(source, ev)];
      }
      InsertStep(b1, id, row);
      assert b1.links + [] == b1.links;
      assert State() == Inserted(b1, id, row);
      ReachesTrans(b0, b1, State());
      assert NewRow(b0.ledger, ledger, row);
    }

    /** A pushed payload: stored once, then parsed and applied; one that does not parse is kept as failed. */
    method Ingest(source: Id, hash: nat, parsed: Option<Incoming>, to: Resolution) returns (outcome: Option<Outcome>)
      requires References(State()) && source in sources
      modifies `ledger, `txs, `links, `inbox
      ensures Reaches(old(State()), State())
      ensures Inbox(source, hash) in old(inbox) ==> outcome == Some(Duplicate) && State() == old(State())
      ensures inbox == old(inbox) + {Inbox(source, hash)}
      ensures Inbox(source, hash) !in old(inbox) ==>
        if parsed.None? then outcome == None && State() == old(State())
        else outcome.Some? && Taken(cfg, old(State()), State(), source, hash, parsed.value, to, false, outcome.value,
                                    false)
    {
      if Inbox(source, hash) in inbox {
        ReachesRefl(State());
        return Some(Duplicate);
      }
      inbox := inbox + {Inbox(source, hash)};
      outcome := ProcessEvent(source, hash, parsed, to);
    }

    /** Parse and apply one stored event: the push path, and a retry of a failed one. */
    method ProcessEvent(source: Id, hash: nat, parsed: Option<Incoming>, to: Resolution)
      returns (outcome: Option<Outcome>)
      requires References(State()) && source in sources
      modifies `ledger, `txs, `links
      ensures Reaches(old(State()), State())
      ensures if parsed.None? then outcome == None && State() == old(State())
        else outcome.Some? && Taken(cfg, old(State()), State(), source, hash, parsed.value, to, false, outcome.value,
                                    false)
    {
      if parsed.None? {
        ReachesRefl(State());
        return None;
      }
      hide Reaches, Taken;
      ghost var held := State();
      var o, updated := ApplyEvent(source, hash, parsed.value, to, false);
      NeverUpdates(cfg, held, State(), source, hash, parsed.value, to, o, updated);
      outcome := Some(o);
    }

    /** One account's rows in one transaction; when the store breaks, rows and counters go back to what they were. */
    method SyncAccount(source: Id, rows: seq<Pulled>, run: Counters)
      returns (ok: bool, after: Counters, duplicates: nat)
      requires Sound(State()) && source in sources
      modifies `ledger, `txs, `links, `inbox
      ensures Reaches(old(State()), State())
      ensures !ok ==> State() == old(State()) && inbox == old(inbox) && after == run
      ensures ok ==> Tally(after) + duplicates == Tally(run) + |rows|
                     && after.updated - run.updated <= after.matched - run.matched
      ensures ok ==> old(links) <= links && |links| - |old(links)| == (after.imported - run.imported)
                                            + (after.matched - run.matched)
      ensures ok ==> Rows(ledger, Linked) == Rows(old(ledger), Linked) + (after.imported - run.imported)
                                             + (after.matched - run.matched)
      ensures ok ==> Rows(ledger, Skipped) == Rows(old(ledger), Skipped) + (after.skipped - run.skipped)
      ensures ok ==> Rows(ledger, Queued) - Rows(old(ledger), Queued) <= after.queued - run.queued
      ensures ok <==> forall n :: 0 <= n < |rows| ==> !rows[n].breaks
      ensures ok ==> inbox == old(inbox) + Payloads(source, rows)
    {
      hide Sound, References, Reaches, Taken, Rows;
      ghost var b0 := State();
      var savedTxs, savedLedger, savedInbox := txs, ledger, inbox;
      ghost var savedLinks := links;
      after, duplicates := run, 0;
      ReachesRefl(b0);
      for n := 0 to |rows|
        invariant Reaches(b0, State()) && sources == old(sources) && known == old(known)
        invariant savedLinks <= links && |links| - |savedLinks| == (after.imported - run.imported)
                                         + (after.matched - run.matched)
        invariant Tally(after) + duplicates == Tally(run) + n
        invariant Rows(ledger, Linked) == Rows(savedLedger, Linked) + (after.imported - run.imported)
                                          + (after.matched - run.matched)
        invariant Rows(ledger, Skipped) == Rows(savedLedger, Skipped) + (after.skipped - run.skipped)
        invariant Rows(ledger, Queued) - Rows(savedLedger, Queued) <= after.queued - run.queued
        invariant run.updated <= after.updated && after.updated - run.updated <= after.matched - run.matched
        invariant inbox == old(inbox) + Payloads(source, rows[..n])
        invariant forall j :: 0 <= j < n ==> !rows[j].breaks
      {
        assert rows[..n + 1] == rows[..n] + [rows[n]];
        ghost var held := State();
        if rows[n].breaks {
          txs, ledger, inbox, links := savedTxs, savedLedger, savedInbox, savedLinks;
          ReachesRefl(b0);
          return false, run, 0;
        }
        if Inbox(source, rows[n].hash) in inbox {
          duplicates := duplicates + 1;
          continue;
        }
        inbox := inbox + {Inbox(source, rows[n].hash)};
        if rows[n].parsed.None? {
          after := after.(failed := after.failed + 1);
          continue;
        }
        hide Payloads;
        ReachesSound(b0, held);
        var outcome, updated := ApplyEvent(source, rows[n].hash, rows[n].parsed.value, rows[n].to, true);
        ReachesTrans(b0, held, State());
        SyncTaken(cfg, held, State(), source, rows[n].hash, rows[n].parsed.value, rows[n].to, outcome, updated);
        RowsTaken(cfg, held, State(), source, rows[n].hash, rows[n].parsed.value, rows[n].to, outcome, updated);
        after := Counted(after, outcome, updated);
        if outcome == Duplicate {
          duplicates := duplicates + 1;
        }
      }
      assert rows[..|rows|] == rows;
      ok := true;
    }

    /**
     * A mapped card's queued rows, re-read and resolved now that it has a destination: each ends as its own verdict
     * says. Nothing else in the ledger moves.
     */
    method ConvertQueued(source: Id, card: string, verdicts: map<Id, Verdict>) returns (run: Counters)
      requires Sound(State()) && source in sources
      modifies `ledger, `txs, `links
      ensures Reaches(old(State()), State())
      ensures ledger.Keys == old(ledger).Keys
      ensures forall r :: r in ledger ==>
        if OnCard(old(ledger), r, source, card) then
          Converted(old(ledger)[r], ledger[r], if r in verdicts then verdicts[r] else Unreadable)
        else ledger[r] == old(ledger)[r]
      ensures |links| - |old(links)| == run.imported + run.matched && old(links) <= links
      ensures run.imported + run.matched + run.skipped == |QueuedOn(old(ledger), source, card)|
      ensures run.failed == run.queued == run.updated == 0
    {
      hide Reaches, Sound, References, OnCard, QueuedOn, KeyOf, M.LowerAll, Unmoved, Converted, VerdictOn, Placed;
      ghost var b0 := State();
      var rows := QueuedOn(ledger, source, card);
      OnlyQueued(ledger, source, card);
      var rest := rows;
      run := Counters(0, 0, 0, 0, 0, 0);
      ReachesRefl(b0);
      assert rows - rest == {};
      NoneMoved(ledger);
      while rest != {}
        invariant rest <= rows && Converting(b0, State(), rows - rest, run, verdicts)
      {
        hide Converting, Counted;
        var id :| id in rest;
        ghost var held, done := State(), rows - rest;
        var to := VerdictOn(verdicts, id);
        ConvertReady(b0, held, done, run, id, source, card, verdicts);
        var linked, adopted := ConvertOne(id, to);
        ConvertNext(b0, held, State(), done, run, id, linked, adopted, verdicts);
        run := Counted(run, if !linked then Passed else if adopted then Adopted else Created, false);
        assert rows - (rest - {id}) == done + {id};
        rest := rest - {id};
      }
      assert rows - rest == rows;
      MovedOnly(b0.ledger, ledger, rows);
      ReadOnly(verdicts);
    }

    /** One queued row: linked if it can be placed, skipped if a rule says so, else left waiting. */
    method ConvertOne(id: Id, to: Verdict) returns (linked: bool, adopted: bool)
      requires References(State()) && id in ledger && ledger[id].status == Queued && ledger[id].source in sources
      modifies `ledger, `txs, `links
      ensures Reaches(old(State()), State())
      ensures Unmoved(old(ledger), ledger, {id}) && id in ledger && Converted(old(ledger)[id], ledger[id], to)
      ensures linked <==> ledger[id].status == Linked
      ensures links == if linked then old(links) + [KeyOf(old(ledger)[id])] else old(links)
      ensures linked ==> Placed(cfg, old(State()), txs, old(ledger)[id].source, to.ev,
                                Destination(to.to.amount, to.to.account, false),
                                ledger[id].tx.value, adopted, false)
      ensures !linked ==> txs == old(txs)
    {
      ghost var b0 := State();
      linked, adopted := false, false;
      hide Placed;
      if to.Unreadable? || to.to == ToQueue || to.to == ToSkip(false) {
        ReachesRefl(b0);
        return;
      }
      if to.to == ToSkip(true) {
        FlipStep(b0, id, Skipped);
        ledger := ledger[id := ledger[id].(status := Skipped)];
        return;
      }
      var tx, updated;
      tx, adopted, updated := Place(ledger[id].source, to.ev, to.to.amount, to.to.account, false);
      PlainPlace(cfg, b0, txs, ledger[id].source, to.ev, Destination(to.to.amount, to.to.account, false), tx, adopted,
                 updated);
      hide Reaches, Unclaimed;
      ghost var b1 := State();
      TxStep(b0, txs);
      LinkStep(b1, id, tx);
      ledger := ledger[id := ledger[id].(status := Linked, tx := Some(tx))];
      links := links + [KeyOf(b0.ledger[id])];
      linked := true;
      ReachesTrans(b0, b1, State());
    }

    /** Ignoring a card skips everything queued on it. */
    method IgnoreAccount(source: Id, card: string)
      modifies `ledger
      ensures Reaches(old(State()), State())
      ensures ledger.Keys == old(ledger).Keys
      ensures forall r :: r in ledger ==>
        ledger[r] == if OnCard(old(ledger), r, source, card) then old(ledger)[r].(status := Skipped) else old(ledger)[r]
    {
      ghost var b0 := State();
      var rest := QueuedOn(ledger, source, card);
      ReachesRefl(b0);
      while rest != {}
        invariant rest <= QueuedOn(old(ledger), source, card) && Reaches(b0, State()) && ledger.Keys == old(ledger).Keys
        invariant forall r :: r in ledger ==>
          ledger[r] == if OnCard(old(ledger), r, source, card) && r !in rest then old(ledger)[r].(status := Skipped)
                       else old(ledger)[r]
      {
        hide Reaches;
        var id :| id in rest;
        ghost var held := State();
        rest := rest - {id};
        FlipStep(held, id, Skipped);
        ledger := ledger[id := ledger[id].(status := Skipped)];
        ReachesTrans(b0, held, State());
      }
    }

    /**
     * Forgetting a card drops what is queued on it, inbox events included, so that the same payloads may come again;
     * what was linked or skipped stays as the memory of it.
     */
    method UnlinkAccount(source: Id, card: string)
      modifies `ledger, `inbox
      ensures Reaches(old(State()), State())
      ensures ledger == old(ledger) - QueuedOn(old(ledger), source, card)
      ensures forall e :: e in inbox <==> e in old(inbox) && !exists r ::
                OnCard(old(ledger), r, source, card) && e == Inbox(source, old(ledger)[r].event)
    {
      hide Reaches;
      var rows := QueuedOn(ledger, source, card);
      var events := set r | r in rows :: Inbox(source, ledger[r].event);
      DeleteStep(State(), rows);
      ledger := ledger - rows;
      inbox := inbox - events;
    }

    /** The user imports a waiting row by hand; the transaction is always a new one. */
    method ImportQueuedEvent(id: Id, tx: Tx) returns (ok: bool, t: Id)
      requires References(State())
      modifies `ledger, `txs, `links
      ensures Reaches(old(State()), State())
      ensures ok <==> id in old(ledger) && old(ledger)[id].status != Linked
      ensures !ok ==> State() == old(State())
      ensures ok ==> t !in old(txs) && txs == old(txs)[t := tx]
      ensures ok ==> ledger == old(ledger)[id := old(ledger)[id].(status := Linked, tx := Some(t))]
    {
      ghost var b0 := State();
      if id !in ledger || (ledger[id].status != Queued && ledger[id].status != Skipped) {
        ReachesRefl(b0);
        return false, 0;
      }
      t := NextIdentity(txs.Keys);
      txs := txs[t := tx];
      ghost var b1 := State();
      TxStep(b0, txs);
      LinkStep(b1, id, t);
      links := links + [KeyOf(ledger[id])];
      ledger := ledger[id := ledger[id].(status := Linked, tx := Some(t))];
      ReachesTrans(b0, b1, State());
      ok := true;
    }

    /** Skipping a queued row and taking a skipped one back are one move with its ends exchanged. */
    method FlipLink(id: Id, from: Status, to: Status) returns (ok: bool)
      requires (from == Queued && to == Skipped) || (from == Skipped && to == Queued)
      modifies `ledger
      ensures Reaches(old(State()), State())
      ensures ok <==> id in old(ledger) && old(ledger)[id].status == from
      ensures ledger == if ok then old(ledger)[id := old(ledger)[id].(status := to)] else old(ledger)
    {
      ok := id in ledger && ledger[id].status == from;
      if ok {
        FlipStep(State(), id, to);
        ledger := ledger[id := ledger[id].(status := to)];
      } else {
        ReachesRefl(State());
      }
    }

    /** The user deletes a transaction; the ledger remembers it was imported. */
    method DeleteTransaction(tx: Id)
      modifies `ledger, `txs
      ensures Reaches(old(State()), State())
      ensures State() == TxDeleted(old(State()), tx)
      ensures txs == old(txs) - {tx} && ledger.Keys == old(ledger).Keys
      ensures forall r :: r in ledger ==>
        ledger[r] == if old(ledger)[r].tx == Some(tx) then old(ledger)[r].(tx := None) else old(ledger)[r]
    {
      DeleteTxStep(State(), tx);
      txs := txs - {tx};
      ledger := map r | r in ledger :: if ledger[r].tx == Some(tx) then ledger[r].(tx := None) else ledger[r];
    }

    method ConnectSource(source: Id, push: bool)
      requires source !in known
      modifies `sources, `known
      ensures Reaches(old(State()), State()) && State() == SourceAdded(old(State()), source, push)
      ensures sources == old(sources)[source := push]
    {
      AddSourceStep(State(), source, push);
      sources := sources[source := push];
      known := known + {source};
    }

    /** A source goes with its rows and its inbox; the transactions stay. */
    method DeleteSource(source: Id)
      modifies `sources, `ledger, `inbox
      ensures Reaches(old(State()), State()) && State() == SourceDeleted(old(State()), source)
      ensures sources == old(sources) - {source}
      ensures forall r :: r in ledger <==> r in old(ledger) && old(ledger)[r].source != source
      ensures forall r :: r in ledger ==> ledger[r] == old(ledger)[r]
      ensures forall e :: e in inbox <==> e in old(inbox) && e.source != source
    {
      inbox := set e | e in inbox && e.source != source;
      DeleteSourceStep(State(), source);
      sources := sources - {source};
      ledger := map r | r in ledger && ledger[r].source != source :: ledger[r];
    }
  }

  /** A queued row's inbox event, read again: gone or unreadable, or parsed and resolved. */
  datatype Verdict = Unreadable | Readable(ev: Incoming, to: Resolution)

  function VerdictOn(verdicts: map<Id, Verdict>, r: Id): Verdict {
    if r in verdicts then verdicts[r] else Unreadable
  }

  lemma ReadOnly(verdicts: map<Id, Verdict>)
    ensures forall r :: VerdictOn(verdicts, r) == if r in verdicts then verdicts[r] else Unreadable
  {
  }

  /** A queued row after its conversion: linked where it has an account to go to, skipped by a rule, else as it was. */
  predicate Converted(before: Row, after: Row, v: Verdict) {
    if v.Readable? && v.to.ToAccount? then after.tx.Some? && after == before.(status := Linked, tx := after.tx)
    else if v.Readable? && v.to == ToSkip(true) then after == before.(status := Skipped)
    else after == before
  }

  lemma PlainPlace(cfg: M.Config, b: Books, txs: map<Id, Tx>, source: Id, ev: Incoming, to: Destination, tx: Id,
                   adopted: bool, updated: bool)
    requires Placed(cfg, b, txs, source, ev, to, tx, adopted, updated) && !to.correct
    ensures !updated
  {
    hide Candidates, M.Matched;
  }

  /** A row waiting on the card, whatever the case of its name. */
  predicate OnCard(ledger: map<Id, Row>, r: Id, source: Id, card: string) {
    && r in ledger && ledger[r].source == source && ledger[r].status == Queued
    && M.LowerAll(ledger[r].card) == M.LowerAll(card)
  }

  /** The same rows, all but the named ones as they were. */
  ghost predicate Unmoved(before: map<Id, Row>, after: map<Id, Row>, moved: set<Id>) {
    after.Keys == before.Keys && forall r :: r in before && r !in moved ==> after[r] == before[r]
  }

  lemma OnlyQueued(ledger: map<Id, Row>, source: Id, card: string)
    ensures forall r :: r in QueuedOn(ledger, source, card) <==> OnCard(ledger, r, source, card)
  {
  }

  /** Part of a card's queued rows are converted, and counted. */
  ghost predicate Converting(b0: Books, b: Books, done: set<Id>, run: Counters, verdicts: map<Id, Verdict>) {
    && Reaches(b0, b) && Unmoved(b0.ledger, b.ledger, done) && b.sources == b0.sources && b.known == b0.known
    && b0.links <= b.links && |b.links| - |b0.links| == run.imported + run.matched
    && run.imported + run.matched + run.skipped == |done| && run.failed == run.queued == run.updated == 0
    && forall r :: r in done && r in b0.ledger && r in b.ledger ==>
        Converted(b0.ledger[r], b.ledger[r], VerdictOn(verdicts, r))
  }

  lemma NoneMoved(ledger: map<Id, Row>)
    ensures Unmoved(ledger, ledger, {})
  {
  }

  lemma MovedOnly(before: map<Id, Row>, after: map<Id, Row>, moved: set<Id>)
    requires Unmoved(before, after, moved)
    ensures after.Keys == before.Keys && forall r :: r in after && r !in moved ==> after[r] == before[r]
  {
  }

  lemma ConvertReady(b0: Books, b: Books, done: set<Id>, run: Counters, id: Id, source: Id, card: string,
                     verdicts: map<Id, Verdict>)
    requires Sound(b0) && Converting(b0, b, done, run, verdicts) && id !in done
             && id in QueuedOn(b0.ledger, source, card) && source in b0.sources
    ensures References(b) && id in b.ledger && b.ledger[id].status == Queued && b.ledger[id].source in b.sources
    ensures id in b0.ledger && b.ledger[id] == b0.ledger[id]
  {
    ReachesSound(b0, b);
    hide Reaches, Sound, References, Converted;
    QueuedRow(b0.ledger, id, source, card);
    StillThere(b0.ledger, b.ledger, done, id);
  }

  lemma ConvertNext(b0: Books, b: Books, c: Books, done: set<Id>, run: Counters, id: Id, linked: bool, adopted: bool,
                    verdicts: map<Id, Verdict>)
    requires Converting(b0, b, done, run, verdicts) && id !in done && Reaches(b, c) && Unmoved(b.ledger, c.ledger, {id})
    requires c.sources == b.sources && c.known == b.known && id in b.ledger && id in b0.ledger
             && b.ledger[id] == b0.ledger[id]
    requires id in c.ledger && Converted(b.ledger[id], c.ledger[id], VerdictOn(verdicts, id))
    requires c.links == if linked then b.links + [KeyOf(b.ledger[id])] else b.links
    ensures Converting(b0, c, done + {id},
                       Counted(run, if !linked then Passed else if adopted then Adopted else Created, false), verdicts)
  {
    ConvertedSoFar(b0.ledger, b.ledger, c.ledger, done, id, verdicts);
    hide Reaches, Unmoved, Converted;
    ReachesTrans(b0, b, c);
    OneMoved(b0.ledger, b.ledger, c.ledger, done, id);
  }

  lemma ConvertedSoFar(a: map<Id, Row>, b: map<Id, Row>, c: map<Id, Row>, done: set<Id>, id: Id,
                       verdicts: map<Id, Verdict>)
    requires Unmoved(a, b, done) && Unmoved(b, c, {id}) && id !in done && id in a && id in c
             && Converted(a[id], c[id], VerdictOn(verdicts, id))
    requires forall r :: r in done && r in a && r in b ==> Converted(a[r], b[r], VerdictOn(verdicts, r))
    ensures forall r :: r in done + {id} && r in a && r in c ==> Converted(a[r], c[r], VerdictOn(verdicts, r))
  {
    hide Converted;
  }

  lemma StillThere(before: map<Id, Row>, after: map<Id, Row>, moved: set<Id>, id: Id)
    requires Unmoved(before, after, moved) && id in before && id !in moved
    ensures id in after && after[id] == before[id]
  {
  }

  lemma OneMoved(a: map<Id, Row>, b: map<Id, Row>, c: map<Id, Row>, moved: set<Id>, id: Id)
    requires Unmoved(a, b, moved) && Unmoved(b, c, {id})
    ensures Unmoved(a, c, moved + {id})
  {
  }

  lemma QueuedRow(ledger: map<Id, Row>, r: Id, source: Id, card: string)
    requires r in QueuedOn(ledger, source, card)
    ensures r in ledger && ledger[r].status == Queued && ledger[r].source == source
  {
  }

  function QueuedOn(ledger: map<Id, Row>, source: Id, card: string): set<Id> {
    set r | r in ledger && OnCard(ledger, r, source, card)
  }

  function Payloads(source: Id, rows: seq<Pulled>): set<Inbox> {
    set p | p in rows :: Inbox(source, p.hash)
  }

  function Counted(run: Counters, outcome: Outcome, updated: bool): Counters {
    match outcome
    case Created => run.(imported := run.imported + 1)
    case Adopted => run.(matched := run.matched + 1, updated := if updated then run.updated + 1 else run.updated)
    case Waiting => run.(queued := run.queued + 1)
    case Passed => run.(skipped := run.skipped + 1)
    case Duplicate => run
  }

  function RowsWith(ledger: map<Id, Row>, status: Status): set<Id> {
    set r | r in ledger && ledger[r].status == status
  }

  /** How many of the ledger's rows have a status. */
  function Rows(ledger: map<Id, Row>, status: Status): nat {
    |RowsWith(ledger, status)|
  }

  lemma RowsGrow(ledger: map<Id, Row>, id: Id, row: Row, status: Status)
    requires id !in ledger
    ensures Rows(ledger[id := row], status) == Rows(ledger, status) + if row.status == status then 1 else 0
  {
    var before := RowsWith(ledger, status);
    assert RowsWith(ledger[id := row], status) == if row.status == status then before + {id} else before;
  }

  /** One event adds at most one row, and its outcome says with which status. */
  lemma RowsTaken(cfg: M.Config, b: Books, c: Books, source: Id, hash: nat, ev: Incoming, to: Resolution,
                  outcome: Outcome, updated: bool)
    requires Taken(cfg, b, c, source, hash, ev, to, true, outcome, updated)
    ensures Rows(c.ledger, Linked) == Rows(b.ledger, Linked) + if outcome in {Created, Adopted} then 1 else 0
    ensures Rows(c.ledger, Skipped) == Rows(b.ledger, Skipped) + if outcome == Passed then 1 else 0
    ensures Rows(c.ledger, Queued) <= Rows(b.ledger, Queued) + if outcome == Waiting then 1 else 0
  {
    hide Placed, RowAt, KeyFor, Rows;
    if !exists r :: RowAt(b.ledger, r, KeyFor(source, ev)) {
      var row :| RowFor(cfg, b, c.txs, source, hash, ev, to, true, row, outcome, updated)
        && NewRow(b.ledger, c.ledger, row);
      var id: Id :| id !in b.ledger && c.ledger == b.ledger[id := row];
      RowsGrow(b.ledger, id, row, Linked);
      RowsGrow(b.ledger, id, row, Skipped);
      RowsGrow(b.ledger, id, row, Queued);
    }
  }

  function Tally(c: Counters): nat {
    c.imported + c.matched + c.skipped + c.failed + c.queued
  }

  lemma SyncTaken(cfg: M.Config, b: Books, c: Books, source: Id, hash: nat, ev: Incoming, to: Resolution,
                  outcome: Outcome, updated: bool)
    requires Taken(cfg, b, c, source, hash, ev, to, true, outcome, updated)
    ensures c.links == (if outcome in {Created, Adopted} then b.links + [KeyFor(source, ev)] else b.links)
    ensures updated ==> outcome == Adopted
    ensures c.sources == b.sources && c.known == b.known
  {
    hide Candidates, M.Matched, NewRow;
  }

  lemma NeverUpdates(cfg: M.Config, b: Books, c: Books, source: Id, hash: nat, ev: Incoming, to: Resolution,
                     outcome: Outcome, updated: bool)
    requires Taken(cfg, b, c, source, hash, ev, to, false, outcome, updated)
    ensures !updated
  {
    hide NewRow;
  }

  lemma NewRowFits(b: Books, id: Id, row: Row)
    requires id !in b.ledger && row.source in b.sources
    requires forall r :: r in b.ledger ==> KeyOf(b.ledger[r]) != KeyOf(row)
    requires row.tx.Some? <==> row.status == Linked
    requires row.tx.Some? ==> row.tx.value in b.txs && Unclaimed(b, row.source, row.tx.value)
    ensures Insertable(b, id, row)
  {
  }

  /** Where a placed event goes, and whether an adopted tap's amount may be corrected. */
  datatype Destination = Destination(amount: int, account: Id, correct: bool)

  /** The matcher's decision over the account's nearby transactions, in id order, and what it does to them. */
  ghost predicate PlacedBy(cfg: M.Config, b: Books, txs: map<Id, Tx>, source: Id, ev: Incoming, to: Destination, tx: Id,
                           adopted: bool,
                           updated: bool, listed: seq<Id>, seen: seq<M.Candidate>, decision: M.Result) {
    && Increasing(listed) && (forall t :: t in listed <==> t in Nearby(cfg, b.txs, to.account, ev.posted))
    && Candidates(b, listed, seen) && M.Matched(EventFor(ev, to.amount), source, cfg, seen, decision)
    && (adopted <==> decision != M.Create)
    && (updated <==> to.correct && decision.TipAdopt? && decision.correctAmount)
    && (adopted ==> tx == decision.tx && tx in b.txs
                    && txs == if updated then b.txs[tx := b.txs[tx].(amount := to.amount)] else b.txs)
    && (!adopted ==> tx !in b.txs && txs == b.txs[tx := Tx(to.account, None, ev.kind, to.amount, ev.posted)])
  }

  ghost predicate Placed(cfg: M.Config, b: Books, txs: map<Id, Tx>, source: Id, ev: Incoming, to: Destination, tx: Id,
                         adopted: bool,
                         updated: bool) {
    exists listed, seen, decision :: PlacedBy(cfg, b, txs, source, ev, to, tx, adopted, updated, listed, seen, decision)
  }

  /** The row of a new key: what the event said, waiting, passed over, or linked to where it was placed. */
  ghost predicate RowFor(cfg: M.Config, b: Books, txs: map<Id, Tx>, source: Id, hash: nat, ev: Incoming, to: Resolution,
                         correct: bool,
                         row: Row, outcome: Outcome, updated: bool) {
    && row == Row(source, ev.card, ev.ext, StatusOf(outcome), row.tx, ev.amount, ev.payee, hash)
    && match to
       case ToQueue => outcome == Waiting && row.tx.None? && txs == b.txs && !updated
       case ToSkip(_) => outcome == Passed && row.tx.None? && txs == b.txs && !updated
       case ToAccount(amount, account) =>
         && outcome in {Created, Adopted} && row.tx.Some?
         && Placed(cfg, b, txs, source, ev, Destination(amount, account, correct), row.tx.value, outcome == Adopted,
                   updated)
  }

  lemma RowForKey(cfg: M.Config, b: Books, txs: map<Id, Tx>, source: Id, hash: nat, ev: Incoming, to: Resolution,
                  correct: bool,
                  row: Row, outcome: Outcome, updated: bool)
    requires RowFor(cfg, b, txs, source, hash, ev, to, correct, row, outcome, updated)
    ensures KeyOf(row) == KeyFor(source, ev) && row.source == source && (row.tx.Some? <==> row.status == Linked)
    ensures row.status == Linked <==> outcome in {Created, Adopted}
    ensures outcome != Duplicate
  {
    hide Placed;
  }

  /** What one event does to the books. */
  ghost predicate Taken(cfg: M.Config, b: Books, c: Books, source: Id, hash: nat, ev: Incoming, to: Resolution,
                        correct: bool,
                        outcome: Outcome, updated: bool) {
    var k := KeyFor(source, ev);
    if exists r :: RowAt(b.ledger, r, k) then Holds(b.ledger, k, outcome) && c == b && !updated
    else
      && (exists row :: RowFor(cfg, b, c.txs, source, hash, ev, to, correct, row, outcome, updated)
                        && NewRow(b.ledger, c.ledger, row))
      && c.links == (if outcome in {Created, Adopted} then b.links + [k] else b.links)
      && c.sources == b.sources && c.known == b.known
  }

  ghost predicate RowAt(ledger: map<Id, Row>, r: Id, k: Key) {
    r in ledger && KeyOf(ledger[r]) == k
  }

  /** The key has a row already, and the outcome says whether it waits. */
  ghost predicate Holds(ledger: map<Id, Row>, k: Key, outcome: Outcome) {
    exists r :: RowAt(ledger, r, k) && outcome == (if ledger[r].status == Queued then Waiting else Duplicate)
  }

  function StatusOf(outcome: Outcome): Status {
    match outcome
    case Created => Linked
    case Adopted => Linked
    case Passed => Skipped
    case Waiting => Queued
    case Duplicate => Queued
  }

  /** One row more, under an id and a key the ledger did not hold. */
  ghost predicate NewRow(before: map<Id, Row>, after: map<Id, Row>, row: Row) {
    && (forall r :: !RowAt(before, r, KeyOf(row)))
    && exists r: Id :: r !in before && after == before[r := row]
  }

  /** What the matcher picks is one of the listed transactions, and the source has no row for it. */
  lemma MatchedUnclaimed(b: Books, source: Id, ev: M.Event, cfg: M.Config, listed: seq<Id>,
                         candidates: seq<M.Candidate>, m: M.Result)
    requires Candidates(b, listed, candidates)
    requires M.Matched(ev, source, cfg, candidates, m) && m != M.Create
    ensures m.tx in listed && Unclaimed(b, source, m.tx)
  {
    hide Faithful, M.BestAdopt, M.BestTip, M.AnyAdopt, M.AnyTip;
    var i := PickedIndex(ev, source, cfg, candidates, m);
    LinkedFromSource(b, candidates[i], source);
  }

  lemma PickedIndex(ev: M.Event, source: Id, cfg: M.Config, candidates: seq<M.Candidate>, m: M.Result) returns (i: int)
    requires M.Matched(ev, source, cfg, candidates, m) && m != M.Create
    ensures 0 <= i < |candidates| && candidates[i].tx == m.tx && !M.LinkedFrom(candidates[i], source)
  {
    if M.AnyAdopt(ev, source, cfg, candidates) {
      i :| M.BestAdopt(ev, source, cfg, candidates, i) && m == M.Adopt(candidates[i].tx);
    } else {
      var j, k :| M.BestTip(ev, source, cfg, candidates, j, k)
        && m == M.TipAdopt(candidates[j].tx, candidates[j].amount == candidates[j].links[k].amount);
      i := j;
    }
  }
}
