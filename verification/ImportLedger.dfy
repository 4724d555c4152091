/** The import ledger: one row per external transaction, and what every step on it keeps. */
module ImportLedger {
  import opened Prelude
  import Calendar
  import M = ImportMatcher

  datatype Status = Queued | Skipped | Linked

  /** A ledger row, with the payload of the inbox event it came from. A linked row without a transaction is a tombstone:
      the user deleted what it became. */
  datatype Row = Row(source: Id, card: string, ext: string, status: Status, tx: Option<Id>, amount: int, payee: string,
                     event: nat)

  datatype Tx = Tx(account: Id, recipient: Option<Id>, kind: nat, amount: int, spent: Calendar.Time)

  /** What the ledger is keyed by; card names fold case. */
  datatype Key = Key(source: Id, card: string, ext: string)

  function KeyOf(r: Row): Key {
    Key(r.source, M.LowerAll(r.card), r.ext)
  }

  /** The sources with whether they push, the transactions and the ledger; and what the rows forget: every source there
      ever was, and every key that became linked, in order. */
  datatype Books = Books(sources: map<Id, bool>, txs: map<Id, Tx>, ledger: map<Id, Row>, known: set<Id>,
                         links: seq<Key>)

  ghost predicate UniqueKeys(b: Books) {
    forall r, q :: r in b.ledger && q in b.ledger && r != q ==> KeyOf(b.ledger[r]) != KeyOf(b.ledger[q])
  }

  /** No two rows of one source point at the same transaction. */
  ghost predicate OneRowPerTx(b: Books) {
    forall r, q :: r in b.ledger && q in b.ledger && r != q && b.ledger[r].source == b.ledger[q].source
                   && b.ledger[r].tx.Some? ==>
      b.ledger[q].tx != b.ledger[r].tx
  }

  ghost predicate References(b: Books) {
    && (forall r :: r in b.ledger ==> b.ledger[r].source in b.sources)
    && (forall r :: r in b.ledger && b.ledger[r].tx.Some? ==>
          b.ledger[r].tx.value in b.txs && b.ledger[r].status == Linked)
    && (forall s :: s in b.sources ==> s in b.known)
  }

  ghost predicate LinkedAs(b: Books, k: Key, tx: Option<Id>) {
    exists r :: r in b.ledger && KeyOf(b.ledger[r]) == k && b.ledger[r].status == Linked && b.ledger[r].tx == tx
  }

  ghost predicate IsLinked(b: Books, k: Key) {
    exists r :: r in b.ledger && KeyOf(b.ledger[r]) == k && b.ledger[r].status == Linked
  }

  /** No key is ever linked twice; while its source exists, a key once linked still is. */
  ghost predicate LinkedOnce(b: Books) {
    && (forall i, j :: 0 <= i < j < |b.links| ==> b.links[i] != b.links[j])
    && (forall k :: k in b.links ==> k.source in b.known)
    && (forall k :: k in b.links && k.source in b.sources ==> IsLinked(b, k))
    && (forall r :: r in b.ledger && b.ledger[r].status == Linked ==> KeyOf(b.ledger[r]) in b.links)
  }

  ghost predicate Sound(b: Books) {
    UniqueKeys(b) && OneRowPerTx(b) && References(b) && LinkedOnce(b)
  }

  /** A key linked to a transaction stays linked to it, or as a tombstone, for as long as its source exists; what was
      linked is never forgotten, and a source once gone never comes back. */
  ghost predicate Follows(b: Books, c: Books) {
    && (forall k, tx :: LinkedAs(b, k, tx) && k.source in c.sources ==> LinkedAs(c, k, tx) || LinkedAs(c, k, None))
    && b.links <= c.links && b.known <= c.known
    && (forall s :: s in c.sources && s in b.known ==> s in b.sources)
  }

  /** What one move keeps, from sound books. */
  ghost predicate Keeps(b: Books, c: Books) {
    Sound(b) ==> Sound(c) && Follows(b, c)
  }

  lemma LinkedKnown(b: Books, k: Key, tx: Option<Id>)
    requires References(b) && LinkedAs(b, k, tx)
    ensures k.source in b.sources && k.source in b.known
  {
  }

  lemma KeepsTrans(a: Books, b: Books, c: Books)
    requires Keeps(a, b) && Keeps(b, c)
    ensures Keeps(a, c)
  {
    hide LinkedAs;
    if Sound(a) {
      forall k, tx | LinkedAs(a, k, tx) && k.source in c.sources
        ensures LinkedAs(c, k, tx) || LinkedAs(c, k, None)
      {
        LinkedKnown(a, k, tx);
      }
    }
  }

  lemma KeepsRefl(b: Books)
    ensures Keeps(b, b)
  {
  }

  function Inserted(b: Books, id: Id, row: Row): Books {
    b.(ledger := b.ledger[id := row], links := b.links + if row.status == Linked then [KeyOf(row)] else [])
  }

  /** A row for a key the ledger does not hold, linked only to a transaction its source has no row for. */
  ghost predicate Insertable(b: Books, id: Id, row: Row) {
    && id !in b.ledger && row.source in b.sources
    && (forall r :: r in b.ledger ==> KeyOf(b.ledger[r]) != KeyOf(row))
    && (row.tx.Some? <==> row.status == Linked)
    && (row.tx.Some? ==> row.tx.value in b.txs && Unclaimed(b, row.source, row.tx.value))
  }

  ghost predicate Unclaimed(b: Books, source: Id, tx: Id) {
    forall r :: r in b.ledger && b.ledger[r].source == source ==> b.ledger[r].tx != Some(tx)
  }

  lemma NewKeyUnlinked(b: Books, k: Key)
    requires Sound(b) && k.source in b.sources && forall r :: r in b.ledger && KeyOf(b.ledger[r]) == k ==>
               b.ledger[r].status != Linked
    ensures k !in b.links
  {
    assert !IsLinked(b, k);
  }

  lemma InsertKeeps(b: Books, id: Id, row: Row)
    requires Insertable(b, id, row)
    ensures Keeps(b, Inserted(b, id, row))
  {
    if Sound(b) {
      NewKeyUnlinked(b, KeyOf(row));
      LedgerGrows(b, Inserted(b, id, row), id);
      hide KeyOf, IsLinked, LinkedAs;
      InsertedLinks(b, id, row);
    }
  }

  lemma LedgerGrows(b: Books, c: Books, id: Id)
    requires id in c.ledger && c.ledger == b.ledger[id := c.ledger[id]]
    requires id in b.ledger ==> b.ledger[id].status != Linked
    ensures forall k, tx :: LinkedAs(b, k, tx) ==> LinkedAs(c, k, tx)
    ensures forall k :: IsLinked(b, k) ==> IsLinked(c, k)
  {
    forall k, tx | LinkedAs(b, k, tx) ensures LinkedAs(c, k, tx) {
      var r :| r in b.ledger && KeyOf(b.ledger[r]) == k && b.ledger[r].status == Linked && b.ledger[r].tx == tx;
      assert c.ledger[r] == b.ledger[r];
    }
    forall k | IsLinked(b, k) ensures IsLinked(c, k) {
      var r :| r in b.ledger && KeyOf(b.ledger[r]) == k && b.ledger[r].status == Linked;
      assert c.ledger[r] == b.ledger[r];
    }
  }

  lemma InsertedLinks(b: Books, id: Id, row: Row)
    requires Sound(b) && Insertable(b, id, row) && KeyOf(row) !in b.links
    requires forall k :: IsLinked(b, k) ==> IsLinked(Inserted(b, id, row), k)
    ensures LinkedOnce(Inserted(b, id, row))
  {
    hide UniqueKeys, OneRowPerTx;
    var c := Inserted(b, id, row);
    if row.status == Linked {
      assert c.ledger[id] == row;
      assert IsLinked(c, KeyOf(row));
    }
    hide IsLinked;
  }

  /** A waiting row becomes the transaction's. */
  function RowLinked(b: Books, id: Id, tx: Id): Books
    requires id in b.ledger
  {
    b.(ledger := b.ledger[id := b.ledger[id].(status := Linked, tx := Some(tx))],
       links := b.links + [KeyOf(b.ledger[id])])
  }

  lemma LinkKeeps(b: Books, id: Id, tx: Id)
    requires id in b.ledger && b.ledger[id].status != Linked && tx in b.txs && Unclaimed(b, b.ledger[id].source, tx)
    ensures Keeps(b, RowLinked(b, id, tx))
  {
    if Sound(b) {
      var c := RowLinked(b, id, tx);
      NewKeyUnlinked(b, KeyOf(b.ledger[id]));
      LedgerGrows(b, c, id);
      assert KeyOf(c.ledger[id]) == KeyOf(b.ledger[id]);
      LinkedRowLinks(b, id, tx);
      hide KeyOf, IsLinked, LinkedAs, LinkedOnce;
    }
  }

  lemma LinkedRowLinks(b: Books, id: Id, tx: Id)
    requires Sound(b) && id in b.ledger && KeyOf(b.ledger[id]) !in b.links
    requires forall k :: IsLinked(b, k) ==> IsLinked(RowLinked(b, id, tx), k)
    ensures LinkedOnce(RowLinked(b, id, tx))
  {
    hide UniqueKeys, OneRowPerTx;
    var c := RowLinked(b, id, tx);
    assert KeyOf(c.ledger[id]) == KeyOf(b.ledger[id]);
    assert IsLinked(c, KeyOf(b.ledger[id]));
    hide IsLinked;
  }

  /** A waiting row moves between the queue and the skipped ones. */
  function Flipped(b: Books, id: Id, to: Status): Books
    requires id in b.ledger
  {
    b.(ledger := b.ledger[id := b.ledger[id].(status := to)])
  }

  lemma FlipKeeps(b: Books, id: Id, to: Status)
    requires id in b.ledger && b.ledger[id].status != Linked && to != Linked
    ensures Keeps(b, Flipped(b, id, to))
  {
    if Sound(b) {
      LedgerGrows(b, Flipped(b, id, to), id);
      FlippedLinks(b, id, to);
      FlippedRows(b, id, to);
      hide KeyOf, IsLinked, LinkedAs, LinkedOnce, UniqueKeys, OneRowPerTx, References;
    }
  }

  lemma FlippedRows(b: Books, id: Id, to: Status)
    requires UniqueKeys(b) && OneRowPerTx(b) && References(b)
    requires id in b.ledger && b.ledger[id].status != Linked
    ensures UniqueKeys(Flipped(b, id, to)) && OneRowPerTx(Flipped(b, id, to)) && References(Flipped(b, id, to))
  {
    assert KeyOf(Flipped(b, id, to).ledger[id]) == KeyOf(b.ledger[id]);
    hide KeyOf;
  }

  lemma FlippedLinks(b: Books, id: Id, to: Status)
    requires Sound(b) && id in b.ledger && b.ledger[id].status != Linked && to != Linked
    requires forall k :: IsLinked(b, k) ==> IsLinked(Flipped(b, id, to), k)
    ensures LinkedOnce(Flipped(b, id, to))
  {
    hide UniqueKeys, OneRowPerTx, IsLinked, KeyOf;
    var c := Flipped(b, id, to);
    forall r | r in c.ledger && c.ledger[r].status == Linked ensures KeyOf(c.ledger[r]) in c.links {
      assert c.ledger[r] == b.ledger[r];
    }
  }

  function Without(b: Books, ids: set<Id>): Books {
    b.(ledger := b.ledger - ids)
  }

  /** Rows still queued may go. */
  lemma DeleteKeeps(b: Books, ids: set<Id>)
    requires forall r :: r in ids && r in b.ledger ==> b.ledger[r].status == Queued
    ensures Keeps(b, Without(b, ids))
  {
    if Sound(b) {
      var c := Without(b, ids);
      forall k, tx | LinkedAs(b, k, tx) ensures LinkedAs(c, k, tx) {
        var r :| r in b.ledger && KeyOf(b.ledger[r]) == k && b.ledger[r].status == Linked && b.ledger[r].tx == tx;
        assert r in c.ledger;
      }
      forall k | IsLinked(b, k) ensures IsLinked(c, k) {
        var r :| r in b.ledger && KeyOf(b.ledger[r]) == k && b.ledger[r].status == Linked;
        assert r in c.ledger;
      }
      hide IsLinked, LinkedAs;
    }
  }

  /** A deleted transaction leaves tombstones in the ledger. */
  function TxDeleted(b: Books, tx: Id): Books {
    b.(txs := b.txs - {tx}, ledger := map r | r in b.ledger :: if b.ledger[r].tx
                                                               == Some(tx) then b.ledger[r].(tx := None)
                                                                 else b.ledger[r])
  }

  lemma DeleteTxKeeps(b: Books, tx: Id)
    ensures Keeps(b, TxDeleted(b, tx))
  {
    if Sound(b) {
      TombstonesLinked(b, tx);
      TombstonesUnique(b, tx);
      hide IsLinked, LinkedAs, KeyOf, UniqueKeys, OneRowPerTx;
    }
  }

  lemma TombstonesLinked(b: Books, tx: Id)
    ensures forall k, t :: LinkedAs(b, k, t) ==> LinkedAs(TxDeleted(b, tx), k, t) || LinkedAs(TxDeleted(b, tx), k, None)
    ensures forall k :: IsLinked(b, k) ==> IsLinked(TxDeleted(b, tx), k)
    ensures forall r :: r in b.ledger ==> KeyOf(TxDeleted(b, tx).ledger[r]) == KeyOf(b.ledger[r])
  {
    var c := TxDeleted(b, tx);
    assert forall r :: r in b.ledger ==> KeyOf(c.ledger[r]) == KeyOf(b.ledger[r])
                                         && c.ledger[r].status == b.ledger[r].status;
    hide KeyOf;
    forall k, t | LinkedAs(b, k, t) ensures LinkedAs(c, k, t) || LinkedAs(c, k, None) {
      var r :| r in b.ledger && KeyOf(b.ledger[r]) == k && b.ledger[r].status == Linked && b.ledger[r].tx == t;
      assert r in c.ledger;
    }
    forall k | IsLinked(b, k) ensures IsLinked(c, k) {
      var r :| r in b.ledger && KeyOf(b.ledger[r]) == k && b.ledger[r].status == Linked;
      assert r in c.ledger;
    }
  }

  lemma TombstonesUnique(b: Books, tx: Id)
    requires UniqueKeys(b) && OneRowPerTx(b) && References(b)
    ensures UniqueKeys(TxDeleted(b, tx)) && OneRowPerTx(TxDeleted(b, tx)) && References(TxDeleted(b, tx))
  {
  }

  /** Transactions come and change amount freely. */
  lemma TxKeeps(b: Books, txs: map<Id, Tx>)
    requires b.txs.Keys <= txs.Keys
    ensures Keeps(b, b.(txs := txs))
  {
    if Sound(b) {
      var c := b.(txs := txs);
      forall k, t | LinkedAs(b, k, t) ensures LinkedAs(c, k, t) {
        var r :| r in b.ledger && KeyOf(b.ledger[r]) == k && b.ledger[r].status == Linked && b.ledger[r].tx == t;
        assert r in c.ledger;
      }
      forall k | IsLinked(b, k) ensures IsLinked(c, k) {
        var r :| r in b.ledger && KeyOf(b.ledger[r]) == k && b.ledger[r].status == Linked;
        assert r in c.ledger;
      }
      hide IsLinked, LinkedAs, KeyOf;
    }
  }

  function SourceAdded(b: Books, source: Id, push: bool): Books {
    b.(sources := b.sources[source := push], known := b.known + {source})
  }

  lemma AddSourceKeeps(b: Books, source: Id, push: bool)
    requires source !in b.known
    ensures Keeps(b, SourceAdded(b, source, push))
  {
    if Sound(b) {
      var c := SourceAdded(b, source, push);
      assert c.ledger == b.ledger;
      SameLedger(b, c);
      hide IsLinked, LinkedAs, KeyOf;
    }
  }

  lemma SameLedger(b: Books, c: Books)
    requires c.ledger == b.ledger
    ensures forall k, tx :: LinkedAs(c, k, tx) <==> LinkedAs(b, k, tx)
    ensures forall k :: IsLinked(c, k) <==> IsLinked(b, k)
  {
  }

  /** A source takes its rows with it; what it linked stays on record. */
  function SourceDeleted(b: Books, source: Id): Books {
    b.(sources := b.sources - {source}, ledger := map r | r in b.ledger && b.ledger[r].source != source :: b.ledger[r])
  }

  lemma DeleteSourceKeeps(b: Books, source: Id)
    ensures Keeps(b, SourceDeleted(b, source))
  {
    if Sound(b) {
      var c := SourceDeleted(b, source);
      forall k, t | LinkedAs(b, k, t) && k.source in c.sources ensures LinkedAs(c, k, t) {
        var r :| r in b.ledger && KeyOf(b.ledger[r]) == k && b.ledger[r].status == Linked && b.ledger[r].tx == t;
        assert r in c.ledger;
      }
      forall k | IsLinked(b, k) && k.source in c.sources ensures IsLinked(c, k) {
        var r :| r in b.ledger && KeyOf(b.ledger[r]) == k && b.ledger[r].status == Linked;
        assert r in c.ledger;
      }
      hide IsLinked, LinkedAs, KeyOf;
    }
  }

  /** What the operations do to the books, one write at a time. */
  datatype Move =
    | Insert(id: Id, row: Row)
    | Link(id: Id, tx: Id)
    | Flip(id: Id, to: Status)
    | Drop(ids: set<Id>)
    | SetTxs(txs: map<Id, Tx>)
    | DeleteTx(tx: Id)
    | AddSource(source: Id, push: bool)
    | DropSource(source: Id)

  ghost predicate Allowed(b: Books, m: Move) {
    match m
    case Insert(id, row) => Insertable(b, id, row)
    case Link(id, tx) => id in b.ledger && b.ledger[id].status != Linked && tx in b.txs
      && Unclaimed(b, b.ledger[id].source, tx)
    case Flip(id, to) => id in b.ledger && b.ledger[id].status != Linked && to != Linked
    case Drop(ids) => forall r :: r in ids && r in b.ledger ==> b.ledger[r].status == Queued
    case SetTxs(txs) => b.txs.Keys <= txs.Keys
    case DeleteTx(_) => true
    case AddSource(source, _) => source !in b.known
    case DropSource(_) => true
  }

  ghost function Apply(b: Books, m: Move): Books {
    if !Allowed(b, m) then b
    else
      match m
      case Insert(id, row) => Inserted(b, id, row)
      case Link(id, tx) => RowLinked(b, id, tx)
      case Flip(id, to) => Flipped(b, id, to)
      case Drop(ids) => Without(b, ids)
      case SetTxs(txs) => b.(txs := txs)
      case DeleteTx(tx) => TxDeleted(b, tx)
      case AddSource(source, push) => SourceAdded(b, source, push)
      case DropSource(source) => SourceDeleted(b, source)
  }

  /** The books after a run of moves. */
  ghost function Run(b: Books, moves: seq<Move>): Books {
    if moves == [] then b else Apply(Run(b, moves[..|moves| - 1]), moves[|moves| - 1])
  }

  lemma MoveKeeps(b: Books, m: Move)
    ensures Keeps(b, Apply(b, m))
  {
    hide Keeps, Inserted, RowLinked, Flipped, Without, TxDeleted, SourceAdded, SourceDeleted, Insertable, Unclaimed;
    if !Allowed(b, m) {
      KeepsRefl(b);
    } else {
      match m {
        case Insert(id, row) => InsertKeeps(b, id, row);
        case Link(id, tx) => LinkKeeps(b, id, tx);
        case Flip(id, to) => FlipKeeps(b, id, to);
        case Drop(ids) => DeleteKeeps(b, ids);
        case SetTxs(txs) => TxKeeps(b, txs);
        case DeleteTx(tx) => DeleteTxKeeps(b, tx);
        case AddSource(source, push) => AddSourceKeeps(b, source, push);
        case DropSource(source) => DeleteSourceKeeps(b, source);
      }
    }
  }

  lemma {:induction false} RunKeepsAll(b: Books, moves: seq<Move>)
    ensures Keeps(b, Run(b, moves))
  {
    hide Keeps, Apply;
    if moves == [] {
      KeepsRefl(b);
    } else {
      var before := Run(b, moves[..|moves| - 1]);
      RunKeepsAll(b, moves[..|moves| - 1]);
      MoveKeeps(before, moves[|moves| - 1]);
      KeepsTrans(b, before, Run(b, moves));
    }
  }

  /** The books with nothing in them. */
  function Empty(): Books {
    Books(map[], map[], map[], {}, [])
  }

  /**
   * Over any run of moves from sound books, and there are none sounder than empty ones: keys stay unique, no key is
   * linked twice, what was linked stays linked or becomes a tombstone, and no two rows of a source share a transaction.
   */
  lemma RunKeeps(b: Books, moves: seq<Move>)
    requires Sound(b)
    ensures Sound(Run(b, moves)) && Follows(b, Run(b, moves))
    ensures Sound(Empty())
  {
    RunKeepsAll(b, moves);
    hide Run;
  }

  /** A key that is linked is linked through one row, so it is neither queued nor skipped. */
  lemma LinkedNotWaiting(b: Books, k: Key, r: Id)
    requires Sound(b) && k in b.links && k.source in b.sources && r in b.ledger && KeyOf(b.ledger[r]) == k
    ensures b.ledger[r].status == Linked
  {
    hide KeyOf;
    assert IsLinked(b, k);
  }

  /**
   * Once linked, over any run of moves: as long as the source exists the key has a linked row and no waiting one, and
   * it is never linked a second time.
   */
  lemma LinkedForGood(b: Books, moves: seq<Move>, k: Key)
    requires Sound(b) && k in b.links && k.source in Run(b, moves).sources
    ensures var last := Run(b, moves);
      && IsLinked(last, k)
      && (forall r :: r in last.ledger && KeyOf(last.ledger[r]) == k ==> last.ledger[r].status == Linked)
      && (forall i, j :: 0 <= i < |last.links| && 0 <= j < |last.links| && last.links[i] == last.links[j] == k ==>
            i == j)
  {
    RunKeeps(b, moves);
    hide Run, IsLinked, KeyOf;
    var last := Run(b, moves);
    assert k in last.links;
    forall r | r in last.ledger && KeyOf(last.ledger[r]) == k
      ensures last.ledger[r].status == Linked
    {
      LinkedNotWaiting(last, k, r);
    }
  }

  /** Some run of moves leads from the one to the other: what every operation of the import code promises. */
  ghost predicate Reaches(b: Books, c: Books) {
    exists moves: seq<Move> :: Run(b, moves) == c
  }

  lemma ReachesRefl(b: Books)
    ensures Reaches(b, b)
  {
    assert Run(b, []) == b;
  }

  lemma {:induction false} RunOn(b: Books, some: seq<Move>, more: seq<Move>)
    ensures Run(b, some + more) == Run(Run(b, some), more)
  {
    if more == [] {
      assert some + more == some;
    } else {
      var n := |more| - 1;
      RunOn(b, some, more[..n]);
      assert (some + more)[..|some + more| - 1] == some + more[..n];
      hide Apply;
    }
  }

  lemma ReachesTrans(a: Books, b: Books, c: Books)
    requires Reaches(a, b) && Reaches(b, c)
    ensures Reaches(a, c)
  {
    var some: seq<Move> :| Run(a, some) == b;
    var more: seq<Move> :| Run(b, more) == c;
    RunOn(a, some, more);
    hide Run;
    assert Run(a, some + more) == c;
  }

  lemma ReachesSound(b: Books, c: Books)
    requires Sound(b) && Reaches(b, c)
    ensures Sound(c) && References(c)
  {
    var moves: seq<Move> :| Run(b, moves) == c;
    RunKeeps(b, moves);
    hide Run;
  }

  lemma OneMove(b: Books, m: Move)
    ensures Reaches(b, Apply(b, m))
  {
    hide Apply;
    assert [m][..0] == [];
    assert Run(b, [m]) == Apply(b, m);
  }

  lemma InsertStep(b: Books, id: Id, row: Row)
    requires Insertable(b, id, row)
    ensures Reaches(b, Inserted(b, id, row))
  {
    OneMove(b, Insert(id, row));
  }

  lemma LinkStep(b: Books, id: Id, tx: Id)
    requires id in b.ledger && b.ledger[id].status != Linked && tx in b.txs && Unclaimed(b, b.ledger[id].source, tx)
    ensures Reaches(b, RowLinked(b, id, tx))
  {
    OneMove(b, Link(id, tx));
  }

  lemma FlipStep(b: Books, id: Id, to: Status)
    requires id in b.ledger && b.ledger[id].status != Linked && to != Linked
    ensures Reaches(b, Flipped(b, id, to))
  {
    OneMove(b, Flip(id, to));
  }

  lemma DeleteStep(b: Books, ids: set<Id>)
    requires forall r :: r in ids && r in b.ledger ==> b.ledger[r].status == Queued
    ensures Reaches(b, Without(b, ids))
  {
    OneMove(b, Drop(ids));
  }

  lemma DeleteTxStep(b: Books, tx: Id)
    ensures Reaches(b, TxDeleted(b, tx))
  {
    OneMove(b, DeleteTx(tx));
  }

  lemma TxStep(b: Books, txs: map<Id, Tx>)
    requires b.txs.Keys <= txs.Keys
    ensures Reaches(b, b.(txs := txs))
  {
    OneMove(b, SetTxs(txs));
  }

  lemma AddSourceStep(b: Books, source: Id, push: bool)
    requires source !in b.known
    ensures Reaches(b, SourceAdded(b, source, push))
  {
    OneMove(b, AddSource(source, push));
  }

  lemma DeleteSourceStep(b: Books, source: Id)
    ensures Reaches(b, SourceDeleted(b, source))
  {
    OneMove(b, DropSource(source));
  }
}
