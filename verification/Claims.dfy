// No two waiting rows are proposed as one and the same transaction, however
// rows are staged, matched, decided and mapped.
module Claims {
  import opened Core
  import opened ImportQueue
  import opened Matching
  import opened Review
  import opened Proposals

  /** Both wait to be taken as one transaction: two rows of one account, two
      posted forms of one estimate, or two trades. */
  predicate Clash(q: Queue, ss: Sources, x: int, y: int) {
    Waiting(q, x) && Waiting(q, y) && x != y &&
    var r, o := q.rows[x], q.rows[y];
    r.found.txn.Some? && r.found.txn == o.found.txn && r.info.kind == o.info.kind &&
    match r.info.kind
    case TradeRow => true
    case TransactionRow =>
      (AccountOf(ss, r).Some? && AccountOf(ss, r) == AccountOf(ss, o)) ||
      (r.found.proposal.AsClears? && o.found.proposal.AsClears?)
    case _ => false
  }

  predicate EachItsOwn(q: Queue, ss: Sources) {
    forall x, y :: x in q.rows && y in q.rows ==> !Clash(q, ss, x, y)
  }

  /** What waits to be taken as a transaction, but for one row, did so before. */
  predicate NoNewClaims(q: Queue, q1: Queue, id: int) {
    forall x :: x in q1.rows && x != id ==> NoNewClaim(q, q1, x)
  }

  predicate NoNewClaim(q: Queue, q1: Queue, x: int) {
    Waiting(q1, x) && q1.rows[x].found.txn.Some? ==>
      Waiting(q, x) && q1.rows[x].info == q.rows[x].info && q1.rows[x].found == q.rows[x].found
  }

  lemma ClashMoves(q: Queue, q1: Queue, ss: Sources, id: int, x: int, y: int)
    requires NoNewClaims(q, q1, id) && Clash(q1, ss, x, y) && x != id && y != id
    ensures Clash(q, ss, x, y)
  {
    assert NoNewClaim(q, q1, x) && NoNewClaim(q, q1, y);
  }

  lemma ClashBack(q: Queue, ss: Sources, x: int, y: int)
    ensures Clash(q, ss, x, y) <==> Clash(q, ss, y, x)
  {
  }

  /** None clashes if none did and the one row does not. */
  lemma StillOwn(q: Queue, q1: Queue, ss: Sources, id: int)
    requires EachItsOwn(q, ss) && NoNewClaims(q, q1, id)
    requires forall y :: y in q1.rows ==> !Clash(q1, ss, id, y)
    ensures EachItsOwn(q1, ss)
  {
    hide Clash, NoNewClaims;
    forall x, y | x in q1.rows && y in q1.rows ensures !Clash(q1, ss, x, y) {
      ClashBack(q1, ss, x, y);
      if x != id && y != id && Clash(q1, ss, x, y) {
        ClashMoves(q, q1, ss, id, x, y);
        ClashRows(q, ss, x, y);
      }
    }
  }

  lemma ClashRows(q: Queue, ss: Sources, x: int, y: int)
    requires Clash(q, ss, x, y)
    ensures x in q.rows && y in q.rows
  {
  }

  /** Whatever the row is matched with, it alone waits to be taken as it. */
  lemma TransactionOwn(q: Queue, ss: Sources, b: Book, id: int, look: Look, y: int)
    requires MatchableRow(q, ss, id)
    ensures !Clash(TransactionMatched(q, ss, b, id, look), ss, id, y)
  {
    hide TransactionMatched, AlikeTxn, GuessTxn, Reaches;
    var q1 := TransactionMatched(q, ss, b, id, look);
    if Clash(q1, ss, id, y) {
      TransactionWrites(q, ss, b, id, look);
      assert y in q1.rows.Keys && RowRelinked(q, q1, id, y) && RowRelinked(q, q1, id, id);
      OneOfFour(q, ss, b, id, look);
      var t := q1.rows[id].found.txn.value;
      if q1.rows[id].found.proposal.AsDuplicate? {
        DuplicateIs(q, ss, b, id, look, t);
      } else {
        EstimateIs(q, ss, b, id, look, t);
      }
    }
  }

  lemma TradeOwn(q: Queue, ss: Sources, b: Book, id: int, look: Look, y: int)
    requires Waiting(q, id) && q.rows[id].info.kind.TradeRow?
    ensures !Clash(TradeMatched(q, ss, b, id, look), ss, id, y)
  {
    hide TradeMatched, Reaches;
    var q1 := TradeMatched(q, ss, b, id, look);
    if Clash(q1, ss, id, y) {
      TradeWrites(q, ss, b, id, look);
      assert y in q1.rows.Keys && RowRelinked(q, q1, id, y) && RowRelinked(q, q1, id, id);
      TradeIs(q, ss, b, id, look);
    }
  }

  lemma RelinkedClaims(q: Queue, q1: Queue, id: int)
    requires Relinked(q, q1, id)
    ensures NoNewClaims(q, q1, id)
  {
    forall x | x in q1.rows && x != id ensures NoNewClaim(q, q1, x) {
      assert x in q1.rows.Keys && RowRelinked(q, q1, id, x);
    }
  }

  lemma SetAsideClaims(q: Queue, ss: Sources, q1: Queue, id: int)
    requires SetAside(q, ss, id, q1)
    ensures NoNewClaims(q, q1, id) && forall y :: !Clash(q1, ss, id, y)
  {
  }

  /** Matching a row again never has two rows wait to be taken as one. */
  lemma MatchedOwn(q: Queue, ss: Sources, b: Book, id: int, look: Look)
    requires EachItsOwn(q, ss) && id in q.rows
    ensures EachItsOwn(Matched(q, ss, b, id, look), ss)
  {
    hide Reaches, TransactionMatched, TradeMatched, InvoiceMatched, EachItsOwn, Clash, Relinked, SetAside, NoNewClaims;
    var q1 := Matched(q, ss, b, id, look);
    MatchedWrites(q, ss, b, id, look);
    if q1 != q {
      if SetAside(q, ss, id, q1) {
        SetAsideClaims(q, ss, q1, id);
      } else {
        RelinkedClaims(q, q1, id);
        forall y | y in q1.rows ensures !Clash(q1, ss, id, y) {
          OwnMatched(q, ss, b, id, look, y);
        }
      }
      StillOwn(q, q1, ss, id);
    }
  }

  lemma OwnMatched(q: Queue, ss: Sources, b: Book, id: int, look: Look, y: int)
    requires id in q.rows && (AccountOf(ss, q.rows[id]).Some? || Matched(q, ss, b, id, look) != q)
    ensures !Clash(Matched(q, ss, b, id, look), ss, id, y)
  {
    hide Reaches, TransactionMatched, TradeMatched, InvoiceFound;
    if q.rows[id].status.IsPending? && AccountOf(ss, q.rows[id]).Some? {
      match q.rows[id].info.kind {
        case TradeRow => TradeOwn(q, ss, b, id, look, y);
        case TransactionRow => TransactionOwn(q, ss, b, id, look, y);
        case _ =>
      }
    }
  }

  lemma {:induction false} MatchedEachOwn(q: Queue, ss: Sources, b: Book, ids: seq<int>, looks: int -> Look)
    requires EachItsOwn(q, ss)
    ensures EachItsOwn(MatchedEach(q, ss, b, ids, looks), ss)
  {
    hide Matched, EachItsOwn;
    if |ids| > 0 {
      var x, q1 := ids[|ids| - 1], MatchedEach(q, ss, b, ids[..|ids| - 1], looks);
      MatchedEachOwn(q, ss, b, ids[..|ids| - 1], looks);
      if x in q1.rows {
        MatchedOwn(q1, ss, b, x, looks(x));
      }
    }
  }

  lemma {:induction false} StagedOwn(q: Queue, ss: Sources, batch: seq<Sent>)
    requires EachItsOwn(q, ss) && Numbered(q)
    ensures EachItsOwn(Staged(q, batch), ss)
  {
    hide EachItsOwn, NewId, Apply;
    if |batch| > 0 {
      var front, last := batch[..|batch| - 1], batch[|batch| - 1];
      StagedOwn(q, ss, front);
      StagedGrows(q, front);
      if NewId(Staged(q, front), last.info.extId) {
        StepOwn(Staged(q, front), ss, Stage(last.info, last.items));
      }
    }
  }

  /** Nor does importing a batch, whatever it brings. */
  lemma ImportedOwn(q: Queue, ss: Sources, b: Book, batch: seq<Sent>, looks: int -> Look, later: int -> Look)
    requires EachItsOwn(q, ss) && Numbered(q)
    ensures EachItsOwn(Imported(q, ss, b, batch, looks, later), ss)
  {
    hide EachItsOwn, MatchedEach, Staged, StagedCount, Numbers, WaitingInvoices, Numbered;
    StagedOwn(q, ss, batch);
    var q1 := Staged(q, batch);
    var ids := Numbers(q.next, StagedCount(q, batch));
    MatchedEachOwn(q1, ss, b, ids, looks);
    var q2 := MatchedEach(q1, ss, b, ids, looks);
    MatchedEachOwn(q2, ss, b, WaitingInvoices(q2), later);
  }

  /** Nor does any write but a proposal: staging, deciding, forgetting. */
  lemma StepOwn(q: Queue, ss: Sources, s: Step)
    requires EachItsOwn(q, ss) && Numbered(q) && Legal(q, s) && !s.Propose?
    ensures EachItsOwn(Apply(q, s), ss)
  {
    hide EachItsOwn, NewId;
    var q1 := Apply(q, s);
    assert NoNewClaims(q, q1, 0);
    StillOwn(q, q1, ss, 0);
  }

  // ----- a source mapped to another account -----

  /** Every clash is of one of these rows. */
  predicate ClashOnly(q: Queue, ss: Sources, ids: seq<int>) {
    forall x, y :: x in q.rows && y in q.rows && Clash(q, ss, x, y) ==> x in ids || y in ids
  }

  lemma MatchedAlone(q: Queue, ss: Sources, b: Book, id: int, look: Look, ids: seq<int>)
    requires id in q.rows && AccountOf(ss, q.rows[id]).Some? && ClashOnly(q, ss, [id] + ids)
    ensures ClashOnly(Matched(q, ss, b, id, look), ss, ids)
  {
    hide Reaches, Matched, Clash, Relinked, SetAside, NoNewClaims;
    var q1 := Matched(q, ss, b, id, look);
    MatchedWrites(q, ss, b, id, look);
    if SetAside(q, ss, id, q1) {
      SetAsideClaims(q, ss, q1, id);
    } else {
      RelinkedClaims(q, q1, id);
    }
    forall x, y | x in q1.rows && y in q1.rows && Clash(q1, ss, x, y) ensures x in ids || y in ids {
      ClashBack(q1, ss, x, y);
      OwnMatched(q, ss, b, id, look, x);
      OwnMatched(q, ss, b, id, look, y);
      ClashMoves(q, q1, ss, id, x, y);
      ClashRows(q, ss, x, y);
    }
  }

  lemma {:induction false} MatchedAllAlone(q: Queue, ss: Sources, b: Book, ids: seq<int>, looks: int -> Look, n: nat)
    requires n <= |ids| && ClashOnly(q, ss, ids)
    requires forall x :: x in ids ==> x in q.rows && AccountOf(ss, q.rows[x]).Some?
    ensures ClashOnly(MatchedEach(q, ss, b, ids[..n], looks), ss, ids[n..])
  {
    hide ClashOnly, Matched, Rematched, Reaches;
    if n > 0 {
      MatchedAllAlone(q, ss, b, ids, looks, n - 1);
      var q1, x := MatchedEach(q, ss, b, ids[..n - 1], looks), ids[n - 1];
      assert ids[..n][..n - 1] == ids[..n - 1] && [x] + ids[n..] == ids[n - 1..];
      MatchedEachWrites(q, ss, b, ids[..n - 1], looks);
      SameInfo(q, q1, x);
      MatchedAlone(q1, ss, b, x, looks(x), ids[n..]);
    } else {
      assert ids[0..] == ids;
    }
  }

  lemma SameInfo(q: Queue, q1: Queue, x: int)
    requires Rematched(q, q1) && x in q.rows
    ensures x in q1.rows && q1.rows[x].info == q.rows[x].info
  {
    assert RowRematched(q, q1, x);
  }

  /** Nor does mapping a source to an account, old or new: its waiting rows are
      all matched again. */
  lemma RemappedOwn(q: Queue, ss: Sources, b: Book, source: int, s: Source, looks: int -> Look)
    requires EachItsOwn(q, ss) && Numbered(q) && s.account.Some?
    ensures EachItsOwn(MatchedEach(q, ss[source := s], b, WaitingOf(q, source), looks), ss[source := s])
  {
    hide MatchedEach, Listed;
    var ss1, ids := ss[source := s], WaitingOf(q, source);
    forall x, y | x in q.rows && y in q.rows && Clash(q, ss1, x, y) ensures x in ids || y in ids {
      assert !Clash(q, ss, x, y);
    }
    MatchedAllAlone(q, ss1, b, ids, looks, |ids|);
    assert ids[..|ids|] == ids;
  }
}
