// What each proposal of the matcher says about the rows and the books it was
// made from, told over the rows, postings and days themselves.
module Proposals {
  import opened Decimals
  import opened Core
  import opened ImportQueue
  import opened Matching
  import opened Review

  /** The row is, or is matched with, the transaction. */
  predicate HasTxn(r: Row, t: int) {
    r.txn == Some(t) || r.found.txn == Some(t)
  }

  predicate Moves(t: Txn, account: int, amount: real) {
    exists p :: p in t.postings && p.account == account && p.amount == amount
  }

  predicate MatchableRow(q: Queue, ss: Sources, id: int) {
    Waiting(q, id) && q.rows[id].info.kind.TransactionRow? && AccountOf(ss, q.rows[id]).Some?
  }

  function Found(q: Queue, ss: Sources, b: Book, id: int, look: Look): Match
    requires MatchableRow(q, ss, id)
  {
    TransactionMatched(q, ss, b, id, look).rows[id].found
  }

  // ----- what near means -----

  lemma DaysApart(a: int, n: nat)
    ensures Days(a, a + n) == n && Days(a + n, a) == n
  {
  }

  /** An amount on an account is that of the first posting there. */
  lemma {:induction false} FirstOnAccount(ps: seq<Posting>, k: nat)
    requires k < |ps| && forall j :: 0 <= j < k ==> ps[j].account != ps[k].account
    ensures OnAccount(ps, ps[k].account) == ps[k].amount
  {
    if k > 0 {
      FirstOnAccount(ps[1..], k - 1);
    }
  }

  /** A row's account is the one its source is mapped to. */
  lemma MappedTo(ss: Sources, r: Row, account: int)
    ensures AccountOf(ss, r) == Some(account) <==> r.info.source in ss && ss[r.info.source].account == Some(account)
  {
  }

  // ----- the row is in the books already -----

  /** No row of the account, but for those ignored, is or matched it. */
  predicate Unclaimed(q: Queue, ss: Sources, account: int, t: int) {
    forall o :: o in q.rows && !q.rows[o].status.IsIgnored? && AccountOf(ss, q.rows[o]) == Some(account) ==>
      !HasTxn(q.rows[o], t)
  }

  /** A transaction of the amount on the account, at most three days off, that
      is unclaimed. */
  predicate AlikeTxn(q: Queue, ss: Sources, i: Info, account: int, v: Txn) {
    i.date - 3 <= v.date <= i.date + 3 && Moves(v, account, i.amount) && Unclaimed(q, ss, account, v.id)
  }

  lemma AlikeIff(q: Queue, ss: Sources, id: int, v: Txn)
    requires id in q.rows && AccountOf(ss, q.rows[id]).Some?
    ensures AlikeTxn(q, ss, q.rows[id].info, AccountOf(ss, q.rows[id]).value, v) <==> AlreadyIn(q, ss, id, v)
  {
  }

  /** Proposed as the duplicate of a transaction, a row has an unclaimed one of
      its amount on its account, at most three days off, and none such is
      nearer. Itself it had not matched that one before. */
  lemma DuplicateIs(q: Queue, ss: Sources, b: Book, id: int, look: Look, t: int)
    requires MatchableRow(q, ss, id)
    requires Found(q, ss, b, id, look).proposal.AsDuplicate? && Found(q, ss, b, id, look).txn == Some(t)
    ensures Unclaimed(q, ss, AccountOf(ss, q.rows[id]).value, t) && q.rows[id].found.txn != Some(t)
    ensures var i, account := q.rows[id].info, AccountOf(ss, q.rows[id]).value;
      exists u :: u in b.txns && u.id == t && AlikeTxn(q, ss, i, account, u) &&
        forall v :: v in b.txns && AlikeTxn(q, ss, i, account, v) ==> Days(u.date, i.date) <= Days(v.date, i.date)
  {
    hide FirstRow, EstimateOf, DuplicateRow, TransferPartner, ExchangePartner, AlikeTxn, AlreadyIn;
    var i := q.rows[id].info;
    assert Duplicated(q, ss, b, id) == Some(t);
    var where := (t: Txn) => AlreadyIn(q, ss, id, t);
    var u :| NoneNearer(b, where, Zero(), i.date, u) && u.id == t;
    forall v ensures AlikeTxn(q, ss, i, AccountOf(ss, q.rows[id]).value, v) <==> where(v) {
      AlikeIff(q, ss, id, v);
    }
    AlikeClaims(q, ss, id, u);
  }

  lemma AlikeClaims(q: Queue, ss: Sources, id: int, u: Txn)
    requires Waiting(q, id) && AccountOf(ss, q.rows[id]).Some?
    requires AlikeTxn(q, ss, q.rows[id].info, AccountOf(ss, q.rows[id]).value, u)
    ensures Unclaimed(q, ss, AccountOf(ss, q.rows[id]).value, u.id) && q.rows[id].found.txn != Some(u.id)
  {
  }

  /** And it is so proposed whenever there is such a transaction. */
  lemma DuplicateWhen(q: Queue, ss: Sources, b: Book, id: int, look: Look, v: Txn)
    requires MatchableRow(q, ss, id) && v in b.txns
    requires AlikeTxn(q, ss, q.rows[id].info, AccountOf(ss, q.rows[id]).value, v)
    ensures Found(q, ss, b, id, look).proposal.AsDuplicate? && Found(q, ss, b, id, look).txn.Some?
  {
    hide FirstRow, EstimateOf, DuplicateRow, TransferPartner, ExchangePartner, AlikeTxn;
    AlikeIff(q, ss, id, v);
  }

  // ----- the row is the posted form of an estimate -----

  /** Within a tenth of the amount, on its side of zero. */
  predicate InTolerance(x: real, amount: real) {
    if amount >= 0.0 then 0.9 * amount <= x <= 1.1 * amount else 1.1 * amount <= x <= 0.9 * amount
  }

  /** An uncleared transaction of two legs, one on the account within a tenth of
      the amount, at most five days off, that no waiting row has matched. */
  predicate GuessTxn(q: Queue, look: Look, i: Info, account: int, v: Txn) {
    v.id in look.uncleared && i.date - 5 <= v.date <= i.date + 5 && |v.postings| == 2 &&
    (exists p :: p in v.postings && p.account == account && InTolerance(p.amount, i.amount)) &&
    forall o :: o in q.rows && q.rows[o].status.IsPending? ==> q.rows[o].found.txn != Some(v.id)
  }

  lemma GuessIff(q: Queue, ss: Sources, id: int, look: Look, v: Txn)
    requires MatchableRow(q, ss, id)
    ensures EstimateOf(q, ss, id, look, v) <==>
      !q.rows[id].info.pending && q.rows[id].info.amount != 0.0 &&
      GuessTxn(q, look, q.rows[id].info, AccountOf(ss, q.rows[id]).value, v)
  {
  }

  /** u is as near in amount on the account as v, and as near in days where they
      are as near in amount. */
  predicate AsClose(i: Info, account: int, u: Txn, v: Txn) {
    var du, dv := Abs(OnAccount(u.postings, account) - i.amount), Abs(OnAccount(v.postings, account) - i.amount);
    du < dv || (du == dv && Days(u.date, i.date) <= Days(v.date, i.date))
  }

  /** Proposed as the posted form of an estimate, a row is posted and has such a
      transaction, the closest of them, when the books do not have the row. */
  lemma EstimateIs(q: Queue, ss: Sources, b: Book, id: int, look: Look, t: int)
    requires MatchableRow(q, ss, id)
    requires Found(q, ss, b, id, look).proposal.AsClears? && Found(q, ss, b, id, look).txn == Some(t)
    ensures !q.rows[id].info.pending && forall o :: Waiting(q, o) ==> q.rows[o].found.txn != Some(t)
    ensures forall v :: v in b.txns ==> !AlikeTxn(q, ss, q.rows[id].info, AccountOf(ss, q.rows[id]).value, v)
    ensures var i, account := q.rows[id].info, AccountOf(ss, q.rows[id]).value;
      exists u :: u in b.txns && u.id == t && GuessTxn(q, look, i, account, u) &&
        forall v :: v in b.txns && GuessTxn(q, look, i, account, v) ==> AsClose(i, account, u, v)
  {
    hide FirstRow, AlreadyIn, DuplicateRow, TransferPartner, ExchangePartner, Estimated, GuessTxn, AlikeTxn;
    forall v | v in b.txns ensures !AlikeTxn(q, ss, q.rows[id].info, AccountOf(ss, q.rows[id]).value, v) {
      AlikeIff(q, ss, id, v);
    }
    assert Estimated(q, ss, b, id, look) == Some(t);
    var u := ClosestGuess(q, ss, b, id, look, t);
    GuessFree(q, look, q.rows[id].info, AccountOf(ss, q.rows[id]).value, u);
  }

  lemma ClosestGuess(q: Queue, ss: Sources, b: Book, id: int, look: Look, t: int) returns (u: Txn)
    requires MatchableRow(q, ss, id) && Estimated(q, ss, b, id, look) == Some(t)
    ensures u in b.txns && u.id == t && !q.rows[id].info.pending
    ensures var i, account := q.rows[id].info, AccountOf(ss, q.rows[id]).value;
      GuessTxn(q, look, i, account, u) &&
      forall v :: v in b.txns && GuessTxn(q, look, i, account, v) ==> AsClose(i, account, u, v)
  {
    hide EstimateOf, GuessTxn, FirstBy, Nearer, AsClose;
    var i, account := q.rows[id].info, AccountOf(ss, q.rows[id]).value;
    var where := (t: Txn) => EstimateOf(q, ss, id, look, t);
    var key := (t: Txn) => Abs(OnAccount(t.postings, account) - i.amount);
    u := FirstOf(b, where, key, i.date, t);
    GuessIff(q, ss, id, look, u);
    forall v | v in b.txns && GuessTxn(q, look, i, account, v) ensures AsClose(i, account, u, v) {
      GuessIff(q, ss, id, look, v);
      assert where(v);
      CloseIff(i, account, u, v);
    }
  }

  lemma FirstOf(b: Book, where: Txn -> bool, key: Txn -> real, on: int, t: int) returns (u: Txn)
    requires FirstBy(b, where, key, on) == Some(t)
    ensures u in b.txns && u.id == t && where(u) && forall v :: v in b.txns && where(v) ==> !Nearer(v, u, key, on)
  {
    u :| NoneNearer(b, where, key, on, u) && u.id == t;
  }

  lemma CloseIff(i: Info, account: int, u: Txn, v: Txn)
    ensures AsClose(i, account, u, v) <==>
      !Nearer(v, u, (t: Txn) => Abs(OnAccount(t.postings, account) - i.amount), i.date)
  {
  }

  lemma GuessFree(q: Queue, look: Look, i: Info, account: int, u: Txn)
    requires GuessTxn(q, look, i, account, u)
    ensures forall o :: Waiting(q, o) ==> q.rows[o].found.txn != Some(u.id)
  {
  }

  /** And it is so proposed whenever there is such a transaction. */
  lemma EstimateWhen(q: Queue, ss: Sources, b: Book, id: int, look: Look, v: Txn)
    requires MatchableRow(q, ss, id) && v in b.txns && !q.rows[id].info.pending && q.rows[id].info.amount != 0.0
    requires GuessTxn(q, look, q.rows[id].info, AccountOf(ss, q.rows[id]).value, v)
    requires forall u :: u in b.txns ==> !AlikeTxn(q, ss, q.rows[id].info, AccountOf(ss, q.rows[id]).value, u)
    ensures Found(q, ss, b, id, look).proposal.AsClears? && Found(q, ss, b, id, look).txn.Some?
  {
    hide FirstRow, AlreadyIn, DuplicateRow, TransferPartner, ExchangePartner, EstimateOf, GuessTxn, AlikeTxn;
    GuessIff(q, ss, id, look, v);
    forall u | u in b.txns ensures !AlreadyIn(q, ss, id, u) {
      AlikeIff(q, ss, id, u);
    }
  }

  // ----- the row waits for, or is paired with, another -----

  /** No third row waits to be settled with x. */
  predicate UntakenRow(q: Queue, id: int, x: int) {
    forall o :: o in q.rows && q.rows[o].status.IsPending? && q.rows[o].found.proposal.AsDuplicate? && o != id ==>
      q.rows[o].found.row != Some(x)
  }

  /** Proposed as the duplicate of a waiting row, a row has one from another
      source on its account with its currency and amount, at most three days
      off, matched with no third, which is posted where it is not, or else came
      before it. */
  lemma SameChargeIs(q: Queue, ss: Sources, b: Book, id: int, look: Look, x: int)
    requires Numbered(q) && MatchableRow(q, ss, id)
    requires Found(q, ss, b, id, look).proposal.AsDuplicate? && Found(q, ss, b, id, look).row == Some(x)
    ensures Waiting(q, x) && AccountOf(ss, q.rows[x]) == AccountOf(ss, q.rows[id])
    ensures var i, o := q.rows[id].info, q.rows[x].info;
      o.kind.TransactionRow? && o.source != i.source && o.currency == i.currency && o.amount == i.amount &&
      i.date - 3 <= o.date <= i.date + 3 && (if i.pending == o.pending then x < id else i.pending)
    ensures q.rows[x].found.row.None? || q.rows[x].found.row == Some(id)
    ensures UntakenRow(q, id, x)
  {
    hide TransactionMatched;
    FoundRow(q, ss, b, id, look, x);
  }

  lemma FoundRow(q: Queue, ss: Sources, b: Book, id: int, look: Look, x: int)
    requires MatchableRow(q, ss, id)
    requires Found(q, ss, b, id, look).proposal.AsDuplicate? && Found(q, ss, b, id, look).row == Some(x)
    ensures x in q.rows && DuplicateRow(q, ss, id, x) && Follows(q, id, x)
  {
    hide Duplicated, Estimated, DuplicateRow, Unmatched;
    var o := FirstRow(q, x => DuplicateRow(q, ss, id, x), q.rows[id].info.date);
    if o.Some? && !Follows(q, id, o.value) {
      UnmatchedProposals(WithFound(q, o.value, Match(AsDuplicate, None, None, Some(id))), ss, id, look);
    } else {
      UnmatchedProposals(q, ss, id, look);
    }
  }

  lemma UnmatchedProposals(q: Queue, ss: Sources, id: int, look: Look)
    requires id in q.rows
    ensures var m := Unmatched(q, ss, id, look).rows[id].found; m.proposal.AsTransfer? || m.proposal.AsNew?
  {
    hide FirstRow, TransferPartner, ExchangePartner;
  }

  /** A waiting row of another source on the account with its currency and
      amount, at most three days off, matched with no third. */
  predicate AlikeRow(q: Queue, ss: Sources, id: int, x: int) {
    Waiting(q, x) && id in q.rows && x != id &&
    var i, r := q.rows[id].info, q.rows[x];
    r.info.kind.TransactionRow? && r.info.source != i.source && AccountOf(ss, r) == AccountOf(ss, q.rows[id]) &&
    r.info.currency == i.currency && r.info.amount == i.amount && i.date - 3 <= r.info.date <= i.date + 3 &&
    (r.found.row.None? || r.found.row == Some(id)) &&
    UntakenRow(q, id, x)
  }

  /** These are the rows of which AlikeBooksOnce speaks. */
  lemma AlikeRowIff(q: Queue, ss: Sources, id: int, x: int)
    ensures AlikeRow(q, ss, id, x) <==> DuplicateRow(q, ss, id, x)
  {
  }

  /** Proposed as a transfer, a row has the other side on another account, at
      most three days off, new or a side already and matched with no third: of
      the opposite amount in its currency, or of the same movement number, in
      another currency and the other way. */
  lemma OtherSideIs(q: Queue, ss: Sources, b: Book, id: int, look: Look, x: int)
    requires Numbered(q) && MatchableRow(q, ss, id)
    requires Found(q, ss, b, id, look).proposal.AsTransfer? && Found(q, ss, b, id, look).row == Some(x)
    ensures Waiting(q, x) && AccountOf(ss, q.rows[x]).Some? && AccountOf(ss, q.rows[x]) != AccountOf(ss, q.rows[id])
    ensures var i, o := q.rows[id].info, q.rows[x].info;
      o.kind.TransactionRow? && i.date - 3 <= o.date <= i.date + 3 &&
      if o.currency == i.currency then o.amount == -i.amount
      else i.reference.Some? && o.reference == i.reference &&
           (i.amount > 0.0 ==> o.amount < 0.0) && (i.amount < 0.0 ==> o.amount > 0.0)
    ensures q.rows[x].found.proposal.AsNew? || q.rows[x].found.proposal.AsTransfer?
    ensures q.rows[x].found.row.None? || q.rows[x].found.row == Some(id)
  {
    hide AlreadyIn, EstimateOf, InBooks, Duplicated, Estimated, Unmatched;
    TransferOrNew(q, ss, b, id, look, x);
    var o :| Partner(q, ss, id, o) && PairedWith(TransactionMatched(q, ss, b, id, look), id, o);
    assert o == x;
  }

  /** x could be the other side: see OtherSideIs. */
  predicate CouldPair(q: Queue, ss: Sources, id: int, x: int)
    requires id in q.rows
  {
    Waiting(q, x) && x != id &&
    AccountOf(ss, q.rows[x]).Some? && AccountOf(ss, q.rows[x]) != AccountOf(ss, q.rows[id]) &&
    var i, r := q.rows[id].info, q.rows[x];
    r.info.kind.TransactionRow? && i.date - 3 <= r.info.date <= i.date + 3 &&
    (r.found.proposal.AsNew? || r.found.proposal.AsTransfer?) && (r.found.row.None? || r.found.row == Some(id)) &&
    if r.info.currency == i.currency then r.info.amount == -i.amount
    else i.reference.Some? && r.info.reference == i.reference && Sign(r.info.amount) == -Sign(i.amount)
  }

  /** A row is new, under what its rule says, only when the books do not have it
      and no waiting row could be its other side. */
  lemma NewWhen(q: Queue, ss: Sources, b: Book, id: int, look: Look)
    requires Numbered(q) && MatchableRow(q, ss, id) && Found(q, ss, b, id, look).proposal.AsNew?
    ensures Found(q, ss, b, id, look) == Match(AsNew, look.rule, None, None)
    ensures forall v :: v in b.txns ==> !AlikeTxn(q, ss, q.rows[id].info, AccountOf(ss, q.rows[id]).value, v)
    ensures forall x :: x in q.rows ==> !CouldPair(q, ss, id, x)
  {
    hide TransactionMatched, AlikeTxn, CouldPair, Partner, InBooks;
    NewUnderRule(q, ss, b, id, look);
    forall v | v in b.txns ensures !AlikeTxn(q, ss, q.rows[id].info, AccountOf(ss, q.rows[id]).value, v) {
      if AlikeTxn(q, ss, q.rows[id].info, AccountOf(ss, q.rows[id]).value, v) {
        DuplicateWhen(q, ss, b, id, look, v);
      }
    }
    forall x | x in q.rows ensures !CouldPair(q, ss, id, x) {
      TransferOrNew(q, ss, b, id, look, x);
      PairIff(q, ss, id, x);
    }
  }

  lemma NewUnderRule(q: Queue, ss: Sources, b: Book, id: int, look: Look)
    requires MatchableRow(q, ss, id) && Found(q, ss, b, id, look).proposal.AsNew?
    ensures Found(q, ss, b, id, look) == Match(AsNew, look.rule, None, None)
  {
    hide Duplicated, Estimated, DuplicateRow, Unmatched;
    var x := FirstRow(q, x => DuplicateRow(q, ss, id, x), q.rows[id].info.date);
    if x.Some? && !Follows(q, id, x.value) {
      UnmatchedUnderRule(WithFound(q, x.value, Match(AsDuplicate, None, None, Some(id))), ss, id, look);
    } else {
      UnmatchedUnderRule(q, ss, id, look);
    }
  }

  lemma UnmatchedUnderRule(q: Queue, ss: Sources, id: int, look: Look)
    requires id in q.rows
    ensures var m := Unmatched(q, ss, id, look).rows[id].found;
      m.proposal.AsNew? ==> m == Match(AsNew, look.rule, None, None)
  {
    hide FirstRow, TransferPartner, ExchangePartner;
  }

  lemma PairIff(q: Queue, ss: Sources, id: int, x: int)
    requires id in q.rows
    ensures CouldPair(q, ss, id, x) <==> Partner(q, ss, id, x)
  {
  }

  /** One of four proposals is made, with the one link it speaks of. */
  lemma OneOfFour(q: Queue, ss: Sources, b: Book, id: int, look: Look)
    requires MatchableRow(q, ss, id)
    ensures var m := Found(q, ss, b, id, look);
      match m.proposal
      case AsDuplicate => m.category.None? && m.txn.Some? != m.row.Some?
      case AsClears => m.category.None? && m.txn.Some? && m.row.None?
      case AsTransfer => m.category.None? && m.txn.None? && m.row.Some?
      case p => p.AsNew? && m.txn.None? && m.row.None?
  {
    hide FirstRow, AlreadyIn, EstimateOf, DuplicateRow, TransferPartner, ExchangePartner, Duplicated, Estimated;
  }

  // ----- matched again -----

  /** Matched with a transaction, a row matched again is never given that one:
      it is itself the row that has it. */
  lemma RematchForgets(q: Queue, ss: Sources, b: Book, id: int, look: Look)
    requires MatchableRow(q, ss, id) && q.rows[id].found.txn.Some?
    ensures Found(q, ss, b, id, look).txn != q.rows[id].found.txn
  {
    hide TransactionMatched, AlikeTxn, GuessTxn;
    if Found(q, ss, b, id, look).txn == q.rows[id].found.txn {
      OneOfFour(q, ss, b, id, look);
      if Found(q, ss, b, id, look).proposal.AsDuplicate? {
        DuplicateIs(q, ss, b, id, look, q.rows[id].found.txn.value);
      } else {
        EstimateIs(q, ss, b, id, look, q.rows[id].found.txn.value);
      }
    }
  }

  /** The duplicate of the only transaction of its amount about its day, which
      nothing else is like, becomes new when it is matched again. */
  lemma RematchBooksAgain(q: Queue, ss: Sources, b: Book, id: int, look: Look, t: int)
    requires Numbered(q) && MatchableRow(q, ss, id) && q.rows[id].found == Match(AsDuplicate, None, Some(t), None)
    requires var i, account := q.rows[id].info, AccountOf(ss, q.rows[id]).value;
      forall v :: v in b.txns && i.date - 3 <= v.date <= i.date + 3 && Moves(v, account, i.amount) ==> v.id == t
    requires forall v :: v in b.txns ==> v.id !in look.uncleared
    requires forall x :: x in q.rows ==> !AlikeRow(q, ss, id, x) && !CouldPair(q, ss, id, x)
    ensures Found(q, ss, b, id, look) == Match(AsNew, look.rule, None, None)
  {
    hide TransactionMatched, AlikeRow, CouldPair, DuplicateRow, Partner, InBooks;
    OneOfFour(q, ss, b, id, look);
    RematchForgets(q, ss, b, id, look);
    var m := Found(q, ss, b, id, look);
    match m.proposal {
      case AsDuplicate =>
        if m.txn.Some? {
          DuplicateIs(q, ss, b, id, look, m.txn.value);
        } else {
          FoundRow(q, ss, b, id, look, m.row.value);
          AlikeRowIff(q, ss, id, m.row.value);
        }
        assert false;
      case AsClears =>
        EstimateIs(q, ss, b, id, look, m.txn.value);
        assert false;
      case AsTransfer =>
        RowPairs(q, ss, b, id, look);
        assert false;
      case _ =>
        NewUnderRule(q, ss, b, id, look);
    }
  }

  lemma RowPairs(q: Queue, ss: Sources, b: Book, id: int, look: Look)
    requires Numbered(q) && MatchableRow(q, ss, id) && Found(q, ss, b, id, look).proposal.AsTransfer?
    ensures exists x :: x in q.rows && CouldPair(q, ss, id, x)
  {
    hide TransactionMatched, Partner, CouldPair, PairedWith, InBooks;
    TransferOrNew(q, ss, b, id, look, 0);
    var o :| Partner(q, ss, id, o) && PairedWith(TransactionMatched(q, ss, b, id, look), id, o);
    PartnerRow(q, ss, id, o);
    PairIff(q, ss, id, o);
  }

  // ----- trades -----

  function TradeFound(q: Queue, ss: Sources, b: Book, id: int, look: Look): Match
    requires id in q.rows
  {
    TradeMatched(q, ss, b, id, look).rows[id].found
  }

  /** A transaction of the units on the account of the security, at most three
      days off, that no other trade, but for those ignored, is or matched. */
  predicate AlikeTrade(q: Queue, id: int, i: Info, account: int, v: Txn) {
    i.date - 3 <= v.date <= i.date + 3 && Moves(v, account, i.units) &&
    forall o :: o in q.rows && q.rows[o].info.kind.TradeRow? && !q.rows[o].status.IsIgnored? && o != id ==>
      !HasTxn(q.rows[o], v.id)
  }

  /** Proposed as the duplicate of a transaction, a trade has such a one, the
      nearest of them; and it is so proposed whenever there is one. */
  lemma TradeIs(q: Queue, ss: Sources, b: Book, id: int, look: Look)
    requires Waiting(q, id)
    ensures var i, m := q.rows[id].info, TradeFound(q, ss, b, id, look);
      match m.txn
      case Some(t) =>
        m.proposal.AsDuplicate? && look.security.Some? &&
        exists u :: u in b.txns && u.id == t && AlikeTrade(q, id, i, look.security.value, u) &&
          forall v :: v in b.txns && AlikeTrade(q, id, i, look.security.value, v) ==>
            Days(u.date, i.date) <= Days(v.date, i.date)
      case None =>
        look.security.Some? ==> forall v :: v in b.txns ==> !AlikeTrade(q, id, i, look.security.value, v)
  {
    hide FirstRow, TradeRowAlike, AlikeTrade, ClaimedByTrade, Posts;
    if look.security.Some? {
      var i, account := q.rows[id].info, look.security.value;
      var where := (t: Txn) =>
        Posts(t, account, i.units) && Within(t.date, i.date, DUPLICATE_WINDOW, DUPLICATE_WINDOW) &&
        !ClaimedByTrade(q, id, t.id);
      forall v ensures AlikeTrade(q, id, i, account, v) <==> where(v) {
        AlikeTradeIff(q, id, i, account, v);
      }
      assert TradeDuplicated(q, b, id, look) == FirstTxn(b, where, i.date);
      if TradeDuplicated(q, b, id, look).Some? {
        var u :| NoneNearer(b, where, Zero(), i.date, u) && u.id == TradeDuplicated(q, b, id, look).value;
      }
    }
  }

  lemma AlikeTradeIff(q: Queue, id: int, i: Info, account: int, v: Txn)
    ensures AlikeTrade(q, id, i, account, v) <==>
      Posts(v, account, i.units) && Within(v.date, i.date, DUPLICATE_WINDOW, DUPLICATE_WINDOW) &&
      !ClaimedByTrade(q, id, v.id)
  {
  }

  /** Proposed as the duplicate of a waiting trade, a trade has one from another
      source on its account, of its security and units, at most three days off,
      matched with no third, which knows its cash where it does not, or else came
      before it. */
  lemma SameTradeIs(q: Queue, ss: Sources, b: Book, id: int, look: Look, x: int)
    requires Waiting(q, id) && TradeFound(q, ss, b, id, look).row == Some(x)
    ensures TradeFound(q, ss, b, id, look).proposal.AsDuplicate? && Waiting(q, x) && q.rows[x].info.kind.TradeRow?
    ensures var i, o := q.rows[id].info, q.rows[x].info;
      AccountOf(ss, q.rows[x]) == AccountOf(ss, q.rows[id]) && o.source != i.source && o.security == i.security &&
      o.units == i.units && i.date - 3 <= o.date <= i.date + 3 &&
      if i.cash.Some? == o.cash.Some? then x < id else o.cash.Some?
    ensures q.rows[x].found.row.None? || q.rows[x].found.row == Some(id)
    ensures UntakenRow(q, id, x)
  {
    hide TradeDuplicated;
    assert TradeRowAlike(q, ss, id, x);
  }

  /** Else a trade is new; and where there are waiting trades alike, one of the
      nearest now waits for it. */
  lemma TradeNewWhen(q: Queue, ss: Sources, b: Book, id: int, look: Look, x: int)
    requires Numbered(q) && Waiting(q, id) && TradeFound(q, ss, b, id, look).proposal.AsNew?
    ensures TradeFound(q, ss, b, id, look) == Match(AsNew, None, None, None)
    ensures AlikeTradeRow(q, ss, id, x) ==>
      exists o :: AlikeTradeRow(q, ss, id, o) && AsNear(q, id, o, x) &&
        TradeMatched(q, ss, b, id, look).rows[o].found == Match(AsDuplicate, None, None, Some(id))
  {
    hide TradeDuplicated, AlikeTradeRow;
    forall o ensures AlikeTradeRow(q, ss, id, o) <==> TradeRowAlike(q, ss, id, o) {
      AlikeTradeRowIff(q, ss, id, o);
    }
    if AlikeTradeRow(q, ss, id, x) {
      AlikeWaits(q, ss, id, x);
      var found := FirstRow(q, x => TradeRowAlike(q, ss, id, x), q.rows[id].info.date);
      assert TradeRowAlike(q, ss, id, x) && found.Some?;
      var o := found.value;
      assert TradeRowAlike(q, ss, id, o);
      assert AsNear(q, id, o, x);
      assert o != id && TradeMatched(q, ss, b, id, look).rows[o].found == Match(AsDuplicate, None, None, Some(id));
    }
  }

  /** A waiting trade of another source on the account with the same security
      and units, at most three days off, matched with no third. */
  predicate AlikeTradeRow(q: Queue, ss: Sources, id: int, x: int) {
    Waiting(q, x) && id in q.rows && x != id &&
    var i, r := q.rows[id].info, q.rows[x];
    r.info.kind.TradeRow? && r.info.source != i.source && AccountOf(ss, r) == AccountOf(ss, q.rows[id]) &&
    r.info.security == i.security && r.info.units == i.units && i.date - 3 <= r.info.date <= i.date + 3 &&
    (r.found.row.None? || r.found.row == Some(id)) &&
    UntakenRow(q, id, x)
  }

  lemma AlikeTradeRowIff(q: Queue, ss: Sources, id: int, x: int)
    ensures AlikeTradeRow(q, ss, id, x) <==> TradeRowAlike(q, ss, id, x)
  {
  }

  lemma AlikeWaits(q: Queue, ss: Sources, id: int, x: int)
    requires AlikeTradeRow(q, ss, id, x)
    ensures x in q.rows && id in q.rows
  {
  }
}
