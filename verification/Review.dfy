// The review queue on its store (internal/ledger: imports.go, securities.go,
// invoices.go): importing a batch, matching it, and accepting or ignoring rows,
// with the transactions they book.
module Review {
  import opened Sums
  import opened Core
  import opened Lines
  import opened Journal
  import opened Accepted
  import opened Invoices
  import opened ImportQueue
  import opened Matching

  const REMATCH_LIMIT := 500
  const SETTLEMENT_WINDOW := 5

  // ----- several rows matched again, one after another -----

  function DateOf(q: Queue, x: int): int {
    if x in q.rows then q.rows[x].info.date else 0
  }

  function InsertByDate(q: Queue, ids: seq<int>, x: int): (r: seq<int>)
    ensures forall y :: y in r <==> y in ids || y == x
  {
    if |ids| == 0 then [x]
    else if DateOf(q, ids[|ids| - 1]) <= DateOf(q, x) then ids + [x]
    else InsertByDate(q, ids[..|ids| - 1], x) + [ids[|ids| - 1]]
  }

  /** The rows where a condition holds, ORDER BY date, id. */
  function Listed(q: Queue, where: int -> bool, below: int): (r: seq<int>)
    ensures forall x :: x in r <==> 0 < x < below && x in q.rows && where(x)
    decreases below
  {
    if below <= 1 then [] else
      var r := Listed(q, where, below - 1);
      if below - 1 in q.rows && where(below - 1) then InsertByDate(q, r, below - 1) else r
  }

  /** Before another in a list by day, and by id on one day. */
  predicate Precedes(q: Queue, x: int, y: int) {
    DateOf(q, x) < DateOf(q, y) || (DateOf(q, x) == DateOf(q, y) && x < y)
  }

  predicate InTurn(q: Queue, ids: seq<int>) {
    forall i, j :: 0 <= i < j < |ids| ==> Precedes(q, ids[i], ids[j])
  }

  lemma InsertedInTurn(q: Queue, ids: seq<int>, x: int)
    requires InTurn(q, ids) && forall y :: y in ids ==> y < x
    ensures InTurn(q, InsertByDate(q, ids, x))
  {
    if |ids| > 0 {
      var front, last := ids[..|ids| - 1], ids[|ids| - 1];
      assert last in ids;
      if DateOf(q, last) <= DateOf(q, x) {
        forall i | 0 <= i < |ids| ensures Precedes(q, ids[i], x) {
          assert ids[i] in ids;
          assert i < |ids| - 1 ==> Precedes(q, ids[i], last);
        }
      } else {
        assert forall y :: y in front ==> y in ids;
        InsertedInTurn(q, front, x);
        var r := InsertByDate(q, front, x);
        forall i | 0 <= i < |r| ensures Precedes(q, r[i], last) {
          assert r[i] in r;
          if r[i] in front {
            var k :| 0 <= k < |front| && front[k] == r[i];
            assert ids[k] == r[i];
          }
        }
      }
    }
  }

  /** Rows are taken by day, and by id on one day. */
  lemma {:induction false} ListedInTurn(q: Queue, where: int -> bool, below: int)
    ensures InTurn(q, Listed(q, where, below))
    decreases below
  {
    hide InsertByDate, InTurn;
    if below > 1 {
      ListedInTurn(q, where, below - 1);
      InsertedInTurn(q, Listed(q, where, below - 1), below - 1);
    } else {
      assert InTurn(q, []) by { NoneInTurn(q); }
    }
  }

  lemma NoneInTurn(q: Queue)
    ensures InTurn(q, [])
  {
  }

  function MatchedEach(q: Queue, ss: Sources, b: Book, ids: seq<int>, looks: int -> Look): Queue {
    if |ids| == 0 then q else
      var q1 := MatchedEach(q, ss, b, ids[..|ids| - 1], looks);
      var x := ids[|ids| - 1];
      if x in q1.rows then Matched(q1, ss, b, x, looks(x)) else q1
  }

  function WaitingInvoices(q: Queue): (r: seq<int>)
    ensures forall x :: x in r ==> Waiting(q, x) && q.rows[x].info.kind.InvoiceRow?
  {
    var all := Listed(q, x => Waiting(q, x) && q.rows[x].info.kind.InvoiceRow?, q.next);
    if |all| <= REMATCH_LIMIT then all else all[..REMATCH_LIMIT]
  }

  function InvoicesRematched(q: Queue, ss: Sources, b: Book, looks: int -> Look): Queue {
    MatchedEach(q, ss, b, WaitingInvoices(q), looks)
  }

  /** Matching again keeps every decision: a row set aside meanwhile is one
      whose source is ignored, or one that books nothing. */
  predicate Rematched(q: Queue, q1: Queue) {
    q1.next == q.next && q1.rows.Keys == q.rows.Keys && forall x :: x in q.rows ==> RowRematched(q, q1, x)
  }

  predicate RowRematched(q: Queue, q1: Queue, x: int) {
    x in q.rows && x in q1.rows && q1.rows[x].info == q.rows[x].info &&
    (!q.rows[x].status.IsPending? ==> q1.rows[x] == q.rows[x]) &&
    (q.rows[x].status.IsPending? && q1.rows[x].status.IsAccepted? ==> !Booked(q.rows[x].info.kind)) &&
    (q1.rows[x].status.IsPending? ==> q1.rows[x].txn == q.rows[x].txn)
  }

  lemma RematchedOne(q: Queue, ss: Sources, b: Book, id: int, look: Look)
    requires id in q.rows
    ensures Rematched(q, Matched(q, ss, b, id, look))
  {
    hide Matched, Reaches;
    MatchedWrites(q, ss, b, id, look);
    var q1 := Matched(q, ss, b, id, look);
    if Relinked(q, q1, id) {
      forall x | x in q.rows ensures RowRematched(q, q1, x) {
        assert RowRelinked(q, q1, id, x);
      }
    }
  }

  lemma RematchedThen(q: Queue, q1: Queue, q2: Queue)
    requires Rematched(q, q1) && Rematched(q1, q2)
    ensures Rematched(q, q2)
  {
    forall x | x in q.rows ensures RowRematched(q, q2, x) {
      assert RowRematched(q, q1, x) && x in q1.rows && RowRematched(q1, q2, x);
    }
  }

  lemma {:induction false} MatchedEachWrites(q: Queue, ss: Sources, b: Book, ids: seq<int>, looks: int -> Look)
    ensures Reaches(q, MatchedEach(q, ss, b, ids, looks)) && Rematched(q, MatchedEach(q, ss, b, ids, looks))
  {
    hide Matched, Reaches, Rematched;
    if |ids| == 0 {
      ReachesSelf(q);
      RematchedSelf(q);
    } else {
      var x := ids[|ids| - 1];
      MatchedEachWrites(q, ss, b, ids[..|ids| - 1], looks);
      var q1 := MatchedEach(q, ss, b, ids[..|ids| - 1], looks);
      if x in q1.rows {
        MatchedWrites(q1, ss, b, x, looks(x));
        RematchedOne(q1, ss, b, x, looks(x));
        ReachesThen(q, q1, Matched(q1, ss, b, x, looks(x)));
        RematchedThen(q, q1, Matched(q1, ss, b, x, looks(x)));
      }
    }
  }

  lemma RematchedSelf(q: Queue)
    ensures Rematched(q, q)
  {
  }

  /** Only the proposals and items of waiting invoices change. */
  predicate OnlyInvoices(q: Queue, q1: Queue) {
    q1.next == q.next && q1.rows.Keys == q.rows.Keys && forall x :: x in q.rows ==> SameButInvoice(q, q1, x)
  }

  predicate SameButInvoice(q: Queue, q1: Queue, x: int) {
    x in q.rows && x in q1.rows && q1.rows[x].info == q.rows[x].info && q1.rows[x].status == q.rows[x].status &&
    q1.rows[x].txn == q.rows[x].txn &&
    ((Waiting(q, x) && q.rows[x].info.kind.InvoiceRow?) || q1.rows[x] == q.rows[x])
  }

  lemma {:induction false} RematchedInvoices(q: Queue, ss: Sources, b: Book, ids: seq<int>, looks: int -> Look)
    requires forall x :: x in ids ==> Waiting(q, x) && q.rows[x].info.kind.InvoiceRow?
    ensures OnlyInvoices(q, MatchedEach(q, ss, b, ids, looks))
  {
    hide InvoiceFound;
    if |ids| > 0 {
      assert forall x :: x in ids[..|ids| - 1] ==> x in ids;
      RematchedInvoices(q, ss, b, ids[..|ids| - 1], looks);
      assert ids[|ids| - 1] in ids;
    }
  }

  // ----- what an accepted transaction row books -----

  datatype Booking = Booking(book: Book, queue: Queue, txn: int)

  function SideOf(r: Row, account: int): Side {
    Side(account, r.info.currency, r.info.amount, r.info.date)
  }

  /** A category chosen by the person books the row as new. */
  function Chosen(r: Row, category: Option<int>): Proposal {
    if category.Some? then AsNew else r.found.proposal
  }

  predicate WaitsForRow(r: Row, category: Option<int>) {
    Chosen(r, category).AsDuplicate? && r.found.txn.None? && r.found.row.Some?
  }

  /** The link it was proposed with has been lost. */
  predicate MatchGone(r: Row, category: Option<int>) {
    ((Chosen(r, category).AsDuplicate? || Chosen(r, category).AsClears?) && r.found.txn.None? && !WaitsForRow(r, category)) ||
    (Chosen(r, category).AsTransfer? && r.found.row.None?)
  }

  function Min(a: int, b: int): int {
    if b < a then b else a
  }

  function BookedClears(w: World, b: Book, q: Queue, id: int, side: Side, t: int): Result<Booking>
    requires id in q.rows
  {
    var i := IndexOf(b.txns, t);
    if i == |b.txns| then Err(NotFound) else
      var b1 :- Update(w, b, t, b.txns[i].date, ClearsLines(b.base, side, b.txns[i].postings));
      Ok(Booking(b1, AcceptedAlone(q, id, t), t))
  }

  function BookedTransfer(w: World, b: Book, q: Queue, ss: Sources, id: int, side: Side, other: int): Result<Booking>
    requires id in q.rows
  {
    if !Waiting(q, other) || AccountOf(ss, q.rows[other]).None? then Err(Conflict) else
      var second := SideOf(q.rows[other], AccountOf(ss, q.rows[other]).value);
      var lines :- TransferLines(w, b.base, side, second);
      var b1 :- CreateTx(w, b, Min(side.date, second.date), lines);
      Ok(Booking(b1, AcceptedTransfer(q, id, other, b.nextId), b.nextId))
  }

  function BookedNew(w: World, b: Book, q: Queue, id: int, side: Side, category: Option<int>): Result<Booking>
    requires id in q.rows
  {
    if category.None? then Err(Required) else
      var b1 :- CreateTx(w, b, side.date, NewLines(side, category.value));
      Ok(Booking(b1, AcceptedAlone(q, id, b.nextId), b.nextId))
  }

  function BookedRow(w: World, b: Book, q: Queue, ss: Sources, id: int, category: Option<int>): Result<Booking>
    requires id in q.rows && AccountOf(ss, q.rows[id]).Some?
    requires !WaitsForRow(q.rows[id], category) && !MatchGone(q.rows[id], category)
  {
    var r := q.rows[id];
    var side := SideOf(r, AccountOf(ss, r).value);
    match Chosen(r, category)
    case AsDuplicate => Ok(Booking(b, AcceptedAlone(q, id, r.found.txn.value), r.found.txn.value))
    case AsClears => BookedClears(w, b, q, id, side, r.found.txn.value)
    case AsTransfer => BookedTransfer(w, b, q, ss, id, side, r.found.row.value)
    case _ => BookedNew(w, b, q, id, side, if category.Some? then category else r.found.category)
  }

  function TradeOf(r: Row, settlement: int, security: int, cash: real): Trade {
    Trade(security, settlement, r.info.currency, r.info.units, r.info.price, cash, r.info.date)
  }

  function BookedTrade(w: World, b: Book, q: Queue, ss: Sources, id: int, cash: Option<real>,
      security: int): Result<Booking>
    requires id in q.rows
  {
    var r := q.rows[id];
    var paid := if cash.Some? then cash else r.info.cash;
    if paid.None? then Err(Required)
    else if SourceOf(ss, r).settlement.None? then Err(Invalid)
    else
      var b1 :- BookTrade(w, b, TradeOf(r, SourceOf(ss, r).settlement.value, security, paid.value));
      Ok(Booking(b1, AcceptedAlone(q, id, b.nextId), b.nextId))
  }

  /** The waiting rows of an account near a day. */
  function OnAccountNear(q: Queue, ss: Sources, account: int, on: int): seq<int> {
    Listed(q, x => Waiting(q, x) && q.rows[x].info.kind.TransactionRow? && AccountOf(ss, q.rows[x]) == Some(account) &&
                   Within(q.rows[x].info.date, on, SETTLEMENT_WINDOW, SETTLEMENT_WINDOW), q.next)
  }

  function SettlementRematched(q: Queue, ss: Sources, b: Book, trade: Row, looks: int -> Look): Queue {
    match SourceOf(ss, trade).settlement
    case Some(account) => MatchedEach(q, ss, b, OnAccountNear(q, ss, account, trade.info.date), looks)
    case None => q
  }

  // ----- ignoring -----

  /** Decided rows stay as they are; the others may be decided. */
  predicate Moved(q: Queue, q1: Queue) {
    q1.next == q.next && q1.rows.Keys == q.rows.Keys && forall x :: x in q.rows ==> RowMoved(q, q1, x)
  }

  predicate RowMoved(q: Queue, q1: Queue, x: int) {
    x in q.rows && x in q1.rows && q1.rows[x].info == q.rows[x].info &&
    (!q.rows[x].status.IsPending? ==> q1.rows[x] == q.rows[x])
  }

  lemma MovedSelf(q: Queue)
    ensures Moved(q, q)
  {
  }

  lemma RematchedMoves(q: Queue, q1: Queue)
    requires Rematched(q, q1)
    ensures Moved(q, q1)
  {
    forall x | x in q.rows ensures RowMoved(q, q1, x) {
      assert RowRematched(q, q1, x);
    }
  }

  lemma MovedThen(q: Queue, q1: Queue, q2: Queue, q3: Queue)
    requires Moved(q, q1) && Moved(q1, q2) && Moved(q2, q3)
    ensures Moved(q, q3)
  {
    forall x | x in q.rows ensures RowMoved(q, q3, x) {
      assert RowMoved(q, q1, x) && x in q1.rows && RowMoved(q1, q2, x) && x in q2.rows && RowMoved(q2, q3, x);
    }
  }

  /** PendingRowsOfSource. */
  function WaitingOf(q: Queue, source: int): seq<int> {
    Listed(q, x => Waiting(q, x) && q.rows[x].info.source == source, q.next)
  }

  predicate AllDecided(q: Queue, ids: seq<int>) {
    forall k :: 0 <= k < |ids| ==> ids[k] in q.rows && !q.rows[ids[k]].status.IsPending?
  }

  lemma NoneDecided(q: Queue, ids: seq<int>)
    ensures AllDecided(q, ids[..0])
  {
  }

  lemma DecidedMore(q: Queue, q1: Queue, q2: Queue, ids: seq<int>, i: nat)
    requires Moved(q, q1) && Moved(q1, q2) && i < |ids| && AllDecided(q1, ids[..i])
    requires ids[i] in q2.rows && !q2.rows[ids[i]].status.IsPending?
    ensures Moved(q, q2) && AllDecided(q2, ids[..i + 1])
  {
    MovedSelf(q);
    MovedThen(q, q, q1, q2);
    forall k | 0 <= k < i + 1 ensures ids[k] in q2.rows && !q2.rows[ids[k]].status.IsPending? {
      if k < i {
        assert ids[..i][k] == ids[k];
        assert RowMoved(q1, q2, ids[k]);
      }
    }
  }

  lemma StillRow(q: Queue, q1: Queue, x: int)
    requires Moved(q, q1) && x in q.rows
    ensures x in q1.rows
  {
    assert RowMoved(q, q1, x);
  }

  lemma NoneLeft(q: Queue, q1: Queue, ids: seq<int>, source: int)
    requires Moved(q, q1) && AllDecided(q1, ids)
    requires forall x :: Waiting(q, x) && q.rows[x].info.source == source ==> x in ids
    ensures forall x :: Waiting(q1, x) ==> q1.rows[x].info.source != source
  {
    forall x | x in ids ensures !Waiting(q1, x) {
      var k :| 0 <= k < |ids| && ids[k] == x;
    }
    forall x | Waiting(q1, x) ensures q1.rows[x].info.source != source {
      assert RowMoved(q, q1, x);
    }
  }

  /** Nothing still waits for the row, but what is not matched at all yet. */
  ghost predicate LeftWaiting(q: Queue, ss: Sources, id: int) {
    forall x :: Waiting(q, x) && q.rows[x].found.row == Some(id) ==> Unmapped(q, ss, x)
  }

  ghost predicate LeftBut(q: Queue, ss: Sources, id: int, todo: set<int>) {
    forall x :: Waiting(q, x) && q.rows[x].found.row == Some(id) && x !in todo ==> Unmapped(q, ss, x)
  }

  /** Matching one row again takes away its link to a decided row, and gives no
      row such a link. */
  lemma LinksMoved(q: Queue, ss: Sources, b: Book, x: int, look: Look, id: int)
    requires x in q.rows && id in q.rows && !q.rows[id].status.IsPending?
    ensures var q1 := Matched(q, ss, b, x, look);
      q1.rows.Keys == q.rows.Keys && q1.rows[id] == q.rows[id] &&
      forall y :: Waiting(q1, y) && q1.rows[y].found.row == Some(id) ==>
        Waiting(q, y) && q.rows[y].found.row == Some(id) && (y == x ==> Unmapped(q, ss, x)) &&
        (Unmapped(q, ss, y) ==> Unmapped(q1, ss, y))
  {
    hide Matched, Reaches;
    MatchedWrites(q, ss, b, x, look);
    var q1 := Matched(q, ss, b, x, look);
    if Relinked(q, q1, x) {
      assert RowRelinked(q, q1, x, id);
      forall y | Waiting(q1, y) && q1.rows[y].found.row == Some(id)
        ensures Waiting(q, y) && q.rows[y].found.row == Some(id) && (y == x ==> Unmapped(q, ss, x)) &&
          (Unmapped(q, ss, y) ==> Unmapped(q1, ss, y))
      {
        assert RowRelinked(q, q1, x, y);
      }
    }
  }

  // ----- invoices -----

  function InvoiceRefusal(r: Row, category: Option<int>): Option<Error> {
    var p := Chosen(r, category);
    if r.info.amount == 0.0 && (p.AsNew? || p.AsWaiting?) then Some(Invalid)
    else if p.AsWaiting? then Some(Required)
    else if (p.AsSameInvoice? || p.AsEnrich?) && r.found.txn.None? && r.found.row.Some? then Some(Conflict)
    else None
  }

  predicate InvoiceGone(r: Row, category: Option<int>) {
    (Chosen(r, category).AsSameInvoice? || Chosen(r, category).AsEnrich?) && r.found.txn.None? && r.found.row.None?
  }

  /** A paid transaction is split by the items where it can be, and keeps its
      day and every commodity's amounts; else it stays as it was. */
  ghost predicate EnrichedBy(w: World, b: Book, i: Info, items: seq<Item>, t: int, lines: Option<seq<Line>>, b1: Book) {
    var k := IndexOf(b.txns, t);
    k < |b.txns| && SplitIs(b, b.txns[k].postings, i.currency, i.amount, items, lines) &&
    match lines
    case None => b1 == b
    case Some(ls) =>
      Update(w, b, t, b.txns[k].date, ls) == Ok(b1) &&
      forall c :: Sum(ls, LineAmount(c)) == Sum(b.txns[k].postings, PostingAmount(c))
  }

  /** The payment first, then lines that make up for it, by what the items say
      and the category chosen. */
  ghost predicate PurchasedBy(w: World, b: Book, i: Info, account: int, items: seq<Item>, category: Option<int>,
      lines: seq<Line>, b1: Book) {
    CreateTx(w, b, i.date, lines) == Ok(b1) && |lines| > 0 && lines[0] == Plain(account, i.currency, i.amount) &&
    Sum(lines, LineAmount(i.currency)) == 0.0 && Shares(lines, items, category, i.amount)
  }

  function SplitBy(r: Row, split: bool): seq<Item> {
    if split then r.items else []
  }

  ghost predicate InvoiceBooked(w: World, b: Book, r: Row, ss: Sources, category: Option<int>, split: bool, t: int,
      lines: Option<seq<Line>>, b1: Book) {
    match Chosen(r, category)
    case AsSameInvoice => r.found.txn == Some(t) && b1 == b
    case AsEnrich => r.found.txn == Some(t) && EnrichedBy(w, b, r.info, SplitBy(r, split), t, lines, b1)
    case _ =>
      t == b.nextId && AccountOf(ss, r).Some? && lines.Some? &&
      PurchasedBy(w, b, r.info, AccountOf(ss, r).value, SplitBy(r, split),
                  if category.Some? then category else r.found.category, lines.value, b1)
  }

  // ----- when Accept answers that something else comes first -----

  /** Held up by the row it is matched with: that is to be decided first, or
      can be no side of the transfer (any longer, or until it is mapped). */
  predicate HeldUp(q: Queue, ss: Sources, x: int) {
    x in q.rows && q.rows[x].found.row.Some? &&
    var r := q.rows[x];
    match r.info.kind
    case InvoiceRow => (r.found.proposal.AsSameInvoice? || r.found.proposal.AsEnrich?) && r.found.txn.None?
    case TradeRow => r.found.proposal.AsDuplicate? && r.found.txn.None?
    case _ =>
      (r.found.proposal.AsDuplicate? && r.found.txn.None?) ||
      (r.found.proposal.AsTransfer? && NoSide(q, ss, r.found.row.value))
  }

  /** A waiting row of a kind that is booked, its source mapped if it needs to be. */
  predicate Bookable(q: Queue, ss: Sources, x: int) {
    Waiting(q, x) && Booked(q.rows[x].info.kind) && !Unmapped(q, ss, x)
  }

  predicate NoSide(q: Queue, ss: Sources, x: int) {
    !Waiting(q, x) || AccountOf(ss, q.rows[x]).None?
  }

  /** What it was matched with is gone: matched again. */
  predicate MatchLost(r: Row) {
    match r.info.kind
    case InvoiceRow => InvoiceGone(r, None)
    case TradeRow => r.found.proposal.AsDuplicate? && r.found.txn.None? && r.found.row.None?
    case _ => MatchGone(r, None)
  }

  lemma ResolvesOr(c: Context, l: Line)
    ensures ResolveLine(c, l) != Err(Conflict)
  {
    hide CostBasisOf;
  }

  lemma {:induction false} PreparesOr(c: Context, lines: seq<Line>)
    ensures ResolveAll(c, lines) != Err(Conflict) && Prepare(c, lines) != Err(Conflict)
  {
    hide ResolveLine, Foreign;
    if |lines| > 0 {
      PreparesOr(c, lines[..|lines| - 1]);
      ResolvesOr(c, lines[|lines| - 1]);
    }
  }

  lemma WritesOr(w: World, b: Book, id: int, date: int, lines: seq<Line>)
    ensures CreateTx(w, b, date, lines) != Err(Conflict) && Update(w, b, id, date, lines) != Err(Conflict)
  {
    hide Prepare;
    PreparesOr(Context(w, WithPostings(Headed(b, date), |b.txns|, date, []), date, b.nextId), lines);
    var i := IndexOf(b.txns, id);
    if i < |b.txns| {
      PreparesOr(Context(w, WithPostings(b, i, date, []), date, b.txns[i].id), lines);
    }
  }

  /** Whatever the books and the prices, a row that would be booked conflicts
      exactly when it is held up. */
  lemma HeldIff(w: World, b: Book, q: Queue, ss: Sources, id: int, category: Option<int>)
    requires id in q.rows && q.rows[id].info.kind.TransactionRow? && AccountOf(ss, q.rows[id]).Some?
    requires !WaitsForRow(q.rows[id], category) && !MatchGone(q.rows[id], category)
    ensures BookedRow(w, b, q, ss, id, category) == Err(Conflict) <==> category.None? && HeldUp(q, ss, id)
  {
    hide CreateTx, Update, ClearsLines;
    var r := q.rows[id];
    var side := SideOf(r, AccountOf(ss, r).value);
    match Chosen(r, category) {
      case AsDuplicate =>
      case AsClears =>
        var i := IndexOf(b.txns, r.found.txn.value);
        if i < |b.txns| {
          WritesOr(w, b, r.found.txn.value, b.txns[i].date, ClearsLines(b.base, side, b.txns[i].postings));
        }
      case AsTransfer =>
        if !NoSide(q, ss, r.found.row.value) {
          var other := q.rows[r.found.row.value];
          var second := SideOf(other, AccountOf(ss, other).value);
          var lines := TransferLines(w, b.base, side, second);
          if lines.Ok? {
            WritesOr(w, b, 0, Min(side.date, second.date), lines.value);
          }
        }
      case _ =>
        var chosen := if category.Some? then category else r.found.category;
        if chosen.Some? {
          WritesOr(w, b, 0, side.date, NewLines(side, chosen.value));
        }
    }
  }

  lemma TradeNoConflict(w: World, b: Book, q: Queue, ss: Sources, id: int, cash: Option<real>, security: int)
    requires id in q.rows
    ensures BookedTrade(w, b, q, ss, id, cash, security) != Err(Conflict)
  {
    hide CreateTx, ResolveLine;
    var r := q.rows[id];
    var paid := if cash.Some? then cash else r.info.cash;
    if paid.Some? && SourceOf(ss, r).settlement.Some? {
      var t := TradeOf(r, SourceOf(ss, r).settlement.value, security, paid.value);
      ResolvesOr(Context(w, b, t.date, 0), CashLine(t));
      ResolvesOr(Context(w, b, t.date, 0), Plain(t.security, "", t.units));
      var lines := TradeLines(w, b, t);
      if lines.Ok? {
        WritesOr(w, b, 0, t.date, lines.value);
      }
    }
  }

  // ----- every way of accepting keeps the books sound -----

  lemma BookedRowSound(w: World, b: Book, q: Queue, ss: Sources, id: int, category: Option<int>)
    requires Sound(w, b) && id in q.rows && AccountOf(ss, q.rows[id]).Some?
    requires !WaitsForRow(q.rows[id], category) && !MatchGone(q.rows[id], category)
    requires BookedRow(w, b, q, ss, id, category).Ok?
    ensures Sound(w, BookedRow(w, b, q, ss, id, category).value.book)
  {
    hide Sound, CreateTx, Update, TransferLines, ClearsLines, AcceptedAlone, AcceptedTransfer;
    var r := q.rows[id];
    var side := SideOf(r, AccountOf(ss, r).value);
    match Chosen(r, category) {
      case AsDuplicate =>
      case AsClears =>
        var i := IndexOf(b.txns, r.found.txn.value);
        UpdateSound(w, b, r.found.txn.value, b.txns[i].date, ClearsLines(b.base, side, b.txns[i].postings));
      case AsTransfer =>
        var other := q.rows[r.found.row.value];
        var second := SideOf(other, AccountOf(ss, other).value);
        CreateTxSound(w, b, Min(side.date, second.date), TransferLines(w, b.base, side, second).value);
      case _ =>
        var chosen := if category.Some? then category else r.found.category;
        CreateTxSound(w, b, side.date, NewLines(side, chosen.value));
    }
  }

  lemma BookedTradeSound(w: World, b: Book, q: Queue, ss: Sources, id: int, cash: Option<real>, security: int)
    requires Sound(w, b) && id in q.rows && BookedTrade(w, b, q, ss, id, cash, security).Ok?
    ensures Sound(w, BookedTrade(w, b, q, ss, id, cash, security).value.book)
  {
    hide Sound, CreateTx, TradeLines, AcceptedAlone;
    var r := q.rows[id];
    var t := TradeOf(r, SourceOf(ss, r).settlement.value, security, (if cash.Some? then cash else r.info.cash).value);
    CreateTxSound(w, b, t.date, TradeLines(w, b, t).value);
  }

  lemma InvoiceBookedSound(w: World, b: Book, r: Row, ss: Sources, category: Option<int>, split: bool, t: int,
      lines: Option<seq<Line>>, b1: Book)
    requires Sound(w, b) && InvoiceBooked(w, b, r, ss, category, split, t, lines, b1)
    ensures Sound(w, b1)
  {
    hide Sound, CreateTx, Update, LineAmount, PostingAmount, SplitIs, Shares;
    if Chosen(r, category).AsEnrich? {
      if lines.Some? {
        UpdateSound(w, b, t, b.txns[IndexOf(b.txns, t)].date, lines.value);
      }
    } else if !Chosen(r, category).AsSameInvoice? {
      CreateTxSound(w, b, r.info.date, lines.value);
    }
  }

  // ----- every way of accepting decides the row -----

  predicate AcceptedNow(q: Queue, id: int, t: int) {
    id in q.rows && q.rows[id].status.IsAccepted? && q.rows[id].txn == Some(t)
  }

  lemma AloneMoves(q: Queue, id: int, t: int)
    requires Waiting(q, id)
    ensures Moved(q, AcceptedAlone(q, id, t)) && AcceptedNow(AcceptedAlone(q, id, t), id, t)
  {
  }

  lemma BothMove(q: Queue, id: int, other: int, t: int)
    requires Waiting(q, id) && Waiting(q, other)
    ensures Moved(q, AcceptedTransfer(q, id, other, t)) && AcceptedNow(AcceptedTransfer(q, id, other, t), id, t)
  {
  }

  lemma ThenRematched(q: Queue, q1: Queue, q2: Queue, id: int, t: int)
    requires Moved(q, q1) && AcceptedNow(q1, id, t) && Rematched(q1, q2)
    ensures Moved(q, q2) && AcceptedNow(q2, id, t)
  {
    RematchedMoves(q1, q2);
    MovedSelf(q);
    MovedThen(q, q, q1, q2);
    assert RowMoved(q1, q2, id);
  }

  lemma MatchedMoves(q: Queue, ss: Sources, b: Book, id: int, look: Look)
    requires id in q.rows
    ensures Moved(q, Matched(q, ss, b, id, look))
  {
    hide Matched, Rematched, Moved;
    RematchedOne(q, ss, b, id, look);
    RematchedMoves(q, Matched(q, ss, b, id, look));
  }

  lemma TradeMatchedMoves(q: Queue, ss: Sources, b: Book, id: int, look: Look)
    requires Waiting(q, id) && q.rows[id].info.kind.TradeRow?
    ensures Moved(q, TradeMatched(q, ss, b, id, look))
  {
    hide TradeMatched, Reaches;
    TradeWrites(q, ss, b, id, look);
    var q1 := TradeMatched(q, ss, b, id, look);
    forall x | x in q.rows ensures RowMoved(q, q1, x) {
      assert RowRelinked(q, q1, id, x);
    }
  }

  lemma InvoicesThen(q: Queue, q1: Queue, ss: Sources, b: Book, looks: int -> Look, id: int, t: int)
    requires Moved(q, q1) && AcceptedNow(q1, id, t)
    ensures var q2 := InvoicesRematched(q1, ss, b, looks); Moved(q, q2) && AcceptedNow(q2, id, t)
  {
    hide MatchedEach, Reaches, Rematched, Moved, Listed;
    MatchedEachWrites(q1, ss, b, WaitingInvoices(q1), looks);
    ThenRematched(q, q1, InvoicesRematched(q1, ss, b, looks), id, t);
  }

  lemma BookedRowMoves(w: World, b: Book, q: Queue, ss: Sources, id: int, category: Option<int>)
    requires Waiting(q, id) && AccountOf(ss, q.rows[id]).Some?
    requires !WaitsForRow(q.rows[id], category) && !MatchGone(q.rows[id], category)
    requires BookedRow(w, b, q, ss, id, category).Ok?
    ensures var k := BookedRow(w, b, q, ss, id, category).value; Moved(q, k.queue) && AcceptedNow(k.queue, id, k.txn)
  {
    hide AcceptedAlone, AcceptedTransfer, CreateTx, Update, TransferLines, ClearsLines, Moved;
    var k := BookedRow(w, b, q, ss, id, category).value;
    if Chosen(q.rows[id], category).AsTransfer? {
      BothMove(q, id, q.rows[id].found.row.value, k.txn);
    } else {
      AloneMoves(q, id, k.txn);
    }
  }

  lemma DecidedMoves(q: Queue, id: int, t: int)
    requires Waiting(q, id)
    ensures var q1 := Decided(q, id, IsAccepted, Some(t)); Moved(q, q1) && AcceptedNow(q1, id, t)
  {
  }

  lemma TradeMoves(w: World, b: Book, q: Queue, ss: Sources, id: int, cash: Option<real>, security: int,
      looks: int -> Look)
    requires Waiting(q, id) && BookedTrade(w, b, q, ss, id, cash, security).Ok?
    ensures var k := BookedTrade(w, b, q, ss, id, cash, security).value;
      var q1 := SettlementRematched(k.queue, ss, k.book, q.rows[id], looks);
      Moved(q, q1) && AcceptedNow(q1, id, k.txn)
  {
    hide MatchedEach, Reaches, Rematched, Moved, Listed, AcceptedAlone, BookTrade, OnAccountNear;
    var k := BookedTrade(w, b, q, ss, id, cash, security).value;
    AloneMoves(q, id, k.txn);
    var account := SourceOf(ss, q.rows[id]).settlement.value;
    MatchedEachWrites(k.queue, ss, k.book, OnAccountNear(k.queue, ss, account, q.rows[id].info.date), looks);
    ThenRematched(q, k.queue, SettlementRematched(k.queue, ss, k.book, q.rows[id], looks), id, k.txn);
  }

  lemma TransactionMoves(w: World, b: Book, q: Queue, ss: Sources, id: int, category: Option<int>, b1: Book,
      look: Look, looks: int -> Look)
    requires Refusal(q, ss, id, TransactionRow).None?
    ensures Moved(q, Matched(q, ss, b1, id, look))
    ensures !WaitsForRow(q.rows[id], category) && !MatchGone(q.rows[id], category) && BookedRow(w, b, q, ss, id, category).Ok? ==>
      (var k := BookedRow(w, b, q, ss, id, category).value;
       var q1 := InvoicesRematched(k.queue, ss, k.book, looks);
       Moved(q, q1) && AcceptedNow(q1, id, k.txn))
  {
    hide Matched, BookedRow, Moved, InvoicesRematched;
    MatchedMoves(q, ss, b1, id, look);
    if !WaitsForRow(q.rows[id], category) && !MatchGone(q.rows[id], category) && BookedRow(w, b, q, ss, id, category).Ok? {
      BookedRowMoves(w, b, q, ss, id, category);
      var k := BookedRow(w, b, q, ss, id, category).value;
      InvoicesThen(q, k.queue, ss, k.book, looks, id, k.txn);
    }
  }

  // ----- importing -----

  function Numbers(start: int, n: nat): (r: seq<int>)
    ensures |r| == n && forall i :: 0 <= i < n ==> r[i] == start + i
  {
    seq(n, i requires 0 <= i < n => start + i)
  }

  /** The rows staged are matched under looks, the waiting invoices under later. */
  function Imported(q: Queue, ss: Sources, b: Book, batch: seq<Sent>, looks: int -> Look, later: int -> Look): Queue {
    InvoicesRematched(MatchedEach(Staged(q, batch), ss, b, Numbers(q.next, StagedCount(q, batch)), looks), ss, b, later)
  }

  /** A batch sent again stages nothing and changes no decision: only waiting
      invoices are matched again. */
  lemma ResendChangesNothing(q: Queue, ss: Sources, b: Book, batch: seq<Sent>, looks: int -> Look, later: int -> Look)
    requires forall i :: 0 <= i < |batch| ==> Knows(q, batch[i].info.extId)
    ensures StagedCount(q, batch) == 0 && OnlyInvoices(q, Imported(q, ss, b, batch, looks, later))
  {
    hide Matched, OnlyInvoices, Listed;
    ResentStagesNothing(q, batch);
    RematchedInvoices(q, ss, b, WaitingInvoices(q), later);
  }

  lemma RematchedKnows(q: Queue, q1: Queue, extId: string)
    requires Rematched(q, q1) && Knows(q, extId)
    ensures Knows(q1, extId)
  {
    var id :| id in q.rows && q.rows[id].info.extId == extId;
    assert RowRematched(q, q1, id);
  }

  lemma ImportedKnows(q: Queue, ss: Sources, b: Book, batch: seq<Sent>, looks: int -> Look, later: int -> Look, i: nat)
    requires Numbered(q) && i < |batch|
    ensures Knows(Imported(q, ss, b, batch, looks, later), batch[i].info.extId)
  {
    hide MatchedEach, Rematched, Knows, Reaches, Staged, StagedCount, Listed;
    StagedGrows(q, batch);
    var q1 := Staged(q, batch);
    var ids := Numbers(q.next, StagedCount(q, batch));
    var q2 := MatchedEach(q1, ss, b, ids, looks);
    MatchedEachWrites(q1, ss, b, ids, looks);
    RematchedKnows(q1, q2, batch[i].info.extId);
    MatchedEachWrites(q2, ss, b, WaitingInvoices(q2), later);
    RematchedKnows(q2, InvoicesRematched(q2, ss, b, later), batch[i].info.extId);
  }

  /** Once imported, a batch sent again in any later state of the queue, under
      any mapping and books, stages nothing and changes no decision. */
  lemma ResentLater(log: seq<Step>, more: seq<Step>, q: Queue, ss: Sources, b: Book, batch: seq<Sent>, looks: int -> Look,
      later: int -> Look, ss1: Sources, b1: Book, looks1: int -> Look, later1: int -> Look)
    requires Numbered(q) && LegalLog(log) && Replay(log) == Imported(q, ss, b, batch, looks, later)
    requires LegalLog(log + more)
    ensures var now := Replay(log + more);
      StagedCount(now, batch) == 0 && OnlyInvoices(now, Imported(now, ss1, b1, batch, looks1, later1))
  {
    hide Imported, Replay, LegalLog, Knows, OnlyInvoices, StagedCount, Numbered;
    var now := Replay(log + more);
    forall i | 0 <= i < |batch| ensures Knows(now, batch[i].info.extId) {
      ImportedKnows(q, ss, b, batch, looks, later, i);
      KnownStays(log, more, batch[i].info.extId);
    }
    ResendChangesNothing(now, ss1, b1, batch, looks1, later1);
  }

  function SettledSome(q: Queue, id: int, txn: int, done: set<int>): Queue {
    q.(rows := map x | x in q.rows ::
         if SettledWith(q, x, id) && x in done then q.rows[x].(status := IsAccepted, txn := Some(txn)) else q.rows[x])
  }

  lemma SettledNext(q: Queue, id: int, txn: int, done: set<int>, x: int)
    requires x in q.rows && x !in done
    ensures SettledSome(q, id, txn, done).rows.Keys == q.rows.Keys
    ensures SettledSome(q, id, txn, done).rows[x] == q.rows[x]
    ensures SettledSome(q, id, txn, done + {x}) ==
      if SettledWith(q, x, id) then Decided(SettledSome(q, id, txn, done), x, IsAccepted, Some(txn))
      else SettledSome(q, id, txn, done)
  {
    var now, next := SettledSome(q, id, txn, done), SettledSome(q, id, txn, done + {x});
    var made := if SettledWith(q, x, id) then Decided(now, x, IsAccepted, Some(txn)) else now;
    assert next.rows == made.rows;
  }

  lemma SettledAll(q: Queue, id: int, txn: int, all: set<int>)
    requires forall x :: SettledWith(q, x, id) ==> x in all
    ensures SettledSome(q, id, txn, all) == Settled(q, id, txn)
    ensures SettledSome(q, id, txn, {}) == q
  {
    assert SettledSome(q, id, txn, all).rows == Settled(q, id, txn).rows;
    assert SettledSome(q, id, txn, {}).rows == q.rows;
  }

  /** Accepting is refused before anything is written. */
  function Refusal(q: Queue, ss: Sources, id: int, kind: RowKind): Option<Error> {
    if id !in q.rows then Some(NotFound)
    else if !q.rows[id].status.IsPending? then Some(Conflict)
    else if q.rows[id].info.kind != kind then Some(Invalid)
    else if !kind.InvoiceRow? && AccountOf(ss, q.rows[id]).None? then Some(Invalid)
    else None
  }

  class Service {
    const w: World
    const ledger: Ledger
    var sources: map<int, Source>
    var rows: map<int, Row>
    var next: int
    ghost var log: seq<Step>

    constructor (w: World, ledger: Ledger)
      ensures Valid() && State() == Empty() && sources == map[] && this.ledger == ledger && this.w == w
    {
      this.w, this.ledger := w, ledger;
      sources, rows, next, log := map[], map[], 1, [];
    }

    function State(): Queue
      reads this
    {
      Queue(rows, next)
    }

    /** The rows are what the legal writes so far made of an empty queue. */
    ghost predicate Valid()
      reads this
    {
      LegalLog(log) && Replay(log) == State()
    }

    ghost method Record(q0: Queue)
      requires LegalLog(log) && Replay(log) == q0 && Reaches(q0, State())
      modifies this`log
      ensures Valid() && old(log) <= log
    {
      var more := Carried(log, State());
      log := log + more;
    }

    // ----- the statements -----

    method InsertImportRow(s: Sent) returns (id: Option<int>)
      requires Valid()
      modifies this`rows, this`next, this`log
      ensures Valid() && old(log) <= log && State() == Inserted(old(State()), s)
      ensures id == if NewId(old(State()), s.info.extId) then Some(old(next)) else None
    {
      if exists x :: x in rows && rows[x].info.extId == s.info.extId {
        return None;
      }
      ghost var q := State();
      ReachesStep(q, Stage(s.info, s.items));
      id := Some(next);
      rows, next := rows[next := Row(s.info, s.items, NOTHING_FOUND, IsPending, None)], next + 1;
      Record(q);
    }

    method SetRowProposal(id: int, m: Match)
      requires id in rows
      modifies this`rows
      ensures State() == WithFound(old(State()), id, m)
    {
      rows := rows[id := rows[id].(found := m)];
    }

    method DecideRow(id: int, status: Status, txn: Option<int>) returns (n: nat)
      requires Valid() && id in rows && !status.IsPending? && (status.IsIgnored? ==> txn.None?)
      requires status.IsAccepted? && Booked(rows[id].info.kind) ==> txn.Some?
      modifies this`rows, this`log
      ensures Valid() && old(log) <= log
      ensures if Waiting(old(State()), id) then n == 1 && State() == Decided(old(State()), id, status, txn)
              else n == 0 && State() == old(State())
    {
      if !rows[id].status.IsPending? {
        return 0;
      }
      ghost var q := State();
      ReachesStep(q, Decide(id, status, txn));
      rows := rows[id := rows[id].(status := status, txn := txn)];
      Record(q);
      return 1;
    }

    // ----- matching -----

    method Pair(id: int, other: int)
      requires id in rows && other in rows
      modifies this`rows
      ensures State() == Paired(old(State()), id, other)
    {
      SetRowProposal(id, Match(AsTransfer, None, None, Some(other)));
      SetRowProposal(other, Match(AsTransfer, None, None, Some(id)));
    }

    method ProposeUnmatched(id: int, look: Look)
      requires id in rows
      modifies this`rows
      ensures State() == Unmatched(old(State()), sources, id, look)
    {
      var q, ss := State(), sources;
      var partner := FirstRow(q, x => TransferPartner(q, ss, id, x), rows[id].info.date);
      if partner.Some? {
        Pair(id, partner.value);
        return;
      }
      partner := FirstRow(q, x => ExchangePartner(q, ss, id, x), rows[id].info.date);
      if partner.Some? {
        Pair(id, partner.value);
        return;
      }
      SetRowProposal(id, Match(AsNew, look.rule, None, None));
    }

    method ProposeTransaction(id: int, look: Look)
      requires id in rows && AccountOf(sources, rows[id]).Some?
      modifies this`rows
      ensures State() == TransactionMatched(old(State()), sources, ledger.Current(), id, look)
    {
      hide Duplicated, Estimated, Unmatched, DuplicateRow;
      var q, ss, b := State(), sources, ledger.Current();
      var booked := Duplicated(q, ss, b, id);
      if booked.Some? {
        SetRowProposal(id, Match(AsDuplicate, None, booked, None));
        return;
      }
      var estimate := Estimated(q, ss, b, id, look);
      if estimate.Some? {
        SetRowProposal(id, Match(AsClears, None, estimate, None));
        return;
      }
      var other := FirstRow(q, x => DuplicateRow(q, ss, id, x), rows[id].info.date);
      if other.Some? {
        if Follows(q, id, other.value) {
          SetRowProposal(id, Match(AsDuplicate, None, None, other));
          return;
        }
        SetRowProposal(other.value, Match(AsDuplicate, None, None, Some(id)));
      }
      ProposeUnmatched(id, look);
    }

    method ProposeTrade(id: int, look: Look)
      requires id in rows
      modifies this`rows
      ensures State() == TradeMatched(old(State()), sources, ledger.Current(), id, look)
    {
      hide TradeDuplicated, TradeRowAlike;
      var q, ss, b := State(), sources, ledger.Current();
      var booked := TradeDuplicated(q, b, id, look);
      if booked.Some? {
        SetRowProposal(id, Match(AsDuplicate, None, booked, None));
        return;
      }
      var other := FirstRow(q, x => TradeRowAlike(q, ss, id, x), rows[id].info.date);
      if other.Some? {
        if TradeFollows(q, id, other.value) {
          SetRowProposal(id, Match(AsDuplicate, None, None, other));
          return;
        }
        SetRowProposal(other.value, Match(AsDuplicate, None, None, Some(id)));
      }
      SetRowProposal(id, Match(AsNew, None, None, None));
    }

    method ProposeInvoice(id: int, look: Look)
      requires id in rows
      modifies this`rows
      ensures State() == InvoiceMatched(old(State()), sources, ledger.Current(), id, look)
    {
      hide InvoiceFound;
      rows := rows[id := rows[id].(items := WithCategories(rows[id].items, look.categories))];
      SetRowProposal(id, InvoiceFound(State(), sources, ledger.Current(), id, look));
    }

    /** propose: a waiting row gets its proposal, a balance or holding row is
        applied at once, a row of an ignored source is set aside. */
    method Propose(id: int, look: Look) returns (applied: bool)
      requires Valid() && id in rows
      modifies this`rows, this`log
      ensures Valid() && old(log) <= log && State() == Matched(old(State()), sources, ledger.Current(), id, look)
      ensures applied <==> Waiting(old(State()), id) && !Waiting(State(), id) && State().rows[id].status.IsAccepted?
    {
      hide TransactionMatched, TradeMatched, InvoiceMatched, Reaches, Replay, LegalLog;
      ghost var q := State();
      MatchedWrites(q, sources, ledger.Current(), id, look);
      var r := rows[id];
      applied := false;
      if !r.status.IsPending? {
      } else if r.info.kind.InvoiceRow? {
        ProposeInvoice(id, look);
      } else if SourceOf(sources, r).ignored {
        rows := rows[id := r.(status := IsIgnored, txn := None)];
      } else if AccountOf(sources, r).None? {
      } else if r.info.kind.TradeRow? {
        ProposeTrade(id, look);
      } else if r.info.kind.TransactionRow? {
        ProposeTransaction(id, look);
      } else {
        rows := rows[id := r.(status := IsAccepted, txn := None)];
        applied := true;
      }
      Record(q);
    }

    method MatchEach(ids: seq<int>, looks: int -> Look)
      requires Valid()
      modifies this`rows, this`log
      ensures Valid() && old(log) <= log && State() == MatchedEach(old(State()), sources, ledger.Current(), ids, looks)
    {
      hide Matched, Replay, LegalLog;
      for i := 0 to |ids|
        invariant Valid() && old(log) <= log
        invariant State() == MatchedEach(old(State()), sources, ledger.Current(), ids[..i], looks)
      {
        assert ids[..i + 1][..i] == ids[..i];
        if ids[i] in rows {
          var _ := Propose(ids[i], looks(ids[i]));
        }
      }
      assert ids[..|ids|] == ids;
    }

    method RematchInvoices(looks: int -> Look)
      requires Valid()
      modifies this`rows, this`log
      ensures Valid() && old(log) <= log && State() == InvoicesRematched(old(State()), sources, ledger.Current(), looks)
      ensures OnlyInvoices(old(State()), State())
    {
      hide MatchedEach, OnlyInvoices, Replay, LegalLog, Listed;
      var ids := WaitingInvoices(State());
      RematchedInvoices(State(), sources, ledger.Current(), ids, looks);
      MatchEach(ids, looks);
    }

    // ----- accepting -----

    method SettleDuplicates(id: int, txn: int)
      requires Valid()
      modifies this`rows, this`log
      ensures Valid() && old(log) <= log && State() == Settled(old(State()), id, txn)
    {
      hide Replay, LegalLog;
      ghost var q := State();
      var todo := set x | x in rows && rows[x].status.IsPending? && rows[x].found.row == Some(id);
      ghost var all := todo;
      while todo != {}
        invariant Valid() && old(log) <= log && todo <= all
        invariant State() == SettledSome(q, id, txn, all - todo)
      {
        var x := Next(todo);
        if (rows[x].info.kind.TransactionRow? || rows[x].info.kind.TradeRow?) && rows[x].found.proposal.AsDuplicate? {
          var _ := DecideRow(x, IsAccepted, Some(txn));
        }
        SettledNext(q, id, txn, all - todo, x);
        assert all - (todo - {x}) == all - todo + {x};
        todo := todo - {x};
      }
      SettledAll(q, id, txn, all);
      assert all - {} == all;
    }

    /** The postings and the other side's decision; the row itself follows. */
    method BookClears(id: int, side: Side, t: int) returns (r: Result<int>)
      requires Valid() && id in rows
      modifies ledger
      ensures match BookedClears(w, old(ledger.Current()), State(), id, side, t)
        case Ok(k) => r == Ok(k.txn) && ledger.Current() == k.book
        case Err(e) => r == Err(e) && ledger.Current() == old(ledger.Current())
    {
      hide Update, ClearsLines;
      var i := IndexOf(ledger.txns, t);
      if i == |ledger.txns| {
        return Err(NotFound);
      }
      var lines := ClearsLoop(ledger.base, side, ledger.txns[i].postings);
      var updated := ledger.UpdateTransaction(w, t, ledger.txns[i].date, lines);
      if updated.Err? {
        return Err(updated.error);
      }
      return Ok(t);
    }

    method BookTransfer(id: int, side: Side, other: int) returns (r: Result<int>)
      requires Valid() && id in rows
      modifies ledger
      ensures match BookedTransfer(w, old(ledger.Current()), State(), sources, id, side, other)
        case Ok(k) => r == Ok(k.txn) && ledger.Current() == k.book
        case Err(e) => r == Err(e) && ledger.Current() == old(ledger.Current())
    {
      hide CreateTx, TransferLines;
      if other !in rows || !rows[other].status.IsPending? || AccountOf(sources, rows[other]).None? {
        return Err(Conflict);
      }
      var second := SideOf(rows[other], AccountOf(sources, rows[other]).value);
      var lines := TransferLines(w, ledger.base, side, second);
      if lines.Err? {
        return Err(lines.error);
      }
      r := ledger.CreateUnchecked(w, Min(side.date, second.date), lines.value);
    }

    method BookNew(id: int, side: Side, category: Option<int>) returns (r: Result<int>)
      requires Valid() && id in rows
      modifies ledger
      ensures match BookedNew(w, old(ledger.Current()), State(), id, side, category)
        case Ok(k) => r == Ok(k.txn) && ledger.Current() == k.book
        case Err(e) => r == Err(e) && ledger.Current() == old(ledger.Current())
    {
      hide CreateTx;
      if category.None? {
        return Err(Required);
      }
      r := ledger.CreateUnchecked(w, side.date, NewLines(side, category.value));
    }

    method AcceptAlone(id: int, txn: int)
      requires Valid() && id in rows
      requires rows[id].status.IsPending? || (rows[id].status.IsAccepted? && rows[id].txn == Some(txn))
      modifies this`rows, this`log
      ensures Valid() && old(log) <= log && State() == AcceptedAlone(old(State()), id, txn)
    {
      hide Replay, LegalLog, Settled;
      ghost var q := State();
      var _ := DecideRow(id, IsAccepted, Some(txn));
      assert State() == Decided(q, id, IsAccepted, Some(txn));
      SettleDuplicates(id, txn);
    }

    /** The second side is decided with the first. */
    method AcceptBoth(id: int, other: int, txn: int)
      requires Valid() && Waiting(State(), id) && Waiting(State(), other)
      modifies this`rows, this`log
      ensures Valid() && old(log) <= log && State() == AcceptedTransfer(old(State()), id, other, txn)
    {
      hide Replay, LegalLog, AcceptedAlone;
      var _ := DecideRow(other, IsAccepted, Some(txn));
      AcceptAlone(id, txn);
    }

    /** One database transaction: the postings, then the rows they decide. */
    method AcceptMatched(id: int, category: Option<int>) returns (r: Result<int>)
      requires Valid() && Refusal(State(), sources, id, TransactionRow).None?
      requires !WaitsForRow(rows[id], category) && !MatchGone(rows[id], category)
      modifies this`rows, this`log, ledger
      ensures Valid() && old(log) <= log
      ensures match BookedRow(w, old(ledger.Current()), old(State()), sources, id, category)
        case Ok(k) => r == Ok(k.txn) && ledger.Current() == k.book && State() == k.queue
        case Err(e) => r == Err(e) && ledger.Current() == old(ledger.Current()) && State() == old(State())
    {
      hide Replay, LegalLog, CreateTx, Update, TransferLines, ClearsLines, AcceptedAlone, AcceptedTransfer;
      var row := rows[id];
      var side := SideOf(row, AccountOf(sources, row).value);
      match Chosen(row, category) {
        case AsDuplicate =>
          AcceptAlone(id, row.found.txn.value);
          r := Ok(row.found.txn.value);
        case AsClears =>
          r := BookClears(id, side, row.found.txn.value);
          if r.Ok? {
            AcceptAlone(id, r.value);
          }
        case AsTransfer =>
          r := BookTransfer(id, side, row.found.row.value);
          if r.Ok? {
            AcceptBoth(id, row.found.row.value, r.value);
          }
        case _ =>
          r := BookNew(id, side, if category.Some? then category else row.found.category);
          if r.Ok? {
            AcceptAlone(id, r.value);
          }
      }
    }

    /** Accept, for a transaction row. */
    method AcceptTransaction(id: int, category: Option<int>, look: Look, looks: int -> Look) returns (r: Result<int>)
      requires Valid()
      modifies this`rows, this`log, ledger
      ensures Valid() && old(log) <= log
      ensures r.Err? ==> ledger.Current() == old(ledger.Current())
      ensures var q, refused := old(State()), Refusal(old(State()), sources, id, TransactionRow);
        if refused.Some? then r == Err(refused.value) && State() == q
        else if WaitsForRow(q.rows[id], category) then r == Err(Conflict) && State() == q
        else if MatchGone(q.rows[id], category) then
          r == Err(Conflict) && State() == Matched(q, sources, ledger.Current(), id, look)
        else match BookedRow(w, old(ledger.Current()), q, sources, id, category)
          case Err(e) => r == Err(e) && State() == q
          case Ok(k) => r == Ok(k.txn) && ledger.Current() == k.book && OnlyInvoices(k.queue, State()) &&
                        State() == InvoicesRematched(k.queue, sources, k.book, looks)
    {
      hide Replay, LegalLog, BookedRow, Matched, InvoicesRematched, OnlyInvoices;
      var refused := Refusal(State(), sources, id, TransactionRow);
      if refused.Some? {
        return Err(refused.value);
      }
      if WaitsForRow(rows[id], category) {
        return Err(Conflict);
      }
      if MatchGone(rows[id], category) {
        var _ := Propose(id, look);
        return Err(Conflict);
      }
      r := AcceptMatched(id, category);
      if r.Ok? {
        RematchInvoices(looks);
      }
    }

    // ----- trades -----

    /** The row takes the transaction it matched; what waits for this row is not
        settled with it. */
    method AcceptTradeDuplicate(id: int, look: Look) returns (r: Result<int>)
      requires Valid() && Refusal(State(), sources, id, TradeRow).None?
      modifies this`rows, this`log
      ensures Valid() && old(log) <= log
      ensures var q := old(State());
        match q.rows[id].found.txn
        case Some(t) => r == Ok(t) && State() == Decided(q, id, IsAccepted, Some(t))
        case None => r == Err(Conflict) &&
                     State() == if q.rows[id].found.row.Some? then q else TradeMatched(q, sources, ledger.Current(), id, look)
    {
      hide Replay, LegalLog, TradeMatched, Reaches;
      var found := rows[id].found;
      if found.txn.None? {
        if found.row.None? {
          ghost var q := State();
          TradeWrites(q, sources, ledger.Current(), id, look);
          ProposeTrade(id, look);
          Record(q);
        }
        return Err(Conflict);
      }
      var _ := DecideRow(id, IsAccepted, found.txn);
      return Ok(found.txn.value);
    }

    /** Booked at the cash given, else the cash sent, on the account security;
        then what waits on the settlement account is matched again. */
    method AcceptTrade(id: int, cash: Option<real>, security: int, looks: int -> Look) returns (r: Result<int>)
      requires Valid() && Refusal(State(), sources, id, TradeRow).None?
      modifies this`rows, this`log, ledger
      ensures Valid() && old(log) <= log
      ensures match BookedTrade(w, old(ledger.Current()), old(State()), sources, id, cash, security)
        case Err(e) => r == Err(e) && ledger.Current() == old(ledger.Current()) && State() == old(State())
        case Ok(k) => r == Ok(k.txn) && ledger.Current() == k.book &&
                      State() == SettlementRematched(k.queue, sources, k.book, old(rows[id]), looks)
    {
      hide Replay, LegalLog, BookTrade, AcceptedAlone, MatchedEach, Listed;
      var row := rows[id];
      var paid := if cash.Some? then cash else row.info.cash;
      if paid.None? {
        return Err(Required);
      }
      var settlement := SourceOf(sources, row).settlement;
      if settlement.None? {
        return Err(Invalid);
      }
      r := BookTradeIn(ledger, w, TradeOf(row, settlement.value, security, paid.value));
      if r.Err? {
        return;
      }
      AcceptAlone(id, r.value);
      MatchEach(OnAccountNear(State(), sources, settlement.value, row.info.date), looks);
    }

    // ----- invoices -----

    /** The lines a split of the paid transaction writes, if it can be split. */
    method BookEnriched(id: int, t: int, split: bool) returns (r: Result<int>, ghost lines: Option<seq<Line>>)
      requires Valid() && id in rows
      modifies ledger
      ensures r.Err? ==> ledger.Current() == old(ledger.Current())
      ensures r.Ok? ==> r.value == t
      ensures r.Ok? ==>
        EnrichedBy(w, old(ledger.Current()), rows[id].info, SplitBy(rows[id], split), t, lines, ledger.Current())
      ensures r != Err(Conflict)
    {
      hide Update, SplitInPlace, SplitInto, OnlyCategory, LineAmount, PostingAmount, SplitIs;
      lines := None;
      var i := IndexOf(ledger.txns, t);
      if i == |ledger.txns| {
        return Err(NotFound), lines;
      }
      var row, cur := rows[id], ledger.txns[i];
      var items := SplitBy(row, split);
      var out := SplitLines(ledger.Current(), cur.postings, row.info.currency, row.info.amount, items);
      if out.None? {
        return Ok(t), lines;
      }
      SplitHow(ledger.Current(), cur.postings, row.info.currency, row.info.amount, items, out);
      ghost var k: nat, groups, rest :|
        SharedOut(ledger.Current(), cur.postings, row.info.currency, row.info.amount, items, k, groups, rest) &&
        out.value == SplitInPlace(cur.postings, k, groups, rest);
      forall c ensures Sum(out.value, LineAmount(c)) == Sum(cur.postings, PostingAmount(c)) {
        SplitConserves(ledger.Current(), cur.postings, k, items, groups, rest, c);
      }
      lines := out;
      WritesOr(w, ledger.Current(), t, cur.date, out.value);
      var updated := ledger.UpdateTransaction(w, t, cur.date, out.value);
      if updated.Err? {
        return Err(updated.error), lines;
      }
      return Ok(t), lines;
    }

    /** Paid from the account of the source, if it has one. */
    method BookPurchase(id: int, category: Option<int>, split: bool) returns (r: Result<int>, ghost lines: seq<Line>)
      requires Valid() && id in rows
      modifies ledger
      ensures r.Err? ==> ledger.Current() == old(ledger.Current())
      ensures r.Ok? ==> AccountOf(sources, rows[id]).Some? && r.value == old(ledger.nextId)
      ensures r.Ok? ==> (var account := AccountOf(sources, rows[id]).value;
                         PurchasedBy(w, old(ledger.Current()), rows[id].info, account, SplitBy(rows[id], split),
                                     if category.Some? then category else rows[id].found.category, lines, ledger.Current()))
      ensures r != Err(Conflict)
    {
      hide CreateTx, LineAmount, Shares;
      lines := [];
      var row := rows[id];
      var account := AccountOf(sources, row);
      if account.None? {
        return Err(Invalid), lines;
      }
      var made := CashPurchase(account.value, row.info.currency, row.info.amount, SplitBy(row, split),
                               if category.Some? then category else row.found.category);
      if made.Err? {
        return Err(made.error), lines;
      }
      lines := made.value;
      WritesOr(w, ledger.Current(), 0, row.info.date, lines);
      r := ledger.CreateUnchecked(w, row.info.date, made.value);
    }

    /** acceptInvoice: an invoice goes with what it matched, once that is decided,
        or becomes a purchase of its own. */
    method AcceptInvoice(id: int, category: Option<int>, split: bool, look: Look, looks: int -> Look)
        returns (r: Result<int>, ghost lines: Option<seq<Line>>)
      requires Valid() && Refusal(State(), sources, id, InvoiceRow).None?
      modifies this`rows, this`log, ledger
      ensures Valid() && old(log) <= log
      ensures r.Err? ==> ledger.Current() == old(ledger.Current())
      ensures var row := old(rows[id]);
        r == Err(Conflict) <==> InvoiceRefusal(row, category) == Some(Conflict) ||
                                (InvoiceRefusal(row, category).None? && InvoiceGone(row, category))
      ensures var row, q := old(rows[id]), old(State());
        if InvoiceRefusal(row, category).Some? then r == Err(InvoiceRefusal(row, category).value) && State() == q
        else if InvoiceGone(row, category) then r == Err(Conflict) && State() == Matched(q, sources, ledger.Current(), id, look)
        else if r.Err? then State() == q
        else InvoiceBooked(w, old(ledger.Current()), row, sources, category, split, r.value, lines, ledger.Current()) &&
             State() == InvoicesRematched(Decided(q, id, IsAccepted, Some(r.value)), sources, ledger.Current(), looks)
    {
      hide Replay, LegalLog, Matched, InvoicesRematched, EnrichedBy, PurchasedBy, OnlyInvoices;
      lines := None;
      var row := rows[id];
      var refused := InvoiceRefusal(row, category);
      if refused.Some? {
        return Err(refused.value), lines;
      }
      if InvoiceGone(row, category) {
        var _ := Propose(id, look);
        return Err(Conflict), lines;
      }
      if Chosen(row, category).AsSameInvoice? {
        r := Ok(row.found.txn.value);
      } else if Chosen(row, category).AsEnrich? {
        r, lines := BookEnriched(id, row.found.txn.value, split);
      } else {
        ghost var written: seq<Line>;
        r, written := BookPurchase(id, category, split);
        lines := Some(written);
      }
      if r.Err? {
        return;
      }
      var _ := DecideRow(id, IsAccepted, Some(r.value));
      RematchInvoices(looks);
    }

    /** Accept: whatever the kind, a row that was waiting becomes accepted with
        the transaction returned, or the books are as they were; sound books
        stay sound. Without a category, a row that can be booked conflicts
        exactly when it is held up, and then nothing changes, or has lost its
        match. */
    method Accept(id: int, category: Option<int>, cash: Option<real>, split: bool, security: int, look: Look,
        looks: int -> Look)
        returns (r: Result<int>)
      requires Valid()
      modifies this`rows, this`log, ledger
      ensures Valid() && old(log) <= log && Moved(old(State()), State())
      ensures r.Err? ==> ledger.Current() == old(ledger.Current())
      ensures r.Ok? ==> Waiting(old(State()), id) && id in rows && rows[id].status.IsAccepted? && rows[id].txn == Some(r.value)
      ensures Sound(w, old(ledger.Current())) ==> Sound(w, ledger.Current())
      ensures var q := old(State());
        category.None? && Bookable(q, sources, id) ==>
          (r == Err(Conflict) <==> HeldUp(q, sources, id) || MatchLost(q.rows[id])) &&
          (HeldUp(q, sources, id) ==> State() == q)
    {
      hide Replay, LegalLog, Matched, TradeMatched, InvoicesRematched, BookedRow, BookedTrade, SettlementRematched, OnlyInvoices, Moved,
        Reaches, InvoiceBooked, Sound;
      ghost var q, b := State(), ledger.Current();
      MovedSelf(q);
      if id !in rows {
        return Err(NotFound);
      }
      var row := rows[id];
      if !row.status.IsPending? {
        return Err(Conflict);
      }
      if row.info.kind.InvoiceRow? {
        ghost var lines: Option<seq<Line>>;
        r, lines := AcceptInvoice(id, category, split, look, looks);
        if r.Ok? {
          if Sound(w, b) {
            InvoiceBookedSound(w, b, row, sources, category, split, r.value, lines, ledger.Current());
          }
          DecidedMoves(q, id, r.value);
          InvoicesThen(q, Decided(q, id, IsAccepted, Some(r.value)), sources, ledger.Current(), looks, id, r.value);
        } else {
          MatchedMoves(q, sources, ledger.Current(), id, look);
        }
        return;
      }
      if AccountOf(sources, row).None? {
        return Err(Invalid);
      }
      if row.info.kind.TradeRow? {
        if row.found.proposal.AsDuplicate? {
          r := AcceptTradeDuplicate(id, look);
          if r.Ok? {
            DecidedMoves(q, id, r.value);
          }
          TradeMatchedMoves(q, sources, ledger.Current(), id, look);
          return;
        }
        TradeNoConflict(w, b, q, sources, id, cash, security);
        r := AcceptTrade(id, cash, security, looks);
        if r.Ok? {
          if Sound(w, b) {
            BookedTradeSound(w, b, q, sources, id, cash, security);
          }
          TradeMoves(w, b, q, sources, id, cash, security, looks);
        }
        return;
      }
      if !row.info.kind.TransactionRow? {
        return Err(Invalid);
      }
      if !WaitsForRow(row, category) && !MatchGone(row, category) {
        HeldIff(w, b, q, sources, id, category);
      }
      r := AcceptTransaction(id, category, look, looks);
      TransactionMoves(w, b, q, sources, id, category, ledger.Current(), look, looks);
      if r.Ok? && Sound(w, b) {
        BookedRowSound(w, b, q, sources, id, category);
      }
    }

    // ----- ignoring -----

    /** What waited for a row just ignored is matched again. */
    method RematchWaiting(id: int, looks: int -> Look)
      requires Valid() && id in rows && !rows[id].status.IsPending?
      modifies this`rows, this`log
      ensures Valid() && old(log) <= log && Rematched(old(State()), State())
      ensures LeftWaiting(State(), sources, id)
    {
      hide Replay, LegalLog, Matched, Rematched, Reaches;
      ghost var q := State();
      RematchedSelf(q);
      var todo := set x | x in rows && rows[x].status.IsPending? && rows[x].found.row == Some(id);
      while todo != {}
        invariant Valid() && old(log) <= log && todo <= rows.Keys
        invariant Rematched(q, State()) && id in rows && !rows[id].status.IsPending?
        invariant LeftBut(State(), sources, id, todo)
      {
        var x := Next(todo);
        ghost var q1 := State();
        var _ := Propose(x, looks(x));
        LinksMoved(q1, sources, ledger.Current(), x, looks(x), id);
        RematchedOne(q1, sources, ledger.Current(), x, looks(x));
        RematchedThen(q, q1, State());
        todo := todo - {x};
      }
    }

    method IgnoreRow(id: int, looks: int -> Look) returns (r: Result<()>)
      requires Valid()
      modifies this`rows, this`log
      ensures Valid() && old(log) <= log
      ensures id !in old(rows) ==> r == Err(NotFound)
      ensures id in old(rows) && !Waiting(old(State()), id) ==> r == Err(Conflict)
      ensures r.Err? ==> State() == old(State())
      ensures r.Ok? ==> Waiting(old(State()), id) && LeftWaiting(State(), sources, id)
      ensures r.Ok? ==> Rematched(Decided(old(State()), id, IsIgnored, None), State())
    {
      hide Replay, LegalLog, Rematched, LeftWaiting;
      if id !in rows {
        return Err(NotFound);
      }
      var n := DecideRow(id, IsIgnored, None);
      if n == 0 {
        return Err(Conflict);
      }
      RematchWaiting(id, looks);
      return Ok(());
    }

    method IgnoreAndRematch(id: int, looks: int -> Look)
      requires Valid() && id in rows
      modifies this`rows, this`log
      ensures Valid() && old(log) <= log && Moved(old(State()), State()) && id in rows && !rows[id].status.IsPending?
    {
      hide Replay, LegalLog, Rematched, LeftWaiting;
      ghost var q := State();
      var n := DecideRow(id, IsIgnored, None);
      if n == 0 {
        return;
      }
      ghost var q1 := State();
      RematchWaiting(id, looks);
      RematchedMoves(q1, State());
      MovedSelf(q);
      MovedThen(q, q, q1, State());
    }

    /** ignoreSource: none of its rows is left waiting. */
    method IgnoreSource(source: int, looks: int -> int -> Look)
      requires Valid()
      modifies this`rows, this`log
      ensures Valid() && old(log) <= log && Moved(old(State()), State())
      ensures forall x :: Waiting(State(), x) ==> rows[x].info.source != source
    {
      hide Replay, LegalLog, Moved, RowMoved, AllDecided, Listed;
      var q := State();
      EveryRunKeeps(log);
      assert Numbered(q);
      var ids := WaitingOf(q, source);
      assert forall x :: x in ids <==> Waiting(q, x) && q.rows[x].info.source == source;
      MovedSelf(q);
      assert AllDecided(q, ids[..0]) by { NoneDecided(q, ids); }
      for i := 0 to |ids|
        invariant Valid() && old(log) <= log && Moved(q, State()) && AllDecided(State(), ids[..i])
      {
        ghost var q1 := State();
        assert ids[i] in ids;
        StillRow(q, q1, ids[i]);
        IgnoreAndRematch(ids[i], looks(ids[i]));
        DecidedMore(q, q1, State(), ids, i);
      }
      assert ids[..|ids|] == ids;
      NoneLeft(q, State(), ids, source);
    }

    /** MapSourceAccount, once the mapping is found fit. */
    method MapSourceAccount(source: int, s: Source, looks: int -> Look, aside: int -> int -> Look)
      requires Valid()
      modifies this`rows, this`log, this`sources
      ensures Valid() && old(log) <= log && sources == old(sources)[source := s] && Moved(old(State()), State())
      ensures s.ignored ==> (forall x :: Waiting(State(), x) ==> rows[x].info.source != source)
      ensures !s.ignored && s.account.None? ==> State() == old(State())
    {
      hide Replay, LegalLog, MatchedEach, Rematched, Moved, Reaches;
      ghost var q := State();
      sources := sources[source := s];
      if s.ignored {
        IgnoreSource(source, aside);
        return;
      }
      MovedSelf(q);
      if s.account.Some? {
        var now := State();
        var ids := WaitingOf(now, source);
        MatchedEachWrites(now, sources, ledger.Current(), ids, looks);
        MatchEach(ids, looks);
        RematchedMoves(q, State());
      }
    }

    // ----- importing -----

    method StageBatch(batch: seq<Sent>) returns (ids: seq<int>, duplicates: nat)
      requires Valid()
      modifies this`rows, this`next, this`log
      ensures Valid() && old(log) <= log && State() == Staged(old(State()), batch)
      ensures |ids| == StagedCount(old(State()), batch) && |ids| + duplicates == |batch|
      ensures ids == Numbers(old(next), |ids|)
    {
      hide Replay, LegalLog;
      ghost var q := State();
      EveryRunKeeps(log);
      ids, duplicates := [], 0;
      for i := 0 to |batch|
        invariant Valid() && old(log) <= log
        invariant State() == Staged(q, batch[..i]) && |ids| == StagedCount(q, batch[..i]) && |ids| + duplicates == i
        invariant next == q.next + |ids| && ids == Numbers(q.next, |ids|)
      {
        assert batch[..i + 1][..i] == batch[..i];
        var id := InsertImportRow(batch[i]);
        if id.None? {
          duplicates := duplicates + 1;
          continue;
        }
        ids := ids + [id.value];
      }
      assert batch[..|batch|] == batch;
    }

    /** Stages a batch, matches what is new, then the waiting invoices again. */
    method Import(batch: seq<Sent>, looks: int -> Look, later: int -> Look)
        returns (received: nat, staged: nat, duplicates: nat)
      requires Valid()
      modifies this`rows, this`next, this`log
      ensures Valid() && old(log) <= log
      ensures received == |batch| == staged + duplicates && staged == StagedCount(old(State()), batch)
      ensures State() == Imported(old(State()), sources, ledger.Current(), batch, looks, later)
    {
      hide Replay, LegalLog, MatchedEach, InvoicesRematched, OnlyInvoices, Staged, StagedCount, Numbers;
      received := |batch|;
      var ids: seq<int>;
      ids, duplicates := StageBatch(batch);
      staged := |ids|;
      MatchEach(ids, looks);
      RematchInvoices(later);
    }

    // ----- deleting -----

    /** ON DELETE SET NULL: the rows forget a deleted transaction. */
    method DeleteTransaction(t: int) returns (r: Result<()>)
      requires Valid()
      modifies this`rows, this`log, ledger`txns
      ensures Valid() && old(log) <= log
      ensures match Delete(old(ledger.Current()), t)
        case Ok(b) => r == Ok(()) && ledger.Current() == b && State() == Apply(old(State()), Forget(t))
        case Err(e) => r == Err(e) && ledger.Current() == old(ledger.Current()) && State() == old(State())
    {
      hide Replay, LegalLog, Delete;
      r := ledger.DeleteTransaction(t);
      if r.Err? {
        return;
      }
      ghost var q := State();
      ReachesStep(q, Forget(t));
      rows := map id | id in rows :: Unlinked(rows[id], t);
      Record(q);
    }
  }
}
