// Which waiting rows of the review queue each operation of the service leaves
// matched with a row already decided, and where the wait of a row then leads.
module Stranding {
  import opened Core
  import opened Journal
  import opened Accepted
  import opened ImportQueue
  import opened Matching
  import opened Review

  // ----- what matching again leaves stuck -----

  /** propose decides the row instead: its source is ignored, or it books
      nothing. */
  predicate SetsAside(q: Queue, ss: Sources, id: int) {
    Waiting(q, id) && !q.rows[id].info.kind.InvoiceRow? &&
    (SourceOf(ss, q.rows[id]).ignored || (AccountOf(ss, q.rows[id]).Some? && !Booked(q.rows[id].info.kind)))
  }

  /** The row is given a match: it waits, and its source is mapped if it needs
      to be. */
  predicate Rematches(q: Queue, ss: Sources, id: int) {
    Waiting(q, id) && !Unmapped(q, ss, id) && !SetsAside(q, ss, id)
  }

  lemma AsideOr(q: Queue, ss: Sources, b: Book, id: int, look: Look)
    requires id in q.rows
    ensures var q1 := Matched(q, ss, b, id, look);
      if SetsAside(q, ss, id) then q1 == Decided(q, id, IsIgnored, None) || q1 == Decided(q, id, IsAccepted, None)
      else Relinked(q, q1, id) && (Rematches(q, ss, id) ==> Fresh(q, q1, id)) && (!Rematches(q, ss, id) ==> q1 == q)
  {
    hide Reaches, TransactionMatched, TradeMatched, InvoiceMatched;
    var r := q.rows[id];
    if Waiting(q, id) {
      if r.info.kind.InvoiceRow? {
        InvoiceWrites(q, ss, b, id, look);
      } else if !SourceOf(ss, r).ignored && AccountOf(ss, r).Some? {
        match r.info.kind {
          case TradeRow => TradeWrites(q, ss, b, id, look);
          case TransactionRow => TransactionWrites(q, ss, b, id, look);
          case _ =>
        }
      }
    }
  }

  /** Matching a row again: it is stuck no longer, no other row becomes stuck;
      but a row set aside leaves what waited for it. */
  lemma MatchedStrands(q: Queue, ss: Sources, b: Book, id: int, look: Look, x: int)
    requires id in q.rows
    ensures Stuck(Matched(q, ss, b, id, look), x) <==>
      if SetsAside(q, ss, id) then LeftBehind(q, {id}, x)
      else Stuck(q, x) && !(x == id && Rematches(q, ss, id))
  {
    hide Matched, Before;
    AsideOr(q, ss, b, id, look);
    var q1 := Matched(q, ss, b, id, look);
    if SetsAside(q, ss, id) {
      DecidedStrands(q, id, q1.rows[id].status, None, x);
    } else if Rematches(q, ss, id) {
      RelinkedStrands(q, q1, id, x);
    }
  }

  lemma RelinkedStrands(q: Queue, q1: Queue, id: int, x: int)
    requires Waiting(q, id) && Relinked(q, q1, id) && Fresh(q, q1, id)
    ensures Stuck(q1, x) <==> Stuck(q, x) && x != id
  {
    assert x in q.rows ==> RowRelinked(q, q1, id, x);
    assert forall o :: o in q.rows ==> RowRelinked(q, q1, id, o);
    assert forall o :: Waiting(q1, o) <==> Waiting(q, o);
  }

  // ----- several rows matched again, one after another -----

  /** Those of the rows that are set aside when their turn comes. */
  function Aside(q: Queue, ss: Sources, ids: seq<int>): set<int> {
    set y | y in ids && SetsAside(q, ss, y)
  }

  function LinkOf(q: Queue, x: int): Option<int> {
    if x in q.rows then q.rows[x].found.row else None
  }

  /** The row keeps its link, or had none and is now pointed at a row that
      stays waiting. */
  predicate LinkStands(q: Queue, q1: Queue, ss: Sources, x: int) {
    LinkOf(q1, x) == LinkOf(q, x) ||
    (LinkOf(q, x).None? && LinkOf(q1, x).Some? && Waiting(q1, LinkOf(q1, x).value) && !SetsAside(q, ss, LinkOf(q1, x).value))
  }

  /** The rows of d are decided, and no others. */
  predicate DecidesOnly(q: Queue, q1: Queue, d: set<int>) {
    SameInfos(q, q1) && q1.rows.Keys == q.rows.Keys &&
    forall y :: y in q.rows ==> (Waiting(q1, y) <==> Waiting(q, y) && y !in d)
  }

  lemma EachNext(q: Queue, q1: Queue, ss: Sources, b: Book, d: set<int>, y: int, look: Look, x: int)
    requires DecidesOnly(q, q1, d) && LinkStands(q, q1, ss, x) && y in q1.rows && x != y
    requires forall z :: z in d ==> SetsAside(q, ss, z)
    ensures var q2 := Matched(q1, ss, b, y, look);
      DecidesOnly(q, q2, d + if SetsAside(q, ss, y) then {y} else {}) && LinkStands(q, q2, ss, x)
  {
    hide Matched, Reaches, Before;
    AsideOr(q1, ss, b, y, look);
    var q2 := Matched(q1, ss, b, y, look);
    assert SetsAside(q1, ss, y) <==> SetsAside(q, ss, y) && y !in d;
    if !SetsAside(q1, ss, y) {
      forall z ensures Waiting(q2, z) <==> Waiting(q1, z) {
        assert z in q1.rows ==> RowRelinked(q1, q2, y, z);
      }
      assert x in q1.rows ==> RowRelinked(q1, q2, y, x);
      assert forall z :: z in q.rows ==> RowRelinked(q1, q2, y, z);
    }
  }

  lemma {:induction false} EachKeeps(q: Queue, ss: Sources, b: Book, ids: seq<int>, looks: int -> Look, x: int)
    requires x !in ids
    ensures var q1 := MatchedEach(q, ss, b, ids, looks);
      DecidesOnly(q, q1, Aside(q, ss, ids)) && LinkStands(q, q1, ss, x)
  {
    hide Matched, DecidesOnly, LinkStands, SetsAside;
    if |ids| == 0 {
      assert DecidesOnly(q, q, {}) by { NoneDecides(q); }
      assert LinkStands(q, q, ss, x) by { NoneMoves(q, ss, x); }
      assert Aside(q, ss, ids) == {};
    } else {
      var n := |ids| - 1;
      var front, y := ids[..n], ids[n];
      assert ids == front + [y];
      EachKeeps(q, ss, b, front, looks, x);
      var q1 := MatchedEach(q, ss, b, front, looks);
      assert Aside(q, ss, ids) == Aside(q, ss, front) + if SetsAside(q, ss, y) then {y} else {};
      if y in q1.rows {
        EachNext(q, q1, ss, b, Aside(q, ss, front), y, looks(y), x);
      } else {
        assert !SetsAside(q, ss, y) by { GoneNever(q, q1, ss, Aside(q, ss, front), y); }
        assert Aside(q, ss, ids) == Aside(q, ss, front);
      }
    }
  }

  lemma NoneDecides(q: Queue)
    ensures DecidesOnly(q, q, {})
  {
  }

  lemma NoneMoves(q: Queue, ss: Sources, x: int)
    ensures LinkStands(q, q, ss, x)
  {
  }

  lemma GoneNever(q: Queue, q1: Queue, ss: Sources, d: set<int>, y: int)
    requires DecidesOnly(q, q1, d) && y !in q1.rows
    ensures !SetsAside(q, ss, y)
  {
  }

  /** A row not among those matched again is left stuck exactly when it is
      matched with one of them that is set aside, or was stuck. */
  lemma EachStrands(q: Queue, ss: Sources, b: Book, ids: seq<int>, looks: int -> Look, x: int)
    requires x !in ids
    ensures Stuck(MatchedEach(q, ss, b, ids, looks), x) <==> LeftBehind(q, Aside(q, ss, ids), x)
  {
    hide MatchedEach;
    EachKeeps(q, ss, b, ids, looks, x);
    var q1 := MatchedEach(q, ss, b, ids, looks);
    assert x in q.rows.Keys <==> x in q1.rows.Keys;
  }

  lemma {:induction false} EachThen(q: Queue, ss: Sources, b: Book, ids: seq<int>, more: seq<int>, looks: int -> Look)
    ensures MatchedEach(q, ss, b, ids + more, looks) == MatchedEach(MatchedEach(q, ss, b, ids, looks), ss, b, more, looks)
  {
    hide Matched;
    if |more| == 0 {
      assert ids + more == ids;
    } else {
      EachThen(q, ss, b, ids, more[..|more| - 1], looks);
      assert (ids + more)[..|ids + more| - 1] == ids + more[..|more| - 1];
    }
  }

  predicate NoRepeats(ids: seq<int>) {
    forall i, j :: 0 <= i < j < |ids| ==> ids[i] != ids[j]
  }

  /** The queue once the i-th row has had its turn. */
  function Turned(q: Queue, ss: Sources, b: Book, ids: seq<int>, looks: int -> Look, i: nat): Queue
    requires i < |ids|
  {
    MatchedEach(q, ss, b, ids[..i + 1], looks)
  }

  /** One of those matched again is left stuck exactly when what its own turn
      matched it with is set aside after it (or, not matched at all, it was
      stuck); never, when none of them is set aside. */
  lemma TurnStrands(q: Queue, ss: Sources, b: Book, ids: seq<int>, looks: int -> Look, i: nat)
    requires i < |ids| && NoRepeats(ids)
    ensures Stuck(MatchedEach(q, ss, b, ids, looks), ids[i]) <==>
      LeftBehind(Turned(q, ss, b, ids, looks, i), Aside(q, ss, ids[i + 1..]), ids[i])
    ensures Aside(q, ss, ids) == {} && Rematches(q, ss, ids[i]) ==> !Stuck(MatchedEach(q, ss, b, ids, looks), ids[i])
  {
    hide MatchedEach, SetsAside, Matched, LeftBehind, Stuck, DecidesOnly, LinkStands;
    var x, now, after := ids[i], ids[..i + 1], ids[i + 1..];
    var q1 := Turned(q, ss, b, ids, looks, i);
    assert ids == now + after;
    EachThen(q, ss, b, now, after, looks);
    EachStrands(q1, ss, b, after, looks, x);
    AsideLater(q, q1, ss, b, now, after, looks);
    if Aside(q, ss, ids) == {} && Rematches(q, ss, x) {
      forall y ensures y !in Aside(q, ss, after) {
        assert y in Aside(q, ss, after) ==> y in Aside(q, ss, ids);
      }
      assert Aside(q, ss, after) == {};
      TurnFrees(q, ss, b, ids[..i], looks, x);
      assert now == ids[..i] + [x];
      NothingBehind(q1, x);
    }
  }

  lemma NothingBehind(q: Queue, x: int)
    ensures LeftBehind(q, {}, x) <==> Stuck(q, x)
  {
  }

  lemma TurnFrees(q: Queue, ss: Sources, b: Book, front: seq<int>, looks: int -> Look, x: int)
    requires x !in front && Rematches(q, ss, x)
    ensures !Stuck(MatchedEach(q, ss, b, front + [x], looks), x)
  {
    hide Matched, Stuck;
    var q0 := MatchedEach(q, ss, b, front, looks);
    EachKeeps(q, ss, b, front, looks, x);
    assert (front + [x])[..|front|] == front;
    assert x in q0.rows && Rematches(q0, ss, x);
    MatchedStrands(q0, ss, b, x, looks(x), x);
  }

  lemma AsideLater(q: Queue, q1: Queue, ss: Sources, b: Book, now: seq<int>, after: seq<int>, looks: int -> Look)
    requires NoRepeats(now + after) && q1 == MatchedEach(q, ss, b, now, looks)
    ensures Aside(q1, ss, after) == Aside(q, ss, after)
  {
    hide MatchedEach, LinkStands;
    forall y | y in after ensures SetsAside(q1, ss, y) <==> SetsAside(q, ss, y) {
      var j :| 0 <= j < |after| && after[j] == y;
      forall k | 0 <= k < |now| ensures now[k] != y {
        assert (now + after)[k] != (now + after)[|now| + j];
      }
      EachKeeps(q, ss, b, now, looks, y);
    }
  }

  // ----- what a whole acceptance leaves stuck -----

  lemma {:induction false} InvoicesUnstuck(q: Queue, ss: Sources, b: Book, ids: seq<int>, looks: int -> Look, x: int)
    requires forall y :: y in ids ==> Waiting(q, y) && q.rows[y].info.kind.InvoiceRow?
    ensures Stuck(MatchedEach(q, ss, b, ids, looks), x) <==> Stuck(q, x) && x !in ids
  {
    hide Matched, Stuck;
    if |ids| > 0 {
      var n := |ids| - 1;
      var front := ids[..n];
      assert ids == front + [ids[n]];
      assert ids[n] in ids && forall y :: y in front ==> y in ids;
      InvoicesUnstuck(q, ss, b, front, looks, x);
      RematchedInvoices(q, ss, b, front, looks);
      var q1 := MatchedEach(q, ss, b, front, looks);
      assert SameButInvoice(q, q1, ids[n]);
      assert x in ids <==> x in front || x == ids[n];
      MatchedStrands(q1, ss, b, ids[n], looks(ids[n]), x);
    }
  }

  /** After Accept has matched the waiting invoices again, the rows left stuck
      are those its decisions left, less those invoices. */
  lemma AcceptStrands(q: Queue, ss: Sources, b: Book, looks: int -> Look, x: int)
    ensures Stuck(InvoicesRematched(q, ss, b, looks), x) <==> Stuck(q, x) && x !in WaitingInvoices(q)
  {
    hide MatchedEach, Stuck, Listed;
    InvoicesUnstuck(q, ss, b, WaitingInvoices(q), looks, x);
  }

  lemma InsertedSame(q: Queue, q1: Queue, ids: seq<int>, x: int)
    requires forall y :: DateOf(q, y) == DateOf(q1, y)
    ensures InsertByDate(q, ids, x) == InsertByDate(q1, ids, x)
  {
    hide DateOf;
    if |ids| > 0 && DateOf(q, ids[|ids| - 1]) > DateOf(q, x) {
      InsertedSame(q, q1, ids[..|ids| - 1], x);
    }
  }

  lemma {:induction false} ListedSame(q: Queue, q1: Queue, where: int -> bool, where1: int -> bool, below: int)
    requires q.rows.Keys == q1.rows.Keys && forall y :: DateOf(q, y) == DateOf(q1, y)
    requires forall y :: y in q.rows ==> where(y) == where1(y)
    ensures Listed(q, where, below) == Listed(q1, where1, below)
    decreases below
  {
    hide DateOf, InsertByDate;
    if below > 1 {
      ListedSame(q, q1, where, where1, below - 1);
      assert below - 1 in q.rows <==> below - 1 in q1.rows;
      InsertedSame(q, q1, Listed(q, where, below - 1), below - 1);
    }
  }

  /** What accepting a transaction row decides: the row, the other side of a
      transfer, and the duplicates settled with the row. */
  function DecidedBy(q: Queue, id: int, category: Option<int>): set<int>
    requires id in q.rows
  {
    var r := q.rows[id];
    {id} + (if Chosen(r, category).AsTransfer? && r.found.row.Some? then {r.found.row.value} else {}) + SettledRows(q, id)
  }

  lemma BookedDecides(w: World, b: Book, q: Queue, ss: Sources, id: int, category: Option<int>)
    requires Waiting(q, id) && AccountOf(ss, q.rows[id]).Some?
    requires !WaitsForRow(q.rows[id], category) && !MatchGone(q.rows[id], category)
    requires BookedRow(w, b, q, ss, id, category).Ok?
    ensures var q1 := BookedRow(w, b, q, ss, id, category).value.queue;
      Decides(q, q1, DecidedBy(q, id, category)) && SameInfos(q, q1)
  {
    hide CreateTx, Update, TransferLines, ClearsLines, AcceptedAlone, AcceptedTransfer, Decides, SameInfos, SettledRows;
    var k := BookedRow(w, b, q, ss, id, category).value;
    if Chosen(q.rows[id], category).AsTransfer? {
      var other := q.rows[id].found.row.value;
      TransferDecides(q, id, other, k.txn);
      assert {id, other} + SettledRows(q, id) == {id} + {other} + SettledRows(q, id);
    } else {
      AloneDecides(q, id, k.txn);
      assert {id} + SettledRows(q, id) == {id} + {} + SettledRows(q, id);
    }
  }

  /** Exactly the rows Accept leaves stuck, for a transaction row: those that
      wait before the call, and are not decided by it, for a row it decides or
      for one decided earlier; less the invoices it matches again. */
  lemma AcceptedRowStrands(w: World, b: Book, q: Queue, ss: Sources, id: int, category: Option<int>, looks: int -> Look, x: int)
    requires Linked(q) && Waiting(q, id) && q.rows[id].info.kind.TransactionRow? && AccountOf(ss, q.rows[id]).Some?
    requires !WaitsForRow(q.rows[id], category) && !MatchGone(q.rows[id], category)
    requires BookedRow(w, b, q, ss, id, category).Ok?
    ensures var k := BookedRow(w, b, q, ss, id, category).value;
      Stuck(InvoicesRematched(k.queue, ss, k.book, looks), x) <==>
        LeftBehind(q, DecidedBy(q, id, category), x) && x !in WaitingInvoices(q)
  {
    hide BookedRow, Stuck, LeftBehind, InvoicesRematched, Decides, WaitingInvoices;
    BookedDecides(w, b, q, ss, id, category);
    var k := BookedRow(w, b, q, ss, id, category).value;
    SameInvoices(q, k.queue, DecidedBy(q, id, category));
    AcceptStrands(k.queue, ss, k.book, looks, x);
    StuckAfter(q, k.queue, DecidedBy(q, id, category), x);
  }

  lemma SameInvoices(q: Queue, q1: Queue, d: set<int>)
    requires Decides(q, q1, d) && SameInfos(q, q1)
    requires forall x :: x in d && x in q.rows ==> !q.rows[x].info.kind.InvoiceRow?
    ensures WaitingInvoices(q1) == WaitingInvoices(q)
  {
    hide Listed;
    assert forall y :: y in q.rows <==> y in q1.rows;
    ListedSame(q, q1, x => Waiting(q, x) && q.rows[x].info.kind.InvoiceRow?,
               x => Waiting(q1, x) && q1.rows[x].info.kind.InvoiceRow?, q.next);
  }

  // ----- the other acceptances, and an import -----

  lemma InsertedOnce(q: Queue, ids: seq<int>, x: int)
    requires NoRepeats(ids) && x !in ids
    ensures NoRepeats(InsertByDate(q, ids, x))
  {
    if |ids| > 0 && DateOf(q, ids[|ids| - 1]) > DateOf(q, x) {
      var front, last := ids[..|ids| - 1], ids[|ids| - 1];
      InsertedOnce(q, front, x);
      var r := InsertByDate(q, front, x);
      forall i | 0 <= i < |r| ensures r[i] != last {
        assert r[i] in r;
        if r[i] in front {
          var k :| 0 <= k < |front| && front[k] == r[i];
          assert ids[k] == r[i];
        }
      }
    }
  }

  lemma {:induction false} ListedOnce(q: Queue, where: int -> bool, below: int)
    ensures NoRepeats(Listed(q, where, below))
    decreases below
  {
    hide InsertByDate;
    if below > 1 {
      ListedOnce(q, where, below - 1);
      InsertedOnce(q, Listed(q, where, below - 1), below - 1);
    }
  }

  /** A waiting row on the settlement account of the trade, near its day. */
  predicate NearTrade(q: Queue, ss: Sources, id: int, x: int) {
    id in q.rows && Waiting(q, x) && q.rows[x].info.kind.TransactionRow? && AccountOf(ss, q.rows[x]).Some? &&
    AccountOf(ss, q.rows[x]) == SourceOf(ss, q.rows[id]).settlement &&
    Within(q.rows[x].info.date, q.rows[id].info.date, SETTLEMENT_WINDOW, SETTLEMENT_WINDOW)
  }

  /** What booking a trade decides: the row, its duplicates, and the rows near
      it whose source is ignored. */
  function DecidedByTrade(q: Queue, ss: Sources, id: int): set<int> {
    {id} + SettledRows(q, id) + set y | y in q.rows && NearTrade(q, ss, id, y) && SourceOf(ss, q.rows[y]).ignored
  }

  /** The rows matched again after a trade, in order. */
  function AfterTrade(q: Queue, ss: Sources, trade: Row): seq<int> {
    match SourceOf(ss, trade).settlement
    case Some(account) => OnAccountNear(q, ss, account, trade.info.date)
    case None => []
  }

  lemma AfterTradeAre(q: Queue, q1: Queue, ss: Sources, id: int, txn: int)
    requires Numbered(q) && Waiting(q, id) && q1 == AcceptedAlone(q, id, txn)
    ensures var d, ids := {id} + SettledRows(q, id), AfterTrade(q1, ss, q.rows[id]);
      NoRepeats(ids) && (forall x :: x in ids <==> NearTrade(q, ss, id, x) && x !in d) &&
      d + Aside(q1, ss, ids) == DecidedByTrade(q, ss, id)
  {
    hide AcceptedAlone, SettledRows;
    AloneDecides(q, id, txn);
    var d, ids := {id} + SettledRows(q, id), AfterTrade(q1, ss, q.rows[id]);
    match SourceOf(ss, q.rows[id]).settlement {
      case None =>
      case Some(account) =>
        ListedOnce(q1, x => Waiting(q1, x) && q1.rows[x].info.kind.TransactionRow? && AccountOf(ss, q1.rows[x]) == Some(account) &&
                           Within(q1.rows[x].info.date, q.rows[id].info.date, SETTLEMENT_WINDOW, SETTLEMENT_WINDOW), q1.next);
    }
    forall x ensures x in ids <==> NearTrade(q, ss, id, x) && x !in d {
      hide Listed;
      assert x in q.rows.Keys <==> x in q1.rows.Keys;
    }
    forall x ensures x in d + Aside(q1, ss, ids) <==> x in DecidedByTrade(q, ss, id) {
    }
  }

  /** Booking a trade: a row that is not near it is left stuck exactly when it
      is matched with one that is decided. */
  lemma TradeStrands(w: World, b: Book, q: Queue, ss: Sources, id: int, cash: Option<real>, security: int,
      looks: int -> Look, x: int)
    requires Numbered(q) && Waiting(q, id) && BookedTrade(w, b, q, ss, id, cash, security).Ok?
    requires !NearTrade(q, ss, id, x)
    ensures var k := BookedTrade(w, b, q, ss, id, cash, security).value;
      Stuck(SettlementRematched(k.queue, ss, k.book, q.rows[id], looks), x) <==> LeftBehind(q, DecidedByTrade(q, ss, id), x)
  {
    hide MatchedEach, AcceptedAlone, BookTrade, NearTrade, DecidedByTrade, Aside, SettledRows, OnAccountNear;
    var k := BookedTrade(w, b, q, ss, id, cash, security).value;
    var d, ids := {id} + SettledRows(q, id), AfterTrade(k.queue, ss, q.rows[id]);
    AfterTradeAre(q, k.queue, ss, id, k.txn);
    AloneDecides(q, id, k.txn);
    EachStrands(k.queue, ss, k.book, ids, looks, x);
    BehindThen(q, k.queue, d, Aside(k.queue, ss, ids), x);
  }

  lemma BehindThen(q: Queue, q1: Queue, d: set<int>, e: set<int>, x: int)
    requires Decides(q, q1, d)
    ensures LeftBehind(q1, e, x) <==> LeftBehind(q, d + e, x)
  {
    if x in q.rows && q.rows[x].found.row.Some? {
      assert q.rows[x].found.row.value in q.rows.Keys <==> q.rows[x].found.row.value in q1.rows.Keys;
    }
  }

  /** And the i-th of the rows near it is left stuck exactly when its own turn
      matched it with one that is set aside after it; never, while none of
      those rows has an ignored source. */
  lemma TradeTurns(w: World, b: Book, q: Queue, ss: Sources, id: int, cash: Option<real>, security: int,
      looks: int -> Look, i: nat)
    requires Numbered(q) && Waiting(q, id) && BookedTrade(w, b, q, ss, id, cash, security).Ok?
    requires i < |AfterTrade(BookedTrade(w, b, q, ss, id, cash, security).value.queue, ss, q.rows[id])|
    ensures var k := BookedTrade(w, b, q, ss, id, cash, security).value;
      var ids := AfterTrade(k.queue, ss, q.rows[id]);
      var q1 := SettlementRematched(k.queue, ss, k.book, q.rows[id], looks);
      (Stuck(q1, ids[i]) <==> LeftBehind(Turned(k.queue, ss, k.book, ids, looks, i), Aside(k.queue, ss, ids[i + 1..]), ids[i])) &&
      (Aside(k.queue, ss, ids) == {} ==> !Stuck(q1, ids[i]))
  {
    hide MatchedEach, AcceptedAlone, BookTrade, SettledRows, OnAccountNear, Stuck, LeftBehind, Aside;
    var k := BookedTrade(w, b, q, ss, id, cash, security).value;
    var ids := AfterTrade(k.queue, ss, q.rows[id]);
    AfterTradeAre(q, k.queue, ss, id, k.txn);
    AloneDecides(q, id, k.txn);
    TurnStrands(k.queue, ss, k.book, ids, looks, i);
    assert ids[i] in ids;
    NearRematches(q, k.queue, ss, id, {id} + SettledRows(q, id), ids[i]);
  }

  lemma NearRematches(q: Queue, q1: Queue, ss: Sources, id: int, d: set<int>, x: int)
    requires Decides(q, q1, d) && SameInfos(q, q1) && NearTrade(q, ss, id, x) && x !in d
    ensures SetsAside(q1, ss, x) || Rematches(q1, ss, x)
  {
  }

  /** Accepting an invoice: the rows left stuck are those matched with it, or
      stuck before, less the invoices matched again. */
  lemma InvoiceStrands(q: Queue, ss: Sources, b: Book, id: int, txn: int, looks: int -> Look, x: int)
    requires Waiting(q, id)
    ensures var q1 := Decided(q, id, IsAccepted, Some(txn));
      Stuck(InvoicesRematched(q1, ss, b, looks), x) <==> LeftBehind(q, {id}, x) && x !in WaitingInvoices(q1)
  {
    hide InvoicesRematched, Stuck, LeftBehind, WaitingInvoices;
    var q1 := Decided(q, id, IsAccepted, Some(txn));
    AcceptStrands(q1, ss, b, looks, x);
    DecidedStrands(q, id, IsAccepted, Some(txn), x);
  }

  lemma StagedStrands(q: Queue, batch: seq<Sent>, d: set<int>, x: int)
    requires Numbered(q) && Linked(q) && x in q.rows && forall y :: y in d ==> y >= q.next
    ensures LeftBehind(Staged(q, batch), d, x) <==> Stuck(q, x)
  {
    hide Staged;
    StagedGrows(q, batch);
    if q.rows[x].found.row.Some? {
      assert LinkedTo(q, x, q.rows[x].found.row.value);
    }
  }

  /** An import leaves no row stuck that was in the queue before, and frees the
      invoices matched again. */
  lemma ImportStrands(q: Queue, ss: Sources, b: Book, batch: seq<Sent>, looks: int -> Look, later: int -> Look, x: int)
    requires Numbered(q) && Linked(q) && x in q.rows
    ensures var q1 := MatchedEach(Staged(q, batch), ss, b, Numbers(q.next, StagedCount(q, batch)), looks);
      Stuck(Imported(q, ss, b, batch, looks, later), x) <==> Stuck(q, x) && x !in WaitingInvoices(q1)
  {
    hide MatchedEach, Staged, StagedCount, Stuck, LeftBehind, WaitingInvoices, SetsAside, Linked;
    var ids := Numbers(q.next, StagedCount(q, batch));
    EachStrands(Staged(q, batch), ss, b, ids, looks, x);
    StagedStrands(q, batch, Aside(Staged(q, batch), ss, ids), x);
    AcceptStrands(MatchedEach(Staged(q, batch), ss, b, ids, looks), ss, b, later, x);
  }

  /** The i-th row staged is stuck at the end exactly when its own turn matched
      it with one of the batch that is set aside after it, and it is no invoice
      matched again. */
  lemma ImportTurns(q: Queue, ss: Sources, b: Book, batch: seq<Sent>, looks: int -> Look, later: int -> Look, i: nat)
    requires i < StagedCount(q, batch)
    ensures var q0, ids := Staged(q, batch), Numbers(q.next, StagedCount(q, batch));
      Stuck(Imported(q, ss, b, batch, looks, later), ids[i]) <==>
        LeftBehind(Turned(q0, ss, b, ids, looks, i), Aside(q0, ss, ids[i + 1..]), ids[i]) &&
        ids[i] !in WaitingInvoices(MatchedEach(q0, ss, b, ids, looks))
  {
    hide MatchedEach, Staged, StagedCount, Stuck, LeftBehind, WaitingInvoices, SetsAside, Rematches;
    var q0, ids := Staged(q, batch), Numbers(q.next, StagedCount(q, batch));
    TurnStrands(q0, ss, b, ids, looks, i);
    AcceptStrands(MatchedEach(q0, ss, b, ids, looks), ss, b, later, ids[i]);
  }

  // ----- where the wait of a row leads -----

  /** A side of a transfer whose other side still waits to be mapped. */
  predicate SideUnmapped(q: Queue, ss: Sources, x: int) {
    x in q.rows && q.rows[x].found.proposal.AsTransfer? && q.rows[x].found.row.Some? && Unmapped(q, ss, q.rows[x].found.row.value)
  }

  /** In every reachable queue each waiting row leads, over waiting rows that
      are not stuck, to a waiting one that is stuck itself, or that Accept does
      not refuse because of the row it is matched with, unless that is the
      other side of a transfer and still to be mapped. */
  lemma WaitLeads(log: seq<Step>, ss: Sources, id: int) returns (n: nat)
    requires LegalLog(log) && Waiting(Replay(log), id)
    ensures Follow(Replay(log), id, n).Some? && Waiting(Replay(log), Follow(Replay(log), id, n).value)
    ensures var q, end := Replay(log), Follow(Replay(log), id, n).value;
      Stuck(q, end) || !HeldUp(q, ss, end) || SideUnmapped(q, ss, end)
    ensures forall m: nat :: m < n ==>
      Follow(Replay(log), id, m).Some? && Waiting(Replay(log), Follow(Replay(log), id, m).value) &&
      !Stuck(Replay(log), Follow(Replay(log), id, m).value)
  {
    hide Replay, LegalLog, Before;
    EveryRunKeeps(log);
    n := WaitingEnds(Replay(log), id);
    EndFree(Replay(log), ss, Follow(Replay(log), id, n).value);
  }

  lemma EndFree(q: Queue, ss: Sources, x: int)
    requires Linked(q) && Waiting(q, x) && (WaitsFor(q, x).None? || Stuck(q, x))
    ensures Stuck(q, x) || !HeldUp(q, ss, x) || SideUnmapped(q, ss, x)
  {
    if q.rows[x].found.row.Some? {
      assert LinkedTo(q, x, q.rows[x].found.row.value);
    }
  }

  /** In every reachable queue a waiting row is held up exactly when it is
      matched with a row it is to wait for, or with one that can be no side of
      its transfer; so a stuck row always is. */
  lemma StuckIsHeldUp(log: seq<Step>, ss: Sources, x: int)
    requires LegalLog(log) && Waiting(Replay(log), x)
    ensures var q := Replay(log);
      (HeldUp(q, ss, x) <==>
         WaitsFor(q, x).Some? || (q.rows[x].found.proposal.AsTransfer? && LinkOf(q, x).Some? && NoSide(q, ss, LinkOf(q, x).value))) &&
      (Stuck(q, x) ==> HeldUp(q, ss, x))
  {
    hide Replay, LegalLog, Before;
    EveryRunKeeps(log);
    var q := Replay(log);
    if q.rows[x].found.row.Some? {
      assert LinkedTo(q, x, q.rows[x].found.row.value);
    }
  }
}
