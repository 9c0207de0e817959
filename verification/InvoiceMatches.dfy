// What an invoice is matched with (proposeInvoice, internal/ledger/invoices.go),
// told over the rows, postings and days themselves.
module InvoiceMatches {
  import opened Decimals
  import opened Core
  import opened ImportQueue
  import opened Matching

  predicate InPaymentDays(i: Info, date: int) {
    i.date - 2 <= date <= i.date + 5
  }

  /** Posts the amount, in the currency, on an asset or a liability. */
  predicate PostsFor(b: Book, i: Info, t: Txn) {
    exists p :: p in t.postings && p.account in b.accounts && p.commodity == i.currency && p.amount == i.amount &&
      (b.accounts[p.account].cls.Asset? || b.accounts[p.account].cls.Liability?)
  }

  predicate PostsOut(b: Book, t: Txn) {
    exists p :: p in t.postings && p.account in b.accounts && p.amount < 0.0 &&
      (b.accounts[p.account].cls.Asset? || b.accounts[p.account].cls.Liability?)
  }

  predicate StatedInvoice(r: Row) {
    r.info.kind.InvoiceRow? && r.status.IsPending? && r.info.amount != 0.0
  }

  /** No other waiting invoice that states an amount is matched with it. */
  predicate UnwantedTxn(q: Queue, id: int, t: int) {
    forall o :: o in q.rows && StatedInvoice(q.rows[o]) && o != id ==> q.rows[o].found.txn != Some(t)
  }

  predicate UnwantedRow(q: Queue, id: int, x: int) {
    forall o :: o in q.rows && StatedInvoice(q.rows[o]) && o != id ==> q.rows[o].found.row != Some(x)
  }

  /** A transaction that paid the invoice to the amount: within its days, not
      itemised, and not another invoice's. */
  predicate PaidTxn(q: Queue, b: Book, id: int, look: Look, t: Txn)
    requires id in q.rows
  {
    InPaymentDays(q.rows[id].info, t.date) && PostsFor(b, q.rows[id].info, t) && t.id !in look.itemised &&
    UnwantedTxn(q, id, t.id)
  }

  /** A waiting bank row that did. */
  predicate PaidRow(q: Queue, id: int, x: int)
    requires id in q.rows
  {
    Waiting(q, x) && q.rows[x].info.kind.TransactionRow? && InPaymentDays(q.rows[id].info, q.rows[x].info.date) &&
    q.rows[x].info.currency == q.rows[id].info.currency && q.rows[x].info.amount == q.rows[id].info.amount &&
    UnwantedRow(q, id, x)
  }

  /** One that may have, in another currency and near the day's rate. */
  predicate PaidAbroad(q: Queue, id: int, look: Look, x: int)
    requires id in q.rows
  {
    Waiting(q, x) && q.rows[x].info.kind.TransactionRow? && InPaymentDays(q.rows[id].info, q.rows[x].info.date) &&
    q.rows[x].info.currency != q.rows[id].info.currency &&
    Sign(q.rows[x].info.amount) == Sign(q.rows[id].info.amount) && x in look.foreignRows && UnwantedRow(q, id, x)
  }

  /** Without an amount: money out within the days, that names the seller. */
  predicate NamedTxn(q: Queue, b: Book, id: int, look: Look, t: Txn)
    requires id in q.rows
  {
    InPaymentDays(q.rows[id].info, t.date) && PostsOut(b, t) && t.id in look.named
  }

  predicate NamedRow(q: Queue, id: int, look: Look, x: int)
    requires id in q.rows
  {
    Waiting(q, x) && q.rows[x].info.kind.TransactionRow? && q.rows[x].info.amount < 0.0 &&
    InPaymentDays(q.rows[id].info, q.rows[x].info.date) && x in look.namedRows
  }

  /** Another connector's waiting invoice: of the same number, or of the same
      purchase. Of two it is the one that states an amount, or else the first. */
  predicate SameBill(q: Queue, ss: Sources, id: int, look: Look, x: int)
    requires id in q.rows
  {
    Waiting(q, x) && x != id && q.rows[x].info.kind.InvoiceRow? &&
    SourceOf(ss, q.rows[x]).connector != SourceOf(ss, q.rows[id]).connector &&
    var i, o := q.rows[id].info, q.rows[x];
    (i.reference.Some? && x in look.numbered && o.info.amount != 0.0 && (x < id || i.amount == 0.0)) ||
    (x < id && InPaymentDays(i, o.info.date) && i.amount != 0.0 && o.info.currency == i.currency &&
     o.info.amount == i.amount &&
     (o.found.proposal.AsEnrich? || o.found.proposal.AsNew? || o.found.proposal.AsWaiting?))
  }

  predicate SameBillTxn(q: Queue, b: Book, id: int, look: Look, t: int)
    requires id in q.rows
  {
    var i := q.rows[id].info;
    (i.reference.Some? && look.numberedTxn == Some(t)) ||
    (i.amount != 0.0 && t in look.otherItems &&
     exists u :: u in b.txns && u.id == t && PostsFor(b, i, u) && InPaymentDays(i, u.date))
  }

  /** What an invoice's match says of it and of what it is matched with. */
  predicate InvoiceMeans(q: Queue, ss: Sources, b: Book, id: int, look: Look, m: Match)
    requires id in q.rows
  {
    var amount := q.rows[id].info.amount;
    match m.proposal
    case AsEnrich =>
      m.category.None? && m.txn.Some? != m.row.Some? &&
      (m.txn.Some? ==>
        if amount == 0.0 then exists t :: t in b.txns && t.id == m.txn.value && NamedTxn(q, b, id, look, t)
        else m.txn == look.foreign || exists t :: t in b.txns && t.id == m.txn.value && PaidTxn(q, b, id, look, t)) &&
      (m.row.Some? ==>
        if amount == 0.0 then NamedRow(q, id, look, m.row.value)
        else PaidRow(q, id, m.row.value) || PaidAbroad(q, id, look, m.row.value))
    case AsSameInvoice =>
      m.category.None? && m.txn.Some? != m.row.Some? &&
      (m.txn.Some? ==> SameBillTxn(q, b, id, look, m.txn.value)) &&
      (m.row.Some? ==> SameBill(q, ss, id, look, m.row.value))
    case AsWaiting =>
      m.txn.None? && m.row.None? &&
      if amount == 0.0 then m.category.None? else look.early && m.category == look.rule
    case AsNew => m == Match(AsNew, look.rule, None, None) && amount != 0.0 && !look.early
    case _ => false
  }

  lemma InvoiceIs(q: Queue, ss: Sources, b: Book, id: int, look: Look)
    requires id in q.rows
    ensures InvoiceMeans(q, ss, b, id, look, InvoiceFound(q, ss, b, id, look))
  {
    hide ByNumber, ByName, ByAmount, ByRate, ByPurchase, InvoiceMeans;
    if ByNumber(q, ss, id, look).Some? {
      NumberMeans(q, ss, b, id, look);
    } else if q.rows[id].info.amount == 0.0 {
      if ByName(q, b, id, look).Some? {
        NameMeans(q, ss, b, id, look);
      } else {
        NothingMeans(q, ss, b, id, look, Match(AsWaiting, None, None, None));
      }
    } else if ByAmount(q, b, id, look).Some? {
      AmountMeans(q, ss, b, id, look);
    } else if ByRate(q, id, look).Some? {
      RateMeans(q, ss, b, id, look);
    } else if ByPurchase(q, ss, b, id, look).Some? {
      PurchaseMeans(q, ss, b, id, look);
    } else {
      NothingMeans(q, ss, b, id, look, Match(if look.early then AsWaiting else AsNew, look.rule, None, None));
    }
  }

  lemma NothingMeans(q: Queue, ss: Sources, b: Book, id: int, look: Look, m: Match)
    requires id in q.rows
    requires m == if q.rows[id].info.amount == 0.0 then Match(AsWaiting, None, None, None)
                  else Match(if look.early then AsWaiting else AsNew, look.rule, None, None)
    ensures InvoiceMeans(q, ss, b, id, look, m)
  {
  }

  lemma NumberMeans(q: Queue, ss: Sources, b: Book, id: int, look: Look)
    requires id in q.rows && ByNumber(q, ss, id, look).Some?
    ensures InvoiceMeans(q, ss, b, id, look, ByNumber(q, ss, id, look).value)
  {
  }

  lemma NameMeans(q: Queue, ss: Sources, b: Book, id: int, look: Look)
    requires id in q.rows && q.rows[id].info.amount == 0.0 && ByName(q, b, id, look).Some?
    ensures InvoiceMeans(q, ss, b, id, look, ByName(q, b, id, look).value)
  {
  }

  lemma PaidTxnIff(q: Queue, b: Book, id: int, look: Look, t: Txn)
    requires id in q.rows
    ensures PaidTxn(q, b, id, look, t) <==> PaidByTxn(q, b, id, look, t)
  {
  }

  lemma PaidRowIff(q: Queue, id: int, x: int)
    requires id in q.rows
    ensures PaidRow(q, id, x) <==> PaidByRow(q, id, x)
  {
  }

  lemma AmountMeans(q: Queue, ss: Sources, b: Book, id: int, look: Look)
    requires id in q.rows && q.rows[id].info.amount != 0.0 && ByAmount(q, b, id, look).Some?
    ensures InvoiceMeans(q, ss, b, id, look, ByAmount(q, b, id, look).value)
  {
    hide PaidTxn, PaidByTxn, PaidRow, PaidByRow;
    var m := ByAmount(q, b, id, look).value;
    if m.txn.Some? {
      var t :| t in b.txns && PaidByTxn(q, b, id, look, t) && t.id == m.txn.value;
      PaidTxnIff(q, b, id, look, t);
    } else {
      PaidRowIff(q, id, m.row.value);
    }
  }

  lemma RateMeans(q: Queue, ss: Sources, b: Book, id: int, look: Look)
    requires id in q.rows && q.rows[id].info.amount != 0.0 && ByRate(q, id, look).Some?
    ensures InvoiceMeans(q, ss, b, id, look, ByRate(q, id, look).value)
  {
  }

  lemma PurchaseMeans(q: Queue, ss: Sources, b: Book, id: int, look: Look)
    requires id in q.rows && q.rows[id].info.amount != 0.0 && ByPurchase(q, ss, b, id, look).Some?
    ensures InvoiceMeans(q, ss, b, id, look, ByPurchase(q, ss, b, id, look).value)
  {
  }

  /** An invoice waits, or becomes a purchase of its own, only when nothing of
      the kind its match would have said is there. */
  lemma NothingLeft(q: Queue, ss: Sources, b: Book, id: int, look: Look)
    requires Numbered(q) && id in q.rows
    requires InvoiceFound(q, ss, b, id, look).proposal.AsNew? || InvoiceFound(q, ss, b, id, look).proposal.AsWaiting?
    ensures forall t :: !SameBillTxn(q, b, id, look, t)
    ensures forall x :: x in q.rows ==> !SameBill(q, ss, id, look, x)
    ensures q.rows[id].info.amount != 0.0 ==>
      look.foreign.None? &&
      (forall t :: t in b.txns ==> !PaidTxn(q, b, id, look, t)) &&
      (forall x :: x in q.rows ==> !PaidRow(q, id, x) && !PaidAbroad(q, id, look, x))
    ensures q.rows[id].info.amount == 0.0 ==>
      (forall t :: t in b.txns ==> !NamedTxn(q, b, id, look, t)) &&
      (forall x :: x in q.rows ==> !NamedRow(q, id, look, x))
  {
    hide PaidTxn, PaidByTxn, PaidRow, PaidByRow, SameBill, SameBillTxn, PaidAbroad, NamedTxn, NamedRow,
      FirstTxn, FirstNamedTxn, FirstRow, FirstNamedRow, LowestRow;
    NoBill(q, ss, b, id, look);
    if q.rows[id].info.amount != 0.0 {
      NonePaid(q, b, id, look);
      NoneAbroad(q, id, look);
    } else {
      NoneNamed(q, b, id, look);
    }
  }

  lemma NoBill(q: Queue, ss: Sources, b: Book, id: int, look: Look)
    requires Numbered(q) && id in q.rows && ByNumber(q, ss, id, look).None?
    requires q.rows[id].info.amount != 0.0 ==> ByPurchase(q, ss, b, id, look).None?
    ensures forall t :: !SameBillTxn(q, b, id, look, t)
    ensures forall x :: x in q.rows ==> !SameBill(q, ss, id, look, x)
  {
  }

  lemma NonePaid(q: Queue, b: Book, id: int, look: Look)
    requires Numbered(q) && id in q.rows && ByAmount(q, b, id, look).None?
    ensures forall t :: t in b.txns ==> !PaidTxn(q, b, id, look, t)
    ensures forall x :: x in q.rows ==> !PaidRow(q, id, x)
  {
    hide PaidTxn, PaidByTxn, PaidRow, PaidByRow;
    forall t | t in b.txns ensures !PaidTxn(q, b, id, look, t) {
      PaidTxnIff(q, b, id, look, t);
    }
    forall x | x in q.rows ensures !PaidRow(q, id, x) {
      PaidRowIff(q, id, x);
    }
  }

  lemma NoneAbroad(q: Queue, id: int, look: Look)
    requires Numbered(q) && id in q.rows && ByRate(q, id, look).None?
    ensures look.foreign.None? && forall x :: x in q.rows ==> !PaidAbroad(q, id, look, x)
  {
  }

  lemma NoneNamed(q: Queue, b: Book, id: int, look: Look)
    requires Numbered(q) && id in q.rows && ByName(q, b, id, look).None?
    ensures forall t :: t in b.txns ==> !NamedTxn(q, b, id, look, t)
    ensures forall x :: x in q.rows ==> !NamedRow(q, id, look, x)
  {
  }

  /** t paid, names the seller if any that paid does, and none such is nearer. */
  ghost predicate BestPaid(q: Queue, b: Book, id: int, look: Look, t: Txn)
    requires id in q.rows
  {
    t in b.txns && PaidTxn(q, b, id, look, t) &&
    forall v :: v in b.txns && PaidTxn(q, b, id, look, v) ==>
      (v.id in look.named ==> t.id in look.named) &&
      ((t.id in look.named ==> v.id in look.named) ==>
        Days(t.date, q.rows[id].info.date) <= Days(v.date, q.rows[id].info.date))
  }

  /** An invoice of which no other carries the number goes with a transaction
      that paid it, if there is any: the best of them. */
  lemma PaidFirst(q: Queue, ss: Sources, b: Book, id: int, look: Look, v: Txn)
    requires id in q.rows && q.rows[id].info.amount != 0.0 && v in b.txns && PaidTxn(q, b, id, look, v)
    requires ByNumber(q, ss, id, look).None?
    ensures exists t ::
      BestPaid(q, b, id, look, t) && InvoiceFound(q, ss, b, id, look) == Match(AsEnrich, None, Some(t.id), None)
  {
    hide PaidTxn, PaidByTxn, ByRate, ByPurchase, ByNumber, FirstNamedRow, FirstNamedTxn, BestPaid;
    var t := BestOf(q, b, id, look, v);
  }

  lemma BestOf(q: Queue, b: Book, id: int, look: Look, v: Txn) returns (t: Txn)
    requires id in q.rows && v in b.txns && PaidTxn(q, b, id, look, v)
    ensures BestPaid(q, b, id, look, t)
    ensures FirstNamedTxn(b, (t: Txn) => PaidByTxn(q, b, id, look, t), look.named, q.rows[id].info.date) == Some(t.id)
  {
    hide PaidTxn, PaidByTxn, FirstNamedTxn;
    forall u ensures PaidTxn(q, b, id, look, u) <==> PaidByTxn(q, b, id, look, u) {
      PaidTxnIff(q, b, id, look, u);
    }
    t := NamedBest(b, (t: Txn) => PaidByTxn(q, b, id, look, t), look.named, q.rows[id].info.date, v);
  }

  lemma NamedBest(b: Book, where: Txn -> bool, names: set<int>, on: int, v: Txn) returns (t: Txn)
    requires v in b.txns && where(v)
    ensures t in b.txns && where(t) && FirstNamedTxn(b, where, names, on) == Some(t.id)
    ensures forall u :: u in b.txns && where(u) ==>
      (u.id in names ==> t.id in names) && ((t.id in names ==> u.id in names) ==> Days(t.date, on) <= Days(u.date, on))
  {
    hide FirstTxn;
    var named := (t: Txn) => where(t) && t.id in names;
    if w :| w in b.txns && where(w) && w.id in names {
      assert named(w);
      t := FirstIs(b, named, on, w);
      assert forall u :: u in b.txns && where(u) && u.id in names ==> named(u);
    } else {
      NoneIs(b, named, on);
      t := FirstIs(b, where, on, v);
    }
  }

  lemma FirstIs(b: Book, where: Txn -> bool, on: int, v: Txn) returns (t: Txn)
    requires v in b.txns && where(v)
    ensures t in b.txns && where(t) && FirstTxn(b, where, on) == Some(t.id)
    ensures forall u :: u in b.txns && where(u) ==> Days(t.date, on) <= Days(u.date, on)
  {
    var r := FirstTxn(b, where, on);
    assert r.Some?;
    t :| NoneNearer(b, where, Zero(), on, t) && t.id == r.value;
    forall u | u in b.txns && where(u) ensures Days(t.date, on) <= Days(u.date, on) {
      assert !Nearer(u, t, Zero(), on);
    }
  }

  lemma NoneIs(b: Book, where: Txn -> bool, on: int)
    requires forall u :: u in b.txns ==> !where(u)
    ensures FirstTxn(b, where, on).None?
  {
  }

  /** A number another bill has decides before anything else; of several waiting
      the first staged. */
  lemma NumberFirst(q: Queue, ss: Sources, b: Book, id: int, look: Look, x: int)
    requires Numbered(q) && id in q.rows && q.rows[id].info.reference.Some? && x in q.rows
    requires look.numberedTxn.Some? ||
      (SameBill(q, ss, id, look, x) && x in look.numbered && q.rows[x].info.amount != 0.0)
    ensures var m := InvoiceFound(q, ss, b, id, look);
      m.proposal.AsSameInvoice? &&
      if look.numberedTxn.Some? then m.txn == look.numberedTxn
      else m.row.Some? && m.row.value in look.numbered && m.row.value <= x
  {
    hide ByName, ByAmount, ByRate, ByPurchase;
  }
}
