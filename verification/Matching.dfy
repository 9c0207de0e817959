// What the matcher proposes for a waiting row: the queries of
// internal/db/imports.sql.go, and the order in which propose, proposeTrade and
// proposeInvoice (internal/ledger) ask them.
module Matching {
  import opened Decimals
  import opened Core
  import opened Invoices
  import opened ImportQueue

  const DUPLICATE_WINDOW := 3
  const ESTIMATE_WINDOW := 5
  const TRANSFER_WINDOW := 3
  const INVOICE_BEFORE := 2
  const INVOICE_AFTER := 5

  /** A source account: who sends it, and the accounts its rows are for. */
  datatype Source = Source(connector: string, account: Option<int>, settlement: Option<int>, ignored: bool)

  /** What the model leaves open, read when a row is matched: the texts
      (named: the transactions and rows naming its seller; numbered: the rows
      carrying its number), which postings are uncleared, which transactions
      have items (of another connector), a payment found through an exchange
      rate, the account of its security, its rule, and whether a card charge
      may still come. */
  datatype Look = Look(
    named: set<int>, namedRows: set<int>, numbered: set<int>, numberedTxn: Option<int>, uncleared: set<int>,
    itemised: set<int>, otherItems: set<int>, foreign: Option<int>, foreignRows: set<int>, security: Option<int>,
    rule: Option<int>, categories: seq<Option<int>>, early: bool)

  type Sources = map<int, Source>

  function SourceOf(ss: Sources, r: Row): Source {
    if r.info.source in ss then ss[r.info.source] else Source("", None, None, false)
  }

  function AccountOf(ss: Sources, r: Row): Option<int> {
    SourceOf(ss, r).account
  }

  // ----- ORDER BY nearest day, id LIMIT 1 -----

  function Days(a: int, b: int): nat {
    if a <= b then b - a else a - b
  }

  predicate Within(date: int, on: int, before: int, after: int) {
    on - before <= date <= on + after
  }

  function NearestRow(q: Queue, where: int -> bool, on: int, below: int): (r: Option<int>)
    ensures r.None? ==> forall x :: 0 < x < below && x in q.rows ==> !where(x)
    ensures r.Some? ==> 0 < r.value < below && r.value in q.rows && where(r.value)
    ensures r.Some? ==> (forall x :: 0 < x < below && x in q.rows && where(x) ==>
        Days(q.rows[r.value].info.date, on) < Days(q.rows[x].info.date, on) ||
        (Days(q.rows[r.value].info.date, on) == Days(q.rows[x].info.date, on) && r.value <= x))
    decreases below
  {
    if below <= 1 then None else
      var r := NearestRow(q, where, on, below - 1);
      var x := below - 1;
      if x in q.rows && where(x) && (r.None? || Days(q.rows[x].info.date, on) < Days(q.rows[r.value].info.date, on))
      then Some(x) else r
  }

  function FirstRow(q: Queue, where: int -> bool, on: int): Option<int> {
    NearestRow(q, where, on, q.next)
  }

  /** The one with the lowest id. */
  function LowestRow(q: Queue, where: int -> bool, below: int): (r: Option<int>)
    ensures r.None? ==> forall x :: 0 < x < below && x in q.rows ==> !where(x)
    ensures r.Some? ==> 0 < r.value < below && r.value in q.rows && where(r.value)
    ensures r.Some? ==> (forall x :: 0 < x < r.value && x in q.rows ==> !where(x))
    decreases below
  {
    if below <= 1 then None else
      var r := LowestRow(q, where, below - 1);
      if r.None? && below - 1 in q.rows && where(below - 1) then Some(below - 1) else r
  }

  /** A named one first. */
  function FirstNamedRow(q: Queue, where: int -> bool, names: set<int>, on: int): Option<int> {
    match FirstRow(q, x => where(x) && x in names, on)
    case Some(x) => Some(x)
    case None => FirstRow(q, where, on)
  }

  predicate Nearer(t: Txn, u: Txn, key: Txn -> real, on: int) {
    key(t) < key(u) || (key(t) == key(u) && Days(t.date, on) < Days(u.date, on))
  }

  /** The transactions are stored by id. */
  function NearestTxn(txns: seq<Txn>, where: Txn -> bool, key: Txn -> real, on: int): (r: Option<nat>)
    ensures r.None? ==> forall t :: t in txns ==> !where(t)
    ensures r.Some? ==> r.value < |txns| && where(txns[r.value])
    ensures r.Some? ==> (forall i :: 0 <= i < |txns| && where(txns[i]) ==>
        !Nearer(txns[i], txns[r.value], key, on) && (i < r.value ==> Nearer(txns[r.value], txns[i], key, on)))
  {
    if |txns| == 0 then None else
      var n := |txns| - 1;
      var r := NearestTxn(txns[..n], where, key, on);
      if where(txns[n]) && (r.None? || Nearer(txns[n], txns[r.value], key, on)) then Some(n) else r
  }

  /** None of those where the condition holds is nearer than t. */
  ghost predicate NoneNearer(b: Book, where: Txn -> bool, key: Txn -> real, on: int, t: Txn) {
    t in b.txns && where(t) && forall u :: u in b.txns && where(u) ==> !Nearer(u, t, key, on)
  }

  function FirstBy(b: Book, where: Txn -> bool, key: Txn -> real, on: int): (r: Option<int>)
    ensures r.None? ==> forall t :: t in b.txns ==> !where(t)
    ensures r.Some? ==> exists t :: NoneNearer(b, where, key, on, t) && t.id == r.value
  {
    match NearestTxn(b.txns, where, key, on)
    case Some(i) =>
      assert NoneNearer(b, where, key, on, b.txns[i]);
      Some(b.txns[i].id)
    case None => None
  }

  function Zero(): Txn -> real {
    (t: Txn) => 0.0
  }

  function FirstTxn(b: Book, where: Txn -> bool, on: int): (r: Option<int>)
    ensures r.None? ==> forall t :: t in b.txns ==> !where(t)
    ensures r.Some? ==> exists t :: NoneNearer(b, where, Zero(), on, t) && t.id == r.value
  {
    FirstBy(b, where, Zero(), on)
  }

  function FirstNamedTxn(b: Book, where: Txn -> bool, names: set<int>, on: int): Option<int> {
    match FirstTxn(b, (t: Txn) => where(t) && t.id in names, on)
    case Some(t) => Some(t)
    case None => FirstTxn(b, where, on)
  }

  // ----- the rows a query finds -----

  predicate Free(q: Queue, id: int, x: int) {
    x in q.rows && (q.rows[x].found.row.None? || q.rows[x].found.row == Some(id))
  }

  predicate WaitedOn(q: Queue, id: int, x: int) {
    exists o :: o in q.rows && q.rows[o].status.IsPending? && o != id &&
      q.rows[o].found.proposal.AsDuplicate? && q.rows[o].found.row == Some(x)
  }

  predicate DuplicateRow(q: Queue, ss: Sources, id: int, x: int) {
    Waiting(q, x) && x != id && id in q.rows &&
    var r, o := q.rows[id].info, q.rows[x].info;
    o.kind.TransactionRow? && AccountOf(ss, q.rows[x]) == AccountOf(ss, q.rows[id]) && o.source != r.source &&
    o.currency == r.currency && o.amount == r.amount && Within(o.date, r.date, DUPLICATE_WINDOW, DUPLICATE_WINDOW) &&
    Free(q, id, x) && !WaitedOn(q, id, x)
  }

  predicate TradeRowAlike(q: Queue, ss: Sources, id: int, x: int) {
    Waiting(q, x) && x != id && id in q.rows &&
    var r, o := q.rows[id].info, q.rows[x].info;
    o.kind.TradeRow? && AccountOf(ss, q.rows[x]) == AccountOf(ss, q.rows[id]) && o.source != r.source &&
    o.security == r.security && o.units == r.units && Within(o.date, r.date, DUPLICATE_WINDOW, DUPLICATE_WINDOW) &&
    Free(q, id, x) && !WaitedOn(q, id, x)
  }

  predicate OtherSide(q: Queue, ss: Sources, id: int, x: int) {
    Waiting(q, x) && x != id && id in q.rows && q.rows[x].info.kind.TransactionRow? &&
    AccountOf(ss, q.rows[x]).Some? && AccountOf(ss, q.rows[x]) != AccountOf(ss, q.rows[id]) &&
    Within(q.rows[x].info.date, q.rows[id].info.date, TRANSFER_WINDOW, TRANSFER_WINDOW) &&
    (q.rows[x].found.proposal.AsNew? || q.rows[x].found.proposal.AsTransfer?) && Free(q, id, x)
  }

  predicate TransferPartner(q: Queue, ss: Sources, id: int, x: int) {
    OtherSide(q, ss, id, x) && q.rows[x].info.currency == q.rows[id].info.currency &&
    q.rows[x].info.amount + q.rows[id].info.amount == 0.0
  }

  predicate ExchangePartner(q: Queue, ss: Sources, id: int, x: int) {
    OtherSide(q, ss, id, x) && q.rows[id].info.reference.Some? && q.rows[x].info.reference == q.rows[id].info.reference &&
    q.rows[x].info.currency != q.rows[id].info.currency && Sign(q.rows[x].info.amount) == -Sign(q.rows[id].info.amount)
  }

  predicate Wanted(q: Queue, id: int, x: int) {
    exists o :: o in q.rows && q.rows[o].info.kind.InvoiceRow? && q.rows[o].status.IsPending? &&
      q.rows[o].info.amount != 0.0 && q.rows[o].found.row == Some(x) && o != id
  }

  predicate PaymentWindow(q: Queue, id: int, date: int) {
    id in q.rows && Within(date, q.rows[id].info.date, INVOICE_BEFORE, INVOICE_AFTER)
  }

  predicate PaidByRow(q: Queue, id: int, x: int) {
    Waiting(q, x) && id in q.rows && q.rows[x].info.kind.TransactionRow? && PaymentWindow(q, id, q.rows[x].info.date) &&
    q.rows[x].info.currency == q.rows[id].info.currency && q.rows[x].info.amount == q.rows[id].info.amount &&
    !Wanted(q, id, x)
  }

  predicate ForeignPayment(q: Queue, id: int, x: int) {
    Waiting(q, x) && id in q.rows && q.rows[x].info.kind.TransactionRow? && PaymentWindow(q, id, q.rows[x].info.date) &&
    q.rows[x].info.currency != q.rows[id].info.currency && Sign(q.rows[x].info.amount) == Sign(q.rows[id].info.amount) &&
    !Wanted(q, id, x)
  }

  predicate PaymentOut(q: Queue, id: int, x: int) {
    Waiting(q, x) && q.rows[x].info.kind.TransactionRow? && q.rows[x].info.amount < 0.0 &&
    PaymentWindow(q, id, q.rows[x].info.date)
  }

  predicate SameNumber(q: Queue, ss: Sources, id: int, x: int) {
    Waiting(q, x) && x != id && id in q.rows && q.rows[x].info.kind.InvoiceRow? &&
    SourceOf(ss, q.rows[x]).connector != SourceOf(ss, q.rows[id]).connector && q.rows[x].info.amount != 0.0 &&
    (x < id || q.rows[id].info.amount == 0.0)
  }

  predicate SamePurchase(q: Queue, ss: Sources, id: int, x: int) {
    Waiting(q, x) && x < id && id in q.rows && q.rows[x].info.kind.InvoiceRow? && PaymentWindow(q, id, q.rows[x].info.date) &&
    SourceOf(ss, q.rows[x]).connector != SourceOf(ss, q.rows[id]).connector &&
    q.rows[x].info.currency == q.rows[id].info.currency && q.rows[x].info.amount == q.rows[id].info.amount &&
    (q.rows[x].found.proposal.AsEnrich? || q.rows[x].found.proposal.AsNew? || q.rows[x].found.proposal.AsWaiting?)
  }

  // ----- the transactions a query finds -----

  predicate Posts(t: Txn, account: int, amount: real) {
    exists p :: p in t.postings && p.account == account && p.amount == amount
  }

  predicate Owned(b: Book, account: int) {
    account in b.accounts && (b.accounts[account].cls.Asset? || b.accounts[account].cls.Liability?)
  }

  predicate Pays(b: Book, t: Txn, currency: string, amount: real) {
    exists p :: p in t.postings && Owned(b, p.account) && p.commodity == currency && p.amount == amount
  }

  predicate PaysOut(b: Book, t: Txn) {
    exists p :: p in t.postings && Owned(b, p.account) && p.amount < 0.0
  }

  /** A row of the account, not ignored, that is or matched the transaction. */
  predicate Claimed(q: Queue, ss: Sources, account: int, t: int) {
    exists o :: o in q.rows && !q.rows[o].status.IsIgnored? && AccountOf(ss, q.rows[o]) == Some(account) &&
      (q.rows[o].txn == Some(t) || q.rows[o].found.txn == Some(t))
  }

  predicate ClaimedByTrade(q: Queue, id: int, t: int) {
    exists o :: o in q.rows && !q.rows[o].status.IsIgnored? && q.rows[o].info.kind.TradeRow? && o != id &&
      (q.rows[o].txn == Some(t) || q.rows[o].found.txn == Some(t))
  }

  predicate MatchedByPending(q: Queue, t: int) {
    exists o :: o in q.rows && q.rows[o].status.IsPending? && q.rows[o].found.txn == Some(t)
  }

  predicate WantedTxn(q: Queue, id: int, t: int) {
    exists o :: o in q.rows && q.rows[o].info.kind.InvoiceRow? && q.rows[o].status.IsPending? &&
      q.rows[o].info.amount != 0.0 && q.rows[o].found.txn == Some(t) && o != id
  }

  predicate Between(x: real, a: real, b: real) {
    if a <= b then a <= x <= b else b <= x <= a
  }

  /** Within a tenth of the amount. */
  predicate Estimates(t: Txn, account: int, amount: real) {
    |t.postings| == 2 &&
    exists p :: p in t.postings && p.account == account && Between(p.amount, 0.9 * amount, 1.1 * amount)
  }

  function OnAccount(ps: seq<Posting>, account: int): real {
    if |ps| == 0 then 0.0
    else if ps[0].account == account then ps[0].amount
    else OnAccount(ps[1..], account)
  }

  // ----- propose -----

  /** The transaction moves the same amount on the account within the window,
      and no row of the account has it. */
  predicate AlreadyIn(q: Queue, ss: Sources, id: int, t: Txn) {
    id in q.rows && AccountOf(ss, q.rows[id]).Some? &&
    Posts(t, AccountOf(ss, q.rows[id]).value, q.rows[id].info.amount) &&
    Within(t.date, q.rows[id].info.date, DUPLICATE_WINDOW, DUPLICATE_WINDOW) &&
    !Claimed(q, ss, AccountOf(ss, q.rows[id]).value, t.id)
  }

  /** The transaction is an uncleared guess at what the row now states. */
  predicate EstimateOf(q: Queue, ss: Sources, id: int, look: Look, t: Txn) {
    id in q.rows && AccountOf(ss, q.rows[id]).Some? && !q.rows[id].info.pending && q.rows[id].info.amount != 0.0 &&
    t.id in look.uncleared && Estimates(t, AccountOf(ss, q.rows[id]).value, q.rows[id].info.amount) &&
    Within(t.date, q.rows[id].info.date, ESTIMATE_WINDOW, ESTIMATE_WINDOW) && !MatchedByPending(q, t.id)
  }

  function Duplicated(q: Queue, ss: Sources, b: Book, id: int): Option<int>
    requires id in q.rows && AccountOf(ss, q.rows[id]).Some?
  {
    FirstTxn(b, (t: Txn) => AlreadyIn(q, ss, id, t), q.rows[id].info.date)
  }

  function Estimated(q: Queue, ss: Sources, b: Book, id: int, look: Look): Option<int>
    requires id in q.rows && AccountOf(ss, q.rows[id]).Some?
  {
    var i, account := q.rows[id].info, AccountOf(ss, q.rows[id]).value;
    FirstBy(b, (t: Txn) => EstimateOf(q, ss, id, look, t),
            (t: Txn) => Abs(OnAccount(t.postings, account) - i.amount), i.date)
  }

  /** Of a pair alike, the row is the one that has to wait: the other is final
      and it is not, or both are as final and it came later. */
  predicate Follows(q: Queue, id: int, other: int)
    requires id in q.rows && other in q.rows
  {
    var r, o := q.rows[id].info, q.rows[other].info;
    (r.pending && !o.pending) || (r.pending == o.pending && id > other)
  }

  function Paired(q: Queue, id: int, other: int): Queue
    requires id in q.rows && other in q.rows
  {
    WithFound(WithFound(q, id, Match(AsTransfer, None, None, Some(other))), other, Match(AsTransfer, None, None, Some(id)))
  }

  function Unmatched(q: Queue, ss: Sources, id: int, look: Look): Queue
    requires id in q.rows
  {
    var on := q.rows[id].info.date;
    match FirstRow(q, x => TransferPartner(q, ss, id, x), on)
    case Some(x) => Paired(q, id, x)
    case None =>
      match FirstRow(q, x => ExchangePartner(q, ss, id, x), on)
      case Some(x) => Paired(q, id, x)
      case None => WithFound(q, id, Match(AsNew, look.rule, None, None))
  }

  function TransactionMatched(q: Queue, ss: Sources, b: Book, id: int, look: Look): Queue
    requires id in q.rows && AccountOf(ss, q.rows[id]).Some?
  {
    match Duplicated(q, ss, b, id)
    case Some(t) => WithFound(q, id, Match(AsDuplicate, None, Some(t), None))
    case None =>
      match Estimated(q, ss, b, id, look)
      case Some(t) => WithFound(q, id, Match(AsClears, None, Some(t), None))
      case None =>
        match FirstRow(q, x => DuplicateRow(q, ss, id, x), q.rows[id].info.date)
        case Some(x) =>
          if Follows(q, id, x) then WithFound(q, id, Match(AsDuplicate, None, None, Some(x)))
          else Unmatched(WithFound(q, x, Match(AsDuplicate, None, None, Some(id))), ss, id, look)
        case None => Unmatched(q, ss, id, look)
  }

  // ----- proposeTrade -----

  predicate TradeFollows(q: Queue, id: int, other: int)
    requires id in q.rows && other in q.rows
  {
    var r, o := q.rows[id].info, q.rows[other].info;
    (r.cash.None? && o.cash.Some?) || (r.cash.Some? == o.cash.Some? && id > other)
  }

  function TradeDuplicated(q: Queue, b: Book, id: int, look: Look): Option<int>
    requires id in q.rows
  {
    var i := q.rows[id].info;
    match look.security
    case None => None
    case Some(account) =>
      FirstTxn(b, (t: Txn) => Posts(t, account, i.units) && Within(t.date, i.date, DUPLICATE_WINDOW, DUPLICATE_WINDOW) &&
                              !ClaimedByTrade(q, id, t.id), i.date)
  }

  function TradeMatched(q: Queue, ss: Sources, b: Book, id: int, look: Look): Queue
    requires id in q.rows
  {
    match TradeDuplicated(q, b, id, look)
    case Some(t) => WithFound(q, id, Match(AsDuplicate, None, Some(t), None))
    case None =>
      match FirstRow(q, x => TradeRowAlike(q, ss, id, x), q.rows[id].info.date)
      case Some(x) =>
        if TradeFollows(q, id, x) then WithFound(q, id, Match(AsDuplicate, None, None, Some(x)))
        else WithFound(WithFound(q, x, Match(AsDuplicate, None, None, Some(id))), id, Match(AsNew, None, None, None))
      case None => WithFound(q, id, Match(AsNew, None, None, None))
  }

  // ----- proposeInvoice -----

  function WithCategories(items: seq<Item>, categories: seq<Option<int>>): (r: seq<Item>)
    ensures |r| == |items|
    ensures forall i :: 0 <= i < |items| ==>
      r[i] == Item(items[i].amount, if i < |categories| then categories[i] else None)
  {
    seq(|items|, i requires 0 <= i < |items| => Item(items[i].amount, if i < |categories| then categories[i] else None))
  }

  function ByTxn(p: Proposal, t: int): Match {
    Match(p, None, Some(t), None)
  }

  function ByRow(p: Proposal, x: int): Match {
    Match(p, None, None, Some(x))
  }

  function OrElse(found: Option<Match>, other: Option<Match>): Option<Match> {
    if found.Some? then found else other
  }

  function AsTxn(p: Proposal, t: Option<int>): Option<Match> {
    if t.Some? then Some(ByTxn(p, t.value)) else None
  }

  function AsRow(p: Proposal, x: Option<int>): Option<Match> {
    if x.Some? then Some(ByRow(p, x.value)) else None
  }

  /** First the number: a transaction, or a waiting invoice, that carries it. */
  function ByNumber(q: Queue, ss: Sources, id: int, look: Look): Option<Match>
    requires id in q.rows
  {
    if q.rows[id].info.reference.None? then None else
      OrElse(AsTxn(AsSameInvoice, look.numberedTxn),
             AsRow(AsSameInvoice, LowestRow(q, x => SameNumber(q, ss, id, x) && x in look.numbered, q.next)))
  }

  /** Without an amount only the seller is left to go by. */
  function ByName(q: Queue, b: Book, id: int, look: Look): Option<Match>
    requires id in q.rows
  {
    var on := q.rows[id].info.date;
    OrElse(AsTxn(AsEnrich, FirstTxn(b, (t: Txn) => PaysOut(b, t) && PaymentWindow(q, id, t.date) && t.id in look.named, on)),
           AsRow(AsEnrich, FirstRow(q, x => PaymentOut(q, id, x) && x in look.namedRows, on)))
  }

  /** A transaction that pays the invoice's amount and has no items yet. */
  predicate PaidByTxn(q: Queue, b: Book, id: int, look: Look, t: Txn) {
    PaymentWindow(q, id, t.date) && Pays(b, t, q.rows[id].info.currency, q.rows[id].info.amount) &&
    t.id !in look.itemised && !WantedTxn(q, id, t.id)
  }

  /** What paid for it, to the amount: booked, or waiting. */
  function ByAmount(q: Queue, b: Book, id: int, look: Look): Option<Match>
    requires id in q.rows
  {
    var on := q.rows[id].info.date;
    OrElse(AsTxn(AsEnrich, FirstNamedTxn(b, (t: Txn) => PaidByTxn(q, b, id, look, t), look.named, on)),
           AsRow(AsEnrich, FirstNamedRow(q, x => PaidByRow(q, id, x), look.namedRows, on)))
  }

  /** What paid for it in another currency, near the day's rate. */
  function ByRate(q: Queue, id: int, look: Look): Option<Match>
    requires id in q.rows
  {
    OrElse(AsTxn(AsEnrich, look.foreign),
           AsRow(AsEnrich, FirstRow(q, x => ForeignPayment(q, id, x) && x in look.foreignRows, q.rows[id].info.date)))
  }

  /** Last, an invoice of another connector that has the purchase already. */
  function ByPurchase(q: Queue, ss: Sources, b: Book, id: int, look: Look): Option<Match>
    requires id in q.rows
  {
    var i := q.rows[id].info;
    OrElse(
      AsTxn(AsSameInvoice, FirstTxn(b, (t: Txn) => Pays(b, t, i.currency, i.amount) && PaymentWindow(q, id, t.date) &&
                                                   t.id in look.otherItems, i.date)),
      AsRow(AsSameInvoice, FirstRow(q, x => SamePurchase(q, ss, id, x), i.date)))
  }

  function InvoiceFound(q: Queue, ss: Sources, b: Book, id: int, look: Look): Match
    requires id in q.rows
  {
    var numbered := ByNumber(q, ss, id, look);
    if numbered.Some? then numbered.value
    else if q.rows[id].info.amount == 0.0 then
      var named := ByName(q, b, id, look);
      if named.Some? then named.value else Match(AsWaiting, None, None, None)
    else
      var found := OrElse(ByAmount(q, b, id, look), OrElse(ByRate(q, id, look), ByPurchase(q, ss, b, id, look)));
      if found.Some? then found.value
      else Match(if look.early then AsWaiting else AsNew, look.rule, None, None)
  }

  function InvoiceMatched(q: Queue, ss: Sources, b: Book, id: int, look: Look): Queue
    requires id in q.rows
  {
    var q1 := WithItems(q, id, WithCategories(q.rows[id].items, look.categories));
    WithFound(q1, id, InvoiceFound(q1, ss, b, id, look))
  }

  // ----- the dispatch -----

  function Matched(q: Queue, ss: Sources, b: Book, id: int, look: Look): Queue
    requires id in q.rows
  {
    var r := q.rows[id];
    if !r.status.IsPending? then q
    else if r.info.kind.InvoiceRow? then InvoiceMatched(q, ss, b, id, look)
    else if SourceOf(ss, r).ignored then Decided(q, id, IsIgnored, None)
    else if AccountOf(ss, r).None? then q
    else match r.info.kind
      case TradeRow => TradeMatched(q, ss, b, id, look)
      case TransactionRow => TransactionMatched(q, ss, b, id, look)
      case _ => Decided(q, id, IsAccepted, None)
  }

  // ----- what matching may write -----

  /** Only found and items change, of the row matched; another waiting row,
      linked to none or to it, may be pointed at it; and every new link is to a
      row still waiting. */
  predicate Relinked(q: Queue, q1: Queue, id: int) {
    q1.next == q.next && q1.rows.Keys == q.rows.Keys && forall x :: x in q.rows ==> RowRelinked(q, q1, id, x)
  }

  predicate RowRelinked(q: Queue, q1: Queue, id: int, x: int) {
    x in q.rows && x in q1.rows &&
    var r, r1 := q.rows[x], q1.rows[x];
    r1.info == r.info && r1.status == r.status && r1.txn == r.txn && (x != id ==> r1.items == r.items) &&
    (!r.status.IsPending? ==> r1 == r) &&
    (x != id && r1 != r ==> r1.found.row == Some(id) && r1.found.txn.None? && !r.info.kind.InvoiceRow? && Free(q, id, x)) &&
    (r1.found.row.Some? && r1.found.row != r.found.row ==> Waiting(q, r1.found.row.value))
  }

  /** A row just matched is linked to a row still waiting, if to any. */
  predicate Fresh(q: Queue, q1: Queue, id: int) {
    id in q1.rows && (q1.rows[id].found.row.Some? ==> Waiting(q, q1.rows[id].found.row.value))
  }

  lemma UnmatchedWrites(q0: Queue, q: Queue, ss: Sources, id: int, look: Look)
    requires Waiting(q0, id) && Waiting(q, id) && Reaches(q0, q) && Relinked(q0, q, id) && q.rows[id] == q0.rows[id]
    requires q.rows[id].info.kind.TransactionRow?
    ensures var q1 := Unmatched(q, ss, id, look); Reaches(q0, q1) && Relinked(q0, q1, id) && Fresh(q0, q1, id)
  {
    hide Reaches, FirstRow, ExchangePartner, TransferPartner;
    var on := q.rows[id].info.date;
    var x := FirstRow(q, x => TransferPartner(q, ss, id, x), on);
    var y := FirstRow(q, x => ExchangePartner(q, ss, id, x), on);
    if x.Some? {
      FoundPartner(q, ss, id, on);
      PairedWrites(q0, q, id, x.value);
    } else if y.Some? {
      FoundExchange(q, ss, id, on);
      PairedWrites(q0, q, id, y.value);
    } else {
      ReachesNext(q0, q, Propose(id, Match(AsNew, look.rule, None, None)));
    }
  }

  lemma FoundPartner(q: Queue, ss: Sources, id: int, on: int)
    ensures var x := FirstRow(q, x => TransferPartner(q, ss, id, x), on);
      x.Some? ==> Waiting(q, x.value) && x.value != id && q.rows[x.value].info.kind.TransactionRow? && Free(q, id, x.value)
  {
  }

  lemma FoundExchange(q: Queue, ss: Sources, id: int, on: int)
    ensures var x := FirstRow(q, x => ExchangePartner(q, ss, id, x), on);
      x.Some? ==> Waiting(q, x.value) && x.value != id && q.rows[x.value].info.kind.TransactionRow? && Free(q, id, x.value)
  {
  }

  lemma PairedWrites(q0: Queue, q: Queue, id: int, x: int)
    requires Waiting(q0, id) && Waiting(q, id) && Waiting(q, x) && x != id && Reaches(q0, q) && Relinked(q0, q, id)
    requires q.rows[id] == q0.rows[id] && Free(q, id, x)
    requires q.rows[id].info.kind.TransactionRow? && q.rows[x].info.kind.TransactionRow?
    ensures var q1 := Paired(q, id, x); Reaches(q0, q1) && Relinked(q0, q1, id) && Fresh(q0, q1, id)
  {
    hide Reaches;
    var m, n := Match(AsTransfer, None, None, Some(x)), Match(AsTransfer, None, None, Some(id));
    ReachesNext(q0, q, Propose(id, m));
    ReachesNext(q0, WithFound(q, id, m), Propose(x, n));
  }

  lemma TransactionWrites(q: Queue, ss: Sources, b: Book, id: int, look: Look)
    requires Waiting(q, id) && AccountOf(ss, q.rows[id]).Some? && q.rows[id].info.kind.TransactionRow?
    ensures var q1 := TransactionMatched(q, ss, b, id, look); Reaches(q, q1) && Relinked(q, q1, id) && Fresh(q, q1, id)
  {
    hide Reaches, FirstRow, Unmatched, Duplicated, Estimated, DuplicateRow;
    ReachesSelf(q);
    var d, e := Duplicated(q, ss, b, id), Estimated(q, ss, b, id, look);
    var x := FirstRow(q, x => DuplicateRow(q, ss, id, x), q.rows[id].info.date);
    if d.Some? {
      ReachesNext(q, q, Propose(id, Match(AsDuplicate, None, d, None)));
    } else if e.Some? {
      ReachesNext(q, q, Propose(id, Match(AsClears, None, e, None)));
    } else if x.None? {
      UnmatchedWrites(q, q, ss, id, look);
    } else {
      FoundDuplicate(q, ss, id, q.rows[id].info.date);
      if Follows(q, id, x.value) {
        ReachesNext(q, q, Propose(id, Match(AsDuplicate, None, None, x)));
      } else {
        ReachesNext(q, q, Propose(x.value, Match(AsDuplicate, None, None, Some(id))));
        UnmatchedWrites(q, WithFound(q, x.value, Match(AsDuplicate, None, None, Some(id))), ss, id, look);
      }
    }
  }

  lemma FoundDuplicate(q: Queue, ss: Sources, id: int, on: int)
    ensures var x := FirstRow(q, x => DuplicateRow(q, ss, id, x), on);
      x.Some? ==> Waiting(q, x.value) && x.value != id && q.rows[x.value].info.kind.TransactionRow? && Free(q, id, x.value)
  {
  }

  lemma TradeWrites(q: Queue, ss: Sources, b: Book, id: int, look: Look)
    requires Waiting(q, id) && q.rows[id].info.kind.TradeRow?
    ensures var q1 := TradeMatched(q, ss, b, id, look); Reaches(q, q1) && Relinked(q, q1, id) && Fresh(q, q1, id)
  {
    hide Reaches, FirstRow, TradeDuplicated, TradeRowAlike;
    ReachesSelf(q);
    var d := TradeDuplicated(q, b, id, look);
    var x := FirstRow(q, x => TradeRowAlike(q, ss, id, x), q.rows[id].info.date);
    var plain := Match(AsNew, None, None, None);
    if d.Some? {
      ReachesNext(q, q, Propose(id, Match(AsDuplicate, None, d, None)));
    } else if x.None? {
      ReachesNext(q, q, Propose(id, plain));
    } else {
      FoundTrade(q, ss, id, q.rows[id].info.date);
      if TradeFollows(q, id, x.value) {
        ReachesNext(q, q, Propose(id, Match(AsDuplicate, None, None, x)));
      } else {
        var m := Match(AsDuplicate, None, None, Some(id));
        ReachesNext(q, q, Propose(x.value, m));
        ReachesNext(q, WithFound(q, x.value, m), Propose(id, plain));
      }
    }
  }

  lemma FoundTrade(q: Queue, ss: Sources, id: int, on: int)
    ensures var x := FirstRow(q, x => TradeRowAlike(q, ss, id, x), on);
      x.Some? ==> Waiting(q, x.value) && x.value != id && q.rows[x.value].info.kind.TradeRow? && Free(q, id, x.value)
  {
  }

  /** Whatever an invoice is matched with comes before it. */
  predicate FitsInvoice(q: Queue, id: int, m: Match)
    requires id in q.rows
  {
    m.row.Some? ==>
      Waiting(q, m.row.value) && m.txn.None? && OfKind(InvoiceRow, m.proposal) &&
      var o := q.rows[m.row.value].info;
      o.kind.TransactionRow? ||
      (o.kind.InvoiceRow? && o.amount != 0.0 && (m.row.value < id || q.rows[id].info.amount == 0.0))
  }

  lemma NumberFits(q: Queue, ss: Sources, id: int, look: Look)
    requires id in q.rows && ByNumber(q, ss, id, look).Some?
    ensures FitsInvoice(q, id, ByNumber(q, ss, id, look).value)
  {
  }

  lemma NameFits(q: Queue, b: Book, id: int, look: Look)
    requires id in q.rows && ByName(q, b, id, look).Some?
    ensures FitsInvoice(q, id, ByName(q, b, id, look).value)
  {
    hide FirstTxn;
  }

  lemma AmountFits(q: Queue, b: Book, id: int, look: Look)
    requires id in q.rows && ByAmount(q, b, id, look).Some?
    ensures FitsInvoice(q, id, ByAmount(q, b, id, look).value)
  {
    hide FirstNamedTxn, FirstTxn;
  }

  lemma RateFits(q: Queue, id: int, look: Look)
    requires id in q.rows && ByRate(q, id, look).Some?
    ensures FitsInvoice(q, id, ByRate(q, id, look).value)
  {
  }

  lemma PurchaseFits(q: Queue, ss: Sources, b: Book, id: int, look: Look)
    requires id in q.rows && q.rows[id].info.amount != 0.0 && ByPurchase(q, ss, b, id, look).Some?
    ensures FitsInvoice(q, id, ByPurchase(q, ss, b, id, look).value)
  {
    hide FirstTxn;
  }

  lemma InvoiceFits(q: Queue, ss: Sources, b: Book, id: int, look: Look)
    requires id in q.rows
    ensures FitsInvoice(q, id, InvoiceFound(q, ss, b, id, look))
  {
    hide ByNumber, ByName, ByAmount, ByRate, ByPurchase, FitsInvoice;
    if ByNumber(q, ss, id, look).Some? {
      NumberFits(q, ss, id, look);
    } else if q.rows[id].info.amount == 0.0 {
      if ByName(q, b, id, look).Some? {
        NameFits(q, b, id, look);
      } else {
        NothingFits(q, id, Match(AsWaiting, None, None, None));
      }
    } else if ByAmount(q, b, id, look).Some? {
      AmountFits(q, b, id, look);
    } else if ByRate(q, id, look).Some? {
      RateFits(q, id, look);
    } else if ByPurchase(q, ss, b, id, look).Some? {
      PurchaseFits(q, ss, b, id, look);
    } else {
      NothingFits(q, id, Match(if look.early then AsWaiting else AsNew, look.rule, None, None));
    }
  }

  lemma NothingFits(q: Queue, id: int, m: Match)
    requires id in q.rows && m.row.None?
    ensures FitsInvoice(q, id, m)
  {
  }

  lemma InvoiceWrites(q: Queue, ss: Sources, b: Book, id: int, look: Look)
    requires Waiting(q, id) && q.rows[id].info.kind.InvoiceRow?
    ensures var q1 := InvoiceMatched(q, ss, b, id, look); Reaches(q, q1) && Relinked(q, q1, id) && Fresh(q, q1, id)
  {
    hide Reaches, InvoiceFound;
    ReachesSelf(q);
    var items := WithCategories(q.rows[id].items, look.categories);
    var q1 := WithItems(q, id, items);
    ReachesNext(q, q, Itemise(id, items));
    InvoiceFits(q1, ss, b, id, look);
    ReachesNext(q, q1, Propose(id, InvoiceFound(q1, ss, b, id, look)));
  }

  /** The rows propose leaves alone: their source is not mapped yet. */
  predicate Unmapped(q: Queue, ss: Sources, id: int) {
    id in q.rows && !q.rows[id].info.kind.InvoiceRow? && AccountOf(ss, q.rows[id]).None?
  }

  predicate SetAside(q: Queue, ss: Sources, id: int, q1: Queue) {
    Waiting(q, id) && !q.rows[id].info.kind.InvoiceRow? &&
    ((q1 == Decided(q, id, IsIgnored, None) && SourceOf(ss, q.rows[id]).ignored) ||
     (q1 == Decided(q, id, IsAccepted, None) && !Booked(q.rows[id].info.kind)))
  }

  /** Whatever the matcher finds, what it writes are legal proposals: a row is
      only ever made to wait for a row that comes before it. */
  lemma MatchedWrites(q: Queue, ss: Sources, b: Book, id: int, look: Look)
    requires id in q.rows
    ensures var q1 := Matched(q, ss, b, id, look);
      Reaches(q, q1) &&
      (SetAside(q, ss, id, q1) ||
       (Relinked(q, q1, id) && (Waiting(q, id) && !Unmapped(q, ss, id) ==> Fresh(q, q1, id))))
  {
    hide Reaches, TransactionMatched, TradeMatched, InvoiceMatched;
    var r := q.rows[id];
    ReachesSelf(q);
    if !r.status.IsPending? {
    } else if r.info.kind.InvoiceRow? {
      InvoiceWrites(q, ss, b, id, look);
    } else if SourceOf(ss, r).ignored {
      ReachesNext(q, q, Decide(id, IsIgnored, None));
    } else if AccountOf(ss, r).Some? {
      match r.info.kind {
        case TradeRow => TradeWrites(q, ss, b, id, look);
        case TransactionRow => TransactionWrites(q, ss, b, id, look);
        case _ => ReachesNext(q, q, Decide(id, IsAccepted, None));
      }
    }
  }

  // ----- what the order of the searches promises -----

  ghost predicate InBooks(q: Queue, ss: Sources, b: Book, id: int, look: Look) {
    exists t :: t in b.txns && (AlreadyIn(q, ss, id, t) || EstimateOf(q, ss, id, look, t))
  }

  predicate MatchedWith(q: Queue, ss: Sources, id: int, look: Look, p: Proposal, t: Txn) {
    if p.AsDuplicate? then AlreadyIn(q, ss, id, t) else p.AsClears? && EstimateOf(q, ss, id, look, t)
  }

  /** A transaction row is matched with a transaction exactly when the books
      have it or an estimate of it, and then with one of those. */
  lemma BooksFirst(q: Queue, ss: Sources, b: Book, id: int, look: Look)
    requires Waiting(q, id) && AccountOf(ss, q.rows[id]).Some?
    ensures var m := TransactionMatched(q, ss, b, id, look).rows[id].found;
      (m.txn.Some? <==> InBooks(q, ss, b, id, look)) &&
      (m.txn.Some? ==> (exists t :: t in b.txns && t.id == m.txn.value && MatchedWith(q, ss, id, look, m.proposal, t)))
  {
    hide FirstRow, AlreadyIn, EstimateOf, DuplicateRow, TransferPartner, ExchangePartner;
  }

  /** o is as near the day of id as x, and before it where they are as near. */
  predicate AsNear(q: Queue, id: int, o: int, x: int) {
    id in q.rows && o in q.rows && x in q.rows &&
    var on := q.rows[id].info.date;
    Days(q.rows[o].info.date, on) < Days(q.rows[x].info.date, on) ||
    (Days(q.rows[o].info.date, on) == Days(q.rows[x].info.date, on) && o <= x)
  }

  /** Where rows alike wait, exactly one of the row matched and the nearest of
      them waits for the other: none alike (x) is nearer. */
  lemma AlikeBooksOnce(q: Queue, ss: Sources, b: Book, id: int, look: Look, x: int)
    requires Numbered(q) && WaitsDown(q) && Waiting(q, id) && q.rows[id].info.kind.TransactionRow?
    requires AccountOf(ss, q.rows[id]).Some? && !InBooks(q, ss, b, id, look) && DuplicateRow(q, ss, id, x)
    ensures var q1 := TransactionMatched(q, ss, b, id, look);
      exists o :: DuplicateRow(q, ss, id, o) && AsNear(q, id, o, x) && (WaitsOnly(q1, id, o) || WaitsOnly(q1, o, id))
  {
    hide AlreadyIn, EstimateOf, TransferPartner, ExchangePartner, Unmatched;
    var o := FirstRow(q, x => DuplicateRow(q, ss, id, x), q.rows[id].info.date).value;
    assert DuplicateRow(q, ss, id, o);
    BooksFirst(q, ss, b, id, look);
    if Follows(q, id, o) {
      assert WaitsFor(q, o) == Some(id) ==> Before(id, q.rows[id].info, o, q.rows[o].info);
    } else {
      UnmatchedKeeps(WithFound(q, o, Match(AsDuplicate, None, None, Some(id))), ss, id, look, o);
    }
  }

  /** first waits for second, which does not wait for it. */
  predicate WaitsOnly(q: Queue, first: int, second: int) {
    WaitsFor(q, first) == Some(second) && WaitsFor(q, second) != Some(first)
  }

  predicate HasCash(q: Queue, x: int) {
    x in q.rows && q.rows[x].info.cash.Some?
  }

  /** Where trades alike wait, exactly one of the trade matched and the nearest
      of them waits for the other, and not the one that alone knows its cash. */
  lemma AlikeTradesBookOnce(q: Queue, ss: Sources, b: Book, id: int, look: Look, x: int)
    requires Numbered(q) && WaitsDown(q) && Waiting(q, id) && q.rows[id].info.kind.TradeRow?
    requires TradeDuplicated(q, b, id, look).None? && TradeRowAlike(q, ss, id, x)
    ensures var q1 := TradeMatched(q, ss, b, id, look);
      exists o :: TradeRowAlike(q, ss, id, o) && AsNear(q, id, o, x) &&
        ((WaitsOnly(q1, id, o) && (HasCash(q, id) ==> HasCash(q, o))) ||
         (WaitsOnly(q1, o, id) && (HasCash(q, o) ==> HasCash(q, id))))
  {
    hide TradeDuplicated;
    var o := FirstRow(q, x => TradeRowAlike(q, ss, id, x), q.rows[id].info.date).value;
    assert TradeRowAlike(q, ss, id, o);
    if TradeFollows(q, id, o) {
      assert WaitsFor(q, o) == Some(id) ==> Before(id, q.rows[id].info, o, q.rows[o].info);
    }
  }

  /** Pairing a row leaves a duplicate of it alone: that is on its own account. */
  lemma UnmatchedKeeps(q: Queue, ss: Sources, id: int, look: Look, o: int)
    requires Waiting(q, id) && o in q.rows && o != id && AccountOf(ss, q.rows[o]) == AccountOf(ss, q.rows[id])
    ensures var q1 := Unmatched(q, ss, id, look); o in q1.rows && q1.rows[o] == q.rows[o] && WaitsFor(q1, id).None?
  {
  }

  predicate Partner(q: Queue, ss: Sources, id: int, x: int) {
    TransferPartner(q, ss, id, x) || ExchangePartner(q, ss, id, x)
  }

  predicate PairedWith(q: Queue, id: int, o: int) {
    id in q.rows && o in q.rows && q.rows[id].found == Match(AsTransfer, None, None, Some(o)) &&
    q.rows[o].found == Match(AsTransfer, None, None, Some(id))
  }

  lemma UnmatchedPairs(q: Queue, ss: Sources, id: int, look: Look, x: int)
    requires Numbered(q) && Waiting(q, id)
    ensures var q1 := Unmatched(q, ss, id, look);
      (q1.rows[id].found.proposal.AsTransfer? ==> (exists o :: Partner(q, ss, id, o) && PairedWith(q1, id, o))) &&
      (q1.rows[id].found.proposal.AsNew? ==> !Partner(q, ss, id, x))
  {
    hide TransferPartner, ExchangePartner;
    FoundPartner(q, ss, id, q.rows[id].info.date);
    FoundExchange(q, ss, id, q.rows[id].info.date);
    var q1 := Unmatched(q, ss, id, look);
    if q1.rows[id].found.proposal.AsTransfer? {
      var o := q1.rows[id].found.row.value;
      assert Partner(q, ss, id, o) && PairedWith(q1, id, o);
    } else {
      PartnerRow(q, ss, id, x);
    }
  }

  lemma PartnerRow(q: Queue, ss: Sources, id: int, x: int)
    ensures Partner(q, ss, id, x) ==> x in q.rows
  {
  }

  /** A row marked as this one's duplicate is on the same account: it is no
      partner, before or after. */
  lemma PartnerStays(q: Queue, ss: Sources, id: int, x: int, d: int)
    requires DuplicateRow(q, ss, id, d)
    ensures Partner(q, ss, id, x) <==> Partner(WithFound(q, d, Match(AsDuplicate, None, None, Some(id))), ss, id, x)
  {
  }

  /** A transfer is proposed for both its sides, each naming the other; and a
      row is proposed as new only when the books do not have it and no other
      side of a transfer waits. */
  lemma TransferOrNew(q: Queue, ss: Sources, b: Book, id: int, look: Look, x: int)
    requires Numbered(q) && Waiting(q, id) && AccountOf(ss, q.rows[id]).Some?
    ensures var q1 := TransactionMatched(q, ss, b, id, look);
      (q1.rows[id].found.proposal.AsTransfer? ==> (exists o :: Partner(q, ss, id, o) && PairedWith(q1, id, o))) &&
      (q1.rows[id].found.proposal.AsNew? ==> !InBooks(q, ss, b, id, look) && !Partner(q, ss, id, x))
  {
    hide InBooks, Duplicated, Estimated, DuplicateRow, Unmatched, Partner;
    BooksFirst(q, ss, b, id, look);
    if Duplicated(q, ss, b, id).None? && Estimated(q, ss, b, id, look).None? {
      var d := FirstRow(q, x => DuplicateRow(q, ss, id, x), q.rows[id].info.date);
      if d.None? {
        UnmatchedPairs(q, ss, id, look, x);
      } else if !Follows(q, id, d.value) {
        FoundDuplicate(q, ss, id, q.rows[id].info.date);
        var q0 := WithFound(q, d.value, Match(AsDuplicate, None, None, Some(id)));
        UnmatchedPairs(q0, ss, id, look, x);
        forall o ensures Partner(q, ss, id, o) <==> Partner(q0, ss, id, o) {
          PartnerStays(q, ss, id, o, d.value);
        }
      }
    }
  }

  /** A cash purchase is proposed only for a stated amount, after the days given
      to a card, when no transaction and no row could have paid the invoice. */
  lemma PurchaseWhenUnpaid(q: Queue, ss: Sources, b: Book, id: int, look: Look)
    requires Numbered(q) && id in q.rows && InvoiceFound(q, ss, b, id, look).proposal.AsNew?
    ensures q.rows[id].info.amount != 0.0 && !look.early
    ensures forall t :: t in b.txns ==> !PaidByTxn(q, b, id, look, t)
    ensures forall x :: !PaidByRow(q, id, x) && !SamePurchase(q, ss, id, x)
  {
    hide PaidByTxn, Pays, PaysOut, ForeignPayment, SameNumber;
    assert forall x :: x in q.rows ==> 0 < x < q.next;
  }
}
