// Five runs of the service, from an empty queue, that leave a row matched with
// a row already decided: behind a chain of duplicates, as a side of a transfer,
// behind such a side, behind a trade that was entered by hand, and behind a row
// set aside.
module Stranded {
  import opened Decimals
  import opened Core
  import opened Lines
  import opened Journal
  import opened Accepted
  import opened ImportQueue
  import opened Matching
  import opened Review

  // ----- the books and the sources -----

  const SHARES := "XTAI:2330"

  function TaiwanWorld(): World {
    World(map["TWD" := Commodity(Currency, 2), SHARES := Commodity(Security("TWD", false), 4)], [])
  }

  function BankAccount(): Account {
    Account(None, Asset, Some("TWD"), true, true, Operating, false, false)
  }

  /** Two bank accounts, a category, and a broker's account with the shares
      under it; nothing booked yet. */
  function TaiwanBook(): Book {
    Book("TWD", None,
         map[1 := BankAccount(), 2 := BankAccount(), 3 := Account(None, Expense, None, true, false, Operating, false, false),
             4 := Account(None, Asset, Some("TWD"), true, false, Investing, true, false),
             5 := Account(Some(4), Asset, Some(SHARES), true, false, Investing, false, false)],
         map[], [], 1, 6)
  }

  lemma TaiwanSound()
    ensures Sound(TaiwanWorld(), TaiwanBook())
  {
  }

  /** Two connectors bring account 1, a third account 2 or account 1. */
  function ThreeSources(third: int): Sources {
    map[1 := Source("alerts", Some(1), None, false), 2 := Source("texts", Some(1), None, false),
        3 := Source("bank", Some(third), None, false)]
  }

  function Charge(source: int, extId: string, date: int, amount: real, pending: bool): Sent {
    Sent(Info(TransactionRow, source, extId, date, amount, "TWD", pending, "", 0.0, None, None, None), [])
  }

  function AsSent(s: Sent): Row {
    Row(s.info, s.items, NOTHING_FOUND, IsPending, None)
  }

  /** No text, rule, item or estimate has a part in it; account 5 has the shares. */
  function Quiet(): Look {
    Look({}, {}, {}, None, {}, {}, {}, None, {}, Some(5), None, [], false)
  }

  function AllQuiet(): int -> Look {
    (x: int) => Quiet()
  }

  function Three(a: Row, b: Row, c: Row): Queue {
    Queue(map[1 := a, 2 := b, 3 := c], 4)
  }

  function Two(a: Row, b: Row): Queue {
    Queue(map[1 := a, 2 := b], 3)
  }

  function One(a: Row): Queue {
    Queue(map[1 := a], 2)
  }

  function WaitingFor(r: Row, x: int): Row {
    r.(found := Match(AsDuplicate, None, None, Some(x)))
  }

  // ----- the runs -----

  /** One row matched again, as mapping its source once more does. */
  function Again(q: Queue, ss: Sources, b: Book, id: int): Queue {
    if id in q.rows then Matched(q, ss, b, id, Quiet()) else q
  }

  /** A batch is imported. */
  function Arrives(q: Queue, ss: Sources, b: Book, batch: seq<Sent>): Queue {
    Imported(q, ss, b, batch, AllQuiet(), AllQuiet())
  }

  /** x is matched with other, which is decided, and Accept refuses x. */
  predicate LeftFor(q: Queue, ss: Sources, x: int, other: int) {
    Stuck(q, x) && q.rows[x].found.row == Some(other) && other in q.rows && HeldUp(q, ss, x)
  }

  /** Accepting id succeeds, and leaves x matched with other. */
  predicate AcceptLeaves(w: World, b: Book, q: Queue, ss: Sources, id: int, category: Option<int>, x: int, other: int) {
    Refusal(q, ss, id, TransactionRow).None? && !WaitsForRow(q.rows[id], category) && !MatchGone(q.rows[id], category) &&
    var k := BookedRow(w, b, q, ss, id, category);
    k.Ok? && LeftFor(k.value.queue, ss, x, other)
  }

  // ----- one step of the matcher -----

  /** Nothing is booked, and no row matches: the row is new. */
  lemma MatchesNothing(q: Queue, ss: Sources, b: Book, id: int)
    requires Waiting(q, id) && q.rows[id].info.kind.TransactionRow? && AccountOf(ss, q.rows[id]).Some?
    requires !SourceOf(ss, q.rows[id]).ignored && b.txns == []
    requires forall x :: !DuplicateRow(q, ss, id, x) && !TransferPartner(q, ss, id, x) && !ExchangePartner(q, ss, id, x)
    ensures Matched(q, ss, b, id, Quiet()) == WithFound(q, id, NOTHING_FOUND)
  {
    hide DuplicateRow, TransferPartner, ExchangePartner;
  }

  /** Of the rows alike, x is the nearest, and the row waits for it. */
  lemma MatchesDuplicate(q: Queue, ss: Sources, b: Book, id: int, x: int)
    requires Numbered(q) && Waiting(q, id) && q.rows[id].info.kind.TransactionRow? && AccountOf(ss, q.rows[id]).Some?
    requires !SourceOf(ss, q.rows[id]).ignored && b.txns == []
    requires DuplicateRow(q, ss, id, x) && Follows(q, id, x)
    requires forall y :: DuplicateRow(q, ss, id, y) && y != x ==>
      Days(q.rows[x].info.date, q.rows[id].info.date) < Days(q.rows[y].info.date, q.rows[id].info.date)
    ensures Matched(q, ss, b, id, Quiet()) == WithFound(q, id, Match(AsDuplicate, None, None, Some(x)))
  {
    assert 0 < x < q.next && x in q.rows;
    hide DuplicateRow, TransferPartner, ExchangePartner, Follows;
    var on := q.rows[id].info.date;
    assert FirstRow(q, y => DuplicateRow(q, ss, id, y), on) == Some(x);
  }

  predicate NoInvoices(q: Queue) {
    forall x :: x in q.rows ==> !q.rows[x].info.kind.InvoiceRow?
  }

  lemma InvoicesStay(q: Queue, ss: Sources, b: Book, looks: int -> Look)
    requires NoInvoices(q)
    ensures InvoicesRematched(q, ss, b, looks) == q
  {
    hide Listed, Matched;
    if WaitingInvoices(q) != [] {
      var x := FirstOf(WaitingInvoices(q));
      assert false;
    }
  }

  lemma FirstOf(ids: seq<int>) returns (x: int)
    requires ids != []
    ensures x in ids
  {
    x := ids[0];
  }

  /** A batch of one row that is new, where no invoice waits: it is staged and
      matched. */
  lemma OneArrives(q: Queue, ss: Sources, b: Book, s: Sent)
    requires Numbered(q) && NewId(q, s.info.extId) && NoInvoices(q) && !s.info.kind.InvoiceRow?
    ensures Arrives(q, ss, b, [s]) == Again(Inserted(q, s), ss, b, q.next)
  {
    hide Matched, Reaches, InvoicesRematched;
    assert [s][..0] == [];
    assert Staged(q, [s]) == Inserted(q, s) && StagedCount(q, [s]) == 1;
    var q1 := Inserted(q, s);
    var looks := AllQuiet();
    assert Numbers(q.next, 1) == [q.next] && [q.next][..0] == [];
    assert MatchedEach(q1, ss, b, [q.next], looks) == Matched(q1, ss, b, q.next, Quiet());
    MatchedEachWrites(q1, ss, b, [q.next], looks);
    var q2 := Matched(q1, ss, b, q.next, Quiet());
    assert forall x :: x in q1.rows ==> RowRematched(q1, q2, x);
    InvoicesStay(q2, ss, b, looks);
  }

  predicate NoInvoice(s: Sent) {
    !s.info.kind.InvoiceRow?
  }

  lemma FirstArrives(ss: Sources, b: Book, s: Sent)
    requires NoInvoice(s)
    ensures Arrives(Empty(), ss, b, [s]) == Matched(One(AsSent(s)), ss, b, 1, Quiet())
  {
    hide Arrives, Matched;
    assert NewId(Empty(), s.info.extId) && Inserted(Empty(), s) == One(AsSent(s));
    OneArrives(Empty(), ss, b, s);
  }

  lemma SecondArrives(a: Row, ss: Sources, b: Book, s: Sent)
    requires NoInvoice(s) && !a.info.kind.InvoiceRow? && a.info.extId != s.info.extId
    ensures Arrives(One(a), ss, b, [s]) == Matched(Two(a, AsSent(s)), ss, b, 2, Quiet())
  {
    hide Arrives, Matched;
    assert NewId(One(a), s.info.extId) && Inserted(One(a), s) == Two(a, AsSent(s));
    OneArrives(One(a), ss, b, s);
  }

  lemma ThirdArrives(a: Row, c: Row, ss: Sources, b: Book, s: Sent)
    requires NoInvoice(s) && !a.info.kind.InvoiceRow? && !c.info.kind.InvoiceRow?
    requires a.info.extId != s.info.extId && c.info.extId != s.info.extId
    ensures Arrives(Two(a, c), ss, b, [s]) == Matched(Three(a, c, AsSent(s)), ss, b, 3, Quiet())
  {
    hide Arrives, Matched;
    assert NewId(Two(a, c), s.info.extId) && Inserted(Two(a, c), s) == Three(a, c, AsSent(s));
    OneArrives(Two(a, c), ss, b, s);
  }

  // ----- a hundred on an account of the book is booked -----

  lemma Hundreds()
    ensures HasPrecision(100.0, 2) && HasPrecision(-100.0, 2)
  {
    assert Pow10(2) == 100.0;
    MultipleFrom(100.0, 10000, 100.0);
    MultipleFrom(-100.0, -10000, 100.0);
    RoundIdentity(100.0, 2);
    RoundIdentity(-100.0, 2);
  }

  /** A line of a hundred resolves on each of the accounts. */
  lemma HundredResolves(c: Context, account: int, amount: real)
    requires c.w == TaiwanWorld() && c.b.base == "TWD" && c.b.accounts == TaiwanBook().accounts
    requires account in {1, 2, 3} && (amount == 100.0 || amount == -100.0)
    ensures ResolveLine(c, Plain(account, "TWD", amount)).Ok?
  {
    hide HasPrecision, CostBasisOf, Converted;
    Hundreds();
  }

  lemma HundredBooks(account: int, other: int, amount: real)
    requires account in {1, 2, 3} && other in {1, 2, 3} && (amount == 100.0 || amount == -100.0)
    ensures CreateTx(TaiwanWorld(), TaiwanBook(), 0, NewLines(Side(account, "TWD", amount, 0), other)).Ok?
  {
    hide Prepare, ResolveLine;
    var b := TaiwanBook();
    var c := Context(TaiwanWorld(), WithPostings(Headed(b, 0), |b.txns|, 0, []), 0, b.nextId);
    HundredResolves(c, account, amount);
    HundredResolves(c, other, -amount);
    NewRowExact(c, Side(account, "TWD", amount, 0), other);
  }

  // ----- a chain of duplicates -----

  function EarlyAlert(): Sent {
    Charge(1, "alerts:1", 0, -100.0, true)
  }

  function LateAlert(): Sent {
    Charge(2, "texts:1", 1, -100.0, true)
  }

  function PostedCharge(): Sent {
    Charge(3, "bank:1", 0, -100.0, false)
  }

  lemma FirstAlone(s: Sent, third: int)
    requires s.info.kind.TransactionRow? && s.info.source == 1
    ensures Matched(One(AsSent(s)), ThreeSources(third), TaiwanBook(), 1, Quiet()) == One(AsSent(s))
  {
    var q := One(AsSent(s));
    MatchesNothing(q, ThreeSources(third), TaiwanBook(), 1);
    assert WithFound(q, 1, NOTHING_FOUND).rows == q.rows;
  }

  lemma ChainSecond()
    ensures Matched(Two(AsSent(EarlyAlert()), AsSent(LateAlert())), ThreeSources(1), TaiwanBook(), 2, Quiet()) ==
      Two(AsSent(EarlyAlert()), WaitingFor(AsSent(LateAlert()), 1))
  {
    var q := Two(AsSent(EarlyAlert()), AsSent(LateAlert()));
    assert DuplicateRow(q, ThreeSources(1), 2, 1);
    MatchesDuplicate(q, ThreeSources(1), TaiwanBook(), 2, 1);
    assert WithFound(q, 2, Match(AsDuplicate, None, None, Some(1))).rows ==
      Two(AsSent(EarlyAlert()), WaitingFor(AsSent(LateAlert()), 1)).rows;
  }

  function ChainWaiting(): Queue {
    Three(AsSent(EarlyAlert()), WaitingFor(AsSent(LateAlert()), 1), AsSent(PostedCharge()))
  }

  lemma ChainThird()
    ensures Matched(ChainWaiting(), ThreeSources(1), TaiwanBook(), 3, Quiet()) == ChainWaiting()
  {
    var q := ChainWaiting();
    assert WaitedOn(q, 3, 1) by { assert q.rows[2].found.row == Some(1); }
    MatchesNothing(q, ThreeSources(1), TaiwanBook(), 3);
    assert WithFound(q, 3, NOTHING_FOUND).rows == q.rows;
  }

  lemma ChainAgain()
    ensures Matched(ChainWaiting(), ThreeSources(1), TaiwanBook(), 1, Quiet()) ==
      Three(WaitingFor(AsSent(EarlyAlert()), 3), WaitingFor(AsSent(LateAlert()), 1), AsSent(PostedCharge()))
  {
    var q := ChainWaiting();
    assert DuplicateRow(q, ThreeSources(1), 1, 3);
    MatchesDuplicate(q, ThreeSources(1), TaiwanBook(), 1, 3);
    assert WithFound(q, 1, Match(AsDuplicate, None, None, Some(3))).rows ==
      Three(WaitingFor(AsSent(EarlyAlert()), 3), WaitingFor(AsSent(LateAlert()), 1), AsSent(PostedCharge())).rows;
  }

  /** Two alerts and the posted charge, matched as they come, the first alert
      once more: accepting the charge settles the first alert and leaves the
      second waiting for it. */
  lemma ChainStranded()
    ensures var b, ss := TaiwanBook(), ThreeSources(1);
      var q := Arrives(Arrives(Arrives(Empty(), ss, b, [EarlyAlert()]), ss, b, [LateAlert()]), ss, b, [PostedCharge()]);
      AcceptLeaves(TaiwanWorld(), b, Again(q, ss, b, 1), ss, 3, Some(3), 2, 1)
  {
    hide Matched, Arrives, AcceptLeaves;
    FirstArrives(ThreeSources(1), TaiwanBook(), EarlyAlert());
    FirstAlone(EarlyAlert(), 1);
    SecondArrives(AsSent(EarlyAlert()), ThreeSources(1), TaiwanBook(), LateAlert());
    ChainSecond();
    ThirdArrives(AsSent(EarlyAlert()), WaitingFor(AsSent(LateAlert()), 1), ThreeSources(1), TaiwanBook(), PostedCharge());
    ChainThird();
    ChainAgain();
    ChainAccepted();
  }

  lemma ChainAccepted()
    ensures var q := Three(WaitingFor(AsSent(EarlyAlert()), 3), WaitingFor(AsSent(LateAlert()), 1), AsSent(PostedCharge()));
      AcceptLeaves(TaiwanWorld(), TaiwanBook(), q, ThreeSources(1), 3, Some(3), 2, 1)
  {
    hide CreateTx;
    HundredBooks(1, 3, -100.0);
  }

  // ----- the other side of a transfer -----

  function Deposit(): Sent {
    Charge(1, "alerts:1", 0, 100.0, false)
  }

  function DepositAgain(): Sent {
    Charge(2, "texts:1", 0, 100.0, false)
  }

  function Withdrawal(): Sent {
    Charge(3, "bank:1", 0, -100.0, false)
  }

  lemma TransferSecond()
    ensures Matched(Two(AsSent(Deposit()), AsSent(DepositAgain())), ThreeSources(2), TaiwanBook(), 2, Quiet()) ==
      Two(AsSent(Deposit()), WaitingFor(AsSent(DepositAgain()), 1))
  {
    var q := Two(AsSent(Deposit()), AsSent(DepositAgain()));
    assert DuplicateRow(q, ThreeSources(2), 2, 1);
    MatchesDuplicate(q, ThreeSources(2), TaiwanBook(), 2, 1);
    assert WithFound(q, 2, Match(AsDuplicate, None, None, Some(1))).rows ==
      Two(AsSent(Deposit()), WaitingFor(AsSent(DepositAgain()), 1)).rows;
  }

  function PairedUp(): Queue {
    Three(AsSent(Deposit()).(found := Match(AsTransfer, None, None, Some(3))), WaitingFor(AsSent(DepositAgain()), 1),
          AsSent(Withdrawal()).(found := Match(AsTransfer, None, None, Some(1))))
  }

  lemma TransferFound()
    ensures var q, ss := Three(AsSent(Deposit()), WaitingFor(AsSent(DepositAgain()), 1), AsSent(Withdrawal())), ThreeSources(2);
      TransferPartner(q, ss, 3, 1) &&
      forall x :: !DuplicateRow(q, ss, 3, x) && (TransferPartner(q, ss, 3, x) ==> x == 1)
  {
  }

  lemma TransferThird()
    ensures Matched(Three(AsSent(Deposit()), WaitingFor(AsSent(DepositAgain()), 1), AsSent(Withdrawal())), ThreeSources(2),
                    TaiwanBook(), 3, Quiet()) == PairedUp()
  {
    var q, ss := Three(AsSent(Deposit()), WaitingFor(AsSent(DepositAgain()), 1), AsSent(Withdrawal())), ThreeSources(2);
    TransferFound();
    hide DuplicateRow, TransferPartner, Matched;
    MatchesPartner(q, ss, TaiwanBook(), 3, 1);
    assert Paired(q, 3, 1).rows == PairedUp().rows;
  }

  lemma MatchesPartner(q: Queue, ss: Sources, b: Book, id: int, x: int)
    requires Numbered(q) && Waiting(q, id) && q.rows[id].info.kind.TransactionRow? && AccountOf(ss, q.rows[id]).Some?
    requires !SourceOf(ss, q.rows[id]).ignored && b.txns == []
    requires x in q.rows && TransferPartner(q, ss, id, x)
    requires forall y :: !DuplicateRow(q, ss, id, y) && (TransferPartner(q, ss, id, y) ==> y == x)
    ensures Matched(q, ss, b, id, Quiet()) == Paired(q, id, x)
  {
    assert 0 < x < q.next;
    hide DuplicateRow, TransferPartner, ExchangePartner;
    assert FirstRow(q, y => TransferPartner(q, ss, id, y), q.rows[id].info.date) == Some(x);
  }

  lemma TransferAccepted()
    ensures AcceptLeaves(TaiwanWorld(), TaiwanBook(), PairedUp(), ThreeSources(2), 3, None, 2, 1)
  {
    hide CreateTx;
    HundredBooks(2, 1, -100.0);
    assert NewLines(Side(2, "TWD", -100.0, 0), 1) == [Plain(2, "TWD", -100.0), Plain(1, "TWD", 100.0)];
  }

  /** A deposit, the same deposit from another source, and the withdrawal it
      came from, accepted: the second deposit is left waiting for the first. */
  lemma TransferStranded()
    ensures var b, ss := TaiwanBook(), ThreeSources(2);
      var q := Arrives(Arrives(Arrives(Empty(), ss, b, [Deposit()]), ss, b, [DepositAgain()]), ss, b, [Withdrawal()]);
      AcceptLeaves(TaiwanWorld(), b, q, ss, 3, None, 2, 1)
  {
    hide Matched, Arrives, AcceptLeaves;
    FirstArrives(ThreeSources(2), TaiwanBook(), Deposit());
    FirstAlone(Deposit(), 2);
    SecondArrives(AsSent(Deposit()), ThreeSources(2), TaiwanBook(), DepositAgain());
    TransferSecond();
    ThirdArrives(AsSent(Deposit()), WaitingFor(AsSent(DepositAgain()), 1), ThreeSources(2), TaiwanBook(), Withdrawal());
    TransferThird();
    TransferAccepted();
  }

  // ----- a side of a transfer, booked as something else -----

  function SideByOne(): Queue {
    Two(AsSent(Deposit()).(found := Match(AsTransfer, None, None, Some(2))),
        AsSent(Withdrawal()).(found := Match(AsTransfer, None, None, Some(1))))
  }

  lemma SideFound()
    ensures var q, ss := Two(AsSent(Deposit()), AsSent(Withdrawal())), ThreeSources(2);
      TransferPartner(q, ss, 2, 1) &&
      forall x :: !DuplicateRow(q, ss, 2, x) && (TransferPartner(q, ss, 2, x) ==> x == 1)
  {
  }

  lemma SideSecond()
    ensures Matched(Two(AsSent(Deposit()), AsSent(Withdrawal())), ThreeSources(2), TaiwanBook(), 2, Quiet()) == SideByOne()
  {
    var q, ss := Two(AsSent(Deposit()), AsSent(Withdrawal())), ThreeSources(2);
    SideFound();
    hide DuplicateRow, TransferPartner, Matched;
    MatchesPartner(q, ss, TaiwanBook(), 2, 1);
    assert Paired(q, 2, 1).rows == SideByOne().rows;
  }

  lemma SideAccepted()
    ensures AcceptLeaves(TaiwanWorld(), TaiwanBook(), SideByOne(), ThreeSources(2), 1, Some(3), 2, 1)
  {
    hide CreateTx;
    HundredBooks(1, 3, 100.0);
  }

  /** A deposit and the withdrawal it came from, the deposit accepted with a
      category instead: the withdrawal stays a side of a transfer that cannot
      be booked. */
  lemma SideStranded()
    ensures var b, ss := TaiwanBook(), ThreeSources(2);
      AcceptLeaves(TaiwanWorld(), b, Arrives(Arrives(Empty(), ss, b, [Deposit()]), ss, b, [Withdrawal()]), ss, 1, Some(3), 2, 1)
  {
    hide Matched, Arrives, AcceptLeaves;
    FirstArrives(ThreeSources(2), TaiwanBook(), Deposit());
    FirstAlone(Deposit(), 2);
    SecondArrives(AsSent(Deposit()), ThreeSources(2), TaiwanBook(), Withdrawal());
    SideSecond();
    SideAccepted();
  }

  // ----- a trade entered by hand meanwhile -----

  /** Two sources of the broker, settling on account 1. */
  function BrokerSources(): Sources {
    map[1 := Source("broker", Some(4), Some(1), false), 2 := Source("depository", Some(4), Some(1), false)]
  }

  function Bought(source: int, extId: string, cash: Option<real>): Sent {
    Sent(Info(TradeRow, source, extId, 0, 0.0, "TWD", false, SHARES, 5.0, None, cash, None), [])
  }

  function WithCash(): Sent {
    Bought(1, "broker:1", Some(-100.0))
  }

  function WithoutCash(): Sent {
    Bought(2, "depository:1", None)
  }

  /** The same purchase, entered by hand: five shares for a hundred. */
  function PurchaseLines(): seq<Line> {
    [Line(5, SHARES, 5.0, Some(100.0), None), Plain(1, "TWD", -100.0)]
  }

  function TradedBook(): Book {
    TaiwanBook().(txns := [Txn(1, 0, [Posting(5, SHARES, 5.0, 100.0), Posting(1, "TWD", -100.0, -100.0)])], nextId := 2)
  }

  lemma FiveShares()
    ensures HasPrecision(5.0, 4)
  {
    assert Pow10(2) == 100.0 && Pow10(4) == 10000.0;
    MultipleFrom(5.0, 50000, 10000.0);
    RoundIdentity(5.0, 4);
  }

  lemma PurchaseResolves(c: Context)
    requires c.w == TaiwanWorld() && c.b.base == "TWD" && c.b.accounts == TaiwanBook().accounts
    ensures ResolveLine(c, PurchaseLines()[0]) == Ok(Posting(5, SHARES, 5.0, 100.0))
    ensures ResolveLine(c, PurchaseLines()[1]) == Ok(Posting(1, "TWD", -100.0, -100.0))
  {
    hide HasPrecision, CostBasisOf, Converted;
    Hundreds();
    FiveShares();
  }

  lemma PurchaseEntered()
    ensures Create(TaiwanWorld(), TaiwanBook(), 0, PurchaseLines()) == Ok(TradedBook())
  {
    hide Prepare, ResolveLine;
    var w, b, ls := TaiwanWorld(), TaiwanBook(), PurchaseLines();
    var c := Context(w, WithPostings(Headed(b, 0), |b.txns|, 0, []), 0, b.nextId);
    PurchaseResolves(c);
    PairBooks(c, ls[0], ls[1]);
    assert ls == [ls[0], ls[1]];
    assert CreateTx(w, b, 0, ls).value.txns == TradedBook().txns;
  }

  lemma TradedSound()
    ensures Sound(TaiwanWorld(), TradedBook())
  {
    hide CreateTx, Sound;
    PurchaseEntered();
    TaiwanSound();
    CreateTxSound(TaiwanWorld(), TaiwanBook(), 0, PurchaseLines());
  }

  lemma TradeFirst()
    ensures Matched(One(AsSent(WithCash())), BrokerSources(), TaiwanBook(), 1, Quiet()) == One(AsSent(WithCash()))
  {
    var q := One(AsSent(WithCash()));
    assert forall x :: !TradeRowAlike(q, BrokerSources(), 1, x);
    assert WithFound(q, 1, Match(AsNew, None, None, None)).rows == q.rows;
  }

  lemma TradeSecond()
    ensures Matched(Two(AsSent(WithCash()), AsSent(WithoutCash())), BrokerSources(), TaiwanBook(), 2, Quiet()) ==
      Two(AsSent(WithCash()), WaitingFor(AsSent(WithoutCash()), 1))
  {
    var q, ss := Two(AsSent(WithCash()), AsSent(WithoutCash())), BrokerSources();
    assert TradeRowAlike(q, ss, 2, 1) && forall x :: TradeRowAlike(q, ss, 2, x) ==> x == 1;
    hide TradeRowAlike;
    assert FirstRow(q, x => TradeRowAlike(q, ss, 2, x), 0) == Some(1);
    assert WithFound(q, 2, Match(AsDuplicate, None, None, Some(1))).rows ==
      Two(AsSent(WithCash()), WaitingFor(AsSent(WithoutCash()), 1)).rows;
  }

  lemma TradeAgain()
    ensures Matched(Two(AsSent(WithCash()), WaitingFor(AsSent(WithoutCash()), 1)), BrokerSources(), TradedBook(), 1, Quiet()) ==
      Two(AsSent(WithCash()).(found := Match(AsDuplicate, None, Some(1), None)), WaitingFor(AsSent(WithoutCash()), 1))
  {
    var q, b := Two(AsSent(WithCash()), WaitingFor(AsSent(WithoutCash()), 1)), TradedBook();
    var u := b.txns[0];
    assert Posts(u, 5, 5.0) by { assert u.postings[0] in u.postings; }
    assert !ClaimedByTrade(q, 1, 1);
    assert TradeDuplicated(q, b, 1, Quiet()) == Some(1) by { assert u in b.txns; }
    assert WithFound(q, 1, Match(AsDuplicate, None, Some(1), None)).rows ==
      Two(AsSent(WithCash()).(found := Match(AsDuplicate, None, Some(1), None)), WaitingFor(AsSent(WithoutCash()), 1)).rows;
  }

  /** A trade with its cash, the same without, and the purchase entered by hand
      before the first is matched again: accepting the first as a duplicate of
      that leaves the second waiting for it. */
  lemma TradeStranded()
    ensures Create(TaiwanWorld(), TaiwanBook(), 0, PurchaseLines()) == Ok(TradedBook()) && Sound(TaiwanWorld(), TradedBook())
    ensures var b, ss := TaiwanBook(), BrokerSources();
      var q := Again(Arrives(Arrives(Empty(), ss, b, [WithCash()]), ss, b, [WithoutCash()]), ss, TradedBook(), 1);
      Refusal(q, ss, 1, TradeRow).None? && q.rows[1].found == Match(AsDuplicate, None, Some(1), None) &&
      LeftFor(Decided(q, 1, IsAccepted, Some(1)), ss, 2, 1)
  {
    hide Matched, Arrives, Create, Sound;
    PurchaseEntered();
    TradedSound();
    FirstArrives(BrokerSources(), TaiwanBook(), WithCash());
    TradeFirst();
    SecondArrives(AsSent(WithCash()), BrokerSources(), TaiwanBook(), WithoutCash());
    TradeSecond();
    TradeAgain();
  }

  // ----- a row set aside -----

  /** Two accounts one connector brings; the second is ignored, and mapped. */
  function TwoSources(): Sources {
    map[1 := Source("bank", Some(1), None, false), 2 := Source("bank", Some(1), None, true)]
  }

  function Authorised(): Sent {
    Charge(1, "bank:1", 0, -100.0, true)
  }

  function PostedAside(): Sent {
    Charge(2, "bank:2", 0, -100.0, false)
  }

  lemma AsideFirst()
    ensures Matched(Two(AsSent(Authorised()), AsSent(PostedAside())), TwoSources(), TaiwanBook(), 1, Quiet()) ==
      Two(WaitingFor(AsSent(Authorised()), 2), AsSent(PostedAside()))
  {
    var q := Two(AsSent(Authorised()), AsSent(PostedAside()));
    assert DuplicateRow(q, TwoSources(), 1, 2);
    MatchesDuplicate(q, TwoSources(), TaiwanBook(), 1, 2);
    assert WithFound(q, 1, Match(AsDuplicate, None, None, Some(2))).rows ==
      Two(WaitingFor(AsSent(Authorised()), 2), AsSent(PostedAside())).rows;
  }

  lemma AsideSecond()
    ensures var q := Two(WaitingFor(AsSent(Authorised()), 2), AsSent(PostedAside()));
      Matched(q, TwoSources(), TaiwanBook(), 2, Quiet()) == Decided(q, 2, IsIgnored, None)
  {
  }

  lemma BothStaged()
    ensures Staged(Empty(), [Authorised(), PostedAside()]) == Two(AsSent(Authorised()), AsSent(PostedAside()))
    ensures StagedCount(Empty(), [Authorised(), PostedAside()]) == 2
  {
    var s, t := Authorised(), PostedAside();
    assert [s, t][..1] == [s] && [s][..0] == [];
    assert NewId(Empty(), s.info.extId) && Staged(Empty(), [s]) == One(AsSent(s)) && StagedCount(Empty(), [s]) == 1;
    assert NewId(One(AsSent(s)), t.info.extId) && Inserted(One(AsSent(s)), t) == Two(AsSent(s), AsSent(t));
  }

  /** One batch of a pending charge and the posted one, of an ignored account
      that is still mapped: the first waits for the second, and the second is
      then set aside. */
  lemma AsideStranded()
    ensures LeftFor(Arrives(Empty(), TwoSources(), TaiwanBook(), [Authorised(), PostedAside()]), TwoSources(), 1, 2)
  {
    hide Matched, Staged, StagedCount, InvoicesRematched, Inserted;
    var ss, b, looks := TwoSources(), TaiwanBook(), AllQuiet();
    BothStaged();
    AsideFirst();
    AsideSecond();
    var q := Two(AsSent(Authorised()), AsSent(PostedAside()));
    assert Numbers(1, 2) == [1, 2] && [1, 2][..1] == [1] && [1][..0] == [];
    assert MatchedEach(q, ss, b, [], looks) == q;
    assert MatchedEach(q, ss, b, [1], looks) == Two(WaitingFor(AsSent(Authorised()), 2), AsSent(PostedAside()));
    InvoicesStay(MatchedEach(q, ss, b, [1, 2], looks), ss, b, looks);
  }
}
