// Writing transactions (internal/ledger/transactions.go and the opening
// balances of internal/ledger/accounts.go). Each operation is one database
// transaction: it either leaves the book the specification function gives or,
// failing, leaves the book it found.
module Journal {
  import opened Sums
  import opened Core
  import opened Lines

  // ----- the specification, book to book -----

  predicate Locked(b: Book, date: int) {
    b.lock.Some? && date <= b.lock.value
  }

  function IndexOf(txns: seq<Txn>, id: int): (i: nat)
    ensures i <= |txns|
    ensures i < |txns| ==> txns[i].id == id
    ensures i == |txns| ==> forall t :: t in txns ==> t.id != id
  {
    if |txns| == 0 then 0
    else if txns[|txns| - 1].id == id then |txns| - 1
    else
      var i := IndexOf(txns[..|txns| - 1], id);
      if i == |txns| - 1 then |txns| else i
  }

  function WithPostings(b: Book, i: nat, date: int, ps: seq<Posting>): Book
    requires i < |b.txns|
  {
    b.(txns := b.txns[i := Txn(b.txns[i].id, date, ps)])
  }

  function Headed(b: Book, date: int): Book {
    b.(txns := b.txns + [Txn(b.nextId, date, [])], nextId := b.nextId + 1)
  }

  /** writeLinesAndTags: the lines are read against the book with the
      transaction's own postings gone, and left out of the cost basis. */
  function Written(w: World, b: Book, i: nat, date: int, lines: seq<Line>): Result<Book>
    requires i < |b.txns|
  {
    var cleared := WithPostings(b, i, date, []);
    var ps :- Prepare(Context(w, cleared, date, b.txns[i].id), lines);
    Ok(WithPostings(b, i, date, ps))
  }

  /** createTx, as the queue calls it: no lock check of its own. */
  function CreateTx(w: World, b: Book, date: int, lines: seq<Line>): Result<Book> {
    Written(w, Headed(b, date), |b.txns|, date, lines)
  }

  function Create(w: World, b: Book, date: int, lines: seq<Line>): Result<Book> {
    if Locked(b, date) then Err(BookLocked) else CreateTx(w, b, date, lines)
  }

  function Update(w: World, b: Book, id: int, date: int, lines: seq<Line>): Result<Book> {
    var i := IndexOf(b.txns, id);
    if i == |b.txns| then Err(NotFound)
    else if Locked(b, b.txns[i].date) || Locked(b, date) then Err(BookLocked)
    else Written(w, b, i, date, lines)
  }

  function Delete(b: Book, id: int): Result<Book> {
    var i := IndexOf(b.txns, id);
    if i == |b.txns| then Err(NotFound)
    else if Locked(b, b.txns[i].date) then Err(BookLocked)
    else Ok(b.(txns := b.txns[..i] + b.txns[i + 1..]))
  }

  datatype Opening = Opening(amount: real, base: Option<real>, date: int)

  datatype AccountInput = AccountInput(
    parent: Option<int>, cls: Option<Class>, commodity: Option<string>, isCurrent: bool, isCash: bool,
    cf: CfClass, placeholder: bool, opening: Option<Opening>)

  /** What a person owes is entered positive and booked as a credit. */
  function OpeningLine(b: Book, account: int, o: Opening): Line
    requires account in b.accounts
  {
    if b.accounts[account].cls.Liability? then
      Line(account, "", -o.amount, if o.base.Some? then Some(-o.base.value) else None, None)
    else
      Line(account, "", o.amount, o.base, None)
  }

  predicate OpeningReady(b: Book) {
    OPENING_BALANCES in b.keys ==>
      b.keys[OPENING_BALANCES] in b.accounts && b.accounts[b.keys[OPENING_BALANCES]].commodity.Some?
  }

  function PostOpening(w: World, b: Book, account: int, o: Opening): Result<Book>
    requires account in b.accounts && OpeningReady(b)
  {
    if Locked(b, o.date) then Err(BookLocked)
    else match AccountByKey(b, OPENING_BALANCES)
      case None => Err(NotFound)
      case Some(equity) =>
        var p :- ResolveLine(Context(w, b, o.date, 0), OpeningLine(b, account, o));
        var counter := Posting(equity, b.accounts[equity].commodity.value, -p.base, -p.base);
        Ok(WithPostings(Headed(b, o.date), |b.txns|, o.date, [p, counter]))
  }

  function InputClass(b: Book, input: AccountInput): Result<Class> {
    match input.parent
    case None => if input.cls.Some? then Ok(input.cls.value) else Err(Invalid)
    case Some(p) =>
      if p !in b.accounts then Err(NotFound)
      else if input.cls.None? then Ok(b.accounts[p].cls)
      else if input.cls.value != b.accounts[p].cls then Err(Mismatch)
      else Ok(input.cls.value)
  }

  function NewAccount(w: World, b: Book, input: AccountInput): Result<Account> {
    var cls :- InputClass(b, input);
    var commodity := if !HoldsCommodity(cls) then None
      else if input.commodity.Some? && input.commodity.value != "" then input.commodity else Some(b.base);
    if commodity.Some? && commodity.value !in w.commodities then Err(UnknownCommodity)
    else if input.isCash && !cls.Asset? then Err(Invalid)
    else if input.opening.Some? && input.placeholder then Err(Error.Placeholder)
    else if input.opening.Some? && !cls.Asset? && !cls.Liability? then Err(Invalid)
    else Ok(Account(input.parent, cls, commodity, input.isCurrent, input.isCash, input.cf, input.placeholder, false))
  }

  function WithAccount(b: Book, a: Account): Book {
    b.(accounts := b.accounts[b.nextAccount := a], nextAccount := b.nextAccount + 1)
  }

  predicate AccountsKept(b: Book) {
    forall a :: a in b.accounts ==> a < b.nextAccount
  }

  function OpenAccount(w: World, b: Book, input: AccountInput): Result<Book>
    requires OpeningReady(b) && AccountsKept(b)
  {
    var a :- NewAccount(w, b, input);
    var b1 := WithAccount(b, a);
    if input.opening.Some? && input.opening.value.amount != 0.0
    then PostOpening(w, b1, b.nextAccount, input.opening.value)
    else Ok(b1)
  }

  // ----- the invariant of the books -----

  predicate Ordered(b: Book) {
    (forall i, j :: 0 <= i < j < |b.txns| ==> b.txns[i].id < b.txns[j].id) &&
    (forall t :: t in b.txns ==> 0 < t.id < b.nextId) && b.nextId > 0
  }

  predicate SoundTxn(w: World, b: Book, t: Txn) {
    |t.postings| >= 2 && Balanced(t) && forall p :: p in t.postings ==> Proper(w, b, p)
  }

  predicate Sound(w: World, b: Book) {
    KeysKnown(w, b) && OpeningReady(b) && AccountsKept(b) && Ordered(b) &&
    (forall a :: a in b.accounts && b.accounts[a].commodity.Some? ==>
       b.accounts[a].commodity.value in w.commodities) &&
    forall t :: t in b.txns ==> SoundTxn(w, b, t)
  }

  lemma SoundTxnKept(w: World, b: Book, b1: Book, t: Txn)
    requires SoundTxn(w, b, t) && b1.base == b.base && b.accounts.Keys <= b1.accounts.Keys
    ensures SoundTxn(w, b1, t)
  {
    assert forall p :: Proper(w, b, p) ==> Proper(w, b1, p);
  }

  lemma SoundReplaced(w: World, b: Book, i: nat, date: int, ps: seq<Posting>)
    requires Sound(w, b) && i < |b.txns|
    requires SoundTxn(w, b, Txn(b.txns[i].id, date, ps))
    ensures Sound(w, WithPostings(b, i, date, ps))
  {
    var b1 := WithPostings(b, i, date, ps);
    assert b.txns[i] in b.txns;
    forall t | t in b1.txns ensures SoundTxn(w, b1, t) && 0 < t.id < b1.nextId {
      assert t == Txn(b.txns[i].id, date, ps) || t in b.txns;
      SoundTxnKept(w, b, b1, t);
    }
  }

  lemma SoundAppended(w: World, b: Book, date: int, ps: seq<Posting>)
    requires Sound(w, b) && SoundTxn(w, b, Txn(b.nextId, date, ps))
    ensures Sound(w, WithPostings(Headed(b, date), |b.txns|, date, ps))
  {
    var b1 := WithPostings(Headed(b, date), |b.txns|, date, ps);
    assert b1.txns == b.txns + [Txn(b.nextId, date, ps)];
    forall t | t in b1.txns ensures SoundTxn(w, b1, t) {
      SoundTxnKept(w, b, b1, t);
    }
  }

  lemma PreparedSound(w: World, b: Book, date: int, id: int, lines: seq<Line>)
    requires KeysKnown(w, b) && Prepare(Context(w, b, date, id), lines).Ok?
    ensures SoundTxn(w, b, Txn(id, date, Prepare(Context(w, b, date, id), lines).value))
  {
    PreparedBalances(Context(w, b, date, id), lines);
  }

  lemma CreateTxSound(w: World, b: Book, date: int, lines: seq<Line>)
    requires Sound(w, b) && CreateTx(w, b, date, lines).Ok?
    ensures Sound(w, CreateTx(w, b, date, lines).value)
  {
    hide Prepare;
    var header := Headed(b, date);
    var cleared := WithPostings(header, |b.txns|, date, []);
    PreparedSound(w, cleared, date, b.nextId, lines);
    var ps := Prepare(Context(w, cleared, date, b.nextId), lines).value;
    assert forall p :: Proper(w, cleared, p) ==> Proper(w, b, p);
    SoundAppended(w, b, date, ps);
  }

  lemma UpdateSound(w: World, b: Book, id: int, date: int, lines: seq<Line>)
    requires Sound(w, b) && Update(w, b, id, date, lines).Ok?
    ensures Sound(w, Update(w, b, id, date, lines).value)
  {
    hide Prepare;
    var i := IndexOf(b.txns, id);
    var cleared := WithPostings(b, i, date, []);
    PreparedSound(w, cleared, date, id, lines);
    var ps := Prepare(Context(w, cleared, date, id), lines).value;
    assert forall p :: Proper(w, cleared, p) ==> Proper(w, b, p);
    SoundReplaced(w, b, i, date, ps);
  }

  lemma DeleteSound(w: World, b: Book, id: int)
    requires Sound(w, b) && Delete(b, id).Ok?
    ensures Sound(w, Delete(b, id).value)
  {
    var b1 := Delete(b, id).value;
    forall t | t in b1.txns ensures SoundTxn(w, b1, t) && 0 < t.id < b1.nextId {
      assert t in b.txns;
      SoundTxnKept(w, b, b1, t);
    }
  }

  lemma PostOpeningSound(w: World, b: Book, account: int, o: Opening)
    requires Sound(w, b) && account in b.accounts && PostOpening(w, b, account, o).Ok?
    ensures Sound(w, PostOpening(w, b, account, o).value)
  {
    hide ResolveLine, OpeningLine, Precise, SoundTxn, Ordered;
    var c := Context(w, b, o.date, 0);
    var l := OpeningLine(b, account, o);
    ResolvedProper(c, l);
    PairSound(w, b, o.date, ResolveLine(c, l).value, b.keys[OPENING_BALANCES]);
  }

  lemma PairSound(w: World, b: Book, date: int, p: Posting, equity: int)
    requires Sound(w, b) && Proper(w, b, p) && equity in b.accounts && b.accounts[equity].commodity.Some?
    ensures var counter := Posting(equity, b.accounts[equity].commodity.value, -p.base, -p.base);
      Sound(w, WithPostings(Headed(b, date), |b.txns|, date, [p, counter]))
  {
    var counter := Posting(equity, b.accounts[equity].commodity.value, -p.base, -p.base);
    SumPair(p, counter, Base());
    SoundAppended(w, b, date, [p, counter]);
  }

  lemma SumPair(p: Posting, q: Posting, w: Posting -> real)
    ensures Sum([p, q], w) == w(p) + w(q)
  {
    assert [p, q] == [p] + [q] && [p] == [] + [p];
    SumAppend([p], q, w);
    SumAppend([], p, w);
  }

  lemma OpenAccountSound(w: World, b: Book, input: AccountInput)
    requires Sound(w, b) && OpenAccount(w, b, input).Ok?
    ensures Sound(w, OpenAccount(w, b, input).value)
  {
    hide PostOpening;
    var a := NewAccount(w, b, input).value;
    var b1 := WithAccount(b, a);
    forall t | t in b1.txns ensures SoundTxn(w, b1, t) {
      SoundTxnKept(w, b, b1, t);
    }
    if input.opening.Some? && input.opening.value.amount != 0.0 {
      PostOpeningSound(w, b1, b.nextAccount, input.opening.value);
    }
  }

  // ----- the store, updated in place -----

  class Ledger {
    var base: string
    var lock: Option<int>
    var accounts: map<int, Account>
    var keys: map<string, int>
    var txns: seq<Txn>
    var nextId: int
    var nextAccount: int

    constructor (b: Book)
      ensures Current() == b
    {
      base, lock, accounts, keys := b.base, b.lock, b.accounts, b.keys;
      txns, nextId, nextAccount := b.txns, b.nextId, b.nextAccount;
    }

    function Current(): Book
      reads this
    {
      Book(base, lock, accounts, keys, txns, nextId, nextAccount)
    }

    /** Inserts one transaction's resolved lines, one posting at a time. */
    method WriteLines(w: World, i: nat, date: int, lines: seq<Line>) returns (r: Result<()>)
      requires i < |txns| && txns[i].date == date && txns[i].postings == []
      modifies this`txns
      ensures match Written(w, old(Current()), i, date, lines)
        case Ok(b) => r == Ok(()) && Current() == b
        case Err(e) => r == Err(e) && Current() == old(Current())
    {
      var start := txns;
      var c := Context(w, Current(), date, txns[i].id);
      assert WithPostings(Current(), i, date, []).txns == txns;
      var ps := PrepareLines(c, lines);
      if ps.Err? {
        return Err(ps.error);
      }
      for k := 0 to |ps.value|
        invariant txns == start[i := Txn(start[i].id, date, ps.value[..k])]
      {
        txns := txns[i := Txn(txns[i].id, txns[i].date, txns[i].postings + [ps.value[k]])];
        assert ps.value[..k + 1] == ps.value[..k] + [ps.value[k]];
      }
      assert ps.value[..|ps.value|] == ps.value;
      return Ok(());
    }

    method CreateUnchecked(w: World, date: int, lines: seq<Line>) returns (r: Result<int>)
      modifies this
      ensures match CreateTx(w, old(Current()), date, lines)
        case Ok(b) => r == Ok(old(nextId)) && Current() == b
        case Err(e) => r == Err(e) && Current() == old(Current())
    {
      var savedTxns, savedId := txns, nextId;
      txns, nextId := txns + [Txn(nextId, date, [])], nextId + 1;
      var written := WriteLines(w, |txns| - 1, date, lines);
      if written.Err? {
        txns, nextId := savedTxns, savedId;
        return Err(written.error);
      }
      return Ok(savedId);
    }

    method CreateTransaction(w: World, date: int, lines: seq<Line>) returns (r: Result<int>)
      modifies this
      ensures match Create(w, old(Current()), date, lines)
        case Ok(b) => r == Ok(old(nextId)) && Current() == b
        case Err(e) => r == Err(e) && Current() == old(Current())
    {
      if lock.Some? && date <= lock.value {
        return Err(BookLocked);
      }
      r := CreateUnchecked(w, date, lines);
    }

    method UpdateTransaction(w: World, id: int, date: int, lines: seq<Line>) returns (r: Result<()>)
      modifies this
      ensures match Update(w, old(Current()), id, date, lines)
        case Ok(b) => r == Ok(()) && Current() == b
        case Err(e) => r == Err(e) && Current() == old(Current())
    {
      var i := IndexOf(txns, id);
      if i == |txns| {
        return Err(NotFound);
      }
      if lock.Some? && (txns[i].date <= lock.value || date <= lock.value) {
        return Err(BookLocked);
      }
      var saved := txns;
      txns := txns[i := Txn(id, date, txns[i].postings)];
      txns := txns[i := Txn(id, date, [])];
      assert WithPostings(Current(), i, date, []) == WithPostings(old(Current()), i, date, []);
      var written := WriteLines(w, i, date, lines);
      if written.Err? {
        txns := saved;
        return Err(written.error);
      }
      assert forall ps :: WithPostings(old(Current()), i, date, ps).txns == saved[i := Txn(id, date, ps)];
      return Ok(());
    }

    method DeleteTransaction(id: int) returns (r: Result<()>)
      modifies this`txns
      ensures match Delete(old(Current()), id)
        case Ok(b) => r == Ok(()) && Current() == b
        case Err(e) => r == Err(e) && Current() == old(Current())
    {
      var i := IndexOf(txns, id);
      if i == |txns| {
        return Err(NotFound);
      }
      if lock.Some? && txns[i].date <= lock.value {
        return Err(BookLocked);
      }
      txns := txns[..i] + txns[i + 1..];
      return Ok(());
    }

    method PostOpeningBalance(w: World, account: int, o: Opening) returns (r: Result<()>)
      requires account in accounts && OpeningReady(Current())
      modifies this`txns, this`nextId
      ensures match PostOpening(w, old(Current()), account, o)
        case Ok(b) => r == Ok(()) && Current() == b
        case Err(e) => r == Err(e) && Current() == old(Current())
    {
      hide ResolveLine;
      if lock.Some? && o.date <= lock.value {
        return Err(BookLocked);
      }
      var equity := AccountByKey(Current(), OPENING_BALANCES);
      if equity.None? {
        return Err(NotFound);
      }
      var p := ResolveLine(Context(w, Current(), o.date, 0), OpeningLine(Current(), account, o));
      if p.Err? {
        return Err(p.error);
      }
      var counter := Posting(equity.value, accounts[equity.value].commodity.value, -p.value.base, -p.value.base);
      txns, nextId := txns + [Txn(nextId, o.date, [])], nextId + 1;
      var i := |txns| - 1;
      txns := txns[i := Txn(txns[i].id, o.date, [p.value])];
      txns := txns[i := Txn(txns[i].id, o.date, [p.value, counter])];
      return Ok(());
    }

    method CreateAccount(w: World, input: AccountInput) returns (r: Result<int>)
      requires OpeningReady(Current()) && AccountsKept(Current())
      modifies this
      ensures match OpenAccount(w, old(Current()), input)
        case Ok(b) => r == Ok(old(nextAccount)) && Current() == b
        case Err(e) => r == Err(e) && Current() == old(Current())
    {
      hide PostOpening, NewAccount;
      var a := NewAccount(w, Current(), input);
      if a.Err? {
        return Err(a.error);
      }
      var saved, id := accounts, nextAccount;
      accounts, nextAccount := accounts[id := a.value], id + 1;
      if input.opening.Some? && input.opening.value.amount != 0.0 {
        var posted := PostOpeningBalance(w, id, input.opening.value);
        if posted.Err? {
          accounts, nextAccount := saved, id;
          return Err(posted.error);
        }
      }
      return Ok(id);
    }
  }
}
