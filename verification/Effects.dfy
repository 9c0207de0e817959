// What each operation does to the books, as balances and dates: the units of
// every account as of every day, before and after.
module Effects {
  import opened Decimals
  import opened Sums
  import opened Core
  import opened Lines
  import opened Journal
  import opened Accepted
  import opened Invoices
  import opened ImportQueue
  import opened Matching
  import opened Review
  import Runs

  /** What an account holds as of a day. */
  function UnitsAt(b: Book, account: int, on: int): real {
    Sum(Upto(b.txns, on), UnitsOf(account))
  }

  /** What it holds at cost. */
  function CostAt(b: Book, account: int, on: int): real {
    Sum(Upto(b.txns, on), BaseOf({account}))
  }

  predicate FxAccount(b: Book, account: int) {
    FX_GAIN_LOSS in b.keys && b.keys[FX_GAIN_LOSS] == account
  }

  // ----- a transaction's lines -----

  lemma {:induction false} ResolvedUnits(c: Context, lines: seq<Line>, account: int)
    requires ResolveAll(c, lines).Ok?
    ensures Sum(ResolveAll(c, lines).value, UnitsOf(account)) == Sum(lines, LineUnits(account))
  {
    hide ResolveLine;
    if |lines| > 0 {
      var n := |lines| - 1;
      ResolvedUnits(c, lines[..n], account);
      ResolvedIs(c, lines[n]);
      SumAppend(ResolveAll(c, lines[..n]).value, ResolveLine(c, lines[n]).value, UnitsOf(account));
    }
  }

  /** What is written moves each account by its lines; only the account for FX
      differences may get up to a minor unit more. */
  lemma PreparedUnits(c: Context, lines: seq<Line>, account: int)
    requires KeysKnown(c.w, c.b) && Prepare(c, lines).Ok?
    ensures var extra := Sum(Prepare(c, lines).value, UnitsOf(account)) - Sum(lines, LineUnits(account));
      Abs(extra) <= Unit(c.BasePlaces()) &&
      (!FxAccount(c.b, account) || Prepare(c, lines) == ResolveAll(c, lines) ==> extra == 0.0)
  {
    hide ResolveAll, Sum, Unit, Close, Proper;
    PreparedBalances(c, lines);
    ResolvedUnits(c, lines, account);
    var ps, out := ResolveAll(c, lines).value, Prepare(c, lines).value;
    if out != ps {
      SumAppend(ps, FxLine(c.b.keys[FX_GAIN_LOSS], c.b.base, -Sum(ps, Base())), UnitsOf(account));
    }
  }

  /** A new transaction moves every account by its lines, from its day on. */
  lemma CreateMoves(w: World, b: Book, date: int, lines: seq<Line>, account: int, on: int)
    requires KeysKnown(w, b) && CreateTx(w, b, date, lines).Ok?
    ensures var moved := UnitsAt(CreateTx(w, b, date, lines).value, account, on) - UnitsAt(b, account, on);
      var c := Runs.NewContext(w, b, date);
      if on < date then moved == 0.0
      else Abs(moved - Sum(lines, LineUnits(account))) <= Unit(w.Places(b.base)) &&
           (!FxAccount(b, account) || Prepare(c, lines) == ResolveAll(c, lines) ==>
              moved == Sum(lines, LineUnits(account)))
  {
    hide Prepare, ResolveAll, Sum, Unit, Upto, LineUnits;
    var c := Runs.NewContext(w, b, date);
    Runs.CreateTxHistory(w, b, date, lines, on);
    PreparedUnits(c, lines, account);
    SumConcat(Upto(b.txns, on), if on < date then [] else Prepare(c, lines).value, UnitsOf(account));
    SumNil([], UnitsOf(account));
  }

  /** Creating succeeds exactly after the lock date, with lines that are
      admitted. */
  lemma CreateIff(w: World, b: Book, date: int, lines: seq<Line>)
    ensures Create(w, b, date, lines).Ok? <==>
      (b.lock.None? || date > b.lock.value) && Admits(Runs.NewContext(w, b, date), lines)
  {
    hide CreateTx, Admits;
    Runs.CreatedIff(w, b, date, lines);
  }

  lemma StoredAt(b: Book, t: Txn)
    requires Ordered(b) && t in b.txns
    ensures IndexOf(b.txns, t.id) < |b.txns| && b.txns[IndexOf(b.txns, t.id)] == t
  {
    var i := IndexOf(b.txns, t.id);
    var k :| 0 <= k < |b.txns| && b.txns[k] == t;
  }

  /** Deleting succeeds exactly for a stored transaction dated after the lock,
      and takes back what it moved. */
  lemma DeleteMoves(w: World, b: Book, t: Txn, account: int, on: int)
    requires Ordered(b) && t in b.txns
    ensures Delete(b, t.id).Ok? <==> b.lock.None? || t.date > b.lock.value
    ensures Delete(b, t.id).Ok? ==>
      UnitsAt(Delete(b, t.id).value, account, on) ==
        UnitsAt(b, account, on) - (if t.date <= on then Sum(t.postings, UnitsOf(account)) else 0.0)
  {
    hide Sum, Upto;
    StoredAt(b, t);
    AroundUnits(b.txns, IndexOf(b.txns, t.id), account, on);
  }

  lemma AroundUnits(txns: seq<Txn>, i: nat, account: int, on: int)
    requires i < |txns|
    ensures var t, u := txns[i], UnitsOf(account);
      Sum(Upto(txns, on), u) ==
        Sum(Upto(txns[..i] + txns[i + 1..], on), u) + (if t.date <= on then Sum(t.postings, u) else 0.0)
  {
    hide Sum, Upto;
    var a, t, z, u := txns[..i], txns[i], txns[i + 1..], UnitsOf(account);
    assert txns == a + [t] + z;
    UptoConcat(a + [t], z, on);
    UptoConcat(a, [t], on);
    UptoConcat(a, z, on);
    Runs.UptoOne(t, on);
    var dated := if t.date <= on then t.postings else [];
    SumConcat(Upto(a, on) + dated, Upto(z, on), u);
    SumConcat(Upto(a, on), dated, u);
    SumConcat(Upto(a, on), Upto(z, on), u);
    SumNil([], u);
  }

  /** Updating succeeds exactly for a stored transaction, with both days after
      the lock and lines that are admitted; the old lines are taken back and
      the new ones moved. */
  lemma UpdateMoves(w: World, b: Book, t: Txn, date: int, lines: seq<Line>, account: int, on: int)
    requires KeysKnown(w, b) && Ordered(b) && t in b.txns
    ensures Update(w, b, t.id, date, lines).Ok? <==>
      (b.lock.None? || (t.date > b.lock.value && date > b.lock.value)) &&
      Admits(Context(w, WithPostings(b, IndexOf(b.txns, t.id), date, []), date, t.id), lines)
    ensures Update(w, b, t.id, date, lines).Ok? ==>
      var moved := UnitsAt(Update(w, b, t.id, date, lines).value, account, on) - UnitsAt(b, account, on) +
        (if t.date <= on then Sum(t.postings, UnitsOf(account)) else 0.0);
      if on < date then moved == 0.0
      else Abs(moved - Sum(lines, LineUnits(account))) <= Unit(w.Places(b.base)) &&
           (!FxAccount(b, account) ==> moved == Sum(lines, LineUnits(account)))
  {
    hide Sum, Upto, Prepare, Admits, Unit, LineUnits;
    StoredAt(b, t);
    var i := IndexOf(b.txns, t.id);
    var c := Context(w, WithPostings(b, i, date, []), date, t.id);
    PreparedIff(c, lines);
    if Update(w, b, t.id, date, lines).Ok? {
      var r := Update(w, b, t.id, date, lines).value;
      PreparedUnits(c, lines, account);
      AroundUnits(b.txns, i, account, on);
      AroundUnits(r.txns, i, account, on);
      assert r.txns[..i] == b.txns[..i] && r.txns[i + 1..] == b.txns[i + 1..];
    }
  }

  // ----- an opening balance -----

  /** What a person states, signed as the books have it. */
  function Stated(b: Book, account: int, amount: real): real
    requires account in b.accounts
  {
    if b.accounts[account].cls == Liability then -amount else amount
  }

  lemma PairMoves(b: Book, date: int, p: Posting, q: Posting, x: Posting -> real, on: int)
    ensures Sum(Upto(WithPostings(Headed(b, date), |b.txns|, date, [p, q]).txns, on), x) ==
      Sum(Upto(b.txns, on), x) + (if on < date then 0.0 else x(p) + x(q))
  {
    hide Sum, Upto;
    var r := WithPostings(Headed(b, date), |b.txns|, date, [p, q]);
    assert r.txns == b.txns + [Txn(b.nextId, date, [p, q])];
    Runs.UptoAppended(b.txns, Txn(b.nextId, date, [p, q]), on);
    SumConcat(Upto(b.txns, on), if on < date then [] else [p, q], x);
    SumNil([], x);
    SumPair(p, q, x);
  }

  /** An opening balance, which needs a day after the lock date, gives the
      account what was stated, what is owed as a credit, from its day on; what
      that is worth leaves the opening balances account, and no other moves. */
  lemma OpeningMoves(w: World, b: Book, account: int, o: Opening, a: int, on: int)
    requires Sound(w, b) && account in b.accounts && PostOpening(w, b, account, o).Ok?
    ensures (b.lock.None? || o.date > b.lock.value) && OPENING_BALANCES in b.keys
    ensures var r, equity := PostOpening(w, b, account, o).value, b.keys[OPENING_BALANCES];
      on < o.date ==> UnitsAt(r, a, on) == UnitsAt(b, a, on) && CostAt(r, a, on) == CostAt(b, a, on)
    ensures var r, equity := PostOpening(w, b, account, o).value, b.keys[OPENING_BALANCES];
      var worth := CostAt(r, account, on) - CostAt(b, account, on);
      on >= o.date && account != equity ==>
        UnitsAt(r, a, on) == UnitsAt(b, a, on) +
          (if a == account then Stated(b, account, o.amount) else if a == equity then -worth else 0.0) &&
        CostAt(r, equity, on) == CostAt(b, equity, on) - worth
    ensures var r := PostOpening(w, b, account, o).value;
      on >= o.date && account != b.keys[OPENING_BALANCES] && b.accounts[account].commodity.Some? ==>
        var worth := CostAt(r, account, on) - CostAt(b, account, on);
        if b.accounts[account].commodity.value == b.base then worth == Stated(b, account, o.amount)
        else o.base.Some? ==> worth == Stated(b, account, o.base.value)
  {
    hide ResolveLine, Sum, Upto, SoundTxn;
    var c, l := Context(w, b, o.date, 0), OpeningLine(b, account, o);
    var p, equity := ResolveLine(c, l).value, b.keys[OPENING_BALANCES];
    var counter := Posting(equity, b.accounts[equity].commodity.value, -p.base, -p.base);
    ResolvedIs(c, l);
    PairMoves(b, o.date, p, counter, UnitsOf(a), on);
    PairMoves(b, o.date, p, counter, BaseOf({a}), on);
    PairMoves(b, o.date, p, counter, BaseOf({account}), on);
    PairMoves(b, o.date, p, counter, BaseOf({equity}), on);
  }

  /** And it is posted exactly on such a day, with an account to take it from,
      when the balance stated resolves as a line. */
  lemma OpeningIff(w: World, b: Book, account: int, o: Opening)
    requires account in b.accounts && OpeningReady(b)
    ensures PostOpening(w, b, account, o).Ok? <==>
      (b.lock.None? || o.date > b.lock.value) && OPENING_BALANCES in b.keys &&
      var base := if o.base.Some? then Some(Stated(b, account, o.base.value)) else None;
      ResolveLine(Context(w, b, o.date, 0), Line(account, "", Stated(b, account, o.amount), base, None)).Ok?
  {
    hide ResolveLine;
  }

  // ----- a new account -----

  /** The class of a new account: the one named, or its parent's, if they agree. */
  predicate ClassFor(b: Book, input: AccountInput, cls: Class) {
    if input.parent.None? then input.cls == Some(cls)
    else
      input.parent.value in b.accounts && b.accounts[input.parent.value].cls == cls &&
      (input.cls.Some? ==> input.cls.value == cls)
  }

  /** What it holds: nothing where it counts income or expenses, else the
      commodity named, or the base currency. */
  function HeldBy(b: Book, input: AccountInput, cls: Class): Option<string> {
    if cls.Income? || cls.Expense? then None
    else if input.commodity.None? || input.commodity.value == "" then Some(b.base)
    else input.commodity
  }

  predicate MayOpen(w: World, b: Book, input: AccountInput, cls: Class) {
    ClassFor(b, input, cls) && (HeldBy(b, input, cls).Some? ==> HeldBy(b, input, cls).value in w.commodities) &&
    (input.isCash ==> cls.Asset?) && (input.opening.Some? ==> !input.placeholder && (cls.Asset? || cls.Liability?))
  }

  function WithNew(b: Book, input: AccountInput, cls: Class): Book {
    var a := Account(input.parent, cls, HeldBy(b, input, cls), input.isCurrent, input.isCash, input.cf,
                     input.placeholder, false);
    b.(accounts := b.accounts[b.nextAccount := a], nextAccount := b.nextAccount + 1)
  }

  /** An account opens exactly under these rules, with the balance stated if it
      is not zero; nothing else is touched. */
  lemma AccountOpens(w: World, b: Book, input: AccountInput, cls: Class)
    requires Sound(w, b) && ClassFor(b, input, cls)
    ensures b.nextAccount !in b.accounts
    ensures OpenAccount(w, b, input).Ok? <==>
      MayOpen(w, b, input, cls) &&
      (input.opening.Some? && input.opening.value.amount != 0.0 ==>
         PostOpening(w, WithNew(b, input, cls), b.nextAccount, input.opening.value).Ok?)
    ensures OpenAccount(w, b, input).Ok? ==>
      OpenAccount(w, b, input).value ==
        if input.opening.Some? && input.opening.value.amount != 0.0
        then PostOpening(w, WithNew(b, input, cls), b.nextAccount, input.opening.value).value
        else WithNew(b, input, cls)
  {
    hide PostOpening, SoundTxn, Ordered;
  }

  /** Without a class, or one its parent contradicts, none opens. */
  lemma NoClassNoAccount(w: World, b: Book, input: AccountInput)
    requires Sound(w, b) && forall cls :: !ClassFor(b, input, cls)
    ensures OpenAccount(w, b, input).Err?
  {
    hide PostOpening;
    if InputClass(b, input).Ok? {
      assert !ClassFor(b, input, InputClass(b, input).value);
    }
  }

  // ----- accepting a transaction row -----

  lemma TwoLines(l: Line, m: Line, account: int)
    ensures Sum([l, m], LineUnits(account)) == LineUnits(account)(l) + LineUnits(account)(m)
  {
    assert [l, m] == [l] + [m] && [l] == [] + [l];
    SumAppend([l], m, LineUnits(account));
    SumAppend([], l, LineUnits(account));
  }

  /** One account gets an amount, the other what is left, from a day on. */
  predicate Moves(b: Book, r: Book, date: int, one: int, x: real, two: int, y: real, a: int, on: int) {
    UnitsAt(r, a, on) == UnitsAt(b, a, on) +
      if on < date then 0.0 else (if a == one then x else 0.0) + (if a == two then y else 0.0)
  }

  lemma PairCreates(w: World, b: Book, date: int, l: Line, m: Line, a: int, on: int)
    requires KeysKnown(w, b) && CreateTx(w, b, date, [l, m]).Ok?
    requires !FxAccount(b, a) || BooksPair(Runs.NewContext(w, b, date), l, m)
    ensures Moves(b, CreateTx(w, b, date, [l, m]).value, date, l.account, l.amount, m.account, m.amount, a, on)
  {
    hide CreateTx, ResolveLine, Sum, Upto, Prepare, Unit, UnitsAt;
    var c := Runs.NewContext(w, b, date);
    if BooksPair(c, l, m) {
      ResolvePair(c, l, m);
    }
    CreateMoves(w, b, date, [l, m], a, on);
    TwoLines(l, m, a);
  }

  /** Neither what it matched nor another row has a part in the booking. */
  predicate AsNewRow(r: Row, category: Option<int>) {
    category.Some? || !(r.found.proposal.AsDuplicate? || r.found.proposal.AsClears? || r.found.proposal.AsTransfer?)
  }

  /** Accepted as new, a row moves its account by its amount, and the category
      by the opposite, from its day on; no other account moves. */
  lemma NewRowMoves(w: World, b: Book, q: Queue, ss: Sources, id: int, category: Option<int>, a: int, on: int)
    requires KeysKnown(w, b) && id in q.rows && AccountOf(ss, q.rows[id]).Some? && AsNewRow(q.rows[id], category)
    requires !WaitsForRow(q.rows[id], category) && !MatchGone(q.rows[id], category)
    requires BookedRow(w, b, q, ss, id, category).Ok?
    requires !FxAccount(b, a) || Money(w, b.base, q.rows[id].info.currency)
    ensures category.Some? || q.rows[id].found.category.Some?
    ensures var i := q.rows[id].info;
      var chosen := if category.Some? then category.value else q.rows[id].found.category.value;
      Moves(b, BookedRow(w, b, q, ss, id, category).value.book, i.date, AccountOf(ss, q.rows[id]).value, i.amount,
            chosen, -i.amount, a, on)
  {
    hide CreateTx, NewLines, AcceptedAlone, Moves, Money, FxAccount, BookedClears, BookedTransfer;
    var r := q.rows[id];
    var chosen := if category.Some? then category else r.found.category;
    NewMoves(w, b, SideOf(r, AccountOf(ss, r).value), chosen.value, a, on);
  }

  lemma NewMoves(w: World, b: Book, side: Side, category: int, a: int, on: int)
    requires KeysKnown(w, b) && CreateTx(w, b, side.date, NewLines(side, category)).Ok?
    requires !FxAccount(b, a) || Money(w, b.base, side.currency)
    ensures Moves(b, CreateTx(w, b, side.date, NewLines(side, category)).value, side.date, side.account, side.amount,
                  category, -side.amount, a, on)
  {
    hide CreateTx, ResolveLine, Moves, BooksPair, Money, FxAccount;
    var lines := NewLines(side, category);
    if Money(w, b.base, side.currency) {
      CreateAccepted(w, b, side.date, lines);
      NewRowExact(Runs.NewContext(w, b, side.date), side, category);
    }
    assert lines == [lines[0], lines[1]];
    PairCreates(w, b, side.date, lines[0], lines[1], a, on);
  }

  lemma CreateAccepted(w: World, b: Book, date: int, lines: seq<Line>)
    requires CreateTx(w, b, date, lines).Ok?
    ensures Prepare(Runs.NewContext(w, b, date), lines).Ok?
  {
    hide Prepare;
  }

  /** Accepted as a transfer, both sides move by their own amounts, from the
      earlier of their days on; no other account moves. */
  lemma TransferMoves(w: World, b: Book, q: Queue, ss: Sources, id: int, a: int, on: int)
    requires KeysKnown(w, b) && id in q.rows && AccountOf(ss, q.rows[id]).Some?
    requires q.rows[id].found.proposal.AsTransfer? && q.rows[id].found.row.Some?
    requires BookedRow(w, b, q, ss, id, None).Ok?
    requires q.rows[q.rows[id].found.row.value].info.currency != "" && q.rows[id].info.currency != ""
    requires var i, j := q.rows[id].info, q.rows[q.rows[id].found.row.value].info;
      !FxAccount(b, a) || (i.currency == j.currency ==> Money(w, b.base, i.currency) && j.amount == -i.amount)
    ensures Waiting(q, q.rows[id].found.row.value) && AccountOf(ss, q.rows[q.rows[id].found.row.value]).Some?
    ensures var i, other := q.rows[id].info, q.rows[q.rows[id].found.row.value];
      Moves(b, BookedRow(w, b, q, ss, id, None).value.book,
            if other.info.date < i.date then other.info.date else i.date,
            AccountOf(ss, q.rows[id]).value, i.amount, AccountOf(ss, other).value, other.info.amount, a, on)
  {
    hide CreateTx, ResolveLine, AcceptedTransfer, Moves, Converted, HasPrecision;
    var r, other := q.rows[id], q.rows[q.rows[id].found.row.value];
    var side, second := SideOf(r, AccountOf(ss, r).value), SideOf(other, AccountOf(ss, other).value);
    var date := Min(side.date, second.date);
    var lines := TransferLines(w, b.base, side, second).value;
    assert lines == [lines[0], lines[1]];
    if FxAccount(b, a) {
      CreateAccepted(w, b, date, lines);
      TransferExact(Runs.NewContext(w, b, date), side, second);
    }
    PairCreates(w, b, date, lines[0], lines[1], a, on);
  }

  /** A cleared leg: the row's own at the posted amount, another in its currency
      at the opposite, any other as it was; its base is pinned to the posted
      figure when the row is in the base currency. */
  predicate ClearedTo(base: string, i: Info, account: int, before: Posting, p: Posting) {
    p.account == before.account && p.commodity == before.commodity &&
    if p.account == account then p.amount == i.amount
    else if p.commodity == i.currency then p.amount == -i.amount
    else p.amount == before.amount && (i.currency == base ==> p.base == -i.amount)
  }

  /** Accepted as the posted form of an estimate, a row takes that transaction:
      it keeps its day and its legs, in order and cleared, and nothing else of
      the books changes. */
  lemma ClearsMoves(w: World, b: Book, q: Queue, ss: Sources, id: int)
    requires Sound(w, b) && "" !in w.commodities && id in q.rows && AccountOf(ss, q.rows[id]).Some?
    requires q.rows[id].found.proposal.AsClears? && q.rows[id].found.txn.Some? && BookedRow(w, b, q, ss, id, None).Ok?
    ensures var k, t := BookedRow(w, b, q, ss, id, None).value, q.rows[id].found.txn.value;
      k.txn == t && |k.book.txns| == |b.txns| &&
      (forall j :: 0 <= j < |b.txns| && b.txns[j].id != t ==> k.book.txns[j] == b.txns[j]) &&
      forall j :: 0 <= j < |b.txns| && b.txns[j].id == t ==>
        k.book.txns[j].id == t && k.book.txns[j].date == b.txns[j].date &&
        |b.txns[j].postings| <= |k.book.txns[j].postings| &&
        forall n :: 0 <= n < |b.txns[j].postings| ==>
          ClearedTo(b.base, q.rows[id].info, AccountOf(ss, q.rows[id]).value,
                    b.txns[j].postings[n], k.book.txns[j].postings[n])
  {
    hide ResolveLine, Prepare, AcceptedAlone, ClearedTo, SoundTxn, Sum;
    var r, t := q.rows[id], q.rows[id].found.txn.value;
    var side := SideOf(r, AccountOf(ss, r).value);
    var i := IndexOf(b.txns, t);
    var u := b.txns[i];
    var lines := ClearsLines(b.base, side, u.postings);
    var c := Context(w, WithPostings(b, i, u.date, []), u.date, t);
    PreparedBalances(c, lines);
    ResolvedAllProper(c, lines);
    assert u in b.txns && SoundTxn(w, b, u);
    forall n | 0 <= n < |u.postings|
      ensures ClearedTo(b.base, r.info, side.account, u.postings[n], Prepare(c, lines).value[n])
    {
      LegCleared(w, b, c, r, side, u, n);
    }
  }

  lemma LegCleared(w: World, b: Book, c: Context, r: Row, side: Side, u: Txn, n: nat)
    requires SoundTxn(w, b, u) && "" !in w.commodities && n < |u.postings|
    requires side.currency == r.info.currency && side.amount == r.info.amount && c.b.base == b.base
    requires ResolveLine(c, ClearedLine(b.base, side, u.postings[n])).Ok?
    ensures ClearedTo(b.base, r.info, side.account, u.postings[n],
                      ResolveLine(c, ClearedLine(b.base, side, u.postings[n])).value)
  {
    hide ResolveLine, Balanced;
    assert Proper(w, b, u.postings[n]);
    ResolvedIs(c, ClearedLine(b.base, side, u.postings[n]));
    ResolvesIff(c, ClearedLine(b.base, side, u.postings[n]));
  }

  /** Accepted as what the books already have, a row takes the transaction it
      was matched with, and the books stay as they are. */
  lemma DuplicateKeeps(w: World, b: Book, q: Queue, ss: Sources, id: int)
    requires id in q.rows && AccountOf(ss, q.rows[id]).Some?
    requires q.rows[id].found.proposal.AsDuplicate? && q.rows[id].found.txn.Some?
    ensures BookedRow(w, b, q, ss, id, None).Ok?
    ensures var k := BookedRow(w, b, q, ss, id, None).value; k.book == b && Some(k.txn) == q.rows[id].found.txn
  {
  }

  // ----- accepting a trade -----

  /** What a booked trade writes: the units on the security's account and the
      cash on the settlement account, on its day. Bought, the units cost what
      the cash is worth; sold, they leave at the average cost there was, and a
      third posting is the gain. */
  lemma TradeMoves(w: World, b: Book, q: Queue, ss: Sources, id: int, given: Option<real>, security: int)
    requires Ordered(b) && HoldsSecurity(b, security) && b.base != "" && id in q.rows
    requires BookedTrade(w, b, q, ss, id, given, security).Ok?
    ensures given.Some? || q.rows[id].info.cash.Some?
    ensures SourceOf(ss, q.rows[id]).settlement.Some?
    ensures var k, i := BookedTrade(w, b, q, ss, id, given, security).value, q.rows[id].info;
      var cash := if given.Some? then given.value else i.cash.value;
      |k.book.txns| == |b.txns| + 1 && k.book.txns[..|b.txns|] == b.txns && k.txn == b.nextId &&
      var t := k.book.txns[|b.txns|];
      t.id == b.nextId && t.date == i.date && 2 <= |t.postings| <= 3 && Sum(t.postings, Base()) == 0.0 &&
      t.postings[0].account == security && t.postings[0].amount == i.units &&
      t.postings[1].account == SourceOf(ss, q.rows[id]).settlement.value && t.postings[1].amount == cash &&
      (i.units > 0.0 ==> cash < 0.0 && |t.postings| == 2 && t.postings[0].base == -t.postings[1].base) &&
      (i.units < 0.0 ==> cash > 0.0) &&
      (i.units < 0.0 && !IsMoney(Context(w, b, i.date, 0), b.accounts[security].commodity.value) ==>
         AtAverage(CostBasisOf(b.txns, security, i.date, 0), i.units, w.Places(b.base), t.postings[0].base)) &&
      (|t.postings| == 3 ==> Some(t.postings[2].account) == AccountByKey(b, REALIZED_GAINS))
  {
    hide ResolveLine, Sum, AcceptedAlone, Ordered, CostBasisOf, Round, Unit, Times;
    var r := q.rows[id];
    var cash := if given.Some? then given.value else r.info.cash.value;
    var t := TradeOf(r, SourceOf(ss, r).settlement.value, security, cash);
    var lines := TradeLines(w, b, t).value;
    var c := Runs.NewContext(w, b, t.date);
    TradeExact(w, b, t);
    var written := BookTrade(w, b, t).value.txns[|b.txns|].postings;
    ResolvedAllProper(c, lines);
    ResolvedIs(c, lines[0]);
    ResolvedIs(c, lines[1]);
    if |lines| == 3 {
      ResolvedIs(c, lines[2]);
    }
    if t.units > 0.0 {
      assert written == [written[0], written[1]];
      SumPair(written[0], written[1], Base());
    }
    SameBasis(b, t.date);
  }

  // ----- accepting an invoice -----

  /** An invoice that is neither refused nor without its match goes with the
      transaction it was matched with, unless a category is chosen; else it
      states an amount, and was proposed as new or is given a category. */
  lemma InvoiceTaken(r: Row, category: Option<int>)
    ensures InvoiceRefusal(r, category).None? && !InvoiceGone(r, category) <==>
      if category.None? && (r.found.proposal.AsSameInvoice? || r.found.proposal.AsEnrich?) then r.found.txn.Some?
      else if category.Some? || r.found.proposal.AsNew? then r.info.amount != 0.0
      else !r.found.proposal.AsWaiting?
  {
  }

  /** A cash purchase moves the account that paid by the amount, the accounts the
      items name by their items, and the category chosen by what is left, from
      its day on; no other account moves. */
  lemma PurchaseMoves(w: World, b: Book, i: Info, account: int, items: seq<Item>, category: Option<int>,
      lines: seq<Line>, b1: Book, a: int, on: int)
    requires KeysKnown(w, b) && PurchasedBy(w, b, i, account, items, category, lines, b1) && !FxAccount(b, a)
    ensures UnitsAt(b1, a, on) == UnitsAt(b, a, on) +
      if on < i.date then 0.0 else (if a == account then i.amount else 0.0) + Shared(items, category, i.amount, a)
  {
    hide CreateTx, Sum, Unit, LineUnits, LineAmount, Shared, UnitsAt;
    CreateMoves(w, b, i.date, lines, a, on);
    assert lines == [lines[0]] + lines[1..];
    SumConcat([lines[0]], lines[1..], LineUnits(a));
    OneLine(account, i.currency, i.amount, a);
  }

  lemma OneLine(account: int, currency: string, amount: real, a: int)
    ensures Sum([Plain(account, currency, amount)], LineUnits(a)) == if a == account then amount else 0.0
  {
    assert [Plain(account, currency, amount)] == [] + [Plain(account, currency, amount)];
    SumAppend([], Plain(account, currency, amount), LineUnits(a));
  }

  /** The transaction that paid an invoice, split by its items, takes from its
      one category what they name for others and gives each its own, from its
      day on; unsplit, the books stay as they are. */
  lemma EnrichMoves(w: World, b: Book, i: Info, items: seq<Item>, t: Txn, lines: Option<seq<Line>>, b1: Book,
      a: int, on: int)
    requires KeysKnown(w, b) && Ordered(b) && t in b.txns && !FxAccount(b, a)
    requires EnrichedBy(w, b, i, items, t.id, lines, b1)
    ensures on < t.date || lines.None? ==> UnitsAt(b1, a, on) == UnitsAt(b, a, on)
    ensures on >= t.date && lines.Some? ==>
      exists k: nat :: PlainPurchase(b, t.postings, i.currency, i.amount, k) &&
        UnitsAt(b1, a, on) == UnitsAt(b, a, on) + Sum(items, ItemOf(Some(t.postings[k].account), a)) -
          (if a == t.postings[k].account then Sum(items, Leaving(Some(t.postings[k].account))) else 0.0)
  {
    hide Update, Sum, Unit, LineUnits, UnitsAt, Admits, SplitInPlace, GroupsOf, OnlyCategory, Splits;
    StoredAt(b, t);
    if lines.Some? {
      UpdateMoves(w, b, t, t.date, lines.value, a, on);
      SplitHow(b, t.postings, i.currency, i.amount, items, lines);
      var k: nat, groups, rest :| SharedOut(b, t.postings, i.currency, i.amount, items, k, groups, rest) &&
        lines.value == SplitInPlace(t.postings, k, groups, rest);
      SplitMoves(t.postings, k, items, groups, rest, a);
      assert PlainPurchase(b, t.postings, i.currency, i.amount, k);
    }
  }

  // ----- which rows an acceptance decides -----

  /** Waits to be settled with a row: the duplicate it was proposed as. */
  predicate SettlesWith(r: Row, id: int) {
    r.status.IsPending? && (r.info.kind.TransactionRow? || r.info.kind.TradeRow?) &&
    r.found.proposal.AsDuplicate? && r.found.row == Some(id)
  }

  function Accepts(r: Row, t: int): Row {
    r.(status := IsAccepted, txn := Some(t))
  }

  /** The row and its waiting duplicates take the transaction; no other row
      changes. */
  lemma AloneIs(q: Queue, id: int, t: int, x: int)
    requires Waiting(q, id) && x in q.rows
    ensures x in AcceptedAlone(q, id, t).rows && AcceptedAlone(q, id, t).rows.Keys == q.rows.Keys
    ensures AcceptedAlone(q, id, t).rows[x] ==
      if x == id || SettlesWith(q.rows[x], id) then Accepts(q.rows[x], t) else q.rows[x]
  {
  }

  /** For a transfer, so does the other side; its own duplicates do not. */
  lemma BothAre(q: Queue, id: int, other: int, t: int, x: int)
    requires Waiting(q, id) && Waiting(q, other) && x in q.rows
    ensures x in AcceptedTransfer(q, id, other, t).rows && AcceptedTransfer(q, id, other, t).rows.Keys == q.rows.Keys
    ensures AcceptedTransfer(q, id, other, t).rows[x] ==
      if x == id || x == other || SettlesWith(q.rows[x], id) then Accepts(q.rows[x], t) else q.rows[x]
  {
  }

  /** Whatever a transaction row is accepted as, the rows decided are these. */
  lemma RowsDecided(w: World, b: Book, q: Queue, ss: Sources, id: int, category: Option<int>, x: int)
    requires Waiting(q, id) && AccountOf(ss, q.rows[id]).Some? && x in q.rows
    requires !WaitsForRow(q.rows[id], category) && !MatchGone(q.rows[id], category)
    requires BookedRow(w, b, q, ss, id, category).Ok?
    ensures var k, r := BookedRow(w, b, q, ss, id, category).value, q.rows[id];
      x in k.queue.rows && k.queue.rows[x] ==
        if x == id || SettlesWith(q.rows[x], id) ||
           (category.None? && r.found.proposal.AsTransfer? && r.found.row == Some(x))
        then Accepts(q.rows[x], k.txn) else q.rows[x]
  {
    hide AcceptedAlone, AcceptedTransfer, CreateTx, Update, TransferLines, ClearsLines, SettlesWith;
    var k := BookedRow(w, b, q, ss, id, category).value;
    AloneIs(q, id, k.txn, x);
    if Chosen(q.rows[id], category).AsTransfer? {
      BothAre(q, id, q.rows[id].found.row.value, k.txn, x);
    }
  }

  // ----- which rows are matched again -----

  /** Booking a trade has the waiting bank rows of its settlement account, at
      most five days off, matched again, each in its turn. */
  lemma SettlementRows(q: Queue, ss: Sources, account: int, on: int, x: int)
    requires Numbered(q)
    ensures x in OnAccountNear(q, ss, account, on) <==>
      Waiting(q, x) && q.rows[x].info.kind.TransactionRow? && AccountOf(ss, q.rows[x]) == Some(account) &&
      on - 5 <= q.rows[x].info.date <= on + 5
    ensures InTurn(q, OnAccountNear(q, ss, account, on))
  {
    ListedInTurn(q, x => Waiting(q, x) && q.rows[x].info.kind.TransactionRow? &&
                         AccountOf(ss, q.rows[x]) == Some(account) &&
                         Within(q.rows[x].info.date, on, SETTLEMENT_WINDOW, SETTLEMENT_WINDOW), q.next);
  }

  /** Of the waiting invoices the first five hundred are, in turn: the others
      come after every one of them. */
  lemma InvoiceTurn(q: Queue, x: int, y: int)
    requires Numbered(q) && Waiting(q, x) && q.rows[x].info.kind.InvoiceRow?
    ensures InTurn(q, WaitingInvoices(q)) && |WaitingInvoices(q)| <= 500
    ensures x in WaitingInvoices(q) || (|WaitingInvoices(q)| == 500 && (y in WaitingInvoices(q) ==> Precedes(q, y, x)))
  {
    hide Listed, Precedes;
    var all := Listed(q, x => Waiting(q, x) && q.rows[x].info.kind.InvoiceRow?, q.next);
    ListedInTurn(q, x => Waiting(q, x) && q.rows[x].info.kind.InvoiceRow?, q.next);
    assert x in all;
    var j :| 0 <= j < |all| && all[j] == x;
    if |all| > 500 && j < 500 {
      assert all[..500][j] == x;
    }
    if x !in WaitingInvoices(q) && y in WaitingInvoices(q) {
      var i :| 0 <= i < 500 && WaitingInvoices(q)[i] == y;
      assert all[i] == y && all[..500] == WaitingInvoices(q);
    }
  }
}
