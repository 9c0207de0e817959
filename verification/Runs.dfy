// Whole runs: any sequence of the operations that write a book. The queue,
// trades, invoices and balance adjustments write only through createTx and
// updateTx, whatever lines they build, so QueueCreate and Update stand for
// all of them.
module Runs {
  import opened Decimals
  import opened Sums
  import opened Core
  import opened Lines
  import opened Journal
  import opened Rebase
  import Statements

  datatype Op =
    | DoCreate(date: int, lines: seq<Line>)
    | QueueCreate(date: int, lines: seq<Line>)
    | DoUpdate(id: int, date: int, lines: seq<Line>)
    | DoDelete(id: int)
    | DoOpen(input: AccountInput)
    | ChangeBase(to: string)

  ghost function Attempt(w: World, b: Book, op: Op): Result<Book>
    requires Sound(w, b)
  {
    match op
    case DoCreate(date, lines) => Create(w, b, date, lines)
    case QueueCreate(date, lines) => CreateTx(w, b, date, lines)
    case DoUpdate(id, date, lines) => Update(w, b, id, date, lines)
    case DoDelete(id) => Delete(b, id)
    case DoOpen(input) => OpenAccount(w, b, input)
    case ChangeBase(to) => Rebased(w, b, to)
  }

  /** A failed operation leaves the book as it was. */
  ghost function Apply(w: World, b: Book, op: Op): Book
    requires Sound(w, b)
  {
    match Attempt(w, b, op)
    case Ok(b1) => b1
    case Err(_) => b
  }

  lemma StepSound(w: World, b: Book, op: Op)
    requires Sound(w, b)
    ensures Sound(w, Apply(w, b, op))
  {
    hide Sound, CreateTx, Update, Delete, OpenAccount, Rebased;
    if Attempt(w, b, op).Ok? {
      match op {
        case DoCreate(date, lines) => CreateTxSound(w, b, date, lines);
        case QueueCreate(date, lines) => CreateTxSound(w, b, date, lines);
        case DoUpdate(id, date, lines) => UpdateSound(w, b, id, date, lines);
        case DoDelete(id) => DeleteSound(w, b, id);
        case DoOpen(input) => OpenAccountSound(w, b, input);
        case ChangeBase(to) => RebaseSound(w, b, to);
      }
    }
  }

  ghost function Run(w: World, b: Book, ops: seq<Op>): (r: Book)
    requires Sound(w, b)
    ensures Sound(w, r)
  {
    if |ops| == 0 then b else
      var before := Run(w, b, ops[..|ops| - 1]);
      StepSound(w, before, ops[|ops| - 1]);
      Apply(w, before, ops[|ops| - 1])
  }

  /** Every stored transaction of every run has at least two postings whose
      base amounts sum to zero, each on an account of the book, and every
      posting in the base currency has its amount as its base amount. */
  lemma EveryRunBalances(w: World, b: Book, ops: seq<Op>)
    requires Sound(w, b)
    ensures var r := Run(w, b, ops);
      forall t :: t in r.txns ==>
        |t.postings| >= 2 && Sum(t.postings, Base()) == 0.0 &&
        forall p :: p in t.postings ==> p.account in r.accounts && (p.commodity == r.base ==> p.base == p.amount)
  {
    hide Run;
    var r := Run(w, b, ops);
    forall t | t in r.txns ensures |t.postings| >= 2 && Sum(t.postings, Base()) == 0.0 &&
        forall p :: p in t.postings ==> p.account in r.accounts && (p.commodity == r.base ==> p.base == p.amount)
    {
      assert SoundTxn(w, r, t);
      assert forall p :: p in t.postings ==> Proper(w, r, p);
    }
  }

  // ----- the lock date -----

  predicate Checked(op: Op) {
    !op.QueueCreate?
  }

  lemma UptoReplaced(txns: seq<Txn>, i: nat, t: Txn, on: int)
    requires i < |txns| && txns[i].date > on && t.date > on
    ensures Upto(txns[i := t], on) == Upto(txns, on)
  {
    assert txns == txns[..i] + [txns[i]] + txns[i + 1..];
    assert txns[i := t] == txns[..i] + [t] + txns[i + 1..];
    UptoConcat(txns[..i] + [txns[i]], txns[i + 1..], on);
    UptoConcat(txns[..i], [txns[i]], on);
    UptoConcat(txns[..i] + [t], txns[i + 1..], on);
    UptoConcat(txns[..i], [t], on);
    UptoOne(t, on);
    UptoOne(txns[i], on);
  }

  lemma UptoOne(t: Txn, on: int)
    ensures Upto([t], on) == if t.date <= on then t.postings else []
  {
    assert [t][..0] == [];
  }

  lemma UptoRemoved(txns: seq<Txn>, i: nat, on: int)
    requires i < |txns| && txns[i].date > on
    ensures Upto(txns[..i] + txns[i + 1..], on) == Upto(txns, on)
  {
    assert txns == txns[..i] + [txns[i]] + txns[i + 1..];
    UptoConcat(txns[..i] + [txns[i]], txns[i + 1..], on);
    UptoConcat(txns[..i], [txns[i]], on);
    UptoConcat(txns[..i], txns[i + 1..], on);
    UptoOne(txns[i], on);
  }

  lemma UptoAppended(txns: seq<Txn>, t: Txn, on: int)
    ensures Upto(txns + [t], on) == Upto(txns, on) + (if t.date <= on then t.postings else [])
  {
    UptoConcat(txns, [t], on);
    UptoOne(t, on);
  }

  lemma CreateTxHistory(w: World, b: Book, date: int, lines: seq<Line>, on: int)
    requires CreateTx(w, b, date, lines).Ok?
    ensures var r := CreateTx(w, b, date, lines).value;
      r.lock == b.lock && |r.txns| == |b.txns| + 1 &&
      (var ps := r.txns[|b.txns|].postings;
       r.txns == b.txns + [Txn(b.nextId, date, ps)] &&
       Upto(r.txns, on) == Upto(b.txns, on) + (if date <= on then ps else []))
  {
    hide Prepare, Upto;
    var r := CreateTx(w, b, date, lines).value;
    var ps := r.txns[|b.txns|].postings;
    assert r.txns == b.txns + [Txn(b.nextId, date, ps)];
    UptoAppended(b.txns, Txn(b.nextId, date, ps), on);
  }

  lemma StepFrozen(w: World, b: Book, op: Op, on: int)
    requires Sound(w, b) && b.lock.Some? && on <= b.lock.value && Checked(op)
    ensures Apply(w, b, op).lock == b.lock && Upto(Apply(w, b, op).txns, on) == Upto(b.txns, on)
  {
    hide Sound, Upto, Prepare, ResolveLine, NewAccount, CreateTx, Gaps, RebasedTxns;
    if Attempt(w, b, op).Ok? {
      match op {
        case DoCreate(date, lines) =>
          CreateTxHistory(w, b, date, lines, on);
        case DoUpdate(id, date, lines) =>
          var i := IndexOf(b.txns, id);
          var t := Apply(w, b, op).txns[i];
          UptoReplaced(b.txns, i, t, on);
        case DoDelete(id) =>
          UptoRemoved(b.txns, IndexOf(b.txns, id), on);
        case DoOpen(input) =>
          var r := Apply(w, b, op);
          if |r.txns| > |b.txns| {
            var t := r.txns[|b.txns|];
            assert r.txns == b.txns + [t];
            UptoAppended(b.txns, t, on);
          } else {
            assert r.txns == b.txns;
          }
        case ChangeBase(to) =>
      }
    }
  }

  /** With the lock date fixed, no run of the checked operations changes a
      posting dated on or before it, so no sum as of such a date moves. */
  lemma {:induction false} LockFreezesHistory(w: World, b: Book, ops: seq<Op>, on: int)
    requires Sound(w, b) && b.lock.Some? && on <= b.lock.value
    requires forall op :: op in ops ==> Checked(op)
    ensures Run(w, b, ops).lock == b.lock && Upto(Run(w, b, ops).txns, on) == Upto(b.txns, on)
  {
    hide Sound, Upto, Apply;
    if |ops| > 0 {
      LockFreezesHistory(w, b, ops[..|ops| - 1], on);
      StepFrozen(w, Run(w, b, ops[..|ops| - 1]), ops[|ops| - 1], on);
    }
  }

  /** What the lines of a new transaction are read against: the book with its
      empty header. */
  function NewContext(w: World, b: Book, date: int): Context {
    Context(w, WithPostings(Headed(b, date), |b.txns|, date, []), date, b.nextId)
  }

  lemma CreatedIff(w: World, b: Book, date: int, lines: seq<Line>)
    ensures CreateTx(w, b, date, lines).Ok? <==> Admits(NewContext(w, b, date), lines)
  {
    hide Admits, Prepare;
    PreparedIff(NewContext(w, b, date), lines);
  }

  /** The queue's own writes are not checked in the service: one keeps the
      locked history exactly when it is dated after the lock or its lines are
      not acceptable. */
  lemma QueueCreateHistory(w: World, b: Book, date: int, lines: seq<Line>)
    requires Sound(w, b) && b.lock.Some?
    ensures var r := Apply(w, b, QueueCreate(date, lines));
      Upto(r.txns, b.lock.value) == Upto(b.txns, b.lock.value) <==>
      date > b.lock.value || !Admits(NewContext(w, b, date), lines)
  {
    hide Sound, Upto, CreateTx, Admits;
    CreatedIff(w, b, date, lines);
    if CreateTx(w, b, date, lines).Ok? {
      var r := CreateTx(w, b, date, lines).value;
      CreateTxHistory(w, b, date, lines, b.lock.value);
      CreateTxSound(w, b, date, lines);
      LastSound(w, r);
    }
  }

  lemma LastSound(w: World, b: Book)
    requires Sound(w, b) && |b.txns| > 0
    ensures |b.txns[|b.txns| - 1].postings| >= 2
  {
    assert SoundTxn(w, b, b.txns[|b.txns| - 1]);
  }

  // ----- amounts on their grids -----

  predicate TxnPrecise(w: World, base: string, t: Txn) {
    forall p :: p in t.postings ==> Precise(w, base, p)
  }

  lemma PreciseReplaced(w: World, b: Book, i: nat, date: int, ps: seq<Posting>)
    requires AllPrecise(w, b) && i < |b.txns|
    requires forall p :: p in ps ==> Precise(w, b.base, p)
    ensures AllPrecise(w, WithPostings(b, i, date, ps))
  {
    hide Precise;
    var b1 := WithPostings(b, i, date, ps);
    forall t | t in b1.txns ensures TxnPrecise(w, b.base, t) {
      assert t == Txn(b.txns[i].id, date, ps) || t in b.txns;
    }
    assert forall t, p :: t in b1.txns && p in t.postings ==> TxnPrecise(w, b.base, t);
  }

  lemma BasesReplaced(w: World, b: Book, i: nat, date: int, ps: seq<Posting>)
    requires BasePrecise(w, b) && i < |b.txns|
    requires forall p :: p in ps ==> Precise(w, b.base, p)
    ensures BasePrecise(w, WithPostings(b, i, date, ps))
  {
    hide OnGrid;
    var b1 := WithPostings(b, i, date, ps);
    forall t, p | t in b1.txns && p in t.postings ensures OnGrid(p.base, w.Places(b.base)) {
      assert t == Txn(b.txns[i].id, date, ps) || t in b.txns;
      assert t !in b.txns ==> Precise(w, b.base, p);
    }
  }

  lemma WrittenPrecise(w: World, b: Book, i: nat, date: int, lines: seq<Line>)
    requires KeysKnown(w, b) && BasePrecise(w, b) && i < |b.txns| && Written(w, b, i, date, lines).Ok?
    ensures BasePrecise(w, Written(w, b, i, date, lines).value)
    ensures AllPrecise(w, b) ==> AllPrecise(w, Written(w, b, i, date, lines).value)
  {
    hide Precise, OnGrid, Prepare, ResolveAll, AllPrecise, BasePrecise;
    BasesReplaced(w, b, i, date, []);
    var c := Context(w, WithPostings(b, i, date, []), date, b.txns[i].id);
    PreparedPrecise(c, lines);
    BasesReplaced(w, b, i, date, Prepare(c, lines).value);
    if AllPrecise(w, b) {
      PreciseReplaced(w, b, i, date, Prepare(c, lines).value);
    }
  }

  lemma HeadedPrecise(w: World, b: Book, date: int)
    ensures AllPrecise(w, b) ==> AllPrecise(w, Headed(b, date))
    ensures BasePrecise(w, b) ==> BasePrecise(w, Headed(b, date))
  {
    hide Precise, OnGrid;
    var b1 := Headed(b, date);
    assert forall t :: t in b1.txns ==> t in b.txns || t.postings == [];
  }

  /** The opening balance an account would get, if the line resolves. */
  function OpeningBase(w: World, b: Book, account: int, o: Opening): Result<real>
    requires account in b.accounts
  {
    var p :- ResolveLine(Context(w, b, o.date, 0), OpeningLine(b, account, o));
    Ok(p.base)
  }

  /** Refused anyway, or its base amount fits what the opening balances account
      holds. */
  predicate OpeningFits(w: World, b: Book, account: int, o: Opening)
    requires account in b.accounts && OpeningReady(b)
  {
    Locked(b, o.date) || OPENING_BALANCES !in b.keys || OpeningBase(w, b, account, o).Err? ||
    OnGrid(OpeningBase(w, b, account, o).value, w.Places(b.accounts[b.keys[OPENING_BALANCES]].commodity.value))
  }

  lemma CounterPrecise(w: World, b: Book, date: int, p: Posting, equity: int, held: string)
    requires BasePrecise(w, b) && Precise(w, b.base, p)
    ensures var r := WithPostings(Headed(b, date), |b.txns|, date, [p, Posting(equity, held, -p.base, -p.base)]);
      BasePrecise(w, r) && (AllPrecise(w, r) <==> AllPrecise(w, b) && OnGrid(p.base, w.Places(held)))
  {
    hide OnGrid;
    var counter := Posting(equity, held, -p.base, -p.base);
    var r := WithPostings(Headed(b, date), |b.txns|, date, [p, counter]);
    assert r.txns == b.txns + [Txn(b.nextId, date, [p, counter])];
    GridClosed(p.base, p.base, w.Places(b.base));
    forall t, q | t in r.txns && q in t.postings ensures OnGrid(q.base, w.Places(b.base)) {
      assert t in b.txns || q == p || q == counter;
    }
    if OnGrid(p.base, w.Places(held)) {
      GridClosed(p.base, p.base, w.Places(held));
    }
    if AllPrecise(w, r) {
      assert r.txns[|b.txns|] in r.txns && counter in r.txns[|b.txns|].postings;
      assert Precise(w, b.base, counter);
      GridClosed(-p.base, -p.base, w.Places(held));
      assert forall t :: t in b.txns ==> t in r.txns;
    }
  }

  /** An opening balance keeps the book precise exactly when the base amount
      its line resolves to fits the commodity of the opening balances account:
      always, when that has no fewer places than the base currency. */
  lemma OpeningPrecise(w: World, b: Book, account: int, o: Opening)
    requires Sound(w, b) && AllPrecise(w, b) && account in b.accounts && PostOpening(w, b, account, o).Ok?
    ensures AllPrecise(w, PostOpening(w, b, account, o).value) <==> OpeningFits(w, b, account, o)
    ensures BasePrecise(w, PostOpening(w, b, account, o).value)
    ensures w.Places(b.base) <= w.Places(b.accounts[b.keys[OPENING_BALANCES]].commodity.value) ==>
      OpeningFits(w, b, account, o)
  {
    hide ResolveLine, OnGrid, OpeningLine, SoundTxn, AllPrecise, BasePrecise;
    PreciseBases(w, b);
    OpeningPosted(w, b, account, o);
    var p := ResolveLine(Context(w, b, o.date, 0), OpeningLine(b, account, o)).value;
    var held := b.accounts[b.keys[OPENING_BALANCES]].commodity.value;
    if w.Places(b.base) <= w.Places(held) {
      GridFiner(p.base, w.Places(b.base), w.Places(held));
    }
  }

  lemma OpeningPosted(w: World, b: Book, account: int, o: Opening)
    requires Sound(w, b) && BasePrecise(w, b) && account in b.accounts && PostOpening(w, b, account, o).Ok?
    ensures var r := PostOpening(w, b, account, o).value;
      var p := ResolveLine(Context(w, b, o.date, 0), OpeningLine(b, account, o)).value;
      var held := b.accounts[b.keys[OPENING_BALANCES]].commodity.value;
      BasePrecise(w, r) && Precise(w, b.base, p) &&
      (AllPrecise(w, r) <==> AllPrecise(w, b) && OnGrid(p.base, w.Places(held)))
  {
    hide ResolveLine, OnGrid, OpeningLine, SoundTxn, AllPrecise, BasePrecise;
    var c := Context(w, b, o.date, 0);
    var l := OpeningLine(b, account, o);
    ResolvedProper(c, l);
    var equity := b.keys[OPENING_BALANCES];
    CounterPrecise(w, b, o.date, ResolveLine(c, l).value, equity, b.accounts[equity].commodity.value);
  }

  lemma AccountSound(w: World, b: Book, input: AccountInput)
    requires Sound(w, b) && NewAccount(w, b, input).Ok?
    ensures Sound(w, WithAccount(b, NewAccount(w, b, input).value))
  {
    var none := input.(opening := None);
    OpenAccountSound(w, b, none);
    var a, a' := NewAccount(w, b, input).value, NewAccount(w, b, none).value;
    assert a == a';
  }

  /** Opening an account fits unless a non-zero opening balance does not: none
      at all, or a zero one, always does. */
  predicate OpenFits(w: World, b: Book, input: AccountInput)
    requires OpeningReady(b) && AccountsKept(b)
  {
    NewAccount(w, b, input).Ok? && input.opening.Some? && input.opening.value.amount != 0.0 ==>
      OpeningFits(w, WithAccount(b, NewAccount(w, b, input).value), b.nextAccount, input.opening.value)
  }

  lemma OpenAccountPrecise(w: World, b: Book, input: AccountInput)
    requires Sound(w, b) && BasePrecise(w, b)
    ensures BasePrecise(w, Apply(w, b, DoOpen(input)))
    ensures AllPrecise(w, b) ==> (AllPrecise(w, Apply(w, b, DoOpen(input))) <==> OpenFits(w, b, input))
  {
    hide ResolveLine, OpeningLine, Precise, OnGrid, NewAccount, SoundTxn, Balanced;
    if NewAccount(w, b, input).Ok? {
      var b1 := WithAccount(b, NewAccount(w, b, input).value);
      AccountSound(w, b, input);
      if input.opening.Some? && input.opening.value.amount != 0.0 {
        if PostOpening(w, b1, b.nextAccount, input.opening.value).Ok? {
          OpeningPosted(w, b1, b.nextAccount, input.opening.value);
        }
      }
    }
  }

  /** Nothing but an opening balance that does not fit makes a precise book
      imprecise. */
  ghost predicate Fits(w: World, b: Book, op: Op)
    requires Sound(w, b)
  {
    op.DoOpen? ==> OpenFits(w, b, op.input)
  }

  lemma DeletedPrecise(w: World, b: Book, id: int)
    requires Delete(b, id).Ok?
    ensures AllPrecise(w, b) ==> AllPrecise(w, Delete(b, id).value)
    ensures BasePrecise(w, b) ==> BasePrecise(w, Delete(b, id).value)
  {
    hide Precise, OnGrid;
    var b1 := Delete(b, id).value;
    assert forall t :: t in b1.txns ==> t in b.txns;
  }

  lemma StepPrecise(w: World, b: Book, op: Op)
    requires Sound(w, b) && AllPrecise(w, b)
    ensures AllPrecise(w, Apply(w, b, op)) <==> Fits(w, b, op)
  {
    hide Precise, Prepare, OpenAccount, Rebased, SoundTxn, Written, AllPrecise, BasePrecise, OpenFits, Delete, NewAccount;
    PreciseBases(w, b);
    if op.DoOpen? {
      OpenAccountPrecise(w, b, op.input);
    } else if Attempt(w, b, op).Ok? {
      match op {
        case DoCreate(date, lines) =>
          HeadedPrecise(w, b, date);
          WrittenPrecise(w, Headed(b, date), |b.txns|, date, lines);
        case QueueCreate(date, lines) =>
          HeadedPrecise(w, b, date);
          WrittenPrecise(w, Headed(b, date), |b.txns|, date, lines);
        case DoUpdate(id, date, lines) =>
          WrittenPrecise(w, b, IndexOf(b.txns, id), date, lines);
        case DoDelete(id) =>
          DeletedPrecise(w, b, id);
        case ChangeBase(to) =>
          RebasePrecise(w, b, to);
      }
    }
  }

  ghost predicate AlwaysPrecise(w: World, b: Book, ops: seq<Op>)
    requires Sound(w, b)
  {
    AllPrecise(w, Run(w, b, ops)) && (|ops| > 0 ==> AlwaysPrecise(w, b, ops[..|ops| - 1]))
  }

  ghost predicate AlwaysFits(w: World, b: Book, ops: seq<Op>)
    requires Sound(w, b)
  {
    |ops| > 0 ==>
      Fits(w, Run(w, b, ops[..|ops| - 1]), ops[|ops| - 1]) && AlwaysFits(w, b, ops[..|ops| - 1])
  }

  /** A run keeps every amount on its commodity's grid and every base amount on
      the base currency's, at every moment, exactly when it starts so and every
      opening balance in it fits; rebases, and accounts opened without a
      balance, always do. */
  lemma {:induction false} RunPrecise(w: World, b: Book, ops: seq<Op>)
    requires Sound(w, b)
    ensures AlwaysPrecise(w, b, ops) <==> AllPrecise(w, b) && AlwaysFits(w, b, ops)
  {
    hide Sound, Precise, Apply, Fits, AllPrecise;
    if |ops| > 0 {
      RunPrecise(w, b, ops[..|ops| - 1]);
      if AlwaysPrecise(w, b, ops[..|ops| - 1]) {
        AlwaysNow(w, b, ops[..|ops| - 1]);
        StepPrecise(w, Run(w, b, ops[..|ops| - 1]), ops[|ops| - 1]);
      }
    }
  }

  lemma AlwaysNow(w: World, b: Book, ops: seq<Op>)
    requires Sound(w, b) && AlwaysPrecise(w, b, ops)
    ensures AllPrecise(w, Run(w, b, ops))
  {
  }

  // ----- the books the exact statements are about -----

  /** What was booked in the new base currency is on its grid: a rebase takes
      those amounts over as base amounts without rounding them. */
  predicate Rebasable(w: World, b: Book, to: string) {
    forall t, p :: t in b.txns && p in t.postings && p.commodity == to ==> OnGrid(p.amount, w.Places(to))
  }

  ghost predicate StaysExact(w: World, b: Book, op: Op)
    requires Sound(w, b)
  {
    op.ChangeBase? && Rebases(w, b, op.to) ==> Rebasable(w, b, op.to)
  }

  /** Exact books stay exact under every operation, an opening balance that
      does not fit included, except a rebase to a currency in which the books
      hold an amount off its grid. */
  lemma StepExact(w: World, b: Book, op: Op)
    requires Statements.Exact(w, b)
    ensures Statements.Exact(w, Apply(w, b, op)) <==> StaysExact(w, b, op)
  {
    hide Sound, Precise, Prepare, OpenAccount, Rebased, Rebases, Written, AllPrecise, BasePrecise, Rebasable, Delete, OpenFits;
    StepSound(w, b, op);
    if op.ChangeBase? {
      RebasesIff(w, b, op.to);
    }
    SoundKeys(w, b);
    if op.DoOpen? {
      OpenAccountPrecise(w, b, op.input);
    } else if Attempt(w, b, op).Ok? {
      match op {
        case DoCreate(date, lines) =>
          HeadedPrecise(w, b, date);
          WrittenPrecise(w, Headed(b, date), |b.txns|, date, lines);
        case QueueCreate(date, lines) =>
          HeadedPrecise(w, b, date);
          WrittenPrecise(w, Headed(b, date), |b.txns|, date, lines);
        case DoUpdate(id, date, lines) =>
          WrittenPrecise(w, b, IndexOf(b.txns, id), date, lines);
        case DoDelete(id) =>
          DeletedPrecise(w, b, id);
        case ChangeBase(to) =>
          RebaseBases(w, b, to);
      }
    }
  }

  lemma SoundKeys(w: World, b: Book)
    requires Sound(w, b)
    ensures KeysKnown(w, b)
  {
  }

  ghost predicate AlwaysExact(w: World, b: Book, ops: seq<Op>)
    requires Sound(w, b)
  {
    Statements.Exact(w, Run(w, b, ops)) && (|ops| > 0 ==> AlwaysExact(w, b, ops[..|ops| - 1]))
  }

  ghost predicate AlwaysStays(w: World, b: Book, ops: seq<Op>)
    requires Sound(w, b)
  {
    |ops| > 0 ==>
      StaysExact(w, Run(w, b, ops[..|ops| - 1]), ops[|ops| - 1]) && AlwaysStays(w, b, ops[..|ops| - 1])
  }

  /** So the exact statements apply at every moment of a run exactly when it
      starts exact and each rebase finds the new currency's amounts on their
      grid; a run without a rebase always qualifies. */
  lemma {:induction false} RunExact(w: World, b: Book, ops: seq<Op>)
    requires Sound(w, b)
    ensures AlwaysExact(w, b, ops) <==> Statements.Exact(w, b) && AlwaysStays(w, b, ops)
  {
    hide Sound, Apply, StaysExact, Statements.Exact;
    if |ops| > 0 {
      RunExact(w, b, ops[..|ops| - 1]);
      if AlwaysExact(w, b, ops[..|ops| - 1]) {
        ExactNow(w, b, ops[..|ops| - 1]);
        StepExact(w, Run(w, b, ops[..|ops| - 1]), ops[|ops| - 1]);
      }
    }
  }

  lemma ExactNow(w: World, b: Book, ops: seq<Op>)
    requires Sound(w, b) && AlwaysExact(w, b, ops)
    ensures Statements.Exact(w, Run(w, b, ops))
  {
  }

  /** A rebase leaves base amounts on their grid exactly when the amounts it
      takes over are. */
  lemma RebaseBases(w: World, b: Book, to: string)
    requires Rebased(w, b, to).Ok?
    ensures BasePrecise(w, Rebased(w, b, to).value) <==> Rebasable(w, b, to)
  {
    hide Gaps, Rebased, OnGrid, Residue;
    var b1 := Rebased(w, b, to).value;
    RebasedHeader(w, b, to);
    if Rebasable(w, b, to) {
      forall k, i | 0 <= k < |b1.txns| && 0 <= i < |b1.txns[k].postings|
        ensures OnGrid(b1.txns[k].postings[i].base, w.Places(to))
      {
        RebasedTxnKeeps(w, b, to, k);
        assert b.txns[k] in b.txns;
        LegBases(w, b.base, to, b.txns[k]);
      }
    }
    if BasePrecise(w, b1) {
      forall t, p | t in b.txns && p in t.postings && p.commodity == to ensures OnGrid(p.amount, w.Places(to)) {
        var k :| 0 <= k < |b.txns| && b.txns[k] == t;
        var i :| 0 <= i < |t.postings| && t.postings[i] == p;
        RebasedTxnKeeps(w, b, to, k);
        assert b1.txns[k] in b1.txns && b1.txns[k].postings[i] in b1.txns[k].postings;
      }
    }
  }

  lemma LegBases(w: World, from: string, to: string, t: Txn)
    requires forall p :: p in t.postings && p.commodity == to ==> OnGrid(p.amount, w.Places(to))
    ensures forall i :: 0 <= i < |t.postings| ==> OnGrid(NewBase(w, from, to, t.date, t.postings[i]), w.Places(to))
    ensures OnGrid(Residue(w, from, to, t), w.Places(to))
  {
    hide OnGrid, NewBase;
    var legs := Translated(w, from, to, t.date, t.postings);
    forall i | 0 <= i < |t.postings| ensures OnGrid(NewBase(w, from, to, t.date, t.postings[i]), w.Places(to)) {
      assert t.postings[i] in t.postings;
      NewBasePrecise(w, from, to, t.date, t.postings[i]);
    }
    SumOnGrid(legs, Base(), w.Places(to));
    GridClosed(Sum(legs, Base()), Sum(legs, Base()), w.Places(to));
  }

  // ----- the opening balance after a change of base -----

  function YenWorld(): World {
    World(map["JPY" := Commodity(Currency, 0), "USD" := Commodity(Currency, 2)], [])
  }

  function YenBook(): Book {
    Book("JPY", None, map[1 := Account(None, Equity, Some("JPY"), true, false, Operating, false, false)],
         map[OPENING_BALANCES := 1], [], 1, 2)
  }

  function DollarOpening(): Op {
    DoOpen(AccountInput(None, Some(Asset), Some("USD"), true, true, Operating, false, Some(Opening(0.5, None, 0))))
  }

  function DollarBook(): Book {
    YenBook().(base := "USD")
  }

  function StaleBook(): Book {
    DollarBook().(
      accounts := map[1 := Account(None, Equity, Some("JPY"), true, false, Operating, false, false),
                      2 := Account(None, Asset, Some("USD"), true, true, Operating, false, false)],
      txns := [Txn(1, 0, [Posting(2, "USD", 0.5, 0.5), Posting(1, "JPY", -0.5, -0.5)])], nextId := 2, nextAccount := 3)
  }

  lemma RebasedToDollars()
    ensures Sound(YenWorld(), YenBook()) && Sound(YenWorld(), DollarBook())
    ensures Run(YenWorld(), YenBook(), [ChangeBase("USD")]) == DollarBook()
  {
    hide Rebased;
    var w, b := YenWorld(), YenBook();
    assert [ChangeBase("USD")][..0] == [];
    NothingToRebase(w, b, "USD");
  }

  lemma NothingToRebase(w: World, b: Book, to: string)
    requires b.txns == [] && Refusal(w, b, to).None?
    ensures Rebased(w, b, to) == Ok(b.(base := to))
  {
    assert Gaps(w, b.base, to, b.txns) == {};
    assert RebasedTxns(w, b.base, to, AccountByKey(b, FX_GAIN_LOSS), b.txns) == b.txns;
  }

  lemma HalfPrecise()
    ensures HasPrecision(0.5, 2) && !OnGrid(-0.5, 0)
  {
    MultipleFrom(0.5, 50, 100.0);
    assert Pow10(2) == 100.0;
    RoundIdentity(0.5, 2);
    if OnGrid(-0.5, 0) {
      GridGap(-0.5, 0);
      assert false;
    }
  }

  lemma DollarsOpened()
    requires Sound(YenWorld(), DollarBook())
    ensures Apply(YenWorld(), DollarBook(), DollarOpening()) == StaleBook()
  {
    hide Sound, CostBasisOf, Round;
    var w, b := YenWorld(), DollarBook();
    HalfPrecise();
    var input := DollarOpening().input;
    var b1 := WithAccount(b, NewAccount(w, b, input).value);
    assert ResolveLine(Context(w, b1, 0, 0), OpeningLine(b1, 2, input.opening.value)) == Ok(Posting(2, "USD", 0.5, 0.5));
  }

  /** Not every run keeps amounts precise: a yen book changed to dollars still
      opens balances against a yen account, which then holds half a yen. */
  lemma StaleOpening()
    ensures Sound(YenWorld(), YenBook()) && AllPrecise(YenWorld(), YenBook())
    ensures Run(YenWorld(), YenBook(), [ChangeBase("USD"), DollarOpening()]) == StaleBook()
    ensures !AllPrecise(YenWorld(), StaleBook())
  {
    hide OnGrid, Sound, Apply;
    RebasedToDollars();
    var ops := [ChangeBase("USD"), DollarOpening()];
    assert ops[..1] == [ChangeBase("USD")];
    DollarsOpened();
    HalfPrecise();
    var r := Run(YenWorld(), YenBook(), ops);
    assert r == Apply(YenWorld(), DollarBook(), DollarOpening());
    assert r.txns[0] in r.txns && r.txns[0].postings[1] in r.txns[0].postings;
    assert !Precise(YenWorld(), r.base, r.txns[0].postings[1]);
  }
}
