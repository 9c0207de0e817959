// Which runs keep a book that its own export restores: what each operation
// must not write, and that importing the export then gives the book again at
// every moment.
module Restorable {
  import opened Decimals
  import opened Sums
  import opened Core
  import opened Rates
  import opened Lines
  import opened Journal
  import opened Rebase
  import opened ImportAccounts
  import opened BookFile
  import opened RoundTrip
  import opened Runs

  // ----- the line rules, apart from precision -----

  /** On an account that takes postings and holds the commodity, not zero, and
      the base amount not turned against the amount. */
  predicate Checked(b: Book, p: Posting) {
    p.account in b.accounts && !b.accounts[p.account].placeholder &&
    (b.accounts[p.account].commodity.Some? ==> b.accounts[p.account].commodity.value == p.commodity) &&
    p.amount != 0.0 && Sign(p.base) * Sign(p.amount) >= 0
  }

  predicate PostingsChecked(b: Book, ps: seq<Posting>) {
    forall p :: p in ps ==> Checked(b, p)
  }

  predicate AllChecked(b: Book) {
    forall t :: t in b.txns ==> PostingsChecked(b, t.postings)
  }

  lemma KeepsIff(w: World, b: Book, p: Posting)
    requires Proper(w, b, p) && "" !in w.commodities
    ensures KeepsRules(w, b, p) <==> Precise(w, b.base, p) && Checked(b, p)
  {
    hide HasPrecision, OnGrid;
    RoundIdentity(p.amount, w.Places(p.commodity));
    RoundIdentity(p.base, w.Places(b.base));
  }

  /** The stored postings of a sound book keep the line rules exactly when all
      are precise and checked. */
  lemma RulesKeptIff(w: World, b: Book)
    requires Sound(w, b) && "" !in w.commodities
    ensures RulesKept(w, b, b.txns) <==> AllPrecise(w, b) && AllChecked(b)
  {
    hide KeepsRules, Precise, Checked, Balanced, Proper;
    forall t, p | t in b.txns && p in t.postings
      ensures KeepsRules(w, b, p) <==> Precise(w, b.base, p) && Checked(b, p)
    {
      assert SoundTxn(w, b, t);
      KeepsIff(w, b, p);
    }
    if RulesKept(w, b, b.txns) {
      forall t, p | t in b.txns && p in t.postings ensures Precise(w, b.base, p) && Checked(b, p) {
        var k :| 0 <= k < |b.txns| && b.txns[k] == t;
        var i :| 0 <= i < |t.postings| && t.postings[i] == p;
        assert AllKeep(w, b, b.txns[k].postings) && KeepsRules(w, b, b.txns[k].postings[i]);
      }
    } else {
      var k :| 0 <= k < |b.txns| && !AllKeep(w, b, b.txns[k].postings);
      var i :| 0 <= i < |b.txns[k].postings| && !KeepsRules(w, b, b.txns[k].postings[i]);
      assert b.txns[k] in b.txns && b.txns[k].postings[i] in b.txns[k].postings;
    }
  }

  // ----- what an operation may not write -----

  /** The account of a key, if there is one, takes postings in a commodity. */
  predicate Takes(b: Book, key: string, c: string) {
    key in b.keys && b.keys[key] in b.accounts ==>
      !b.accounts[b.keys[key]].placeholder &&
      (b.accounts[b.keys[key]].commodity.Some? ==> b.accounts[b.keys[key]].commodity.value == c)
  }

  /** Its base amount is not turned against its amount. */
  predicate KeepsSign(c: Context, l: Line) {
    ResolveLine(c, l).Ok? ==> Sign(ResolveLine(c, l).value.base) * Sign(l.amount) >= 0
  }

  /** Refused, or each line keeps its sign and an FX line finds its account. */
  predicate LinesPass(c: Context, lines: seq<Line>) {
    Admits(c, lines) ==>
      (forall l :: l in lines ==> KeepsSign(c, l)) &&
      (Sum(ResolveAll(c, lines).value, Base()) != 0.0 ==> Takes(c.b, FX_GAIN_LOSS, c.b.base))
  }

  /** Refused, or the opening balance is worth something in the base currency,
      of its own sign, and its counter account takes postings. */
  predicate OpeningPasses(w: World, b: Book, account: int, o: Opening)
    requires account in b.accounts && OpeningReady(b)
  {
    Locked(b, o.date) || OPENING_BALANCES !in b.keys || OpeningBase(w, b, account, o).Err? ||
    (OpeningBase(w, b, account, o).value != 0.0 && KeepsSign(Context(w, b, o.date, 0), OpeningLine(b, account, o)) &&
     !b.accounts[b.keys[OPENING_BALANCES]].placeholder)
  }

  /** What the operation writes is checked, or it writes nothing. */
  predicate Passes(w: World, b: Book, op: Op)
    requires Sound(w, b)
  {
    match op
    case DoCreate(date, lines) => Locked(b, date) || LinesPass(NewContext(w, b, date), lines)
    case QueueCreate(date, lines) => LinesPass(NewContext(w, b, date), lines)
    case DoUpdate(id, date, lines) =>
      var i := IndexOf(b.txns, id);
      i == |b.txns| || Locked(b, b.txns[i].date) || Locked(b, date) ||
      LinesPass(Context(w, WithPostings(b, i, date, []), date, id), lines)
    case DoDelete(_) => true
    case DoOpen(input) =>
      NewAccount(w, b, input).Ok? && input.opening.Some? && input.opening.value.amount != 0.0 ==>
        OpeningPasses(w, WithAccount(b, NewAccount(w, b, input).value), b.nextAccount, input.opening.value)
    case ChangeBase(to) => Rebases(w, b, to) && NeedsFx(w, b, to) ==> Takes(b, FX_GAIN_LOSS, to)
  }

  // ----- the lines of a transaction -----

  lemma ResolvedChecked(c: Context, l: Line)
    requires ResolveLine(c, l).Ok?
    ensures Checked(c.b, ResolveLine(c, l).value) <==> KeepsSign(c, l)
  {
    hide HasPrecision, LineBase;
  }

  lemma SignTimes(x: real, r: real, places: nat)
    requires r >= 0.0
    ensures x >= 0.0 ==> Round(Times(x, r), places) >= 0.0
    ensures x <= 0.0 ==> Round(Times(x, r), places) <= 0.0
  {
    hide Round, Times;
    TimesFacts(x, 0.0, r);
    if x >= 0.0 {
      TimesSign(x, r);
    }
    if x <= 0.0 {
      TimesSign(-x, r);
    }
    RoundSign(Times(x, r), places);
  }

  /** Only a negative price given for shares bought, or an average cost below
      zero, turns the sign: money, and a base amount given, never does. */
  lemma MoneyKeepsSign(c: Context, l: Line)
    requires ResolveLine(c, l).Ok?
    requires var p := ResolveLine(c, l).value;
      p.commodity == c.b.base || l.base.Some? || c.w.commodities[p.commodity].kind.Currency?
    ensures KeepsSign(c, l)
  {
    hide HasPrecision, AverageCost, Round, Times, RateOn;
    var p := ResolveLine(c, l).value;
    if p.commodity != c.b.base && l.base.None? {
      RateSign(c.w, p.commodity, c.b.base, c.date);
      SignTimes(l.amount, RateOn(c.w, p.commodity, c.b.base, c.date).value, c.BasePlaces());
    }
  }

  lemma ResolvedAllChecked(c: Context, lines: seq<Line>)
    requires ResolveAll(c, lines).Ok?
    ensures PostingsChecked(c.b, ResolveAll(c, lines).value) <==> forall l :: l in lines ==> KeepsSign(c, l)
  {
    hide ResolveLine, ResolveAll, Proper, Precise, Checked, KeepsSign;
    ResolvedAllProper(c, lines);
    var ps := ResolveAll(c, lines).value;
    forall i | 0 <= i < |lines| ensures Checked(c.b, ps[i]) <==> KeepsSign(c, lines[i]) {
      ResolvedChecked(c, lines[i]);
    }
    if PostingsChecked(c.b, ps) {
      forall l | l in lines ensures KeepsSign(c, l) {
        var i :| 0 <= i < |lines| && lines[i] == l;
        assert ps[i] in ps;
      }
    }
    if forall l :: l in lines ==> KeepsSign(c, l) {
      forall p | p in ps ensures Checked(c.b, p) {
        var i :| 0 <= i < |ps| && ps[i] == p;
        assert lines[i] in lines;
      }
    }
  }

  lemma FxChecked(b: Book, to: string, x: real)
    requires FX_GAIN_LOSS in b.keys && b.keys[FX_GAIN_LOSS] in b.accounts && x != 0.0
    ensures Checked(b, FxLine(b.keys[FX_GAIN_LOSS], to, x)) <==> Takes(b, FX_GAIN_LOSS, to)
  {
  }

  lemma PreparedChecked(c: Context, lines: seq<Line>)
    requires KeysKnown(c.w, c.b) && Prepare(c, lines).Ok?
    ensures PostingsChecked(c.b, Prepare(c, lines).value) <==> LinesPass(c, lines)
  {
    hide ResolveAll, Sum, Unit, Close, Checked, KeepsSign, Takes, Admits, Proper;
    PreparedIff(c, lines);
    ResolvedAllChecked(c, lines);
    PreparedBalances(c, lines);
    var ps, out := ResolveAll(c, lines).value, Prepare(c, lines).value;
    var total := Sum(ps, Base());
    if out != ps {
      var fx := FxLine(c.b.keys[FX_GAIN_LOSS], c.b.base, -total);
      FxChecked(c.b, c.b.base, -total);
      assert forall p :: p in out <==> p in ps || p == fx;
    }
  }

  // ----- one operation -----

  lemma SameChecked(b: Book, r: Book)
    requires r.accounts == b.accounts
    ensures forall p :: Checked(r, p) <==> Checked(b, p)
  {
  }

  lemma ReplacedChecked(b: Book, i: nat, date: int, ps: seq<Posting>)
    requires AllChecked(b) && i < |b.txns|
    ensures AllChecked(WithPostings(b, i, date, ps)) <==> PostingsChecked(b, ps)
  {
    hide Checked;
    var r := WithPostings(b, i, date, ps);
    SameChecked(b, r);
    assert r.txns[i] in r.txns && r.txns[i].postings == ps;
    forall t | t in r.txns ensures t == Txn(b.txns[i].id, date, ps) || t in b.txns {
    }
  }

  lemma HeadedChecked(b: Book, date: int)
    requires AllChecked(b)
    ensures AllChecked(Headed(b, date))
  {
    hide Checked;
    SameChecked(b, Headed(b, date));
    assert forall t :: t in Headed(b, date).txns ==> t in b.txns || t.postings == [];
  }

  lemma WrittenChecked(w: World, b: Book, i: nat, date: int, lines: seq<Line>)
    requires KeysKnown(w, b) && AllChecked(b) && i < |b.txns| && Written(w, b, i, date, lines).Ok?
    ensures AllChecked(Written(w, b, i, date, lines).value) <==>
      LinesPass(Context(w, WithPostings(b, i, date, []), date, b.txns[i].id), lines)
  {
    hide Prepare, AllChecked, LinesPass, Checked;
    var c := Context(w, WithPostings(b, i, date, []), date, b.txns[i].id);
    PreparedChecked(c, lines);
    ReplacedChecked(b, i, date, Prepare(c, lines).value);
    SameChecked(b, c.b);
  }

  lemma RefusedPasses(c: Context, lines: seq<Line>)
    requires Prepare(c, lines).Err?
    ensures LinesPass(c, lines)
  {
    hide Prepare, Admits;
    PreparedIff(c, lines);
  }

  lemma CreateChecked(w: World, b: Book, date: int, lines: seq<Line>)
    requires KeysKnown(w, b) && AllChecked(b)
    ensures CreateTx(w, b, date, lines).Err? ==> LinesPass(NewContext(w, b, date), lines)
    ensures CreateTx(w, b, date, lines).Ok? ==>
      (AllChecked(CreateTx(w, b, date, lines).value) <==> LinesPass(NewContext(w, b, date), lines))
  {
    hide Prepare, AllChecked, LinesPass, Checked;
    HeadedChecked(b, date);
    if CreateTx(w, b, date, lines).Ok? {
      WrittenChecked(w, Headed(b, date), |b.txns|, date, lines);
    } else {
      RefusedPasses(NewContext(w, b, date), lines);
    }
  }

  lemma UpdateChecked(w: World, b: Book, id: int, date: int, lines: seq<Line>)
    requires Sound(w, b) && AllChecked(b)
    ensures Update(w, b, id, date, lines).Err? ==> Passes(w, b, DoUpdate(id, date, lines))
    ensures Update(w, b, id, date, lines).Ok? ==>
      (AllChecked(Update(w, b, id, date, lines).value) <==> Passes(w, b, DoUpdate(id, date, lines)))
  {
    hide Prepare, AllChecked, LinesPass, Checked, SoundTxn;
    var i := IndexOf(b.txns, id);
    if i < |b.txns| {
      var c := Context(w, WithPostings(b, i, date, []), date, id);
      if Prepare(c, lines).Ok? {
        WrittenChecked(w, b, i, date, lines);
      } else {
        RefusedPasses(c, lines);
      }
    }
  }

  lemma DeleteChecked(b: Book, id: int)
    requires AllChecked(b) && Delete(b, id).Ok?
    ensures AllChecked(Delete(b, id).value)
  {
    hide Checked;
    var r := Delete(b, id).value;
    SameChecked(b, r);
    assert forall t :: t in r.txns ==> t in b.txns;
  }

  lemma AccountChecked(b: Book, a: Account)
    requires AccountsKept(b) && AllChecked(b)
    ensures AllChecked(WithAccount(b, a))
  {
    var b1 := WithAccount(b, a);
    assert forall p :: Checked(b, p) ==> Checked(b1, p);
  }

  lemma PairChecked(b: Book, date: int, p: Posting, q: Posting)
    requires AllChecked(b)
    ensures AllChecked(WithPostings(Headed(b, date), |b.txns|, date, [p, q])) <==> Checked(b, p) && Checked(b, q)
  {
    hide Checked;
    HeadedChecked(b, date);
    ReplacedChecked(Headed(b, date), |b.txns|, date, [p, q]);
    SameChecked(b, Headed(b, date));
    assert p in [p, q] && q in [p, q];
  }

  lemma OpeningChecked(w: World, b: Book, account: int, o: Opening)
    requires KeysKnown(w, b) && OpeningReady(b) && AllChecked(b) && account in b.accounts
    ensures PostOpening(w, b, account, o).Err? ==> OpeningPasses(w, b, account, o)
    ensures PostOpening(w, b, account, o).Ok? ==>
      (AllChecked(PostOpening(w, b, account, o).value) <==> OpeningPasses(w, b, account, o))
  {
    hide ResolveLine, OpeningLine, AllChecked, Checked, KeepsSign;
    if PostOpening(w, b, account, o).Ok? {
      var c, l := Context(w, b, o.date, 0), OpeningLine(b, account, o);
      var p, equity := ResolveLine(c, l).value, b.keys[OPENING_BALANCES];
      var counter := Posting(equity, b.accounts[equity].commodity.value, -p.base, -p.base);
      ResolvedChecked(c, l);
      CounterChecked(b, equity, p.base);
      PairChecked(b, o.date, p, counter);
    }
  }

  lemma CounterChecked(b: Book, equity: int, x: real)
    requires equity in b.accounts && b.accounts[equity].commodity.Some?
    ensures Checked(b, Posting(equity, b.accounts[equity].commodity.value, -x, -x)) <==>
      x != 0.0 && !b.accounts[equity].placeholder
  {
  }

  lemma OpenChecked(w: World, b: Book, input: AccountInput)
    requires Sound(w, b) && AllChecked(b)
    ensures AllChecked(Apply(w, b, DoOpen(input))) <==> Passes(w, b, DoOpen(input))
  {
    hide NewAccount, PostOpening, AllChecked, OpeningPasses, SoundTxn;
    if NewAccount(w, b, input).Ok? {
      var b1 := WithAccount(b, NewAccount(w, b, input).value);
      AccountChecked(b, NewAccount(w, b, input).value);
      AccountSound(w, b, input);
      if input.opening.Some? && input.opening.value.amount != 0.0 {
        OpeningChecked(w, b1, b.nextAccount, input.opening.value);
      }
    }
  }

  // ----- a rebase -----

  lemma NewBaseSign(w: World, from: string, to: string, date: int, p: Posting)
    requires Sign(p.base) * Sign(p.amount) >= 0
    ensures Sign(NewBase(w, from, to, date, p)) * Sign(p.amount) >= 0
  {
    hide RateOn, Round, Times;
    if p.commodity != to && RateOn(w, RateKey(w, from, to, p), to, date).Some? {
      var r := RateOn(w, RateKey(w, from, to, p), to, date).value;
      RateSign(w, RateKey(w, from, to, p), to, date);
      SignTimes(p.base, r, w.Places(to));
      SignTimes(p.amount, r, w.Places(to));
    }
  }

  lemma TxnRebased(w: World, b: Book, to: string, k: nat)
    requires KeysKnown(w, b) && AllChecked(b) && Rebased(w, b, to).Ok? && k < |b.txns|
    ensures PostingsChecked(b, Rebased(w, b, to).value.txns[k].postings) <==>
      Residue(w, b.base, to, b.txns[k]) == 0.0 || Takes(b, FX_GAIN_LOSS, to)
  {
    hide Rebased, NewBase, Residue, Takes;
    RebasedHeader(w, b, to);
    RebasedTxnKeeps(w, b, to, k);
    var t, t1 := b.txns[k], Rebased(w, b, to).value.txns[k];
    var r := Residue(w, b.base, to, t);
    assert t in b.txns;
    forall i | 0 <= i < |t.postings| ensures Checked(b, t1.postings[i]) {
      assert t.postings[i] in t.postings && Checked(b, t.postings[i]);
      NewBaseSign(w, b.base, to, t.date, t.postings[i]);
    }
    if r != 0.0 {
      FxExists(w, b, to, t);
      FxChecked(b, to, r);
      assert t1.postings[|t.postings|] in t1.postings;
    }
  }

  lemma RebaseChecked(w: World, b: Book, to: string)
    requires Sound(w, b) && AllChecked(b) && Rebased(w, b, to).Ok?
    ensures AllChecked(Rebased(w, b, to).value) <==> (NeedsFx(w, b, to) ==> Takes(b, FX_GAIN_LOSS, to))
  {
    hide Rebased, Residue, Takes, Checked, SoundTxn, PostingsChecked;
    var b1 := Rebased(w, b, to).value;
    RebasedHeader(w, b, to);
    assert forall k :: 0 <= k < |b1.txns| ==> (PostingsChecked(b1, b1.txns[k].postings) <==> PostingsChecked(b, b1.txns[k].postings)) by {
      SamePostings(b, b1);
    }
    forall k | 0 <= k < |b.txns|
      ensures PostingsChecked(b, b1.txns[k].postings) <==> Residue(w, b.base, to, b.txns[k]) == 0.0 || Takes(b, FX_GAIN_LOSS, to)
    {
      TxnRebased(w, b, to, k);
    }
    if AllChecked(b1) && NeedsFx(w, b, to) {
      var t :| t in b.txns && Residue(w, b.base, to, t) != 0.0;
      var k :| 0 <= k < |b.txns| && b.txns[k] == t;
      assert b1.txns[k] in b1.txns;
    }
    if NeedsFx(w, b, to) ==> Takes(b, FX_GAIN_LOSS, to) {
      forall k | 0 <= k < |b1.txns| ensures PostingsChecked(b1, b1.txns[k].postings) {
        assert b.txns[k] in b.txns;
      }
    }
  }

  lemma SamePostings(b: Book, r: Book)
    requires r.accounts == b.accounts
    ensures forall ps :: PostingsChecked(r, ps) <==> PostingsChecked(b, ps)
  {
    hide Checked;
    SameChecked(b, r);
  }

  // ----- every operation -----

  /** An operation keeps all postings checked exactly when it passes. */
  lemma StepChecked(w: World, b: Book, op: Op)
    requires Sound(w, b) && AllChecked(b)
    ensures AllChecked(Apply(w, b, op)) <==> Passes(w, b, op)
  {
    hide Sound, AllChecked, CreateTx, Update, OpenAccount, Delete, Rebased, LinesPass, OpeningPasses, NeedsFx, Takes, NewAccount,
      Rebases;
    assert KeysKnown(w, b) by { SoundFields(w, b); }
    match op {
      case DoCreate(date, lines) => CreateChecked(w, b, date, lines);
      case QueueCreate(date, lines) => CreateChecked(w, b, date, lines);
      case DoUpdate(id, date, lines) => UpdateChecked(w, b, id, date, lines);
      case DoDelete(id) =>
        if Delete(b, id).Ok? {
          DeleteChecked(b, id);
        }
      case DoOpen(input) => OpenChecked(w, b, input);
      case ChangeBase(to) =>
        RebasesIff(w, b, to);
        if Rebases(w, b, to) {
          RebaseChecked(w, b, to);
        }
    }
  }

  lemma SoundFields(w: World, b: Book)
    requires Sound(w, b)
    ensures KeysKnown(w, b)
  {
  }

  /** From a book its own export restores, an operation leaves one that is not
      exactly when an opening balance does not fit, or when it writes what the
      postings table itself is there to refuse. */
  lemma StepRestorable(w: World, b: Book, op: Op)
    requires Sound(w, b) && "" !in w.commodities && RulesKept(w, b, b.txns)
    ensures RulesKept(w, Apply(w, b, op), Apply(w, b, op).txns) <==> Fits(w, b, op) && Passes(w, b, op)
  {
    hide Sound, AllChecked, AllPrecise, RulesKept, Apply, Fits, Passes;
    RulesKeptIff(w, b);
    StepSound(w, b, op);
    RulesKeptIff(w, Apply(w, b, op));
    StepPrecise(w, b, op);
    StepChecked(w, b, op);
  }

  // ----- every run -----

  ghost predicate AlwaysKept(w: World, b: Book, ops: seq<Op>)
    requires Sound(w, b)
  {
    RulesKept(w, Run(w, b, ops), Run(w, b, ops).txns) && (|ops| > 0 ==> AlwaysKept(w, b, ops[..|ops| - 1]))
  }

  ghost predicate AlwaysPasses(w: World, b: Book, ops: seq<Op>)
    requires Sound(w, b)
  {
    |ops| > 0 ==>
      Passes(w, Run(w, b, ops[..|ops| - 1]), ops[|ops| - 1]) && AlwaysPasses(w, b, ops[..|ops| - 1])
  }

  /** At every moment of a run the stored postings keep the line rules exactly
      when they do at its start, every opening balance fits and every operation
      passes. */
  lemma {:induction false} RunRestorable(w: World, b: Book, ops: seq<Op>)
    requires Sound(w, b) && "" !in w.commodities
    ensures AlwaysKept(w, b, ops) <==> RulesKept(w, b, b.txns) && AlwaysFits(w, b, ops) && AlwaysPasses(w, b, ops)
  {
    hide Sound, Apply, Fits, Passes, RulesKept;
    if |ops| > 0 {
      RunRestorable(w, b, ops[..|ops| - 1]);
      if AlwaysKept(w, b, ops[..|ops| - 1]) {
        KeptNow(w, b, ops[..|ops| - 1]);
        StepRestorable(w, Run(w, b, ops[..|ops| - 1]), ops[|ops| - 1]);
      }
    }
  }

  lemma KeptNow(w: World, b: Book, ops: seq<Op>)
    requires Sound(w, b) && AlwaysKept(w, b, ops)
    ensures RulesKept(w, Run(w, b, ops), Run(w, b, ops).txns)
  {
  }

  // ----- and so the export restores the book -----

  lemma {:induction false} UpOld(accts: map<int, Account>, n: int, a: Account, x: int, k: nat)
    requires ParentsPresent(accts) && n !in accts && x in accts
    ensures Up(accts[n := a], x, k) == Up(accts, x, k)
    ensures Up(accts, x, k).Some? ==> Up(accts, x, k).value in accts
    decreases k
  {
    if k > 0 && accts[x].parent.Some? {
      UpOld(accts, n, a, accts[x].parent.value, k - 1);
    }
  }

  lemma AddedAcyclic(accts: map<int, Account>, n: int, a: Account)
    requires ParentsPresent(accts) && !Cyclic(accts) && n !in accts && (a.parent.Some? ==> a.parent.value in accts)
    ensures ParentsPresent(accts[n := a]) && !Cyclic(accts[n := a])
  {
    hide Up;
    var more := accts[n := a];
    if Cyclic(more) {
      var x, k: nat :| k > 0 && Up(more, x, k) == Some(x);
      if x in accts {
        UpOld(accts, n, a, x, k);
      } else {
        UpFirst(more, x, k);
        assert x == n;
        UpOld(accts, n, a, a.parent.value, k - 1);
      }
      assert false;
    }
  }

  lemma UpFirst(accts: map<int, Account>, x: int, k: nat)
    requires k > 0 && Up(accts, x, k).Some?
    ensures x in accts && accts[x].parent.Some? && Up(accts, x, k) == Up(accts, accts[x].parent.value, k - 1)
  {
  }

  /** Every operation keeps what the round trip is promised for. */
  lemma StepPortable(w: World, b: Book, op: Op)
    requires Portable(w, b)
    ensures Portable(w, Apply(w, b, op))
  {
    hide Sound, Cyclic, Prepare, Gaps, NeedsFx, RebasedTxns, ParentsPresent, ResolveLine, OpeningLine;
    StepSound(w, b, op);
    if op.DoOpen? && NewAccount(w, b, op.input).Ok? {
      NextFree(w, b);
      AddedAcyclic(b.accounts, b.nextAccount, NewAccount(w, b, op.input).value);
    }
  }

  lemma NextFree(w: World, b: Book)
    requires Sound(w, b)
    ensures b.nextAccount !in b.accounts
  {
  }

  lemma {:induction false} RunPortable(w: World, b: Book, ops: seq<Op>)
    requires Portable(w, b)
    ensures Portable(w, Run(w, b, ops))
  {
    hide Portable, Apply;
    assert Sound(w, b) by { PortableSound(w, b); }
    if |ops| > 0 {
      RunPortable(w, b, ops[..|ops| - 1]);
      StepPortable(w, Run(w, b, ops[..|ops| - 1]), ops[|ops| - 1]);
    }
  }

  lemma PortableSound(w: World, b: Book)
    requires Portable(w, b)
    ensures Sound(w, b) && "" !in w.commodities
  {
  }

  /** Through any run in which every opening balance fits and every operation
      passes, importing the export of the book as it then stands succeeds, and
      gives the same book. */
  lemma RunComesBack(w: World, b: Book, ops: seq<Op>, order: seq<int>, i: Imported, r: Result<Book>)
    requires Portable(w, b) && RulesKept(w, b, b.txns) && AlwaysFits(w, b, ops) && AlwaysPasses(w, b, ops)
    requires Listing(Run(w, b, ops), order) && Imports(w, Export(Run(w, b, ops), order), i, r)
    ensures r.Ok? && SameBook(Run(w, b, ops), r.value, i.ids)
  {
    hide Portable, RulesKept, AlwaysFits, AlwaysPasses, Run, Imports, Export, Listing, SameBook, Sound;
    PortableSound(w, b);
    RunRestorable(w, b, ops);
    KeptNow(w, b, ops);
    RunPortable(w, b, ops);
    BookComesBack(w, Run(w, b, ops), order, i, r);
  }
}
