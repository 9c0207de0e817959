// Average cost (internal/ledger/posting.go and commodities.go): what an
// account of shares or points holds and what it cost, over every run of
// acquisitions and disposals entered in date order.
module AverageCost {
  import opened Decimals
  import opened Sums
  import opened Core
  import opened Rates
  import opened Lines
  import opened Journal
  import Runs

  function Flat(txns: seq<Txn>): seq<Posting> {
    if |txns| == 0 then [] else Flat(txns[..|txns| - 1]) + txns[|txns| - 1].postings
  }

  /** All an account holds, whatever the date. */
  function Holding(txns: seq<Txn>, account: int): CostBasis {
    CostBasis(Sum(Flat(txns), UnitsOf(account)), Sum(Flat(txns), BaseOf({account})))
  }

  predicate Touches(ps: seq<Posting>, account: int) {
    exists p :: p in ps && p.account == account
  }

  /** No entry of the account is dated after the day. */
  predicate InDateOrder(txns: seq<Txn>, account: int, date: int) {
    forall t :: t in txns && t.date > date ==> !Touches(t.postings, account)
  }

  lemma Untouched(ps: seq<Posting>, account: int)
    requires !Touches(ps, account)
    ensures Sum(ps, UnitsOf(account)) == 0.0 && Sum(ps, BaseOf({account})) == 0.0
  {
    hide Sum;
    SumNil(ps, UnitsOf(account));
    SumNil(ps, BaseOf({account}));
  }

  lemma {:induction false} BasisIsHolding(txns: seq<Txn>, account: int, date: int, id: int)
    requires InDateOrder(txns, account, date)
    requires forall t :: t in txns && t.id == id ==> t.postings == []
    ensures CostBasisOf(txns, account, date, id) == Holding(txns, account)
  {
    hide Sum, Touches;
    if |txns| > 0 {
      var front, t := txns[..|txns| - 1], txns[|txns| - 1];
      BasisIsHolding(front, account, date, id);
      UptoConcat(Without(front, id), if t.id == id then [] else [t], date);
      UptoLast(t, date);
      var last := if t.id == id || t.date > date then [] else t.postings;
      SumConcat(Upto(Without(front, id), date), last, UnitsOf(account));
      SumConcat(Upto(Without(front, id), date), last, BaseOf({account}));
      SumConcat(Flat(front), t.postings, UnitsOf(account));
      SumConcat(Flat(front), t.postings, BaseOf({account}));
      if last != t.postings {
        NothingTouches(account);
        Untouched(t.postings, account);
        Untouched([], account);
      }
    }
  }

  lemma NothingTouches(account: int)
    ensures !Touches([], account)
  {
  }

  lemma UptoLast(t: Txn, date: int)
    ensures Upto([t], date) == if t.date <= date then t.postings else []
    ensures Upto([], date) == []
  {
    assert [t][..0] == [];
  }

  // ----- one disposal -----

  /** What the average-cost branch books when n of q units leave. */
  function Released(q: real, cost: real, n: real, places: nat): real
    requires q > 0.0
  {
    if n == q then -cost else DivRound(Times(-n, cost), q, places)
  }

  lemma ShareOf(q: real, cost: real, n: real)
    requires 0.0 < n <= q && cost >= 0.0
    ensures -cost <= Times(-n, cost) / q <= 0.0
    ensures n < q ==> (cost + Times(-n, cost) / q) / (q - n) == cost / q
  {
    var x := -n * cost / q;
    assert x * q == -n * cost;
    assert (x + cost) * q == (q - n) * cost;
    assert (q - n) * cost >= 0.0;
    assert n * cost >= 0.0;
    if x + cost < 0.0 {
      MulStrict(x + cost, 0.0, q);
      assert false;
    }
    if x > 0.0 {
      MulStrict(0.0, x, q);
      assert false;
    }
    if n < q {
      Proportion(x + cost, cost, q, q - n);
    }
  }

  lemma Proportion(a: real, cost: real, q: real, left: real)
    requires q > 0.0 && left > 0.0 && a * q == left * cost
    ensures a / left == cost / q
  {
    var r := cost / q;
    assert r * q == cost;
    assert a * q == left * r * q;
    if a < left * r { MulStrict(a, left * r, q); assert false; }
    if a > left * r { MulStrict(left * r, a, q); assert false; }
    assert left * r / left == r;
  }

  /** Quantity and cost stay non-negative; taking everything takes exactly the
      whole cost; otherwise cost per unit moves by at most half a minor unit
      shared over what remains. */
  lemma DisposalKeeps(q: real, cost: real, n: real, places: nat)
    requires 0.0 < n <= q && cost >= 0.0 && OnGrid(cost, places)
    ensures var left := cost + Released(q, cost, n, places);
      0.0 <= left <= cost && (n == q ==> left == 0.0) &&
      (n < q ==> Abs(left / (q - n) - cost / q) <= Unit(places) / 2.0 / (q - n))
  {
    hide OnGrid, Round, Times, Unit;
    if n < q {
      var x := Times(-n, cost) / q;
      ShareOf(q, cost, n);
      GridClosed(cost, cost, places);
      RoundIdentity(-cost, places);
      assert HasPrecision(-cost, places);
      RoundMonotone(-cost, x, places);
      RoundSign(x, places);
      RoundHalfUnit(x, places);
      PerUnit(cost + Round(x, places), cost + x, q - n, Unit(places) / 2.0);
    }
  }

  lemma PerUnit(a: real, b: real, d: real, e: real)
    requires d > 0.0 && Abs(a - b) <= e
    ensures Abs(a / d - b / d) <= e / d
  {
    DivSub(a, b, d);
    DivMonotone(a - b, e, d);
    DivMonotone(-e, a - b, d);
    Rescale(e, d);
  }

  // ----- one entry written to the book -----

  /** An account of shares or points, which is not the FX account. */
  predicate CarriedAtCost(w: World, b: Book, account: int) {
    account in b.accounts && HoldsCommodity(b.accounts[account].cls) &&
    b.accounts[account].commodity.Some? && b.accounts[account].commodity.value in w.commodities &&
    b.accounts[account].commodity.value != b.base &&
    !w.commodities[b.accounts[account].commodity.value].kind.Currency? &&
    AccountByKey(b, FX_GAIN_LOSS) != Some(account)
  }

  /** One line of the transaction is the account's: units in, at a cost given
      outright or by a unit cost not below zero, or units out at average cost. */
  predicate Entry(b: Book, account: int, date: int, lines: seq<Line>, i: nat) {
    i < |lines| && lines[i].account == account && InDateOrder(b.txns, account, date) &&
    (forall j :: 0 <= j < |lines| && j != i ==> lines[j].account != account) &&
    (lines[i].unitCost.Some? ==> lines[i].unitCost.value >= 0.0) &&
    (lines[i].amount < 0.0 ==> lines[i].base.None?)
  }

  predicate NonNegative(h: CostBasis) {
    h.quantity >= 0.0 && h.cost >= 0.0
  }

  lemma {:induction false} SumSingle(ps: seq<Posting>, i: nat, w: Posting -> real)
    requires i < |ps| && forall j :: 0 <= j < |ps| && j != i ==> w(ps[j]) == 0.0
    ensures Sum(ps, w) == w(ps[i])
  {
    var n := |ps| - 1;
    if i == n {
      forall p | p in ps[..n] ensures w(p) == 0.0 {
      }
      SumNil(ps[..n], w);
    } else {
      SumSingle(ps[..n], i, w);
    }
  }

  /** Of a prepared transaction only the account's own line counts for it. */
  lemma PreparedShare(c: Context, lines: seq<Line>, account: int, i: nat)
    requires KeysKnown(c.w, c.b) && Prepare(c, lines).Ok? && AccountByKey(c.b, FX_GAIN_LOSS) != Some(account)
    requires i < |lines| && forall j :: 0 <= j < |lines| && j != i ==> lines[j].account != account
    requires lines[i].account == account
    ensures ResolveLine(c, lines[i]).Ok?
    ensures Sum(Prepare(c, lines).value, UnitsOf(account)) == ResolveLine(c, lines[i]).value.amount
    ensures Sum(Prepare(c, lines).value, BaseOf({account})) == ResolveLine(c, lines[i]).value.base
  {
    hide ResolveLine, ResolveAll, Sum, Close, Unit, Abs;
    PreparedBalances(c, lines);
    ResolvedAllProper(c, lines);
    var out := Prepare(c, lines).value;
    forall j | 0 <= j < |out| && j != i
      ensures UnitsOf(account)(out[j]) == 0.0 && BaseOf({account})(out[j]) == 0.0
    {
      if j < |lines| {
        ResolvedProper(c, lines[j]);
      }
    }
    ResolvedProper(c, lines[i]);
    SumSingle(out, i, UnitsOf(account));
    SumSingle(out, i, BaseOf({account}));
  }

  lemma AcquiredCost(c: Context, l: Line, cls: Class, commodity: string)
    requires commodity in c.w.commodities && commodity != c.b.base && !c.w.commodities[commodity].kind.Currency?
    requires l.amount > 0.0 && (l.unitCost.Some? ==> l.unitCost.value >= 0.0)
    requires LineBase(c, l, cls, commodity).Ok?
    ensures LineBase(c, l, cls, commodity).value >= 0.0
  {
    hide RateOn, Round, Times, HasPrecision;
    var kind := c.w.commodities[commodity].kind;
    if l.base.None? {
      var cost := Times(l.amount, l.unitCost.value);
      TimesSign(l.amount, l.unitCost.value);
      RateSign(c.w, kind.quote, c.b.base, c.date);
      var rate := RateOn(c.w, kind.quote, c.b.base, c.date).value;
      TimesSign(cost, rate);
      RoundSign(Times(cost, rate), c.BasePlaces());
    }
  }

  /** The resolved line, for the holding the book has before it. */
  lemma EntryLine(c: Context, l: Line, h: CostBasis)
    requires CarriedAtCost(c.w, c.b, l.account) && ResolveLine(c, l).Ok?
    requires CostBasisOf(c.b.txns, l.account, c.date, c.exclude) == h
    requires (l.unitCost.Some? ==> l.unitCost.value >= 0.0) && (l.amount < 0.0 ==> l.base.None?)
    ensures var p := ResolveLine(c, l).value;
      p.amount == l.amount != 0.0 &&
      (l.amount > 0.0 ==> p.base >= 0.0) &&
      (l.amount < 0.0 ==> 0.0 < -l.amount <= h.quantity && p.base == Released(h.quantity, h.cost, -l.amount, c.BasePlaces()))
  {
    hide CostBasisOf, Round, Times, HasPrecision, RateOn;
    var p := ResolveLine(c, l).value;
    var cls := c.b.accounts[l.account].cls;
    assert LineBase(c, l, cls, p.commodity) == Ok(p.base);
    if l.amount > 0.0 {
      AcquiredCost(c, l, cls, p.commodity);
    }
  }

  /** One entry: quantity moves by the units, cost by the line's base, and
      neither goes below zero. */
  lemma EntryKeeps(w: World, b: Book, account: int, date: int, lines: seq<Line>, i: nat)
    requires Sound(w, b) && BasePrecise(w, b) && CarriedAtCost(w, b, account)
    requires Entry(b, account, date, lines, i) && NonNegative(Holding(b.txns, account))
    requires CreateTx(w, b, date, lines).Ok?
    ensures var h, h1 := Holding(b.txns, account), Holding(CreateTx(w, b, date, lines).value.txns, account);
      NonNegative(h1) && h1.quantity == h.quantity + lines[i].amount &&
      (lines[i].amount > 0.0 ==> h1.cost >= h.cost) &&
      (lines[i].amount < 0.0 ==>
        h.quantity > 0.0 &&
        h1.cost == h.cost + Released(h.quantity, h.cost, -lines[i].amount, w.Places(b.base)) &&
        (h1.quantity == 0.0 ==> h1.cost == 0.0) &&
        (h1.quantity > 0.0 ==>
          Abs(h1.cost / h1.quantity - h.cost / h.quantity) <= Unit(w.Places(b.base)) / 2.0 / h1.quantity))
  {
    hide ResolveLine, Prepare, CostBasisOf, Sum, Round, Times, OnGrid, Unit, BasePrecise, Touches, SoundTxn, Released;
    var cleared := WithPostings(Headed(b, date), |b.txns|, date, []);
    var c := Context(w, cleared, date, b.nextId);
    var ps := Prepare(c, lines).value;
    var h := Holding(b.txns, account);
    assert cleared.txns == b.txns + [Txn(b.nextId, date, [])];
    assert CreateTx(w, b, date, lines).value.txns == b.txns + [Txn(b.nextId, date, ps)];
    FlatAppend(b.txns, Txn(b.nextId, date, []), account);
    FlatAppend(b.txns, Txn(b.nextId, date, ps), account);
    NothingTouches(account);
    Untouched([], account);
    assert InDateOrder(cleared.txns, account, date);
    BasisIsHolding(cleared.txns, account, date, b.nextId);
    PreparedShare(c, lines, account, i);
    EntryLine(c, lines[i], h);
    if lines[i].amount < 0.0 {
      HoldingOnGrid(w, b, account);
      DisposalKeeps(h.quantity, h.cost, -lines[i].amount, w.Places(b.base));
    }
  }

  lemma FlatAppend(txns: seq<Txn>, t: Txn, account: int)
    ensures var h, h1 := Holding(txns, account), Holding(txns + [t], account);
      h1.quantity == h.quantity + Sum(t.postings, UnitsOf(account)) &&
      h1.cost == h.cost + Sum(t.postings, BaseOf({account}))
  {
    hide Sum;
    assert (txns + [t])[..|txns|] == txns;
    SumConcat(Flat(txns), t.postings, UnitsOf(account));
    SumConcat(Flat(txns), t.postings, BaseOf({account}));
  }

  lemma {:induction false} FlatFrom(txns: seq<Txn>, p: Posting)
    requires p in Flat(txns)
    ensures exists t :: t in txns && p in t.postings
  {
    var n := |txns| - 1;
    if p in Flat(txns[..n]) {
      FlatFrom(txns[..n], p);
    } else {
      assert txns[n] in txns;
    }
  }

  lemma HoldingOnGrid(w: World, b: Book, account: int)
    requires BasePrecise(w, b)
    ensures OnGrid(Holding(b.txns, account).cost, w.Places(b.base))
  {
    hide OnGrid, Sum;
    var ps := Flat(b.txns);
    GridZero(w.Places(b.base));
    forall p | p in ps ensures OnGrid(BaseOf({account})(p), w.Places(b.base)) {
      FlatFrom(b.txns, p);
    }
    SumOnGrid(ps, BaseOf({account}), w.Places(b.base));
  }

  // ----- transactions that do not name the account -----

  predicate Names(lines: seq<Line>, account: int) {
    exists l :: l in lines && l.account == account
  }

  lemma SilentPostings(c: Context, lines: seq<Line>, account: int)
    requires KeysKnown(c.w, c.b) && Prepare(c, lines).Ok? && AccountByKey(c.b, FX_GAIN_LOSS) != Some(account)
    requires !Names(lines, account)
    ensures !Touches(Prepare(c, lines).value, account)
  {
    hide ResolveLine, ResolveAll, Sum, Close, Unit, Abs;
    PreparedBalances(c, lines);
    ResolvedAllProper(c, lines);
    var out := Prepare(c, lines).value;
    forall p | p in out ensures p.account != account {
      var j :| 0 <= j < |out| && out[j] == p;
      if j < |lines| {
        ResolvedProper(c, lines[j]);
        assert lines[j] in lines;
      }
    }
  }

  lemma {:induction false} FlatConcat(s: seq<Txn>, t: seq<Txn>)
    ensures Flat(s + t) == Flat(s) + Flat(t)
  {
    if |t| == 0 {
      assert s + t == s;
    } else {
      FlatConcat(s, t[..|t| - 1]);
      assert (s + t)[..|s + t| - 1] == s + t[..|t| - 1];
    }
  }

  /** A stretch of transactions without the account adds nothing to it. */
  lemma HoldingAround(before: seq<Txn>, middle: seq<Txn>, after: seq<Txn>, account: int)
    requires !Touches(Flat(middle), account)
    ensures Holding(before + middle + after, account) ==
      CostBasis(Holding(before, account).quantity + Holding(after, account).quantity,
                Holding(before, account).cost + Holding(after, account).cost)
  {
    hide Sum, Touches;
    FlatConcat(before + middle, after);
    FlatConcat(before, middle);
    Untouched(Flat(middle), account);
    SumConcat(Flat(before) + Flat(middle), Flat(after), UnitsOf(account));
    SumConcat(Flat(before), Flat(middle), UnitsOf(account));
    SumConcat(Flat(before) + Flat(middle), Flat(after), BaseOf({account}));
    SumConcat(Flat(before), Flat(middle), BaseOf({account}));
  }

  lemma FlatOne(t: Txn)
    ensures Flat([t]) == t.postings && Flat([]) == []
  {
    assert [t][..0] == [];
  }

  lemma HoldingReplaced(txns: seq<Txn>, i: nat, t: Txn, account: int)
    requires i < |txns| && !Touches(txns[i].postings, account) && !Touches(t.postings, account)
    ensures Holding(txns[i := t], account) == Holding(txns, account)
    ensures Holding(txns[..i] + txns[i + 1..], account) == Holding(txns, account)
  {
    hide Holding, Touches, Flat;
    FlatOne(t);
    FlatOne(txns[i]);
    NothingTouches(account);
    HoldingAround(txns[..i], [t], txns[i + 1..], account);
    HoldingAround(txns[..i], [txns[i]], txns[i + 1..], account);
    HoldingAround(txns[..i], [], txns[i + 1..], account);
    assert txns == txns[..i] + [txns[i]] + txns[i + 1..];
    assert txns[i := t] == txns[..i] + [t] + txns[i + 1..];
    assert txns[..i] + txns[i + 1..] == txns[..i] + [] + txns[i + 1..];
  }

  lemma HoldingAppended(txns: seq<Txn>, t: Txn, account: int)
    requires !Touches(t.postings, account)
    ensures Holding(txns + [t], account) == Holding(txns, account)
  {
    hide Sum, Touches;
    Untouched(t.postings, account);
    FlatAppend(txns, t, account);
  }

  // ----- every run -----

  /** The transaction, if there is one, has no posting of the account. */
  predicate Elsewhere(b: Book, account: int, id: int) {
    var i := IndexOf(b.txns, id);
    i < |b.txns| ==> !Touches(b.txns[i].postings, account)
  }

  /** What a step may do: a new transaction is an entry of the account or does
      not name it; any other transaction may be changed or deleted, and any
      account opened but against this one. */
  ghost predicate Visit(b: Book, account: int, op: Runs.Op) {
    match op
    case DoCreate(date, lines) => Names(lines, account) ==> exists i :: Entry(b, account, date, lines, i)
    case QueueCreate(date, lines) => Names(lines, account) ==> exists i :: Entry(b, account, date, lines, i)
    case DoUpdate(id, date, lines) => !Names(lines, account) && Elsewhere(b, account, id)
    case DoDelete(id) => Elsewhere(b, account, id)
    case DoOpen(_) => AccountByKey(b, OPENING_BALANCES) != Some(account)
    case ChangeBase(_) => false
  }

  predicate Holds(w: World, b: Book, account: int) {
    Sound(w, b) && BasePrecise(w, b) && CarriedAtCost(w, b, account) && NonNegative(Holding(b.txns, account))
  }

  lemma CreateHolds(w: World, b: Book, account: int, date: int, lines: seq<Line>)
    requires Holds(w, b, account) && CreateTx(w, b, date, lines).Ok?
    requires Names(lines, account) ==> exists i :: Entry(b, account, date, lines, i)
    ensures NonNegative(Holding(CreateTx(w, b, date, lines).value.txns, account))
  {
    hide SoundTxn, BasePrecise, Prepare, Holding, NonNegative, Entry, Touches;
    if Names(lines, account) {
      var i :| Entry(b, account, date, lines, i);
      EntryKeeps(w, b, account, date, lines, i);
    } else {
      var c := Context(w, WithPostings(Headed(b, date), |b.txns|, date, []), date, b.nextId);
      SilentPostings(c, lines, account);
      var t := Txn(b.nextId, date, Prepare(c, lines).value);
      assert CreateTx(w, b, date, lines).value.txns == b.txns + [t];
      HoldingAppended(b.txns, t, account);
    }
  }

  lemma UpdateHolds(w: World, b: Book, account: int, id: int, date: int, lines: seq<Line>)
    requires Holds(w, b, account) && Update(w, b, id, date, lines).Ok?
    requires !Names(lines, account) && Elsewhere(b, account, id)
    ensures NonNegative(Holding(Update(w, b, id, date, lines).value.txns, account))
  {
    hide SoundTxn, BasePrecise, Prepare, Holding, NonNegative, Touches, Names;
    var i := IndexOf(b.txns, id);
    var c := Context(w, WithPostings(b, i, date, []), date, b.txns[i].id);
    SilentPostings(c, lines, account);
    HoldingReplaced(b.txns, i, Txn(b.txns[i].id, date, Prepare(c, lines).value), account);
  }

  lemma DeleteHolds(w: World, b: Book, account: int, id: int)
    requires Holds(w, b, account) && Delete(b, id).Ok? && Elsewhere(b, account, id)
    ensures NonNegative(Holding(Delete(b, id).value.txns, account))
  {
    hide SoundTxn, BasePrecise, Holding, NonNegative, Touches;
    var i := IndexOf(b.txns, id);
    HoldingReplaced(b.txns, i, b.txns[i], account);
  }

  lemma OpenHolds(w: World, b: Book, account: int, input: AccountInput)
    requires Holds(w, b, account) && OpenAccount(w, b, input).Ok?
    requires AccountByKey(b, OPENING_BALANCES) != Some(account)
    ensures NonNegative(Holding(OpenAccount(w, b, input).value.txns, account))
  {
    hide SoundTxn, BasePrecise, Holding, NonNegative, ResolveLine, OpeningLine, NewAccount;
    if input.opening.Some? && input.opening.value.amount != 0.0 {
      var b1 := WithAccount(b, NewAccount(w, b, input).value);
      var o := input.opening.value;
      OpenedPair(w, b1, b.nextAccount, o);
      var t := OpenAccount(w, b, input).value.txns[|b.txns|];
      assert OpenAccount(w, b, input).value.txns == b.txns + [t];
      HoldingAppended(b.txns, t, account);
    }
  }

  lemma OpenedPair(w: World, b: Book, account: int, o: Opening)
    requires account in b.accounts && OpeningReady(b) && PostOpening(w, b, account, o).Ok?
    ensures var r := PostOpening(w, b, account, o).value;
      |r.txns| == |b.txns| + 1 && r.txns == b.txns + [r.txns[|b.txns|]] &&
      forall p :: p in r.txns[|b.txns|].postings ==> p.account == account || Some(p.account) == AccountByKey(b, OPENING_BALANCES)
  {
    hide ResolveLine;
    var c, l := Context(w, b, o.date, 0), OpeningLine(b, account, o);
    ResolvedProper(c, l);
    assert l.account == account;
  }

  lemma StepHolds(w: World, b: Book, account: int, op: Runs.Op)
    requires Holds(w, b, account) && Visit(b, account, op)
    ensures Holds(w, Runs.Apply(w, b, op), account)
  {
    hide Sound, BasePrecise, CreateTx, Update, Delete, OpenAccount, Holding, NonNegative, Names, Elsewhere;
    Runs.StepSound(w, b, op);
    Runs.StepExact(w, b, op);
    if Runs.Attempt(w, b, op).Ok? {
      match op {
        case DoCreate(date, lines) =>
          CreateHolds(w, b, account, date, lines);
        case QueueCreate(date, lines) =>
          CreateHolds(w, b, account, date, lines);
        case DoUpdate(id, date, lines) =>
          UpdateHolds(w, b, account, id, date, lines);
        case DoDelete(id) =>
          DeleteHolds(w, b, account, id);
        case DoOpen(input) =>
          OpenHolds(w, b, account, input);
        case ChangeBase(_) =>
      }
      StepCarries(w, b, account, op);
    }
  }

  lemma StepCarries(w: World, b: Book, account: int, op: Runs.Op)
    requires Sound(w, b) && CarriedAtCost(w, b, account) && !op.ChangeBase?
    ensures CarriedAtCost(w, Runs.Apply(w, b, op), account)
  {
    hide SoundTxn, Ordered, Prepare, ResolveLine, NewAccount, OpeningLine;
  }

  ghost predicate Visits(w: World, b: Book, account: int, ops: seq<Runs.Op>)
    requires Sound(w, b)
  {
    |ops| > 0 ==>
      Visits(w, b, account, ops[..|ops| - 1]) && Visit(Runs.Run(w, b, ops[..|ops| - 1]), account, ops[|ops| - 1])
  }

  /** Over every run in one base currency, whatever else it writes, the holding
      and its cost never go negative. */
  lemma {:induction false} NeverNegative(w: World, b: Book, account: int, ops: seq<Runs.Op>)
    requires Holds(w, b, account) && Visits(w, b, account, ops)
    ensures Holds(w, Runs.Run(w, b, ops), account)
  {
    assert Sound(w, b);
    hide Holds, Visit, Runs.Apply;
    if |ops| > 0 {
      NeverNegative(w, b, account, ops[..|ops| - 1]);
      StepHolds(w, Runs.Run(w, b, ops[..|ops| - 1]), account, ops[|ops| - 1]);
    }
  }

  /** Without holdings, or for more than is held, a disposal is refused. */
  lemma DisposalRefused(c: Context, l: Line)
    requires CarriedAtCost(c.w, c.b, l.account) && l.amount < 0.0 && l.base.None?
    requires var h := CostBasisOf(c.b.txns, l.account, c.date, c.exclude); h.quantity <= 0.0 || -l.amount > h.quantity
    ensures ResolveLine(c, l).Err?
  {
    hide CostBasisOf, Round, HasPrecision, Converted;
  }
}
