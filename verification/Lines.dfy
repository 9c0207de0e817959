// From client lines to postings (internal/ledger/posting.go and the cost
// basis of internal/ledger/commodities.go): the line rules, the conversion to
// the base currency, average cost, and the one FX-rounding line.
module Lines {
  import opened Decimals
  import opened Sums
  import opened Core
  import opened Rates

  /** One line of a request; an empty commodity stands for the account's. */
  datatype Line = Line(
    account: int, commodity: string, amount: real, base: Option<real>, unitCost: Option<real>)

  function Plain(account: int, commodity: string, amount: real): Line {
    Line(account, commodity, amount, None, None)
  }

  function LineUnits(account: int): Line -> real {
    (l: Line) => if l.account == account then l.amount else 0.0
  }

  /** What a line is resolved against: the book as read, the day, and the
      transaction being written, which is left out of the cost basis. */
  datatype Context = Context(w: World, b: Book, date: int, exclude: int) {
    function BasePlaces(): nat { w.Places(b.base) }
  }

  datatype CostBasis = CostBasis(quantity: real, cost: real)

  function CostBasisOf(txns: seq<Txn>, account: int, asOf: int, exclude: int): CostBasis {
    var ps := Upto(Without(txns, exclude), asOf);
    CostBasis(Sum(ps, UnitsOf(account)), Sum(ps, BaseOf({account})))
  }

  function LineCommodity(c: Context, a: Account, given: string): Result<string> {
    match a.commodity
    case Some(held) =>
      if given == "" then Ok(held) else if given != held then Err(Mismatch) else Ok(given)
    case None =>
      Ok(if given == "" then c.b.base else given)
  }

  function AverageCost(c: Context, account: int, amount: real): Result<real>
    requires amount < 0.0
  {
    var cb := CostBasisOf(c.b.txns, account, c.date, c.exclude);
    if cb.quantity <= 0.0 then Err(NoHoldings)
    else if -amount > cb.quantity then Err(ExceedsHoldings)
    else if -amount == cb.quantity then Ok(-cb.cost)
    else Ok(DivRound(Times(amount, cb.cost), cb.quantity, c.BasePlaces()))
  }

  function Converted(c: Context, commodity: string, units: real): Result<real> {
    match RateOn(c.w, commodity, c.b.base, c.date)
    case Some(rate) => Ok(Round(Times(units, rate), c.BasePlaces()))
    case None => Err(RateMissing)
  }

  function LineBase(c: Context, l: Line, cls: Class, commodity: string): Result<real>
    requires commodity in c.w.commodities
  {
    var kind := c.w.commodities[commodity].kind;
    if commodity == c.b.base then Ok(l.amount)
    else if l.base.Some? then
      if !HasPrecision(l.base.value, c.BasePlaces()) then Err(TooPrecise)
      else if Sign(l.base.value) * Sign(l.amount) < 0 then Err(SignMismatch)
      else Ok(l.base.value)
    else if kind.Currency? then Converted(c, commodity, l.amount)
    else if kind.Security? && l.unitCost.Some? && l.amount > 0.0 then
      Converted(c, kind.quote, Times(l.amount, l.unitCost.value))
    else if l.amount < 0.0 && HoldsCommodity(cls) then AverageCost(c, l.account, l.amount)
    else Err(CostRequired)
  }

  function ResolveLine(c: Context, l: Line): Result<Posting> {
    if l.account !in c.b.accounts then Err(NotFound) else
      var a := c.b.accounts[l.account];
      if a.placeholder then Err(Error.Placeholder)
      else if a.archived then Err(Error.Archived)
      else
        var commodity :- LineCommodity(c, a, l.commodity);
        if commodity !in c.w.commodities then Err(UnknownCommodity)
        else if l.amount == 0.0 then Err(ZeroAmount)
        else if !HasPrecision(l.amount, c.w.Places(commodity)) then Err(TooPrecise)
        else
          var base :- LineBase(c, l, a.cls, commodity);
          Ok(Posting(l.account, commodity, l.amount, base))
  }

  /** The first line that fails decides the error. */
  function ResolveAll(c: Context, lines: seq<Line>): Result<seq<Posting>> {
    if |lines| == 0 then Ok([]) else
      var front :- ResolveAll(c, lines[..|lines| - 1]);
      var last :- ResolveLine(c, lines[|lines| - 1]);
      Ok(front + [last])
  }

  predicate Foreign(base: string, ps: seq<Posting>) {
    exists i :: 0 <= i < |ps| && ps[i].commodity != base
  }

  /** What the postings lack to balance, booked to FX gains and losses. */
  function FxLine(fx: int, base: string, residue: real): Posting {
    Posting(fx, base, residue, residue)
  }

  function Close(c: Context, ps: seq<Posting>): Result<seq<Posting>> {
    var total := Sum(ps, Base());
    if total == 0.0 then Ok(ps)
    else if !Foreign(c.b.base, ps) || Abs(total) > Unit(c.BasePlaces()) then Err(Unbalanced)
    else match AccountByKey(c.b, FX_GAIN_LOSS)
      case None => Err(NotFound)
      case Some(fx) => Ok(ps + [FxLine(fx, c.b.base, -total)])
  }

  function Prepare(c: Context, lines: seq<Line>): Result<seq<Posting>> {
    if |lines| < 2 then Err(TooFew) else
      var ps :- ResolveAll(c, lines);
      Close(c, ps)
  }

  /** prepareLines: one pass over the lines, a running total and a flag. */
  method PrepareLines(c: Context, lines: seq<Line>) returns (r: Result<seq<Posting>>)
    ensures r == Prepare(c, lines)
  {
    if |lines| < 2 {
      return Err(TooFew);
    }
    var out: seq<Posting> := [];
    var total := 0.0;
    var foreign := false;
    hide ResolveLine, Unit, Foreign, Abs;
    assert !Foreign(c.b.base, []) by { NothingForeign(c.b.base); }
    for i := 0 to |lines|
      invariant ResolveAll(c, lines[..i]) == Ok(out)
      invariant total == Sum(out, Base())
      invariant foreign == Foreign(c.b.base, out)
    {
      assert lines[..i + 1][..i] == lines[..i];
      var p := ResolveLine(c, lines[i]);
      if p.Err? {
        ResolveAllFails(c, lines, i);
        return Err(p.error);
      }
      if p.value.commodity != c.b.base {
        foreign := true;
      }
      total := total + p.value.base;
      SumAppend(out, p.value, Base());
      ForeignAppend(c.b.base, out, p.value);
      out := out + [p.value];
    }
    assert lines[..|lines|] == lines;
    if total == 0.0 {
      return Ok(out);
    }
    if !foreign || Abs(total) > Unit(c.BasePlaces()) {
      return Err(Unbalanced);
    }
    match AccountByKey(c.b, FX_GAIN_LOSS) {
      case None => return Err(NotFound);
      case Some(fx) => return Ok(out + [FxLine(fx, c.b.base, -total)]);
    }
  }

  lemma NothingForeign(base: string)
    ensures !Foreign(base, [])
  {
  }

  lemma ForeignAppend(base: string, ps: seq<Posting>, p: Posting)
    ensures Foreign(base, ps + [p]) <==> Foreign(base, ps) || p.commodity != base
  {
    var s := ps + [p];
    assert s[|ps|] == p && forall i :: 0 <= i < |ps| ==> s[i] == ps[i];
  }

  lemma {:induction false} ResolveAllFails(c: Context, lines: seq<Line>, i: nat)
    requires i < |lines| && ResolveAll(c, lines[..i]).Ok? && ResolveLine(c, lines[i]).Err?
    ensures ResolveAll(c, lines) == Err(ResolveLine(c, lines[i]).error)
  {
    var n := |lines| - 1;
    if i == n {
    } else {
      assert lines[..n][..i] == lines[..i];
      ResolveAllFails(c, lines[..n], i);
    }
  }

  // ----- what a resolved line promises -----

  /** A posting that keeps the store's rules under a base currency. */
  predicate Proper(w: World, b: Book, p: Posting) {
    p.account in b.accounts && p.commodity in w.commodities &&
    (p.commodity == b.base ==> p.base == p.amount)
  }

  predicate Precise(w: World, base: string, p: Posting) {
    OnGrid(p.amount, w.Places(p.commodity)) && OnGrid(p.base, w.Places(base))
  }

  predicate AllPrecise(w: World, b: Book) {
    forall t, p :: t in b.txns && p in t.postings ==> Precise(w, b.base, p)
  }

  /** Every base amount is on the base currency's grid. */
  predicate BasePrecise(w: World, b: Book) {
    forall t, p :: t in b.txns && p in t.postings ==> OnGrid(p.base, w.Places(b.base))
  }

  lemma PreciseBases(w: World, b: Book)
    requires AllPrecise(w, b)
    ensures BasePrecise(w, b)
  {
    hide OnGrid;
    forall t, p | t in b.txns && p in t.postings ensures OnGrid(p.base, w.Places(b.base)) {
      assert Precise(w, b.base, p);
    }
  }

  lemma {:induction false} WithoutFrom(txns: seq<Txn>, id: int, t: Txn)
    requires t in Without(txns, id)
    ensures t in txns
  {
    var n := |txns| - 1;
    if t in Without(txns[..n], id) {
      WithoutFrom(txns[..n], id, t);
    }
  }

  lemma CostOnGrid(c: Context, account: int)
    requires BasePrecise(c.w, c.b)
    ensures OnGrid(CostBasisOf(c.b.txns, account, c.date, c.exclude).cost, c.BasePlaces())
  {
    hide OnGrid;
    var txns := Without(c.b.txns, c.exclude);
    var ps := Upto(txns, c.date);
    forall p | p in ps ensures OnGrid(BaseOf({account})(p), c.BasePlaces()) {
      UptoFrom(txns, c.date, p);
      var i :| 0 <= i < |txns| && txns[i].date <= c.date && p in txns[i].postings;
      WithoutFrom(c.b.txns, c.exclude, txns[i]);
      assert txns[i] in c.b.txns && OnGrid(p.base, c.BasePlaces());
      GridZero(c.BasePlaces());
    }
    SumOnGrid(ps, BaseOf({account}), c.BasePlaces());
  }

  lemma ResolvedProper(c: Context, l: Line)
    requires ResolveLine(c, l).Ok?
    ensures Proper(c.w, c.b, ResolveLine(c, l).value)
    ensures ResolveLine(c, l).value.account == l.account
    ensures ResolveLine(c, l).value.amount == l.amount != 0.0
    ensures BasePrecise(c.w, c.b) ==> Precise(c.w, c.b.base, ResolveLine(c, l).value)
  {
    var p := ResolveLine(c, l).value;
    RoundIdentity(l.amount, c.w.Places(p.commodity));
    if BasePrecise(c.w, c.b) {
      LineBasePrecise(c, l, c.b.accounts[l.account].cls, p.commodity);
    }
  }

  lemma ConvertedPrecise(c: Context, commodity: string, units: real)
    requires Converted(c, commodity, units).Ok?
    ensures OnGrid(Converted(c, commodity, units).value, c.BasePlaces())
  {
    hide OnGrid, Round, RateOn;
    RoundOnGrid(Times(units, RateOn(c.w, commodity, c.b.base, c.date).value), c.BasePlaces());
  }

  lemma AverageCostPrecise(c: Context, account: int, amount: real)
    requires amount < 0.0 && BasePrecise(c.w, c.b) && AverageCost(c, account, amount).Ok?
    ensures OnGrid(AverageCost(c, account, amount).value, c.BasePlaces())
  {
    hide OnGrid, DivRound, CostBasisOf;
    var cb := CostBasisOf(c.b.txns, account, c.date, c.exclude);
    CostOnGrid(c, account);
    GridClosed(cb.cost, cb.cost, c.BasePlaces());
    if cb.quantity > 0.0 && -amount != cb.quantity {
      DivRoundOnGrid(Times(amount, cb.cost), cb.quantity, c.BasePlaces());
    }
  }

  lemma LineBasePrecise(c: Context, l: Line, cls: Class, commodity: string)
    requires commodity in c.w.commodities && BasePrecise(c.w, c.b)
    requires OnGrid(l.amount, c.w.Places(commodity))
    requires LineBase(c, l, cls, commodity).Ok?
    ensures OnGrid(LineBase(c, l, cls, commodity).value, c.BasePlaces())
  {
    hide OnGrid, HasPrecision, Converted, AverageCost;
    var kind := c.w.commodities[commodity].kind;
    if commodity == c.b.base {
    } else if l.base.Some? {
      RoundIdentity(l.base.value, c.BasePlaces());
    } else if kind.Currency? {
      ConvertedPrecise(c, commodity, l.amount);
    } else if kind.Security? && l.unitCost.Some? && l.amount > 0.0 {
      ConvertedPrecise(c, kind.quote, Times(l.amount, l.unitCost.value));
    } else {
      AverageCostPrecise(c, l.account, l.amount);
    }
  }

  // ----- what a line resolves to, and which lines do -----

  /** v is x at a rate, to half a unit. */
  predicate AtRate(x: real, rate: real, places: nat, v: real) {
    Abs(v - Times(x, rate)) <= Unit(places) / 2.0
  }

  /** What the account holds, or else what the line names, or else the base. */
  function NamedBy(c: Context, l: Line): string
    requires l.account in c.b.accounts
  {
    if c.b.accounts[l.account].commodity.Some? then c.b.accounts[l.account].commodity.value
    else if l.commodity == "" then c.b.base
    else l.commodity
  }

  /** Bought at a price of its own: units of a security with their unit cost. */
  predicate BoughtAt(c: Context, l: Line, commodity: string) {
    commodity in c.w.commodities && c.w.commodities[commodity].kind.Security? && l.unitCost.Some? && l.amount > 0.0
  }

  predicate IsMoney(c: Context, commodity: string) {
    commodity in c.w.commodities && c.w.commodities[commodity].kind.Currency?
  }

  /** v is the average cost of the units that go, to half a unit; all of the
      cost when all of them go. */
  predicate AtAverage(h: CostBasis, amount: real, places: nat, v: real) {
    0.0 < -amount <= h.quantity &&
    if -amount == h.quantity then v == -h.cost else Abs(v - Times(amount, h.cost) / h.quantity) <= Unit(places) / 2.0
  }

  /** A resolved line has the line's account and amount, in the commodity of the
      account. Its base amount is the amount itself in the base currency, else
      what is given; else money is converted at the day's rate, units bought at
      a unit cost at the rate of what they are quoted in, and units that go
      leave at average cost. */
  lemma ResolvedIs(c: Context, l: Line)
    requires ResolveLine(c, l).Ok?
    ensures var p := ResolveLine(c, l).value;
      p.account == l.account && p.amount == l.amount && l.account in c.b.accounts && p.commodity == NamedBy(c, l) &&
      (p.commodity == c.b.base ==> p.base == l.amount) &&
      (p.commodity != c.b.base && l.base.Some? ==> p.base == l.base.value)
    ensures var p := ResolveLine(c, l).value;
      p.commodity != c.b.base && l.base.None? ==>
        if IsMoney(c, p.commodity) then
          RateOn(c.w, p.commodity, c.b.base, c.date).Some? &&
          AtRate(l.amount, RateOn(c.w, p.commodity, c.b.base, c.date).value, c.BasePlaces(), p.base)
        else if BoughtAt(c, l, p.commodity) then
          var quote := c.w.commodities[p.commodity].kind.quote;
          RateOn(c.w, quote, c.b.base, c.date).Some? &&
          AtRate(Times(l.amount, l.unitCost.value), RateOn(c.w, quote, c.b.base, c.date).value, c.BasePlaces(), p.base)
        else AtAverage(CostBasisOf(c.b.txns, l.account, c.date, c.exclude), l.amount, c.BasePlaces(), p.base)
  {
    hide HasPrecision, CostBasisOf, RateOn, Round, Times, Unit;
    var p, h := ResolveLine(c, l).value, CostBasisOf(c.b.txns, l.account, c.date, c.exclude);
    if p.commodity != c.b.base && l.base.None? {
      if IsMoney(c, p.commodity) {
        RoundHalfUnit(Times(l.amount, RateOn(c.w, p.commodity, c.b.base, c.date).value), c.BasePlaces());
      } else if BoughtAt(c, l, p.commodity) {
        var rate := RateOn(c.w, c.w.commodities[p.commodity].kind.quote, c.b.base, c.date).value;
        RoundHalfUnit(Times(Times(l.amount, l.unitCost.value), rate), c.BasePlaces());
      } else {
        RoundHalfUnit(Times(l.amount, h.cost) / h.quantity, c.BasePlaces());
      }
    }
  }

  /** A base amount can be found: it is given, and fits, or follows. */
  predicate HasBase(c: Context, l: Line, commodity: string)
    requires l.account in c.b.accounts && commodity in c.w.commodities
  {
    commodity == c.b.base ||
    if l.base.Some? then
      OnGrid(l.base.value, c.BasePlaces()) && !(l.base.value < 0.0 < l.amount) && !(l.amount < 0.0 < l.base.value)
    else if IsMoney(c, commodity) then RateOn(c.w, commodity, c.b.base, c.date).Some?
    else if BoughtAt(c, l, commodity) then RateOn(c.w, c.w.commodities[commodity].kind.quote, c.b.base, c.date).Some?
    else
      var h := CostBasisOf(c.b.txns, l.account, c.date, c.exclude);
      c.b.accounts[l.account].cls !in {Income, Expense} && 0.0 < -l.amount <= h.quantity
  }

  /** A line resolves exactly when its account takes postings, in the commodity
      it names if any, the amount is not zero and no finer than that allows, and
      a base amount can be found. */
  lemma ResolvesIff(c: Context, l: Line)
    ensures ResolveLine(c, l).Ok? <==>
      l.account in c.b.accounts && !c.b.accounts[l.account].placeholder && !c.b.accounts[l.account].archived &&
      (l.commodity == "" || l.commodity == NamedBy(c, l)) && NamedBy(c, l) in c.w.commodities &&
      l.amount != 0.0 && OnGrid(l.amount, c.w.Places(NamedBy(c, l))) && HasBase(c, l, NamedBy(c, l))
  {
    hide HasPrecision, CostBasisOf, RateOn, Round, Times, OnGrid;
    if l.account in c.b.accounts {
      RoundIdentity(l.amount, c.w.Places(NamedBy(c, l)));
      if l.base.Some? {
        RoundIdentity(l.base.value, c.BasePlaces());
      }
    }
  }

  /** The cost basis adds up the account's postings by the day, but for the
      transaction left out: one transaction more adds its own. */
  lemma BasisIs(txns: seq<Txn>, t: Txn, account: int, on: int, exclude: int)
    ensures CostBasisOf([], account, on, exclude) == CostBasis(0.0, 0.0)
    ensures var h, more := CostBasisOf(txns, account, on, exclude), CostBasisOf(txns + [t], account, on, exclude);
      if t.date <= on && t.id != exclude then
        more.quantity == h.quantity + Sum(t.postings, UnitsOf(account)) &&
        more.cost == h.cost + Sum(t.postings, BaseOf({account}))
      else more == h
  {
    hide Sum;
    assert (txns + [t])[..|txns|] == txns;
    var kept := Without(txns, exclude);
    SumNil([], UnitsOf(account));
    SumNil([], BaseOf({account}));
    if t.id != exclude {
      assert (kept + [t])[..|kept|] == kept;
      var dated := if t.date <= on then t.postings else [];
      SumConcat(Upto(kept, on), dated, UnitsOf(account));
      SumConcat(Upto(kept, on), dated, BaseOf({account}));
    } else {
      assert kept + [] == kept;
    }
  }

  lemma {:induction false} ResolvedAllProper(c: Context, lines: seq<Line>)
    requires ResolveAll(c, lines).Ok?
    ensures var ps := ResolveAll(c, lines).value;
      |ps| == |lines| &&
      forall i :: 0 <= i < |lines| ==> ResolveLine(c, lines[i]) == Ok(ps[i]) && Proper(c.w, c.b, ps[i])
    ensures BasePrecise(c.w, c.b) ==>
      forall p :: p in ResolveAll(c, lines).value ==> Precise(c.w, c.b.base, p)
  {
    hide ResolveLine, Proper, Precise;
    if |lines| > 0 {
      var n := |lines| - 1;
      ResolvedAllProper(c, lines[..n]);
      ResolvedProper(c, lines[n]);
    }
  }

  predicate KeysKnown(w: World, b: Book) {
    b.base in w.commodities && forall k :: k in b.keys ==> b.keys[k] in b.accounts
  }

  predicate FxAppended(c: Context, ps: seq<Posting>, out: seq<Posting>) {
    FX_GAIN_LOSS in c.b.keys &&
    out == ps + [FxLine(c.b.keys[FX_GAIN_LOSS], c.b.base, -Sum(ps, Base()))]
  }

  /** Closing leaves balanced postings alone and gives the others one FX line. */
  lemma CloseBalances(c: Context, ps: seq<Posting>)
    requires Close(c, ps).Ok?
    ensures var out := Close(c, ps).value;
      Sum(out, Base()) == 0.0 &&
      (out == ps || (FxAppended(c, ps, out) && 0.0 < Abs(Sum(ps, Base())) <= Unit(c.BasePlaces())))
  {
    hide Foreign, Unit;
    var total := Sum(ps, Base());
    if total != 0.0 {
      SumAppend(ps, FxLine(c.b.keys[FX_GAIN_LOSS], c.b.base, -total), Base());
    }
  }

  /** The central rule: what prepareLines lets through has at least two
      postings, sums to zero in the base currency, keeps every posting's own
      rules, and is the resolved lines in order plus at most one FX line of
      at most one minor unit. */
  lemma PreparedBalances(c: Context, lines: seq<Line>)
    requires KeysKnown(c.w, c.b) && Prepare(c, lines).Ok?
    ensures var ps := ResolveAll(c, lines);
      var out := Prepare(c, lines).value;
      ps.Ok? && |ps.value| == |lines| >= 2 && Sum(out, Base()) == 0.0 &&
      (forall p :: p in out ==> Proper(c.w, c.b, p)) &&
      (out == ps.value ||
       (FxAppended(c, ps.value, out) && 0.0 < Abs(Sum(ps.value, Base())) <= Unit(c.BasePlaces())))
  {
    hide ResolveLine, ResolveAll, Unit, Sum, Close, Abs;
    ResolvedAllProper(c, lines);
    CloseBalances(c, ResolveAll(c, lines).value);
  }

  /** With base amounts on their grid the result is wholly precise, and an FX
      line is exactly one minor unit. */
  lemma PreparedPrecise(c: Context, lines: seq<Line>)
    requires KeysKnown(c.w, c.b) && Prepare(c, lines).Ok? && BasePrecise(c.w, c.b)
    ensures var ps := ResolveAll(c, lines).value;
      var out := Prepare(c, lines).value;
      (forall p :: p in out ==> Precise(c.w, c.b.base, p)) &&
      (out != ps ==> Abs(Sum(ps, Base())) == Unit(c.BasePlaces()))
  {
    hide ResolveLine, ResolveAll, Unit, Sum, Close, Proper, OnGrid;
    PreparedBalances(c, lines);
    ResolvedAllProper(c, lines);
    var ps := ResolveAll(c, lines).value;
    if Prepare(c, lines).value != ps {
      var total := Sum(ps, Base());
      SumOnGrid(ps, Base(), c.BasePlaces());
      GridClosed(total, total, c.BasePlaces());
      GridGap(total, c.BasePlaces());
    }
  }

  predicate ForeignLine(c: Context, l: Line) {
    ResolveLine(c, l).Ok? && ResolveLine(c, l).value.commodity != c.b.base
  }

  lemma ForeignLines(c: Context, lines: seq<Line>)
    requires ResolveAll(c, lines).Ok?
    ensures Foreign(c.b.base, ResolveAll(c, lines).value) <==> exists l :: l in lines && ForeignLine(c, l)
  {
    hide ResolveLine, Proper, Precise, ResolveAll;
    ResolvedAllProper(c, lines);
    var ps := ResolveAll(c, lines).value;
    if Foreign(c.b.base, ps) {
      var i :| 0 <= i < |ps| && ps[i].commodity != c.b.base;
      assert ForeignLine(c, lines[i]);
    }
  }

  /** Two lines or more, each of which resolves, that balance, or are off by at
      most a minor unit with a foreign line among them and an account for it. */
  predicate Admits(c: Context, lines: seq<Line>) {
    |lines| >= 2 && ResolveAll(c, lines).Ok? &&
    var total := Sum(ResolveAll(c, lines).value, Base());
    total == 0.0 ||
    (Abs(total) <= Unit(c.BasePlaces()) && FX_GAIN_LOSS in c.b.keys && exists l :: l in lines && ForeignLine(c, l))
  }

  /** Exactly when the lines are accepted. An imbalance of one minor unit is
      repaired when a line is foreign, whoever sends it. */
  lemma PreparedIff(c: Context, lines: seq<Line>)
    ensures Prepare(c, lines).Ok? <==> Admits(c, lines)
  {
    hide ResolveAll, Unit, Foreign, ForeignLine, Sum, Abs;
    if ResolveAll(c, lines).Ok? {
      ForeignLines(c, lines);
    }
  }
}
