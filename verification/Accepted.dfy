// The lines the review queue books (internal/ledger/imports.go Accept and
// baseValue, internal/ledger/securities.go bookTrade), and why they balance
// exactly: no FX-rounding line is ever needed for them.
module Accepted {
  import opened Decimals
  import opened Sums
  import opened Core
  import opened Rates
  import opened Lines
  import opened Journal

  /** One side of a bank movement: an amount on an account, on a day. */
  datatype Side = Side(account: int, currency: string, amount: real, date: int)

  // ----- the lines -----

  /** "new": the row against its category. */
  function NewLines(r: Side, category: int): seq<Line> {
    [Plain(r.account, r.currency, r.amount), Plain(category, r.currency, -r.amount)]
  }

  function BaseValue(w: World, base: string, r: Side, other: Side): Result<real> {
    if base == r.currency then Ok(r.amount)
    else if base == other.currency then Ok(-other.amount)
    else match RateOn(w, r.currency, base, r.date)
      case None => Err(RateMissing)
      case Some(rate) => Ok(Round(Times(r.amount, rate), w.Places(base)))
  }

  /** "transfer": both sides; an exchange pins one value in the base for both. */
  function TransferLines(w: World, base: string, r: Side, other: Side): Result<seq<Line>> {
    if r.currency == other.currency then
      Ok([Plain(r.account, r.currency, r.amount), Plain(other.account, other.currency, other.amount)])
    else
      var v :- BaseValue(w, base, r, other);
      Ok([Line(r.account, r.currency, r.amount, Some(v), None),
          Line(other.account, other.currency, other.amount, Some(-v), None)])
  }

  function ClearedLine(base: string, r: Side, p: Posting): Line {
    if p.account == r.account then Plain(p.account, p.commodity, r.amount)
    else if p.commodity == r.currency then Plain(p.account, p.commodity, -r.amount)
    else if r.currency == base then Line(p.account, p.commodity, p.amount, Some(-r.amount), None)
    else Plain(p.account, p.commodity, p.amount)
  }

  /** "clears": the estimate's own legs, at the posted amount. */
  function ClearsLines(base: string, r: Side, ps: seq<Posting>): (lines: seq<Line>)
    ensures |lines| == |ps|
    ensures forall i :: 0 <= i < |ps| ==> lines[i] == ClearedLine(base, r, ps[i])
  {
    if |ps| == 0 then [] else
      ClearsLines(base, r, ps[..|ps| - 1]) + [ClearedLine(base, r, ps[|ps| - 1])]
  }

  method ClearsLoop(base: string, r: Side, ps: seq<Posting>) returns (lines: seq<Line>)
    ensures |lines| == |ps| && forall i :: 0 <= i < |ps| ==> lines[i] == ClearedLine(base, r, ps[i])
    ensures lines == ClearsLines(base, r, ps)
  {
    lines := [];
    for i := 0 to |ps|
      invariant lines == ClearsLines(base, r, ps[..i])
    {
      assert ps[..i + 1][..i] == ps[..i];
      lines := lines + [ClearedLine(base, r, ps[i])];
    }
    assert ps[..|ps|] == ps;
  }

  // ----- two lines with opposite bases -----

  predicate Money(w: World, base: string, c: string) {
    c != "" && c in w.commodities && (c == base || w.commodities[c].kind.Currency?)
  }

  /** Accepted as they are: the two resolved postings and nothing else. */
  predicate BooksPair(c: Context, l: Line, m: Line) {
    ResolveLine(c, l).Ok? && ResolveLine(c, m).Ok? &&
    ResolveLine(c, l).value.base == -ResolveLine(c, m).value.base &&
    Prepare(c, [l, m]) == Ok([ResolveLine(c, l).value, ResolveLine(c, m).value])
  }

  lemma PairBooks(c: Context, l: Line, m: Line)
    requires ResolveLine(c, l).Ok? && ResolveLine(c, m).Ok?
    requires ResolveLine(c, l).value.base == -ResolveLine(c, m).value.base
    ensures BooksPair(c, l, m)
  {
    hide ResolveLine;
    var p, q := ResolveLine(c, l).value, ResolveLine(c, m).value;
    ResolvePair(c, l, m);
    SumPair(p, q, Base());
  }

  lemma ResolvePair(c: Context, l: Line, m: Line)
    ensures ResolveAll(c, [l, m]) ==
      if ResolveLine(c, l).Err? then Err(ResolveLine(c, l).error)
      else if ResolveLine(c, m).Err? then Err(ResolveLine(c, m).error)
      else Ok([ResolveLine(c, l).value, ResolveLine(c, m).value])
  {
    hide ResolveLine;
    assert [l, m][..1] == [l];
    ResolveOne(c, l);
    if ResolveLine(c, l).Ok? && ResolveLine(c, m).Ok? {
      assert [ResolveLine(c, l).value] + [ResolveLine(c, m).value] == [ResolveLine(c, l).value, ResolveLine(c, m).value];
    }
  }

  lemma ResolveOne(c: Context, l: Line)
    ensures ResolveAll(c, [l]) == if ResolveLine(c, l).Err? then Err(ResolveLine(c, l).error)
      else Ok([ResolveLine(c, l).value])
  {
    hide ResolveLine;
    assert [l][..0] == [];
    if ResolveLine(c, l).Ok? {
      assert [] + [ResolveLine(c, l).value] == [ResolveLine(c, l).value];
    }
  }

  lemma PairRefused(c: Context, l: Line, m: Line)
    requires ResolveLine(c, l).Err? || ResolveLine(c, m).Err?
    ensures Prepare(c, [l, m]).Err?
  {
    hide ResolveLine;
    ResolvePair(c, l, m);
  }

  /** A plain line in money resolves to its amount at the day's rate. */
  lemma MoneyLine(c: Context, account: int, currency: string, amount: real)
    requires Money(c.w, c.b.base, currency) && ResolveLine(c, Plain(account, currency, amount)).Ok?
    ensures var p := ResolveLine(c, Plain(account, currency, amount)).value;
      p.commodity == currency &&
      p.base == if currency == c.b.base then amount
                else Round(Times(amount, RateOn(c.w, currency, c.b.base, c.date).value), c.BasePlaces())
    ensures currency == c.b.base || RateOn(c.w, currency, c.b.base, c.date).Some?
  {
    hide HasPrecision, Round, Times, RateOn, CostBasisOf;
  }

  lemma OppositeMoney(c: Context, account: int, other: int, currency: string, amount: real)
    requires Money(c.w, c.b.base, currency)
    requires ResolveLine(c, Plain(account, currency, amount)).Ok?
    requires ResolveLine(c, Plain(other, currency, -amount)).Ok?
    ensures BooksPair(c, Plain(account, currency, amount), Plain(other, currency, -amount))
  {
    hide ResolveLine, Round, Times, RateOn;
    MoneyLine(c, account, currency, amount);
    MoneyLine(c, other, currency, -amount);
    if currency != c.b.base {
      var rate := RateOn(c.w, currency, c.b.base, c.date).value;
      TimesFacts(amount, 0.0, rate);
      RoundOdd(Times(amount, rate), c.BasePlaces());
    }
    PairBooks(c, Plain(account, currency, amount), Plain(other, currency, -amount));
  }

  // ----- the accepted rows -----

  /** A new row in money is booked exactly when both lines resolve, and then as
      those two postings alone: rounding is odd, so they cancel. */
  lemma NewRowExact(c: Context, r: Side, category: int)
    requires Money(c.w, c.b.base, r.currency)
    ensures var l, m := Plain(r.account, r.currency, r.amount), Plain(category, r.currency, -r.amount);
      (Prepare(c, NewLines(r, category)).Ok? <==> ResolveLine(c, l).Ok? && ResolveLine(c, m).Ok?) &&
      (Prepare(c, NewLines(r, category)).Ok? ==> BooksPair(c, l, m))
  {
    hide ResolveLine, Prepare;
    var l, m := Plain(r.account, r.currency, r.amount), Plain(category, r.currency, -r.amount);
    if ResolveLine(c, l).Ok? && ResolveLine(c, m).Ok? {
      OppositeMoney(c, r.account, category, r.currency, r.amount);
    } else {
      PairRefused(c, l, m);
    }
  }

  /** A pinned line carries the pinned base, unless it is in the base itself. */
  lemma PinnedLine(c: Context, account: int, currency: string, amount: real, base: real)
    requires currency != "" && ResolveLine(c, Line(account, currency, amount, Some(base), None)).Ok?
    ensures ResolveLine(c, Line(account, currency, amount, Some(base), None)).value.base ==
      if currency == c.b.base then amount else base
  {
    hide HasPrecision, CostBasisOf, RateOn;
  }

  /** Both sides of a transfer, in one currency or two. */
  lemma TransferExact(c: Context, r: Side, other: Side)
    requires r.currency != "" && other.currency != ""
    requires r.currency == other.currency ==> Money(c.w, c.b.base, r.currency) && other.amount == -r.amount
    ensures var lines := TransferLines(c.w, c.b.base, r, other);
      lines.Ok? ==>
        var l, m := lines.value[0], lines.value[1];
        lines.value == [l, m] &&
        (Prepare(c, lines.value).Ok? <==> ResolveLine(c, l).Ok? && ResolveLine(c, m).Ok?) &&
        (Prepare(c, lines.value).Ok? ==> BooksPair(c, l, m))
  {
    hide ResolveLine, Prepare, Round, RateOn;
    var lines := TransferLines(c.w, c.b.base, r, other);
    if lines.Ok? {
      var l, m := lines.value[0], lines.value[1];
      if ResolveLine(c, l).Err? || ResolveLine(c, m).Err? {
        PairRefused(c, l, m);
      } else if r.currency == other.currency {
        OppositeMoney(c, r.account, other.account, r.currency, r.amount);
      } else {
        var v := BaseValue(c.w, c.b.base, r, other).value;
        PinnedLine(c, r.account, r.currency, r.amount, v);
        PinnedLine(c, other.account, other.currency, other.amount, -v);
        PairBooks(c, l, m);
      }
    }
  }

  /** An estimate of two legs cleared by its posted row: exact when the other
      leg shares the row's currency, or the row is in the base currency. */
  lemma ClearsExact(c: Context, r: Side, leg: Posting, other: Posting)
    requires Money(c.w, c.b.base, r.currency) && other.commodity != ""
    requires leg.account == r.account && leg.commodity == r.currency && other.account != r.account
    requires other.commodity == r.currency || r.currency == c.b.base
    ensures var l, m := ClearedLine(c.b.base, r, leg), ClearedLine(c.b.base, r, other);
      ClearsLines(c.b.base, r, [leg, other]) == [l, m] &&
      ClearsLines(c.b.base, r, [other, leg]) == [m, l] &&
      (Prepare(c, [l, m]).Ok? <==> ResolveLine(c, l).Ok? && ResolveLine(c, m).Ok?) &&
      (Prepare(c, [l, m]).Ok? ==> BooksPair(c, l, m) && BooksPair(c, m, l))
  {
    hide ResolveLine, Prepare;
    var base := c.b.base;
    var l, m := ClearedLine(base, r, leg), ClearedLine(base, r, other);
    ClearsPair(base, r, leg, other);
    ClearsPair(base, r, other, leg);
    if ResolveLine(c, l).Err? || ResolveLine(c, m).Err? {
      PairRefused(c, l, m);
    } else {
      if other.commodity == r.currency {
        OppositeMoney(c, r.account, other.account, r.currency, r.amount);
      } else {
        MoneyLine(c, r.account, r.currency, r.amount);
        PinnedLine(c, other.account, other.commodity, other.amount, -r.amount);
        PairBooks(c, l, m);
      }
      PairBooks(c, m, l);
    }
  }

  lemma ClearsPair(base: string, r: Side, p: Posting, q: Posting)
    ensures ClearsLines(base, r, [p, q]) == [ClearedLine(base, r, p), ClearedLine(base, r, q)]
  {
    assert [p, q][..1] == [p] && [p][..0] == [];
    assert ClearsLines(base, r, [p]) == [ClearedLine(base, r, p)];
  }

  // ----- trades -----

  /** units of a security for cash on the settlement account. */
  datatype Trade = Trade(security: int, settlement: int, currency: string, units: real, price: Option<real>,
                         cash: real, date: int)

  function CashLine(t: Trade): Line {
    Plain(t.settlement, t.currency, t.cash)
  }

  function GainsLine(gains: int, base: string, gain: real): Line {
    Plain(gains, base, gain)
  }

  /** Bought, the shares cost what was paid; sold, they take out their average
      cost, and what cash brings beyond it is booked as the gain. */
  function TradeLines(w: World, b: Book, t: Trade): Result<seq<Line>> {
    if t.cash == 0.0 then Err(Required)
    else if Sign(t.cash) == Sign(t.units) then Err(SignMismatch)
    else
      var c := Context(w, b, t.date, 0);
      var cash :- ResolveLine(c, CashLine(t));
      if t.units > 0.0 then
        Ok([Line(t.security, "", t.units, Some(-cash.base), t.price), CashLine(t)])
      else
        var sec :- ResolveLine(c, Plain(t.security, "", t.units));
        var gain := -(cash.base + sec.base);
        if gain == 0.0 then Ok([Plain(t.security, "", t.units), CashLine(t)])
        else match AccountByKey(b, REALIZED_GAINS)
          case None => Err(NotFound)
          case Some(gains) => Ok([Plain(t.security, "", t.units), CashLine(t), GainsLine(gains, b.base, gain)])
  }

  function BookTrade(w: World, b: Book, t: Trade): Result<Book> {
    var lines :- TradeLines(w, b, t);
    CreateTx(w, b, t.date, lines)
  }

  /** bookTrade on the store: the lines are resolved once to find the figures
      and again when they are written. */
  method BookTradeIn(l: Ledger, w: World, t: Trade) returns (r: Result<int>)
    modifies l
    ensures match BookTrade(w, old(l.Current()), t)
      case Ok(b) => r == Ok(old(l.nextId)) && l.Current() == b
      case Err(e) => r == Err(e) && l.Current() == old(l.Current())
  {
    hide ResolveLine, CreateTx;
    var lines := TradeLines(w, l.Current(), t);
    if lines.Err? {
      return Err(lines.error);
    }
    r := l.CreateUnchecked(w, t.date, lines.value);
  }

  /** The new transaction's empty header, left out of the cost basis, changes
      nothing: a line resolves the same before and while it is written. */
  lemma SameResolution(w: World, b: Book, date: int, l: Line)
    requires Ordered(b)
    ensures var written := WithPostings(Headed(b, date), |b.txns|, date, []);
      ResolveLine(Context(w, b, date, 0), l) == ResolveLine(Context(w, written, date, b.nextId), l)
  {
    hide HasPrecision, CostBasisOf, RateOn, Round, DivRound, Times, Ordered;
    SameBasis(b, date);
  }

  lemma SameBasis(b: Book, date: int)
    requires Ordered(b)
    ensures var written := WithPostings(Headed(b, date), |b.txns|, date, []);
      forall account :: CostBasisOf(b.txns, account, date, 0) == CostBasisOf(written.txns, account, date, b.nextId)
  {
    hide Sum, Upto, Without, Ordered;
    SameOthers(b, date);
  }

  lemma SameOthers(b: Book, date: int)
    requires Ordered(b)
    ensures Without(b.txns, 0) == b.txns
    ensures Without(WithPostings(Headed(b, date), |b.txns|, date, []).txns, b.nextId) == b.txns
  {
    var written := WithPostings(Headed(b, date), |b.txns|, date, []);
    assert written.txns == b.txns + [Txn(b.nextId, date, [])];
    assert written.txns[..|b.txns|] == b.txns;
    assert forall i :: 0 <= i < |b.txns| ==> b.txns[i] in b.txns;
    WithoutNone(b.txns, 0);
    WithoutNone(b.txns, b.nextId);
  }

  predicate Absent(txns: seq<Txn>, id: int) {
    forall i :: 0 <= i < |txns| ==> txns[i].id != id
  }

  lemma {:induction false} WithoutNone(txns: seq<Txn>, id: int)
    requires Absent(txns, id)
    ensures Without(txns, id) == txns
  {
    if |txns| > 0 {
      WithoutNone(txns[..|txns| - 1], id);
    }
  }

  /** The security account holds something other than the base currency. */
  predicate HoldsSecurity(b: Book, account: int) {
    account in b.accounts && b.accounts[account].commodity.Some? && b.accounts[account].commodity.value != b.base
  }

  lemma SecurityLine(c: Context, l: Line)
    requires HoldsSecurity(c.b, l.account) && l.base.Some? && ResolveLine(c, l).Ok?
    ensures ResolveLine(c, l).value.base == l.base.value
  {
    hide HasPrecision, CostBasisOf, RateOn;
  }

  lemma BaseLine(c: Context, account: int, amount: real)
    requires c.b.base != "" && ResolveLine(c, Plain(account, c.b.base, amount)).Ok?
    ensures ResolveLine(c, Plain(account, c.b.base, amount)).value.base == amount
  {
    hide HasPrecision, CostBasisOf, RateOn;
  }

  /** Every trade that books is its own resolved lines, summing to zero: the
      cash is the cost of a buy, and a sale's gain is exactly what is left. */
  lemma TradeExact(w: World, b: Book, t: Trade)
    requires Ordered(b) && HoldsSecurity(b, t.security) && b.base != "" && BookTrade(w, b, t).Ok?
    ensures var lines := TradeLines(w, b, t).value;
      var c := Context(w, WithPostings(Headed(b, t.date), |b.txns|, t.date, []), t.date, b.nextId);
      var written := BookTrade(w, b, t).value.txns[|b.txns|].postings;
      2 <= |lines| <= 3 && ResolveAll(c, lines) == Ok(written) && |written| == |lines| && Sum(written, Base()) == 0.0
  {
    hide ResolveLine, Ordered, Sum;
    var cleared := WithPostings(Headed(b, t.date), |b.txns|, t.date, []);
    var c := Context(w, cleared, t.date, b.nextId);
    var lines := TradeLines(w, b, t).value;
    assert Prepare(c, lines).Ok? && ResolveAll(c, lines).Ok?;
    var ps := ResolveAll(c, lines).value;
    SameResolution(w, b, t.date, CashLine(t));
    SameResolution(w, b, t.date, lines[0]);
    if |lines| == 2 {
      ResolvePair(c, lines[0], lines[1]);
      SumPair(ps[0], ps[1], Base());
      assert lines == [lines[0], lines[1]];
      if t.units > 0.0 {
        SecurityLine(c, lines[0]);
      }
    } else {
      ResolveTriple(c, lines[0], lines[1], lines[2]);
      assert lines == [lines[0], lines[1], lines[2]];
      BaseLine(c, lines[2].account, lines[2].amount);
      SumTriple(ps[0], ps[1], ps[2], Base());
    }
  }

  lemma ResolveTriple(c: Context, l: Line, m: Line, n: Line)
    requires ResolveAll(c, [l, m, n]).Ok?
    ensures ResolveLine(c, l).Ok? && ResolveLine(c, m).Ok? && ResolveLine(c, n).Ok?
    ensures ResolveAll(c, [l, m, n]) ==
      Ok([ResolveLine(c, l).value, ResolveLine(c, m).value, ResolveLine(c, n).value])
  {
    hide ResolveLine;
    assert [l, m, n][..2] == [l, m];
    ResolvePair(c, l, m);
    var p, q, r := ResolveLine(c, l).value, ResolveLine(c, m).value, ResolveLine(c, n).value;
    assert [p, q] + [r] == [p, q, r];
  }

  lemma SumTriple(p: Posting, q: Posting, r: Posting, w: Posting -> real)
    ensures Sum([p, q, r], w) == w(p) + w(q) + w(r)
  {
    assert [p, q, r] == [p, q] + [r];
    SumAppend([p, q], r, w);
    SumPair(p, q, w);
  }
}
