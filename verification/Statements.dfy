// The balance sheet and the income statement (internal/ledger/reports.go),
// computed from the grouped sums, and the identity that ties them together.
module Statements {
  import opened Decimals
  import opened Sums
  import opened Core
  import opened Rates
  import opened Lines
  import opened Journal
  import opened Groups

  /** The report currency, the rate into it and its places. */
  datatype Report = Report(currency: string, toReport: real, places: nat)

  /** Without a rate the report stays in the base currency. */
  function NewReport(w: World, base: string, currency: string, on: int): Result<Report> {
    var c := if currency == "" then base else currency;
    if !CurrencyCode(w, c) then Err(UnknownCommodity)
    else match RateOn(w, base, c, on)
      case Some(r) => Ok(Report(c, r, w.Places(c)))
      case None => Ok(Report(base, 1.0, w.Places(base)))
  }

  function Out(rp: Report, x: real): real {
    Round(Times(x, rp.toReport), rp.places)
  }

  /** What `amount` of c, which cost `hist`, is worth in the base on a day. */
  function Value(w: World, base: string, c: string, amount: real, hist: real, on: int): real {
    if c == base then amount
    else if c !in w.commodities then hist
    else match w.commodities[c].kind
      case Currency =>
        if amount == 0.0 then 0.0 else
          (match RateOn(w, c, base, on)
           case None => hist
           case Some(r) => Round(Times(amount, r), w.Places(base)))
      case Security(quote, contract) =>
        if contract then hist
        else if amount == 0.0 then 0.0 else
          (match RateOn(w, c, quote, on)
           case None => hist
           case Some(price) =>
             match RateOn(w, quote, base, on)
             case None => hist
             case Some(fx) => Round(Times(Times(amount, price), fx), w.Places(base)))
      case Points => hist
  }

  /** A security that is listed: not a contract. */
  predicate Listed(w: World, c: string) {
    c in w.commodities && w.commodities[c].kind.Security? && !w.commodities[c].kind.contract
  }

  predicate Money(w: World, c: string) {
    c in w.commodities && w.commodities[c].kind == Currency
  }

  /** What something is worth: itself in the base currency; nothing, where no
      units of money or of a listed security are held; their amount at the day's
      rate, or at the day's price and the rate of what that is quoted in, to half
      a unit; and its cost where one of those is missing, and for all else. */
  lemma ValueIs(w: World, base: string, c: string, amount: real, hist: real, on: int)
    ensures var v, places := Value(w, base, c, amount, hist, on), w.Places(base);
      if c == base then v == amount
      else if Money(w, c) then
        if amount == 0.0 then v == 0.0
        else if RateOn(w, c, base, on).None? then v == hist
        else AtRate(amount, RateOn(w, c, base, on).value, places, v)
      else if Listed(w, c) then
        var quote := w.commodities[c].kind.quote;
        if amount == 0.0 then v == 0.0
        else if RateOn(w, c, quote, on).None? || RateOn(w, quote, base, on).None? then v == hist
        else AtRate(Times(amount, RateOn(w, c, quote, on).value), RateOn(w, quote, base, on).value, places, v)
      else v == hist
  {
    hide RateOn, Round, Times, Unit;
    if Money(w, c) && RateOn(w, c, base, on).Some? {
      RoundHalfUnit(Times(amount, RateOn(w, c, base, on).value), w.Places(base));
    } else if Listed(w, c) {
      var price, fx := RateOn(w, c, w.commodities[c].kind.quote, on), RateOn(w, w.commodities[c].kind.quote, base, on);
      if price.Some? && fx.Some? {
        RoundHalfUnit(Times(Times(amount, price.value), fx.value), w.Places(base));
      }
    }
  }

  /** Money brought in at the day's rate, and units bought at the day's price,
      are worth that day exactly what their line resolved to. */
  lemma WorthItsCost(c: Context, l: Line, hist: real)
    requires ResolveLine(c, l).Ok? && l.base.None?
    requires var k := ResolveLine(c, l).value.commodity;
      k == c.b.base || Money(c.w, k) ||
      (Listed(c.w, k) && l.amount > 0.0 && l.unitCost.Some? &&
       l.unitCost == RateOn(c.w, k, c.w.commodities[k].kind.quote, c.date))
    ensures var p := ResolveLine(c, l).value; Value(c.w, c.b.base, p.commodity, p.amount, hist, c.date) == p.base
  {
    hide RateOn, Round, Times, HasPrecision, CostBasisOf;
  }

  predicate Revalued(b: Book, account: int) {
    account in b.accounts && (b.accounts[account].cls.Asset? || b.accounts[account].cls.Liability?)
  }

  /** A row at its value if an asset or liability, at cost otherwise. */
  function Worth(w: World, b: Book, on: int): SumRow -> real {
    (r: SumRow) => if Revalued(b, r.account) then Value(w, b.base, r.commodity, r.amount, r.base, on) else r.base
  }

  function Gain(w: World, b: Book, on: int): SumRow -> real {
    (r: SumRow) => Worth(w, b, on)(r) - r.base
  }

  function LinesOf(b: Book, rows: seq<SumRow>): (accounts: set<int>)
    ensures accounts <= b.accounts.Keys
  {
    set r | r in rows && r.account in b.accounts :: r.account
  }

  function OfClass(b: Book, cls: Class): set<int> {
    set a | a in b.accounts && b.accounts[a].cls == cls
  }

  function Part(b: Book, rows: seq<SumRow>, cls: Class, current: bool): set<int> {
    set a | a in LinesOf(b, rows) && b.accounts[a].cls == cls && b.accounts[a].isCurrent == current
  }

  function Shown(b: Book, rp: Report, rows: seq<SumRow>, g: SumRow -> real): int -> real {
    (a: int) => if a in b.accounts then Out(rp, Presented(b.accounts[a].cls, PerAccount(rows, g)(a))) else 0.0
  }

  function Presented(cls: Class, debit: real): real {
    if cls.Asset? || cls.Expense? then debit else -debit
  }

  // amount at value, historical at cost; both debit-positive, in the base.
  datatype AccountLine = AccountLine(amount: real, historical: real)

  predicate LinesAre(b: Book, rows: seq<SumRow>, g: SumRow -> real, lines: map<int, AccountLine>) {
    lines.Keys == LinesOf(b, rows) &&
    forall a :: a in lines ==>
      lines[a].amount == PerAccount(rows, g)(a) && lines[a].historical == PerAccount(rows, RowBase())(a)
  }

  function Enter(lines: map<int, AccountLine>, account: int, amount: real, base: real): map<int, AccountLine> {
    var before := if account in lines then lines[account] else AccountLine(0.0, 0.0);
    lines[account := AccountLine(before.amount + amount, before.historical + base)]
  }

  lemma PerAccountAppend(rows: seq<SumRow>, row: SumRow, g: SumRow -> real, a: int)
    ensures PerAccount(rows + [row], g)(a) == PerAccount(rows, g)(a) + (if row.account == a then g(row) else 0.0)
  {
    hide Sum;
    SumAppend(rows, row, On(g, {a}));
  }

  lemma PerAccountNone(b: Book, rows: seq<SumRow>, g: SumRow -> real, a: int)
    requires a in b.accounts && a !in LinesOf(b, rows)
    ensures PerAccount(rows, g)(a) == 0.0
  {
    hide Sum;
    SumNil(rows, On(g, {a}));
  }

  lemma LinesEnter(b: Book, rows: seq<SumRow>, row: SumRow, g: SumRow -> real, lines: map<int, AccountLine>)
    requires LinesAre(b, rows, g, lines) && row.account in b.accounts
    ensures LinesAre(b, rows + [row], g, Enter(lines, row.account, g(row), row.base))
  {
    hide PerAccount;
    var out := Enter(lines, row.account, g(row), row.base);
    assert LinesOf(b, rows + [row]) == LinesOf(b, rows) + {row.account};
    forall a | a in out
      ensures out[a].amount == PerAccount(rows + [row], g)(a)
      ensures out[a].historical == PerAccount(rows + [row], RowBase())(a)
    {
      PerAccountAppend(rows, row, g, a);
      PerAccountAppend(rows, row, RowBase(), a);
      if a !in lines {
        PerAccountNone(b, rows, g, a);
        PerAccountNone(b, rows, RowBase(), a);
      }
    }
  }

  lemma LinesSkip(b: Book, rows: seq<SumRow>, row: SumRow, g: SumRow -> real, lines: map<int, AccountLine>)
    requires LinesAre(b, rows, g, lines) && row.account !in b.accounts
    ensures LinesAre(b, rows + [row], g, lines)
  {
    hide PerAccount;
    assert LinesOf(b, rows + [row]) == LinesOf(b, rows);
    forall a | a in lines
      ensures PerAccount(rows + [row], g)(a) == PerAccount(rows, g)(a)
      ensures PerAccount(rows + [row], RowBase())(a) == PerAccount(rows, RowBase())(a)
    {
      PerAccountAppend(rows, row, g, a);
      PerAccountAppend(rows, row, RowBase(), a);
    }
  }

  predicate RowsKnown(b: Book, rows: seq<SumRow>) {
    forall r :: r in rows ==> r.account in b.accounts
  }

  /** One pass over the rows: each account's line and the total revaluation. */
  method Balances(w: World, b: Book, rows: seq<SumRow>, on: int) returns (lines: map<int, AccountLine>, reval: real)
    ensures LinesAre(b, rows, Worth(w, b, on), lines)
    ensures reval == Sum(rows, Gain(w, b, on))
  {
    hide Value, LinesAre, Enter;
    lines, reval := map[], 0.0;
    assert rows[..0] == [];
    assert LinesAre(b, [], Worth(w, b, on), lines) by { NoLines(b, Worth(w, b, on)); }
    for i := 0 to |rows|
      invariant LinesAre(b, rows[..i], Worth(w, b, on), lines)
      invariant reval == Sum(rows[..i], Gain(w, b, on))
    {
      var row := rows[i];
      assert rows[..i + 1] == rows[..i] + [row];
      SumTake(rows, i, Gain(w, b, on));
      if row.account !in b.accounts {
        LinesSkip(b, rows[..i], row, Worth(w, b, on), lines);
        continue;
      }
      var v := Worth(w, b, on)(row);
      LinesEnter(b, rows[..i], row, Worth(w, b, on), lines);
      reval := reval + (v - row.base);
      lines := Enter(lines, row.account, v, row.base);
    }
    assert rows[..|rows|] == rows;
  }

  lemma NoLines(b: Book, g: SumRow -> real)
    ensures LinesAre(b, [], g, map[])
  {
  }

  // ----- the balance sheet -----

  datatype Sheet = Sheet(
    currentAssets: real, nonCurrentAssets: real, currentLiabilities: real, nonCurrentLiabilities: real,
    totalAssets: real, totalLiabilities: real, equityAccounts: real, accumulatedResult: real,
    unrealised: real, totalEquity: real)

  function Results(b: Book, rows: seq<SumRow>): set<int> {
    set a | a in LinesOf(b, rows) && (b.accounts[a].cls.Income? || b.accounts[a].cls.Expense?)
  }

  function Closing(ca: real, nca: real, cl: real, ncl: real, equity: real, result: real): Sheet {
    Sheet(ca, nca, cl, ncl, ca + nca, cl + ncl, equity, result,
          ca + nca - (cl + ncl) - equity - result, ca + nca - (cl + ncl))
  }

  ghost function SheetOf(w: World, b: Book, rp: Report, rows: seq<SumRow>, on: int): Sheet {
    var f := Shown(b, rp, rows, Worth(w, b, on));
    Closing(
      SumOver(Part(b, rows, Asset, true), f), SumOver(Part(b, rows, Asset, false), f),
      SumOver(Part(b, rows, Liability, true), f), SumOver(Part(b, rows, Liability, false), f),
      SumOver(Part(b, rows, Equity, true) + Part(b, rows, Equity, false), f),
      Out(rp, -SumOver(Results(b, rows), PerAccount(rows, RowBase()))))
  }

  /** Which total an account's line is added to. */
  datatype Partition = Partition(ca: set<int>, nca: set<int>, cl: set<int>, ncl: set<int>, equity: set<int>, result: set<int>)

  datatype Totals = Totals(ca: real, nca: real, cl: real, ncl: real, equity: real, result: real)

  function Parts(b: Book, rows: seq<SumRow>): Partition {
    Partition(Part(b, rows, Asset, true), Part(b, rows, Asset, false), Part(b, rows, Liability, true),
              Part(b, rows, Liability, false), Part(b, rows, Equity, true) + Part(b, rows, Equity, false), Results(b, rows))
  }

  ghost function TotalsOf(parts: Partition, f: int -> real, hist: int -> real, done: set<int>): Totals {
    Totals(SumOver(parts.ca * done, f), SumOver(parts.nca * done, f), SumOver(parts.cl * done, f),
           SumOver(parts.ncl * done, f), SumOver(parts.equity * done, f), SumOver(parts.result * done, hist))
  }

  function Added(acc: Account, t: Totals, shown: real, historical: real): Totals {
    match acc.cls
    case Income => t.(result := t.result + historical)
    case Expense => t.(result := t.result + historical)
    case Asset => if acc.isCurrent then t.(ca := t.ca + shown) else t.(nca := t.nca + shown)
    case Liability => if acc.isCurrent then t.(cl := t.cl + shown) else t.(ncl := t.ncl + shown)
    case Equity => t.(equity := t.equity + shown)
  }

  /** The lines ranged in any order, each added to its total. */
  method BalanceSheet(w: World, b: Book, rows: seq<SumRow>, asOf: int, currency: string) returns (r: Result<Sheet>)
    ensures match NewReport(w, b.base, currency, asOf)
      case Err(e) => r == Err(e)
      case Ok(rp) => r == Ok(SheetOf(w, b, rp, rows, asOf))
  {
    hide NewReport, Out, LinesOf, PerAccount, SumOver, TotalsOf, Added;
    var report := NewReport(w, b.base, currency, asOf);
    if report.Err? {
      return Err(report.error);
    }
    var rp := report.value;
    var lines, _ := Balances(w, b, rows, asOf);
    ghost var f := Shown(b, rp, rows, Worth(w, b, asOf));
    ghost var hist := PerAccount(rows, RowBase());
    var bs := Totals(0.0, 0.0, 0.0, 0.0, 0.0, 0.0);
    var todo := lines.Keys;
    ghost var done: set<int> := {};
    TotalsNone(Parts(b, rows), f, hist);
    while todo != {}
      invariant todo <= lines.Keys && done == lines.Keys - todo
      invariant bs == TotalsOf(Parts(b, rows), f, hist, done)
      decreases todo
    {
      var id := Next(todo);
      var acc := b.accounts[id];
      TotalsMore(b, rows, f, hist, done, id);
      bs := Added(acc, bs, Out(rp, Presented(acc.cls, lines[id].amount)), lines[id].historical);
      todo, done := todo - {id}, done + {id};
    }
    assert done == LinesOf(b, rows);
    TotalsAll(b, rows, f, hist);
    return Ok(Closing(bs.ca, bs.nca, bs.cl, bs.ncl, bs.equity, Out(rp, -bs.result)));
  }

  lemma TotalsNone(parts: Partition, f: int -> real, hist: int -> real)
    ensures TotalsOf(parts, f, hist, {}) == Totals(0.0, 0.0, 0.0, 0.0, 0.0, 0.0)
  {
  }

  lemma TotalsMore(b: Book, rows: seq<SumRow>, f: int -> real, hist: int -> real, done: set<int>, id: int)
    requires id in LinesOf(b, rows) && id !in done
    ensures TotalsOf(Parts(b, rows), f, hist, done + {id}) ==
      Added(b.accounts[id], TotalsOf(Parts(b, rows), f, hist, done), f(id), hist(id))
  {
    hide SumOver, LinesOf;
    var parts := Parts(b, rows);
    SumOverGrow(parts.ca, done, id, f);
    SumOverGrow(parts.nca, done, id, f);
    SumOverGrow(parts.cl, done, id, f);
    SumOverGrow(parts.ncl, done, id, f);
    SumOverGrow(parts.equity, done, id, f);
    SumOverGrow(parts.result, done, id, hist);
  }

  lemma TotalsAll(b: Book, rows: seq<SumRow>, f: int -> real, hist: int -> real)
    ensures var parts := Parts(b, rows);
      TotalsOf(parts, f, hist, LinesOf(b, rows)) ==
      Totals(SumOver(parts.ca, f), SumOver(parts.nca, f), SumOver(parts.cl, f), SumOver(parts.ncl, f),
             SumOver(parts.equity, f), SumOver(parts.result, hist))
  {
    hide SumOver, LinesOf;
    var parts, all := Parts(b, rows), LinesOf(b, rows);
    assert parts.ca * all == parts.ca && parts.nca * all == parts.nca && parts.cl * all == parts.cl;
    assert parts.ncl * all == parts.ncl && parts.equity * all == parts.equity && parts.result * all == parts.result;
  }

  // ----- the income statement -----

  datatype IncomeReport = IncomeReport(income: real, expenses: real, unrealised: real, netResult: real)

  function Flow(b: Book, rows: seq<SumRow>, cls: Class): set<int> {
    set a | a in LinesOf(b, rows) && b.accounts[a].cls == cls
  }

  ghost function IncomeOf(w: World, b: Book, rp: Report, rows: seq<SumRow>, reval: real): IncomeReport {
    var f := Shown(b, rp, rows, RowBase());
    var income, expenses := SumOver(Flow(b, rows, Income), f), SumOver(Flow(b, rows, Expense), f);
    IncomeReport(income, expenses, Out(rp, reval), income - expenses + Out(rp, reval))
  }

  method IncomeStatement(w: World, b: Book, from: int, to: int, currency: string,
      rows: seq<SumRow>, closing: seq<SumRow>, opening: seq<SumRow>) returns (r: Result<IncomeReport>)
    ensures to < from ==> r == Err(Invalid)
    ensures to >= from ==> match NewReport(w, b.base, currency, to)
      case Err(e) => r == Err(e)
      case Ok(rp) =>
        r == Ok(IncomeOf(w, b, rp, rows, Sum(closing, Gain(w, b, to)) - Sum(opening, Gain(w, b, from - 1))))
  {
    hide NewReport, Out, LinesOf, PerAccount, SumOver, Enter, Value, Sum;
    if to < from {
      return Err(Invalid);
    }
    var report := NewReport(w, b.base, currency, to);
    if report.Err? {
      return Err(report.error);
    }
    var rp := report.value;
    var lines := map[];
    ghost var nominal := NominalBook(b);
    assert rows[..0] == [];
    assert LinesAre(nominal, [], RowBase(), lines) by { NoLines(nominal, RowBase()); }
    for i := 0 to |rows|
      invariant LinesAre(nominal, rows[..i], RowBase(), lines)
    {
      var row := rows[i];
      assert rows[..i + 1] == rows[..i] + [row];
      if row.account !in b.accounts || (!b.accounts[row.account].cls.Income? && !b.accounts[row.account].cls.Expense?) {
        LinesSkip(nominal, rows[..i], row, RowBase(), lines);
        continue;
      }
      LinesEnter(nominal, rows[..i], row, RowBase(), lines);
      lines := Enter(lines, row.account, row.base, row.base);
    }
    assert rows[..|rows|] == rows;
    NominalLines(b, rows);
    ghost var f := Shown(b, rp, rows, RowBase());
    var income, expenses := 0.0, 0.0;
    var todo := lines.Keys;
    ghost var done: set<int> := {};
    FlowNone(b, rows, f);
    while todo != {}
      invariant todo <= lines.Keys && done == lines.Keys - todo
      invariant income == SumOver(Flow(b, rows, Income) * done, f)
      invariant expenses == SumOver(Flow(b, rows, Expense) * done, f)
      decreases todo
    {
      var id := Next(todo);
      var acc := b.accounts[id];
      SumOverGrow(Flow(b, rows, Income), done, id, f);
      SumOverGrow(Flow(b, rows, Expense), done, id, f);
      if acc.cls.Income? {
        income := income + Out(rp, Presented(acc.cls, lines[id].historical));
      } else if acc.cls.Expense? {
        expenses := expenses + Out(rp, Presented(acc.cls, lines[id].historical));
      }
      todo, done := todo - {id}, done + {id};
    }
    assert Flow(b, rows, Income) * done == Flow(b, rows, Income);
    assert Flow(b, rows, Expense) * done == Flow(b, rows, Expense);
    var _, revalEnd := Balances(w, b, closing, to);
    var _, revalStart := Balances(w, b, opening, from - 1);
    var unrealised := Out(rp, revalEnd - revalStart);
    return Ok(IncomeReport(income, expenses, unrealised, income - expenses + unrealised));
  }

  /** The book with only its income and expense accounts. */
  function NominalBook(b: Book): Book {
    b.(accounts := map a | a in b.accounts && (b.accounts[a].cls.Income? || b.accounts[a].cls.Expense?) :: b.accounts[a])
  }

  lemma NominalLines(b: Book, rows: seq<SumRow>)
    ensures LinesOf(NominalBook(b), rows) == Flow(b, rows, Income) + Flow(b, rows, Expense)
    ensures LinesOf(NominalBook(b), rows) <= b.accounts.Keys
  {
    var n := NominalBook(b);
    forall a | a in LinesOf(n, rows) ensures a in Flow(b, rows, Income) + Flow(b, rows, Expense) {
      var r :| r in rows && r.account in n.accounts && r.account == a;
      assert a in LinesOf(b, rows);
    }
    forall a | a in Flow(b, rows, Income) + Flow(b, rows, Expense) ensures a in LinesOf(n, rows) {
      var r :| r in rows && r.account in b.accounts && r.account == a;
    }
  }

  lemma FlowNone(b: Book, rows: seq<SumRow>, f: int -> real)
    ensures SumOver(Flow(b, rows, Income) * {}, f) == 0.0
    ensures SumOver(Flow(b, rows, Expense) * {}, f) == 0.0
  {
    assert Flow(b, rows, Income) * {} == {} && Flow(b, rows, Expense) * {} == {};
  }

  // ----- from rows to postings -----

  /** Asset, liability and equity accounts with a row: the sheet's lines. */
  function Kept(b: Book, rows: seq<SumRow>): set<int> {
    set a | a in LinesOf(b, rows) && HoldsCommodity(b.accounts[a].cls)
  }

  function Nominal(b: Book): set<int> {
    OfClass(b, Income) + OfClass(b, Expense)
  }

  lemma AllBase(b: Book, rows: seq<SumRow>, on: int)
    requires RowsKnown(b, rows) && IsSums(rows, Upto(b.txns, on))
    requires forall t :: t in b.txns ==> Balanced(t)
    requires forall p :: p in Upto(b.txns, on) ==> p.account in b.accounts
    ensures Sum(rows, RowBase()) == 0.0
  {
    hide Sum, IsSums;
    var ps := Upto(b.txns, on);
    Regroup(rows, ps, b.accounts.Keys);
    SumSame(rows, RowBase(), On(RowBase(), b.accounts.Keys));
    SumSame(ps, Base(), BaseOf(b.accounts.Keys));
    SumBalanced(b.txns, on);
  }

  lemma ResultRows(b: Book, rows: seq<SumRow>, ps: seq<Posting>)
    requires RowsKnown(b, rows) && IsSums(rows, ps)
    ensures SumOver(Results(b, rows), PerAccount(rows, RowBase())) == Sum(ps, BaseOf(Nominal(b)))
  {
    hide Sum, IsSums, SumOver, PerAccount;
    SumByAccount(rows, RowBase(), Results(b, rows));
    SumSame(rows, On(RowBase(), Results(b, rows)), On(RowBase(), Nominal(b)));
    Regroup(rows, ps, Nominal(b));
  }

  /** At value, what the sheet's lines hold beyond the accumulated result is
      the revaluation: everything else is postings that sum to zero. */
  lemma KeptWorth(w: World, b: Book, rows: seq<SumRow>, on: int)
    requires RowsKnown(b, rows) && IsSums(rows, Upto(b.txns, on))
    requires forall t :: t in b.txns ==> Balanced(t)
    requires forall p :: p in Upto(b.txns, on) ==> p.account in b.accounts
    ensures SumOver(Kept(b, rows), PerAccount(rows, Worth(w, b, on))) + Sum(Upto(b.txns, on), BaseOf(Nominal(b))) ==
      Sum(rows, Gain(w, b, on))
  {
    hide Sum, IsSums, SumOver, PerAccount, Value;
    var worth, kept, nominal := Worth(w, b, on), Kept(b, rows), Nominal(b);
    SumByAccount(rows, worth, kept);
    Regroup(rows, Upto(b.txns, on), nominal);
    AllBase(b, rows, on);
    SumSplit(rows, worth, On(worth, kept), On(RowBase(), nominal));
    SumSplit(rows, worth, Gain(w, b, on), RowBase());
  }

  // ----- rounding to the report currency -----

  /** A line in the report currency, debit-positive. */
  function Debit(rp: Report, x: int -> real): int -> real {
    (a: int) => Out(rp, x(a))
  }

  lemma OutOdd(rp: Report, x: real)
    ensures Out(rp, -x) == -Out(rp, x)
  {
    hide Round, Times;
    TimesFacts(x, 0.0, rp.toReport);
    RoundOdd(Times(x, rp.toReport), rp.places);
  }

  /** Parts presented positive, taken back to debit-positive. */
  lemma {:induction false} ShownSigned(b: Book, rp: Report, rows: seq<SumRow>, g: SumRow -> real, s: set<int>,
      cls: Class)
    requires forall a :: a in s ==> a in b.accounts && b.accounts[a].cls == cls
    ensures SumOver(s, Shown(b, rp, rows, g)) == Presented(cls, SumOver(s, Debit(rp, PerAccount(rows, g))))
  {
    hide Out, PerAccount;
    var f, d := Shown(b, rp, rows, g), Debit(rp, PerAccount(rows, g));
    if s == {} {
    } else {
      var a := FirstOf(s);
      ShownSigned(b, rp, rows, g, s - {a}, cls);
      SumOverRemove(s, f, a);
      SumOverRemove(s, d, a);
      OutOdd(rp, PerAccount(rows, g)(a));
    }
  }

  /** n roundings move a sum by at most n half units. */
  lemma {:induction false} RoundedSum(rp: Report, s: set<int>, x: int -> real)
    ensures Abs(SumOver(s, Debit(rp, x)) - Times(SumOver(s, x), rp.toReport)) <= HalfUnits(|s|, rp.places)
  {
    hide Round, Times, Unit, HalfUnits;
    TimesFacts(0.0, 0.0, rp.toReport);
    HalfUnitsStep(0, rp.places);
    if s != {} {
      var a := FirstOf(s);
      RoundedSum(rp, s - {a}, x);
      HalfUnitsStep(|s - {a}|, rp.places);
      SumOverRemove(s, Debit(rp, x), a);
      SumOverRemove(s, x, a);
      TimesFacts(x(a), SumOver(s - {a}, x), rp.toReport);
      RoundHalfUnit(Times(x(a), rp.toReport), rp.places);
    }
  }

  /** In the base currency, figures on its grid are shown as they are. */
  lemma {:induction false} ExactSum(rp: Report, s: set<int>, x: int -> real)
    requires rp.toReport == 1.0 && forall a :: a in s ==> OnGrid(x(a), rp.places)
    ensures SumOver(s, Debit(rp, x)) == SumOver(s, x)
  {
    hide OnGrid, Out;
    if s != {} {
      var a := FirstOf(s);
      ExactSum(rp, s - {a}, x);
      SumOverRemove(s, Debit(rp, x), a);
      SumOverRemove(s, x, a);
      OutExact(rp, x(a));
    }
  }

  lemma OutExact(rp: Report, x: real)
    requires rp.toReport == 1.0 && OnGrid(x, rp.places)
    ensures Out(rp, x) == x
  {
    hide OnGrid, Round, Times;
    TimesFacts(x, 0.0, 1.0);
    RoundIdentity(x, rp.places);
    assert HasPrecision(x, rp.places);
  }

  /** The sheet's totals as sums over its lines, debit-positive. */
  lemma SheetTotals(w: World, b: Book, rp: Report, rows: seq<SumRow>, on: int)
    ensures var sheet := SheetOf(w, b, rp, rows, on);
      var d := Debit(rp, PerAccount(rows, Worth(w, b, on)));
      sheet.totalEquity - sheet.equityAccounts == SumOver(Kept(b, rows), d) &&
      sheet.unrealised == SumOver(Kept(b, rows), d) + Out(rp, SumOver(Results(b, rows), PerAccount(rows, RowBase())))
  {
    hide Out, PerAccount, SumOver, LinesOf;
    var g := Worth(w, b, on);
    var d := Debit(rp, PerAccount(rows, g));
    var ca, nca := Part(b, rows, Asset, true), Part(b, rows, Asset, false);
    var cl, ncl := Part(b, rows, Liability, true), Part(b, rows, Liability, false);
    var eq := Part(b, rows, Equity, true) + Part(b, rows, Equity, false);
    ShownSigned(b, rp, rows, g, ca, Asset);
    ShownSigned(b, rp, rows, g, nca, Asset);
    ShownSigned(b, rp, rows, g, cl, Liability);
    ShownSigned(b, rp, rows, g, ncl, Liability);
    ShownSigned(b, rp, rows, g, eq, Equity);
    OutOdd(rp, SumOver(Results(b, rows), PerAccount(rows, RowBase())));
    SumOverUnion(ca, nca, d);
    SumOverUnion(ca + nca, cl, d);
    SumOverUnion(ca + nca + cl, ncl, d);
    SumOverUnion(ca + nca + cl + ncl, eq, d);
    PartsCover(b, rows);
  }

  lemma PartsCover(b: Book, rows: seq<SumRow>)
    ensures Kept(b, rows) == Part(b, rows, Asset, true) + Part(b, rows, Asset, false) + Part(b, rows, Liability, true) +
      Part(b, rows, Liability, false) + (Part(b, rows, Equity, true) + Part(b, rows, Equity, false))
  {
    hide LinesOf;
    forall a | a in Kept(b, rows)
      ensures a in Part(b, rows, b.accounts[a].cls, b.accounts[a].isCurrent)
    {
    }
    forall cls, current, a | HoldsCommodity(cls) && a in Part(b, rows, cls, current) ensures a in Kept(b, rows) {
    }
  }

  // ----- the theorems -----

  ghost predicate Query(b: Book, rows: seq<SumRow>, ps: seq<Posting>) {
    IsSums(rows, ps) && RowsKnown(b, rows)
  }

  predicate Recorded(b: Book) {
    (forall t :: t in b.txns ==> Balanced(t)) &&
    forall t, p :: t in b.txns && p in t.postings ==> p.account in b.accounts
  }

  lemma RecordedUpto(b: Book, on: int)
    requires Recorded(b)
    ensures forall p :: p in Upto(b.txns, on) ==> p.account in b.accounts
  {
    forall p | p in Upto(b.txns, on) ensures p.account in b.accounts {
      UptoFrom(b.txns, on, p);
    }
  }

  /** Translated, the unrealised figure is the revaluation at the report rate,
      to within half a minor unit for each line and one for the result. */
  lemma TranslatedUnrealised(w: World, b: Book, rp: Report, rows: seq<SumRow>, on: int)
    requires Recorded(b) && Query(b, rows, Upto(b.txns, on))
    ensures var bound := HalfUnits(|Kept(b, rows)| + 1, rp.places);
      -bound <= SheetOf(w, b, rp, rows, on).unrealised - Times(Sum(rows, Gain(w, b, on)), rp.toReport) <= bound
  {
    hide Out, PerAccount, SumOver, Sum, IsSums, SheetOf, Worth, Times, LinesOf, Unit, Gain, Kept, HalfUnits;
    HalfUnitsStep(|Kept(b, rows)|, rp.places);
    RecordedUpto(b, on);
    var x := PerAccount(rows, Worth(w, b, on));
    var kept := Kept(b, rows);
    var result := SumOver(Results(b, rows), PerAccount(rows, RowBase()));
    SheetTotals(w, b, rp, rows, on);
    RoundedSum(rp, kept, x);
    ResultRows(b, rows, Upto(b.txns, on));
    KeptWorth(w, b, rows, on);
    OutError(rp, result);
    TimesFacts(SumOver(kept, x), result, rp.toReport);
  }

  lemma OutError(rp: Report, x: real)
    ensures Abs(Out(rp, x) - Times(x, rp.toReport)) <= Unit(rp.places) / 2.0
  {
    hide Round, Times;
    RoundHalfUnit(Times(x, rp.toReport), rp.places);
  }

  /** What the exact statements need: sound books on the base grid. */
  predicate Exact(w: World, b: Book) {
    Sound(w, b) && BasePrecise(w, b)
  }

  lemma ExactRecorded(w: World, b: Book)
    requires Exact(w, b)
    ensures Recorded(b)
  {
    hide OnGrid;
    forall t | t in b.txns ensures SoundTxn(w, b, t) {
    }
    assert forall t, p :: t in b.txns && p in t.postings ==> Proper(w, b, p);
  }

  /** The figures of a posting in an exact book. */
  predicate Tidy(places: nat, base: string, p: Posting) {
    OnGrid(p.base, places) && (p.commodity == base ==> p.base == p.amount)
  }

  lemma TidyUpto(w: World, b: Book, on: int)
    requires Exact(w, b)
    ensures forall p :: p in Upto(b.txns, on) ==> Tidy(w.Places(b.base), b.base, p)
  {
    hide OnGrid;
    forall p | p in Upto(b.txns, on) ensures Tidy(w.Places(b.base), b.base, p) {
      UptoFrom(b.txns, on, p);
      var i :| 0 <= i < |b.txns| && b.txns[i].date <= on && p in b.txns[i].postings;
      assert b.txns[i] in b.txns && SoundTxn(w, b, b.txns[i]) && Proper(w, b, p);
    }
  }

  lemma RowOnGrid(places: nat, base: string, rows: seq<SumRow>, ps: seq<Posting>, r: SumRow)
    requires IsSums(rows, ps) && r in rows && forall p :: p in ps ==> Tidy(places, base, p)
    ensures OnGrid(r.base, places)
    ensures r.commodity == base ==> r.amount == r.base
  {
    hide OnGrid, Sum;
    GridZero(places);
    SumOnGrid(ps, BaseAt(RowKey(r)), places);
    if r.commodity == base {
      SumSame(ps, AmountAt(RowKey(r)), BaseAt(RowKey(r)));
    }
  }

  lemma ValueOnGrid(w: World, base: string, c: string, amount: real, hist: real, on: int)
    requires OnGrid(hist, w.Places(base)) && (c == base ==> amount == hist)
    ensures OnGrid(Value(w, base, c, amount, hist, on), w.Places(base))
  {
    hide OnGrid, Round, RateOn, Times;
    var places := w.Places(base);
    GridZero(places);
    if c != base && c in w.commodities {
      match w.commodities[c].kind {
        case Points =>
        case Currency =>
          if RateOn(w, c, base, on).Some? {
            RoundOnGrid(Times(amount, RateOn(w, c, base, on).value), places);
          }
        case Security(quote, _) =>
          if RateOn(w, c, quote, on).Some? && RateOn(w, quote, base, on).Some? {
            RoundOnGrid(Times(Times(amount, RateOn(w, c, quote, on).value), RateOn(w, quote, base, on).value), places);
          }
      }
    }
  }

  lemma {:induction false} RowsOnGrid(rows: seq<SumRow>, g: SumRow -> real, places: nat)
    requires forall r :: r in rows ==> OnGrid(g(r), places)
    ensures OnGrid(Sum(rows, g), places)
  {
    hide OnGrid;
    if |rows| == 0 {
      GridZero(places);
    } else {
      RowsOnGrid(rows[..|rows| - 1], g, places);
      GridClosed(Sum(rows[..|rows| - 1], g), g(rows[|rows| - 1]), places);
    }
  }

  lemma PerAccountOnGrid(rows: seq<SumRow>, g: SumRow -> real, places: nat, a: int)
    requires forall r :: r in rows ==> OnGrid(g(r), places)
    ensures OnGrid(PerAccount(rows, g)(a), places)
  {
    hide OnGrid, Sum;
    GridZero(places);
    RowsOnGrid(rows, On(g, {a}), places);
  }

  lemma ExactRows(w: World, b: Book, rows: seq<SumRow>, on: int)
    requires Exact(w, b) && IsSums(rows, Upto(b.txns, on))
    ensures forall r :: r in rows ==> OnGrid(Worth(w, b, on)(r), w.Places(b.base)) && OnGrid(r.base, w.Places(b.base))
  {
    hide OnGrid, Value, IsSums, Exact;
    TidyUpto(w, b, on);
    forall r | r in rows
      ensures OnGrid(Worth(w, b, on)(r), w.Places(b.base)) && OnGrid(r.base, w.Places(b.base))
    {
      RowOnGrid(w.Places(b.base), b.base, rows, Upto(b.txns, on), r);
      ValueOnGrid(w, b.base, r.commodity, r.amount, r.base, on);
    }
  }

  predicate InBase(w: World, b: Book, rp: Report) {
    rp.toReport == 1.0 && rp.places == w.Places(b.base)
  }

  /** In the base currency equity at a date is exactly the equity accounts,
      the result so far and the revaluation. */
  lemma EquityAt(w: World, b: Book, rp: Report, rows: seq<SumRow>, on: int)
    requires Exact(w, b) && InBase(w, b, rp) && Query(b, rows, Upto(b.txns, on))
    ensures var sheet := SheetOf(w, b, rp, rows, on);
      sheet.totalEquity - sheet.equityAccounts ==
        Sum(rows, Gain(w, b, on)) - Sum(Upto(b.txns, on), BaseOf(Nominal(b))) &&
      sheet.unrealised == Sum(rows, Gain(w, b, on))
  {
    hide Out, PerAccount, SumOver, Sum, IsSums, SheetOf, Worth, LinesOf, Gain, Kept, OnGrid, Exact, Results;
    ExactRecorded(w, b);
    RecordedUpto(b, on);
    var worth := Worth(w, b, on);
    SheetTotals(w, b, rp, rows, on);
    ExactRows(w, b, rows, on);
    forall a ensures OnGrid(PerAccount(rows, worth)(a), rp.places) && OnGrid(PerAccount(rows, RowBase())(a), rp.places) {
      PerAccountOnGrid(rows, worth, rp.places, a);
      PerAccountOnGrid(rows, RowBase(), rp.places, a);
    }
    ExactSum(rp, Kept(b, rows), PerAccount(rows, worth));
    KeptWorth(w, b, rows, on);
    ResultRows(b, rows, Upto(b.txns, on));
    ExactSum(rp, Results(b, rows), PerAccount(rows, RowBase()));
    SumByAccount(rows, RowBase(), Results(b, rows));
    GridZero(rp.places);
    RowsOnGrid(rows, On(RowBase(), Results(b, rows)), rp.places);
    OutExact(rp, SumOver(Results(b, rows), PerAccount(rows, RowBase())));
  }

  // ----- each figure of the statements -----

  function AccountsOf(b: Book, cls: Class, current: bool): set<int> {
    set a | a in b.accounts && b.accounts[a].cls == cls && b.accounts[a].isCurrent == current
  }

  /** In the base currency, a part of the sheet is the sum of its rows' worth,
      credit-positive but for assets. */
  lemma PartIs(w: World, b: Book, rp: Report, rows: seq<SumRow>, on: int, cls: Class, current: bool)
    requires Exact(w, b) && InBase(w, b, rp) && Query(b, rows, Upto(b.txns, on))
    ensures SumOver(Part(b, rows, cls, current), Shown(b, rp, rows, Worth(w, b, on))) ==
      Presented(cls, Sum(rows, On(Worth(w, b, on), AccountsOf(b, cls, current))))
  {
    hide Out, PerAccount, SumOver, Sum, IsSums, Worth, OnGrid, Exact, Shown;
    var worth, s := Worth(w, b, on), Part(b, rows, cls, current);
    ShownSigned(b, rp, rows, worth, s, cls);
    ExactRows(w, b, rows, on);
    forall a ensures OnGrid(PerAccount(rows, worth)(a), rp.places) {
      PerAccountOnGrid(rows, worth, rp.places, a);
    }
    ExactSum(rp, s, PerAccount(rows, worth));
    SumByAccount(rows, worth, s);
    SumSame(rows, On(worth, s), On(worth, AccountsOf(b, cls, current)));
  }

  /** A row at its value on a day. */
  function Valued(w: World, b: Book, on: int): SumRow -> real {
    (r: SumRow) => Value(w, b.base, r.commodity, r.amount, r.base, on)
  }

  lemma ValuedRows(w: World, b: Book, rows: seq<SumRow>, on: int, cls: Class, current: bool)
    requires cls.Asset? || cls.Liability?
    ensures Sum(rows, On(Worth(w, b, on), AccountsOf(b, cls, current))) ==
      Sum(rows, On(Valued(w, b, on), AccountsOf(b, cls, current)))
  {
    hide Sum, Value;
    SumSame(rows, On(Worth(w, b, on), AccountsOf(b, cls, current)), On(Valued(w, b, on), AccountsOf(b, cls, current)));
  }

  /** In the base currency each figure of the balance sheet is the sum of what
      its own accounts are worth: assets positive, liabilities and equity as
      credits, and the result so far as a credit at cost. */
  lemma SheetIs(w: World, b: Book, rp: Report, rows: seq<SumRow>, on: int)
    requires Exact(w, b) && InBase(w, b, rp) && Query(b, rows, Upto(b.txns, on))
    ensures var sheet, value := SheetOf(w, b, rp, rows, on), Valued(w, b, on);
      sheet.currentAssets == Sum(rows, On(value, AccountsOf(b, Asset, true))) &&
      sheet.nonCurrentAssets == Sum(rows, On(value, AccountsOf(b, Asset, false))) &&
      sheet.currentLiabilities == -Sum(rows, On(value, AccountsOf(b, Liability, true))) &&
      sheet.nonCurrentLiabilities == -Sum(rows, On(value, AccountsOf(b, Liability, false)))
    ensures var sheet := SheetOf(w, b, rp, rows, on);
      sheet.equityAccounts == -Sum(Upto(b.txns, on), BaseOf(OfClass(b, Equity))) &&
      sheet.accumulatedResult == -Sum(Upto(b.txns, on), BaseOf(OfClass(b, Income) + OfClass(b, Expense))) &&
      sheet.totalAssets == sheet.currentAssets + sheet.nonCurrentAssets &&
      sheet.totalLiabilities == sheet.currentLiabilities + sheet.nonCurrentLiabilities &&
      sheet.totalEquity == sheet.totalAssets - sheet.totalLiabilities &&
      sheet.unrealised == sheet.totalEquity - sheet.equityAccounts - sheet.accumulatedResult
  {
    hide Out, PerAccount, SumOver, Sum, IsSums, Worth, Valued, LinesOf, OnGrid, Exact, Results, Shown, Part, Presented;
    assert forall x :: Presented(Asset, x) == x && Presented(Liability, x) == -x && Presented(Equity, x) == -x by {
      Presentation();
    }
    PartIs(w, b, rp, rows, on, Asset, true);
    PartIs(w, b, rp, rows, on, Asset, false);
    PartIs(w, b, rp, rows, on, Liability, true);
    PartIs(w, b, rp, rows, on, Liability, false);
    ValuedRows(w, b, rows, on, Asset, true);
    ValuedRows(w, b, rows, on, Asset, false);
    ValuedRows(w, b, rows, on, Liability, true);
    ValuedRows(w, b, rows, on, Liability, false);
    EquityPart(w, b, rp, rows, on);
    ResultPart(w, b, rp, rows, on);
  }

  lemma Presentation()
    ensures forall x :: Presented(Asset, x) == x && Presented(Liability, x) == -x && Presented(Equity, x) == -x
    ensures forall x :: Presented(Income, x) == -x && Presented(Expense, x) == x
  {
  }

  lemma EquityPart(w: World, b: Book, rp: Report, rows: seq<SumRow>, on: int)
    requires Exact(w, b) && InBase(w, b, rp) && Query(b, rows, Upto(b.txns, on))
    ensures SumOver(Part(b, rows, Equity, true) + Part(b, rows, Equity, false), Shown(b, rp, rows, Worth(w, b, on))) ==
      -Sum(Upto(b.txns, on), BaseOf(OfClass(b, Equity)))
  {
    hide Out, PerAccount, SumOver, Sum, IsSums, LinesOf, OnGrid, Exact, Shown, Value;
    var worth, all := Worth(w, b, on), OfClass(b, Equity);
    PartIs(w, b, rp, rows, on, Equity, true);
    PartIs(w, b, rp, rows, on, Equity, false);
    SumOverUnion(Part(b, rows, Equity, true), Part(b, rows, Equity, false), Shown(b, rp, rows, worth));
    SumSplit(rows, On(worth, all), On(worth, AccountsOf(b, Equity, true)), On(worth, AccountsOf(b, Equity, false)));
    SumSame(rows, On(worth, all), On(RowBase(), all));
    Regroup(rows, Upto(b.txns, on), all);
  }

  lemma ResultPart(w: World, b: Book, rp: Report, rows: seq<SumRow>, on: int)
    requires Exact(w, b) && InBase(w, b, rp) && Query(b, rows, Upto(b.txns, on))
    ensures Out(rp, -SumOver(Results(b, rows), PerAccount(rows, RowBase()))) == -Sum(Upto(b.txns, on), BaseOf(Nominal(b)))
  {
    hide Out, PerAccount, SumOver, Sum, IsSums, LinesOf, OnGrid, Exact, Results, Worth;
    ResultRows(b, rows, Upto(b.txns, on));
    ExactRows(w, b, rows, on);
    SumByAccount(rows, RowBase(), Results(b, rows));
    GridZero(rp.places);
    RowsOnGrid(rows, On(RowBase(), Results(b, rows)), rp.places);
    GridClosed(0.0, SumOver(Results(b, rows), PerAccount(rows, RowBase())), rp.places);
    OutExact(rp, -SumOver(Results(b, rows), PerAccount(rows, RowBase())));
  }

  lemma FlowPart(w: World, b: Book, rp: Report, rows: seq<SumRow>, from: int, to: int, cls: Class)
    requires Exact(w, b) && InBase(w, b, rp) && Query(b, rows, Between(b.txns, from, to))
    ensures SumOver(Flow(b, rows, cls), Shown(b, rp, rows, RowBase())) ==
      Presented(cls, Sum(Between(b.txns, from, to), BaseOf(OfClass(b, cls))))
  {
    hide Out, PerAccount, SumOver, Sum, IsSums, OnGrid, Exact, Shown;
    var s, x := Flow(b, rows, cls), PerAccount(rows, RowBase());
    ShownSigned(b, rp, rows, RowBase(), s, cls);
    PeriodRows(w, b, rows, from, to);
    forall a ensures OnGrid(x(a), rp.places) {
      PerAccountOnGrid(rows, RowBase(), rp.places, a);
    }
    ExactSum(rp, s, x);
    SumByAccount(rows, RowBase(), s);
    SumSame(rows, On(RowBase(), s), On(RowBase(), OfClass(b, cls)));
    Regroup(rows, Between(b.txns, from, to), OfClass(b, cls));
  }

  /** In the base currency, income is the period's postings of the income
      accounts as credits, expenses those of the expense accounts as debits. */
  lemma IncomeIs(w: World, b: Book, rp: Report, rows: seq<SumRow>, from: int, to: int, reval: real)
    requires Exact(w, b) && InBase(w, b, rp) && Query(b, rows, Between(b.txns, from, to)) && OnGrid(reval, rp.places)
    ensures var r, ps := IncomeOf(w, b, rp, rows, reval), Between(b.txns, from, to);
      r.income == -Sum(ps, BaseOf(OfClass(b, Income))) && r.expenses == Sum(ps, BaseOf(OfClass(b, Expense))) &&
      r.unrealised == reval && r.netResult == r.income - r.expenses + r.unrealised
  {
    hide Out, SumOver, Sum, IsSums, OnGrid, Exact, Shown, Flow;
    FlowPart(w, b, rp, rows, from, to, Income);
    FlowPart(w, b, rp, rows, from, to, Expense);
    OutExact(rp, reval);
  }

  /** A report is in the currency asked for, the base currency if none is, at
      the day's rate from the base currency; without that rate it stays in the
      base currency; and only a listed currency may be asked for. */
  lemma ReportIs(w: World, base: string, currency: string, on: int)
    ensures var c, r := if currency == "" then base else currency, NewReport(w, base, currency, on);
      (r.Ok? <==> Money(w, c)) &&
      (r.Ok? ==> match RateOn(w, base, c, on)
       case Some(rate) => r.value == Report(c, rate, w.Places(c))
       case None => r.value == Report(base, 1.0, w.Places(base)))
    ensures forall rp, x :: Abs(Out(rp, x) - Times(x, rp.toReport)) <= Unit(rp.places) / 2.0
  {
    hide RateOn, Out, Times, Unit;
    forall rp, x ensures Abs(Out(rp, x) - Times(x, rp.toReport)) <= Unit(rp.places) / 2.0 {
      OutError(rp, x);
    }
  }

  lemma GainsOnGrid(w: World, b: Book, rows: seq<SumRow>, on: int)
    requires Exact(w, b) && IsSums(rows, Upto(b.txns, on))
    ensures OnGrid(Sum(rows, Gain(w, b, on)), w.Places(b.base))
  {
    hide OnGrid, Worth, IsSums, Exact;
    ExactRows(w, b, rows, on);
    forall r | r in rows ensures OnGrid(Gain(w, b, on)(r), w.Places(b.base)) {
      GridClosed(Worth(w, b, on)(r), r.base, w.Places(b.base));
    }
    RowsOnGrid(rows, Gain(w, b, on), w.Places(b.base));
  }

  /** In the base currency the net result is exactly the period's income and
      expense postings, credit-positive, plus the revaluation of the period. */
  lemma NetResultIs(w: World, b: Book, rp: Report, rows: seq<SumRow>, from: int, to: int, reval: real)
    requires Exact(w, b) && InBase(w, b, rp) && Query(b, rows, Between(b.txns, from, to))
    requires OnGrid(reval, rp.places)
    ensures IncomeOf(w, b, rp, rows, reval).netResult == reval - Sum(Between(b.txns, from, to), BaseOf(Nominal(b)))
  {
    hide Out, PerAccount, SumOver, Sum, IsSums, LinesOf, OnGrid, Exact;
    var x := PerAccount(rows, RowBase());
    var d := Debit(rp, x);
    var inc, exp := Flow(b, rows, Income), Flow(b, rows, Expense);
    OutExact(rp, reval);
    ShownSigned(b, rp, rows, RowBase(), inc, Income);
    ShownSigned(b, rp, rows, RowBase(), exp, Expense);
    SumOverUnion(inc, exp, d);
    assert Results(b, rows) == inc + exp;
    PeriodRows(w, b, rows, from, to);
    forall a ensures OnGrid(x(a), rp.places) {
      PerAccountOnGrid(rows, RowBase(), rp.places, a);
    }
    ExactSum(rp, inc + exp, x);
    ResultRows(b, rows, Between(b.txns, from, to));
  }

  lemma PeriodRows(w: World, b: Book, rows: seq<SumRow>, from: int, to: int)
    requires Exact(w, b) && IsSums(rows, Between(b.txns, from, to))
    ensures forall r :: r in rows ==> OnGrid(RowBase()(r), w.Places(b.base))
  {
    hide OnGrid, IsSums;
    var ps := Between(b.txns, from, to);
    forall p | p in ps ensures Tidy(w.Places(b.base), b.base, p) {
      BetweenFrom(b.txns, from, to, p);
      var i :| 0 <= i < |b.txns| && from <= b.txns[i].date <= to && p in b.txns[i].postings;
      assert b.txns[i] in b.txns && SoundTxn(w, b, b.txns[i]) && Proper(w, b, p);
    }
    forall r | r in rows ensures OnGrid(RowBase()(r), w.Places(b.base)) {
      RowOnGrid(w.Places(b.base), b.base, rows, ps, r);
    }
  }

  /** The statements articulate: in the base currency, equity changes over a
      period by its net result and by what moved the equity accounts, however
      each query ordered its rows. */
  lemma StatementsArticulate(w: World, b: Book, rp: Report, from: int, to: int,
      closing: seq<SumRow>, opening: seq<SumRow>, movements: seq<SumRow>, closing': seq<SumRow>, opening': seq<SumRow>)
    requires from <= to && Exact(w, b) && InBase(w, b, rp)
    requires Query(b, closing, Upto(b.txns, to)) && Query(b, closing', Upto(b.txns, to))
    requires Query(b, opening, Upto(b.txns, from - 1)) && Query(b, opening', Upto(b.txns, from - 1))
    requires Query(b, movements, Between(b.txns, from, to))
    ensures var end, start := SheetOf(w, b, rp, closing, to), SheetOf(w, b, rp, opening, from - 1);
      var income := IncomeOf(w, b, rp, movements,
        Sum(closing', Gain(w, b, to)) - Sum(opening', Gain(w, b, from - 1)));
      end.totalEquity - start.totalEquity == income.netResult + (end.equityAccounts - start.equityAccounts)
  {
    hide Sum, IsSums, SheetOf, IncomeOf, Gain, OnGrid, Exact;
    var gainEnd, gainStart := Sum(closing', Gain(w, b, to)), Sum(opening', Gain(w, b, from - 1));
    OrderFree(closing, closing', Upto(b.txns, to), Gain(w, b, to));
    OrderFree(opening, opening', Upto(b.txns, from - 1), Gain(w, b, from - 1));
    EquityAt(w, b, rp, closing, to);
    EquityAt(w, b, rp, opening, from - 1);
    GainsOnGrid(w, b, closing', to);
    GainsOnGrid(w, b, opening', from - 1);
    GridClosed(gainEnd, gainStart, rp.places);
    NetResultIs(w, b, rp, movements, from, to, gainEnd - gainStart);
    SumPeriod(b.txns, from, to, BaseOf(Nominal(b)));
  }

  /** A report asked for in the base currency is in the base currency. */
  lemma BaseReport(w: World, b: Book, currency: string, on: int)
    requires currency == "" || currency == b.base
    ensures NewReport(w, b.base, currency, on).Ok? <==> CurrencyCode(w, b.base)
    ensures NewReport(w, b.base, currency, on).Ok? ==> InBase(w, b, NewReport(w, b.base, currency, on).value)
  {
  }
}
