// The cash flow statement by the direct method (internal/ledger/reports.go):
// each counter-leg of a transaction that moves cash is a flow, and what the
// flows do not explain is the exchange effect on foreign cash.
module CashFlow {
  import opened Decimals
  import opened Sums
  import opened Core
  import opened Groups
  import opened Statements

  predicate IsCash(b: Book, a: int) {
    a in b.accounts && b.accounts[a].isCash
  }

  function CashAccounts(b: Book): set<int> {
    set a | a in b.accounts && b.accounts[a].isCash
  }

  predicate MovesCash(b: Book, t: Txn) {
    exists p :: p in t.postings && IsCash(b, p.account)
  }

  /** The CashFlowPostings query: the legs, cash or not, of the period's
      transactions with a leg on cash. */
  function CashPostings(b: Book, txns: seq<Txn>, from: int, to: int): seq<Posting> {
    if |txns| == 0 then [] else
      var t := txns[|txns| - 1];
      CashPostings(b, txns[..|txns| - 1], from, to) +
      (if from <= t.date <= to && MovesCash(b, t) then t.postings else [])
  }

  predicate HasKey(b: Book, key: string, a: int) {
    AccountByKey(b, key) == Some(a)
  }

  function FlowClass(b: Book, dividends: CfClass, a: int): CfClass
    requires a in b.accounts
  {
    if HasKey(b, "interest_income", a) || HasKey(b, "dividends", a) then dividends else b.accounts[a].cf
  }

  function CashWorth(w: World, b: Book, on: int): SumRow -> real {
    (r: SumRow) => if IsCash(b, r.account) then Value(w, b.base, r.commodity, r.amount, r.base, on) else 0.0
  }

  /** Value beyond historical base, of cash only. */
  function CashGain(w: World, b: Book, on: int): SumRow -> real {
    (r: SumRow) =>
      if IsCash(b, r.account) then Value(w, b.base, r.commodity, r.amount, r.base, on) - r.base else 0.0
  }

  method CashAt(w: World, b: Book, rows: seq<SumRow>, on: int) returns (total: real)
    ensures total == Sum(rows, CashWorth(w, b, on))
  {
    hide Value;
    total := 0.0;
    assert rows[..0] == [];
    for i := 0 to |rows|
      invariant total == Sum(rows[..i], CashWorth(w, b, on))
    {
      SumTake(rows, i, CashWorth(w, b, on));
      var r := rows[i];
      if IsCash(b, r.account) {
        total := total + Value(w, b.base, r.commodity, r.amount, r.base, on);
      }
    }
    assert rows[..|rows|] == rows;
  }

  // ----- the statement -----

  predicate OpeningEntry(b: Book, p: Posting) {
    !IsCash(b, p.account) && HasKey(b, OPENING_BALANCES, p.account)
  }

  function Counters(b: Book, ps: seq<Posting>): set<int> {
    set p | p in ps && !IsCash(b, p.account) && !OpeningEntry(b, p) :: p.account
  }

  function OpeningSet(b: Book): set<int> {
    if OPENING_BALANCES in b.keys && !IsCash(b, b.keys[OPENING_BALANCES]) then {b.keys[OPENING_BALANCES]} else {}
  }

  /** A counter account's flow: minus its own postings. */
  function FlowOf(ps: seq<Posting>): int -> real {
    (a: int) => -Sum(ps, BaseOf({a}))
  }

  function Flowing(b: Book, dividends: CfClass, ps: seq<Posting>, cf: CfClass): set<int> {
    set a | a in Counters(b, ps) && a in b.accounts && FlowClass(b, dividends, a) == cf
  }

  datatype Flows = Flows(opening: real, operating: real, investing: real, financing: real, fxEffect: real, closing: real)

  ghost function FlowsOf(w: World, b: Book, rp: Report, dividends: CfClass, ps: seq<Posting>, from: int, to: int,
      opening: seq<SumRow>, closing: seq<SumRow>): Flows
  {
    var f := Debit(rp, FlowOf(ps));
    var o := Out(rp, Sum(opening, CashWorth(w, b, from - 1)) - Sum(ps, BaseOf(OpeningSet(b))));
    var c := Out(rp, Sum(closing, CashWorth(w, b, to)));
    var op := SumOver(Flowing(b, dividends, ps, Operating), f);
    var inv := SumOver(Flowing(b, dividends, ps, Investing), f);
    var fin := SumOver(Flowing(b, dividends, ps, Financing), f);
    Flows(o, op, inv, fin, c - o - op - inv - fin, c)
  }

  predicate FlowsAre(b: Book, ps: seq<Posting>, flows: map<int, real>, entries: real) {
    flows.Keys == Counters(b, ps) && (forall a :: a in flows ==> flows[a] == FlowOf(ps)(a)) &&
    entries == -Sum(ps, BaseOf(OpeningSet(b)))
  }

  lemma FlowsSkip(b: Book, ps: seq<Posting>, p: Posting, flows: map<int, real>, entries: real)
    requires FlowsAre(b, ps, flows, entries) && (IsCash(b, p.account) || OpeningEntry(b, p))
    ensures FlowsAre(b, ps + [p], flows, if OpeningEntry(b, p) then entries - p.base else entries)
  {
    hide Sum;
    assert Counters(b, ps + [p]) == Counters(b, ps);
    SumAppend(ps, p, BaseOf(OpeningSet(b)));
    forall a | a in flows ensures FlowOf(ps + [p])(a) == FlowOf(ps)(a) {
      SumAppend(ps, p, BaseOf({a}));
    }
  }

  lemma CountersAppend(b: Book, ps: seq<Posting>, p: Posting)
    ensures Counters(b, ps + [p]) ==
      Counters(b, ps) + (if IsCash(b, p.account) || OpeningEntry(b, p) then {} else {p.account})
  {
    hide IsCash, HasKey;
  }

  lemma NoFlow(b: Book, ps: seq<Posting>, a: int)
    requires a !in Counters(b, ps) && !IsCash(b, a) && !HasKey(b, OPENING_BALANCES, a)
    ensures FlowOf(ps)(a) == 0.0
  {
    hide Sum, IsCash, HasKey;
    SumNil(ps, BaseOf({a}));
  }

  lemma FlowAppend(ps: seq<Posting>, p: Posting, a: int)
    ensures FlowOf(ps + [p])(a) == FlowOf(ps)(a) - (if a == p.account then p.base else 0.0)
  {
    hide Sum;
    SumAppend(ps, p, BaseOf({a}));
  }

  function Moved(flows: map<int, real>, p: Posting): map<int, real> {
    flows[p.account := (if p.account in flows then flows[p.account] else 0.0) - p.base]
  }

  lemma NotOpening(b: Book, p: Posting)
    requires !IsCash(b, p.account) && !OpeningEntry(b, p)
    ensures BaseOf(OpeningSet(b))(p) == 0.0 && !HasKey(b, OPENING_BALANCES, p.account)
  {
  }

  lemma FlowsEnter(b: Book, ps: seq<Posting>, p: Posting, flows: map<int, real>, entries: real)
    requires FlowsAre(b, ps, flows, entries) && !IsCash(b, p.account) && !OpeningEntry(b, p)
    ensures FlowsAre(b, ps + [p], Moved(flows, p), entries)
  {
    hide Sum, FlowOf, IsCash, HasKey, Counters, OpeningSet, OpeningEntry;
    NotOpening(b, p);
    CountersAppend(b, ps, p);
    SumAppend(ps, p, BaseOf(OpeningSet(b)));
    var out := Moved(flows, p);
    forall a | a in out ensures out[a] == FlowOf(ps + [p])(a) {
      FlowAppend(ps, p, a);
      if a !in flows {
        NoFlow(b, ps, a);
      }
    }
  }

  /** The flows of the query's rows, one account at a time. */
  method Collect(b: Book, ps: seq<Posting>) returns (flows: map<int, real>, entries: real)
    ensures FlowsAre(b, ps, flows, entries)
  {
    hide FlowsAre, Sum, Counters;
    flows, entries := map[], 0.0;
    assert ps[..0] == [];
    assert FlowsAre(b, [], flows, entries) by { FlowsNone(b); }
    for i := 0 to |ps|
      invariant FlowsAre(b, ps[..i], flows, entries)
    {
      var p := ps[i];
      assert ps[..i + 1] == ps[..i] + [p];
      if IsCash(b, p.account) {
        FlowsSkip(b, ps[..i], p, flows, entries);
        continue;
      }
      if HasKey(b, OPENING_BALANCES, p.account) {
        FlowsSkip(b, ps[..i], p, flows, entries);
        entries := entries - p.base;
        continue;
      }
      FlowsEnter(b, ps[..i], p, flows, entries);
      flows := Moved(flows, p);
    }
    assert ps[..|ps|] == ps;
  }

  lemma FlowsNone(b: Book)
    ensures FlowsAre(b, [], map[], 0.0)
  {
  }

  method CashFlow(w: World, b: Book, dividends: CfClass, from: int, to: int, currency: string,
      opening: seq<SumRow>, closing: seq<SumRow>) returns (r: Result<Flows>)
    requires forall p :: p in CashPostings(b, b.txns, from, to) ==> p.account in b.accounts
    ensures to < from ==> r == Err(Invalid)
    ensures to >= from ==> match NewReport(w, b.base, currency, to)
      case Err(e) => r == Err(e)
      case Ok(rp) => r == Ok(FlowsOf(w, b, rp, dividends, CashPostings(b, b.txns, from, to), from, to, opening, closing))
  {
    hide NewReport, Sum, SumOver, Counters, CashPostings, Round;
    if to < from {
      return Err(Invalid);
    }
    var report := NewReport(w, b.base, currency, to);
    if report.Err? {
      return Err(report.error);
    }
    var rp := report.value;
    var ps := CashPostings(b, b.txns, from, to);
    var flows, entries := Collect(b, ps);
    assert flows.Keys <= b.accounts.Keys by { CountersKnown(b, ps); }
    var op, inv, fin := 0.0, 0.0, 0.0;
    ghost var f := Debit(rp, FlowOf(ps));
    ghost var ops, invs := Flowing(b, dividends, ps, Operating), Flowing(b, dividends, ps, Investing);
    ghost var fins := Flowing(b, dividends, ps, Financing);
    var todo := flows.Keys;
    ghost var done: set<int> := {};
    assert ops * done == {} && invs * done == {} && fins * done == {};
    SumOverNil({}, f);
    while todo != {}
      invariant todo <= flows.Keys && done == flows.Keys - todo
      invariant op == SumOver(ops * done, f) && inv == SumOver(invs * done, f) && fin == SumOver(fins * done, f)
      decreases todo
    {
      var id := Next(todo);
      SumOverGrow(ops, done, id, f);
      SumOverGrow(invs, done, id, f);
      SumOverGrow(fins, done, id, f);
      if flows[id] != 0.0 {
        var amount := Out(rp, flows[id]);
        match FlowClass(b, dividends, id) {
          case Investing => inv := inv + amount;
          case Financing => fin := fin + amount;
          case Operating => op := op + amount;
        }
      } else {
        OutZero(rp);
      }
      todo, done := todo - {id}, done + {id};
    }
    assert ops * done == ops && invs * done == invs && fins * done == fins;
    var o := CashAt(w, b, opening, from - 1);
    var c := CashAt(w, b, closing, to);
    var shownOpening, shownClosing := Out(rp, o + entries), Out(rp, c);
    return Ok(Flows(shownOpening, op, inv, fin, shownClosing - shownOpening - op - inv - fin, shownClosing));
  }

  lemma CountersKnown(b: Book, ps: seq<Posting>)
    requires forall p :: p in ps ==> p.account in b.accounts
    ensures Counters(b, ps) <= b.accounts.Keys
  {
  }

  lemma OutZero(rp: Report)
    ensures Out(rp, 0.0) == 0.0
  {
    hide Round, Times;
    TimesFacts(0.0, 0.0, rp.toReport);
    GridZero(rp.places);
  }

  // ----- reconciliation -----

  lemma {:induction false} FlowsByAccount(ps: seq<Posting>, s: set<int>)
    ensures SumOver(s, FlowOf(ps)) == -Sum(ps, BaseOf(s))
  {
    hide Sum;
    if s == {} {
      SumNil(ps, BaseOf(s));
    } else {
      var a := FirstOf(s);
      FlowsByAccount(ps, s - {a});
      SumOverRemove(s, FlowOf(ps), a);
      SumSplit(ps, BaseOf(s), BaseOf(s - {a}), BaseOf({a}));
    }
  }

  /** Every posting of the rows is cash, an opening entry or a flow, and they
      sum to zero: flows and opening entries together are the cash movement. */
  lemma FlowsAreCashMovement(b: Book, ps: seq<Posting>)
    requires Sum(ps, Base()) == 0.0
    ensures SumOver(Counters(b, ps), FlowOf(ps)) - Sum(ps, BaseOf(OpeningSet(b))) == Sum(ps, BaseOf(CashAccounts(b)))
  {
    hide Sum, SumOver;
    var n, o, c := BaseOf(Counters(b, ps)), BaseOf(OpeningSet(b)), BaseOf(CashAccounts(b));
    FlowsByAccount(ps, Counters(b, ps));
    var rest := BaseOf(Counters(b, ps) + OpeningSet(b));
    forall p | p in ps ensures Base()(p) == rest(p) + c(p) && rest(p) == n(p) + o(p) {
      if p.account in Counters(b, ps) {
        var q :| q in ps && !IsCash(b, q.account) && !OpeningEntry(b, q) && q.account == p.account;
      }
    }
    SumSplit(ps, Base(), rest, c);
    SumSplit(ps, rest, n, o);
  }

  /** Transactions that move no cash have no cash posting. */
  lemma {:induction false} CashMovement(b: Book, txns: seq<Txn>, from: int, to: int)
    requires forall t :: t in txns ==> Balanced(t)
    ensures Sum(CashPostings(b, txns, from, to), BaseOf(CashAccounts(b))) ==
      Sum(Between(txns, from, to), BaseOf(CashAccounts(b)))
    ensures Sum(CashPostings(b, txns, from, to), Base()) == 0.0
  {
    hide Sum, MovesCash;
    var c := BaseOf(CashAccounts(b));
    if |txns| == 0 {
      SumNil([], c);
      SumNil([], Base());
    } else {
      var front, t := txns[..|txns| - 1], txns[|txns| - 1];
      CashMovement(b, front, from, to);
      assert Balanced(t);
      var dated := if from <= t.date <= to then t.postings else [];
      var moving := if from <= t.date <= to && MovesCash(b, t) then t.postings else [];
      SumConcat(Between(front, from, to), dated, c);
      SumConcat(CashPostings(b, front, from, to), moving, c);
      SumConcat(CashPostings(b, front, from, to), moving, Base());
      SumNil([], Base());
      if !MovesCash(b, t) {
        NoCash(b, t);
      }
      SumNil([], c);
    }
  }

  lemma NoCash(b: Book, t: Txn)
    requires !MovesCash(b, t)
    ensures Sum(t.postings, BaseOf(CashAccounts(b))) == 0.0
  {
    hide Sum;
    forall p | p in t.postings ensures p.account !in CashAccounts(b) {
      assert !IsCash(b, p.account);
    }
    SumNil(t.postings, BaseOf(CashAccounts(b)));
  }

  lemma CashAtCost(w: World, b: Book, rows: seq<SumRow>, ps: seq<Posting>, on: int)
    requires IsSums(rows, ps)
    ensures Sum(rows, CashWorth(w, b, on)) == Sum(ps, BaseOf(CashAccounts(b))) + Sum(rows, CashGain(w, b, on))
  {
    hide Sum, Value, IsSums;
    Regroup(rows, ps, CashAccounts(b));
    SumSplit(rows, CashWorth(w, b, on), On(RowBase(), CashAccounts(b)), CashGain(w, b, on));
  }

  lemma CashOnGrid(w: World, b: Book, rows: seq<SumRow>, on: int)
    requires Exact(w, b) && IsSums(rows, Upto(b.txns, on))
    ensures OnGrid(Sum(rows, CashWorth(w, b, on)), w.Places(b.base))
  {
    hide OnGrid, Value, IsSums, Exact, Sum;
    TidyUpto(w, b, on);
    GridZero(w.Places(b.base));
    forall r | r in rows ensures OnGrid(CashWorth(w, b, on)(r), w.Places(b.base)) {
      RowOnGrid(w.Places(b.base), b.base, rows, Upto(b.txns, on), r);
      ValueOnGrid(w, b.base, r.commodity, r.amount, r.base, on);
    }
    RowsOnGrid(rows, CashWorth(w, b, on), w.Places(b.base));
  }

  lemma {:induction false} CashPostingsFrom(b: Book, txns: seq<Txn>, from: int, to: int, p: Posting)
    requires p in CashPostings(b, txns, from, to)
    ensures exists i :: 0 <= i < |txns| && p in txns[i].postings
  {
    var n := |txns| - 1;
    if p in CashPostings(b, txns[..n], from, to) {
      CashPostingsFrom(b, txns[..n], from, to, p);
      var i :| 0 <= i < n && p in txns[..n][i].postings;
      assert txns[i] == txns[..n][i];
    }
  }

  lemma SumsOnGrid(w: World, b: Book, from: int, to: int, s: set<int>)
    requires Exact(w, b)
    ensures OnGrid(Sum(CashPostings(b, b.txns, from, to), BaseOf(s)), w.Places(b.base))
  {
    hide OnGrid, Sum, CashPostings;
    var ps := CashPostings(b, b.txns, from, to);
    GridZero(w.Places(b.base));
    forall p | p in ps ensures OnGrid(BaseOf(s)(p), w.Places(b.base)) {
      CashPostingsFrom(b, b.txns, from, to, p);
      var i :| 0 <= i < |b.txns| && p in b.txns[i].postings;
      assert b.txns[i] in b.txns;
    }
    SumOnGrid(ps, BaseOf(s), w.Places(b.base));
  }

  /** The three classes are all the flows. */
  lemma FlowClasses(w: World, b: Book, rp: Report, dividends: CfClass, ps: seq<Posting>)
    requires forall p :: p in ps ==> p.account in b.accounts
    ensures SumOver(Flowing(b, dividends, ps, Operating), Debit(rp, FlowOf(ps))) +
      SumOver(Flowing(b, dividends, ps, Investing), Debit(rp, FlowOf(ps))) +
      SumOver(Flowing(b, dividends, ps, Financing), Debit(rp, FlowOf(ps))) ==
      SumOver(Counters(b, ps), Debit(rp, FlowOf(ps)))
  {
    hide SumOver, FlowClass, Counters, Out;
    CountersKnown(b, ps);
    var f := Debit(rp, FlowOf(ps));
    var op, inv := Flowing(b, dividends, ps, Operating), Flowing(b, dividends, ps, Investing);
    var fin := Flowing(b, dividends, ps, Financing);
    SumOverUnion(op, inv, f);
    SumOverUnion(op + inv, fin, f);
    forall a | a in Counters(b, ps) ensures a in op + inv + fin {
      var cf := FlowClass(b, dividends, a);
      assert cf.Operating? || cf.Investing? || cf.Financing?;
    }
    assert op + inv + fin == Counters(b, ps);
  }

  /** The statement reconciles: in the base currency the exchange effect is
      exactly the change over the period in what cash is worth beyond its
      historical base; flows and opening entries explain everything else. */
  lemma CashFlowReconciles(w: World, b: Book, rp: Report, dividends: CfClass, from: int, to: int,
      opening: seq<SumRow>, closing: seq<SumRow>)
    requires from <= to && Exact(w, b) && InBase(w, b, rp)
    requires IsSums(opening, Upto(b.txns, from - 1)) && IsSums(closing, Upto(b.txns, to))
    ensures FlowsOf(w, b, rp, dividends, CashPostings(b, b.txns, from, to), from, to, opening, closing).fxEffect ==
      Sum(closing, CashGain(w, b, to)) - Sum(opening, CashGain(w, b, from - 1))
  {
    hide Sum, SumOver, IsSums, CashWorth, CashGain, Exact, OnGrid, CashPostings, Out, Counters, Flowing;
    var ps := CashPostings(b, b.txns, from, to);
    var cash, entries := BaseOf(CashAccounts(b)), Sum(ps, BaseOf(OpeningSet(b)));
    ExactRecorded(w, b);
    PostingsKnown(b, from, to);
    CashAtCost(w, b, opening, Upto(b.txns, from - 1), from - 1);
    CashAtCost(w, b, closing, Upto(b.txns, to), to);
    CashMovement(b, b.txns, from, to);
    SumPeriod(b.txns, from, to, cash);
    FlowsAreCashMovement(b, ps);
    FlowClasses(w, b, rp, dividends, ps);
    forall a ensures OnGrid(FlowOf(ps)(a), rp.places) {
      SumsOnGrid(w, b, from, to, {a});
      GridClosed(Sum(ps, BaseOf({a})), Sum(ps, BaseOf({a})), rp.places);
    }
    ExactSum(rp, Counters(b, ps), FlowOf(ps));
    CashOnGrid(w, b, opening, from - 1);
    CashOnGrid(w, b, closing, to);
    SumsOnGrid(w, b, from, to, OpeningSet(b));
    GridClosed(Sum(opening, CashWorth(w, b, from - 1)), entries, rp.places);
    OutExact(rp, Sum(opening, CashWorth(w, b, from - 1)) - entries);
    OutExact(rp, Sum(closing, CashWorth(w, b, to)));
  }

  lemma PostingsKnown(b: Book, from: int, to: int)
    requires Recorded(b)
    ensures forall p :: p in CashPostings(b, b.txns, from, to) ==> p.account in b.accounts
  {
    forall p | p in CashPostings(b, b.txns, from, to) ensures p.account in b.accounts {
      CashPostingsFrom(b, b.txns, from, to, p);
    }
  }

  /** Cash held only in the base currency has no exchange effect. */
  lemma NoForeignCash(w: World, b: Book, rp: Report, dividends: CfClass, from: int, to: int,
      opening: seq<SumRow>, closing: seq<SumRow>)
    requires from <= to && Exact(w, b) && InBase(w, b, rp)
    requires IsSums(opening, Upto(b.txns, from - 1)) && IsSums(closing, Upto(b.txns, to))
    requires forall t, p :: t in b.txns && p in t.postings && IsCash(b, p.account) ==> p.commodity == b.base
    ensures FlowsOf(w, b, rp, dividends, CashPostings(b, b.txns, from, to), from, to, opening, closing).fxEffect == 0.0
  {
    hide Sum, SumOver, IsSums, Exact, FlowsOf, OnGrid, CashPostings;
    CashFlowReconciles(w, b, rp, dividends, from, to, opening, closing);
    NoCashGain(w, b, opening, from - 1);
    NoCashGain(w, b, closing, to);
  }

  lemma NoCashGain(w: World, b: Book, rows: seq<SumRow>, on: int)
    requires Exact(w, b) && IsSums(rows, Upto(b.txns, on))
    requires forall t, p :: t in b.txns && p in t.postings && IsCash(b, p.account) ==> p.commodity == b.base
    ensures Sum(rows, CashGain(w, b, on)) == 0.0
  {
    hide Sum, Exact, IsSums, OnGrid;
    TidyUpto(w, b, on);
    forall r | r in rows ensures CashGain(w, b, on)(r) == 0.0 {
      if IsCash(b, r.account) {
        RowAccount(rows, Upto(b.txns, on), r);
        var p :| p in Upto(b.txns, on) && KeyOf(p) == RowKey(r);
        UptoFrom(b.txns, on, p);
        var i :| 0 <= i < |b.txns| && b.txns[i].date <= on && p in b.txns[i].postings;
        assert b.txns[i] in b.txns;
        RowOnGrid(w.Places(b.base), b.base, rows, Upto(b.txns, on), r);
      }
    }
    SumNil(rows, CashGain(w, b, on));
  }

  // ----- each figure of the statement -----

  /** Where the flows of an account are shown: interest and dividends where the
      book chose, others where their account says. */
  function ShownUnder(b: Book, dividends: CfClass, a: int): CfClass
    requires a in b.accounts
  {
    if "interest_income" in b.keys && b.keys["interest_income"] == a then dividends
    else if "dividends" in b.keys && b.keys["dividends"] == a then dividends
    else b.accounts[a].cf
  }

  /** The accounts shown under a class: neither cash nor opening balances. */
  function ShownAccounts(b: Book, dividends: CfClass, cf: CfClass): set<int> {
    set a | a in b.accounts && !b.accounts[a].isCash && !(OPENING_BALANCES in b.keys && b.keys[OPENING_BALANCES] == a) &&
      ShownUnder(b, dividends, a) == cf
  }

  /** The counter-legs on some accounts, of a transaction of the period that has
      a leg on cash. */
  function CounterLegs(b: Book, from: int, to: int, accounts: set<int>): Txn -> real {
    (t: Txn) =>
      if from <= t.date <= to && (exists p :: p in t.postings && p.account in b.accounts && b.accounts[p.account].isCash)
      then Sum(t.postings, BaseOf(accounts)) else 0.0
  }

  lemma {:induction false} LegsAre(b: Book, txns: seq<Txn>, from: int, to: int, accounts: set<int>)
    ensures Sum(CashPostings(b, txns, from, to), BaseOf(accounts)) == Sum(txns, CounterLegs(b, from, to, accounts))
  {
    if |txns| > 0 {
      var front, t := txns[..|txns| - 1], txns[|txns| - 1];
      LegsAre(b, front, from, to, accounts);
      SumConcat(CashPostings(b, front, from, to), if from <= t.date <= to && MovesCash(b, t) then t.postings else [], BaseOf(accounts));
      SumNil([], BaseOf(accounts));
      if MovesCash(b, t) {
        var p :| p in t.postings && IsCash(b, p.account);
      }
    }
  }

  lemma ClassLegs(b: Book, dividends: CfClass, ps: seq<Posting>, cf: CfClass)
    requires forall p :: p in ps ==> p.account in b.accounts
    ensures Sum(ps, BaseOf(Flowing(b, dividends, ps, cf))) == Sum(ps, BaseOf(ShownAccounts(b, dividends, cf)))
  {
    hide Sum;
    forall p | p in ps ensures BaseOf(Flowing(b, dividends, ps, cf))(p) == BaseOf(ShownAccounts(b, dividends, cf))(p) {
      assert p.account in Flowing(b, dividends, ps, cf) <==> p.account in ShownAccounts(b, dividends, cf);
    }
    SumSame(ps, BaseOf(Flowing(b, dividends, ps, cf)), BaseOf(ShownAccounts(b, dividends, cf)));
  }

  lemma ClassIs(w: World, b: Book, rp: Report, dividends: CfClass, from: int, to: int, cf: CfClass)
    requires Exact(w, b) && InBase(w, b, rp)
    ensures var ps := CashPostings(b, b.txns, from, to);
      SumOver(Flowing(b, dividends, ps, cf), Debit(rp, FlowOf(ps))) ==
        -Sum(b.txns, CounterLegs(b, from, to, ShownAccounts(b, dividends, cf)))
  {
    hide Sum, SumOver, Exact, OnGrid, CashPostings, Out, Flowing, CounterLegs, ShownAccounts;
    var ps := CashPostings(b, b.txns, from, to);
    var s := Flowing(b, dividends, ps, cf);
    ExactRecorded(w, b);
    PostingsKnown(b, from, to);
    forall a ensures OnGrid(FlowOf(ps)(a), rp.places) {
      SumsOnGrid(w, b, from, to, {a});
      GridClosed(Sum(ps, BaseOf({a})), Sum(ps, BaseOf({a})), rp.places);
    }
    ExactSum(rp, s, FlowOf(ps));
    FlowsByAccount(ps, s);
    ClassLegs(b, dividends, ps, cf);
    LegsAre(b, b.txns, from, to, ShownAccounts(b, dividends, cf));
  }

  /** In the base currency each class is minus the counter-legs of its accounts,
      over the period's transactions with a leg on cash; cash opens at its worth
      the day before with what came from the opening balances account, closes at
      its worth, and the rest of the change is the exchange effect. */
  lemma FlowsAreTheirs(w: World, b: Book, rp: Report, dividends: CfClass, from: int, to: int,
      opening: seq<SumRow>, closing: seq<SumRow>)
    requires from <= to && Exact(w, b) && InBase(w, b, rp)
    requires IsSums(opening, Upto(b.txns, from - 1)) && IsSums(closing, Upto(b.txns, to))
    ensures var f := FlowsOf(w, b, rp, dividends, CashPostings(b, b.txns, from, to), from, to, opening, closing);
      f.operating == -Sum(b.txns, CounterLegs(b, from, to, ShownAccounts(b, dividends, Operating))) &&
      f.investing == -Sum(b.txns, CounterLegs(b, from, to, ShownAccounts(b, dividends, Investing))) &&
      f.financing == -Sum(b.txns, CounterLegs(b, from, to, ShownAccounts(b, dividends, Financing))) &&
      f.opening == Sum(opening, CashWorth(w, b, from - 1)) - Sum(b.txns, CounterLegs(b, from, to, OpeningSet(b))) &&
      f.closing == Sum(closing, CashWorth(w, b, to)) &&
      f.opening + f.operating + f.investing + f.financing + f.fxEffect == f.closing
  {
    hide Sum, SumOver, IsSums, CashWorth, Exact, OnGrid, CashPostings, Out, Flowing, CounterLegs, ShownAccounts, OpeningSet;
    var ps := CashPostings(b, b.txns, from, to);
    ClassIs(w, b, rp, dividends, from, to, Operating);
    ClassIs(w, b, rp, dividends, from, to, Investing);
    ClassIs(w, b, rp, dividends, from, to, Financing);
    LegsAre(b, b.txns, from, to, OpeningSet(b));
    CashOnGrid(w, b, opening, from - 1);
    CashOnGrid(w, b, closing, to);
    SumsOnGrid(w, b, from, to, OpeningSet(b));
    GridClosed(Sum(opening, CashWorth(w, b, from - 1)), Sum(ps, BaseOf(OpeningSet(b))), rp.places);
    OutExact(rp, Sum(opening, CashWorth(w, b, from - 1)) - Sum(ps, BaseOf(OpeningSet(b))));
    OutExact(rp, Sum(closing, CashWorth(w, b, to)));
  }
}
