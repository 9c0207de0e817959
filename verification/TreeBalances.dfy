// Every account's balance, rolled up the tree (internal/ledger/balances.go).
module TreeBalances {
  import opened Sums
  import opened Core
  import opened Groups
  import opened Statements
  import opened RollUp

  /** What an account shows: base, value, and units of each commodity. */
  datatype Figure = Figure(base: real, value: real, amounts: map<string, real>)

  function Held(f: Figure, c: string): real {
    if c in f.amounts then f.amounts[c] else 0.0
  }

  function At(m: map<int, Figure>, id: int): Figure {
    if id in m then m[id] else Figure(0.0, 0.0, map[])
  }

  function AddRow(m: map<int, Figure>, id: int, r: SumRow, v: real): map<int, Figure> {
    var f := At(m, id);
    m[id := Figure(f.base + r.base, f.value + v, f.amounts[r.commodity := Held(f, r.commodity) + r.amount])]
  }

  function RowAmount(c: string): SumRow -> real {
    (r: SumRow) => if r.commodity == c then r.amount else 0.0
  }

  /** m after adding the row to every account of ids. */
  ghost predicate AddedTo(before: map<int, Figure>, after: map<int, Figure>, ids: set<int>, r: SumRow, v: real) {
    forall a ::
      At(after, a).base == At(before, a).base + (if a in ids then r.base else 0.0) &&
      At(after, a).value == At(before, a).value + (if a in ids then v else 0.0) &&
      forall c :: Held(At(after, a), c) == Held(At(before, a), c) + (if a in ids then RowAmount(c)(r) else 0.0)
  }

  lemma AddMore(before: map<int, Figure>, m: map<int, Figure>, ids: set<int>, id: int, r: SumRow, v: real)
    requires AddedTo(before, m, ids, r, v) && id !in ids
    ensures AddedTo(before, AddRow(m, id, r, v), ids + {id}, r, v)
  {
    var out := AddRow(m, id, r, v);
    forall a
      ensures At(out, a).base == At(before, a).base + (if a in ids + {id} then r.base else 0.0)
      ensures At(out, a).value == At(before, a).value + (if a in ids + {id} then v else 0.0)
      ensures forall c :: Held(At(out, a), c) == Held(At(before, a), c) + (if a in ids + {id} then RowAmount(c)(r) else 0.0)
    {
      if a != id {
        assert At(out, a) == At(m, a);
      }
    }
  }

  /** The walk: the row's account and every account above it, once each. */
  method Climb(m: map<int, Figure>, accs: map<int, Account>, ghost rank: int -> nat, r: SumRow, v: real)
      returns (out: map<int, Figure>)
    requires Ranked(accs, rank)
    ensures AddedTo(m, out, Chain(accs, rank, r.account), r, v)
  {
    hide Chain, AddedTo, AddRow;
    out := m;
    var id := Some(r.account);
    ghost var ids: set<int> := {};
    assert AddedTo(m, m, {}, r, v) by { AddNone(m, r, v); }
    while id.Some?
      invariant AddedTo(m, out, ids, r, v)
      invariant Chain(accs, rank, r.account) == ids + (if id.Some? then Chain(accs, rank, id.value) else {})
      invariant forall a :: a in ids ==> id.Some? ==> rank(id.value) < rank(a)
      decreases if id.Some? then rank(id.value) + 1 else 0
    {
      var at := id.value;
      ChainStep(accs, rank, at);
      AddMore(m, out, ids, at, r, v);
      out := AddRow(out, at, r, v);
      ids := ids + {at};
      id := ParentOf(accs, at);
    }
    assert ids == Chain(accs, rank, r.account);
  }

  lemma AddNone(m: map<int, Figure>, r: SumRow, v: real)
    ensures AddedTo(m, m, {}, r, v)
  {
  }

  // ----- the whole pass -----

  ghost function Subtree(accs: map<int, Account>, rank: int -> nat, a: int): set<int>
    requires Ranked(accs, rank)
  {
    set x | x in accs && a in Chain(accs, rank, x)
  }

  /** A figure that sums the rows of a set of accounts. */
  ghost predicate Adds(f: Figure, rows: seq<SumRow>, worth: SumRow -> real, accounts: set<int>) {
    f.base == Sum(rows, On(RowBase(), accounts)) && f.value == Sum(rows, On(worth, accounts)) &&
    forall c :: Held(f, c) == Sum(rows, On(RowAmount(c), accounts))
  }

  lemma AddsAppend(f: Figure, g: Figure, rows: seq<SumRow>, r: SumRow, worth: SumRow -> real, accounts: set<int>)
    requires Adds(f, rows, worth, accounts)
    requires g.base == f.base + (if r.account in accounts then r.base else 0.0)
    requires g.value == f.value + (if r.account in accounts then worth(r) else 0.0)
    requires forall c :: Held(g, c) == Held(f, c) + (if r.account in accounts then RowAmount(c)(r) else 0.0)
    ensures Adds(g, rows + [r], worth, accounts)
  {
    hide Sum;
    SumAppend(rows, r, On(RowBase(), accounts));
    SumAppend(rows, r, On(worth, accounts));
    forall c ensures Held(g, c) == Sum(rows + [r], On(RowAmount(c), accounts)) {
      SumAppend(rows, r, On(RowAmount(c), accounts));
    }
  }

  ghost predicate OwnAre(own: map<int, Figure>, rows: seq<SumRow>, worth: SumRow -> real) {
    forall a :: Adds(At(own, a), rows, worth, {a})
  }

  ghost predicate TotalsAre(total: map<int, Figure>, rows: seq<SumRow>, worth: SumRow -> real,
      accs: map<int, Account>, rank: int -> nat)
    requires Ranked(accs, rank)
  {
    forall a :: Adds(At(total, a), rows, worth, Subtree(accs, rank, a))
  }

  lemma OwnMore(own: map<int, Figure>, rows: seq<SumRow>, r: SumRow, worth: SumRow -> real)
    requires OwnAre(own, rows, worth)
    ensures OwnAre(AddRow(own, r.account, r, worth(r)), rows + [r], worth)
  {
    hide Adds, Sum;
    var out := AddRow(own, r.account, r, worth(r));
    AddNone(own, r, worth(r));
    AddMore(own, own, {}, r.account, r, worth(r));
    forall a ensures Adds(At(out, a), rows + [r], worth, {a}) {
      assert a in {} + {r.account} <==> r.account in {a};
      AddsAppend(At(own, a), At(out, a), rows, r, worth, {a});
    }
  }

  lemma TotalsMore(total: map<int, Figure>, out: map<int, Figure>, rows: seq<SumRow>, r: SumRow, worth: SumRow -> real,
      accs: map<int, Account>, rank: int -> nat)
    requires Ranked(accs, rank) && TotalsAre(total, rows, worth, accs, rank) && r.account in accs
    requires AddedTo(total, out, Chain(accs, rank, r.account), r, worth(r))
    ensures TotalsAre(out, rows + [r], worth, accs, rank)
  {
    hide Adds, Sum, Chain;
    forall a ensures Adds(At(out, a), rows + [r], worth, Subtree(accs, rank, a)) {
      assert a in Chain(accs, rank, r.account) <==> r.account in Subtree(accs, rank, a);
      AddsAppend(At(total, a), At(out, a), rows, r, worth, Subtree(accs, rank, a));
    }
  }

  lemma NoRows(worth: SumRow -> real, accs: map<int, Account>, rank: int -> nat)
    requires Ranked(accs, rank)
    ensures OwnAre(map[], [], worth) && TotalsAre(map[], [], worth, accs, rank)
    ensures forall g: SumRow -> real :: Sum([], g) == 0.0
  {
    assert forall g: SumRow -> real :: Sum([], g) == 0.0;
  }

  datatype ByClass = ByClass(asset: real, liability: real, equity: real, income: real, expense: real) {
    function Of(cls: Class): real {
      match cls
      case Asset => asset
      case Liability => liability
      case Equity => equity
      case Income => income
      case Expense => expense
    }

    function Plus(cls: Class, v: real): ByClass {
      match cls
      case Asset => this.(asset := asset + v)
      case Liability => this.(liability := liability + v)
      case Equity => this.(equity := equity + v)
      case Income => this.(income := income + v)
      case Expense => this.(expense := expense + v)
    }

    function Total(): real {
      asset + liability + equity + income + expense
    }
  }

  predicate ClassesAre(t: ByClass, rows: seq<SumRow>, g: SumRow -> real, b: Book) {
    forall cls :: t.Of(cls) == Sum(rows, On(g, OfClass(b, cls)))
  }

  lemma ClassesMore(t: ByClass, rows: seq<SumRow>, r: SumRow, g: SumRow -> real, b: Book)
    requires ClassesAre(t, rows, g, b) && r.account in b.accounts
    ensures ClassesAre(t.Plus(b.accounts[r.account].cls, g(r)), rows + [r], g, b)
  {
    hide Sum;
    var own := b.accounts[r.account].cls;
    forall cls ensures t.Plus(own, g(r)).Of(cls) == Sum(rows + [r], On(g, OfClass(b, cls))) {
      SumAppend(rows, r, On(g, OfClass(b, cls)));
      assert r.account in OfClass(b, cls) <==> own == cls;
    }
  }

  datatype Balance = Balance(own: map<int, Figure>, total: map<int, Figure>, classTotals: ByClass, classValues: ByClass,
                             unrealised: real, check: real)

  /** Balances: one aggregate query and a walk up the tree for each row. */
  method Balances(w: World, b: Book, rows: seq<SumRow>, asOf: int, ghost rank: int -> nat) returns (r: Balance)
    requires RowsKnown(b, rows) && Ranked(b.accounts, rank)
    ensures OwnAre(r.own, rows, Worth(w, b, asOf))
    ensures TotalsAre(r.total, rows, Worth(w, b, asOf), b.accounts, rank)
    ensures ClassesAre(r.classTotals, rows, RowBase(), b) && ClassesAre(r.classValues, rows, Worth(w, b, asOf), b)
    ensures r.unrealised == Sum(rows, Gain(w, b, asOf)) && r.check == Sum(rows, RowBase())
  {
    hide Value, OwnAre, TotalsAre, ClassesAre, AddedTo, AddRow, Sum;
    ghost var worth := Worth(w, b, asOf);
    var zero := ByClass(0.0, 0.0, 0.0, 0.0, 0.0);
    var own: map<int, Figure>, total: map<int, Figure> := map[], map[];
    var totals, values, unrealised, check := zero, zero, 0.0, 0.0;
    assert rows[..0] == [];
    NoRows(worth, b.accounts, rank);
    NoClasses(b, RowBase());
    NoClasses(b, worth);
    for i := 0 to |rows|
      invariant OwnAre(own, rows[..i], worth) && TotalsAre(total, rows[..i], worth, b.accounts, rank)
      invariant ClassesAre(totals, rows[..i], RowBase(), b) && ClassesAre(values, rows[..i], worth, b)
      invariant unrealised == Sum(rows[..i], Gain(w, b, asOf)) && check == Sum(rows[..i], RowBase())
    {
      var row := rows[i];
      var cls := b.accounts[row.account].cls;
      var v := Worth(w, b, asOf)(row);
      assert rows[..i + 1] == rows[..i] + [row];
      SumTake(rows, i, Gain(w, b, asOf));
      SumTake(rows, i, RowBase());
      if cls.Asset? || cls.Liability? {
        unrealised := unrealised + (v - row.base);
      }
      OwnMore(own, rows[..i], row, worth);
      own := AddRow(own, row.account, row, v);
      ClassesMore(totals, rows[..i], row, RowBase(), b);
      ClassesMore(values, rows[..i], row, worth, b);
      totals, values := totals.Plus(cls, row.base), values.Plus(cls, v);
      check := check + row.base;
      var climbed := Climb(total, b.accounts, rank, row, v);
      TotalsMore(total, climbed, rows[..i], row, worth, b.accounts, rank);
      total := climbed;
    }
    assert rows[..|rows|] == rows;
    return Balance(own, total, totals, values, unrealised, check);
  }

  lemma NoClasses(b: Book, g: SumRow -> real)
    ensures ClassesAre(ByClass(0.0, 0.0, 0.0, 0.0, 0.0), [], g, b)
  {
  }

  // ----- what the balances promise -----

  function OwnBase(own: map<int, Figure>): int -> real {
    (x: int) => At(own, x).base
  }

  function OwnValue(own: map<int, Figure>): int -> real {
    (x: int) => At(own, x).value
  }

  function OwnHeld(own: map<int, Figure>, c: string): int -> real {
    (x: int) => Held(At(own, x), c)
  }

  /** An account's total is the sum of the own figures in its subtree. */
  lemma TotalIsSubtree(own: map<int, Figure>, total: map<int, Figure>, rows: seq<SumRow>, worth: SumRow -> real,
      accs: map<int, Account>, rank: int -> nat, a: int, c: string)
    requires Ranked(accs, rank) && OwnAre(own, rows, worth) && TotalsAre(total, rows, worth, accs, rank)
    ensures At(total, a).base == SumOver(Subtree(accs, rank, a), OwnBase(own))
    ensures At(total, a).value == SumOver(Subtree(accs, rank, a), OwnValue(own))
    ensures Held(At(total, a), c) == SumOver(Subtree(accs, rank, a), OwnHeld(own, c))
  {
    hide Sum, SumOver, Chain;
    var s := Subtree(accs, rank, a);
    SumByAccount(rows, RowBase(), s);
    SumByAccount(rows, worth, s);
    SumByAccount(rows, RowAmount(c), s);
    SumOverSame(s, OwnBase(own), PerAccount(rows, RowBase()));
    SumOverSame(s, OwnValue(own), PerAccount(rows, worth));
    SumOverSame(s, OwnHeld(own, c), PerAccount(rows, RowAmount(c)));
  }

  /** On recorded books the check is zero at every date, and the class values
      add up to the unrealised gain. */
  lemma CheckIsZero(w: World, b: Book, rows: seq<SumRow>, on: int, r: Balance)
    requires Recorded(b) && Query(b, rows, Upto(b.txns, on))
    requires ClassesAre(r.classTotals, rows, RowBase(), b) && ClassesAre(r.classValues, rows, Worth(w, b, on), b)
    requires r.unrealised == Sum(rows, Gain(w, b, on)) && r.check == Sum(rows, RowBase())
    ensures r.check == 0.0 && r.classTotals.Total() == 0.0 && r.classValues.Total() == r.unrealised
  {
    hide Sum, IsSums, Value;
    RecordedUpto(b, on);
    AllBase(b, rows, on);
    ClassesTotal(r.classTotals, rows, RowBase(), b);
    ClassesTotal(r.classValues, rows, Worth(w, b, on), b);
    SumSplit(rows, Worth(w, b, on), Gain(w, b, on), RowBase());
  }

  lemma ClassesTotal(t: ByClass, rows: seq<SumRow>, g: SumRow -> real, b: Book)
    requires ClassesAre(t, rows, g, b) && RowsKnown(b, rows)
    ensures t.Total() == Sum(rows, g)
  {
    hide Sum;
    var a, l, e := OfClass(b, Asset), OfClass(b, Liability), OfClass(b, Equity);
    var i, x := OfClass(b, Income), OfClass(b, Expense);
    assert t.asset == t.Of(Asset) && t.liability == t.Of(Liability) && t.equity == t.Of(Equity);
    assert t.income == t.Of(Income) && t.expense == t.Of(Expense);
    SumSplit(rows, On(g, a + l), On(g, a), On(g, l));
    SumSplit(rows, On(g, a + l + e), On(g, a + l), On(g, e));
    SumSplit(rows, On(g, a + l + e + i), On(g, a + l + e), On(g, i));
    SumSplit(rows, g, On(g, a + l + e + i), On(g, x));
  }
}
