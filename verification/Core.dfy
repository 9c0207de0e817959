// The data the ledger keeps: accounts, dated transactions with their
// postings, prices and commodities; and what the store's queries return.
// A date is a day number, an amount an exact number (debit > 0).
module Core {
  import opened Decimals
  import opened Sums

  datatype Option<+T> = None | Some(value: T)

  datatype Error =
    | NotFound | Placeholder | Archived | Mismatch | UnknownCommodity | ZeroAmount | TooPrecise
    | SignMismatch | RateMissing | NoHoldings | ExceedsHoldings | CostRequired | TooFew | Unbalanced
    | BookLocked | Invalid | Conflict | Required | Cycle | Duplicate

  datatype Result<+T> = Ok(value: T) | Err(error: Error) {
    predicate IsFailure() { Err? }
    function PropagateFailure<U>(): Result<U>
      requires Err?
    {
      Err(error)
    }
    function Extract(): T
      requires Ok?
    {
      value
    }
  }

  datatype Kind = Currency | Security(quote: string, contract: bool) | Points
  datatype Commodity = Commodity(kind: Kind, decimals: nat)
  
  // The prices table keeps only rates above zero.
  type Positive = r: real | r > 0.0 witness 1.0
  datatype Price = Price(commodity: string, quote: string, date: int, rate: Positive, manual: bool)

  /** What is shared by every book: the commodities and the prices. */
  datatype World = World(commodities: map<string, Commodity>, prices: seq<Price>) {
    // A commodity that is not listed reads as 0 places, as a missing map entry does.
    function Places(c: string): nat {
      if c in commodities then commodities[c].decimals else 0
    }
  }

  datatype Class = Asset | Liability | Equity | Income | Expense
  datatype CfClass = Operating | Investing | Financing

  datatype Account = Account(
    parent: Option<int>, cls: Class, commodity: Option<string>, isCurrent: bool, isCash: bool,
    cf: CfClass, placeholder: bool, archived: bool)

  datatype Posting = Posting(account: int, commodity: string, amount: real, base: real)
  datatype Txn = Txn(id: int, date: int, postings: seq<Posting>)

  // keys is the unique index on (book, template_key).
  datatype Book = Book(
    base: string, lock: Option<int>, accounts: map<int, Account>, keys: map<string, int>,
    txns: seq<Txn>, nextId: int, nextAccount: int)

  const OPENING_BALANCES := "opening_balances"
  const FX_GAIN_LOSS := "fx_gain_loss"
  const REALIZED_GAINS := "realized_gains"

  function AccountByKey(b: Book, key: string): Option<int> {
    if key in b.keys then Some(b.keys[key]) else None
  }

  predicate HoldsCommodity(c: Class) {
    c.Asset? || c.Liability? || c.Equity?
  }

  predicate CurrencyCode(w: World, c: string) {
    c in w.commodities && w.commodities[c].kind.Currency?
  }

  // ----- weights: what a sum adds up -----

  function Base(): Posting -> real {
    (p: Posting) => p.base
  }

  function Amount(): Posting -> real {
    (p: Posting) => p.amount
  }

  function BaseOf(accounts: set<int>): Posting -> real {
    (p: Posting) => if p.account in accounts then p.base else 0.0
  }

  function AmountOf(accounts: set<int>, commodity: string): Posting -> real {
    (p: Posting) => if p.account in accounts && p.commodity == commodity then p.amount else 0.0
  }

  function UnitsOf(account: int): Posting -> real {
    (p: Posting) => if p.account == account then p.amount else 0.0
  }

  // ----- the postings of dated transactions, as the queries join them -----

  function Upto(txns: seq<Txn>, on: int): seq<Posting> {
    if |txns| == 0 then [] else
      Upto(txns[..|txns| - 1], on) +
      (if txns[|txns| - 1].date <= on then txns[|txns| - 1].postings else [])
  }

  function Between(txns: seq<Txn>, from: int, to: int): seq<Posting> {
    if |txns| == 0 then [] else
      Between(txns[..|txns| - 1], from, to) +
      (if from <= txns[|txns| - 1].date <= to then txns[|txns| - 1].postings else [])
  }

  function Without(txns: seq<Txn>, id: int): seq<Txn> {
    if |txns| == 0 then [] else
      Without(txns[..|txns| - 1], id) +
      (if txns[|txns| - 1].id == id then [] else [txns[|txns| - 1]])
  }

  predicate Balanced(t: Txn) {
    Sum(t.postings, Base()) == 0.0
  }

  lemma {:induction false} UptoFrom(txns: seq<Txn>, on: int, p: Posting)
    requires p in Upto(txns, on)
    ensures exists i :: 0 <= i < |txns| && txns[i].date <= on && p in txns[i].postings
  {
    var n := |txns| - 1;
    if p in Upto(txns[..n], on) {
      UptoFrom(txns[..n], on, p);
      var i :| 0 <= i < n && txns[..n][i].date <= on && p in txns[..n][i].postings;
      assert txns[i] == txns[..n][i];
    }
  }

  lemma {:induction false} BetweenFrom(txns: seq<Txn>, from: int, to: int, p: Posting)
    requires p in Between(txns, from, to)
    ensures exists i :: 0 <= i < |txns| && from <= txns[i].date <= to && p in txns[i].postings
  {
    var n := |txns| - 1;
    if p in Between(txns[..n], from, to) {
      BetweenFrom(txns[..n], from, to, p);
      var i :| 0 <= i < n && from <= txns[..n][i].date <= to && p in txns[..n][i].postings;
      assert txns[i] == txns[..n][i];
    }
  }

  lemma {:induction false} UptoConcat(s: seq<Txn>, t: seq<Txn>, on: int)
    ensures Upto(s + t, on) == Upto(s, on) + Upto(t, on)
  {
    if |t| == 0 {
      assert s + t == s;
      assert Upto(s, on) + [] == Upto(s, on);
    } else {
      var n := |t| - 1;
      var last := if t[n].date <= on then t[n].postings else [];
      UptoConcat(s, t[..n], on);
      assert (s + t)[..|s + t| - 1] == s + t[..n];
      assert Upto(s, on) + Upto(t[..n], on) + last == Upto(s, on) + (Upto(t[..n], on) + last);
    }
  }

  /** A balance now is the balance before the period plus its movements. */
  lemma {:induction false} SumPeriod(txns: seq<Txn>, from: int, to: int, w: Posting -> real)
    requires from <= to
    ensures Sum(Upto(txns, to), w) == Sum(Upto(txns, from - 1), w) + Sum(Between(txns, from, to), w)
  {
    if |txns| > 0 {
      var n := |txns| - 1;
      var t := txns[n];
      SumPeriod(txns[..n], from, to, w);
      SumConcat(Upto(txns[..n], to), if t.date <= to then t.postings else [], w);
      SumConcat(Upto(txns[..n], from - 1), if t.date <= from - 1 then t.postings else [], w);
      SumConcat(Between(txns[..n], from, to), if from <= t.date <= to then t.postings else [], w);
    }
  }

  /** The trial balance: balanced transactions sum to zero at every date. */
  lemma {:induction false} SumBalanced(txns: seq<Txn>, on: int)
    requires forall t :: t in txns ==> Balanced(t)
    ensures Sum(Upto(txns, on), Base()) == 0.0
  {
    if |txns| > 0 {
      var n := |txns| - 1;
      SumBalanced(txns[..n], on);
      assert Balanced(txns[n]);
      SumConcat(Upto(txns[..n], on), if txns[n].date <= on then txns[n].postings else [], Base());
    }
  }

  lemma {:induction false} SumOnGrid(ps: seq<Posting>, w: Posting -> real, places: nat)
    requires forall p :: p in ps ==> OnGrid(w(p), places)
    ensures OnGrid(Sum(ps, w), places)
  {
    if |ps| == 0 {
      GridZero(places);
    } else {
      SumOnGrid(ps[..|ps| - 1], w, places);
      GridClosed(Sum(ps[..|ps| - 1], w), w(ps[|ps| - 1]), places);
    }
  }
}
