// A change of base currency (internal/ledger/rebase.go): every posting's base
// amount is translated at its transaction's day, and what a transaction then
// lacks to balance goes to FX gains and losses.
module Rebase {
  import opened Decimals
  import opened Sums
  import opened Core
  import opened Rates
  import opened Lines
  import opened Journal

  /** Carried at cost: the old base itself, securities, points. */
  predicate AtCost(w: World, from: string, to: string, p: Posting) {
    p.commodity != to &&
    !(p.commodity in w.commodities && w.commodities[p.commodity].kind.Currency? && p.commodity != from)
  }

  function RateKey(w: World, from: string, to: string, p: Posting): string {
    if AtCost(w, from, to, p) then from else p.commodity
  }

  predicate Gap(w: World, from: string, to: string, date: int, p: Posting) {
    p.commodity != to && RateOn(w, RateKey(w, from, to, p), to, date).None?
  }

  /** A posting without a rate keeps 0 and is reported as a gap. */
  function NewBase(w: World, from: string, to: string, date: int, p: Posting): real {
    if p.commodity == to then p.amount
    else match RateOn(w, RateKey(w, from, to, p), to, date)
      case None => 0.0
      case Some(r) => Round(Times(if AtCost(w, from, to, p) then p.base else p.amount, r), w.Places(to))
  }

  function Translated(w: World, from: string, to: string, date: int, ps: seq<Posting>): (r: seq<Posting>)
    ensures |r| == |ps|
    ensures forall i :: 0 <= i < |ps| ==> r[i] == ps[i].(base := NewBase(w, from, to, date, ps[i]))
  {
    if |ps| == 0 then [] else
      Translated(w, from, to, date, ps[..|ps| - 1]) +
      [ps[|ps| - 1].(base := NewBase(w, from, to, date, ps[|ps| - 1]))]
  }

  function Residue(w: World, from: string, to: string, t: Txn): real {
    -Sum(Translated(w, from, to, t.date, t.postings), Base())
  }

  function ResidueOf(w: World, from: string, to: string): Txn -> real {
    (t: Txn) => Residue(w, from, to, t)
  }

  function CountPostings(txns: seq<Txn>): nat {
    if |txns| == 0 then 0 else CountPostings(txns[..|txns| - 1]) + |txns[|txns| - 1].postings|
  }

  /** The transactions whose translated postings do not balance. */
  function Adjusted(w: World, from: string, to: string, txns: seq<Txn>): set<int> {
    set t | t in txns && Residue(w, from, to, t) != 0.0 :: t.id
  }

  function GapsOf(w: World, from: string, to: string, t: Txn): set<(string, int)> {
    set p | p in t.postings && Gap(w, from, to, t.date, p) :: (RateKey(w, from, to, p), t.date)
  }

  function Gaps(w: World, from: string, to: string, txns: seq<Txn>): set<(string, int)> {
    set t, p | t in txns && p in t.postings && Gap(w, from, to, t.date, p) :: (RateKey(w, from, to, p), t.date)
  }

  datatype Plan = Plan(transactions: nat, postings: nat, adjusted: nat, residue: real, gaps: set<(string, int)>)

  function PlanOf(w: World, from: string, to: string, txns: seq<Txn>): Plan {
    Plan(|txns|, CountPostings(txns), |Adjusted(w, from, to, txns)|, Sum(txns, ResidueOf(w, from, to)),
         Gaps(w, from, to, txns))
  }

  function RebasedTxn(w: World, from: string, to: string, fx: Option<int>, t: Txn): Txn {
    var legs := Translated(w, from, to, t.date, t.postings);
    var r := Residue(w, from, to, t);
    Txn(t.id, t.date, if r == 0.0 || fx.None? then legs else legs + [FxLine(fx.value, to, r)])
  }

  ghost function RebasedTxns(w: World, from: string, to: string, fx: Option<int>, txns: seq<Txn>): seq<Txn> {
    seq(|txns|, i requires 0 <= i < |txns| => RebasedTxn(w, from, to, fx, txns[i]))
  }

  function Refusal(w: World, b: Book, to: string): Option<Error> {
    if !CurrencyCode(w, to) then Some(UnknownCommodity)
    else if to == b.base then Some(Invalid)
    else if b.lock.Some? then Some(BookLocked)
    else None
  }

  predicate NeedsFx(w: World, b: Book, to: string) {
    exists t :: t in b.txns && Residue(w, b.base, to, t) != 0.0
  }

  ghost function Rebased(w: World, b: Book, to: string): Result<Book> {
    if Refusal(w, b, to).Some? then Err(Refusal(w, b, to).value)
    else if Gaps(w, b.base, to, b.txns) != {} then Err(RateMissing)
    else if NeedsFx(w, b, to) && FX_GAIN_LOSS !in b.keys then Err(NotFound)
    else Ok(b.(base := to, txns := RebasedTxns(w, b.base, to, AccountByKey(b, FX_GAIN_LOSS), b.txns)))
  }

  /** Nothing stands in the way: no refusal, no rate missing, and an account
      for the residues if there are any. */
  predicate Rebases(w: World, b: Book, to: string) {
    CurrencyCode(w, to) && to != b.base && b.lock.None? && Gaps(w, b.base, to, b.txns) == {} &&
    (NeedsFx(w, b, to) ==> FX_GAIN_LOSS in b.keys)
  }

  lemma RebasesIff(w: World, b: Book, to: string)
    ensures Rebased(w, b, to).Ok? <==> Rebases(w, b, to)
  {
    hide Gaps, NeedsFx, RebasedTxns;
  }

  // ----- the operation on the store -----

  predicate DistinctIds(txns: seq<Txn>) {
    forall i, j :: 0 <= i < j < |txns| ==> txns[i].id != txns[j].id
  }

  method TranslateTxn(w: World, from: string, to: string, t: Txn)
      returns (out: seq<Posting>, missing: set<(string, int)>)
    ensures out == Translated(w, from, to, t.date, t.postings)
    ensures missing == GapsOf(w, from, to, t)
  {
    hide Gap, RateKey, NewBase;
    out, missing := [], {};
    for j := 0 to |t.postings|
      invariant out == Translated(w, from, to, t.date, t.postings[..j])
      invariant missing == GapsOf(w, from, to, Txn(t.id, t.date, t.postings[..j]))
    {
      var p := t.postings[j];
      assert t.postings[..j + 1] == t.postings[..j] + [p];
      if Gap(w, from, to, t.date, p) {
        missing := missing + {(RateKey(w, from, to, p), t.date)};
      }
      out := out + [p.(base := NewBase(w, from, to, t.date, p))];
    }
    assert t.postings[..|t.postings|] == t.postings;
    assert Txn(t.id, t.date, t.postings) == t;
  }

  /** The translation pass: each transaction's new legs, and the gaps. */
  method Translate(w: World, from: string, to: string, txns: seq<Txn>)
      returns (legs: map<int, seq<Posting>>, count: nat, gaps: set<(string, int)>)
    requires DistinctIds(txns)
    ensures LegsOf(w, from, to, txns, legs)
    ensures count == CountPostings(txns)
    ensures gaps == Gaps(w, from, to, txns)
  {
    hide Gaps, GapsOf, Translated;
    legs, count, gaps := map[], 0, {};
    assert gaps == Gaps(w, from, to, txns[..0]) by { GapsNone(w, from, to); }
    for i := 0 to |txns|
      invariant LegsOf(w, from, to, txns[..i], legs)
      invariant count == CountPostings(txns[..i])
      invariant gaps == Gaps(w, from, to, txns[..i])
    {
      var t := txns[i];
      assert txns[..i + 1] == txns[..i] + [t];
      var out, missing := TranslateTxn(w, from, to, t);
      legs := legs[t.id := out];
      count := count + |out|;
      GapsAppend(w, from, to, txns[..i], t);
      gaps := gaps + missing;
    }
    assert txns[..|txns|] == txns;
  }

  ghost predicate LegsOf(w: World, from: string, to: string, txns: seq<Txn>, legs: map<int, seq<Posting>>) {
    legs.Keys == (set t | t in txns :: t.id) &&
    forall t :: t in txns ==> legs[t.id] == Translated(w, from, to, t.date, t.postings) && |legs[t.id]| == |t.postings|
  }

  lemma GapsNone(w: World, from: string, to: string)
    ensures Gaps(w, from, to, []) == {}
  {
  }

  lemma GapsAppend(w: World, from: string, to: string, txns: seq<Txn>, t: Txn)
    ensures Gaps(w, from, to, txns + [t]) == Gaps(w, from, to, txns) + GapsOf(w, from, to, t)
  {
    hide Gap;
    var s := txns + [t];
    assert forall x :: x in s <==> x in txns || x == t;
  }

  function Lack(legs: map<int, seq<Posting>>): int -> real {
    (id: int) => if id in legs then -Sum(legs[id], Base()) else 0.0
  }

  /** The residues, over the transactions in whatever order they are ranged. */
  method Residues(legs: map<int, seq<Posting>>) returns (residues: map<int, real>, total: real)
    ensures residues.Keys == set id | id in legs && Lack(legs)(id) != 0.0
    ensures forall id :: id in residues ==> residues[id] == Lack(legs)(id)
    ensures total == SumOver(legs.Keys, Lack(legs))
  {
    hide Sum, SumOver;
    assert SumOver({}, Lack(legs)) == 0.0 by { SumOverNil({}, Lack(legs)); }
    residues, total := map[], 0.0;
    var todo := legs.Keys;
    ghost var done: set<int> := {};
    while todo != {}
      invariant todo <= legs.Keys && done == legs.Keys - todo
      invariant residues.Keys == set id: int | id in done && Lack(legs)(id) != 0.0
      invariant forall id :: id in residues ==> residues[id] == Lack(legs)(id)
      invariant total == SumOver(done, Lack(legs))
      decreases todo
    {
      var id := Next(todo);
      var sum := Sum(legs[id], Base());
      if sum != 0.0 {
        residues, total := residues[id := -sum], total - sum;
      }
      SumOverAdd(done, Lack(legs), id);
      todo, done := todo - {id}, done + {id};
    }
    assert done == legs.Keys;
  }

  lemma {:induction false} ResidueTotal(w: World, from: string, to: string, txns: seq<Txn>, legs: map<int,
      seq<Posting>>)
    requires DistinctIds(txns) && (forall t :: t in txns ==> t.id in legs)
    requires forall t :: t in txns ==> legs[t.id] == Translated(w, from, to, t.date, t.postings)
    ensures SumOver((set t | t in txns :: t.id), Lack(legs)) == Sum(txns, ResidueOf(w, from, to))
  {
    hide Translated;
    var ids := set t | t in txns :: t.id;
    if |txns| == 0 {
      assert ids == {};
    } else {
      var front, t := txns[..|txns| - 1], txns[|txns| - 1];
      ResidueTotal(w, from, to, front, legs);
      var frontIds := set x | x in front :: x.id;
      assert ids == frontIds + {t.id};
      assert t.id !in frontIds;
      SumOverAdd(frontIds, Lack(legs), t.id);
    }
  }

  lemma AdjustedAre(w: World, from: string, to: string, txns: seq<Txn>, legs: map<int, seq<Posting>>)
    requires LegsOf(w, from, to, txns, legs)
    ensures (set id | id in legs && Lack(legs)(id) != 0.0) == Adjusted(w, from, to, txns)
  {
    hide Translated;
    forall t | t in txns ensures Lack(legs)(t.id) == Residue(w, from, to, t) {
      LackIsResidue(w, from, to, txns, legs, t);
    }
  }

  lemma LackIsResidue(w: World, from: string, to: string, txns: seq<Txn>, legs: map<int, seq<Posting>>, t: Txn)
    requires LegsOf(w, from, to, txns, legs) && t in txns
    ensures t.id in legs && Lack(legs)(t.id) == Residue(w, from, to, t)
  {
    hide Translated, Sum;
  }

  function Stage(t: Txn, to: string, fx: int, legs: map<int, seq<Posting>>, residues: map<int, real>,
      done: set<int>): Txn
    requires t.id in legs
  {
    Txn(t.id, t.date,
        if t.id in done && t.id in residues then legs[t.id] + [FxLine(fx, to, residues[t.id])] else legs[t.id])
  }

  predicate Staged(before: seq<Txn>, after: seq<Txn>, to: string, fx: int, legs: map<int, seq<Posting>>,
      residues: map<int, real>, done: set<int>)
    requires forall t :: t in before ==> t.id in legs
  {
    |after| == |before| &&
    forall k :: 0 <= k < |before| ==> after[k] == Stage(before[k], to, fx, legs, residues, done)
  }

  method OverwriteBases(l: Ledger, legs: map<int, seq<Posting>>)
    requires forall t :: t in l.txns ==> t.id in legs
    modifies l`txns
    ensures Staged(old(l.txns), l.txns, "", 0, legs, map[], {})
  {
    var txns := l.txns;
    for i := 0 to |txns|
      invariant |l.txns| == |txns|
      invariant forall k :: 0 <= k < i ==> l.txns[k] == Txn(txns[k].id, txns[k].date, legs[txns[k].id])
      invariant forall k :: i <= k < |txns| ==> l.txns[k] == txns[k]
    {
      l.txns := l.txns[i := Txn(l.txns[i].id, l.txns[i].date, legs[l.txns[i].id])];
    }
  }

  /** One posting per residue, the residues ranged in any order. */
  method AddResidues(l: Ledger, ghost before: seq<Txn>, to: string, fx: int, ghost legs: map<int, seq<Posting>>,
      residues: map<int, real>)
    requires DistinctIds(before) && legs.Keys == (set t | t in before :: t.id) && residues.Keys <= legs.Keys
    requires Staged(before, l.txns, to, fx, legs, residues, {})
    modifies l`txns
    ensures Staged(before, l.txns, to, fx, legs, residues, residues.Keys)
  {
    var todo := residues.Keys;
    ghost var done: set<int> := {};
    while todo != {}
      invariant todo <= residues.Keys && done == residues.Keys - todo
      invariant Staged(before, l.txns, to, fx, legs, residues, done)
      decreases todo
    {
      var id := Next(todo);
      var i := IndexOf(l.txns, id);
      assert i < |before| by {
        var t :| t in before && t.id == id;
        var k :| 0 <= k < |before| && before[k] == t;
        assert l.txns[k] in l.txns;
      }
      var t := l.txns[i];
      l.txns := l.txns[i := Txn(t.id, t.date, t.postings + [FxLine(fx, to, residues[id])])];
      todo, done := todo - {id}, done + {id};
    }
    assert done == residues.Keys;
  }

  /** Overwrites the base amounts, then adds the residues; without an FX
      account for them everything is put back. */
  method Rewrite(l: Ledger, to: string, legs: map<int, seq<Posting>>, residues: map<int, real>) returns (ok: bool)
    requires DistinctIds(l.txns) && legs.Keys == (set t | t in l.txns :: t.id) && residues.Keys <= legs.Keys
    modifies l
    ensures ok <==> residues == map[] || FX_GAIN_LOSS in old(l.keys)
    ensures !ok ==> l.Current() == old(l.Current())
    ensures ok ==> l.Current() == old(l.Current()).(base := to, txns := l.txns)
    ensures ok ==> Staged(old(l.txns), l.txns, to, if FX_GAIN_LOSS in l.keys then l.keys[FX_GAIN_LOSS] else 0,
                          legs, residues, residues.Keys)
  {
    var txns, from := l.txns, l.base;
    l.base := to;
    OverwriteBases(l, legs);
    if residues == map[] {
      return true;
    }
    if FX_GAIN_LOSS !in l.keys {
      l.base, l.txns := from, txns;
      return false;
    }
    AddResidues(l, txns, to, l.keys[FX_GAIN_LOSS], legs, residues);
    return true;
  }

  lemma FxNeeded(w: World, b: Book, to: string, residues: map<int, real>)
    requires residues.Keys == Adjusted(w, b.base, to, b.txns)
    ensures residues == map[] <==> !NeedsFx(w, b, to)
  {
    hide Residue;
    if NeedsFx(w, b, to) {
      var t :| t in b.txns && Residue(w, b.base, to, t) != 0.0;
      assert t.id in residues.Keys;
    } else {
      assert residues.Keys == {};
    }
  }

  lemma RewrittenAre(w: World, from: string, to: string, fx: Option<int>, txns: seq<Txn>,
      legs: map<int, seq<Posting>>, residues: map<int, real>, out: seq<Txn>)
    requires LegsOf(w, from, to, txns, legs) && (residues == map[] || fx.Some?)
    requires residues.Keys == set id | id in legs && Lack(legs)(id) != 0.0
    requires forall id :: id in residues ==> residues[id] == Lack(legs)(id)
    requires Staged(txns, out, to, if fx.Some? then fx.value else 0, legs, residues, residues.Keys)
    ensures out == RebasedTxns(w, from, to, fx, txns)
  {
    hide Translated, Residue, Sum;
    forall k | 0 <= k < |txns| ensures out[k] == RebasedTxn(w, from, to, fx, txns[k]) {
      var t := txns[k];
      LackIsResidue(w, from, to, txns, legs, t);
    }
  }

  /** The whole operation. The plan is the same whether or not it is a dry
      run; the store changes only when nothing stands in the way. */
  method Rebase(l: Ledger, w: World, to: string, dryRun: bool) returns (plan: Option<Plan>, error: Option<Error>)
    requires DistinctIds(l.txns)
    modifies l
    ensures plan.Some? <==> Refusal(w, old(l.Current()), to).None?
    ensures plan.Some? ==> plan.value == PlanOf(w, old(l.base), to, old(l.txns))
    ensures match Rebased(w, old(l.Current()), to)
      case Ok(b) => error == None && l.Current() == if dryRun then old(l.Current()) else b
      case Err(e) => l.Current() == old(l.Current()) && (!dryRun || plan.None? ==> error == Some(e))
  {
    hide Translated, Gaps, Adjusted, Residue, RebasedTxns, NeedsFx, Lack, Sum, SumOver, CountPostings;
    var from := l.base;
    var refusal := Refusal(w, l.Current(), to);
    if refusal.Some? {
      return None, refusal;
    }
    var legs, count, gaps := Translate(w, from, to, l.txns);
    var residues, total := Residues(legs);
    ResidueTotal(w, from, to, l.txns, legs);
    AdjustedAre(w, from, to, l.txns, legs);
    plan := Some(Plan(|l.txns|, count, |residues.Keys|, total, gaps));
    if gaps != {} {
      return plan, if dryRun then None else Some(RateMissing);
    }
    if dryRun {
      return plan, None;
    }
    var txns := l.txns;
    var ok := Rewrite(l, to, legs, residues);
    FxNeeded(w, old(l.Current()), to, residues);
    if ok {
      RewrittenAre(w, from, to, AccountByKey(l.Current(), FX_GAIN_LOSS), txns, legs, residues, l.txns);
    }
    return plan, if ok then None else Some(NotFound);
  }

  // ----- what a rebase keeps and what it bounds -----

  lemma RebasedIndex(w: World, b: Book, to: string, k: nat)
    requires Rebased(w, b, to).Ok? && k < |b.txns|
    ensures |Rebased(w, b, to).value.txns| == |b.txns|
    ensures Rebased(w, b, to).value.txns[k] ==
      RebasedTxn(w, b.base, to, AccountByKey(b, FX_GAIN_LOSS), b.txns[k])
  {
  }

  /** One transaction after the rebase: its postings keep account, commodity
      and amount, in order; one posting more exactly when it was adjusted; and
      it balances in the new base. */
  lemma RebasedTxnKeeps(w: World, b: Book, to: string, k: nat)
    requires Rebased(w, b, to).Ok? && k < |b.txns|
    ensures var t, t1 := b.txns[k], Rebased(w, b, to).value.txns[k];
      var r := Residue(w, b.base, to, t);
      t1.id == t.id && t1.date == t.date && Balanced(t1) &&
      |t1.postings| == |t.postings| + (if r == 0.0 then 0 else 1) &&
      (forall i :: 0 <= i < |t.postings| ==>
         t1.postings[i] == t.postings[i].(base := NewBase(w, b.base, to, t.date, t.postings[i]))) &&
      (r != 0.0 ==> t1.postings[|t.postings|] == FxLine(b.keys[FX_GAIN_LOSS], to, r))
  {
    hide RateOn, Gaps;
    RebasedIndex(w, b, to, k);
    var t := b.txns[k];
    var legs := Translated(w, b.base, to, t.date, t.postings);
    var r := Residue(w, b.base, to, t);
    if r != 0.0 {
      assert NeedsFx(w, b, to) by { assert t in b.txns; }
      SumAppend(legs, FxLine(b.keys[FX_GAIN_LOSS], to, r), Base());
    }
  }

  // ----- what a posting is translated to -----

  /** Money other than the old base currency. */
  predicate ThirdCurrency(w: World, from: string, c: string) {
    c != from && c in w.commodities && w.commodities[c].kind == Currency
  }

  /** v is what a posting is worth in the new base: its amount in that currency,
      the amount at its own rate in a third currency, and anything else (the old
      base, securities, points) its old base amount at the old base's rate,
      whatever its units and prices. */
  predicate Carried(w: World, from: string, to: string, date: int, p: Posting, v: real) {
    if p.commodity == to then v == p.amount
    else if ThirdCurrency(w, from, p.commodity) then
      RateOn(w, p.commodity, to, date).Some? && AtRate(p.amount, RateOn(w, p.commodity, to, date).value, w.Places(to), v)
    else RateOn(w, from, to, date).Some? && AtRate(p.base, RateOn(w, from, to, date).value, w.Places(to), v)
  }

  /** No rate for it on the day. */
  predicate Uncarried(w: World, from: string, to: string, date: int, p: Posting, c: string) {
    p.commodity != to && c == (if ThirdCurrency(w, from, p.commodity) then p.commodity else from) && RateOn(w, c, to, date).None?
  }

  lemma NewBaseIs(w: World, from: string, to: string, date: int, p: Posting)
    ensures !Gap(w, from, to, date, p) ==> Carried(w, from, to, date, p, NewBase(w, from, to, date, p))
    ensures Gap(w, from, to, date, p) <==> Uncarried(w, from, to, date, p, RateKey(w, from, to, p))
    ensures forall c :: Uncarried(w, from, to, date, p, c) ==> c == RateKey(w, from, to, p)
  {
    hide RateOn, Round, Times, Unit;
    var rate := RateOn(w, RateKey(w, from, to, p), to, date);
    assert p.commodity != to ==> (AtCost(w, from, to, p) <==> !ThirdCurrency(w, from, p.commodity));
    if p.commodity != to && rate.Some? {
      RoundHalfUnit(Times(if AtCost(w, from, to, p) then p.base else p.amount, rate.value), w.Places(to));
    }
  }

  /** The gaps reported are exactly the rates missing on the postings' days. */
  lemma GapsAre(w: World, from: string, to: string, txns: seq<Txn>, c: string, date: int)
    ensures (c, date) in Gaps(w, from, to, txns) <==>
      exists t, p :: t in txns && p in t.postings && t.date == date && Uncarried(w, from, to, date, p, c)
  {
    hide Gap, RateKey, Uncarried;
    forall t, p | t in txns && p in t.postings
      ensures Gap(w, from, to, t.date, p) && RateKey(w, from, to, p) == c <==> Uncarried(w, from, to, t.date, p, c)
    {
      NewBaseIs(w, from, to, t.date, p);
    }
    if (c, date) in Gaps(w, from, to, txns) {
      var t, p :| t in txns && p in t.postings && Gap(w, from, to, t.date, p) && (RateKey(w, from, to, p), t.date) == (c, date);
      assert Uncarried(w, from, to, date, p, c);
    }
    if t, p :| t in txns && p in t.postings && t.date == date && Uncarried(w, from, to, date, p, c) {
      assert Gap(w, from, to, t.date, p) && RateKey(w, from, to, p) == c;
    }
  }

  /** After a rebase every posting carries what it is translated to; a rate that
      is missing for any of them refuses the whole. */
  lemma RebasedCarries(w: World, b: Book, to: string, k: nat, i: nat)
    requires Rebased(w, b, to).Ok? && k < |b.txns| && i < |b.txns[k].postings|
    ensures var t1 := Rebased(w, b, to).value.txns[k];
      i < |t1.postings| && Carried(w, b.base, to, b.txns[k].date, b.txns[k].postings[i], t1.postings[i].base)
  {
    hide Rebased, NewBase, Carried, Gap, Residue;
    RebasedTxnKeeps(w, b, to, k);
    var t := b.txns[k];
    var p := t.postings[i];
    NewBaseIs(w, b.base, to, t.date, p);
    if Gap(w, b.base, to, t.date, p) {
      GapIn(w, b, to, t, p);
      assert false;
    }
  }

  lemma GapIn(w: World, b: Book, to: string, t: Txn, p: Posting)
    requires t in b.txns && p in t.postings && Gap(w, b.base, to, t.date, p)
    ensures Rebased(w, b, to).Err?
  {
    assert (RateKey(w, b.base, to, p), t.date) in Gaps(w, b.base, to, b.txns);
  }

  lemma FxExists(w: World, b: Book, to: string, t: Txn)
    requires Rebased(w, b, to).Ok? && t in b.txns && Residue(w, b.base, to, t) != 0.0
    ensures FX_GAIN_LOSS in b.keys
  {
    hide Residue, Gaps;
    assert NeedsFx(w, b, to);
  }

  /** A rebase keeps the books sound, in the new base currency. */
  lemma RebaseSound(w: World, b: Book, to: string)
    requires Sound(w, b) && Rebased(w, b, to).Ok?
    ensures Sound(w, Rebased(w, b, to).value)
  {
    hide RateOn, Gaps, Rebased, Residue, RateKey, AtCost;
    var b1 := Rebased(w, b, to).value;
    RebasedHeader(w, b, to);
    forall k | 0 <= k < |b1.txns| ensures SoundTxn(w, b1, b1.txns[k]) {
      RebasedTxnKeeps(w, b, to, k);
      var t, t1 := b.txns[k], b1.txns[k];
      assert t in b.txns;
      forall p | p in t1.postings ensures Proper(w, b1, p) {
        var i :| 0 <= i < |t1.postings| && t1.postings[i] == p;
        if i < |t.postings| {
          assert Proper(w, b, t.postings[i]);
        } else {
          FxExists(w, b, to, t);
          assert p == FxLine(b.keys[FX_GAIN_LOSS], to, p.amount);
        }
      }
    }
    forall k | 0 <= k < |b1.txns| ensures b1.txns[k].id == b.txns[k].id && b.txns[k] in b.txns {
      RebasedTxnKeeps(w, b, to, k);
    }
  }

  lemma RebasedHeader(w: World, b: Book, to: string)
    requires Rebased(w, b, to).Ok?
    ensures var b1 := Rebased(w, b, to).value;
      b1 == b.(base := to, txns := b1.txns) && |b1.txns| == |b.txns| && to in w.commodities && b.lock.None?
  {
  }

  lemma NewBasePrecise(w: World, from: string, to: string, date: int, p: Posting)
    requires p.commodity == to ==> OnGrid(p.amount, w.Places(to))
    ensures OnGrid(NewBase(w, from, to, date, p), w.Places(to))
  {
    hide OnGrid, Round, RateOn;
    var r := RateOn(w, RateKey(w, from, to, p), to, date);
    GridZero(w.Places(to));
    if p.commodity != to && r.Some? {
      RoundOnGrid(Times(if AtCost(w, from, to, p) then p.base else p.amount, r.value), w.Places(to));
    }
  }

  /** Precise amounts make the new base amounts, residues included, precise:
      the old base amounts need not be. */
  lemma RebasePrecise(w: World, b: Book, to: string)
    requires AllPrecise(w, b) && Rebased(w, b, to).Ok?
    ensures AllPrecise(w, Rebased(w, b, to).value)
  {
    hide RateOn, Gaps, Rebased, OnGrid, NewBase;
    var b1 := Rebased(w, b, to).value;
    RebasedHeader(w, b, to);
    forall k, i | 0 <= k < |b1.txns| && 0 <= i < |b1.txns[k].postings|
      ensures Precise(w, to, b1.txns[k].postings[i])
    {
      RebasedTxnKeeps(w, b, to, k);
      var t := b.txns[k];
      var legs := Translated(w, b.base, to, t.date, t.postings);
      forall j | 0 <= j < |t.postings| ensures Precise(w, to, legs[j]) {
        assert t in b.txns && t.postings[j] in t.postings && Precise(w, b.base, t.postings[j]);
        NewBasePrecise(w, b.base, to, t.date, t.postings[j]);
      }
      if i == |t.postings| {
        SumOnGrid(legs, Base(), w.Places(to));
        GridClosed(Sum(legs, Base()), Sum(legs, Base()), w.Places(to));
      }
    }
  }

  /** One rate translates every leg: each new base is its figure at that rate. */
  ghost predicate OneRate(w: World, from: string, to: string, date: int, ps: seq<Posting>, x: Posting -> real,
      r: real) {
    forall p :: p in ps ==> NewBase(w, from, to, date, p) == Round(Times(x(p), r), w.Places(to))
  }

  lemma {:induction false} TranslationError(w: World, from: string, to: string, date: int, ps: seq<Posting>,
      x: Posting -> real, r: real)
    requires OneRate(w, from, to, date, ps, x, r)
    ensures Abs(Sum(Translated(w, from, to, date, ps), Base()) - Times(Sum(ps, x), r)) <= HalfUnits(|ps|, w.Places(to))
  {
    hide NewBase, Round, Times, Unit, HalfUnits;
    TimesFacts(0.0, 0.0, r);
    HalfUnitsStep(0, w.Places(to));
    if |ps| > 0 {
      HalfUnitsStep(|ps| - 1, w.Places(to));
      var front, p := ps[..|ps| - 1], ps[|ps| - 1];
      TranslationError(w, from, to, date, front, x, r);
      TimesFacts(Sum(front, x), x(p), r);
      RoundHalfUnit(Times(x(p), r), w.Places(to));
      SumAppend(Translated(w, from, to, date, front), p.(base := NewBase(w, from, to, date, p)), Base());
    }
  }

  /** With one rate for all n legs the residue is at most n half minor units,
      and two legs leave none at all. */
  lemma ResidueBound(w: World, from: string, to: string, t: Txn, x: Posting -> real, r: real)
    requires OneRate(w, from, to, t.date, t.postings, x, r) && Sum(t.postings, x) == 0.0
    ensures Abs(Residue(w, from, to, t)) <= HalfUnits(|t.postings|, w.Places(to))
    ensures |t.postings| == 2 ==> Residue(w, from, to, t) == 0.0
  {
    hide NewBase, Round, Times, HalfUnits;
    var ps := t.postings;
    TranslationError(w, from, to, t.date, ps, x, r);
    TimesFacts(0.0, 0.0, r);
    if |ps| == 2 {
      var legs := Translated(w, from, to, t.date, ps);
      assert ps == [ps[0], ps[1]] && legs == [legs[0], legs[1]];
      SumPair(ps[0], ps[1], x);
      SumPair(legs[0], legs[1], Base());
      TimesFacts(x(ps[0]), 0.0, r);
      RoundOdd(Times(x(ps[0]), r), w.Places(to));
    }
  }

  /** A balanced transaction all carried at cost is translated at one rate. */
  lemma AtCostResidue(w: World, from: string, to: string, t: Txn)
    requires Balanced(t) && RateOn(w, from, to, t.date).Some?
    requires forall p :: p in t.postings ==> AtCost(w, from, to, p)
    ensures Abs(Residue(w, from, to, t)) <= HalfUnits(|t.postings|, w.Places(to))
    ensures |t.postings| == 2 ==> Residue(w, from, to, t) == 0.0
  {
    hide RateOn, Round, Times, HalfUnits, Residue;
    ResidueBound(w, from, to, t, Base(), RateOn(w, from, to, t.date).value);
  }

  /** So is one wholly in a third currency whose own amounts sum to zero. */
  lemma ThirdCurrencyResidue(w: World, from: string, to: string, t: Txn, c: string)
    requires CurrencyCode(w, c) && c != from && c != to && RateOn(w, c, to, t.date).Some?
    requires forall p :: p in t.postings ==> p.commodity == c
    requires Sum(t.postings, Amount()) == 0.0
    ensures Abs(Residue(w, from, to, t)) <= HalfUnits(|t.postings|, w.Places(to))
    ensures |t.postings| == 2 ==> Residue(w, from, to, t) == 0.0
  {
    hide RateOn, Round, Times, HalfUnits, Residue;
    ResidueBound(w, from, to, t, Amount(), RateOn(w, c, to, t.date).value);
  }
}
