// Splitting a purchase by the categories of its invoice's items
// (internal/ledger/invoices.go: splitGroups, splitLines and the cash purchase
// of acceptInvoice).
module Invoices {
  import opened Decimals
  import opened Sums
  import opened Core
  import opened Lines

  datatype Item = Item(amount: real, category: Option<int>)
  datatype Group = Group(account: int, amount: real)

  /** An item leaves the main category when a rule gave it another one. */
  predicate Leaves(it: Item, main: Option<int>) {
    it.category.Some? && it.category != main
  }

  function ItemOf(main: Option<int>, account: int): Item -> real {
    (it: Item) => if Leaves(it, main) && it.category == Some(account) then it.amount else 0.0
  }

  function Leaving(main: Option<int>): Item -> real {
    (it: Item) => if Leaves(it, main) then it.amount else 0.0
  }

  function GroupAmount(): Group -> real {
    (g: Group) => g.amount
  }

  /** Where the group of an account is, or the number of groups. */
  function GroupIndex(groups: seq<Group>, account: int): (i: nat)
    ensures i <= |groups|
    ensures i < |groups| ==> groups[i].account == account
    ensures i == |groups| ==> forall g :: g in groups ==> g.account != account
  {
    if |groups| == 0 then 0
    else if groups[0].account == account then 0
    else 1 + GroupIndex(groups[1..], account)
  }

  predicate DistinctAccounts(groups: seq<Group>) {
    forall i, j :: 0 <= i < j < |groups| ==> groups[i].account != groups[j].account
  }

  function Accounts(groups: seq<Group>): set<int> {
    set g | g in groups :: g.account
  }

  function Categories(items: seq<Item>, main: Option<int>): set<int> {
    set it | it in items && Leaves(it, main) :: it.category.value
  }

  predicate Summed(items: seq<Item>, main: Option<int>, groups: seq<Group>) {
    forall k :: 0 <= k < |groups| ==> groups[k].amount == Sum(items, ItemOf(main, groups[k].account))
  }

  /** One group for each other category the items name, with their sum. */
  predicate GroupsOf(items: seq<Item>, main: Option<int>, groups: seq<Group>) {
    DistinctAccounts(groups) && Accounts(groups) == Categories(items, main) && Summed(items, main, groups)
  }

  /** So no group is the main category's. */
  lemma NotMain(items: seq<Item>, main: Option<int>, groups: seq<Group>)
    requires GroupsOf(items, main, groups)
    ensures forall g :: g in groups ==> Some(g.account) != main
  {
    hide Sum;
    forall g | g in groups ensures Some(g.account) != main {
      assert g.account in Accounts(groups);
      assert g.account in Categories(items, main);
    }
  }

  lemma {:induction false} AmountAdded(groups: seq<Group>, i: nat, amount: real)
    requires i < |groups|
    ensures Sum(groups[i := Group(groups[i].account, groups[i].amount + amount)], GroupAmount()) ==
      Sum(groups, GroupAmount()) + amount
  {
    var n := |groups| - 1;
    var more := Group(groups[i].account, groups[i].amount + amount);
    if i == n {
      assert groups[i := more][..n] == groups[..n];
    } else {
      AmountAdded(groups[..n], i, amount);
      assert groups[i := more][..n] == groups[..n][i := more];
    }
  }

  lemma CategoriesAppend(items: seq<Item>, it: Item, main: Option<int>)
    ensures Categories(items + [it], main) ==
      Categories(items, main) + (if Leaves(it, main) then {it.category.value} else {})
  {
  }

  lemma ItemStays(items: seq<Item>, it: Item, main: Option<int>, groups: seq<Group>)
    requires GroupsOf(items, main, groups) && !Leaves(it, main)
    ensures GroupsOf(items + [it], main, groups)
  {
    hide Sum, Accounts, Categories;
    CategoriesAppend(items, it, main);
    forall k | 0 <= k < |groups|
      ensures Sum(items + [it], ItemOf(main, groups[k].account)) == Sum(items, ItemOf(main, groups[k].account))
    {
      SumAppend(items, it, ItemOf(main, groups[k].account));
    }
  }

  function Grouped(groups: seq<Group>, account: int, amount: real): seq<Group> {
    var i := GroupIndex(groups, account);
    if i < |groups| then groups[i := Group(account, groups[i].amount + amount)] else groups + [Group(account, amount)]
  }

  lemma GroupedAccounts(groups: seq<Group>, account: int, amount: real)
    ensures Accounts(Grouped(groups, account, amount)) == Accounts(groups) + {account}
    ensures DistinctAccounts(groups) ==> DistinctAccounts(Grouped(groups, account, amount))
  {
    var i, out := GroupIndex(groups, account), Grouped(groups, account, amount);
    assert out[i].account == account && out[i] in out;
    assert forall k :: 0 <= k < |groups| ==> out[k].account == groups[k].account;
    forall a | a in Accounts(out) ensures a in Accounts(groups) + {account} {
      var k :| 0 <= k < |out| && out[k].account == a;
      assert k < |groups| ==> groups[k] in groups;
    }
    forall a | a in Accounts(groups) + {account} ensures a in Accounts(out) {
      if a != account {
        var k :| 0 <= k < |groups| && groups[k].account == a;
        assert out[k] in out;
      }
    }
  }

  lemma NoItems(items: seq<Item>, main: Option<int>, account: int)
    requires account !in Categories(items, main)
    ensures Sum(items, ItemOf(main, account)) == 0.0
  {
    hide Sum;
    SumNil(items, ItemOf(main, account));
  }

  lemma GroupedSums(items: seq<Item>, it: Item, main: Option<int>, groups: seq<Group>)
    requires GroupsOf(items, main, groups) && Leaves(it, main)
    ensures Summed(items + [it], main, Grouped(groups, it.category.value, it.amount))
  {
    hide Sum, Categories;
    var a := it.category.value;
    var i, out := GroupIndex(groups, a), Grouped(groups, a, it.amount);
    if i == |groups| {
      NoItems(items, main, a);
    }
    forall k | 0 <= k < |out| ensures out[k].amount == Sum(items + [it], ItemOf(main, out[k].account)) {
      SumAppend(items, it, ItemOf(main, out[k].account));
      if k != i {
        assert groups[k] in groups && groups[k] == out[k];
        assert groups[k].account != a;
      }
    }
  }

  lemma ItemGoes(items: seq<Item>, it: Item, main: Option<int>, groups: seq<Group>)
    requires GroupsOf(items, main, groups) && Leaves(it, main)
    ensures GroupsOf(items + [it], main, Grouped(groups, it.category.value, it.amount))
    ensures Sum(Grouped(groups, it.category.value, it.amount), GroupAmount()) == Sum(groups, GroupAmount()) + it.amount
  {
    hide Sum, Accounts, Categories, Summed, DistinctAccounts;
    var a := it.category.value;
    var i := GroupIndex(groups, a);
    CategoriesAppend(items, it, main);
    GroupedAccounts(groups, a, it.amount);
    GroupedSums(items, it, main, groups);
    if i < |groups| {
      AmountAdded(groups, i, it.amount);
    } else {
      SumAppend(groups, Group(a, it.amount), GroupAmount());
    }
  }

  /** splitGroups: a group for each other category, the sum of its items, and
      what then remains of the total for the main one. */
  method SplitGroups(items: seq<Item>, main: Option<int>, total: real) returns (groups: seq<Group>, rest: real)
    ensures GroupsOf(items, main, groups)
    ensures Sum(groups, GroupAmount()) + rest == total
    ensures rest == total - Sum(items, Leaving(main))
  {
    hide Sum, GroupsOf;
    groups, rest := [], total;
    assert items[..0] == [];
    Nothing(main);
    for i := 0 to |items|
      invariant GroupsOf(items[..i], main, groups)
      invariant Sum(groups, GroupAmount()) + rest == total
      invariant rest == total - Sum(items[..i], Leaving(main))
    {
      var it := items[i];
      assert items[..i + 1] == items[..i] + [it];
      SumAppend(items[..i], it, Leaving(main));
      if !Leaves(it, main) {
        ItemStays(items[..i], it, main, groups);
        continue;
      }
      ItemGoes(items[..i], it, main, groups);
      rest := rest - it.amount;
      var k := GroupIndex(groups, it.category.value);
      if k < |groups| {
        groups := groups[k := Group(groups[k].account, groups[k].amount + it.amount)];
      } else {
        groups := groups + [Group(it.category.value, it.amount)];
      }
    }
    assert items[..|items|] == items;
  }

  lemma Nothing(main: Option<int>)
    ensures GroupsOf([], main, [])
    ensures Sum([], GroupAmount()) == 0.0 && Sum([], Leaving(main)) == 0.0
  {
  }

  // ----- splitting a paid transaction -----

  /** A posting as it was, its base pinned. */
  function Same(p: Posting): Line {
    Line(p.account, p.commodity, p.amount, Some(p.base), None)
  }

  function SameAll(ps: seq<Posting>): (r: seq<Line>)
    ensures |r| == |ps|
    ensures forall i :: 0 <= i < |ps| ==> r[i] == Same(ps[i])
  {
    if |ps| == 0 then [] else SameAll(ps[..|ps| - 1]) + [Same(ps[|ps| - 1])]
  }

  function GroupLines(groups: seq<Group>, currency: string): (r: seq<Line>)
    ensures |r| == |groups|
    ensures forall i :: 0 <= i < |groups| ==> r[i] == Plain(groups[i].account, currency, groups[i].amount)
  {
    if |groups| == 0 then [] else
      GroupLines(groups[..|groups| - 1], currency) +
      [Plain(groups[|groups| - 1].account, currency, groups[|groups| - 1].amount)]
  }

  function RestLine(account: int, currency: string, rest: real): seq<Line> {
    if rest == 0.0 then [] else [Plain(account, currency, rest)]
  }

  predicate Categorised(b: Book, p: Posting) {
    p.account in b.accounts && (b.accounts[p.account].cls.Income? || b.accounts[p.account].cls.Expense?)
  }

  /** The one category line of a plain purchase. */
  predicate OnlyCategory(b: Book, ps: seq<Posting>, k: nat) {
    k < |ps| && forall i :: 0 <= i < |ps| ==> (Categorised(b, ps[i]) <==> i == k)
  }

  method FindCategory(b: Book, ps: seq<Posting>) returns (k: Option<nat>)
    ensures k.Some? ==> OnlyCategory(b, ps, k.value)
    ensures k.None? ==> forall i: nat :: !OnlyCategory(b, ps, i)
  {
    k := None;
    for i := 0 to |ps|
      invariant k.None? ==> forall j :: 0 <= j < i ==> !Categorised(b, ps[j])
      invariant k.Some? ==> k.value < i && forall j :: 0 <= j < i ==> (Categorised(b, ps[j]) <==> j == k.value)
    {
      if !Categorised(b, ps[i]) {
        continue;
      }
      if k.Some? {
        forall j: nat ensures !OnlyCategory(b, ps, j) {
          assert Categorised(b, ps[i]) && Categorised(b, ps[k.value]);
        }
        return None;
      }
      k := Some(i);
    }
    if k.None? {
      forall i: nat ensures !OnlyCategory(b, ps, i) {
        if i < |ps| {
          assert !Categorised(b, ps[i]);
        }
      }
    }
  }

  /** What may be split: one category line of the whole total, at least one
      group, and every part turned the way of the total. */
  predicate Splits(groups: seq<Group>, rest: real, total: real) {
    |groups| > 0 && Sign(rest) != -Sign(total) && forall g :: g in groups ==> Sign(g.amount) == Sign(total)
  }

  predicate SplitInto(items: seq<Item>, main: Option<int>, total: real, groups: seq<Group>, rest: real) {
    GroupsOf(items, main, groups) && Sum(groups, GroupAmount()) + rest == total && rest == total - Sum(items, Leaving(main))
  }

  /** A plain purchase of the invoice's amount, and its items shared out. */
  predicate SharedOut(b: Book, ps: seq<Posting>, currency: string, amount: real, items: seq<Item>, k: nat,
      groups: seq<Group>, rest: real) {
    |items| > 0 && k < |ps| && OnlyCategory(b, ps, k) && ps[k].commodity == currency && ps[k].amount == -amount &&
    SplitInto(items, Some(ps[k].account), -amount, groups, rest)
  }

  predicate PlainPurchase(b: Book, ps: seq<Posting>, currency: string, amount: real, k: nat) {
    k < |ps| && OnlyCategory(b, ps, k) && ps[k].commodity == currency && ps[k].amount == -amount
  }

  predicate OnCategory(b: Book, p: Posting) {
    p.account in b.accounts && (b.accounts[p.account].cls == Income || b.accounts[p.account].cls == Expense)
  }

  /** A plain purchase posts the amount of the invoice on one income or expense
      account, and its other postings are on none. */
  lemma PlainIs(b: Book, ps: seq<Posting>, currency: string, amount: real, k: nat)
    ensures PlainPurchase(b, ps, currency, amount, k) <==>
      k < |ps| && OnCategory(b, ps[k]) && ps[k].commodity == currency && ps[k].amount == -amount &&
      forall i :: 0 <= i < |ps| && i != k ==> !OnCategory(b, ps[i])
  {
    assert forall p :: OnCategory(b, p) <==> Categorised(b, p);
  }

  /** Split where it can be, and not where it cannot. */
  ghost predicate SplitIs(b: Book, ps: seq<Posting>, currency: string, amount: real, items: seq<Item>,
      lines: Option<seq<Line>>) {
    match lines
    case Some(ls) =>
      exists k: nat, groups, rest :: SharedOut(b, ps, currency, amount, items, k, groups, rest) &&
                                     Splits(groups, rest, -amount) && ls == SplitInPlace(ps, k, groups, rest)
    case None =>
      |items| == 0 || (forall k: nat :: !PlainPurchase(b, ps, currency, amount, k)) ||
      (exists k: nat, groups, rest :: SharedOut(b, ps, currency, amount, items, k, groups, rest) && !Splits(groups, rest, -amount))
  }

  lemma SplitHow(b: Book, ps: seq<Posting>, currency: string, amount: real, items: seq<Item>, lines: Option<seq<Line>>)
    requires SplitIs(b, ps, currency, amount, items, lines) && lines.Some?
    ensures exists k: nat, groups, rest ::
      SharedOut(b, ps, currency, amount, items, k, groups, rest) && lines.value == SplitInPlace(ps, k, groups, rest)
  {
  }

  method SplitLines(b: Book, ps: seq<Posting>, currency: string, amount: real, items: seq<Item>)
      returns (lines: Option<seq<Line>>)
    ensures SplitIs(b, ps, currency, amount, items, lines)
  {
    hide Sum, GroupsOf, OnlyCategory, SplitInPlace;
    if |items| == 0 {
      return None;
    }
    var found := FindCategory(b, ps);
    if found.None? {
      return None;
    }
    var at := found.value;
    CategoryIn(b, ps, at);
    var total := -amount;
    if ps[at].commodity != currency || ps[at].amount != total {
      NotPlain(b, ps, currency, amount, at);
      return None;
    }
    var gs, left := SplitGroups(items, Some(ps[at].account), total);
    assert SharedOut(b, ps, currency, amount, items, at, gs, left);
    if |gs| == 0 || Sign(left) == -Sign(total) {
      assert !Splits(gs, left, -amount);
      return None;
    }
    for i := 0 to |gs|
      invariant forall j :: 0 <= j < i ==> Sign(gs[j].amount) == Sign(total)
    {
      if Sign(gs[i].amount) != Sign(total) {
        assert gs[i] in gs;
        assert !Splits(gs, left, -amount);
        return None;
      }
    }
    var out: seq<Line> := [];
    for i := 0 to |ps|
      invariant out == if i <= at then SameAll(ps[..i]) else SplitInPlace(ps[..i], at, gs, left)
    {
      assert ps[..i + 1][..i] == ps[..i];
      if i != at {
        out := out + [Same(ps[i])];
        if i > at {
          InPlaceMore(ps[..i], ps[i], at, gs, left);
          assert ps[..i + 1] == ps[..i] + [ps[i]];
        }
        continue;
      }
      out := out + GroupLines(gs, ps[i].commodity);
      out := out + RestLine(ps[i].account, ps[i].commodity, left);
      InPlaceAt(ps[..i + 1], at, gs, left);
      assert ps[..i + 1][..at] == ps[..i];
    }
    assert ps[..|ps|] == ps;
    assert Splits(gs, left, -amount);
    return Some(out);
  }

  /** There is one category line at most, so another is no plain purchase. */
  lemma NotPlain(b: Book, ps: seq<Posting>, currency: string, amount: real, at: nat)
    requires OnlyCategory(b, ps, at) && (ps[at].commodity != currency || ps[at].amount != -amount)
    ensures forall k: nat :: !PlainPurchase(b, ps, currency, amount, k)
  {
    forall k: nat ensures !PlainPurchase(b, ps, currency, amount, k) {
      if k < |ps| && OnlyCategory(b, ps, k) {
        assert Categorised(b, ps[k]) && Categorised(b, ps[at]);
      }
    }
  }

  lemma CategoryIn(b: Book, ps: seq<Posting>, k: nat)
    requires OnlyCategory(b, ps, k)
    ensures k < |ps|
  {
  }

  function SplitInPlace(ps: seq<Posting>, k: nat, groups: seq<Group>, rest: real): seq<Line>
    requires k < |ps|
  {
    SameAll(ps[..k]) + GroupLines(groups, ps[k].commodity) + RestLine(ps[k].account, ps[k].commodity, rest) +
    SameAll(ps[k + 1..])
  }

  lemma InPlaceAt(ps: seq<Posting>, k: nat, groups: seq<Group>, rest: real)
    requires k + 1 == |ps|
    ensures SplitInPlace(ps, k, groups, rest) ==
      SameAll(ps[..k]) + GroupLines(groups, ps[k].commodity) + RestLine(ps[k].account, ps[k].commodity, rest)
  {
    assert ps[k + 1..] == [];
  }

  lemma InPlaceMore(ps: seq<Posting>, p: Posting, k: nat, groups: seq<Group>, rest: real)
    requires k < |ps|
    ensures SplitInPlace(ps + [p], k, groups, rest) == SplitInPlace(ps, k, groups, rest) + [Same(p)]
  {
    assert (ps + [p])[..k] == ps[..k];
    assert (ps + [p])[k + 1..] == ps[k + 1..] + [p];
    assert (ps[k + 1..] + [p])[..|ps| - k - 1] == ps[k + 1..];
  }

  // ----- what goes to which account -----

  lemma GroupOfNone(groups: seq<Group>, currency: string, account: int)
    requires account !in Accounts(groups)
    ensures Sum(GroupLines(groups, currency), LineUnits(account)) == 0.0
  {
    hide Sum;
    forall l | l in GroupLines(groups, currency) ensures l.account != account {
      var i :| 0 <= i < |groups| && GroupLines(groups, currency)[i] == l;
      assert groups[i] in groups;
    }
    SumNil(GroupLines(groups, currency), LineUnits(account));
  }

  lemma {:induction false} GroupOfOne(groups: seq<Group>, currency: string, k: nat)
    requires DistinctAccounts(groups) && k < |groups|
    ensures Sum(GroupLines(groups, currency), LineUnits(groups[k].account)) == groups[k].amount
  {
    hide Sum;
    var n := |groups| - 1;
    var front, g := groups[..n], groups[n];
    SumAppend(GroupLines(front, currency), Plain(g.account, currency, g.amount), LineUnits(groups[k].account));
    if k < n {
      GroupOfOne(front, currency, k);
    } else {
      forall h | h in front ensures h.account != g.account {
        var i :| 0 <= i < n && front[i] == h;
      }
      GroupOfNone(front, currency, g.account);
    }
  }

  /** Each account gets what the items name for it. */
  lemma GroupShares(items: seq<Item>, main: Option<int>, groups: seq<Group>, currency: string, account: int)
    requires GroupsOf(items, main, groups)
    ensures Sum(GroupLines(groups, currency), LineUnits(account)) == Sum(items, ItemOf(main, account))
  {
    hide Sum;
    if account in Accounts(groups) {
      var g :| g in groups && g.account == account;
      var k :| 0 <= k < |groups| && groups[k] == g;
      GroupOfOne(groups, currency, k);
    } else {
      GroupOfNone(groups, currency, account);
      NoItems(items, main, account);
    }
  }

  lemma RestShare(account: int, currency: string, rest: real, a: int)
    ensures Sum(RestLine(account, currency, rest), LineUnits(a)) == if a == account then rest else 0.0
  {
    if rest != 0.0 {
      assert RestLine(account, currency, rest) == [] + [Plain(account, currency, rest)];
      SumAppend([], Plain(account, currency, rest), LineUnits(a));
    }
  }

  lemma {:induction false} SameUnits(ps: seq<Posting>, account: int)
    ensures Sum(SameAll(ps), LineUnits(account)) == Sum(ps, UnitsOf(account))
  {
    if |ps| > 0 {
      SameUnits(ps[..|ps| - 1], account);
      SumAppend(SameAll(ps[..|ps| - 1]), Same(ps[|ps| - 1]), LineUnits(account));
    }
  }

  /** A split takes from the category what the items name for others, and gives
      each of those its own; no other account is touched. */
  lemma SplitMoves(ps: seq<Posting>, k: nat, items: seq<Item>, groups: seq<Group>, rest: real, account: int)
    requires k < |ps| && SplitInto(items, Some(ps[k].account), ps[k].amount, groups, rest)
    ensures var main := ps[k].account;
      Sum(SplitInPlace(ps, k, groups, rest), LineUnits(account)) ==
        Sum(ps, UnitsOf(account)) + Sum(items, ItemOf(Some(main), account)) -
        (if account == main then Sum(items, Leaving(Some(main))) else 0.0)
  {
    hide Sum, GroupsOf, LineUnits;
    var w, c, main := LineUnits(account), ps[k].commodity, ps[k].account;
    SumFour(SameAll(ps[..k]), GroupLines(groups, c), RestLine(main, c, rest), SameAll(ps[k + 1..]), w);
    SameUnits(ps[..k], account);
    SameUnits(ps[k + 1..], account);
    GroupShares(items, Some(main), groups, c, account);
    RestShare(main, c, rest, account);
    SumAround(ps, k, UnitsOf(account));
  }

  function LineAmount(commodity: string): Line -> real {
    (l: Line) => if l.commodity == commodity then l.amount else 0.0
  }

  function PostingAmount(commodity: string): Posting -> real {
    (p: Posting) => if p.commodity == commodity then p.amount else 0.0
  }

  lemma {:induction false} SameAmounts(ps: seq<Posting>, commodity: string)
    ensures Sum(SameAll(ps), LineAmount(commodity)) == Sum(ps, PostingAmount(commodity))
  {
    if |ps| > 0 {
      SameAmounts(ps[..|ps| - 1], commodity);
      SumAppend(SameAll(ps[..|ps| - 1]), Same(ps[|ps| - 1]), LineAmount(commodity));
    }
  }

  lemma {:induction false} GroupAmounts(groups: seq<Group>, currency: string, commodity: string)
    ensures Sum(GroupLines(groups, currency), LineAmount(commodity)) ==
      if commodity == currency then Sum(groups, GroupAmount()) else 0.0
  {
    if |groups| > 0 {
      var front, g := groups[..|groups| - 1], groups[|groups| - 1];
      GroupAmounts(front, currency, commodity);
      SumAppend(GroupLines(front, currency), Plain(g.account, currency, g.amount), LineAmount(commodity));
    }
  }

  lemma RestAmount(account: int, currency: string, rest: real, commodity: string)
    ensures Sum(RestLine(account, currency, rest), LineAmount(commodity)) == if commodity == currency then rest else 0.0
  {
    if rest != 0.0 {
      assert RestLine(account, currency, rest) == [] + [Plain(account, currency, rest)];
      SumAppend([], Plain(account, currency, rest), LineAmount(commodity));
    }
  }

  /** A split keeps every commodity's amounts: the category line's total is
      shared out and the other lines stay as they were. */
  lemma SplitConserves(b: Book, ps: seq<Posting>, k: nat, items: seq<Item>, groups: seq<Group>, rest: real,
      commodity: string)
    requires k < |ps| && SplitInto(items, Some(ps[k].account), ps[k].amount, groups, rest)
    ensures Sum(SplitInPlace(ps, k, groups, rest), LineAmount(commodity)) == Sum(ps, PostingAmount(commodity))
  {
    hide Sum, GroupsOf, LineAmount, PostingAmount;
    var w := LineAmount(commodity);
    var c := ps[k].commodity;
    SumFour(SameAll(ps[..k]), GroupLines(groups, c), RestLine(ps[k].account, c, rest), SameAll(ps[k + 1..]), w);
    SameAmounts(ps[..k], commodity);
    SameAmounts(ps[k + 1..], commodity);
    GroupAmounts(groups, c, commodity);
    RestAmount(ps[k].account, c, rest, commodity);
    SumAround(ps, k, PostingAmount(commodity));
    Amounts(commodity, ps[k]);
  }

  lemma SumFour<T>(a: seq<T>, b: seq<T>, c: seq<T>, d: seq<T>, w: T -> real)
    ensures Sum(a + b + c + d, w) == Sum(a, w) + Sum(b, w) + Sum(c, w) + Sum(d, w)
  {
    hide Sum;
    SumConcat(a, b, w);
    SumConcat(a + b, c, w);
    SumConcat(a + b + c, d, w);
  }

  lemma SumAround<T>(s: seq<T>, k: nat, w: T -> real)
    requires k < |s|
    ensures Sum(s, w) == Sum(s[..k], w) + w(s[k]) + Sum(s[k + 1..], w)
  {
    hide Sum;
    assert s == s[..k] + [s[k]] + s[k + 1..];
    SumConcat(s[..k] + [s[k]], s[k + 1..], w);
    SumAppend(s[..k], s[k], w);
  }

  lemma Amounts(commodity: string, p: Posting)
    ensures PostingAmount(commodity)(p) == if p.commodity == commodity then p.amount else 0.0
  {
  }

  /** Every new line is non-zero and turned the way of the total, and no two
      post to one account. */
  lemma SplitLinesTurn(items: seq<Item>, main: int, total: real, groups: seq<Group>, rest: real, currency: string)
    requires SplitInto(items, Some(main), total, groups, rest) && Splits(groups, rest, total) && total != 0.0
    ensures var lines := GroupLines(groups, currency) + RestLine(main, currency, rest);
      (forall l :: l in lines ==> l.amount != 0.0 && Sign(l.amount) == Sign(total)) &&
      forall i, j :: 0 <= i < j < |lines| ==> lines[i].account != lines[j].account
  {
    hide Sum;
    NotMain(items, Some(main), groups);
    var gl := GroupLines(groups, currency);
    var lines := gl + RestLine(main, currency, rest);
    forall i | 0 <= i < |lines|
      ensures lines[i].amount != 0.0 && Sign(lines[i].amount) == Sign(total)
      ensures i < |groups| ==> lines[i].account == groups[i].account != main
      ensures i >= |groups| ==> lines[i].account == main
    {
      if i < |groups| {
        assert groups[i] in groups;
      }
    }
  }

  // ----- a cash purchase -----

  /** What a purchase of -amount comes to on an account: the items that name it,
      and for the category chosen what is left of the total. */
  function Shared(items: seq<Item>, category: Option<int>, amount: real, a: int): real {
    Sum(items, ItemOf(category, a)) + if category == Some(a) then -amount - Sum(items, Leaving(category)) else 0.0
  }

  ghost predicate Shares(lines: seq<Line>, items: seq<Item>, category: Option<int>, amount: real) {
    |lines| >= 1 && forall a :: Sum(lines[1..], LineUnits(a)) == Shared(items, category, amount, a)
  }

  /** A purchase paid in cash: the payment, a line per group, what is left. */
  method CashPurchase(account: int, currency: string, amount: real, items: seq<Item>, category: Option<int>)
      returns (r: Result<seq<Line>>)
    ensures r.Ok? ==> Sum(r.value, LineAmount(currency)) == 0.0
    ensures r.Ok? ==> (forall l :: l in r.value ==> l.commodity == currency && l.base.None?)
    ensures r.Ok? ==> |r.value| >= 1 && r.value[0] == Plain(account, currency, amount)
    ensures r.Err? <==> category.None? && -amount != Sum(items, Leaving(None))
    ensures r.Err? ==> r == Err(Required)
    ensures r.Ok? ==> Shares(r.value, items, category, amount)
  {
    hide Sum, GroupsOf, LineAmount, LineUnits;
    var total := -amount;
    var groups, rest := SplitGroups(items, category, total);
    if category.None? && rest != 0.0 {
      return Err(Required);
    }
    var lines := [Plain(account, currency, amount)];
    var gl := GroupLines(groups, currency);
    var rl := if rest == 0.0 then [] else RestLine(category.value, currency, rest);
    PaymentSum(account, currency, amount);
    GroupAmounts(groups, currency, currency);
    SumConcat(lines, gl, LineAmount(currency));
    SumConcat(lines + gl, rl, LineAmount(currency));
    if rest != 0.0 {
      RestAmount(category.value, currency, rest, currency);
    } else {
      RestAmount(0, currency, rest, currency);
    }
    forall a ensures Sum(gl + rl, LineUnits(a)) == Shared(items, category, amount, a) {
      GroupShares(items, category, groups, currency, a);
      RestShare(if category.Some? then category.value else a, currency, rest, a);
      SumConcat(gl, rl, LineUnits(a));
      SumNil([], LineUnits(a));
    }
    assert (lines + gl + rl)[1..] == gl + rl;
    return Ok(lines + gl + rl);
  }

  lemma PaymentSum(account: int, currency: string, amount: real)
    ensures Sum([Plain(account, currency, amount)], LineAmount(currency)) == amount
  {
    assert [Plain(account, currency, amount)] == [] + [Plain(account, currency, amount)];
    SumAppend([], Plain(account, currency, amount), LineAmount(currency));
  }
}
