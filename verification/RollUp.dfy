// Totals up the account tree (rollUp in internal/ledger/reports.go). The lines
// are a map ranged in any order while parents are being inserted into it; the
// language lets an entry inserted during the range be visited or not.
module RollUp {
  import opened Sums
  import opened Core

  function ParentOf(accs: map<int, Account>, id: int): Option<int> {
    if id in accs then accs[id].parent else None
  }

  /** The store keeps parent links acyclic: a rank falls along them. */
  ghost predicate Ranked(accs: map<int, Account>, rank: int -> nat) {
    forall id :: id in accs && accs[id].parent.Some? ==> rank(accs[id].parent.value) < rank(id)
  }

  /** An account and everything above it. */
  ghost function Chain(accs: map<int, Account>, rank: int -> nat, id: int): set<int>
    requires Ranked(accs, rank)
    decreases rank(id)
  {
    {id} + (match ParentOf(accs, id)
            case None => {}
            case Some(p) => Chain(accs, rank, p))
  }

  lemma {:induction false} ChainRank(accs: map<int, Account>, rank: int -> nat, id: int)
    requires Ranked(accs, rank)
    ensures forall a :: a in Chain(accs, rank, id) ==> rank(a) <= rank(id)
    decreases rank(id)
  {
    match ParentOf(accs, id) {
      case None =>
      case Some(p) => ChainRank(accs, rank, p);
    }
  }

  datatype ReportLine = ReportLine(amount: real, total: real, holds: bool)

  function Entry(m: map<int, ReportLine>, id: int): ReportLine {
    if id in m then m[id] else ReportLine(0.0, 0.0, false)
  }

  function Credit(m: map<int, ReportLine>, id: int, v: real): map<int, ReportLine> {
    m[id := Entry(m, id).(total := Entry(m, id).total + v)]
  }

  predicate Credited(before: map<int, ReportLine>, after: map<int, ReportLine>, ids: set<int>, v: real) {
    after.Keys == before.Keys + ids &&
    forall a :: a in after ==>
      after[a] == Entry(before, a).(total := Entry(before, a).total + (if a in ids then v else 0.0))
  }

  lemma CreditMore(before: map<int, ReportLine>, r: map<int, ReportLine>, ids: set<int>, at: int, v: real)
    requires Credited(before, r, ids, v) && at !in ids
    ensures Credited(before, Credit(r, at, v), ids + {at}, v)
  {
  }

  lemma ChainStep(accs: map<int, Account>, rank: int -> nat, id: int)
    requires Ranked(accs, rank)
    ensures var p := ParentOf(accs, id);
      Chain(accs, rank, id) == {id} + (if p.Some? then Chain(accs, rank, p.value) else {}) &&
      (p.Some? ==> rank(p.value) < rank(id))
  {
  }

  /** One entry of the range: its amount goes to every account above it. */
  method Visit(m: map<int, ReportLine>, accs: map<int, Account>, ghost rank: int -> nat, id: int)
      returns (r: map<int, ReportLine>)
    requires Ranked(accs, rank) && id in m
    ensures Credited(m, r, Chain(accs, rank, id), m[id].amount)
  {
    hide Chain, Credited, Credit;
    var v := m[id].amount;
    r := m;
    ChainStep(accs, rank, id);
    assert Credited(m, r, {}, v) by { CreditNone(m, v); }
    var p := ParentOf(accs, id);
    ghost var ids: set<int> := {};
    while p.Some?
      invariant Credited(m, r, ids, v)
      invariant Chain(accs, rank, id) == {id} + ids + (if p.Some? then Chain(accs, rank, p.value) else {})
      invariant id !in ids && forall a :: a in ids ==> p.Some? ==> rank(p.value) < rank(a)
      invariant p.Some? ==> rank(p.value) < rank(id)
      decreases if p.Some? then rank(p.value) + 1 else 0
    {
      var at := p.value;
      ChainStep(accs, rank, at);
      CreditMore(m, r, ids, at, v);
      r := Credit(r, at, v);
      ids := ids + {at};
      p := ParentOf(accs, at);
    }
    CreditMore(m, r, ids, id, v);
    r := Credit(r, id, v);
    assert ids + {id} == Chain(accs, rank, id);
  }

  lemma CreditNone(m: map<int, ReportLine>, v: real)
    ensures Credited(m, m, {}, v)
  {
  }

  // ----- the whole range -----

  /** x's amount, if x is in the subtree of a. */
  ghost function Under(lines: map<int, ReportLine>, accs: map<int, Account>, rank: int -> nat, a: int): int -> real
    requires Ranked(accs, rank)
  {
    (x: int) => if a in Chain(accs, rank, x) then Entry(lines, x).amount else 0.0
  }

  /** The total the tree gives an account, whatever the order. */
  ghost function SubtreeTotal(lines: map<int, ReportLine>, accs: map<int, Account>, rank: int -> nat, a: int): real
    requires Ranked(accs, rank)
  {
    SumOver(lines.Keys, Under(lines, accs, rank, a))
  }

  ghost predicate Progress(lines: map<int, ReportLine>, m: map<int, ReportLine>, accs: map<int, Account>,
      rank: int -> nat, visited: set<int>)
    requires Ranked(accs, rank)
  {
    lines.Keys <= m.Keys && visited <= m.Keys &&
    (forall a :: a in m ==> m[a].amount == Entry(lines, a).amount && m[a].holds == Entry(lines, a).holds) &&
    (forall a :: Entry(m, a).total == SumOver(visited, Under(lines, accs, rank, a)))
  }

  lemma VisitProgress(lines: map<int, ReportLine>, m: map<int, ReportLine>, r: map<int, ReportLine>,
      accs: map<int, Account>, rank: int -> nat, visited: set<int>, id: int)
    requires Ranked(accs, rank) && Progress(lines, m, accs, rank, visited) && id in m && id !in visited
    requires Credited(m, r, Chain(accs, rank, id), m[id].amount)
    ensures Progress(lines, r, accs, rank, visited + {id})
  {
    hide SumOver, Chain;
    assert id in Chain(accs, rank, id) by { ChainSelf(accs, rank, id); }
    forall a ensures Entry(r, a).total == SumOver(visited + {id}, Under(lines, accs, rank, a)) {
      SumOverAdd(visited, Under(lines, accs, rank, a), id);
    }
  }

  lemma ChainSelf(accs: map<int, Account>, rank: int -> nat, id: int)
    requires Ranked(accs, rank)
    ensures id in Chain(accs, rank, id)
  {
  }

  /** Whatever the range visited beyond the first entries had no amount. */
  lemma ExtraVisits(lines: map<int, ReportLine>, accs: map<int, Account>, rank: int -> nat, visited: set<int>, a: int)
    requires Ranked(accs, rank) && lines.Keys <= visited
    ensures SumOver(visited, Under(lines, accs, rank, a)) == SubtreeTotal(lines, accs, rank, a)
  {
    hide SumOver, Chain;
    var f := Under(lines, accs, rank, a);
    SumOverUnion(lines.Keys, visited - lines.Keys, f);
    SumOverNil(visited - lines.Keys, f);
    assert lines.Keys + (visited - lines.Keys) == visited;
  }

  /** The range: first entries are all visited, in any order; an inserted one
      may be visited at any point or left out. */
  method Range(lines: map<int, ReportLine>, accs: map<int, Account>, ghost rank: int -> nat, ghost universe: set<int>)
      returns (m: map<int, ReportLine>)
    requires Ranked(accs, rank)
    requires forall id :: id in lines ==> lines[id].total == 0.0
    requires lines.Keys <= universe && forall id :: id in universe ==> Chain(accs, rank, id) <= universe
    ensures lines.Keys <= m.Keys
    ensures forall a :: a in m ==> m[a].amount == Entry(lines, a).amount && m[a].holds == Entry(lines, a).holds
    ensures forall a :: Entry(m, a).total == SubtreeTotal(lines, accs, rank, a)
  {
    m := lines;
    var visited: set<int> := {};
    StartProgress(lines, accs, rank);
    while true
      invariant Progress(lines, m, accs, rank, visited) && m.Keys <= universe
      decreases universe - visited
    {
      var todo := lines.Keys - visited;
      var inserted := m.Keys - lines.Keys - visited;
      if todo == {} {
        NothingLeft(lines.Keys, visited);
        if inserted == {} {
          break;
        }
        if * {
          break;
        }
      }
      var id: int;
      if todo == {} {
        id := Next(inserted);
      } else if inserted == {} {
        id := Next(todo);
      } else if * {
        id := Next(todo);
      } else {
        id := Next(inserted);
      }
      var r := Visit(m, accs, rank, id);
      VisitProgress(lines, m, r, accs, rank, visited, id);
      m, visited := r, visited + {id};
    }
    forall a ensures Entry(m, a).total == SubtreeTotal(lines, accs, rank, a) {
      ExtraVisits(lines, accs, rank, visited, a);
    }
  }

  lemma StartProgress(lines: map<int, ReportLine>, accs: map<int, Account>, rank: int -> nat)
    requires Ranked(accs, rank) && forall id :: id in lines ==> lines[id].total == 0.0
    ensures Progress(lines, lines, accs, rank, {})
  {
  }

  // ----- the report's lines -----

  ghost function Reach(accs: map<int, Account>, rank: int -> nat, ids: set<int>): set<int>
    requires Ranked(accs, rank)
  {
    set x, a | x in ids && a in Chain(accs, rank, x) :: a
  }

  lemma {:induction false} ChainNested(accs: map<int, Account>, rank: int -> nat, id: int, a: int)
    requires Ranked(accs, rank) && a in Chain(accs, rank, id)
    ensures Chain(accs, rank, a) <= Chain(accs, rank, id)
    decreases rank(id)
  {
    var p := ParentOf(accs, id);
    if a != id {
      ChainNested(accs, rank, p.value, a);
    }
  }

  lemma ReachClosed(accs: map<int, Account>, rank: int -> nat, ids: set<int>)
    requires Ranked(accs, rank)
    ensures ids <= Reach(accs, rank, ids)
    ensures forall a :: a in Reach(accs, rank, ids) ==> Chain(accs, rank, a) <= Reach(accs, rank, ids)
  {
    hide Chain;
    forall x | x in ids ensures x in Reach(accs, rank, ids) {
      ChainSelf(accs, rank, x);
    }
    forall a | a in Reach(accs, rank, ids) ensures Chain(accs, rank, a) <= Reach(accs, rank, ids) {
      var x :| x in ids && a in Chain(accs, rank, x);
      ChainNested(accs, rank, x, a);
      forall y | y in Chain(accs, rank, a) ensures y in Reach(accs, rank, ids) {
        assert y in Chain(accs, rank, x);
      }
    }
  }

  datatype OutLine = OutLine(id: int, amount: real, total: real)

  predicate Shows(l: ReportLine) {
    l.total != 0.0 || l.amount != 0.0 || l.holds
  }

  predicate Ascending(out: seq<OutLine>) {
    forall i, j :: 0 <= i < j < |out| ==> out[i].id < out[j].id
  }

  method Least(s: set<int>) returns (x: int)
    requires s != {}
    ensures x in s && forall y :: y in s ==> x <= y
  {
    x := Next(s);
    var seen, rest := {x}, s - {x};
    while rest != {}
      invariant seen + rest == s && x in seen && forall y :: y in seen ==> x <= y
      decreases rest
    {
      var next := Next(rest);
      if next < x {
        x := next;
      }
      seen, rest := seen + {next}, rest - {next};
    }
    assert seen == s;
  }

  function Ids(out: seq<OutLine>): set<int> {
    set l | l in out :: l.id
  }

  lemma IdsAppend(out: seq<OutLine>, l: OutLine)
    ensures Ids(out + [l]) == Ids(out) + {l.id}
  {
  }

  function Kept(m: map<int, ReportLine>): set<int> {
    set a | a in m && Shows(m[a])
  }

  predicate LinesFrom(m: map<int, ReportLine>, out: seq<OutLine>) {
    forall l :: l in out ==> l.id in m && l == OutLine(l.id, m[l.id].amount, m[l.id].total)
  }

  /** The kept lines of a map, by account id. */
  method Sorted(m: map<int, ReportLine>) returns (out: seq<OutLine>)
    ensures Ascending(out) && Ids(out) == Kept(m) && LinesFrom(m, out)
  {
    out := [];
    var todo := Kept(m);
    while todo != {}
      invariant todo <= Kept(m) && Ascending(out) && Ids(out) == Kept(m) - todo && LinesFrom(m, out)
      invariant forall l, a :: l in out && a in todo ==> l.id < a
      decreases todo
    {
      var a := Least(todo);
      var line := OutLine(a, m[a].amount, m[a].total);
      IdsAppend(out, line);
      assert forall i :: 0 <= i < |out| ==> out[i] in out;
      out := out + [line];
      todo := todo - {a};
    }
    assert Ids(out) == Kept(m);
  }

  /** Shown: its total or its own amount is not zero, or it holds something. */
  ghost predicate Listed(lines: map<int, ReportLine>, accs: map<int, Account>, rank: int -> nat, a: int)
    requires Ranked(accs, rank)
  {
    SubtreeTotal(lines, accs, rank, a) != 0.0 || Entry(lines, a).amount != 0.0 || Entry(lines, a).holds
  }

  /** The report: one line for each listed account, ascending by id, with its
      amount and the total of its subtree. */
  ghost predicate IsReport(lines: map<int, ReportLine>, accs: map<int, Account>, rank: int -> nat, out: seq<OutLine>)
    requires Ranked(accs, rank)
  {
    Ascending(out) && (forall a :: a in Ids(out) <==> Listed(lines, accs, rank, a)) &&
    forall l :: l in out ==> l == OutLine(l.id, Entry(lines, l.id).amount, SubtreeTotal(lines, accs, rank, l.id))
  }

  /** rollUp: for every order of the range the result is the report. */
  method RollUp(lines: map<int, ReportLine>, accs: map<int, Account>,
      ghost rank: int -> nat) returns (out: seq<OutLine>)
    requires Ranked(accs, rank) && forall id :: id in lines ==> lines[id].total == 0.0
    ensures IsReport(lines, accs, rank, out)
  {
    hide Chain, SumOver, SubtreeTotal;
    ReachClosed(accs, rank, lines.Keys);
    var m := Range(lines, accs, rank, Reach(accs, rank, lines.Keys));
    out := Sorted(m);
    forall a ensures a in Kept(m) <==> Listed(lines, accs, rank, a) {
      assert Entry(m, a).total == SubtreeTotal(lines, accs, rank, a);
    }
    forall l | l in out ensures l.total == SubtreeTotal(lines, accs, rank, l.id) {
      assert Entry(m, l.id).total == SubtreeTotal(lines, accs, rank, l.id);
    }
  }

  /** There is only one report, so no order of the range gives another. */
  lemma ReportUnique(lines: map<int, ReportLine>, accs: map<int, Account>, rank: int -> nat,
      one: seq<OutLine>, other: seq<OutLine>)
    requires Ranked(accs, rank) && IsReport(lines, accs, rank, one) && IsReport(lines, accs, rank, other)
    ensures one == other
  {
    hide SubtreeTotal;
    assert Ids(one) == Ids(other) by {
      forall a ensures a in Ids(one) <==> a in Ids(other) {
        assert a in Ids(one) <==> Listed(lines, accs, rank, a);
      }
    }
    SameIds(one, other);
    forall i | 0 <= i < |one| ensures one[i] == other[i] {
      assert one[i] in one && other[i] in other;
    }
  }

  lemma LastIsMost(out: seq<OutLine>)
    requires Ascending(out) && |out| > 0
    ensures out[|out| - 1].id in Ids(out) && forall a :: a in Ids(out) ==> a <= out[|out| - 1].id
    ensures Ids(out[..|out| - 1]) == Ids(out) - {out[|out| - 1].id}
  {
    var n := |out| - 1;
    assert out == out[..n] + [out[n]];
    assert out[n] in out;
    IdsAppend(out[..n], out[n]);
    forall a | a in Ids(out) ensures a <= out[n].id {
      var i :| 0 <= i < |out| && out[i].id == a;
    }
    assert out[n].id !in Ids(out[..n]);
  }

  lemma NoIds(out: seq<OutLine>)
    ensures Ids(out) == {} <==> out == []
  {
    if out != [] {
      assert out[0] in out;
      assert out[0].id in Ids(out);
    }
  }

  lemma LastIsShared(one: seq<OutLine>, other: seq<OutLine>)
    requires Ascending(one) && Ascending(other) && Ids(one) == Ids(other) && one != []
    ensures other != [] && one[|one| - 1].id == other[|other| - 1].id
    ensures Ids(one[..|one| - 1]) == Ids(other[..|other| - 1])
  {
    hide Ids, Ascending;
    NoIds(one);
    NoIds(other);
    LastIsMost(one);
    LastIsMost(other);
  }

  /** Ascending lists over the same ids agree position by position. */
  lemma {:induction false} SameIds(one: seq<OutLine>, other: seq<OutLine>)
    requires Ascending(one) && Ascending(other) && Ids(one) == Ids(other)
    ensures |one| == |other| && forall i :: 0 <= i < |one| ==> one[i].id == other[i].id
  {
    hide Ids;
    NoIds(one);
    NoIds(other);
    if one != [] {
      LastIsShared(one, other);
      SameIds(one[..|one| - 1], other[..|other| - 1]);
    }
  }
}
