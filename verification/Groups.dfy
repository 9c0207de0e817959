// Grouped sums, as the AccountSums queries return them: one row for each
// account and commodity that has a posting, in no particular order. The
// statements are sums over these rows; this module takes the sums back to the
// postings underneath.
module Groups {
  import opened Sums
  import opened Core

  datatype Key = Key(account: int, commodity: string)
  datatype SumRow = SumRow(account: int, commodity: string, amount: real, base: real)

  function KeyOf(p: Posting): Key {
    Key(p.account, p.commodity)
  }

  function RowKey(r: SumRow): Key {
    Key(r.account, r.commodity)
  }

  function AmountAt(k: Key): Posting -> real {
    (p: Posting) => if KeyOf(p) == k then p.amount else 0.0
  }

  function BaseAt(k: Key): Posting -> real {
    (p: Posting) => if KeyOf(p) == k then p.base else 0.0
  }

  function RowKeys(rows: seq<SumRow>): set<Key> {
    set r | r in rows :: RowKey(r)
  }

  function PostingKeys(ps: seq<Posting>): set<Key> {
    set p | p in ps :: KeyOf(p)
  }

  predicate DistinctKeys(rows: seq<SumRow>) {
    forall i, j :: 0 <= i < j < |rows| ==> RowKey(rows[i]) != RowKey(rows[j])
  }

  /** GROUP BY account_id, commodity over the postings ps. */
  predicate IsSums(rows: seq<SumRow>, ps: seq<Posting>) {
    DistinctKeys(rows) &&
    RowKeys(rows) == PostingKeys(ps) &&
    forall r :: r in rows ==> r.amount == Sum(ps, AmountAt(RowKey(r))) && r.base == Sum(ps, BaseAt(RowKey(r)))
  }

  function RowBase(): SumRow -> real {
    (r: SumRow) => r.base
  }

  /** A figure counted only for the rows of some accounts. */
  function On(g: SumRow -> real, accounts: set<int>): SumRow -> real {
    (r: SumRow) => if r.account in accounts then g(r) else 0.0
  }

  /** An account's own figure: the sum over its rows. */
  function PerAccount(rows: seq<SumRow>, g: SumRow -> real): int -> real {
    (a: int) => Sum(rows, On(g, {a}))
  }

  /** Summing by account is summing the rows of those accounts. */
  lemma {:induction false} SumByAccount(rows: seq<SumRow>, g: SumRow -> real, accounts: set<int>)
    ensures SumOver(accounts, PerAccount(rows, g)) == Sum(rows, On(g, accounts))
  {
    hide Sum;
    if accounts == {} {
      SumNil(rows, On(g, accounts));
      SumOverNil(accounts, PerAccount(rows, g));
    } else {
      var a := FirstOf(accounts);
      SumByAccount(rows, g, accounts - {a});
      SumOverRemove(accounts, PerAccount(rows, g), a);
      SumSplit(rows, On(g, accounts), On(g, accounts - {a}), On(g, {a}));
    }
  }

  ghost function FirstOf<T>(s: set<T>): T
    requires s != {}
    ensures FirstOf(s) in s
  {
    var x :| x in s; x
  }

  lemma SameRows(rows: seq<SumRow>, others: seq<SumRow>, ps: seq<Posting>)
    requires IsSums(rows, ps) && IsSums(others, ps)
    ensures Elements(rows) <= Elements(others)
  {
    hide Sum;
    forall r | r in rows ensures r in others {
      assert RowKey(r) in RowKeys(rows);
      assert RowKey(r) in RowKeys(others);
      var o :| o in others && RowKey(o) == RowKey(r);
      assert o == r;
    }
  }

  /** The order in which the groups come back does not matter. */
  lemma OrderFree(rows: seq<SumRow>, others: seq<SumRow>, ps: seq<Posting>, g: SumRow -> real)
    requires IsSums(rows, ps) && IsSums(others, ps)
    ensures Sum(rows, g) == Sum(others, g)
  {
    hide Sum, IsSums;
    SameRows(rows, others, ps);
    SameRows(others, rows, ps);
    assert Elements(rows) == Elements(others);
    assert Distinct(rows) by { KeysDistinct(rows, ps); }
    assert Distinct(others) by { KeysDistinct(others, ps); }
    SumDistinct(rows, g);
    SumDistinct(others, g);
  }

  lemma KeysDistinct(rows: seq<SumRow>, ps: seq<Posting>)
    requires IsSums(rows, ps)
    ensures Distinct(rows)
  {
    forall i, j | 0 <= i < j < |rows| ensures rows[i] != rows[j] {
      assert RowKey(rows[i]) != RowKey(rows[j]);
    }
  }

  function BaseIn(keys: set<Key>, accounts: set<int>): Posting -> real {
    (p: Posting) => if KeyOf(p) in keys && p.account in accounts then p.base else 0.0
  }

  lemma {:induction false} RegroupKeys(rows: seq<SumRow>, ps: seq<Posting>, accounts: set<int>)
    requires DistinctKeys(rows)
    requires forall r :: r in rows ==> r.base == Sum(ps, BaseAt(RowKey(r)))
    ensures Sum(rows, On(RowBase(), accounts)) == Sum(ps, BaseIn(RowKeys(rows), accounts))
  {
    var keys := RowKeys(rows);
    if |rows| == 0 {
      SumNil(ps, BaseIn(keys, accounts));
    } else {
      var front, last := rows[..|rows| - 1], rows[|rows| - 1];
      var frontKeys := RowKeys(front);
      var k := RowKey(last);
      RegroupKeys(front, ps, accounts);
      assert rows == front + [last];
      assert keys == frontKeys + {k};
      assert k !in frontKeys;
      var share := if last.account in accounts then BaseAt(k) else BaseIn({}, {});
      SumNil(ps, BaseIn({}, {}));
      SumSplit(ps, BaseIn(keys, accounts), BaseIn(frontKeys, accounts), share);
    }
  }

  /** Regrouping: the rows of some accounts add up to their postings. */
  lemma Regroup(rows: seq<SumRow>, ps: seq<Posting>, accounts: set<int>)
    requires IsSums(rows, ps)
    ensures Sum(rows, On(RowBase(), accounts)) == Sum(ps, BaseOf(accounts))
  {
    hide Sum;
    RegroupKeys(rows, ps, accounts);
    var keys := RowKeys(rows);
    forall p | p in ps ensures BaseIn(keys, accounts)(p) == BaseOf(accounts)(p) {
      assert KeyOf(p) in PostingKeys(ps);
    }
    SumSame(ps, BaseIn(keys, accounts), BaseOf(accounts));
  }

  lemma RowAccount(rows: seq<SumRow>, ps: seq<Posting>, r: SumRow)
    requires IsSums(rows, ps) && r in rows
    ensures exists p :: p in ps && KeyOf(p) == RowKey(r)
  {
    assert RowKey(r) in RowKeys(rows);
    assert RowKey(r) in PostingKeys(ps);
  }
}
