// Keyset paging (internal/ledger/transactions.go): the cursor text, one page,
// and the client that follows cursors to the end; and the account filter's
// breadth-first walk of the tree.
module Paging {
  import opened Core
  import opened RollUp
  import opened Sums

  // ----- text -----

  predicate IsDigit(c: char) {
    '0' <= c <= '9'
  }

  function Digit(d: nat): char
    requires d < 10
  {
    '0' + d as char
  }

  function DigitValue(c: char): nat
    requires IsDigit(c)
  {
    (c - '0') as nat
  }

  predicate AllDigits(s: string) {
    forall i :: 0 <= i < |s| ==> IsDigit(s[i])
  }

  function Decimal(n: nat): (s: string)
    ensures |s| > 0 && AllDigits(s)
  {
    if n < 10 then [Digit(n)] else Decimal(n / 10) + [Digit(n % 10)]
  }

  function ParseDigits(s: string): nat
    requires AllDigits(s)
  {
    if |s| == 0 then 0 else 10 * ParseDigits(s[..|s| - 1]) + DigitValue(s[|s| - 1])
  }

  lemma {:induction false} ParseDecimal(n: nat)
    ensures ParseDigits(Decimal(n)) == n
  {
    if n >= 10 {
      ParseDecimal(n / 10);
      assert Decimal(n)[..|Decimal(n)| - 1] == Decimal(n / 10);
    } else {
      assert [Digit(n)][..0] == [];
    }
  }

  /** width digits, with zeros in front. */
  function Padded(n: nat, width: nat): (s: string)
    ensures |s| == width && AllDigits(s)
  {
    if width == 0 then [] else Padded(n / 10, width - 1) + [Digit(n % 10)]
  }

  function Power(width: nat): nat {
    if width == 0 then 1 else 10 * Power(width - 1)
  }

  lemma {:induction false} ParsePadded(n: nat, width: nat)
    requires n < Power(width)
    ensures ParseDigits(Padded(n, width)) == n
  {
    if width > 0 {
      ParsePadded(n / 10, width - 1);
      assert Padded(n, width)[..width - 1] == Padded(n / 10, width - 1);
    }
  }

  // ----- dates -----

  datatype Date = Date(year: int, month: int, day: int)

  predicate Leap(y: int) {
    y % 4 == 0 && (y % 100 != 0 || y % 400 == 0)
  }

  function DaysIn(y: int, m: int): int {
    if m == 2 then (if Leap(y) then 29 else 28)
    else if m == 4 || m == 6 || m == 9 || m == 11 then 30 else 31
  }

  /** A calendar day that four year digits can write. */
  predicate ValidDate(d: Date) {
    0 <= d.year <= 9999 && 1 <= d.month <= 12 && 1 <= d.day <= DaysIn(d.year, d.month)
  }

  function FormatDate(d: Date): (s: string)
    requires ValidDate(d)
    ensures |s| == 10 && forall i :: 0 <= i < 10 ==> s[i] != '_'
  {
    Padded(d.year, 4) + "-" + Padded(d.month, 2) + "-" + Padded(d.day, 2)
  }

  function ParseDate(s: string): Option<Date> {
    if |s| == 10 && s[4] == '-' && s[7] == '-' && AllDigits(s[..4]) && AllDigits(s[5..7]) && AllDigits(s[8..]) then
      var d := Date(ParseDigits(s[..4]), ParseDigits(s[5..7]), ParseDigits(s[8..]));
      if ValidDate(d) then Some(d) else None
    else None
  }

  lemma DateRoundTrip(d: Date)
    requires ValidDate(d)
    ensures ParseDate(FormatDate(d)) == Some(d)
  {
    var s := FormatDate(d);
    assert Power(1) == 10;
    assert Power(2) == 100 && Power(4) == 10000;
    ParsePadded(d.year, 4);
    ParsePadded(d.month, 2);
    ParsePadded(d.day, 2);
    assert s[..4] == Padded(d.year, 4) && s[5..7] == Padded(d.month, 2) && s[8..] == Padded(d.day, 2);
  }

  // ----- 64-bit ids -----

  const MAX_ID: int := 0x7fff_ffff_ffff_ffff

  predicate Int64(n: int) {
    -MAX_ID - 1 <= n <= MAX_ID
  }

  function FormatInt(n: int): (s: string)
    ensures |s| > 0
  {
    if n < 0 then "-" + Decimal(-n) else Decimal(n)
  }

  /** An optional sign, digits, and the 64-bit range. */
  function ParseInt(s: string): Option<int> {
    var signed := |s| > 0 && (s[0] == '-' || s[0] == '+');
    var digits := if signed then s[1..] else s;
    if |digits| == 0 || !AllDigits(digits) then None
    else
      var v: int := ParseDigits(digits);
      var n := if signed && s[0] == '-' then -v else v;
      if Int64(n) then Some(n) else None
  }

  lemma IntRoundTrip(n: int)
    requires Int64(n)
    ensures ParseInt(FormatInt(n)) == Some(n)
  {
    hide Decimal, ParseDigits;
    if n < 0 {
      ParseDecimal(-n);
      assert ("-" + Decimal(-n))[1..] == Decimal(-n);
    } else {
      ParseDecimal(n);
      assert IsDigit(Decimal(n)[0]);
    }
  }

  // ----- the cursor: where a page left off -----

  datatype Row = Row(date: Date, id: int)

  predicate ValidRow(r: Row) {
    ValidDate(r.date) && Int64(r.id)
  }

  function EncodeCursor(r: Row): (c: string)
    requires ValidRow(r)
    ensures c != ""
  {
    FormatDate(r.date) + "_" + FormatInt(r.id)
  }

  /** Where the first underscore is, or the length. */
  function CutAt(c: string): (i: nat)
    ensures i <= |c| && (forall j :: 0 <= j < i ==> c[j] != '_') && (i < |c| ==> c[i] == '_')
  {
    if |c| == 0 || c[0] == '_' then 0 else 1 + CutAt(c[1..])
  }

  /** No cursor, a cursor, or a malformed one. */
  function DecodeCursor(c: string): Result<Option<Row>> {
    if c == "" then Ok(None) else
      var i := CutAt(c);
      if i == |c| then Err(Invalid) else
        var date, id := ParseDate(c[..i]), ParseInt(c[i + 1..]);
        if date.None? || id.None? then Err(Invalid) else Ok(Some(Row(date.value, id.value)))
  }

  /** Decoding undoes encoding. */
  lemma CursorRoundTrip(r: Row)
    requires ValidRow(r)
    ensures DecodeCursor(EncodeCursor(r)) == Ok(Some(r))
  {
    hide FormatDate, FormatInt, ParseDate, ParseInt, ValidDate;
    var c := EncodeCursor(r);
    DateRoundTrip(r.date);
    IntRoundTrip(r.id);
    assert c[..10] == FormatDate(r.date) && c[10] == '_' && c[11..] == FormatInt(r.id);
    assert forall j :: 0 <= j < 10 ==> c[j] == FormatDate(r.date)[j];
    assert CutAt(c) == 10;
  }

  // ----- pages -----

  predicate DateBefore(a: Date, b: Date) {
    a.year < b.year || (a.year == b.year && (a.month < b.month || (a.month == b.month && a.day < b.day)))
  }

  /** (date, id) < (date, id), as the query compares rows. */
  predicate Before(a: Row, b: Row) {
    DateBefore(a.date, b.date) || (a.date == b.date && a.id < b.id)
  }

  /** The matching transactions, newest first: ORDER BY date DESC, id DESC. */
  predicate NewestFirst(rows: seq<Row>) {
    (forall i, j :: 0 <= i < j < |rows| ==> Before(rows[j], rows[i])) && forall r :: r in rows ==> ValidRow(r)
  }

  function DayKey(d: Date): int {
    10000 * d.year + 100 * d.month + d.day
  }

  /** So each row is of a later day than the next, or of the same with a
      greater id. */
  lemma NewestFirstIs(rows: seq<Row>, i: nat, j: nat)
    requires NewestFirst(rows) && i < j < |rows|
    ensures DayKey(rows[i].date) > DayKey(rows[j].date) || (rows[i].date == rows[j].date && rows[i].id > rows[j].id)
  {
    assert rows[i] in rows && rows[j] in rows;
    assert Before(rows[j], rows[i]);
  }

  function Below(rows: seq<Row>, cursor: Option<Row>): seq<Row> {
    if |rows| == 0 then []
    else if cursor.None? || Before(rows[0], cursor.value) then [rows[0]] + Below(rows[1..], cursor)
    else Below(rows[1..], cursor)
  }

  function Limit(limit: int): (n: nat)
    ensures 1 <= n <= 200
  {
    if limit <= 0 then 50 else if limit > 200 then 200 else limit
  }

  function Take(rows: seq<Row>, n: nat): seq<Row> {
    if |rows| <= n then rows else rows[..n]
  }

  /** One page and the cursor of the next, "" after the last. */
  function Page(rows: seq<Row>, cursor: string, limit: int): Result<(seq<Row>, string)>
    requires NewestFirst(rows)
  {
    var after :- DecodeCursor(cursor);
    var n := Limit(limit);
    BelowFrom(rows, after);
    var found := Take(Below(rows, after), n + 1);
    if |found| > n then Ok((found[..n], EncodeCursor(found[n - 1]))) else Ok((found, ""))
  }

  lemma {:induction false} BelowFrom(rows: seq<Row>, cursor: Option<Row>)
    ensures forall r :: r in Below(rows, cursor) ==> r in rows
  {
    if |rows| > 0 {
      BelowFrom(rows[1..], cursor);
    }
  }

  lemma {:induction false} BelowAll(rows: seq<Row>)
    ensures Below(rows, None) == rows
  {
    if |rows| > 0 {
      BelowAll(rows[1..]);
    }
  }

  /** Below a row of the list is exactly what follows it. */
  lemma {:induction false} BelowSuffix(rows: seq<Row>, i: nat)
    requires NewestFirst(rows) && i < |rows|
    ensures Below(rows, Some(rows[i])) == rows[i + 1..]
  {
    assert NewestFirst(rows[1..]) by {
      assert forall k :: 0 <= k < |rows| - 1 ==> rows[1..][k] == rows[k + 1];
    }
    if i == 0 {
      assert !Before(rows[0], rows[0]);
      EveryoneBelow(rows[1..], rows[0]);
    } else {
      assert Before(rows[i], rows[0]);
      NotBoth(rows[0], rows[i]);
      BelowSuffix(rows[1..], i - 1);
      assert rows[1..][i - 1] == rows[i] && rows[1..][i..] == rows[i + 1..];
    }
  }

  lemma NotBoth(a: Row, b: Row)
    requires Before(b, a)
    ensures !Before(a, b)
  {
  }

  lemma {:induction false} EveryoneBelow(rows: seq<Row>, cursor: Row)
    requires forall k :: 0 <= k < |rows| ==> Before(rows[k], cursor)
    ensures Below(rows, Some(cursor)) == rows
  {
    if |rows| > 0 {
      EveryoneBelow(rows[1..], cursor);
    }
  }

  /** A page from where i rows were listed lists the next ones. */
  lemma PageFrom(rows: seq<Row>, i: nat, cursor: string, limit: int)
    requires NewestFirst(rows) && i <= |rows|
    requires if i == 0 then cursor == "" else cursor == EncodeCursor(rows[i - 1])
    ensures var n := Limit(limit);
      Page(rows, cursor, limit) ==
        if i + n < |rows| then Ok((rows[i..i + n], EncodeCursor(rows[i + n - 1]))) else Ok((rows[i..], ""))
  {
    hide EncodeCursor, DecodeCursor, NewestFirst, Before, Below;
    var n := Limit(limit);
    if i == 0 {
      BelowAll(rows);
      assert DecodeCursor("") == Ok(None) by { NoCursor(); }
    } else {
      assert ValidRow(rows[i - 1]) by { RowValid(rows, i - 1); }
      CursorRoundTrip(rows[i - 1]);
      BelowSuffix(rows, i - 1);
    }
    var rest := rows[i..];
    if i + n < |rows| {
      assert Take(rest, n + 1) == rest[..n + 1];
      assert rest[..n + 1][..n] == rows[i..i + n];
      assert rest[..n + 1][n - 1] == rows[i + n - 1];
    }
  }

  lemma NoCursor()
    ensures DecodeCursor("") == Ok(None)
  {
  }

  lemma RowValid(rows: seq<Row>, i: nat)
    requires NewestFirst(rows) && i < |rows|
    ensures ValidRow(rows[i])
  {
  }

  /** Following cursors from "" until "" comes back ends, and lists every
      matching transaction exactly once, newest first. */
  method ListAll(rows: seq<Row>, limit: int) returns (listed: seq<Row>)
    requires NewestFirst(rows)
    ensures listed == rows
  {
    hide EncodeCursor, Page, NewestFirst;
    listed := [];
    var cursor := "";
    while true
      invariant |listed| <= |rows| && listed == rows[..|listed|]
      invariant |listed| > 0 ==> ValidRow(rows[|listed| - 1])
      invariant if |listed| == 0 then cursor == "" else cursor == EncodeCursor(rows[|listed| - 1])
      decreases |rows| - |listed|
    {
      PageFrom(rows, |listed|, cursor, limit);
      var page := Page(rows, cursor, limit);
      ghost var i, n := |listed|, Limit(limit);
      listed := listed + page.value.0;
      if page.value.1 == "" {
        return;
      }
      cursor := page.value.1;
      RowValid(rows, i + n - 1);
    }
  }

  // ----- the account filter -----

  function Children(ids: seq<int>, accs: map<int, Account>, p: int): seq<int> {
    if |ids| == 0 then []
    else if ParentOf(accs, ids[0]) == Some(p) then [ids[0]] + Children(ids[1..], accs, p)
    else Children(ids[1..], accs, p)
  }

  lemma {:induction false} ChildrenAre(ids: seq<int>, accs: map<int, Account>, p: int)
    requires Distinct(ids)
    ensures Distinct(Children(ids, accs, p))
    ensures forall x :: x in Children(ids, accs, p) <==> x in ids && ParentOf(accs, x) == Some(p)
  {
    if |ids| > 0 {
      assert Distinct(ids[1..]);
      ChildrenAre(ids[1..], accs, p);
      assert ids[0] !in ids[1..];
    }
  }

  /** Everything listed hangs from an earlier one, and the children of the
      first i are listed. */
  ghost predicate Walked(accs: map<int, Account>, rank: int -> nat, root: int, out: seq<int>, i: nat)
    requires Ranked(accs, rank)
  {
    i <= |out| && Distinct(out) && |out| > 0 && out[0] == root &&
    (forall k :: 0 <= k < |out| ==> root in Chain(accs, rank, out[k])) &&
    (forall k :: 1 <= k < |out| ==> out[k] in accs && ParentOf(accs, out[k]).Some? && ParentOf(accs, out[k]).value in out[..i]) &&
    (forall x :: x in accs && ParentOf(accs, x).Some? && ParentOf(accs, x).value in out[..i] ==> x in out)
  }

  /** On a ranked tree a child of the i-th is not listed yet. */
  lemma NotListed(accs: map<int, Account>, rank: int -> nat, root: int, out: seq<int>, i: nat, c: int)
    requires Ranked(accs, rank) && Walked(accs, rank, root, out, i) && i < |out| && ParentOf(accs, c) == Some(out[i])
    ensures c !in out && root in Chain(accs, rank, c)
  {
    hide Chain;
    ChainStep(accs, rank, c);
    ChainRank(accs, rank, out[i]);
    assert c != root;
    assert out[i] !in out[..i];
    forall k | 1 <= k < |out| ensures out[k] != c {
      assert ParentOf(accs, out[k]) != Some(out[i]);
    }
  }

  lemma Widened(ids: seq<int>, accs: map<int, Account>, rank: int -> nat, root: int, out: seq<int>, i: nat)
    requires Ranked(accs, rank) && Walked(accs, rank, root, out, i) && i < |out|
    requires Distinct(ids) && Elements(ids) == accs.Keys
    ensures Walked(accs, rank, root, out + Children(ids, accs, out[i]), i + 1)
  {
    hide Chain, Children, Distinct;
    var more := Children(ids, accs, out[i]);
    var wide := out + more;
    ChildrenAre(ids, accs, out[i]);
    assert wide[..i + 1] == out[..i] + [out[i]];
    forall c | c in more ensures c !in out && root in Chain(accs, rank, c) && c in accs {
      NotListed(accs, rank, root, out, i, c);
      assert c in Elements(ids);
    }
    DistinctConcat(out, more);
    forall k | |out| <= k < |wide| ensures wide[k] in more {
      assert wide[k] == more[k - |out|];
    }
    assert wide[..i + 1] == out[..i] + [out[i]] && forall k :: 0 <= k < |out| ==> wide[k] == out[k];
    forall x | x in accs && ParentOf(accs, x).Some? && ParentOf(accs, x).value in wide[..i + 1] ensures x in wide {
      if ParentOf(accs, x).value == out[i] {
        assert x in Elements(ids);
      }
    }
  }

  lemma {:induction false} DistinctSize(s: seq<int>)
    requires Distinct(s)
    ensures |Elements(s)| == |s|
  {
    if |s| > 0 {
      var front, last := s[..|s| - 1], s[|s| - 1];
      DistinctSize(front);
      assert s == front + [last];
      assert Elements(s) == Elements(front) + {last} && last !in Elements(front);
    }
  }

  lemma SubsetSize(s: set<int>, t: set<int>)
    requires s <= t
    ensures |s| <= |t|
  {
    assert t == s + (t - s);
  }

  /** At most the root and every account are listed. */
  lemma Bounded(accs: map<int, Account>, rank: int -> nat, root: int, out: seq<int>, i: nat)
    requires Ranked(accs, rank) && Walked(accs, rank, root, out, i)
    ensures |out| <= |accs.Keys| + 1
  {
    hide Chain;
    var rest := out[1..];
    assert Distinct(rest) by {
      assert forall k :: 0 <= k < |rest| ==> rest[k] == out[k + 1];
    }
    DistinctSize(rest);
    SubsetSize(Elements(rest), accs.Keys);
  }

  lemma {:induction false} Complete(accs: map<int, Account>, rank: int -> nat, root: int, out: seq<int>, x: int)
    requires Ranked(accs, rank) && Walked(accs, rank, root, out, |out|) && root in Chain(accs, rank, x)
    ensures x in out
    decreases rank(x)
  {
    hide Chain;
    ChainStep(accs, rank, x);
    assert out[..|out|] == out;
    if x == root {
      assert out[0] in out;
    } else {
      Complete(accs, rank, root, out, ParentOf(accs, x).value);
    }
  }

  /** descendants: the root, then the children of everything listed so far,
      until the growing list has been read to its end. On an acyclic tree it
      is the root's whole subtree, each account once. */
  method Descendants(ids: seq<int>, accs: map<int, Account>, root: int, ghost rank: int -> nat) returns (out: seq<int>)
    requires Ranked(accs, rank) && Distinct(ids) && Elements(ids) == accs.Keys
    ensures Distinct(out) && |out| > 0 && out[0] == root
    ensures forall x :: x in out <==> root in Chain(accs, rank, x)
  {
    hide Chain, Walked, Children;
    out := [root];
    assert Walked(accs, rank, root, out, 0) by { JustRoot(accs, rank, root); }
    var i := 0;
    Bounded(accs, rank, root, out, 0);
    while i < |out|
      invariant 0 <= i <= |out| <= |accs.Keys| + 1 && Walked(accs, rank, root, out, i)
      decreases |accs.Keys| + 1 - i
    {
      Widened(ids, accs, rank, root, out, i);
      out := out + Children(ids, accs, out[i]);
      i := i + 1;
      Bounded(accs, rank, root, out, i);
    }
    WalkedEnds(accs, rank, root, out);
  }

  lemma JustRoot(accs: map<int, Account>, rank: int -> nat, root: int)
    requires Ranked(accs, rank)
    ensures Walked(accs, rank, root, [root], 0)
  {
    ChainSelf(accs, rank, root);
  }

  lemma WalkedEnds(accs: map<int, Account>, rank: int -> nat, root: int, out: seq<int>)
    requires Ranked(accs, rank) && Walked(accs, rank, root, out, |out|)
    ensures Distinct(out) && |out| > 0 && out[0] == root
    ensures forall x :: x in out <==> root in Chain(accs, rank, x)
  {
    hide Chain;
    forall x | root in Chain(accs, rank, x) ensures x in out {
      Complete(accs, rank, root, out, x);
    }
  }
}
