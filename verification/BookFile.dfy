// Exporting a book and importing it again (ExportBook and ImportBook in
// internal/ledger/bookfile.go).
module BookFile {
  import opened Decimals
  import opened Sums
  import opened Core
  import opened Lines
  import opened ImportAccounts

  datatype FileLine = FileLine(account: int, commodity: string, amount: real, base: real)
  datatype FileTxn = FileTxn(date: int, lines: seq<FileLine>)
  datatype File = File(base: string, lock: Option<int>, accounts: seq<FileAccount>, keys: map<string, int>, txns: seq<FileTxn>)

  // ----- export -----

  function ExportLine(p: Posting): FileLine {
    FileLine(p.account, p.commodity, p.amount, p.base)
  }

  function ExportLines(ps: seq<Posting>): (r: seq<FileLine>)
    ensures |r| == |ps| && forall i :: 0 <= i < |ps| ==> r[i] == ExportLine(ps[i])
  {
    if |ps| == 0 then [] else ExportLines(ps[..|ps| - 1]) + [ExportLine(ps[|ps| - 1])]
  }

  // ORDER BY date, id: the stored order, which is by id, sorted by date.
  function Insert(sorted: seq<Txn>, t: Txn): seq<Txn> {
    if |sorted| == 0 || sorted[|sorted| - 1].date <= t.date then sorted + [t]
    else Insert(sorted[..|sorted| - 1], t) + [sorted[|sorted| - 1]]
  }

  function ByDate(txns: seq<Txn>): seq<Txn> {
    if |txns| == 0 then [] else Insert(ByDate(txns[..|txns| - 1]), txns[|txns| - 1])
  }

  function ExportTxns(txns: seq<Txn>): (r: seq<FileTxn>)
    ensures |r| == |txns| && forall i :: 0 <= i < |txns| ==> r[i] == FileTxn(txns[i].date, ExportLines(txns[i].postings))
  {
    if |txns| == 0 then [] else
      ExportTxns(txns[..|txns| - 1]) + [FileTxn(txns[|txns| - 1].date, ExportLines(txns[|txns| - 1].postings))]
  }

  function ExportAccounts(b: Book, order: seq<int>): (r: seq<FileAccount>)
    requires forall i :: 0 <= i < |order| ==> order[i] in b.accounts
    ensures |r| == |order| && forall i :: 0 <= i < |order| ==> r[i] == FileAccount(order[i], b.accounts[order[i]])
  {
    if |order| == 0 then [] else
      ExportAccounts(b, order[..|order| - 1]) + [FileAccount(order[|order| - 1], b.accounts[order[|order| - 1]])]
  }

  /** order is the accounts as they are listed, each once. */
  ghost predicate Listing(b: Book, order: seq<int>) {
    Distinct(order) && Elements(order) == b.accounts.Keys
  }

  function Export(b: Book, order: seq<int>): File
    requires Listing(b, order)
  {
    assert forall i :: 0 <= i < |order| ==> order[i] in Elements(order);
    File(b.base, b.lock, ExportAccounts(b, order), b.keys, ExportTxns(ByDate(b.txns)))
  }

  method ExportBook(b: Book, order: seq<int>) returns (f: File)
    requires Listing(b, order)
    ensures f == Export(b, order)
  {
    hide ByDate, ExportLines;
    assert forall i :: 0 <= i < |order| ==> order[i] in Elements(order);
    var accounts: seq<FileAccount> := [];
    for i := 0 to |order|
      invariant accounts == ExportAccounts(b, order[..i])
    {
      assert order[..i + 1][..i] == order[..i];
      accounts := accounts + [FileAccount(order[i], b.accounts[order[i]])];
    }
    assert order[..|order|] == order;
    var sorted := ByDate(b.txns);
    var txns: seq<FileTxn> := [];
    for i := 0 to |sorted|
      invariant txns == ExportTxns(sorted[..i])
    {
      assert sorted[..i + 1][..i] == sorted[..i];
      txns := txns + [FileTxn(sorted[i].date, ExportLines(sorted[i].postings))];
    }
    assert sorted[..|sorted|] == sorted;
    return File(b.base, b.lock, accounts, b.keys, txns);
  }

  // ----- import -----

  function ImportLine(ids: map<int, int>, l: FileLine): Result<Line> {
    if l.account in ids then Ok(Line(ids[l.account], l.commodity, l.amount, Some(l.base), None)) else Err(NotFound)
  }

  function ImportLines(ids: map<int, int>, ls: seq<FileLine>): Result<seq<Line>> {
    if |ls| == 0 then Ok([]) else
      var front :- ImportLines(ids, ls[..|ls| - 1]);
      var last :- ImportLine(ids, ls[|ls| - 1]);
      Ok(front + [last])
  }

  function ImportTxn(w: World, b: Book, ids: map<int, int>, t: FileTxn): Result<Book> {
    var lines :- ImportLines(ids, t.lines);
    var ps :- Prepare(Context(w, b, t.date, 0), lines);
    Ok(b.(txns := b.txns + [Txn(b.nextId, t.date, ps)], nextId := b.nextId + 1))
  }

  function ImportTxns(w: World, b: Book, ids: map<int, int>, ts: seq<FileTxn>): Result<Book> {
    if |ts| == 0 then Ok(b) else
      var before :- ImportTxns(w, b, ids, ts[..|ts| - 1]);
      ImportTxn(w, before, ids, ts[|ts| - 1])
  }

  function ImportKeys(keys: map<string, int>, ids: map<int, int>): map<string, int> {
    map k | k in keys && keys[k] in ids :: ids[keys[k]]
  }

  /** The new book with its accounts, before any transaction. */
  function Shell(f: File, i: Imported): Book {
    Book(f.base, None, i.made, ImportKeys(f.keys, i.ids), [], 1, i.next)
  }

  /** Archiving and the lock date come after the transactions, which they would
      refuse. */
  function Finish(f: File, i: Imported, b: Book): Book {
    b.(lock := f.lock, accounts := map a | a in b.accounts :: b.accounts[a].(archived := b.accounts[a].archived || a in i.archived))
  }

  method ImportFileLines(ids: map<int, int>, ls: seq<FileLine>) returns (r: Result<seq<Line>>)
    ensures r == ImportLines(ids, ls)
  {
    var out: seq<Line> := [];
    for i := 0 to |ls|
      invariant ImportLines(ids, ls[..i]) == Ok(out)
    {
      assert ls[..i + 1][..i] == ls[..i];
      var l := ImportLine(ids, ls[i]);
      if l.Err? {
        LinesFail(ids, ls, i);
        return Err(l.error);
      }
      out := out + [l.value];
    }
    assert ls[..|ls|] == ls;
    return Ok(out);
  }

  lemma {:induction false} LinesFail(ids: map<int, int>, ls: seq<FileLine>, i: nat)
    requires i < |ls| && ImportLines(ids, ls[..i]).Ok? && ImportLine(ids, ls[i]).Err?
    ensures ImportLines(ids, ls) == Err(ImportLine(ids, ls[i]).error)
  {
    var n := |ls| - 1;
    if i < n {
      assert ls[..n][..i] == ls[..i];
      LinesFail(ids, ls[..n], i);
    }
  }

  lemma {:induction false} TxnsFail(w: World, b: Book, ids: map<int, int>, ts: seq<FileTxn>, i: nat)
    requires i < |ts| && ImportTxns(w, b, ids, ts[..i]).Ok?
    requires ImportTxn(w, ImportTxns(w, b, ids, ts[..i]).value, ids, ts[i]).Err?
    ensures ImportTxns(w, b, ids, ts).Err?
  {
    hide ImportTxn;
    var n := |ts| - 1;
    if i < n {
      assert ts[..n][..i] == ts[..i];
      TxnsFail(w, b, ids, ts[..n], i);
    }
  }

  predicate Renumbered(f: File, i: Imported) {
    i.ids.Keys == ByIds(f.accounts).Keys && Mapped(ByIds(f.accounts), i.ids, i.made, i.next)
  }

  ghost predicate ArchivedIn(f: File, i: Imported) {
    ByIds(f.accounts).Keys == i.ids.Keys &&
    forall n :: n in i.archived <==> exists a :: a in i.ids && i.ids[a] == n && ByIds(f.accounts)[a].archived
  }

  ghost predicate GoodAccounts(f: File) {
    DistinctFileIds(f.accounts) && ParentsPresent(ByIds(f.accounts)) && !Cyclic(ByIds(f.accounts))
  }

  /** What an import may return: a book, when the base is a currency, the
      accounts hang together and every transaction passes the line rules on
      top of those before it; otherwise an error, and no book. */
  ghost predicate Imports(w: World, f: File, i: Imported, r: Result<Book>) {
    (r.Ok? <==> CurrencyCode(w, f.base) && GoodAccounts(f) && ImportTxns(w, Shell(f, i), i.ids, f.txns).Ok?) &&
    (CurrencyCode(w, f.base) && GoodAccounts(f) ==> Renumbered(f, i) && ArchivedIn(f, i)) &&
    (r.Ok? ==> r.value == Finish(f, i, ImportTxns(w, Shell(f, i), i.ids, f.txns).value))
  }

  /** All or nothing: a book comes out only when every part went in. */
  method ImportBook(w: World, f: File) returns (r: Result<Book>, imported: Imported)
    ensures Imports(w, f, imported, r)
  {
    hide Prepare, Mapped, Cyclic, ByIds, ImportLines;
    imported := Imported(map[], map[], [], 1);
    if !CurrencyCode(w, f.base) {
      return Err(UnknownCommodity), imported;
    }
    var accounts := Import(f.accounts);
    if accounts.Err? {
      return Err(accounts.error), imported;
    }
    var i := accounts.value;
    imported := i;
    var b := Shell(f, i);
    assert f.txns[..0] == [];
    for k := 0 to |f.txns|
      invariant ImportTxns(w, Shell(f, i), i.ids, f.txns[..k]) == Ok(b)
    {
      var t := f.txns[k];
      assert f.txns[..k + 1][..k] == f.txns[..k];
      var lines := ImportFileLines(i.ids, t.lines);
      if lines.Err? {
        TxnsFail(w, Shell(f, i), i.ids, f.txns, k);
        return Err(lines.error), imported;
      }
      var ps := PrepareLines(Context(w, b, t.date, 0), lines.value);
      if ps.Err? {
        TxnsFail(w, Shell(f, i), i.ids, f.txns, k);
        return Err(ps.error), imported;
      }
      b := b.(txns := b.txns + [Txn(b.nextId, t.date, ps.value)], nextId := b.nextId + 1);
    }
    assert f.txns[..|f.txns|] == f.txns;
    return Ok(Finish(f, i, b)), imported;
  }

  // ----- the round trip -----

  /** The line rules, read off a stored posting: what the import asks of it. */
  predicate KeepsRules(w: World, b: Book, p: Posting) {
    p.account in b.accounts && p.commodity in w.commodities && p.commodity != "" &&
    var a := b.accounts[p.account];
    !a.placeholder && (a.commodity.Some? ==> a.commodity.value == p.commodity) &&
    p.amount != 0.0 && HasPrecision(p.amount, w.Places(p.commodity)) &&
    if p.commodity == b.base then p.base == p.amount
    else HasPrecision(p.base, w.Places(b.base)) && Sign(p.base) * Sign(p.amount) >= 0
  }

  function Renamed(ids: map<int, int>, p: Posting): Posting {
    p.(account := if p.account in ids then ids[p.account] else p.account)
  }

  function RenamedAll(ids: map<int, int>, ps: seq<Posting>): (r: seq<Posting>)
    ensures |r| == |ps| && forall i :: 0 <= i < |ps| ==> r[i] == Renamed(ids, ps[i])
  {
    if |ps| == 0 then [] else RenamedAll(ids, ps[..|ps| - 1]) + [Renamed(ids, ps[|ps| - 1])]
  }

  /** The book being filled holds the exported accounts under their new ids,
      none archived yet. */
  predicate Target(b: Book, b1: Book, ids: map<int, int>) {
    b1.base == b.base && ids.Keys == b.accounts.Keys &&
    forall a :: a in b.accounts ==> ids[a] in b1.accounts && b1.accounts[ids[a]] == Placed(b.accounts[a], ids)
  }

  /** The line the import reads for a stored posting. */
  function Reread(ids: map<int, int>, p: Posting): Line
    requires p.account in ids
  {
    Line(ids[p.account], p.commodity, p.amount, Some(p.base), None)
  }

  /** A stored posting comes back as itself exactly when it keeps the rules.
      (A base-currency posting's own base amount is not read: a stored one
      equals its amount.) */
  lemma LineComesBack(w: World, b: Book, b1: Book, ids: map<int, int>, date: int, p: Posting)
    requires Target(b, b1, ids) && p.account in b.accounts && p.account in ids && p.commodity != ""
    requires p.commodity == b.base ==> p.base == p.amount
    ensures ImportLine(ids, ExportLine(p)) == Ok(Reread(ids, p))
    ensures KeepsRules(w, b, p) ==> ResolveLine(Context(w, b1, date, 0), Reread(ids, p)) == Ok(Renamed(ids, p))
    ensures !KeepsRules(w, b, p) ==> ResolveLine(Context(w, b1, date, 0), Reread(ids, p)).Err?
  {
    hide HasPrecision, CostBasisOf, Converted;
  }

  predicate AllKeep(w: World, b: Book, ps: seq<Posting>) {
    forall i :: 0 <= i < |ps| ==> KeepsRules(w, b, ps[i])
  }

  /** What every stored posting has besides the line rules. */
  predicate Stored(b: Book, ps: seq<Posting>) {
    forall i :: 0 <= i < |ps| ==>
      ps[i].account in b.accounts && ps[i].commodity != "" && (ps[i].commodity == b.base ==> ps[i].base == ps[i].amount)
  }

  function RereadAll(ids: map<int, int>, ps: seq<Posting>): (r: seq<Line>)
    requires forall i :: 0 <= i < |ps| ==> ps[i].account in ids
    ensures |r| == |ps|
  {
    if |ps| == 0 then [] else RereadAll(ids, ps[..|ps| - 1]) + [Reread(ids, ps[|ps| - 1])]
  }

  lemma {:induction false} LinesComeBack(w: World, b: Book, b1: Book, ids: map<int, int>, date: int, ps: seq<Posting>)
    requires Target(b, b1, ids) && Stored(b, ps) && forall i :: 0 <= i < |ps| ==> ps[i].account in ids
    ensures ImportLines(ids, ExportLines(ps)) == Ok(RereadAll(ids, ps))
    ensures AllKeep(w, b, ps) ==> ResolveAll(Context(w, b1, date, 0), RereadAll(ids, ps)) == Ok(RenamedAll(ids, ps))
    ensures !AllKeep(w, b, ps) ==> ResolveAll(Context(w, b1, date, 0), RereadAll(ids, ps)).Err?
  {
    hide ResolveLine, KeepsRules, Target, ExportLine, ImportLine, Renamed, Reread;
    if |ps| > 0 {
      var n := |ps| - 1;
      LinesComeBack(w, b, b1, ids, date, ps[..n]);
      LineComesBack(w, b, b1, ids, date, ps[n]);
      assert ExportLines(ps)[..n] == ExportLines(ps[..n]);
      var front := RereadAll(ids, ps[..n]);
      assert (front + [Reread(ids, ps[n])])[..n] == front;
      assert AllKeep(w, b, ps) <==> AllKeep(w, b, ps[..n]) && KeepsRules(w, b, ps[n]);
    }
  }

  lemma TargetIds(b: Book, b1: Book, ids: map<int, int>, ps: seq<Posting>)
    requires Target(b, b1, ids) && Stored(b, ps)
    ensures forall i :: 0 <= i < |ps| ==> ps[i].account in ids
  {
    forall i | 0 <= i < |ps| ensures ps[i].account in ids {
      assert ps[i].account in ids.Keys;
    }
  }

  lemma {:induction false} RenamedSum(ids: map<int, int>, ps: seq<Posting>)
    ensures Sum(RenamedAll(ids, ps), Base()) == Sum(ps, Base())
  {
    if |ps| > 0 {
      RenamedSum(ids, ps[..|ps| - 1]);
      SumAppend(RenamedAll(ids, ps[..|ps| - 1]), Renamed(ids, ps[|ps| - 1]), Base());
    }
  }

  /** A balanced transaction imports exactly when its postings keep the rules,
      as the same lines in order with no FX line. */
  lemma TxnComesBack(w: World, b: Book, b1: Book, ids: map<int, int>, t: Txn)
    requires Target(b, b1, ids) && Stored(b, t.postings) && Balanced(t) && |t.postings| >= 2
    ensures var r := ImportTxn(w, b1, ids, FileTxn(t.date, ExportLines(t.postings)));
      (r.Ok? <==> AllKeep(w, b, t.postings)) &&
      (r.Ok? ==> r.value == b1.(txns := b1.txns + [Txn(b1.nextId, t.date, RenamedAll(ids, t.postings))], nextId := b1.nextId + 1))
  {
    hide Target, AllKeep, Stored, ResolveAll, ExportLines, ImportLines, RenamedAll, RereadAll, Sum;
    TargetIds(b, b1, ids, t.postings);
    LinesComeBack(w, b, b1, ids, t.date, t.postings);
    RenamedSum(ids, t.postings);
  }

  function ImportedTxns(ids: map<int, int>, ts: seq<Txn>): (r: seq<Txn>)
    ensures |r| == |ts|
    ensures forall i :: 0 <= i < |ts| ==> r[i] == Txn(i + 1, ts[i].date, RenamedAll(ids, ts[i].postings))
  {
    if |ts| == 0 then [] else
      ImportedTxns(ids, ts[..|ts| - 1]) +
      [Txn(|ts|, ts[|ts| - 1].date, RenamedAll(ids, ts[|ts| - 1].postings))]
  }

  predicate Exportable(b: Book, ts: seq<Txn>) {
    forall i :: 0 <= i < |ts| ==> |ts[i].postings| >= 2 && Balanced(ts[i]) && Stored(b, ts[i].postings)
  }

  predicate RulesKept(w: World, b: Book, ts: seq<Txn>) {
    forall i :: 0 <= i < |ts| ==> AllKeep(w, b, ts[i].postings)
  }

  lemma {:induction false} TxnsComeBack(w: World, b: Book, b1: Book, ids: map<int, int>, ts: seq<Txn>)
    requires Target(b, b1, ids) && Exportable(b, ts) && b1.txns == [] && b1.nextId == 1
    ensures var r := ImportTxns(w, b1, ids, ExportTxns(ts));
      (r.Ok? <==> RulesKept(w, b, ts)) &&
      (r.Ok? ==> r.value == b1.(txns := ImportedTxns(ids, ts), nextId := |ts| + 1))
  {
    hide ImportTxn, Balanced, AllKeep, Stored, ExportLines, RenamedAll;
    if |ts| > 0 {
      var n := |ts| - 1;
      TxnsComeBack(w, b, b1, ids, ts[..n]);
      assert ExportTxns(ts)[..n] == ExportTxns(ts[..n]);
      if RulesKept(w, b, ts[..n]) {
        var before := ImportTxns(w, b1, ids, ExportTxns(ts[..n])).value;
        assert Target(b, before, ids);
        TxnComesBack(w, b, before, ids, ts[n]);
      }
    }
  }
}
