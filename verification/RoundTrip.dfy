// Importing an exported book gives the same book under new account ids; and
// what the import makes of any file.
module RoundTrip {
  import opened Decimals
  import opened Sums
  import opened Core
  import opened Lines
  import opened Journal
  import opened ImportAccounts
  import opened BookFile
  import Runs

  // ----- the order of the file -----

  predicate Before(t: Txn, u: Txn) {
    t.date < u.date || (t.date == u.date && t.id < u.id)
  }

  predicate InOrder(ts: seq<Txn>) {
    forall i, j :: 0 <= i < j < |ts| ==> Before(ts[i], ts[j])
  }

  lemma {:induction false} InsertKeeps(ts: seq<Txn>, t: Txn)
    ensures multiset(Insert(ts, t)) == multiset(ts) + multiset{t}
  {
    if |ts| == 0 || ts[|ts| - 1].date <= t.date {
    } else {
      var n := |ts| - 1;
      InsertKeeps(ts[..n], t);
      assert ts == ts[..n] + [ts[n]];
    }
  }

  lemma {:induction false} InsertOrders(ts: seq<Txn>, t: Txn)
    requires InOrder(ts) && forall u :: u in ts ==> u.id < t.id
    ensures InOrder(Insert(ts, t))
  {
    if |ts| == 0 || ts[|ts| - 1].date <= t.date {
      forall i | 0 <= i < |ts| ensures Before(ts[i], t) {
        assert ts[i] in ts;
        assert i < |ts| - 1 ==> Before(ts[i], ts[|ts| - 1]);
      }
    } else {
      var n := |ts| - 1;
      InsertOrders(ts[..n], t);
      InsertKeeps(ts[..n], t);
      var front := Insert(ts[..n], t);
      assert ts[n] in ts;
      forall i | 0 <= i < |front| ensures Before(front[i], ts[n]) {
        assert front[i] in multiset(front);
        assert front[i] == t || front[i] in ts[..n];
      }
    }
  }

  /** The file holds every transaction once, by date and then id. */
  lemma {:induction false} ByDateSorts(ts: seq<Txn>)
    requires forall i, j :: 0 <= i < j < |ts| ==> ts[i].id < ts[j].id
    ensures multiset(ByDate(ts)) == multiset(ts) && InOrder(ByDate(ts))
  {
    if |ts| > 0 {
      var n := |ts| - 1;
      ByDateSorts(ts[..n]);
      assert ts == ts[..n] + [ts[n]];
      forall u | u in ByDate(ts[..n]) ensures u.id < ts[n].id {
        assert u in multiset(ts[..n]);
      }
      InsertOrders(ByDate(ts[..n]), ts[n]);
      InsertKeeps(ByDate(ts[..n]), ts[n]);
    }
  }

  function Dated(t: Txn, on: int): seq<Posting> {
    if t.date <= on then t.postings else []
  }

  lemma UptoLast(ts: seq<Txn>, t: Txn, on: int, w: Posting -> real)
    ensures Sum(Upto(ts + [t], on), w) == Sum(Upto(ts, on), w) + Sum(Dated(t, on), w)
  {
    assert (ts + [t])[..|ts|] == ts;
    SumConcat(Upto(ts, on), Dated(t, on), w);
  }

  lemma UptoNone(on: int, w: Posting -> real)
    ensures Sum(Upto([], on), w) == 0.0
  {
  }

  lemma {:induction false} InsertSums(ts: seq<Txn>, t: Txn, on: int, w: Posting -> real)
    ensures Sum(Upto(Insert(ts, t), on), w) == Sum(Upto(ts, on), w) + Sum(Dated(t, on), w)
  {
    hide Upto, Sum, Dated;
    if |ts| == 0 || ts[|ts| - 1].date <= t.date {
      UptoLast(ts, t, on, w);
    } else {
      var n := |ts| - 1;
      InsertSums(ts[..n], t, on, w);
      UptoLast(Insert(ts[..n], t), ts[n], on, w);
      UptoLast(ts[..n], ts[n], on, w);
      assert ts == ts[..n] + [ts[n]];
    }
  }

  lemma {:induction false} ByDateSums(ts: seq<Txn>, on: int, w: Posting -> real)
    ensures Sum(Upto(ByDate(ts), on), w) == Sum(Upto(ts, on), w)
  {
    hide Upto, Sum, Dated, Insert;
    if |ts| == 0 {
      assert ByDate(ts) == ts;
    } else {
      var n := |ts| - 1;
      ByDateSums(ts[..n], on, w);
      InsertSums(ByDate(ts[..n]), ts[n], on, w);
      UptoLast(ts[..n], ts[n], on, w);
      assert ts == ts[..n] + [ts[n]];
    }
  }

  // ----- sums under new ids -----

  function Image(ids: map<int, int>, s: set<int>): set<int> {
    set a | a in s && a in ids :: ids[a]
  }

  /** A weight and its twin on the renamed postings. */
  ghost predicate Twins(ids: map<int, int>, w: Posting -> real, w': Posting -> real) {
    forall p: Posting :: p.account in ids ==> w'(Renamed(ids, p)) == w(p)
  }

  predicate Within(ids: map<int, int>, ps: seq<Posting>) {
    forall i :: 0 <= i < |ps| ==> ps[i].account in ids
  }

  lemma ImageTwins(ids: map<int, int>, s: set<int>, commodity: string)
    requires Injective(ids) && s <= ids.Keys
    ensures Twins(ids, AmountOf(s, commodity), AmountOf(Image(ids, s), commodity))
    ensures Twins(ids, BaseOf(s), BaseOf(Image(ids, s)))
  {
    forall p: Posting | p.account in ids ensures ids[p.account] in Image(ids, s) <==> p.account in s {
      if ids[p.account] in Image(ids, s) {
        var a :| a in s && a in ids && ids[a] == ids[p.account];
        assert a == p.account;
      }
    }
  }

  lemma {:induction false} RenamedSums(ids: map<int, int>, ps: seq<Posting>, w: Posting -> real, w': Posting -> real)
    requires Twins(ids, w, w') && Within(ids, ps)
    ensures Sum(RenamedAll(ids, ps), w') == Sum(ps, w)
  {
    hide Renamed;
    if |ps| > 0 {
      var n := |ps| - 1;
      RenamedSums(ids, ps[..n], w, w');
      SumAppend(RenamedAll(ids, ps[..n]), Renamed(ids, ps[n]), w');
    }
  }

  lemma DatedSums(ids: map<int, int>, t: Txn, id: int, on: int, w: Posting -> real, w': Posting -> real)
    requires Twins(ids, w, w') && Within(ids, t.postings)
    ensures Sum(Dated(Txn(id, t.date, RenamedAll(ids, t.postings)), on), w') == Sum(Dated(t, on), w)
  {
    hide RenamedAll, Twins, Within;
    RenamedSums(ids, t.postings, w, w');
  }

  lemma {:induction false} ImportedSums(ids: map<int, int>, ts: seq<Txn>, on: int, w: Posting -> real,
      w': Posting -> real)
    requires Twins(ids, w, w') && forall i :: 0 <= i < |ts| ==> Within(ids, ts[i].postings)
    ensures Sum(Upto(ImportedTxns(ids, ts), on), w') == Sum(Upto(ts, on), w)
  {
    hide RenamedAll, Twins, Within, Upto, Sum;
    if |ts| == 0 {
      UptoNone(on, w);
      UptoNone(on, w');
      assert ts == [];
    } else {
      var n := |ts| - 1;
      ImportedSums(ids, ts[..n], on, w, w');
      DatedSums(ids, ts[n], n + 1, on, w, w');
      UptoLast(ImportedTxns(ids, ts[..n]), Txn(n + 1, ts[n].date, RenamedAll(ids, ts[n].postings)), on, w');
      UptoLast(ts[..n], ts[n], on, w);
      assert ts == ts[..n] + [ts[n]];
    }
  }

  // ----- the accounts -----

  lemma ExportedAccount(b: Book, order: seq<int>, accts: seq<FileAccount>, a: int)
    requires Listing(b, order) && |accts| == |order| && DistinctFileIds(accts)
    requires forall i :: 0 <= i < |order| ==> order[i] in b.accounts && accts[i] == FileAccount(order[i], b.accounts[order[i]])
    ensures a in ByIds(accts) <==> a in b.accounts
    ensures a in b.accounts ==> ByIds(accts)[a] == b.accounts[a]
  {
    hide ByIds;
    ByIdsAre(accts);
    assert a in ByIds(accts).Keys <==> a in FileIds(accts);
    if a in b.accounts {
      assert a in Elements(order);
      var i :| 0 <= i < |order| && order[i] == a;
      assert accts[i] in accts;
      assert accts[i].id in FileIds(accts);
    }
    if a in FileIds(accts) {
      var f :| f in accts && f.id == a;
      assert a in b.accounts;
    }
  }

  lemma ExportedAccounts(b: Book, order: seq<int>)
    requires Listing(b, order)
    ensures DistinctFileIds(Export(b, order).accounts) && ByIds(Export(b, order).accounts) == b.accounts
  {
    hide ByIds, ByDate, ExportTxns;
    var accts := Export(b, order).accounts;
    assert forall i :: 0 <= i < |order| ==> order[i] in Elements(order);
    forall a ensures a in ByIds(accts) <==> a in b.accounts
      ensures a in b.accounts ==> ByIds(accts)[a] == b.accounts[a]
    {
      hide Listing;
      ExportedAccount(b, order, accts, a);
    }
  }

  lemma ShellTarget(b: Book, f: File, i: Imported)
    requires f.base == b.base && ByIds(f.accounts) == b.accounts && Renumbered(f, i)
    ensures Target(b, Shell(f, i), i.ids)
  {
    forall a | a in b.accounts ensures i.ids[a] in i.made && i.made[i.ids[a]] == Placed(b.accounts[a], i.ids) {
      assert a in i.ids;
      assert Right(b.accounts, i.ids, i.made, i.next, a);
    }
  }

  // ----- the theorem -----

  /** The account with its parent under the new ids. */
  function Moved(a: Account, ids: map<int, int>): Account {
    a.(parent := if a.parent.Some? && a.parent.value in ids then Some(ids[a.parent.value]) else None)
  }

  /** The same book up to an account renaming that commutes with parent: every
      transaction in (date, id) order with its lines in order. */
  predicate SameBook(b: Book, r: Book, ids: map<int, int>) {
    r.base == b.base && r.lock == b.lock && ids.Keys == b.accounts.Keys && Injective(ids) &&
    r.accounts.Keys == NewIds(ids) &&
    (forall a :: a in b.accounts ==> ids[a] in r.accounts && r.accounts[ids[a]] == Moved(b.accounts[a], ids)) &&
    r.keys.Keys == b.keys.Keys && (forall k :: k in b.keys ==> b.keys[k] in ids && r.keys[k] == ids[b.keys[k]]) &&
    r.txns == ImportedTxns(ids, ByDate(b.txns))
  }

  /** Archived again exactly where it was archived. */
  lemma AccountsFinished(b: Book, f: File, i: Imported, b1: Book, a: int)
    requires Renumbered(f, i) && ArchivedIn(f, i) && ByIds(f.accounts) == b.accounts && b1.accounts == i.made
    requires a in b.accounts
    ensures a in i.ids && i.ids[a] in b1.accounts
    ensures Finish(f, i, b1).accounts[i.ids[a]] == Moved(b.accounts[a], i.ids)
  {
    hide ByIds;
    assert a in i.ids.Keys;
    assert Right(b.accounts, i.ids, i.made, i.next, a);
    if i.ids[a] in i.archived {
      var c :| c in i.ids && i.ids[c] == i.ids[a] && b.accounts[c].archived;
      assert c == a;
    }
  }

  lemma KeysFinished(b: Book, ids: map<int, int>)
    requires ids.Keys == b.accounts.Keys && forall k :: k in b.keys ==> b.keys[k] in b.accounts
    ensures ImportKeys(b.keys, ids).Keys == b.keys.Keys
    ensures forall k :: k in b.keys ==> b.keys[k] in ids && ImportKeys(b.keys, ids)[k] == ids[b.keys[k]]
  {
    forall k | k in b.keys ensures b.keys[k] in ids {
      assert b.keys[k] in ids.Keys;
    }
  }

  lemma Finished(b: Book, f: File, i: Imported, order: seq<int>, ts: seq<Txn>, next: int)
    requires Listing(b, order) && f == Export(b, order) && Renumbered(f, i) && ArchivedIn(f, i)
    requires ByIds(f.accounts) == b.accounts && forall k :: k in b.keys ==> b.keys[k] in b.accounts
    requires ts == ImportedTxns(i.ids, ByDate(b.txns))
    ensures SameBook(b, Finish(f, i, Shell(f, i).(txns := ts, nextId := next)), i.ids)
  {
    hide ByDate, ImportedTxns, ExportTxns, ByIds, ImportKeys, ArchivedIn, Moved, Right, ParentBelow;
    var b1 := Shell(f, i).(txns := ts, nextId := next);
    forall a | a in b.accounts
      ensures a in i.ids && i.ids[a] in b1.accounts && Finish(f, i, b1).accounts[i.ids[a]] == Moved(b.accounts[a], i.ids)
    {
      AccountsFinished(b, f, i, b1, a);
    }
    KeysFinished(b, i.ids);
  }

  /** What the round trip is promised for: a sound book in a currency, its
      parents present and acyclic, its codes not empty. */
  ghost predicate Portable(w: World, b: Book) {
    Sound(w, b) && CurrencyCode(w, b.base) && ParentsPresent(b.accounts) && !Cyclic(b.accounts) && "" !in w.commodities
  }

  lemma SoundExportable(w: World, b: Book)
    requires Sound(w, b) && "" !in w.commodities
    ensures Exportable(b, ByDate(b.txns))
    ensures RulesKept(w, b, ByDate(b.txns)) <==> RulesKept(w, b, b.txns)
  {
    hide ByDate, KeepsRules, Balanced;
    ByDateSorts(b.txns);
    var ts := ByDate(b.txns);
    forall i | 0 <= i < |ts| ensures |ts[i].postings| >= 2 && Balanced(ts[i]) && Stored(b, ts[i].postings) {
      assert ts[i] in multiset(ts);
      assert SoundTxn(w, b, ts[i]);
      forall k | 0 <= k < |ts[i].postings| ensures Proper(w, b, ts[i].postings[k]) {
        assert ts[i].postings[k] in ts[i].postings;
      }
    }
    forall i | 0 <= i < |ts| ensures ts[i] in b.txns {
      assert ts[i] in multiset(ts);
    }
    forall i | 0 <= i < |b.txns| ensures b.txns[i] in ts {
      assert b.txns[i] in multiset(b.txns);
    }
    assert RulesKept(w, b, ts) <==> forall t :: t in ts ==> AllKeep(w, b, t.postings);
    assert RulesKept(w, b, b.txns) <==> forall t :: t in b.txns ==> AllKeep(w, b, t.postings);
  }

  /** The round trip: an exported book imports exactly when each of its stored
      postings keeps the line rules, and then it is the same book again, sound
      as before. */
  lemma BookComesBack(w: World, b: Book, order: seq<int>, i: Imported, r: Result<Book>)
    requires Portable(w, b) && Listing(b, order) && Imports(w, Export(b, order), i, r)
    ensures r.Ok? <==> RulesKept(w, b, b.txns)
    ensures r.Ok? ==> SameBook(b, r.value, i.ids) && Sound(w, r.value)
  {
    hide Sound, ByDate, RulesKept, ImportTxns, ExportTxns, ImportedTxns, Finish, Cyclic, ByIds, Renumbered, ArchivedIn,
      SameBook, Exportable, Target, Shell;
    var f := Export(b, order);
    ExportedAccounts(b, order);
    ShellTarget(b, f, i);
    SoundExportable(w, b);
    assert Shell(f, i).txns == [] && Shell(f, i).nextId == 1 by { ShellEmpty(f, i); }
    TxnsComeBack(w, b, Shell(f, i), i.ids, ByDate(b.txns));
    if r.Ok? {
      assert forall k :: k in b.keys ==> b.keys[k] in b.accounts by { SoundKeys(w, b); }
      Finished(b, f, i, order, ImportedTxns(i.ids, ByDate(b.txns)), |ByDate(b.txns)| + 1);
      ImportedSoundIff(w, f, i, r);
      SoundFits(w, b, f);
    }
  }

  lemma SoundFits(w: World, b: Book, f: File)
    requires Sound(w, b) && ByIds(f.accounts) == b.accounts && f.keys == b.keys
    ensures FitFile(w, f)
  {
  }

  lemma ShellEmpty(f: File, i: Imported)
    ensures Shell(f, i).txns == [] && Shell(f, i).nextId == 1
  {
  }

  lemma SoundKeys(w: World, b: Book)
    requires Sound(w, b)
    ensures forall k :: k in b.keys ==> b.keys[k] in b.accounts
  {
  }

  /** Every balance agrees: any set of accounts, in any commodity or in base,
      at any date. */
  lemma BalancesComeBack(w: World, b: Book, r: Book, ids: map<int, int>, s: set<int>, commodity: string, on: int)
    requires Sound(w, b) && SameBook(b, r, ids) && s <= b.accounts.Keys
    ensures Sum(Upto(r.txns, on), AmountOf(Image(ids, s), commodity)) == Sum(Upto(b.txns, on), AmountOf(s, commodity))
    ensures Sum(Upto(r.txns, on), BaseOf(Image(ids, s))) == Sum(Upto(b.txns, on), BaseOf(s))
  {
    hide ByDate, ImportedTxns, Upto, Sum, Twins, RenamedAll;
    var ts := ByDate(b.txns);
    ByDateSorts(b.txns);
    forall i | 0 <= i < |ts| ensures Within(ids, ts[i].postings) {
      assert ts[i] in multiset(ts);
      assert SoundTxn(w, b, ts[i]);
      forall k | 0 <= k < |ts[i].postings| ensures ts[i].postings[k].account in ids {
        assert ts[i].postings[k] in ts[i].postings;
        assert Proper(w, b, ts[i].postings[k]);
        assert ts[i].postings[k].account in ids.Keys;
      }
    }
    ImageTwins(ids, s, commodity);
    ImportedSums(ids, ts, on, AmountOf(s, commodity), AmountOf(Image(ids, s), commodity));
    ImportedSums(ids, ts, on, BaseOf(s), BaseOf(Image(ids, s)));
    ByDateSums(b.txns, on, AmountOf(s, commodity));
    ByDateSums(b.txns, on, BaseOf(s));
  }

  // ----- what the import makes of any file -----

  lemma {:induction false} ImportTxnsSound(w: World, b: Book, ids: map<int, int>, ts: seq<FileTxn>)
    requires KeysKnown(w, b) && b.txns == [] && b.nextId == 1 && ImportTxns(w, b, ids, ts).Ok?
    ensures var r := ImportTxns(w, b, ids, ts).value;
      r == b.(txns := r.txns, nextId := |ts| + 1) && |r.txns| == |ts| &&
      (forall i :: 0 <= i < |ts| ==> r.txns[i].id == i + 1 && r.txns[i].date == ts[i].date && SoundTxn(w, r, r.txns[i])) &&
      AllPrecise(w, r)
  {
    hide Prepare, Balanced, Proper, Precise, ImportLines;
    if |ts| > 0 {
      var n := |ts| - 1;
      ImportTxnsSound(w, b, ids, ts[..n]);
      var b1 := ImportTxns(w, b, ids, ts[..n]).value;
      var c := Context(w, b1, ts[n].date, 0);
      var lines := ImportLines(ids, ts[n].lines).value;
      var ps := Prepare(c, lines).value;
      assert ImportTxn(w, b1, ids, ts[n]).Ok?;
      ImportedTxnSound(c, lines, n + 1);
      var r := ImportTxns(w, b, ids, ts).value;
      forall i | 0 <= i < |ts| ensures SoundTxn(w, r, r.txns[i]) {
        SoundTxnKept(w, b1, r, if i < n then b1.txns[i] else Txn(n + 1, ts[n].date, ps));
      }
      forall t, p | t in r.txns && p in t.postings ensures Precise(w, r.base, p) {
        assert t in b1.txns || t == r.txns[n];
      }
    }
  }

  lemma ImportedTxnSound(c: Context, lines: seq<Line>, id: int)
    requires KeysKnown(c.w, c.b) && AllPrecise(c.w, c.b) && Prepare(c, lines).Ok?
    ensures var ps := Prepare(c, lines).value;
      SoundTxn(c.w, c.b, Txn(id, c.date, ps)) && forall p :: p in ps ==> Precise(c.w, c.b.base, p)
  {
    hide Prepare, ResolveAll, Proper, Precise, Unit, Abs;
    PreciseBases(c.w, c.b);
    PreparedBalances(c, lines);
    PreparedPrecise(c, lines);
  }

  lemma ShellKeys(w: World, f: File, i: Imported)
    requires CurrencyCode(w, f.base) && Renumbered(f, i)
    ensures KeysKnown(w, Shell(f, i))
  {
    hide ByIds;
    forall a | a in i.ids ensures i.ids[a] in i.made {
      assert Right(ByIds(f.accounts), i.ids, i.made, i.next, a);
    }
  }

  /** Whatever the file says, an imported book holds only transactions of at
      least two postings summing to zero, every amount on its grid. */
  lemma ImportedBookSound(w: World, f: File, i: Imported, r: Result<Book>)
    requires Imports(w, f, i, r) && r.Ok?
    ensures |r.value.txns| == |f.txns| && AllPrecise(w, r.value) && Ordered(r.value)
    ensures forall t :: t in r.value.txns ==> SoundTxn(w, r.value, t)
  {
    hide ImportTxns, Precise, ArchivedIn, ByIds, Balanced, Proper, KeysKnown, Renumbered, Cyclic;
    ShellKeys(w, f, i);
    ShellEmpty(f, i);
    ImportTxnsSound(w, Shell(f, i), i.ids, f.txns);
    var b1 := ImportTxns(w, Shell(f, i), i.ids, f.txns).value;
    assert b1.txns == r.value.txns && b1.base == r.value.base;
    forall t | t in b1.txns ensures SoundTxn(w, r.value, t) {
      FinishedKeeps(w, f, i, b1, t);
    }
  }

  lemma FinishedKeeps(w: World, f: File, i: Imported, b1: Book, t: Txn)
    requires SoundTxn(w, b1, t)
    ensures SoundTxn(w, Finish(f, i, b1), t)
  {
    hide Balanced;
    SoundTxnKept(w, b1, Finish(f, i, b1), t);
  }

  // ----- an imported book lives on -----

  /** Its accounts hold listed commodities, as the store insists, and its
      opening balances account, if it has one, holds one at all. */
  predicate FitFile(w: World, f: File) {
    var files := ByIds(f.accounts);
    (forall a :: a in files && files[a].commodity.Some? ==> files[a].commodity.value in w.commodities) &&
    (OPENING_BALANCES in f.keys && f.keys[OPENING_BALANCES] in files ==> files[f.keys[OPENING_BALANCES]].commodity.Some?)
  }

  /** A file's account was made, holding what the file says. */
  predicate MadeAs(f: File, i: Imported, r: Book, a: int) {
    a in i.ids && a in ByIds(f.accounts) && i.ids[a] in r.accounts &&
    r.accounts[i.ids[a]].commodity == ByIds(f.accounts)[a].commodity
  }

  predicate MadeFrom(i: Imported, n: int, a: int) {
    a in i.ids && i.ids[a] == n && n < i.next
  }

  lemma MadeAccounts(f: File, i: Imported, b1: Book)
    requires Renumbered(f, i) && b1.accounts == i.made
    ensures var r := Finish(f, i, b1);
      (forall a :: a in i.ids.Keys ==> MadeAs(f, i, r, a)) &&
      (forall n :: n in r.accounts.Keys ==> exists a :: MadeFrom(i, n, a))
  {
    hide ByIds;
    var r := Finish(f, i, b1);
    forall a | a in i.ids.Keys ensures MadeAs(f, i, r, a) {
      assert Right(ByIds(f.accounts), i.ids, i.made, i.next, a);
    }
    forall n | n in r.accounts.Keys ensures exists a :: MadeFrom(i, n, a) {
      assert n in NewIds(i.ids);
      var a :| a in i.ids && i.ids[a] == n;
      assert Right(ByIds(f.accounts), i.ids, i.made, i.next, a);
      assert MadeFrom(i, n, a);
    }
  }

  /** An imported book is sound, and so open to everything proved of sound
      books, exactly when its file is fit. */
  lemma ImportedSoundIff(w: World, f: File, i: Imported, r: Result<Book>)
    requires Imports(w, f, i, r) && r.Ok?
    ensures Sound(w, r.value) <==> FitFile(w, f)
  {
    hide ImportTxns, Precise, ArchivedIn, ByIds, SoundTxn, Cyclic, Finish, Ordered, Mapped;
    ImportedBookSound(w, f, i, r);
    var b1 := ImportTxns(w, Shell(f, i), i.ids, f.txns).value;
    assert b1.accounts == i.made && b1.nextAccount == i.next && b1.keys == ImportKeys(f.keys, i.ids) && b1.base == f.base by {
      hide Renumbered;
      ShellKeys(w, f, i);
      ShellEmpty(f, i);
      ImportTxnsSound(w, Shell(f, i), i.ids, f.txns);
    }
    MadeAccounts(f, i, b1);
    FinishHeader(f, i, b1);
    FitIff(w, f, i, r.value);
  }

  lemma FinishHeader(f: File, i: Imported, b1: Book)
    ensures var r := Finish(f, i, b1); r.base == b1.base && r.keys == b1.keys && r.nextAccount == b1.nextAccount
  {
  }

  lemma FitIff(w: World, f: File, i: Imported, r: Book)
    requires CurrencyCode(w, f.base) && r.base == f.base && r.keys == ImportKeys(f.keys, i.ids) && r.nextAccount == i.next
    requires i.ids.Keys == ByIds(f.accounts).Keys && Ordered(r) && forall t :: t in r.txns ==> SoundTxn(w, r, t)
    requires forall a :: a in i.ids.Keys ==> MadeAs(f, i, r, a)
    requires forall n :: n in r.accounts.Keys ==> exists a :: MadeFrom(i, n, a)
    ensures Sound(w, r) <==> FitFile(w, f)
  {
    hide ByIds, SoundTxn, Ordered;
    var files := ByIds(f.accounts);
    assert forall a :: a in files.Keys <==> a in i.ids.Keys;
    if Sound(w, r) {
      forall a | a in files && files[a].commodity.Some? ensures files[a].commodity.value in w.commodities {
        assert MadeAs(f, i, r, a);
        var n := i.ids[a];
        assert n in r.accounts && r.accounts[n].commodity.Some?;
      }
      if OPENING_BALANCES in f.keys && f.keys[OPENING_BALANCES] in files {
        assert MadeAs(f, i, r, f.keys[OPENING_BALANCES]);
        assert r.keys[OPENING_BALANCES] == i.ids[f.keys[OPENING_BALANCES]];
      }
    }
    if FitFile(w, f) {
      forall n | n in r.accounts ensures n < r.nextAccount
        ensures r.accounts[n].commodity.Some? ==> r.accounts[n].commodity.value in w.commodities
      {
        var a :| MadeFrom(i, n, a);
        assert MadeAs(f, i, r, a);
      }
      forall k | k in r.keys ensures r.keys[k] in r.accounts && (k == OPENING_BALANCES ==> r.accounts[r.keys[k]].commodity.Some?) {
        assert MadeAs(f, i, r, f.keys[k]);
      }
    }
  }

  /** What may become of a book: an operation, or the import of any fit file,
      its own export among them. */
  ghost predicate NextBook(w: World, b: Book, b1: Book) {
    (Sound(w, b) && exists op :: Runs.Apply(w, b, op) == b1) ||
    (exists f, i :: FitFile(w, f) && Imports(w, f, i, Ok(b1)))
  }

  lemma NextSound(w: World, b: Book, b1: Book)
    requires Sound(w, b) && NextBook(w, b, b1)
    ensures Sound(w, b1)
  {
    hide Sound, Imports, Runs.Apply, FitFile;
    if exists op :: Runs.Apply(w, b, op) == b1 {
      var op :| Runs.Apply(w, b, op) == b1;
      Runs.StepSound(w, b, op);
    } else {
      var f, i :| FitFile(w, f) && Imports(w, f, i, Ok(b1));
      ImportedSoundIff(w, f, i, Ok(b1));
    }
  }

  /** Whatever runs and imports a book has been through, every transaction has
      at least two postings, on its accounts, summing to zero. */
  lemma {:induction false} LivesBalance(w: World, books: seq<Book>)
    requires |books| > 0 && Sound(w, books[0])
    requires forall k :: 0 <= k < |books| - 1 ==> NextBook(w, books[k], books[k + 1])
    ensures var r := books[|books| - 1];
      Sound(w, r) &&
      forall t :: t in r.txns ==>
        |t.postings| >= 2 && Sum(t.postings, Base()) == 0.0 && forall p :: p in t.postings ==> p.account in r.accounts
  {
    hide NextBook, Sum;
    var n := |books| - 1;
    if n > 0 {
      LivesBalance(w, books[..n]);
      NextSound(w, books[n - 1], books[n]);
    }
    var r := books[n];
    forall t | t in r.txns ensures |t.postings| >= 2 && Sum(t.postings, Base()) == 0.0 &&
        forall p :: p in t.postings ==> p.account in r.accounts
    {
      assert SoundTxn(w, r, t);
      assert forall p :: p in t.postings ==> Proper(w, r, p);
    }
  }

  // ----- refused, or repaired -----

  /** A transaction of the file that does not balance is still taken when it is
      off by at most one minor unit, has a line in another currency and the
      book has an account for FX gains and losses; otherwise it is refused. */
  lemma UnbalancedTaken(w: World, b: Book, ids: map<int, int>, t: FileTxn, lines: seq<Line>)
    requires ImportLines(ids, t.lines) == Ok(lines) && |lines| >= 2
    requires ResolveAll(Context(w, b, t.date, 0), lines).Ok?
    requires Sum(ResolveAll(Context(w, b, t.date, 0), lines).value, Base()) != 0.0
    ensures ImportTxn(w, b, ids, t).Ok? <==>
      Abs(Sum(ResolveAll(Context(w, b, t.date, 0), lines).value, Base())) <= Unit(w.Places(b.base)) &&
      FX_GAIN_LOSS in b.keys && exists l :: l in lines && ForeignLine(Context(w, b, t.date, 0), l)
  {
    hide ResolveAll, ImportLines, Sum, Abs, Unit, ForeignLine, Prepare;
    PreparedIff(Context(w, b, t.date, 0), lines);
  }

  function Plainly(cls: Class, commodity: Option<string>): Account {
    Account(None, cls, commodity, true, cls.Asset?, Operating, false, false)
  }

  /** Five dollars at 600 yen against 599 yen: one yen, the smallest amount of
      the base currency, is missing. */
  function DollarFile(): File {
    File("JPY", None,
         [FileAccount(1, Plainly(Asset, Some("USD"))), FileAccount(2, Plainly(Income, None)), FileAccount(3, Plainly(Expense, None))],
         map[FX_GAIN_LOSS := 3],
         [FileTxn(0, [FileLine(1, "USD", 5.0, 600.0), FileLine(2, "JPY", -599.0, -599.0)])])
  }

  function DollarFiles(): map<int, Account> {
    map[1 := Plainly(Asset, Some("USD")), 2 := Plainly(Income, None), 3 := Plainly(Expense, None)]
  }

  lemma DollarAccounts()
    ensures ByIds(DollarFile().accounts) == DollarFiles() && GoodAccounts(DollarFile())
  {
    var accts := DollarFile().accounts;
    assert accts[..2] == [accts[0], accts[1]] && accts[..2][..1] == [accts[0]] && [accts[0]][..0] == [];
    assert ByIds([accts[0]]) == map[1 := accts[0].account];
    assert ByIds(accts[..2]) == map[1 := accts[0].account, 2 := accts[1].account];
    RootsAcyclic(ByIds(accts));
  }

  /** The posting rules that let the two lines of the file through. */
  predicate DollarShell(b: Book, one: int, two: int, three: int) {
    b.base == "JPY" && b.txns == [] && b.nextId == 1 && b.keys == map[FX_GAIN_LOSS := three] &&
    one in b.accounts && b.accounts[one] == Plainly(Asset, Some("USD")) &&
    two in b.accounts && b.accounts[two] == Plainly(Income, None) &&
    three in b.accounts
  }

  lemma DollarMade(i: Imported)
    requires Renumbered(DollarFile(), i)
    ensures i.ids.Keys == {1, 2, 3} && DollarShell(Shell(DollarFile(), i), i.ids[1], i.ids[2], i.ids[3])
  {
    hide ByIds;
    DollarAccounts();
    assert 1 in i.ids.Keys && 2 in i.ids.Keys && 3 in i.ids.Keys;
    assert Right(DollarFiles(), i.ids, i.made, i.next, 1);
    assert Right(DollarFiles(), i.ids, i.made, i.next, 2);
    assert Right(DollarFiles(), i.ids, i.made, i.next, 3);
    assert ImportKeys(DollarFile().keys, i.ids) == map[FX_GAIN_LOSS := i.ids[3]];
  }

  lemma DollarLines(ids: map<int, int>)
    requires ids.Keys == {1, 2, 3}
    ensures ImportLines(ids, DollarFile().txns[0].lines) ==
      Ok([Line(ids[1], "USD", 5.0, Some(600.0), None), Line(ids[2], "JPY", -599.0, Some(-599.0), None)])
  {
    assert 1 in ids.Keys && 2 in ids.Keys;
    var f, g := FileLine(1, "USD", 5.0, 600.0), FileLine(2, "JPY", -599.0, -599.0);
    assert ImportLines(ids, []) == Ok([]);
    ImportOneMore(ids, [], f);
    ImportOneMore(ids, [f], g);
    assert [] + [f] == [f] && [f] + [g] == [f, g];
    assert [] + [ImportLine(ids, f).value] + [ImportLine(ids, g).value] ==
      [Line(ids[1], "USD", 5.0, Some(600.0), None), Line(ids[2], "JPY", -599.0, Some(-599.0), None)];
  }

  lemma DollarResolved(b: Book, one: int, two: int, three: int)
    requires DollarShell(b, one, two, three)
    ensures ResolveLine(Context(Runs.YenWorld(), b, 0, 0), Line(one, "USD", 5.0, Some(600.0), None)) ==
      Ok(Posting(one, "USD", 5.0, 600.0))
    ensures ResolveLine(Context(Runs.YenWorld(), b, 0, 0), Line(two, "JPY", -599.0, Some(-599.0), None)) ==
      Ok(Posting(two, "JPY", -599.0, -599.0))
  {
    hide CostBasisOf, Converted, HasPrecision;
    DollarAmounts();
  }

  lemma DollarClosed(b: Book, one: int, two: int, three: int)
    requires DollarShell(b, one, two, three)
    ensures Close(Context(Runs.YenWorld(), b, 0, 0), [Posting(one, "USD", 5.0, 600.0), Posting(two, "JPY", -599.0, -599.0)]) ==
      Ok([Posting(one, "USD", 5.0, 600.0), Posting(two, "JPY", -599.0, -599.0), Posting(three, "JPY", -1.0, -1.0)])
  {
    hide Sum;
    var p, q, fx := Posting(one, "USD", 5.0, 600.0), Posting(two, "JPY", -599.0, -599.0), Posting(three, "JPY", -1.0, -1.0);
    SumPair(p, q, Base());
    assert [p, q][0].commodity != b.base;
    assert Unit(0) == 1.0;
    assert [p, q] + [fx] == [p, q, fx];
  }

  lemma DollarImported(b: Book, ids: map<int, int>)
    requires ids.Keys == {1, 2, 3} && DollarShell(b, ids[1], ids[2], ids[3])
    ensures var r := ImportTxn(Runs.YenWorld(), b, ids, DollarFile().txns[0]);
      r.Ok? && r.value == b.(nextId := 2, txns :=
        [Txn(1, 0, [Posting(ids[1], "USD", 5.0, 600.0), Posting(ids[2], "JPY", -599.0, -599.0), Posting(ids[3], "JPY", -1.0, -1.0)])])
  {
    hide ResolveLine, Close, ImportLines;
    var c := Context(Runs.YenWorld(), b, 0, 0);
    DollarLines(ids);
    DollarResolved(b, ids[1], ids[2], ids[3]);
    DollarClosed(b, ids[1], ids[2], ids[3]);
    var l, m := Line(ids[1], "USD", 5.0, Some(600.0), None), Line(ids[2], "JPY", -599.0, Some(-599.0), None);
    var p, q := Posting(ids[1], "USD", 5.0, 600.0), Posting(ids[2], "JPY", -599.0, -599.0);
    assert ResolveAll(c, []) == Ok([]);
    ResolveOneMore(c, [], l);
    ResolveOneMore(c, [l], m);
    assert [] + [l] == [l] && [l] + [m] == [l, m] && [] + [p] == [p] && [p] + [q] == [p, q];
    assert Prepare(c, [l, m]) == Close(c, [p, q]);
    var t := Txn(1, 0, Close(c, [p, q]).value);
    assert b.txns + [t] == [t];
  }

  /** A whole file whose only transaction lacks a yen: every import of it
      succeeds, and adds the yen. */
  lemma UnbalancedRepaired(i: Imported, r: Result<Book>)
    requires Imports(Runs.YenWorld(), DollarFile(), i, r)
    ensures i.ids.Keys == {1, 2, 3} && r.Ok?
    ensures r.value.txns ==
        [Txn(1, 0, [Posting(i.ids[1], "USD", 5.0, 600.0), Posting(i.ids[2], "JPY", -599.0, -599.0), Posting(i.ids[3], "JPY", -1.0, -1.0)])]
  {
    hide ImportTxn, ByIds, Renumbered, ArchivedIn, DollarShell, GoodAccounts, Finish;
    var w, f := Runs.YenWorld(), DollarFile();
    DollarAccounts();
    DollarMade(i);
    DollarImported(Shell(f, i), i.ids);
    assert f.txns[..0] == [];
    assert ImportTxns(w, Shell(f, i), i.ids, f.txns) == ImportTxn(w, Shell(f, i), i.ids, f.txns[0]);
    FinishTxns(f, i, ImportTxns(w, Shell(f, i), i.ids, f.txns).value);
  }

  lemma FinishTxns(f: File, i: Imported, b1: Book)
    ensures Finish(f, i, b1).txns == b1.txns
  {
  }

  lemma ImportOneMore(ids: map<int, int>, ls: seq<FileLine>, g: FileLine)
    requires ImportLines(ids, ls).Ok? && ImportLine(ids, g).Ok?
    ensures ImportLines(ids, ls + [g]) == Ok(ImportLines(ids, ls).value + [ImportLine(ids, g).value])
  {
    hide ImportLine;
    assert (ls + [g])[..|ls|] == ls;
  }

  lemma ResolveOneMore(c: Context, ls: seq<Line>, m: Line)
    requires ResolveAll(c, ls).Ok? && ResolveLine(c, m).Ok?
    ensures ResolveAll(c, ls + [m]) == Ok(ResolveAll(c, ls).value + [ResolveLine(c, m).value])
  {
    hide ResolveLine;
    assert (ls + [m])[..|ls|] == ls;
  }

  lemma DollarAmounts()
    ensures HasPrecision(5.0, 2) && HasPrecision(600.0, 0) && HasPrecision(-599.0, 0)
  {
    assert Pow10(0) == 1.0 && Pow10(2) == 100.0;
    MultipleFrom(5.0, 500, 100.0);
    MultipleFrom(600.0, 600, 1.0);
    MultipleFrom(-599.0, -599, 1.0);
    RoundIdentity(5.0, 2);
    RoundIdentity(600.0, 0);
    RoundIdentity(-599.0, 0);
  }

  // ----- a book that cannot come back -----

  lemma StaleBreaksRules()
    ensures !RulesKept(Runs.YenWorld(), Runs.StaleBook(), Runs.StaleBook().txns)
  {
    hide HasPrecision, OnGrid;
    var w, b := Runs.YenWorld(), Runs.StaleBook();
    Runs.HalfPrecise();
    RoundIdentity(-0.5, 0);
    var p := b.txns[0].postings[1];
    assert p == Posting(1, "JPY", -0.5, -0.5) && w.Places("JPY") == 0;
    assert !KeepsRules(w, b, p);
    assert !AllKeep(w, b, b.txns[0].postings);
  }

  lemma {:induction false} RootsUp(files: map<int, Account>, a: int, n: nat)
    requires n > 0 && forall x :: x in files ==> files[x].parent.None?
    ensures Up(files, a, n).None?
  {
  }

  lemma RootsAcyclic(files: map<int, Account>)
    requires forall x :: x in files ==> files[x].parent.None?
    ensures !Cyclic(files)
  {
    hide Up;
    if Cyclic(files) {
      var a, n: nat :| n > 0 && Up(files, a, n) == Some(a);
      RootsUp(files, a, n);
      assert false;
    }
  }

  lemma StalePortable()
    requires Sound(Runs.YenWorld(), Runs.StaleBook())
    ensures Portable(Runs.YenWorld(), Runs.StaleBook())
  {
    hide Sound;
    RootsAcyclic(Runs.StaleBook().accounts);
  }

  /** A book the ledger itself can write and its own import refuses: a yen book
      changed to dollars and then opened with half a dollar (StaleOpening). */
  lemma StaleBookRefused(order: seq<int>, i: Imported, r: Result<Book>)
    requires Listing(Runs.StaleBook(), order) && Imports(Runs.YenWorld(), Export(Runs.StaleBook(), order), i, r)
    ensures r.Err?
  {
    hide Imports, Sound, Export, Cyclic, Runs.Run, Listing, RulesKept, Portable, SameBook;
    var w := Runs.YenWorld();
    Runs.StaleOpening();
    var b := Runs.Run(w, Runs.YenBook(), [Runs.ChangeBase("USD"), Runs.DollarOpening()]);
    assert Sound(w, b);
    StaleBreaksRules();
    StalePortable();
    BookComesBack(w, Runs.StaleBook(), order, i, r);
  }
}
