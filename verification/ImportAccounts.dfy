// Recreating a file's accounts, parents first (importAccounts in
// internal/ledger/bookfile.go): a recursion guarded by its depth.
module ImportAccounts {
  import opened Core

  /** An account as the file has it; its parent is a file id. */
  datatype FileAccount = FileAccount(id: int, account: Account)

  function ByIds(accts: seq<FileAccount>): map<int, Account> {
    if |accts| == 0 then map[] else
      ByIds(accts[..|accts| - 1])[accts[|accts| - 1].id := accts[|accts| - 1].account]
  }

  predicate DistinctFileIds(accts: seq<FileAccount>) {
    forall i, j :: 0 <= i < j < |accts| ==> accts[i].id != accts[j].id
  }

  predicate ParentsPresent(files: map<int, Account>) {
    forall a :: a in files && files[a].parent.Some? ==> files[a].parent.value in files
  }

  /** The ancestor n links above, if the chain is that long. */
  function Up(files: map<int, Account>, a: int, n: nat): Option<int>
    decreases n
  {
    if a !in files then None
    else if n == 0 then Some(a)
    else if files[a].parent.None? then None
    else Up(files, files[a].parent.value, n - 1)
  }

  /** Some account is its own ancestor. */
  ghost predicate Cyclic(files: map<int, Account>) {
    exists a, n: nat :: n > 0 && Up(files, a, n) == Some(a)
  }

  /** A path up the parent links. */
  predicate Path(files: map<int, Account>, stack: seq<int>) {
    (forall i :: 0 <= i < |stack| ==> stack[i] in files) &&
    forall i :: 0 <= i < |stack| - 1 ==> files[stack[i]].parent == Some(stack[i + 1])
  }

  lemma {:induction false} UpPath(files: map<int, Account>, stack: seq<int>, i: nat, j: nat)
    requires Path(files, stack) && i <= j < |stack|
    ensures Up(files, stack[i], j - i) == Some(stack[j])
    decreases j - i
  {
    if i < j {
      UpPath(files, stack, i + 1, j);
    }
  }

  lemma {:induction false} Pigeonhole(s: seq<int>, keys: set<int>)
    requires (forall x :: x in s ==> x in keys) && |s| > |keys|
    ensures exists i, j :: 0 <= i < j < |s| && s[i] == s[j]
  {
    var last, front := s[|s| - 1], s[..|s| - 1];
    if last in front {
      var i :| 0 <= i < |front| && front[i] == last;
      assert s[i] == s[|s| - 1];
    } else {
      forall x | x in front ensures x in keys - {last} {
        assert x in s;
      }
      assert last in s;
      Pigeonhole(front, keys - {last});
      var i, j :| 0 <= i < j < |front| && front[i] == front[j];
      assert s[i] == s[j];
    }
  }

  /** A path longer than the file has accounts goes round a cycle. */
  lemma LongPathCycles(files: map<int, Account>, stack: seq<int>)
    requires Path(files, stack) && |stack| > |files.Keys|
    ensures Cyclic(files)
  {
    hide Up;
    forall x | x in stack ensures x in files.Keys {
    }
    Pigeonhole(stack, files.Keys);
    var i, j :| 0 <= i < j < |stack| && stack[i] == stack[j];
    UpPath(files, stack, i, j);
  }

  // ----- the accounts made so far -----

  function Placed(a: Account, ids: map<int, int>): Account {
    a.(parent := if a.parent.Some? && a.parent.value in ids then Some(ids[a.parent.value]) else None, archived := false)
  }

  /** ids is injective, commutes with parent, and puts parents first. */
  predicate Right(files: map<int, Account>, ids: map<int, int>, made: map<int, Account>, next: int, a: int) {
    a in files && a in ids && 0 < ids[a] < next && ids[a] in made && made[ids[a]] == Placed(files[a], ids)
  }

  predicate Injective(ids: map<int, int>) {
    forall a, c :: a in ids && c in ids && a != c ==> ids[a] != ids[c]
  }

  predicate ParentBelow(files: map<int, Account>, ids: map<int, int>, a: int) {
    a in files && a in ids &&
    (files[a].parent.Some? ==> files[a].parent.value in ids && ids[files[a].parent.value] < ids[a])
  }

  function NewIds(ids: map<int, int>): set<int> {
    set a | a in ids :: ids[a]
  }

  predicate Mapped(files: map<int, Account>, ids: map<int, int>, made: map<int, Account>, next: int) {
    (forall a :: a in ids ==> Right(files, ids, made, next, a)) && Injective(ids) && made.Keys == NewIds(ids) &&
    (forall a :: a in ids ==> ParentBelow(files, ids, a))
  }

  lemma {:induction false} UpRanked(files: map<int, Account>, ids: map<int, int>, made: map<int, Account>, next: int,
      a: int, n: nat)
    requires Mapped(files, ids, made, next) && a in ids && Up(files, a, n).Some?
    ensures Up(files, a, n).value in ids && ids[Up(files, a, n).value] <= ids[a] - n
    decreases n
  {
    assert ParentBelow(files, ids, a) && Right(files, ids, made, next, a);
    if n > 0 {
      UpRanked(files, ids, made, next, files[a].parent.value, n - 1);
    }
  }

  /** What was made hangs together: nothing of a cycle can have been made. */
  lemma MappedAcyclic(files: map<int, Account>, ids: map<int, int>, made: map<int, Account>, next: int)
    requires Mapped(files, ids, made, next) && ids.Keys == files.Keys
    ensures !Cyclic(files)
  {
    hide Mapped;
    if Cyclic(files) {
      var a, n: nat :| n > 0 && Up(files, a, n) == Some(a);
      UpRanked(files, ids, made, next, a, n);
      assert false;
    }
  }

  lemma NewIdsMore(ids: map<int, int>, a: int, next: int)
    requires a !in ids && Injective(ids) && forall c :: c in ids ==> ids[c] != next
    ensures NewIds(ids[a := next]) == NewIds(ids) + {next} && Injective(ids[a := next])
  {
    var ids1 := ids[a := next];
    assert ids1[a] == next;
    forall n | n in NewIds(ids) ensures n in NewIds(ids1) {
      var c :| c in ids && ids[c] == n;
      assert ids1[c] == n;
    }
  }

  lemma RightMore(files: map<int, Account>, ids: map<int, int>, made: map<int, Account>, next: int, a: int, c: int)
    requires Right(files, ids, made, next, c) && ParentBelow(files, ids, c) && a in files && a !in ids
    ensures Right(files, ids[a := next], made[next := Placed(files[a], ids)], next + 1, c)
    ensures ParentBelow(files, ids[a := next], c)
  {
  }

  lemma MappedMore(files: map<int, Account>, ids: map<int, int>, made: map<int, Account>, next: int, a: int)
    requires Mapped(files, ids, made, next) && next > 0 && a in files && a !in ids
    requires files[a].parent.Some? ==> files[a].parent.value in ids
    ensures Mapped(files, ids[a := next], made[next := Placed(files[a], ids)], next + 1)
    ensures forall c :: c in ids ==> ids[c] < next
  {
    hide Placed, NewIds, Injective;
    var ids1, made1 := ids[a := next], made[next := Placed(files[a], ids)];
    assert forall c :: c in ids ==> Right(files, ids, made, next, c);
    NewIdsMore(ids, a, next);
    assert files[a].parent.Some? ==> Right(files, ids, made, next, files[a].parent.value);
    PlacedSame(files[a], ids, a, next);
    forall c | c in ids1.Keys ensures Right(files, ids1, made1, next + 1, c) && ParentBelow(files, ids1, c) {
      if c != a {
        assert ParentBelow(files, ids, c);
        RightMore(files, ids, made, next, a, c);
      }
    }
  }

  lemma PlacedSame(file: Account, ids: map<int, int>, a: int, next: int)
    requires a !in ids && (file.parent.Some? ==> file.parent.value in ids)
    ensures Placed(file, ids[a := next]) == Placed(file, ids)
  {
  }

  lemma ParentFirst(files: map<int, Account>, ids: map<int, int>, made: map<int, Account>, next: int, a: int)
    requires Mapped(files, ids, made, next) && a in files
    ensures a in ids && files[a].parent.Some? ==> files[a].parent.value in ids && ids[files[a].parent.value] < ids[a]
  {
    assert a in ids ==> ParentBelow(files, ids, a);
  }

  class Importer {
    const files: map<int, Account>
    const limit: nat
    var ids: map<int, int>
    var made: map<int, Account>
    var archived: seq<int>
    var next: int

    constructor (files: map<int, Account>, limit: nat)
      ensures Valid() && this.files == files && this.limit == limit && ids == map[] && archived == []
    {
      this.files, this.limit := files, limit;
      ids, made, archived, next := map[], map[], [], 1;
    }

    ghost predicate Valid()
      reads this
    {
      next > 0 && Mapped(files, ids, made, next) && ArchivedAre()
    }

    /** What is to be archived once the transactions are in. */
    ghost predicate ArchivedAre()
      reads this
    {
      forall n :: n in archived <==> exists a :: a in ids && a in files && ids[a] == n && files[a].archived
    }

    /** Makes the account after its parent. Only a cycle can be too deep. */
    method Create(a: int, depth: nat, ghost stack: seq<int>) returns (error: Option<Error>)
      requires Valid() && a in files && limit >= |files.Keys|
      requires Path(files, stack) && |stack| == depth + 1 && stack[depth] == a && depth <= limit + 1
      modifies this
      ensures Valid() && forall c :: c in old(ids) ==> c in ids && ids[c] == old(ids)[c]
      ensures error.None? ==> a in ids && forall c :: c in ids && c !in old(ids) ==> ids[c] <= ids[a]
      ensures error.Some? ==> error.value == Cycle || error.value == NotFound
      ensures error == Some(Cycle) ==> Cyclic(files)
      ensures error == Some(NotFound) ==> !ParentsPresent(files)
      decreases limit + 1 - depth
    {
      hide Mapped, Cyclic, Up, Placed;
      if a in ids {
        return None;
      }
      if depth > limit {
        LongPathCycles(files, stack);
        return Some(Cycle);
      }
      var file := files[a];
      if file.parent.Some? {
        var p := file.parent.value;
        if p !in files {
          return Some(NotFound);
        }
        error := Create(p, depth + 1, stack + [p]);
        if error.Some? {
          return;
        }
      }
      assert a !in ids by {
        ParentFirst(files, ids, made, next, a);
      }
      MappedMore(files, ids, made, next, a);
      made := made[next := Placed(file, ids)];
      ids := ids[a := next];
      if file.archived {
        archived := archived + [next];
      }
      next := next + 1;
      return None;
    }
  }

  // ----- the whole import of accounts -----

  datatype Imported = Imported(ids: map<int, int>, made: map<int, Account>, archived: seq<int>, next: int)

  function FileIds(accts: seq<FileAccount>): set<int> {
    set f | f in accts :: f.id
  }

  lemma {:induction false} ByIdsAre(accts: seq<FileAccount>)
    ensures ByIds(accts).Keys == FileIds(accts) && |ByIds(accts).Keys| <= |accts|
    ensures DistinctFileIds(accts) ==> forall f :: f in accts ==> ByIds(accts)[f.id] == f.account
  {
    if |accts| > 0 {
      var front, last := accts[..|accts| - 1], accts[|accts| - 1];
      ByIdsAre(front);
      assert forall f :: f in accts <==> f in front || f == last;
    }
  }

  lemma DistinctStep(accts: seq<FileAccount>, i: nat)
    requires i < |accts|
    ensures DistinctFileIds(accts[..i + 1]) <==> DistinctFileIds(accts[..i]) && accts[i].id !in FileIds(accts[..i])
    ensures DistinctFileIds(accts) ==> DistinctFileIds(accts[..i + 1])
  {
    var front := accts[..i];
    if accts[i].id in FileIds(front) {
      var f :| f in front && f.id == accts[i].id;
      var k :| 0 <= k < i && front[k] == f;
      assert accts[..i + 1][k].id == accts[..i + 1][i].id;
    } else {
      forall k | 0 <= k < i ensures accts[k].id != accts[i].id {
        assert front[k] in front && front[k].id in FileIds(front);
      }
      if DistinctFileIds(front) {
        assert forall k :: 0 <= k < i ==> front[k] == accts[..i + 1][k];
      }
    }
    assert forall k :: 0 <= k < i ==> accts[..i + 1][k] == front[k];
  }

  method Index(accts: seq<FileAccount>) returns (byId: Option<map<int, Account>>)
    ensures byId.Some? <==> DistinctFileIds(accts)
    ensures byId.Some? ==> byId.value == ByIds(accts)
  {
    hide DistinctFileIds, FileIds;
    var m: map<int, Account> := map[];
    assert DistinctFileIds(accts[..0]) by { NoneDistinct(accts); }
    for i := 0 to |accts|
      invariant m == ByIds(accts[..i]) && DistinctFileIds(accts[..i])
    {
      ByIdsAre(accts[..i]);
      DistinctStep(accts, i);
      assert accts[..i + 1][..i] == accts[..i];
      if accts[i].id in m {
        return None;
      }
      m := m[accts[i].id := accts[i].account];
    }
    assert accts[..|accts|] == accts;
    return Some(m);
  }

  lemma NoneDistinct(accts: seq<FileAccount>)
    ensures DistinctFileIds(accts[..0])
  {
  }

  /** importAccounts: refused exactly for a repeated id, a missing parent or a
      cyclic parent chain; otherwise every account once, under a new id. */
  method Import(accts: seq<FileAccount>) returns (r: Result<Imported>)
    ensures r == Err(Duplicate) <==> !DistinctFileIds(accts)
    ensures r.Ok? <==> DistinctFileIds(accts) && ParentsPresent(ByIds(accts)) && !Cyclic(ByIds(accts))
    ensures DistinctFileIds(accts) && ParentsPresent(ByIds(accts)) ==> (r == Err(Cycle) <==> Cyclic(ByIds(accts)))
    ensures r.Ok? ==> var i := r.value;
      i.ids.Keys == ByIds(accts).Keys && Mapped(ByIds(accts), i.ids, i.made, i.next) &&
      forall n :: n in i.archived <==> exists a :: a in i.ids && i.ids[a] == n && ByIds(accts)[a].archived
  {
    hide Cyclic, Mapped, ByIds;
    var index := Index(accts);
    if index.None? {
      return Err(Duplicate);
    }
    var files := index.value;
    ByIdsAre(accts);
    var importer := new Importer(files, |accts|);
    for i := 0 to |accts|
      invariant importer.Valid() && importer.files == files && importer.limit == |accts| && fresh(importer)
      invariant forall k :: 0 <= k < i ==> accts[k].id in importer.ids
    {
      assert accts[i] in accts && accts[i].id in FileIds(accts);
      var error := importer.Create(accts[i].id, 0, [accts[i].id]);
      if error.Some? {
        return Err(error.value);
      }
    }
    AllMade(accts, importer.ids, importer.made, importer.next);
    return Ok(Imported(importer.ids, importer.made, importer.archived, importer.next));
  }

  lemma AllMade(accts: seq<FileAccount>, ids: map<int, int>, made: map<int, Account>, next: int)
    requires Mapped(ByIds(accts), ids, made, next) && forall k :: 0 <= k < |accts| ==> accts[k].id in ids
    ensures ids.Keys == ByIds(accts).Keys && ParentsPresent(ByIds(accts)) && !Cyclic(ByIds(accts))
  {
    hide Cyclic;
    var files := ByIds(accts);
    ByIdsAre(accts);
    forall a | a in files ensures a in ids {
      assert a in FileIds(accts);
    }
    forall a | a in ids ensures a in files {
      assert Right(files, ids, made, next, a);
    }
    forall a | a in files && files[a].parent.Some? ensures files[a].parent.value in files {
      assert ParentBelow(files, ids, a);
    }
    MappedAcyclic(files, ids, made, next);
  }
}
