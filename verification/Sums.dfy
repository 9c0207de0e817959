// Finite sums of amounts: over a sequence (a query's rows, a transaction's
// postings) and over a set (a map's entries, in whatever order it is ranged).
module Sums {

  function Sum<T>(s: seq<T>, w: T -> real): real {
    if |s| == 0 then 0.0 else Sum(s[..|s| - 1], w) + w(s[|s| - 1])
  }

  lemma SumAppend<T>(s: seq<T>, x: T, w: T -> real)
    ensures Sum(s + [x], w) == Sum(s, w) + w(x)
  {
    assert (s + [x])[..|s|] == s;
  }

  lemma {:induction false} SumConcat<T>(s: seq<T>, t: seq<T>, w: T -> real)
    ensures Sum(s + t, w) == Sum(s, w) + Sum(t, w)
  {
    if |t| == 0 {
      assert s + t == s;
    } else {
      SumConcat(s, t[..|t| - 1], w);
      assert s + t == (s + t[..|t| - 1]) + [t[|t| - 1]];
      SumAppend(s + t[..|t| - 1], t[|t| - 1], w);
    }
  }

  lemma SumTake<T>(s: seq<T>, i: nat, w: T -> real)
    requires i < |s|
    ensures Sum(s[..i + 1], w) == Sum(s[..i], w) + w(s[i])
  {
    assert s[..i + 1] == s[..i] + [s[i]];
    SumAppend(s[..i], s[i], w);
  }

  lemma {:induction false} SumSplit<T>(s: seq<T>, w: T -> real, u: T -> real, v: T -> real)
    requires forall x :: x in s ==> w(x) == u(x) + v(x)
    ensures Sum(s, w) == Sum(s, u) + Sum(s, v)
  {
    if |s| > 0 {
      SumSplit(s[..|s| - 1], w, u, v);
    }
  }

  lemma {:induction false} SumSame<T>(s: seq<T>, u: T -> real, v: T -> real)
    requires forall x :: x in s ==> u(x) == v(x)
    ensures Sum(s, u) == Sum(s, v)
  {
    if |s| > 0 {
      SumSame(s[..|s| - 1], u, v);
    }
  }

  lemma {:induction false} SumNil<T>(s: seq<T>, w: T -> real)
    requires forall x :: x in s ==> w(x) == 0.0
    ensures Sum(s, w) == 0.0
  {
    if |s| > 0 {
      SumNil(s[..|s| - 1], w);
    }
  }

  /** The next entry of a map range: any entry not visited yet. */
  method Next<T>(todo: set<T>) returns (x: T)
    requires todo != {}
    ensures x in todo
  {
    x :| x in todo;
  }

  lemma NothingLeft<T>(s: set<T>, done: set<T>)
    requires s - done == {}
    ensures s <= done
  {
    forall x | x in s ensures x in done {
      assert x in s - done <==> x !in done;
    }
  }

  ghost function SumOver<T(!new)>(s: set<T>, f: T -> real): real {
    if s == {} then 0.0 else
      var x :| x in s;
      f(x) + SumOver(s - {x}, f)
  }

  /** Any entry may be taken out first: a set sum does not depend on order. */
  lemma {:induction false} SumOverRemove<T(!new)>(s: set<T>, f: T -> real, x: T)
    requires x in s
    ensures SumOver(s, f) == f(x) + SumOver(s - {x}, f)
  {
    var y :| y in s && SumOver(s, f) == f(y) + SumOver(s - {y}, f);
    if y != x {
      SumOverRemove(s - {y}, f, x);
      SumOverRemove(s - {x}, f, y);
      assert s - {y} - {x} == s - {x} - {y};
    }
  }

  lemma SumOverAdd<T(!new)>(s: set<T>, f: T -> real, x: T)
    requires x !in s
    ensures SumOver(s + {x}, f) == SumOver(s, f) + f(x)
  {
    SumOverRemove(s + {x}, f, x);
    assert s + {x} - {x} == s;
  }

  lemma {:induction false} SumOverSame<T(!new)>(s: set<T>, u: T -> real, v: T -> real)
    requires forall x :: x in s ==> u(x) == v(x)
    ensures SumOver(s, u) == SumOver(s, v)
  {
    if s != {} {
      var x :| x in s;
      SumOverRemove(s, u, x);
      SumOverRemove(s, v, x);
      SumOverSame(s - {x}, u, v);
    }
  }

  lemma {:induction false} SumOverNil<T(!new)>(s: set<T>, f: T -> real)
    requires forall x :: x in s ==> f(x) == 0.0
    ensures SumOver(s, f) == 0.0
  {
    if s != {} {
      var x :| x in s;
      SumOverRemove(s, f, x);
      SumOverNil(s - {x}, f);
    }
  }

  lemma {:induction false} SumOverUnion<T(!new)>(s: set<T>, t: set<T>, f: T -> real)
    requires s !! t
    ensures SumOver(s + t, f) == SumOver(s, f) + SumOver(t, f)
  {
    if t == {} {
      assert s + t == s;
    } else {
      var x :| x in t;
      SumOverRemove(t, f, x);
      SumOverRemove(s + t, f, x);
      assert s + t - {x} == s + (t - {x});
      SumOverUnion(s, t - {x}, f);
    }
  }

  /** One more entry visited, of those that belong to a group. */
  lemma SumOverGrow<T(!new)>(group: set<T>, done: set<T>, x: T, f: T -> real)
    requires x !in done
    ensures SumOver(group * (done + {x}), f) == SumOver(group * done, f) + (if x in group then f(x) else 0.0)
  {
    if x in group {
      assert group * (done + {x}) == group * done + {x};
      SumOverAdd(group * done, f, x);
    } else {
      assert group * (done + {x}) == group * done;
    }
  }

  predicate Distinct<T(==)>(s: seq<T>) {
    forall i, j :: 0 <= i < j < |s| ==> s[i] != s[j]
  }

  lemma DistinctConcat<T>(s: seq<T>, t: seq<T>)
    requires Distinct(s) && Distinct(t) && forall x :: x in t ==> x !in s
    ensures Distinct(s + t)
  {
    var st := s + t;
    forall i, j | 0 <= i < j < |st| ensures st[i] != st[j] {
      if j >= |s| {
        assert st[j] in t;
      }
    }
  }

  ghost function Elements<T>(s: seq<T>): set<T> {
    set x | x in s
  }

  /** Listed without repetition, in any order, the entries have one sum. */
  lemma {:induction false} SumDistinct<T(!new)>(s: seq<T>, f: T -> real)
    requires Distinct(s)
    ensures Sum(s, f) == SumOver(Elements(s), f)
  {
    if |s| > 0 {
      var s', x := s[..|s| - 1], s[|s| - 1];
      SumDistinct(s', f);
      assert s == s' + [x];
      assert x !in Elements(s');
      assert Elements(s) == Elements(s') + {x};
      SumOverAdd(Elements(s'), f, x);
    }
  }
}
