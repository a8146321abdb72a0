/**
 * The `reduce((sum, x) => sum + f(x), 0)` folds the dashboards compute over fetched rows,
 * over integers (points) and over reals (money), and the facts about them the views rely on:
 * a fold over a concatenation splits, and a fold does not depend on the order of the rows.
 */
module Folds {
  import opened Text

  /** `rows.reduce((sum, x) => sum + f(x), 0)` over integers, folded from the left. */
  function SumInt<T>(rows: seq<T>, f: T -> int): int {
    if rows == [] then 0 else SumInt(rows[..|rows| - 1], f) + f(rows[|rows| - 1])
  }

  /** The same fold over reals. */
  function SumReal<T>(rows: seq<T>, f: T -> real): real {
    if rows == [] then 0.0 else SumReal(rows[..|rows| - 1], f) + f(rows[|rows| - 1])
  }

  lemma {:induction false} SumIntAppend<T>(a: seq<T>, b: seq<T>, f: T -> int)
    ensures SumInt(a + b, f) == SumInt(a, f) + SumInt(b, f)
    decreases |b|
  {
    if b == [] {
      assert a + b == a;
    } else {
      SumIntAppend(a, b[..|b| - 1], f);
      assert (a + b)[..|a + b| - 1] == a + b[..|b| - 1];
    }
  }

  lemma {:induction false} SumRealAppend<T>(a: seq<T>, b: seq<T>, f: T -> real)
    ensures SumReal(a + b, f) == SumReal(a, f) + SumReal(b, f)
    decreases |b|
  {
    if b == [] {
      assert a + b == a;
    } else {
      SumRealAppend(a, b[..|b| - 1], f);
      assert (a + b)[..|a + b| - 1] == a + b[..|b| - 1];
    }
  }

  /** Removing the element at `j` from `b`, as a multiset. */
  lemma RemoveAt<T>(b: seq<T>, j: nat)
    requires j < |b|
    ensures b == b[..j] + [b[j]] + b[j + 1..]
    ensures multiset(b[..j] + b[j + 1..]) == multiset(b) - multiset{b[j]}
  {
    assert b == b[..j] + [b[j]] + b[j + 1..];
  }

  /** Where the last row of `a` sits in its reordering `b`, and the rows left on each side still match. */
  lemma MatchLast<T>(a: seq<T>, b: seq<T>) returns (j: nat)
    requires a != [] && multiset(a) == multiset(b)
    ensures j < |b| && b[j] == a[|a| - 1]
    ensures multiset(a[..|a| - 1]) == multiset(b[..j] + b[j + 1..])
  {
    var x, init := a[|a| - 1], a[..|a| - 1];
    assert a == init + [x];
    assert multiset(a) == multiset(init) + multiset{x};
    assert x in multiset(b);
    j :| 0 <= j < |b| && b[j] == x;
    RemoveAt(b, j);
  }

  /** Taking one row out of an integer fold subtracts its term. */
  lemma SumIntRemoveAt<T>(b: seq<T>, j: nat, f: T -> int)
    requires j < |b|
    ensures SumInt(b, f) == SumInt(b[..j] + b[j + 1..], f) + f(b[j])
  {
    RemoveAt(b, j);
    SumIntAppend(b[..j] + [b[j]], b[j + 1..], f);
    SumIntAppend(b[..j], [b[j]], f);
    SumIntAppend(b[..j], b[j + 1..], f);
    assert SumInt([b[j]], f) == f(b[j]) by { assert [b[j]][..0] == []; }
  }

  /** The integer fold is the same for any reordering of the rows. */
  lemma {:induction false} SumIntPermutation<T>(a: seq<T>, b: seq<T>, f: T -> int)
    requires multiset(a) == multiset(b)
    ensures SumInt(a, f) == SumInt(b, f)
    decreases |a|
  {
    if a == [] {
      assert |b| == |multiset(b)| == 0;
    } else {
      var j := MatchLast(a, b);
      SumIntPermutation(a[..|a| - 1], b[..j] + b[j + 1..], f);
      SumIntRemoveAt(b, j, f);
    }
  }

  /** Taking one row out of a real fold subtracts its term. */
  lemma SumRealRemoveAt<T>(b: seq<T>, j: nat, f: T -> real)
    requires j < |b|
    ensures SumReal(b, f) == SumReal(b[..j] + b[j + 1..], f) + f(b[j])
  {
    RemoveAt(b, j);
    SumRealAppend(b[..j] + [b[j]], b[j + 1..], f);
    SumRealAppend(b[..j], [b[j]], f);
    SumRealAppend(b[..j], b[j + 1..], f);
    assert SumReal([b[j]], f) == f(b[j]) by { assert [b[j]][..0] == []; }
  }

  /** The real fold is the same for any reordering of the rows. */
  lemma {:induction false} SumRealPermutation<T>(a: seq<T>, b: seq<T>, f: T -> real)
    requires multiset(a) == multiset(b)
    ensures SumReal(a, f) == SumReal(b, f)
    decreases |a|
  {
    if a == [] {
      assert |b| == |multiset(b)| == 0;
    } else {
      var j := MatchLast(a, b);
      SumRealPermutation(a[..|a| - 1], b[..j] + b[j + 1..], f);
      SumRealRemoveAt(b, j, f);
    }
  }

  /** The number of rows satisfying `p`, counted by a fold of its own. */
  function Count<T>(rows: seq<T>, p: T -> bool): nat {
    if rows == [] then 0 else Count(rows[..|rows| - 1], p) + (if p(rows[|rows| - 1]) then 1 else 0)
  }

  /** Filtering keeps exactly the counted rows: the `.length` of a filtered query is the count. */
  lemma {:induction false} FilterCount<T>(rows: seq<T>, p: T -> bool)
    ensures |Filter(rows, p)| == Count(rows, p)
  {
    if rows != [] {
      FilterCount(rows[..|rows| - 1], p);
    }
  }

  /** Summing the rows a filter keeps is summing every row with the others counted as 0. */
  lemma {:induction false} SumIntFilter<T>(rows: seq<T>, p: T -> bool, f: T -> int, g: T -> int)
    requires forall x :: g(x) == if p(x) then f(x) else 0
    ensures SumInt(Filter(rows, p), f) == SumInt(rows, g)
  {
    if rows != [] {
      var init := rows[..|rows| - 1];
      var kept := Filter(init, p);
      SumIntFilter(init, p, f, g);
      assert (kept + [rows[|rows| - 1]])[..|kept|] == kept;
    }
  }

  /** The same over reals. */
  lemma {:induction false} SumRealFilter<T>(rows: seq<T>, p: T -> bool, f: T -> real, g: T -> real)
    requires forall x :: g(x) == if p(x) then f(x) else 0.0
    ensures SumReal(Filter(rows, p), f) == SumReal(rows, g)
  {
    if rows != [] {
      var init := rows[..|rows| - 1];
      var kept := Filter(init, p);
      SumRealFilter(init, p, f, g);
      assert (kept + [rows[|rows| - 1]])[..|kept|] == kept;
    }
  }
}
