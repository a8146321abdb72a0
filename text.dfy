/**
 * String helpers that reproduce the JavaScript string semantics the dashboards rely on:
 * `String.prototype.trim`, `.length` (which counts UTF-16 code units) and the ordering of
 * ISO-8601 timestamps that the store uses for `order('created_at')` and `gte(...)`.
 */
module Text {

  /** The code points `String.prototype.trim` strips: ECMAScript WhiteSpace and LineTerminator. */
  predicate IsJsSpace(c: char) {
    || c == '\U{9}' || c == '\U{B}' || c == '\U{C}' || c == ' ' || c == '\U{A0}' || c == '\U{FEFF}'
    || c == '\U{A}' || c == '\U{D}' || c == '\U{2028}' || c == '\U{2029}'
    || c == '\U{1680}' || ('\U{2000}' <= c <= '\U{200A}') || c == '\U{202F}' || c == '\U{205F}'
    || c == '\U{3000}'
  }

  function TrimStart(s: string): (r: string)
    ensures |r| <= |s| && r == s[|s| - |r|..]
    ensures r != [] ==> !IsJsSpace(r[0])
    ensures forall i :: 0 <= i < |s| - |r| ==> IsJsSpace(s[i])
  {
    if s != [] && IsJsSpace(s[0]) then TrimStart(s[1..]) else s
  }

  function TrimEnd(s: string): (r: string)
    ensures |r| <= |s| && r == s[..|r|]
    ensures r != [] ==> !IsJsSpace(r[|r| - 1])
    ensures forall i :: |r| <= i < |s| ==> IsJsSpace(s[i])
  {
    if s != [] && IsJsSpace(s[|s| - 1]) then TrimEnd(s[..|s| - 1]) else s
  }

  /** `s.trim()`: both ends stripped of JavaScript white space. */
  function Trim(s: string): (r: string)
  {
    TrimEnd(TrimStart(s))
  }

  /** A string consisting of white space only (including the empty string). */
  predicate Blank(s: string) {
    forall i :: 0 <= i < |s| ==> IsJsSpace(s[i])
  }

  /** `!s.trim()` holds exactly for the blank strings. */
  lemma TrimEmptyIffBlank(s: string)
    ensures Trim(s) == [] <==> Blank(s)
  {
    var t := TrimStart(s);
    if t != [] {
      assert t[0] == s[|s| - |t|];
    }
  }

  /** JavaScript's `s.length`: a code point outside the Basic Multilingual Plane takes two UTF-16 units. */
  function Utf16Length(s: string): (n: nat)
    ensures n >= |s|
    ensures (forall i :: 0 <= i < |s| ==> s[i] as int < 0x1_0000) ==> n == |s|
  {
    if s == [] then 0 else Utf16Length(s[..|s| - 1]) + (if s[|s| - 1] as int < 0x1_0000 then 1 else 2)
  }

  /**
   * Lexicographic order by code point. For timestamps written in one ISO-8601 format
   * (the store's `created_at`, `end_date`, and the `today`/`now` strings the code compares with)
   * this is the chronological order the store applies.
   */
  predicate LexLe(a: string, b: string)
    decreases |a|
  {
    a == [] || (b != [] && (a[0] < b[0] || (a[0] == b[0] && LexLe(a[1..], b[1..]))))
  }

  lemma {:induction false} LexLeTotal(a: string, b: string)
    ensures LexLe(a, b) || LexLe(b, a)
    decreases |a|
  {
    if a != [] && b != [] && a[0] == b[0] {
      LexLeTotal(a[1..], b[1..]);
    }
  }

  lemma {:induction false} LexLeTransitive(a: string, b: string, c: string)
    requires LexLe(a, b) && LexLe(b, c)
    ensures LexLe(a, c)
    decreases |a|
  {
    if a != [] && a[0] == b[0] && b[0] == c[0] {
      LexLeTransitive(a[1..], b[1..], c[1..]);
    }
  }

  lemma {:induction false} LexLeAntisymmetric(a: string, b: string)
    requires LexLe(a, b) && LexLe(b, a)
    ensures a == b
    decreases |a|
  {
    if a != [] {
      LexLeAntisymmetric(a[1..], b[1..]);
      assert a == [a[0]] + a[1..] && b == [b[0]] + b[1..];
    }
  }

  /** Newest first: every element's key is at least the key of every later element. */
  predicate SortedDesc<T>(s: seq<T>, key: T -> string) {
    forall i, j :: 0 <= i < j < |s| ==> LexLe(key(s[j]), key(s[i]))
  }

  /** Places `x` before the first element whose key is not larger than `x`'s. */
  function InsertDesc<T>(x: T, s: seq<T>, key: T -> string): (r: seq<T>)
    ensures multiset(r) == multiset(s) + multiset{x}
    ensures |r| == |s| + 1
  {
    if s == [] then [x]
    else if LexLe(key(s[0]), key(x)) then [x] + s
    else
      assert s == [s[0]] + s[1..];
      [s[0]] + InsertDesc(x, s[1..], key)
  }

  lemma {:induction false} InsertDescSorted<T>(x: T, s: seq<T>, key: T -> string)
    requires SortedDesc(s, key)
    ensures SortedDesc(InsertDesc(x, s, key), key)
  {
    if s == [] {
    } else if LexLe(key(s[0]), key(x)) {
      forall j | 0 < j < |s| ensures LexLe(key(s[j]), key(x)) {
        LexLeTransitive(key(s[j]), key(s[0]), key(x));
      }
    } else {
      LexLeTotal(key(s[0]), key(x));
      InsertDescSorted(x, s[1..], key);
      var rest := InsertDesc(x, s[1..], key);
      forall y | y in multiset(rest) ensures LexLe(key(y), key(s[0])) {
        assert y == x || y in multiset(s[1..]);
      }
      forall j | 0 <= j < |rest| ensures LexLe(key(rest[j]), key(s[0])) {
        assert rest[j] in multiset(rest);
      }
    }
  }

  /**
   * The store's `.order(column, { ascending: false })`: a newest-first arrangement of the rows.
   * Rows with equal keys keep no particular order in the store; this one is the insertion order.
   */
  function SortDesc<T>(s: seq<T>, key: T -> string): (r: seq<T>)
    ensures multiset(r) == multiset(s)
    ensures |r| == |s|
  {
    if s == [] then [] else
      assert s == [s[0]] + s[1..];
      InsertDesc(s[0], SortDesc(s[1..], key), key)
  }

  lemma {:induction false} SortDescSorted<T>(s: seq<T>, key: T -> string)
    ensures SortedDesc(SortDesc(s, key), key)
  {
    if s != [] {
      SortDescSorted(s[1..], key);
      InsertDescSorted(s[0], SortDesc(s[1..], key), key);
    }
  }

  /** The elements of `s` satisfying `p`, in their original order (a store filter such as `.eq(...)`). */
  function Filter<T>(s: seq<T>, p: T -> bool): (r: seq<T>)
    ensures |r| <= |s|
  {
    if s == [] then []
    else
      var rest := Filter(s[..|s| - 1], p);
      if p(s[|s| - 1]) then rest + [s[|s| - 1]] else rest
  }

  /** A filter keeps only elements of `s` that satisfy `p`, and keeps every one of them. */
  lemma {:induction false} FilterSpec<T>(s: seq<T>, p: T -> bool)
    ensures var r := Filter(s, p);
      && (forall i :: 0 <= i < |r| ==> r[i] in s && p(r[i]))
      && (forall i :: 0 <= i < |s| && p(s[i]) ==> s[i] in r)
  {
    if s != [] {
      var init, last := s[..|s| - 1], s[|s| - 1];
      var rest, r := Filter(init, p), Filter(s, p);
      FilterSpec(init, p);
      assert r == if p(last) then rest + [last] else rest;
      forall i | 0 <= i < |r| ensures r[i] in s && p(r[i]) {
        if i < |rest| {
          assert r[i] == rest[i];
          var k :| 0 <= k < |init| && init[k] == rest[i];
          assert s[k] == init[k];
        } else {
          assert r[i] == s[|s| - 1];
        }
      }
      forall i | 0 <= i < |s| && p(s[i]) ensures s[i] in r {
        if i < |init| {
          assert s[i] == init[i];
        }
      }
    }
  }

  /** A filtered query ordered newest first: `.eq(...)` followed by `.order(column, { ascending: false })`. */
  function Select<T>(s: seq<T>, p: T -> bool, key: T -> string): (r: seq<T>)
    ensures multiset(r) == multiset(Filter(s, p))
  {
    SortDesc(Filter(s, p), key)
  }

  /** The query returns exactly the rows satisfying `p`, newest first. */
  lemma SelectSpec<T>(s: seq<T>, p: T -> bool, key: T -> string)
    ensures var r := Select(s, p, key);
      && SortedDesc(r, key)
      && (forall i :: 0 <= i < |r| ==> r[i] in s && p(r[i]))
      && (forall i :: 0 <= i < |s| && p(s[i]) ==> s[i] in r)
  {
    var f := Filter(s, p);
    var r := Select(s, p, key);
    FilterSpec(s, p);
    SortDescSorted(f, key);
    forall i | 0 <= i < |r| ensures r[i] in s && p(r[i]) {
      assert r[i] in multiset(r);
    }
    forall i | 0 <= i < |s| && p(s[i]) ensures s[i] in r {
      assert s[i] in multiset(f);
    }
  }

  /** The first element a filter keeps is the first element of `s` satisfying `p`. */
  lemma {:induction false} FilterFirst<T>(s: seq<T>, p: T -> bool)
    requires Filter(s, p) != []
    ensures exists i :: 0 <= i < |s| && s[i] == Filter(s, p)[0] && p(s[i]) && forall j :: 0 <= j < i ==> !p(s[j])
  {
    var init, last := s[..|s| - 1], s[|s| - 1];
    var kept := Filter(init, p);
    assert Filter(s, p) == if p(last) then kept + [last] else kept;
    if kept != [] {
      FilterFirst(init, p);
      var i :| 0 <= i < |init| && init[i] == kept[0] && p(init[i]) && forall j :: 0 <= j < i ==> !p(init[j]);
      assert s[i] == init[i] && (forall j :: 0 <= j < i ==> s[j] == init[j]);
    } else {
      FilterSpec(init, p);
      assert forall j :: 0 <= j < |init| ==> !p(init[j]);
      assert forall j :: 0 <= j < |init| ==> s[j] == init[j];
      assert s[|s| - 1] == Filter(s, p)[0];
    }
  }
}
