/** The orders the Rust code relies on through its standard library:
    `Ord` for `String` (byte-wise, which for UTF-8 is code-point-wise),
    the sorted iteration of a `BTreeSet`/`BTreeMap`, and `Vec::sort_by`. */
module Ordering {

  /** Strict lexicographic order on strings, compared character by character. */
  predicate StrLess(a: string, b: string)
  {
    if a == [] then b != []
    else if b == [] then false
    else if a[0] != b[0] then a[0] < b[0]
    else StrLess(a[1..], b[1..])
  }

  /** `lt` is irreflexive, transitive and total on distinct values. */
  ghost predicate StrictTotalOrder<T(!new)>(lt: (T, T) -> bool)
  {
    && (forall a :: !lt(a, a))
    && (forall a, b, c :: lt(a, b) && lt(b, c) ==> lt(a, c))
    && (forall a, b :: a != b ==> lt(a, b) || lt(b, a))
  }

  /** `le` is a total preorder: the shape of a comparator given to `sort_by`. */
  ghost predicate TotalPreorder<T(!new)>(le: (T, T) -> bool)
  {
    && (forall a, b :: le(a, b) || le(b, a))
    && (forall a, b, c :: le(a, b) && le(b, c) ==> le(a, c))
  }

  predicate StrictlySorted<T>(s: seq<T>, lt: (T, T) -> bool)
  {
    forall i, j :: 0 <= i < j < |s| ==> lt(s[i], s[j])
  }

  predicate SortedBy<T>(s: seq<T>, le: (T, T) -> bool)
  {
    forall i, j :: 0 <= i < j < |s| ==> le(s[i], s[j])
  }

  lemma {:induction false} StrLessIrreflexive(a: string)
    ensures !StrLess(a, a)
  {
    if a != [] {
      StrLessIrreflexive(a[1..]);
    }
  }

  lemma {:induction false} StrLessTransitive(a: string, b: string, c: string)
    requires StrLess(a, b) && StrLess(b, c)
    ensures StrLess(a, c)
  {
    if a != [] && a[0] == b[0] && b[0] == c[0] {
      StrLessTransitive(a[1..], b[1..], c[1..]);
    }
  }

  lemma {:induction false} StrLessTotal(a: string, b: string)
    requires a != b
    ensures StrLess(a, b) || StrLess(b, a)
  {
    if a != [] && b != [] && a[0] == b[0] {
      assert a == [a[0]] + a[1..] && b == [b[0]] + b[1..];
      StrLessTotal(a[1..], b[1..]);
    }
  }

  lemma StrLessIsStrictTotalOrder()
    ensures StrictTotalOrder(StrLess)
  {
    forall a: string ensures !StrLess(a, a) {
      StrLessIrreflexive(a);
    }
    forall a: string, b: string, c: string | StrLess(a, b) && StrLess(b, c)
      ensures StrLess(a, c)
    {
      StrLessTransitive(a, b, c);
    }
    forall a: string, b: string | a != b ensures StrLess(a, b) || StrLess(b, a) {
      StrLessTotal(a, b);
    }
  }

  /** Every non-empty finite set has a least element under a strict total order. */
  lemma {:induction false} MinimumExists<T(!new)>(s: set<T>, lt: (T, T) -> bool)
    requires StrictTotalOrder(lt) && s != {}
    ensures exists m :: m in s && forall y :: y in s && y != m ==> lt(m, y)
    decreases |s|
  {
    var x :| x in s;
    if s == {x} {
      assert forall y :: y in s && y != x ==> lt(x, y);
      assert x in s;
    } else {
      var rest := s - {x};
      MinimumExists(rest, lt);
      var m :| m in rest && forall y :: y in rest && y != m ==> lt(m, y);
      if lt(x, m) {
        forall y | y in s && y != x ensures lt(x, y) {
          if y != m {
            assert lt(m, y);
          }
        }
        assert x in s;
      } else {
        assert x != m;
        assert lt(m, x);
        forall y | y in s && y != m ensures lt(m, y) {
          if y != x {
            assert y in rest;
          }
        }
        assert m in s;
      }
    }
  }

  /** The elements of a `BTreeSet`, in the order its iterator yields them:
      ascending, each once. */
  method SortedElements<T(==,!new)>(s: set<T>, lt: (T, T) -> bool) returns (r: seq<T>)
    requires StrictTotalOrder(lt)
    ensures StrictlySorted(r, lt)
    ensures forall x :: x in r <==> x in s
    ensures |r| == |s|
  {
    r := [];
    var rest := s;
    while rest != {}
      invariant StrictlySorted(r, lt)
      invariant forall x :: x in s <==> x in r || x in rest
      invariant forall i, y :: 0 <= i < |r| && y in rest ==> lt(r[i], y)
      invariant |r| + |rest| == |s|
      decreases |rest|
    {
      MinimumExists(rest, lt);
      var m :| m in rest && forall y :: y in rest && y != m ==> lt(m, y);
      forall i | 0 <= i < |r| ensures r[i] != m {
        assert lt(r[i], m);
      }
      assert m !in r;
      r := r + [m];
      rest := rest - {m};
    }
  }

  /** The keys of a `BTreeSet<String>` or `BTreeMap<String, _>`, in the
      order its iterator yields them. */
  method SortedStrings(s: set<string>) returns (r: seq<string>)
    ensures forall i, j :: 0 <= i < j < |r| ==> StrLess(r[i], r[j])
    ensures forall x :: x in r <==> x in s
    ensures |r| == |s|
  {
    StrLessIsStrictTotalOrder();
    r := SortedElements(s, StrLess);
  }

  /** A non-empty set of strings has a least element. */
  lemma LeastStringExists(s: set<string>)
    requires s != {}
    ensures exists m :: m in s && forall y :: y in s && y != m ==> StrLess(m, y)
  {
    StrLessIsStrictTotalOrder();
    MinimumExists(s, StrLess);
  }

  /** Insert `x` before the first element it does not exceed, so that it stays
      ahead of later elements that compare equal to it. */
  function InsertBy<T>(x: T, s: seq<T>, le: (T, T) -> bool): seq<T>
  {
    if s == [] then [x]
    else if le(x, s[0]) then [x] + s
    else [s[0]] + InsertBy(x, s[1..], le)
  }

  /** Putting an element no greater than any of a sorted list in front keeps it sorted. */
  lemma ConsSorted<T>(y: T, t: seq<T>, le: (T, T) -> bool)
    requires SortedBy(t, le)
    requires forall j :: 0 <= j < |t| ==> le(y, t[j])
    ensures SortedBy([y] + t, le)
  {
    var r := [y] + t;
    forall i, j | 0 <= i < j < |r| ensures le(r[i], r[j]) {
      assert r[j] == t[j - 1];
      if i > 0 {
        assert r[i] == t[i - 1];
      }
    }
  }

  lemma SortedTail<T>(s: seq<T>, le: (T, T) -> bool)
    requires s != [] && SortedBy(s, le)
    ensures SortedBy(s[1..], le)
    ensures forall j :: 0 <= j < |s[1..]| ==> le(s[0], s[1..][j])
  {
    var rest := s[1..];
    forall i, j | 0 <= i < j < |rest| ensures le(rest[i], rest[j]) {
      assert rest[i] == s[i + 1] && rest[j] == s[j + 1];
    }
    forall j | 0 <= j < |rest| ensures le(s[0], rest[j]) {
      assert rest[j] == s[j + 1];
    }
  }

  lemma {:induction false} InsertBySorted<T(!new)>(x: T, s: seq<T>, le: (T, T) -> bool)
    requires TotalPreorder(le) && SortedBy(s, le)
    ensures SortedBy(InsertBy(x, s, le), le)
    ensures multiset(InsertBy(x, s, le)) == multiset(s) + multiset{x}
  {
    if s == [] {
    } else if le(x, s[0]) {
      SortedTail(s, le);
      forall j | 0 <= j < |s| ensures le(x, s[j]) {
        if j > 0 {
          assert s[j] == s[1..][j - 1];
        }
      }
      ConsSorted(x, s, le);
    } else {
      var rest := s[1..];
      SortedTail(s, le);
      InsertBySorted(x, rest, le);
      var t := InsertBy(x, rest, le);
      assert le(s[0], x);
      BelowAll(s[0], x, rest, t, le);
      ConsSorted(s[0], t, le);
      assert InsertBy(x, s, le) == [s[0]] + t;
      assert s == [s[0]] + rest;
    }
  }

  /** A bound on `x` and on every element of `rest` bounds every element of a
      permutation of `rest` plus `x`. */
  lemma BelowAll<T>(y: T, x: T, rest: seq<T>, t: seq<T>, le: (T, T) -> bool)
    requires le(y, x) && forall k :: 0 <= k < |rest| ==> le(y, rest[k])
    requires multiset(t) == multiset(rest) + multiset{x}
    ensures forall j :: 0 <= j < |t| ==> le(y, t[j])
  {
    forall j | 0 <= j < |t| ensures le(y, t[j]) {
      assert t[j] in multiset(t);
      if t[j] != x {
        assert t[j] in multiset(rest);
        var k :| 0 <= k < |rest| && rest[k] == t[j];
      }
    }
  }

  /** `Vec::sort_by` with comparator `le`: a stable sort, written as insertion sort. */
  function SortBy<T(!new)>(s: seq<T>, le: (T, T) -> bool): (r: seq<T>)
    requires TotalPreorder(le)
    ensures SortedBy(r, le)
    ensures multiset(r) == multiset(s)
  {
    if s == [] then []
    else
      var tail := SortBy(s[1..], le);
      SortStep(s, tail, le);
      InsertBy(s[0], tail, le)
  }

  /** Inserting the head of `s` into a sorted permutation of its tail gives a
      sorted permutation of `s`. */
  lemma SortStep<T(!new)>(s: seq<T>, tail: seq<T>, le: (T, T) -> bool)
    requires s != [] && TotalPreorder(le)
    requires SortedBy(tail, le) && multiset(tail) == multiset(s[1..])
    ensures SortedBy(InsertBy(s[0], tail, le), le)
    ensures multiset(InsertBy(s[0], tail, le)) == multiset(s)
  {
    InsertBySorted(s[0], tail, le);
    assert s == [s[0]] + s[1..];
  }

  /** The elements of `s` that compare equal to `z` under `le`, in their order in `s`. */
  function EquivalentTo<T>(s: seq<T>, z: T, le: (T, T) -> bool): (r: seq<T>)
    ensures |r| <= |s|
    ensures forall y :: y in r ==> y in s && le(y, z) && le(z, y)
  {
    if s == [] then []
    else (if le(s[0], z) && le(z, s[0]) then [s[0]] else []) + EquivalentTo(s[1..], z, le)
  }

  /** Inserting `x` puts it ahead of every element that compares equal to it. */
  lemma {:induction false} InsertByStable<T(!new)>(x: T, s: seq<T>, z: T, le: (T, T) -> bool)
    requires TotalPreorder(le)
    ensures EquivalentTo(InsertBy(x, s, le), z, le)
         == (if le(x, z) && le(z, x) then [x] else []) + EquivalentTo(s, z, le)
  {
    if s == [] {
      EquivalentToCons(x, [], z, le);
    } else if le(x, s[0]) {
      EquivalentToCons(x, s, z, le);
    } else {
      InsertByStable(x, s[1..], z, le);
      if le(s[0], z) && le(z, s[0]) {
        NotEquivalentPast(x, s[0], z, le);
      }
      InsertByStableStep(x, s, z, le);
    }
  }

  /** The step of `InsertByStable` past the head of `s`, which is not
      equivalent to `z` when `x` is. */
  lemma InsertByStableStep<T>(x: T, s: seq<T>, z: T, le: (T, T) -> bool)
    requires s != [] && !le(x, s[0])
    requires !(le(s[0], z) && le(z, s[0]) && le(x, z) && le(z, x))
    requires EquivalentTo(InsertBy(x, s[1..], le), z, le)
          == (if le(x, z) && le(z, x) then [x] else []) + EquivalentTo(s[1..], z, le)
    ensures EquivalentTo(InsertBy(x, s, le), z, le)
         == (if le(x, z) && le(z, x) then [x] else []) + EquivalentTo(s, z, le)
  {
    var rest, t := s[1..], InsertBy(x, s[1..], le);
    assert InsertBy(x, s, le) == [s[0]] + t;
    assert s == [s[0]] + rest;
    EquivalentToCons(s[0], t, z, le);
    EquivalentToCons(s[0], rest, z, le);
    if le(s[0], z) && le(z, s[0]) {
      assert EquivalentTo(t, z, le) == EquivalentTo(rest, z, le);
      assert EquivalentTo(s, z, le) == [s[0]] + EquivalentTo(rest, z, le);
    } else {
      assert EquivalentTo(s, z, le) == EquivalentTo(rest, z, le);
    }
  }

  /** `EquivalentTo` of a list with a head added. */
  lemma EquivalentToCons<T>(y: T, t: seq<T>, z: T, le: (T, T) -> bool)
    ensures EquivalentTo([y] + t, z, le) == (if le(y, z) && le(z, y) then [y] else []) + EquivalentTo(t, z, le)
  {
    assert ([y] + t)[1..] == t;
  }

  /** An element that does not go before `y` is not equivalent to anything `y` is equivalent to. */
  lemma NotEquivalentPast<T(!new)>(x: T, y: T, z: T, le: (T, T) -> bool)
    requires TotalPreorder(le)
    requires !le(x, y) && le(y, z) && le(z, y)
    ensures !(le(x, z) && le(z, x))
  {
  }

  lemma {:induction false} SortByStable<T(!new)>(s: seq<T>, z: T, le: (T, T) -> bool)
    requires TotalPreorder(le)
    ensures EquivalentTo(SortBy(s, le), z, le) == EquivalentTo(s, z, le)
  {
    if s != [] {
      SortByStable(s[1..], z, le);
      InsertByStable(s[0], SortBy(s[1..], le), z, le);
    }
  }
}
