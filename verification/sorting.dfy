/** Stable sorting by a total preorder: the behaviour of JavaScript's
    `Array.prototype.sort` with a consistent comparator and of Python's
    `sorted`, both of which keep equal elements in their original order. */
module Sorting {
  import Seqs

  /** `le` is a total preorder: any two elements compare, and comparison
      chains. */
  ghost predicate TotalPreorder<T(!new)>(le: (T, T) -> bool) {
    (forall a, b :: le(a, b) || le(b, a))
    && (forall a, b, c :: le(a, b) && le(b, c) ==> le(a, c))
  }

  predicate Sorted<T>(s: seq<T>, le: (T, T) -> bool) {
    forall i, j :: 0 <= i < j < |s| ==> le(s[i], s[j])
  }

  /** Places `x` after every element of the sorted `s` that does not come
      after it, which keeps equal elements in arrival order. */
  function Insert<T>(x: T, s: seq<T>, le: (T, T) -> bool): (r: seq<T>)
    ensures multiset(r) == multiset(s) + multiset{x}
    ensures |r| == |s| + 1
  {
    if |s| == 0 then [x]
    else if le(s[0], x) then
      assert s == [s[0]] + s[1..];
      [s[0]] + Insert(x, s[1..], le)
    else [x] + s
  }

  /** Insertion sort, taking the elements in their original order. */
  function SortBy<T>(s: seq<T>, le: (T, T) -> bool): (r: seq<T>)
    ensures multiset(r) == multiset(s)
    ensures |r| == |s|
  {
    if |s| == 0 then []
    else
      assert s == s[..|s| - 1] + [s[|s| - 1]];
      Insert(s[|s| - 1], SortBy(s[..|s| - 1], le), le)
  }

  /** Inserting into a sorted sequence keeps it sorted. */
  lemma {:induction false} InsertSorted<T(!new)>(x: T, s: seq<T>, le: (T, T) -> bool)
    requires TotalPreorder(le) && Sorted(s, le)
    ensures Sorted(Insert(x, s, le), le)
    decreases |s|
  {
    if |s| > 0 && le(s[0], x) {
      var rest := Insert(x, s[1..], le);
      InsertSorted(x, s[1..], le);
      InsertMembers(x, s[1..], le);
      var r := [s[0]] + rest;
      forall i, j | 0 <= i < j < |r| ensures le(r[i], r[j]) {
        if i == 0 {
          assert r[j] == rest[j - 1];
          assert r[j] in multiset(rest);
          if r[j] != x {
            assert r[j] in s[1..];
            var k :| 0 <= k < |s[1..]| && s[1..][k] == r[j];
            assert s[k + 1] == r[j];
          }
        }
      }
    } else if |s| > 0 {
      var r := [x] + s;
      forall i, j | 0 <= i < j < |r| ensures le(r[i], r[j]) {
        if i == 0 {
          assert le(x, s[0]);
          if j > 1 {
            assert le(s[0], s[j - 1]);
          }
        }
      }
    }
  }

  /** `s[0]` comes no later than anything `Insert` builds from `x` and the
      rest of the sorted `s`. */
  lemma InsertMembers<T(!new)>(x: T, t: seq<T>, le: (T, T) -> bool)
    ensures forall y :: y in multiset(Insert(x, t, le)) ==> y == x || y in t
  {
    forall y | y in multiset(Insert(x, t, le)) ensures y == x || y in t {
      assert y in multiset(t) + multiset{x};
    }
  }

  /** The sort's result is sorted and is a permutation of its input. */
  lemma {:induction false} SortBySorted<T(!new)>(s: seq<T>, le: (T, T) -> bool)
    requires TotalPreorder(le)
    ensures Sorted(SortBy(s, le), le)
    ensures multiset(SortBy(s, le)) == multiset(s)
    decreases |s|
  {
    if |s| > 0 {
      SortBySorted(s[..|s| - 1], le);
      InsertSorted(s[|s| - 1], SortBy(s[..|s| - 1], le), le);
    }
  }

  /** The elements `le` cannot tell apart from `x`. */
  function Equiv<T>(le: (T, T) -> bool, x: T): T -> bool {
    z => le(z, x) && le(x, z)
  }

  /** Inserting `y` puts it after every element of the sorted `s` that is
      equivalent to it, so each class of equivalent elements only grows at
      its end. */
  lemma {:induction false} InsertStable<T(!new)>(y: T, s: seq<T>, le: (T, T) -> bool, x: T)
    requires TotalPreorder(le) && Sorted(s, le)
    ensures Seqs.Filter(Insert(y, s, le), Equiv(le, x))
         == Seqs.Filter(s, Equiv(le, x)) + (if Equiv(le, x)(y) then [y] else [])
    decreases |s|
  {
    var p := Equiv(le, x);
    var tail := if p(y) then [y] else [];
    if |s| == 0 {
      FilterOne(y, p);
    } else if le(s[0], y) {
      var rest := Insert(y, s[1..], le);
      SortedTail(s, le);
      InsertStable(y, s[1..], le, x);
      var head := if p(s[0]) then [s[0]] else [];
      assert ([s[0]] + rest)[1..] == rest;
      assert Seqs.Filter(Insert(y, s, le), p) == head + Seqs.Filter(rest, p);
      assert Seqs.Filter(s, p) == head + Seqs.Filter(s[1..], p);
      Seqs.Assoc(head, Seqs.Filter(s[1..], p), tail);
    } else {
      assert ([y] + s)[1..] == s;
      assert Seqs.Filter(Insert(y, s, le), p) == tail + Seqs.Filter(s, p);
      if p(y) {
        forall k | 0 <= k < |s| ensures !p(s[k]) {
          if k > 0 {
            assert le(s[0], s[k]);
          }
        }
      }
    }
  }

  /** The sort is stable: among elements `le` cannot tell apart, the output
      keeps the order of the input. */
  lemma {:induction false} SortByStable<T(!new)>(s: seq<T>, le: (T, T) -> bool, x: T)
    requires TotalPreorder(le)
    ensures Seqs.Filter(SortBy(s, le), Equiv(le, x)) == Seqs.Filter(s, Equiv(le, x))
    decreases |s|
  {
    if |s| > 0 {
      var p := Equiv(le, x);
      var init, last := s[..|s| - 1], s[|s| - 1];
      var sorted := SortBy(init, le);
      assert SortBy(s, le) == Insert(last, sorted, le);
      SortByStable(init, le, x);
      SortBySorted(init, le);
      InsertStable(last, sorted, le, x);
      assert Seqs.Filter(SortBy(s, le), p) == Seqs.Filter(init, p) + (if p(last) then [last] else []);
      FilterInitLast(s, p);
    }
  }

  /** Filtering a sequence filters all but its last element, then that one. */
  lemma FilterInitLast<T>(s: seq<T>, p: T -> bool)
    requires |s| > 0
    ensures Seqs.Filter(s, p) == Seqs.Filter(s[..|s| - 1], p) + (if p(s[|s| - 1]) then [s[|s| - 1]] else [])
  {
    var init, last := s[..|s| - 1], s[|s| - 1];
    InitLast(s);
    Seqs.FilterAppend(init, [last], p);
    FilterOne(last, p);
  }

  lemma InitLast<T>(s: seq<T>)
    requires |s| > 0
    ensures s == s[..|s| - 1] + [s[|s| - 1]]
  {
  }

  lemma FilterOne<T>(y: T, p: T -> bool)
    ensures Seqs.Filter([y], p) == if p(y) then [y] else []
  {
    assert [y][1..] == [];
  }

  /** Sorting keeps every element: what holds of all of the input holds of
      all of the output. */
  lemma SortKeepsProperty<T>(s: seq<T>, le: (T, T) -> bool, p: T -> bool)
    requires forall i :: 0 <= i < |s| ==> p(s[i])
    ensures forall k :: 0 <= k < |SortBy(s, le)| ==> p(SortBy(s, le)[k])
  {
    var r := SortBy(s, le);
    forall k | 0 <= k < |r| ensures p(r[k]) {
      assert r[k] in multiset(s);
      var j :| 0 <= j < |s| && s[j] == r[k];
    }
  }

  lemma SortedTail<T>(a: seq<T>, le: (T, T) -> bool)
    requires |a| > 0 && Sorted(a, le)
    ensures Sorted(a[1..], le)
  {
    forall i, j | 0 <= i < j < |a[1..]| ensures le(a[1..][i], a[1..][j]) {
      assert a[1..][i] == a[i + 1] && a[1..][j] == a[j + 1];
    }
  }

  /** The first elements of two sorted permutations are equal. */
  lemma SortedHeads<T(!new)>(a: seq<T>, b: seq<T>, le: (T, T) -> bool)
    requires |a| > 0 && |b| > 0
    requires Sorted(a, le) && Sorted(b, le) && multiset(a) == multiset(b)
    requires forall x, y :: le(x, y) && le(y, x) ==> x == y
    ensures a[0] == b[0]
  {
    assert b[0] in multiset(a) && a[0] in multiset(b);
    var i :| 0 <= i < |a| && a[i] == b[0];
    var j :| 0 <= j < |b| && b[j] == a[0];
    if i != 0 && j != 0 {
      assert le(a[0], a[i]) && le(b[0], b[j]);
    }
  }

  lemma TailMultiset<T>(a: seq<T>, b: seq<T>)
    requires |a| > 0 && |b| > 0 && a[0] == b[0] && multiset(a) == multiset(b)
    ensures multiset(a[1..]) == multiset(b[1..])
  {
    assert a == [a[0]] + a[1..] && b == [b[0]] + b[1..];
    assert multiset(a) == multiset{a[0]} + multiset(a[1..]);
    assert multiset(b) == multiset{b[0]} + multiset(b[1..]);
    assert multiset(a[1..]) == multiset(a) - multiset{a[0]};
    assert multiset(b[1..]) == multiset(b) - multiset{b[0]};
  }

  /** Sorted permutations of one another are equal when `le` is
      antisymmetric (distinct elements never compare both ways). */
  lemma {:induction false} SortedUnique<T(!new)>(a: seq<T>, b: seq<T>, le: (T, T) -> bool)
    requires Sorted(a, le) && Sorted(b, le) && multiset(a) == multiset(b)
    requires forall x, y :: le(x, y) && le(y, x) ==> x == y
    ensures a == b
    decreases |a|
  {
    assert |a| == |multiset(a)| == |b|;
    if |a| > 0 {
      SortedHeads(a, b, le);
      TailMultiset(a, b);
      SortedTail(a, le);
      SortedTail(b, le);
      SortedUnique(a[1..], b[1..], le);
      assert a == [a[0]] + a[1..] && b == [b[0]] + b[1..];
    }
  }

  /** Python's `<=` on strings: code point by code point, a prefix first. */
  predicate StrLe(a: string, b: string) {
    |a| == 0 || (|b| > 0 && (a[0] < b[0] || (a[0] == b[0] && StrLe(a[1..], b[1..]))))
  }

  lemma {:induction false} StrLeTotal(a: string, b: string)
    ensures StrLe(a, b) || StrLe(b, a)
    decreases |a|
  {
    if |a| > 0 && |b| > 0 && a[0] == b[0] {
      StrLeTotal(a[1..], b[1..]);
    }
  }

  lemma {:induction false} StrLeTrans(a: string, b: string, c: string)
    requires StrLe(a, b) && StrLe(b, c)
    ensures StrLe(a, c)
    decreases |a|
  {
    if |a| > 0 && a[0] == b[0] && b[0] == c[0] {
      StrLeTrans(a[1..], b[1..], c[1..]);
    }
  }

  lemma {:induction false} StrLeAntisymmetric(a: string, b: string)
    requires StrLe(a, b) && StrLe(b, a)
    ensures a == b
    decreases |a|
  {
    if |a| > 0 {
      StrLeAntisymmetric(a[1..], b[1..]);
      assert a == [a[0]] + a[1..] && b == [b[0]] + b[1..];
    }
  }

  lemma SortedFour<T>(a: T, b: T, c: T, d: T, le: (T, T) -> bool)
    requires le(a, b) && le(a, c) && le(a, d) && le(b, c) && le(b, d) && le(c, d)
    ensures Sorted([a, b, c, d], le)
  {
  }

  /** Strings are ordered by their first characters when those differ. */
  lemma StrLeByHead(a: string, b: string)
    requires |a| > 0 && |b| > 0 && a[0] < b[0]
    ensures StrLe(a, b)
  {
  }

  /** Strings with a common prefix compare as their rests do. */
  lemma {:induction false} StrLeAfterPrefix(p: string, a: string, b: string)
    requires StrLe(a, b)
    ensures StrLe(p + a, p + b)
    decreases |p|
  {
    if |p| == 0 {
      assert p + a == a && p + b == b;
    } else {
      var pa, pb := p + a, p + b;
      assert pa[0] == pb[0];
      assert pa[1..] == p[1..] + a;
      assert pb[1..] == p[1..] + b;
      StrLeAfterPrefix(p[1..], a, b);
    }
  }

  /** String order is a total preorder, and antisymmetric. */
  lemma StrLeOrder()
    ensures TotalPreorder(StrLe)
    ensures forall x, y :: StrLe(x, y) && StrLe(y, x) ==> x == y
  {
    forall a, b ensures StrLe(a, b) || StrLe(b, a) {
      StrLeTotal(a, b);
    }
    forall a, b, c | StrLe(a, b) && StrLe(b, c) ensures StrLe(a, c) {
      StrLeTrans(a, b, c);
    }
    forall a, b | StrLe(a, b) && StrLe(b, a) ensures a == b {
      StrLeAntisymmetric(a, b);
    }
  }
}
