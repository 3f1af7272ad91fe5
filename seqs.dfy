/** Sequence helpers standing in for the JavaScript array methods the services use:
    `filter`, `findIndex`, `splice(i, 1)`, `slice(0, n)`, `reduce` with `+`,
    insertion-ordered `Set`, and `sort` with a descending comparator. */
module Seqs {

  /** True when no element occurs twice. */
  predicate NoDuplicates<T(==,!new)>(s: seq<T>) {
    forall i, j :: 0 <= i < j < |s| ==> s[i] != s[j]
  }

  /** `Array.prototype.filter`: the elements that satisfy `p`, in their original order. */
  function Filter<T(==,!new)>(s: seq<T>, p: T -> bool): (r: seq<T>)
    ensures |r| <= |s|
    ensures forall x :: x in r <==> x in s && p(x)
    ensures forall x :: multiset(r)[x] == if p(x) then multiset(s)[x] else 0
  {
    if s == [] then []
    else
      assert s == [s[0]] + s[1..];
      (if p(s[0]) then [s[0]] else []) + Filter(s[1..], p)
  }

  /** Filtering commutes with concatenation, so the relative order of kept elements is preserved. */
  lemma {:induction false} FilterAppend<T(!new)>(a: seq<T>, b: seq<T>, p: T -> bool)
    ensures Filter(a + b, p) == Filter(a, p) + Filter(b, p)
  {
    if a == [] {
      assert a + b == b;
    } else {
      var h := if p(a[0]) then [a[0]] else [];
      ConsAppend(a, b);
      FilterCons(a + b, p);
      FilterCons(a, p);
      FilterAppend(a[1..], b, p);
      AppendAssoc(h, Filter(a[1..], p), Filter(b, p));
    }
  }

  lemma AppendAssoc<T>(a: seq<T>, b: seq<T>, c: seq<T>)
    ensures a + (b + c) == (a + b) + c
  {
  }

  /** Unfolding `Filter` at the head. */
  lemma FilterCons<T(!new)>(s: seq<T>, p: T -> bool)
    requires s != []
    ensures Filter(s, p) == (if p(s[0]) then [s[0]] else []) + Filter(s[1..], p)
  {
  }

  /** The head and tail of a concatenation with a non-empty left part. */
  lemma ConsAppend<T>(a: seq<T>, b: seq<T>)
    requires a != []
    ensures a + b != [] && (a + b)[0] == a[0] && (a + b)[1..] == a[1..] + b
  {
  }

  /** `Array.prototype.findIndex`: the first index whose element satisfies `p`, or -1. */
  function FirstIndex<T>(s: seq<T>, p: T -> bool): (r: int)
    ensures -1 <= r < |s|
    ensures 0 <= r ==> p(s[r]) && forall j :: 0 <= j < r ==> !p(s[j])
    ensures r < 0 <==> forall j :: 0 <= j < |s| ==> !p(s[j])
  {
    if s == [] then -1
    else if p(s[0]) then 0
    else
      var k := FirstIndex(s[1..], p);
      if k < 0 then -1 else k + 1
  }

  /** `splice(i, 1)`: the sequence without its element at index `i`. */
  function RemoveAt<T>(s: seq<T>, i: nat): (r: seq<T>)
    requires i < |s|
    ensures |r| == |s| - 1
    ensures forall j :: 0 <= j < i ==> r[j] == s[j]
    ensures forall j :: i <= j < |r| ==> r[j] == s[j + 1]
  {
    s[..i] + s[i + 1..]
  }

  /** Position of the first occurrence of `x`. */
  function IndexOf<T(==,!new)>(s: seq<T>, x: T): (r: nat)
    requires x in s
    ensures r < |s| && s[r] == x && x !in s[..r]
  {
    if s[0] == x then 0
    else
      assert s == [s[0]] + s[1..];
      var k := IndexOf(s[1..], x);
      assert s[..k + 1] == [s[0]] + s[1..][..k];
      k + 1
  }

  /** The first-occurrence index is the only index holding `x` with no earlier `x`. */
  lemma IndexOfUnique<T(!new)>(s: seq<T>, x: T, k: nat)
    requires k < |s| && s[k] == x && x !in s[..k]
    ensures IndexOf(s, x) == k
  {
  }

  /** The distinct elements of `s` in first-occurrence order: what an insertion-ordered
      JavaScript `Set` (or an object's keys) holds after adding the elements of `s` in turn. */
  function Distinct<T(==,!new)>(s: seq<T>): (r: seq<T>)
    ensures NoDuplicates(r)
    ensures forall x :: x in r <==> x in s
    ensures |r| <= |s|
  {
    if s == [] then []
    else
      var p := s[..|s| - 1];
      var x := s[|s| - 1];
      assert s == p + [x];
      var d := Distinct(p);
      if x in d then d else d + [x]
  }

  /** Unfolding `Distinct` on a sequence extended at the end. */
  lemma DistinctSnoc<T(!new)>(p: seq<T>, x: T)
    ensures Distinct(p + [x]) == if x in Distinct(p) then Distinct(p) else Distinct(p) + [x]
  {
    assert (p + [x])[..|p + [x]| - 1] == p;
  }

  /** Extending a sequence does not move the first occurrence of an element already in it. */
  lemma IndexOfSnoc<T(!new)>(p: seq<T>, x: T, y: T)
    requires y in p
    ensures IndexOf(p + [x], y) == IndexOf(p, y)
  {
    var a := IndexOf(p, y);
    assert (p + [x])[..a] == p[..a];
    IndexOfUnique(p + [x], y, a);
  }

  /** A new element first occurs at the end. */
  lemma IndexOfSnocNew<T(!new)>(p: seq<T>, x: T)
    requires x !in p
    ensures IndexOf(p + [x], x) == |p|
  {
    assert (p + [x])[..|p|] == p;
    IndexOfUnique(p + [x], x, |p|);
  }

  /** `Distinct` lists the elements in the order of their first occurrence in `s`. */
  lemma {:induction false} DistinctFirstOccurrenceOrder<T(!new)>(s: seq<T>, i: nat, j: nat)
    requires i < j < |Distinct(s)|
    ensures Distinct(s)[i] in s && Distinct(s)[j] in s
    ensures IndexOf(s, Distinct(s)[i]) < IndexOf(s, Distinct(s)[j])
  {
    var p, x := s[..|s| - 1], s[|s| - 1];
    assert s == p + [x];
    var d := Distinct(p);
    DistinctSnoc(p, x);
    assert d[i] in p;
    IndexOfSnoc(p, x, d[i]);
    if j < |d| {
      DistinctFirstOccurrenceOrder(p, i, j);
      IndexOfSnoc(p, x, d[j]);
    } else {
      IndexOfSnocNew(p, x);
    }
  }

  /** An element of a sequence without repetitions occurs in it at most once. */
  lemma {:induction false} NoDuplicatesCount<T(!new)>(s: seq<T>, x: T)
    requires NoDuplicates(s)
    ensures multiset(s)[x] <= 1
  {
    if s != [] {
      assert s == [s[0]] + s[1..];
      assert NoDuplicates(s[1..]) by {
        forall i, j | 0 <= i < j < |s[1..]| ensures s[1..][i] != s[1..][j] {
          assert s[1..][i] == s[i + 1] && s[1..][j] == s[j + 1];
        }
      }
      NoDuplicatesCount(s[1..], x);
      if x == s[0] {
        assert x !in s[1..] by {
          forall k | 0 <= k < |s[1..]| ensures s[1..][k] != x {
            assert s[1..][k] == s[k + 1];
          }
        }
      }
    }
  }

  /** An element found at two positions occurs at least twice. */
  lemma RepeatCount<T(!new)>(s: seq<T>, i: nat, j: nat)
    requires i < j < |s| && s[i] == s[j]
    ensures multiset(s)[s[i]] >= 2
  {
    assert s == s[..j] + s[j..];
    assert s[..j][i] == s[i];
    assert s[j..][0] == s[j];
  }

  /** A permutation of a sequence without repetitions has none either. */
  lemma PermutationNoDuplicates<T(!new)>(s: seq<T>, r: seq<T>)
    requires multiset(r) == multiset(s) && NoDuplicates(s)
    ensures NoDuplicates(r)
  {
    forall i, j | 0 <= i < j < |r| ensures r[i] != r[j] {
      NoDuplicatesCount(s, r[i]);
      if r[i] == r[j] {
        RepeatCount(r, i, j);
      }
    }
  }

  /** Non-increasing by `key`: the order of `sort((a, b) => key(b) - key(a))`. */
  predicate SortedDesc<T>(s: seq<T>, key: T -> real) {
    forall i, j :: 0 <= i < j < |s| ==> key(s[i]) >= key(s[j])
  }

  /** Inserts `x` after every element whose key is at least `key(x)`. */
  function InsertDesc<T(==,!new)>(x: T, s: seq<T>, key: T -> real): (r: seq<T>)
    requires SortedDesc(s, key)
    ensures SortedDesc(r, key)
    ensures multiset(r) == multiset(s) + multiset{x}
    ensures |r| == |s| + 1
  {
    if s == [] || key(x) > key(s[0]) then [x] + s
    else
      var rest := InsertDesc(x, s[1..], key);
      InsertDescBehindHead(x, s, rest, key);
      [s[0]] + rest
  }

  /** Putting the head of `s` back in front of `x` inserted into the tail keeps the order. */
  lemma InsertDescBehindHead<T(!new)>(x: T, s: seq<T>, rest: seq<T>, key: T -> real)
    requires s != [] && SortedDesc(s, key) && key(x) <= key(s[0])
    requires SortedDesc(rest, key) && multiset(rest) == multiset(s[1..]) + multiset{x}
    ensures SortedDesc([s[0]] + rest, key)
    ensures multiset([s[0]] + rest) == multiset(s) + multiset{x}
  {
    assert s == [s[0]] + s[1..];
    forall k | 0 <= k < |rest| ensures key(s[0]) >= key(rest[k]) {
      assert rest[k] in multiset(rest);
      if rest[k] != x {
        assert rest[k] in multiset(s[1..]);
        var j :| 0 <= j < |s[1..]| && s[1..][j] == rest[k];
        assert s[j + 1] == rest[k];
      }
    }
    var r := [s[0]] + rest;
    forall i, j | 0 <= i < j < |r| ensures key(r[i]) >= key(r[j]) {
      assert r[j] == rest[j - 1];
      if i > 0 {
        assert r[i] == rest[i - 1];
      }
    }
  }

  /** A stable sort by `key`, largest first (insertion sort, each element placed after
      the earlier elements with an equal key). */
  function SortDesc<T(==,!new)>(s: seq<T>, key: T -> real): (r: seq<T>)
    ensures SortedDesc(r, key)
    ensures multiset(r) == multiset(s)
    ensures |r| == |s|
  {
    if s == [] then []
    else
      assert s == s[..|s| - 1] + [s[|s| - 1]];
      InsertDesc(s[|s| - 1], SortDesc(s[..|s| - 1], key), key)
  }

  /** Splitting a sorted sequence leaves a sorted prefix whose keys are all at least those of
      the rest. */
  lemma SortedSplit<T(!new)>(r: seq<T>, key: T -> real, e: nat)
    requires SortedDesc(r, key) && e <= |r|
    ensures SortedDesc(r[..e], key)
    ensures forall x, y :: x in r[..e] && y in r[e..] ==> key(y) <= key(x)
  {
    forall x, y | x in r[..e] && y in r[e..] ensures key(y) <= key(x) {
      var i :| 0 <= i < e && r[i] == x;
      var j :| 0 <= j < |r| - e && r[e..][j] == y;
      assert r[e + j] == y;
    }
  }

  /** A prefix of the sorted sequence is sorted and made of elements of the input, and an
      element left out of it has a key no larger than any element kept. */
  lemma SortDescPrefix<T(!new)>(s: seq<T>, key: T -> real, e: nat)
    requires e <= |s|
    ensures SortedDesc(SortDesc(s, key)[..e], key)
    ensures forall x :: x in SortDesc(s, key)[..e] ==> x in s
    ensures forall x, y :: x in SortDesc(s, key)[..e] && y in SortDesc(s, key)[e..] ==> key(y) <= key(x)
  {
    var r := SortDesc(s, key);
    SortedSplit(r, key, e);
    forall x | x in r[..e] ensures x in s {
      assert x in multiset(r);
    }
  }

  /** An element of `s` that the prefix of the sorted sequence leaves out has a key no larger
      than any element the prefix keeps. */
  lemma SortDescLeftOut<T(!new)>(s: seq<T>, key: T -> real, e: nat, x: T, y: T)
    requires e <= |s|
    requires x in SortDesc(s, key)[..e] && y in s && y !in SortDesc(s, key)[..e]
    ensures key(y) <= key(x)
  {
    LeftOutOfSortedPrefix(SortDesc(s, key), key, e, x, y);
  }

  /** In a sorted sequence, an element outside the first `e` has a key no larger than any
      element among them. */
  lemma LeftOutOfSortedPrefix<T(!new)>(r: seq<T>, key: T -> real, e: nat, x: T, y: T)
    requires SortedDesc(r, key) && e <= |r|
    requires x in r[..e] && y in multiset(r) && y !in r[..e]
    ensures key(y) <= key(x)
  {
    var k :| 0 <= k < e && r[..e][k] == x;
    var i :| 0 <= i < |r| && r[i] == y;
    assert r[k] == x;
  }

  /** The end index `slice(0, limit)` uses on a sequence of length `n`: a negative limit
      counts back from the end. */
  function SliceEnd(n: nat, limit: int): (e: nat)
    ensures e <= n
    ensures 0 <= limit ==> e == if limit < n then limit else n
    ensures limit < 0 ==> e == if n + limit < 0 then 0 else n + limit
  {
    if limit < 0 then (if n + limit < 0 then 0 else n + limit)
    else if limit < n then limit
    else n
  }

  /** `reduce((sum, x) => sum + f(x), 0)`, adding from the left. */
  function SumBy<T>(s: seq<T>, f: T -> real): real
  {
    if s == [] then 0.0 else SumBy(s[..|s| - 1], f) + f(s[|s| - 1])
  }

  /** A sum over a concatenation is the sum of the two sums. */
  lemma {:induction false} SumByAppend<T>(a: seq<T>, b: seq<T>, f: T -> real)
    ensures SumBy(a + b, f) == SumBy(a, f) + SumBy(b, f)
  {
    if b == [] {
      assert a + b == a;
    } else {
      assert (a + b)[..|a + b| - 1] == a + b[..|b| - 1];
      SumByAppend(a, b[..|b| - 1], f);
    }
  }
}
