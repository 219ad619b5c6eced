/**
 * Generic sequence operations the source gets from JavaScript's Array: `filter`,
 * `sort` with a key comparator, `slice(0, n)` / `take`.
 */
module Seqs {

  /** `s.filter(p)`: the elements satisfying `p`, in their original order. */
  function Filter<T(!new)>(s: seq<T>, p: T -> bool): (r: seq<T>)
    ensures |r| <= |s|
    decreases |s|
  {
    if |s| == 0 then []
    else Filter(s[..|s| - 1], p) + (if p(s[|s| - 1]) then [s[|s| - 1]] else [])
  }

  /** The filter keeps exactly the elements satisfying `p`. */
  lemma {:induction false} FilterMembers<T(!new)>(s: seq<T>, p: T -> bool)
    ensures forall x :: x in Filter(s, p) <==> x in s && p(x)
    decreases |s|
  {
    if |s| > 0 {
      var init, last := s[..|s| - 1], s[|s| - 1];
      assert s == init + [last];
      FilterMembers(init, p);
    }
  }

  /** A filter that every element passes keeps the whole sequence. */
  lemma {:induction false} FilterAll<T(!new)>(s: seq<T>, p: T -> bool)
    requires forall i :: 0 <= i < |s| ==> p(s[i])
    ensures Filter(s, p) == s
    decreases |s|
  {
    if |s| > 0 {
      FilterAll(s[..|s| - 1], p);
    }
  }

  /** A filter that no element passes keeps nothing. */
  lemma {:induction false} FilterNone<T(!new)>(s: seq<T>, p: T -> bool)
    requires forall i :: 0 <= i < |s| ==> !p(s[i])
    ensures Filter(s, p) == []
    decreases |s|
  {
    if |s| > 0 {
      FilterNone(s[..|s| - 1], p);
    }
  }

  /** Filtering one element more at the end. */
  lemma FilterSnoc<T(!new)>(s: seq<T>, x: T, p: T -> bool)
    ensures Filter(s + [x], p) == Filter(s, p) + (if p(x) then [x] else [])
  {
    assert (s + [x])[..|s|] == s;
  }

  /** A filter whose predicate is constant on the sequence keeps all of it or nothing. */
  lemma FilterUniform<T(!new)>(s: seq<T>, p: T -> bool, keep: bool)
    requires forall i :: 0 <= i < |s| ==> p(s[i]) == keep
    ensures Filter(s, p) == if keep then s else []
  {
    if keep { FilterAll(s, p); } else { FilterNone(s, p); }
  }

  /** Filtering three blocks, on each of which the predicate is constant, keeps the blocks it holds on. */
  lemma FilterUniformBlocks<T(!new)>(a: seq<T>, b: seq<T>, c: seq<T>, p: T -> bool, ka: bool, kb: bool, kc: bool)
    requires forall i :: 0 <= i < |a| ==> p(a[i]) == ka
    requires forall i :: 0 <= i < |b| ==> p(b[i]) == kb
    requires forall i :: 0 <= i < |c| ==> p(c[i]) == kc
    ensures Filter(a + b + c, p) == (if ka then a else []) + (if kb then b else []) + (if kc then c else [])
  {
    FilterAppend(a + b, c, p);
    FilterAppend(a, b, p);
    FilterUniform(a, p, ka);
    FilterUniform(b, p, kb);
    FilterUniform(c, p, kc);
  }

  /** Filtering keeps the input order: it distributes over concatenation. */
  lemma {:induction false} FilterAppend<T(!new)>(a: seq<T>, b: seq<T>, p: T -> bool)
    ensures Filter(a + b, p) == Filter(a, p) + Filter(b, p)
    decreases |b|
  {
    if |b| == 0 {
      assert a + b == a;
    } else {
      var init, last := b[..|b| - 1], b[|b| - 1];
      var tail := if p(last) then [last] else [];
      assert b == init + [last];
      assert a + b == (a + init) + [last];
      calc {
        Filter(a + b, p);
        { FilterSnoc(a + init, last, p); }
        Filter(a + init, p) + tail;
        { FilterAppend(a, init, p); }
        Filter(a, p) + Filter(init, p) + tail;
        { FilterSnoc(init, last, p); }
        Filter(a, p) + Filter(b, p);
      }
    }
  }

  /** Filtering the result of a filter is one filter by the conjunction. */
  lemma {:induction false} FilterOfFilter<T(!new)>(s: seq<T>, p: T -> bool, q: T -> bool, both: T -> bool)
    requires forall x :: both(x) <==> p(x) && q(x)
    ensures Filter(Filter(s, p), q) == Filter(s, both)
    decreases |s|
  {
    if |s| > 0 {
      var init, last := s[..|s| - 1], s[|s| - 1];
      assert s == init + [last];
      FilterOfFilter(init, p, q, both);
      FilterSnoc(init, last, p);
      FilterSnoc(init, last, both);
      assert both(last) <==> p(last) && q(last);
      if p(last) {
        FilterSnoc(Filter(init, p), last, q);
        assert Filter(s, p) == Filter(init, p) + [last];
      } else {
        assert Filter(s, p) == Filter(init, p);
      }
    }
  }

  /** No element occurs twice. */
  predicate Distinct<T(==)>(s: seq<T>) {
    forall i, j :: 0 <= i < j < |s| ==> s[i] != s[j]
  }

  /** Appending a new element keeps a sequence distinct. */
  lemma DistinctSnoc<T>(s: seq<T>, x: T)
    requires Distinct(s) && x !in s
    ensures Distinct(s + [x])
  {
    var r := s + [x];
    forall i, j | 0 <= i < j < |r| ensures r[i] != r[j] {
      assert r[i] == s[i];
    }
  }

  /** A distinct sequence holds each element at most once. */
  lemma {:induction false} DistinctCounts<T>(s: seq<T>, x: T)
    requires Distinct(s)
    ensures multiset(s)[x] <= 1
    decreases |s|
  {
    if |s| > 0 {
      assert s == [s[0]] + s[1..];
      assert Distinct(s[1..]) by {
        forall i, j | 0 <= i < j < |s[1..]| ensures s[1..][i] != s[1..][j] {
          assert s[1..][i] == s[i + 1] && s[1..][j] == s[j + 1];
        }
      }
      DistinctCounts(s[1..], x);
      if s[0] == x {
        assert x !in s[1..] by {
          forall k | 0 <= k < |s[1..]| ensures s[1..][k] != x {
            assert s[1..][k] == s[k + 1];
          }
        }
      }
    }
  }

  /** A permutation of a distinct sequence is distinct. */
  lemma PermutationKeepsDistinct<T>(a: seq<T>, b: seq<T>)
    requires Distinct(a) && multiset(a) == multiset(b)
    ensures Distinct(b)
  {
    forall i, j | 0 <= i < j < |b| ensures b[i] != b[j] {
      if b[i] == b[j] {
        var x := b[i];
        assert b == b[..j] + b[j..];
        assert x in b[..j] && x in b[j..];
        assert multiset(b)[x] == multiset(b[..j])[x] + multiset(b[j..])[x];
        DistinctCounts(a, x);
        assert false;
      }
    }
  }

  /** Ordered by `key`, largest first (ties in any order). */
  predicate IsDescBy<T>(s: seq<T>, key: T -> int) {
    forall i, j :: 0 <= i < j < |s| ==> key(s[i]) >= key(s[j])
  }

  /** Inserts `x` into a sequence already ordered by `key`, largest first. */
  function InsertDesc<T>(x: T, s: seq<T>, key: T -> int): (r: seq<T>)
    requires IsDescBy(s, key)
    ensures IsDescBy(r, key)
    ensures multiset(r) == multiset(s) + multiset{x}
    decreases |s|
  {
    if |s| == 0 then [x]
    else if key(x) >= key(s[0]) then
      ConsDesc(x, s, key);
      [x] + s
    else
      assert s == [s[0]] + s[1..];
      var rest := InsertDesc(x, s[1..], key);
      HeadBound(s[0], x, s[1..], rest, key);
      ConsDesc(s[0], rest, key);
      [s[0]] + rest
  }

  /** An element no smaller than every element of an ordered sequence can go in front. */
  lemma ConsDesc<T>(h: T, s: seq<T>, key: T -> int)
    requires IsDescBy(s, key)
    requires forall k :: 0 <= k < |s| ==> key(h) >= key(s[k])
    ensures IsDescBy([h] + s, key)
  {
    var r := [h] + s;
    forall i, j | 0 <= i < j < |r| ensures key(r[i]) >= key(r[j]) {
      assert r[j] == s[j - 1];
      if i > 0 {
        assert r[i] == s[i - 1];
      }
    }
  }

  /** The head of an ordered sequence bounds the tail with one smaller element inserted. */
  lemma HeadBound<T>(h: T, x: T, tail: seq<T>, rest: seq<T>, key: T -> int)
    requires IsDescBy([h] + tail, key)
    requires key(x) < key(h)
    requires multiset(rest) == multiset(tail) + multiset{x}
    ensures forall k :: 0 <= k < |rest| ==> key(h) >= key(rest[k])
  {
    forall k | 0 <= k < |rest| ensures key(h) >= key(rest[k]) {
      var y := rest[k];
      assert y in multiset(rest);
      if y != x {
        assert y in multiset(tail);
        var i :| 0 <= i < |tail| && tail[i] == y;
        assert ([h] + tail)[0] == h && ([h] + tail)[i + 1] == y;
      }
    }
  }

  /** `s.sort((a, b) => key(b) - key(a))`: a permutation of `s` ordered by `key`, largest first. */
  function SortDesc<T>(s: seq<T>, key: T -> int): (r: seq<T>)
    ensures IsDescBy(r, key)
    ensures multiset(r) == multiset(s)
    ensures |r| == |s|
    decreases |s|
  {
    if |s| == 0 then []
    else
      assert s == [s[0]] + s[1..];
      InsertDesc(s[0], SortDesc(s[1..], key), key)
  }

  /** A sequence ordered by an injective key without repeats is strictly ordered. */
  lemma StrictWhenDistinct<T>(s: seq<T>, key: T -> int)
    requires IsDescBy(s, key) && Distinct(s)
    requires forall x, y :: x in s && y in s && key(x) == key(y) ==> x == y
    ensures forall i, j :: 0 <= i < j < |s| ==> key(s[i]) > key(s[j])
  {
  }

  /** `s.slice(0, n)` / `take: n`: at most the first `n` elements. */
  function Take<T>(s: seq<T>, n: nat): (r: seq<T>)
    ensures |r| == if |s| < n then |s| else n
    ensures r == s[..|r|]
  {
    if |s| < n then s else s[..n]
  }
}
