/** Sequence helpers behind the store's iteration order: the key order of a
    JavaScript `Map`, `Array.prototype.filter` and `Array.prototype.find`. */
module Sequences {
  import opened Wrappers

  /** Strictly ascending: in particular, no key occurs twice. */
  ghost predicate Increasing(s: seq<int>) {
    forall i, j :: 0 <= i < j < |s| ==> s[i] < s[j]
  }

  /** The ascending run `start, start + 1, ..., start + n - 1`. */
  function Range(start: int, n: nat): (r: seq<int>)
    ensures |r| == n
    ensures forall i :: 0 <= i < n ==> r[i] == start + i
  {
    seq(n, i => start + i)
  }

  lemma AppendAssoc<T>(a: seq<T>, b: seq<T>, c: seq<T>)
    ensures (a + b) + c == a + (b + c)
  {
  }

  lemma RangeCons(start: int, n: nat)
    requires n > 0
    ensures Range(start, n) == [start] + Range(start + 1, n - 1)
  {
  }

  /** `s` with every occurrence of `x` taken out and the rest in the same
      order: what `Map.delete(x)` does to the key order. */
  function Without(s: seq<int>, x: int): (r: seq<int>)
    ensures forall k :: k in r <==> k in s && k != x
    ensures |r| <= |s|
  {
    if s == [] then []
    else if s[0] == x then Without(s[1..], x)
    else [s[0]] + Without(s[1..], x)
  }

  /** The head of a strictly ascending sequence is below everything in its tail. */
  lemma {:induction false} HeadIsLeast(s: seq<int>, k: int)
    requires Increasing(s) && |s| > 0 && k in s[1..]
    ensures s[0] < k
  {
    var j :| 0 <= j < |s[1..]| && s[1..][j] == k;
    assert s[j + 1] == k;
  }

  /** The head of a strictly ascending sequence is its least element. */
  lemma HeadIsMin(s: seq<int>, k: int)
    requires Increasing(s) && k in s
    ensures s[0] <= k
  {
  }

  /** Deleting a key keeps the remaining keys strictly ascending. */
  lemma {:induction false} WithoutIncreasing(s: seq<int>, x: int)
    requires Increasing(s)
    ensures Increasing(Without(s, x))
  {
    if s != [] {
      assert Increasing(s[1..]);
      WithoutIncreasing(s[1..], x);
      if s[0] != x {
        var rest := Without(s[1..], x);
        forall k | k in rest ensures s[0] < k {
          HeadIsLeast(s, k);
        }
        assert forall j :: 0 <= j < |rest| ==> rest[j] in rest;
      }
    }
  }

  /** Deleting a key that is not there changes nothing. */
  lemma {:induction false} WithoutAbsent(s: seq<int>, x: int)
    requires x !in s
    ensures Without(s, x) == s
  {
    if s != [] {
      assert x !in s[1..];
      WithoutAbsent(s[1..], x);
    }
  }

  /** Deleting the key just appended restores the sequence. */
  lemma {:induction false} WithoutLast(s: seq<int>, x: int)
    requires x !in s
    ensures Without(s + [x], x) == s
  {
    if s == [] {
      assert [x][1..] == [];
    } else {
      assert (s + [x])[1..] == s[1..] + [x];
      WithoutLast(s[1..], x);
      assert s == [s[0]] + s[1..];
    }
  }

  /** Two strictly ascending sequences holding the same keys are the same
      sequence: "ascending order" leaves no choice. */
  lemma {:induction false} IncreasingUnique(a: seq<int>, b: seq<int>)
    requires Increasing(a) && Increasing(b)
    requires forall k :: k in a <==> k in b
    ensures a == b
  {
    if a != [] { assert a[0] in a; }
    if b != [] { assert b[0] in b; }
    if a != [] {
      assert a[0] in b && b[0] in a;
      HeadIsMin(a, b[0]);
      HeadIsMin(b, a[0]);
      forall k ensures k in a[1..] <==> k in b[1..] {
        if k in a[1..] { HeadIsLeast(a, k); assert k in b; }
        if k in b[1..] { HeadIsLeast(b, k); assert k in a; }
      }
      assert Increasing(a[1..]) && Increasing(b[1..]);
      IncreasingUnique(a[1..], b[1..]);
      assert a == [a[0]] + a[1..] && b == [b[0]] + b[1..];
    }
  }

  /** `Array.prototype.filter`: the elements satisfying `p`, in order. */
  function Filter<T>(xs: seq<T>, p: T -> bool): (r: seq<T>)
    ensures |r| <= |xs|
    ensures forall i :: 0 <= i < |r| ==> p(r[i])
  {
    if xs == [] then []
    else (if p(xs[0]) then [xs[0]] else []) + Filter(xs[1..], p)
  }

  /** `Array.prototype.find`: the first element satisfying `p`, if any. */
  function First<T>(xs: seq<T>, p: T -> bool): (r: Option<T>)
    ensures r.Some? ==> p(r.value)
    ensures r.None? <==> forall i :: 0 <= i < |xs| ==> !p(xs[i])
  {
    if xs == [] then None
    else if p(xs[0]) then Some(xs[0])
    else First(xs[1..], p)
  }

  /** `find` returns the head of what `filter` returns, so the earliest match. */
  lemma {:induction false} FirstIsHeadOfFilter<T>(xs: seq<T>, p: T -> bool)
    ensures First(xs, p) == if Filter(xs, p) == [] then None else Some(Filter(xs, p)[0])
  {
    if xs != [] && !p(xs[0]) {
      FirstIsHeadOfFilter(xs[1..], p);
      assert Filter(xs, p) == Filter(xs[1..], p);
    }
  }

  /** The record under each key of `ks`, in the order of `ks`: what
      `Array.from(map.values())` reads when the keys are iterated in that order. */
  function Project<R>(rows: map<int, R>, ks: seq<int>): (r: seq<R>)
    requires forall i :: 0 <= i < |ks| ==> ks[i] in rows
    ensures |r| == |ks|
    ensures forall i :: 0 <= i < |ks| ==> ks[i] in rows && r[i] == rows[ks[i]]
  {
    if ks == [] then []
    else [rows[ks[0]]] + Project(rows, ks[1..])
  }

  /** The keys of `ks` whose record satisfies `p`, in the order of `ks`. */
  function Keep<R>(rows: map<int, R>, ks: seq<int>, p: R -> bool): (r: seq<int>)
    requires forall i :: 0 <= i < |ks| ==> ks[i] in rows
    ensures forall i :: 0 <= i < |r| ==> r[i] in rows
    ensures forall k :: k in r <==> k in ks && p(rows[k])
  {
    if ks == [] then []
    else (if p(rows[ks[0]]) then [ks[0]] else []) + Keep(rows, ks[1..], p)
  }

  /** Keeping ascending keys leaves them ascending. */
  lemma {:induction false} KeepIncreasing<R>(rows: map<int, R>, ks: seq<int>, p: R -> bool)
    requires forall i :: 0 <= i < |ks| ==> ks[i] in rows
    requires Increasing(ks)
    ensures Increasing(Keep(rows, ks, p))
  {
    if ks != [] {
      assert Increasing(ks[1..]);
      KeepIncreasing(rows, ks[1..], p);
      var rest := Keep(rows, ks[1..], p);
      if p(rows[ks[0]]) {
        forall k | k in rest ensures ks[0] < k {
          HeadIsLeast(ks, k);
        }
        assert forall j :: 0 <= j < |rest| ==> rest[j] in rest;
      }
    }
  }

  /** Filtering the records read in key order is reading the kept keys:
      `filter` commutes with `Array.from(map.values())`. */
  lemma {:induction false} FilterProject<R>(rows: map<int, R>, ks: seq<int>, p: R -> bool)
    requires forall i :: 0 <= i < |ks| ==> ks[i] in rows
    ensures Filter(Project(rows, ks), p) == Project(rows, Keep(rows, ks, p))
  {
    if ks != [] {
      FilterProject(rows, ks[1..], p);
      var xs := Project(rows, ks);
      assert xs[0] == rows[ks[0]] && xs[1..] == Project(rows, ks[1..]);
      if p(rows[ks[0]]) {
        assert Keep(rows, ks, p) == [ks[0]] + Keep(rows, ks[1..], p);
        assert Keep(rows, ks, p)[1..] == Keep(rows, ks[1..], p);
      } else {
        assert Keep(rows, ks, p) == Keep(rows, ks[1..], p);
      }
    }
  }
}
