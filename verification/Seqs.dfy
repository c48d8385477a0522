/**
 Counting, filtering and stable sorting of rows.

 Predicates and keys are passed as functions; the other modules give them
 names, so that two mentions of one predicate are the same term.
 */
module Seqs {

  function Count<T>(s: seq<T>, p: T -> bool): nat
  {
    if s == [] then 0
    else Count(s[..|s| - 1], p) + if p(s[|s| - 1]) then 1 else 0
  }

  function Filter<T>(s: seq<T>, p: T -> bool): (r: seq<T>)
    ensures forall x :: x in r ==> x in s && p(x)
    ensures forall x :: x in s && p(x) ==> x in r
    ensures |r| == Count(s, p)
  {
    if s == [] then []
    else Filter(s[..|s| - 1], p) + if p(s[|s| - 1]) then [s[|s| - 1]] else []
  }

  function Map<T, U>(s: seq<T>, f: T -> U): (r: seq<U>)
    ensures |r| == |s| && forall i :: 0 <= i < |s| ==> r[i] == f(s[i])
  {
    seq(|s|, i requires 0 <= i < |s| => f(s[i]))
  }

  /** The last `k` entries, or all of them when there are fewer. */
  function Last<T>(s: seq<T>, k: nat): seq<T> { if k >= |s| then s else s[|s| - k..] }

  /** The rows of `s`, largest key first, rows of equal key in their old order. */
  function SortDesc<T>(s: seq<T>, key: T -> real): seq<T>
  {
    if s == [] then [] else Insert(SortDesc(s[..|s| - 1], key), s[|s| - 1], key)
  }

  function Insert<T>(s: seq<T>, x: T, key: T -> real): (r: seq<T>)
    ensures |r| == |s| + 1
  {
    if s == [] || key(s[|s| - 1]) >= key(x) then s + [x]
    else Insert(s[..|s| - 1], x, key) + [s[|s| - 1]]
  }

  predicate Descending<T>(s: seq<T>, key: T -> real) {
    forall i, j :: 0 <= i < j < |s| ==> key(s[i]) >= key(s[j])
  }

  lemma AppendDescending<T>(s: seq<T>, x: T, key: T -> real)
    requires Descending(s, key) && forall y :: y in s ==> key(y) >= key(x)
    ensures Descending(s + [x], key)
  {
    assert forall i :: 0 <= i < |s| ==> s[i] in s;
  }

  lemma {:induction false} InsertPermutes<T>(s: seq<T>, x: T, key: T -> real)
    ensures multiset(Insert(s, x, key)) == multiset(s) + multiset{x}
  {
    if s != [] {
      var n := |s| - 1;
      assert s == s[..n] + [s[n]];
      InsertPermutes(s[..n], x, key);
    }
  }

  lemma {:induction false} InsertSorts<T>(s: seq<T>, x: T, key: T -> real)
    requires Descending(s, key)
    ensures Descending(Insert(s, x, key), key)
    ensures multiset(Insert(s, x, key)) == multiset(s) + multiset{x}
  {
    InsertPermutes(s, x, key);
    if s == [] || key(s[|s| - 1]) >= key(x) {
      assert forall y :: y in s ==> key(y) >= key(x);
      AppendDescending(s, x, key);
    } else {
      var n := |s| - 1;
      var r := Insert(s[..n], x, key);
      InsertSorts(s[..n], x, key);
      assert forall y :: y in s[..n] ==> key(y) >= key(s[n]);
      hide Insert, Descending;
      forall y | y in r ensures key(y) >= key(s[n]) {
        assert y in multiset(r);
      }
      AppendDescending(r, s[n], key);
    }
  }

  lemma {:induction false} SortDescSorts<T>(s: seq<T>, key: T -> real)
    ensures Descending(SortDesc(s, key), key)
    ensures multiset(SortDesc(s, key)) == multiset(s)
    ensures |SortDesc(s, key)| == |s|
  {
    if s != [] {
      var n := |s| - 1;
      assert s == s[..n] + [s[n]];
      SortDescSorts(s[..n], key);
      InsertSorts(SortDesc(s[..n], key), s[n], key);
    }
  }

  lemma CountAppend<T>(s: seq<T>, x: T, p: T -> bool)
    ensures Count(s + [x], p) == Count(s, p) + if p(x) then 1 else 0
  {
    assert (s + [x])[..|s|] == s;
  }

  lemma FilterAppend<T>(s: seq<T>, x: T, p: T -> bool)
    ensures Filter(s + [x], p) == Filter(s, p) + if p(x) then [x] else []
  {
    assert (s + [x])[..|s|] == s;
  }

  lemma FilterNext<T>(s: seq<T>, i: nat, p: T -> bool)
    requires i < |s|
    ensures Filter(s[..i + 1], p) == Filter(s[..i], p) + if p(s[i]) then [s[i]] else []
  {
    assert s[..i + 1] == s[..i] + [s[i]];
    FilterAppend(s[..i], s[i], p);
  }

  lemma {:induction false} FilterWhole<T>(s: seq<T>, p: T -> bool)
    ensures Filter(s[..0], p) == [] && Filter(s[..|s|], p) == Filter(s, p)
  {
    assert s[..|s|] == s;
  }

  predicate Every<T>(s: seq<T>, p: T -> bool) { forall i :: 0 <= i < |s| ==> p(s[i]) }

  lemma EveryBefore<T>(s: seq<T>, p: T -> bool)
    requires Every(s, p) && s != []
    ensures Every(s[..|s| - 1], p) && p(s[|s| - 1])
  {
    var n := |s| - 1;
    assert forall i :: 0 <= i < n ==> s[..n][i] == s[i];
  }

  lemma {:induction false} FilterAll<T>(s: seq<T>, p: T -> bool)
    requires Every(s, p)
    ensures Filter(s, p) == s
  {
    if s == [] {
      FilterWhole(s, p);
    } else {
      var n := |s| - 1;
      EveryBefore(s, p);
      FilterNext(s, n, p);
      FilterWhole(s, p);
      assert s[..n + 1] == s;
      hide *;
      FilterAll(s[..n], p);
    }
  }

  lemma {:induction false} CountConcat<T>(a: seq<T>, b: seq<T>, p: T -> bool)
    ensures Count(a + b, p) == Count(a, p) + Count(b, p)
  {
    if b == [] {
      assert a + b == a;
    } else {
      assert a + b == (a + b[..|b| - 1]) + [b[|b| - 1]];
      CountAppend(a + b[..|b| - 1], b[|b| - 1], p);
      CountConcat(a, b[..|b| - 1], p);
    }
  }

  lemma {:induction false} FilterConcat<T>(a: seq<T>, b: seq<T>, p: T -> bool)
    ensures Filter(a + b, p) == Filter(a, p) + Filter(b, p)
  {
    if b == [] {
      assert a + b == a;
    } else {
      assert a + b == (a + b[..|b| - 1]) + [b[|b| - 1]];
      FilterAppend(a + b[..|b| - 1], b[|b| - 1], p);
      FilterConcat(a, b[..|b| - 1], p);
    }
  }

  /** Rows that satisfy `p` can only become more when `p` becomes weaker. */
  lemma {:induction false} CountMono<T>(s: seq<T>, p: T -> bool, q: T -> bool)
    requires forall x :: x in s && p(x) ==> q(x)
    ensures Count(s, p) <= Count(s, q)
  {
    if s != [] {
      CountMono(s[..|s| - 1], p, q);
    }
  }

  lemma {:induction false} CountNone<T>(s: seq<T>, p: T -> bool)
    requires forall x :: x in s ==> !p(x)
    ensures Count(s, p) == 0
  {
    if s != [] {
      CountNone(s[..|s| - 1], p);
    }
  }

  lemma {:induction false} CountAll<T>(s: seq<T>, p: T -> bool)
    requires forall x :: x in s ==> p(x)
    ensures Count(s, p) == |s|
  {
    if s != [] {
      CountAll(s[..|s| - 1], p);
    }
  }

  lemma {:induction false} CountAtMost<T>(s: seq<T>, p: T -> bool)
    ensures Count(s, p) <= |s|
  {
    if s != [] {
      CountAtMost(s[..|s| - 1], p);
    }
  }

  /** Counting is indifferent to order. */
  lemma {:induction false} CountPermuted<T>(a: seq<T>, b: seq<T>, p: T -> bool)
    requires multiset(a) == multiset(b)
    ensures Count(a, p) == Count(b, p)
  {
    if a == [] {
      assert multiset(b) == multiset{};
      assert b == [];
    } else {
      var x := a[|a| - 1];
      assert a == a[..|a| - 1] + [x];
      assert x in multiset(b);
      var i :| 0 <= i < |b| && b[i] == x;
      assert b == (b[..i] + [x]) + b[i + 1..];
      var c := b[..i] + b[i + 1..];
      assert multiset(c) == multiset(b) - multiset{x};
      CountConcat(b[..i] + [x], b[i + 1..], p);
      CountAppend(b[..i], x, p);
      CountConcat(b[..i], b[i + 1..], p);
      CountPermuted(a[..|a| - 1], c, p);
    }
  }

  lemma {:induction false} FilterOfFilter<T>(s: seq<T>, p: T -> bool, q: T -> bool, r: T -> bool)
    requires forall x :: x in s ==> (r(x) <==> p(x) && q(x))
    ensures Filter(Filter(s, p), q) == Filter(s, r)
  {
    if s != [] {
      var n := |s| - 1;
      FilterOfFilter(s[..n], p, q, r);
      assert r(s[n]) <==> p(s[n]) && q(s[n]);
      if p(s[n]) {
        FilterAppend(Filter(s[..n], p), s[n], q);
        assert Filter(s, p) == Filter(s[..n], p) + [s[n]];
      } else {
        assert Filter(s, p) == Filter(s[..n], p);
      }
    }
  }

  lemma CountOfFilter<T>(s: seq<T>, p: T -> bool, q: T -> bool, r: T -> bool)
    requires forall x :: x in s ==> (r(x) <==> p(x) && q(x))
    ensures Count(Filter(s, p), q) == Count(s, r)
  {
    FilterOfFilter(s, p, q, r);
    assert |Filter(Filter(s, p), q)| == |Filter(s, r)|;
  }

  /** Mapping the rows moves a count when, row by row, the two predicates agree. */
  lemma {:induction false} CountOfMap<T, U>(s: seq<T>, f: T -> U, p: U -> bool, q: T -> bool)
    requires forall x :: x in s ==> (p(f(x)) <==> q(x))
    ensures Count(Map(s, f), p) == Count(s, q)
  {
    if s != [] {
      CountOfMap(s[..|s| - 1], f, p, q);
      assert Map(s, f)[..|s| - 1] == Map(s[..|s| - 1], f);
    }
  }

  lemma {:induction false} FilterOfMap<T, U>(s: seq<T>, f: T -> U, p: U -> bool, q: T -> bool)
    requires forall x :: x in s ==> (p(f(x)) <==> q(x))
    ensures Filter(Map(s, f), p) == Map(Filter(s, q), f)
  {
    if s != [] {
      var n := |s| - 1;
      FilterOfMap(s[..n], f, p, q);
      FilterAppend(Map(s[..n], f), f(s[n]), p);
      FilterAppend(s[..n], s[n], q);
      hide Filter;
      assert s == s[..n] + [s[n]] && s[n] in s;
      assert Map(s, f) == Map(s[..n], f) + [f(s[n])];
      assert Map(Filter(s[..n], q) + [s[n]], f) == Map(Filter(s[..n], q), f) + [f(s[n])];
    }
  }

  // ---- Sums ----------------------------------------------------------------

  function Total<T>(s: seq<T>, f: T -> int): int
  {
    if s == [] then 0 else Total(s[..|s| - 1], f) + f(s[|s| - 1])
  }

  lemma TotalAppend<T>(s: seq<T>, x: T, f: T -> int)
    ensures Total(s + [x], f) == Total(s, f) + f(x)
  {
    assert (s + [x])[..|s|] == s;
  }

  lemma {:induction false} TotalSame<T>(s: seq<T>, f: T -> int, g: T -> int)
    requires forall x :: x in s ==> f(x) == g(x)
    ensures Total(s, f) == Total(s, g)
  {
    if s != [] {
      TotalSame(s[..|s| - 1], f, g);
    }
  }

  lemma {:induction false} TotalZero<T>(s: seq<T>, f: T -> int)
    requires forall x :: x in s ==> f(x) == 0
    ensures Total(s, f) == 0
  {
    if s != [] {
      TotalZero(s[..|s| - 1], f);
    }
  }

  /** Dropping rows that weigh nothing leaves the sum alone. */
  lemma {:induction false} TotalOfFilter<T>(s: seq<T>, p: T -> bool, f: T -> int)
    requires forall x :: x in s && !p(x) ==> f(x) == 0
    ensures Total(Filter(s, p), f) == Total(s, f)
  {
    if s != [] {
      var n := |s| - 1;
      assert forall x :: x in s[..n] ==> x in s;
      TotalOfFilter(s[..n], p, f);
      assert Total(s, f) == Total(s[..n], f) + f(s[n]);
      hide Total;
      if p(s[n]) {
        assert Filter(s, p) == Filter(s[..n], p) + [s[n]];
        TotalAppend(Filter(s[..n], p), s[n], f);
      } else {
        assert s[n] in s;
        assert Filter(s, p) == Filter(s[..n], p);
      }
    }
  }

  // ---- Unique keys ---------------------------------------------------------

  predicate DistinctBy<T, K(==)>(s: seq<T>, key: T -> K) {
    forall i, j :: 0 <= i < j < |s| ==> key(s[i]) != key(s[j])
  }

  lemma {:induction false} FilterDistinct<T, K>(s: seq<T>, p: T -> bool, key: T -> K)
    requires DistinctBy(s, key)
    ensures DistinctBy(Filter(s, p), key)
  {
    if s != [] {
      var n := |s| - 1;
      FilterDistinct(s[..n], p, key);
      forall x | x in Filter(s[..n], p) ensures key(x) != key(s[n]) {
        var i :| 0 <= i < n && s[i] == x;
      }
    }
  }

  /** A unique key picks at most one row, and exactly one when some row has it. */
  lemma {:induction false} CountKey<T, K>(s: seq<T>, key: T -> K, x: T, p: T -> bool)
    requires DistinctBy(s, key)
    requires forall y :: y in s ==> (p(y) <==> key(y) == key(x))
    ensures Count(s, p) <= 1
    ensures x in s ==> Count(s, p) == 1
  {
    if s != [] {
      var n := |s| - 1;
      CountKey(s[..n], key, x, p);
      if key(s[n]) == key(x) {
        forall y | y in s[..n] ensures !p(y) {
          var i :| 0 <= i < n && s[i] == y;
        }
        CountNone(s[..n], p);
      }
    }
  }

  /** Rows with unique keys out of `keys` are at most as many as `keys`. */
  lemma {:induction false} CountWithin<T, K>(s: seq<T>, p: T -> bool, key: T -> K, keys: set<K>)
    requires DistinctBy(s, key)
    requires forall x :: x in s && p(x) ==> key(x) in keys
    ensures Count(s, p) <= |keys|
  {
    if s != [] {
      var n := |s| - 1;
      if p(s[n]) {
        forall x | x in s[..n] && p(x) ensures key(x) in keys - {key(s[n])} {
          var i :| 0 <= i < n && s[i] == x;
        }
        CountWithin(s[..n], p, key, keys - {key(s[n])});
      } else {
        CountWithin(s[..n], p, key, keys);
      }
    }
  }

  /** Rows that show every key in `keys` are at least as many as `keys`. */
  lemma {:induction false} CountCovers<T, K>(s: seq<T>, p: T -> bool, key: T -> K, keys: set<K>)
    requires forall k :: k in keys ==> exists x :: x in s && p(x) && key(x) == k
    ensures Count(s, p) >= |keys|
  {
    if s != [] {
      var n := |s| - 1;
      if p(s[n]) {
        forall k | k in keys - {key(s[n])}
          ensures exists x :: x in s[..n] && p(x) && key(x) == k
        {
          var x :| x in s && p(x) && key(x) == k;
          assert x in s[..n];
        }
        CountCovers(s[..n], p, key, keys - {key(s[n])});
      } else {
        forall k | k in keys
          ensures exists x :: x in s[..n] && p(x) && key(x) == k
        {
          var x :| x in s && p(x) && key(x) == k;
          assert x in s[..n];
        }
        CountCovers(s[..n], p, key, keys);
      }
    } else {
      assert keys == {};
    }
  }
}
