/** Python's stable sort with `reverse=True`, stated on positions: ranking a list of keys gives
    every position 0..n-1 exactly once, keys non-increasing, and equal keys in input order.
    Both `list.sort(key=..., reverse=True)` and `sorted(range(n), key=..., reverse=True)` are
    this ranking followed by picking the elements at the ranked positions. */
module Sorting {

  function Range(n: nat): (r: seq<nat>)
    ensures |r| == n && forall i :: 0 <= i < n ==> r[i] == i
  {
    seq(n, i requires 0 <= i < n => i)
  }

  ghost predicate Positions(keys: seq<real>, r: seq<nat>)
  {
    forall k :: 0 <= k < |r| ==> r[k] < |keys|
  }

  /** Every listed position is below i. */
  ghost predicate Below(r: seq<nat>, i: nat)
  {
    forall m :: 0 <= m < |r| ==> r[m] < i
  }

  /** Position x goes before position y: a higher key first, equal keys by position. */
  ghost predicate Before(keys: seq<real>, x: nat, y: nat)
    requires x < |keys| && y < |keys|
  {
    keys[x] > keys[y] || (keys[x] == keys[y] && x < y)
  }

  ghost predicate Ordered(keys: seq<real>, r: seq<nat>)
    requires Positions(keys, r)
  {
    forall a, b :: 0 <= a < b < |r| ==> Before(keys, r[a], r[b])
  }

  /** Insert position i after every ranked position whose key is at least keys[i]. */
  function Insert(keys: seq<real>, r: seq<nat>, i: nat): (q: seq<nat>)
    requires Positions(keys, r) && i < |keys|
    ensures |q| == |r| + 1 && Positions(keys, q)
    ensures multiset(q) == multiset(r) + multiset{i}
  {
    if |r| == 0 then [i]
    else if keys[r[0]] >= keys[i] then
      assert r == [r[0]] + r[1..];
      [r[0]] + Insert(keys, r[1..], i)
    else [i] + r
  }

  /** The ranking of the first n positions. */
  function RankPrefix(keys: seq<real>, n: nat): (r: seq<nat>)
    requires n <= |keys|
    ensures |r| == n && Positions(keys, r)
  {
    if n == 0 then [] else Insert(keys, RankPrefix(keys, n - 1), n - 1)
  }

  /** The ranking of the first n positions lists each of them exactly once. */
  lemma {:induction false} RankPrefixRange(keys: seq<real>, n: nat)
    requires n <= |keys|
    ensures multiset(RankPrefix(keys, n)) == multiset(Range(n))
  {
    if n > 0 {
      RankPrefixRange(keys, n - 1);
      InsertRange(keys, RankPrefix(keys, n - 1), n);
    }
  }

  /** Inserting position m - 1 into a list of the positions below it lists those below m. */
  lemma InsertRange(keys: seq<real>, r: seq<nat>, m: nat)
    requires Positions(keys, r) && 0 < m <= |keys| && multiset(r) == multiset(Range(m - 1))
    ensures multiset(Insert(keys, r, m - 1)) == multiset(Range(m))
  {
    RangeStep(m - 1);
  }

  lemma RangeStep(n: nat)
    ensures multiset(Range(n + 1)) == multiset(Range(n)) + multiset{n}
  {
    assert Range(n + 1) == Range(n) + [n];
  }

  /** p lists every position of keys once, keys non-increasing along p, ties in position order:
      what a stable sort with `reverse=True` produces. */
  ghost predicate StableRanking(keys: seq<real>, p: seq<nat>)
  {
    && |p| == |keys| && multiset(p) == multiset(Range(|keys|))
    && (forall k :: 0 <= k < |p| ==> p[k] < |keys|)
    && (forall a, b :: 0 <= a < b < |p| ==> keys[p[a]] >= keys[p[b]])
    && (forall a, b :: 0 <= a < b < |p| && keys[p[a]] == keys[p[b]] ==> p[a] < p[b])
  }

  /** The stable descending ranking of all positions of `keys`. */
  function RankDescending(keys: seq<real>): (r: seq<nat>)
    ensures StableRanking(keys, r)
  {
    RankPrefixOrdered(keys, |keys|);
    RankPrefixRange(keys, |keys|);
    RankPrefix(keys, |keys|)
  }

  lemma {:induction false} InsertAfter(keys: seq<real>, r: seq<nat>, i: nat, x: nat)
    requires Positions(keys, r) && i < |keys| && x < |keys|
    requires forall m :: 0 <= m < |r| ==> Before(keys, x, r[m])
    requires Before(keys, x, i)
    ensures forall m :: 0 <= m < |r| + 1 ==> Before(keys, x, Insert(keys, r, i)[m])
  {
    if |r| > 0 && keys[r[0]] >= keys[i] {
      InsertAfter(keys, r[1..], i, x);
    }
  }

  lemma {:induction false} InsertOrdered(keys: seq<real>, r: seq<nat>, i: nat)
    requires Positions(keys, r) && i < |keys| && Ordered(keys, r) && Below(r, i)
    ensures Ordered(keys, Insert(keys, r, i))
  {
    if |r| > 0 {
      var q := Insert(keys, r, i);
      if keys[r[0]] >= keys[i] {
        InsertOrdered(keys, r[1..], i);
        InsertAfter(keys, r[1..], i, r[0]);
        assert q == [r[0]] + Insert(keys, r[1..], i);
      } else {
        assert q == [i] + r;
        forall b | 0 < b < |q| ensures Before(keys, q[0], q[b]) {
          assert q[b] == r[b - 1];
          if b > 1 { assert Before(keys, r[0], r[b - 1]); }
        }
      }
    }
  }

  lemma {:induction false} RankPrefixOrdered(keys: seq<real>, n: nat)
    requires n <= |keys|
    ensures Ordered(keys, RankPrefix(keys, n))
  {
    if n > 0 {
      var r := RankPrefix(keys, n - 1);
      RankPrefixOrdered(keys, n - 1);
      RankPrefixBelow(keys, n - 1);
      InsertOrdered(keys, r, n - 1);
      assert RankPrefix(keys, n) == Insert(keys, r, n - 1);
    }
  }

  /** The ranking of the first n positions only holds positions below n. */
  lemma RankPrefixBelow(keys: seq<real>, n: nat)
    requires n <= |keys|
    ensures Below(RankPrefix(keys, n), n)
  {
    var r := RankPrefix(keys, n);
    RankPrefixRange(keys, n);
    forall m | 0 <= m < n ensures r[m] < n {
      assert r[m] in multiset(Range(n));
    }
  }

  /** The elements of s at the positions p, in that order. */
  function Permute<T>(s: seq<T>, p: seq<nat>): (r: seq<T>)
    requires forall k :: 0 <= k < |p| ==> p[k] < |s|
    ensures |r| == |p| && forall k :: 0 <= k < |p| ==> r[k] == s[p[k]]
  {
    if |p| == 0 then [] else [s[p[0]]] + Permute(s, p[1..])
  }

  lemma {:induction false} PermuteInsert<T>(s: seq<T>, keys: seq<real>, r: seq<nat>, i: nat)
    requires |keys| == |s| && Positions(keys, r) && i < |keys|
    ensures multiset(Permute(s, Insert(keys, r, i))) == multiset(Permute(s, r)) + multiset{s[i]}
  {
    if |r| > 0 && keys[r[0]] >= keys[i] {
      var q := Insert(keys, r[1..], i);
      PermuteInsert(s, keys, r[1..], i);
      assert Insert(keys, r, i) == [r[0]] + q;
      assert ([r[0]] + q)[1..] == q;
      assert Permute(s, Insert(keys, r, i)) == [s[r[0]]] + Permute(s, q);
      assert Permute(s, r) == [s[r[0]]] + Permute(s, r[1..]);
    }
  }

  lemma {:induction false} PermuteRankPrefix<T>(s: seq<T>, keys: seq<real>, n: nat)
    requires |keys| == |s| && n <= |s|
    ensures multiset(Permute(s, RankPrefix(keys, n))) == multiset(s[..n])
  {
    if n > 0 {
      var r := RankPrefix(keys, n - 1);
      PermuteRankPrefix(s, keys, n - 1);
      PermuteInsert(s, keys, r, n - 1);
      assert RankPrefix(keys, n) == Insert(keys, r, n - 1);
      PrefixStep(Permute(s, RankPrefix(keys, n)), Permute(s, r), s, n);
    }
  }

  lemma PrefixStep<T>(a: seq<T>, b: seq<T>, s: seq<T>, n: nat)
    requires 0 < n <= |s|
    requires multiset(a) == multiset(b) + multiset{s[n - 1]}
    requires multiset(b) == multiset(s[..n - 1])
    ensures multiset(a) == multiset(s[..n])
  {
    assert s[..n] == s[..n - 1] + [s[n - 1]];
  }

  /** Picking the elements at the ranked positions rearranges s without losing or adding any. */
  lemma PermuteRanked<T>(s: seq<T>, keys: seq<real>)
    requires |keys| == |s|
    ensures multiset(Permute(s, RankDescending(keys))) == multiset(s)
  {
    PermuteRankPrefix(s, keys, |s|);
    assert s[..|s|] == s;
  }
}
