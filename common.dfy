/** Shared vocabulary of the decision engine: the failures it raises, left-to-right sums and
    extrema of real sequences, and the insertion-ordered dictionaries that the simulator keys
    by alternative name. */
module Common {

  /** The failure conditions the engine surfaces to its caller. */
  datatype Error =
    | EmptyCriteria            // explicit ValueError: the criterion list is empty
    | ZeroImportanceTotal      // explicit ValueError: the importances sum to zero
    | EmptyAlternatives        // explicit ValueError: no alternatives (also: simulating none)
    | MissingKey(key: string)  // KeyError on a record or dictionary lookup
    | EmptySequence            // min()/max() or a numpy reduction over no values
    | ZeroWeightTotal          // the list-based weights sum to zero
    | UnequalLengths           // numpy cannot stack score lists of different lengths

  datatype Result<T> = Ok(value: T) | Err(error: Error)

  datatype Option<T> = None | Some(value: T)

  /** Left-to-right sum, the way Python's sum() and a `+=` loop accumulate. */
  function Sum(s: seq<real>): real
  {
    if |s| == 0 then 0.0 else Sum(s[..|s| - 1]) + s[|s| - 1]
  }

  lemma SumAppend(s: seq<real>, x: real)
    ensures Sum(s + [x]) == Sum(s) + x
  {
    assert (s + [x])[..|s|] == s;
  }

  lemma SumPrefixStep(s: seq<real>, i: nat)
    requires i < |s|
    ensures Sum(s[..i + 1]) == Sum(s[..i]) + s[i]
  {
    assert s[..i + 1][..i] == s[..i];
  }

  /** Every element within [lo, hi] bounds the sum by |s|·lo and |s|·hi. */
  lemma {:induction false} SumBounds(s: seq<real>, lo: real, hi: real)
    requires forall k :: 0 <= k < |s| ==> lo <= s[k] <= hi
    ensures |s| as real * lo <= Sum(s) <= |s| as real * hi
  {
    if |s| > 0 {
      SumBounds(s[..|s| - 1], lo, hi);
    }
  }

  /** A sequence whose elements all equal c sums to |s|·c. */
  lemma {:induction false} SumConstant(s: seq<real>, c: real)
    requires forall k :: 0 <= k < |s| ==> s[k] == c
    ensures Sum(s) == |s| as real * c
  {
    if |s| > 0 {
      SumConstant(s[..|s| - 1], c);
    }
  }

  /** Dividing every element by c divides the sum by c. */
  lemma {:induction false} SumScaled(s: seq<real>, t: seq<real>, c: real)
    requires |s| == |t| && c != 0.0
    requires forall k :: 0 <= k < |s| ==> t[k] == s[k] / c
    ensures Sum(t) == Sum(s) / c
  {
    if |s| > 0 {
      SumScaled(s[..|s| - 1], t[..|t| - 1], c);
    }
  }

  /** In a sequence of non-negative reals no element exceeds the sum. */
  lemma {:induction false} SumElement(s: seq<real>, i: nat)
    requires i < |s| && forall k :: 0 <= k < |s| ==> s[k] >= 0.0
    ensures s[i] <= Sum(s)
  {
    if i < |s| - 1 {
      SumElement(s[..|s| - 1], i);
    } else {
      NonNegSum(s[..|s| - 1]);
    }
  }

  lemma {:induction false} NonNegSum(s: seq<real>)
    requires forall k :: 0 <= k < |s| ==> s[k] >= 0.0
    ensures Sum(s) >= 0.0
  {
    if |s| > 0 {
      NonNegSum(s[..|s| - 1]);
    }
  }

  /** Growing every element never shrinks the sum. */
  lemma {:induction false} SumPointwise(s: seq<real>, t: seq<real>)
    requires |s| == |t| && forall k :: 0 <= k < |s| ==> s[k] <= t[k]
    ensures Sum(s) <= Sum(t)
  {
    if |s| > 0 {
      SumPointwise(s[..|s| - 1], t[..|t| - 1]);
    }
  }

  /** The sum of elementwise sums is the sum of the two sums. */
  lemma {:induction false} SumAdd(s: seq<real>, t: seq<real>, u: seq<real>)
    requires |s| == |t| == |u| && forall k :: 0 <= k < |s| ==> u[k] == s[k] + t[k]
    ensures Sum(u) == Sum(s) + Sum(t)
  {
    if |s| > 0 {
      SumAdd(s[..|s| - 1], t[..|t| - 1], u[..|u| - 1]);
    }
  }

  /** Multiplying every element by c multiplies the sum by c. */
  lemma {:induction false} SumTimes(s: seq<real>, t: seq<real>, c: real)
    requires |s| == |t| && forall k :: 0 <= k < |s| ==> t[k] == c * s[k]
    ensures Sum(t) == c * Sum(s)
  {
    if |s| > 0 {
      SumTimes(s[..|s| - 1], t[..|t| - 1], c);
    }
  }

  /** Adding one to a single element adds one to the sum. */
  lemma {:induction false} SumIncrement(s: seq<real>, j: nat)
    requires j < |s|
    ensures Sum(s[j := s[j] + 1.0]) == Sum(s) + 1.0
  {
    var t := s[j := s[j] + 1.0];
    if j < |s| - 1 {
      assert t[..|t| - 1] == s[..|s| - 1][j := s[j] + 1.0];
      SumIncrement(s[..|s| - 1], j);
    } else {
      assert t[..|t| - 1] == s[..|s| - 1];
    }
  }

  /** Facts about (a - lo) / (hi - lo), the scaling both normalisations use. */
  lemma Escala(a: real, lo: real, hi: real)
    requires lo != hi
    ensures lo < hi && lo <= a <= hi ==> 0.0 <= (a - lo) / (hi - lo) <= 1.0
    ensures a == lo ==> (a - lo) / (hi - lo) == 0.0
    ensures a == hi ==> (a - lo) / (hi - lo) == 1.0
    ensures (hi - a) / (hi - lo) == 1.0 - (a - lo) / (hi - lo)
  {
    var d := hi - lo;
    var t := (a - lo) / d;
    assert t * d == a - lo;
    var u := (hi - a) / d;
    assert u * d == hi - a;
    var e := u - (1.0 - t);
    assert e * d == u * d - (1.0 - t) * d == 0.0;
    assert e == (e * d) / d == 0.0 / d == 0.0;
    if lo < hi && lo <= a <= hi {
      DivUnidad(a - lo, d);
    }
  }

  /** 0 <= x <= d with d > 0 puts x / d in [0,1]. */
  lemma DivUnidad(x: real, d: real)
    requires d > 0.0 && 0.0 <= x <= d
    ensures 0.0 <= x / d <= 1.0
  {
    var t := x / d;
    assert t * d == x;
    assert (1.0 - t) * d == d - x;
  }

  /** A non-negative weight times a value in [0,1] lies between 0 and the weight. */
  lemma MulUnidad(p: real, v: real)
    requires p >= 0.0 && 0.0 <= v <= 1.0
    ensures 0.0 <= p * v <= p
  {
    assert p * (1.0 - v) >= 0.0;
  }

  /** Python's min() over a non-empty list. */
  function SeqMin(s: seq<real>): (m: real)
    requires |s| > 0
    ensures m in s
    ensures forall k :: 0 <= k < |s| ==> m <= s[k]
  {
    if |s| == 1 then s[0]
    else
      var m' := SeqMin(s[..|s| - 1]);
      if s[|s| - 1] < m' then s[|s| - 1] else m'
  }

  /** Python's max() over a non-empty list. */
  function SeqMax(s: seq<real>): (m: real)
    requires |s| > 0
    ensures m in s
    ensures forall k :: 0 <= k < |s| ==> s[k] <= m
  {
    if |s| == 1 then s[0]
    else
      var m' := SeqMax(s[..|s| - 1]);
      if s[|s| - 1] > m' then s[|s| - 1] else m'
  }

  /** The position of the first maximum: what numpy's argmax and Python's max(..., key=...)
      both return when several elements tie for the maximum. */
  function FirstMaxIndex(s: seq<real>): (i: nat)
    requires |s| > 0
    ensures i < |s|
    ensures forall j :: 0 <= j < |s| ==> s[j] <= s[i]
    ensures forall j :: 0 <= j < i ==> s[j] < s[i]
  {
    if |s| == 1 then 0
    else
      var b := FirstMaxIndex(s[..|s| - 1]);
      if s[|s| - 1] > s[b] then |s| - 1 else b
  }

  // ----- Insertion-ordered dictionaries keyed by name -----

  datatype Entry<V> = Entry(key: string, val: V)

  function Keys<V>(d: seq<Entry<V>>): (ks: seq<string>)
    ensures |ks| == |d| && forall i :: 0 <= i < |d| ==> ks[i] == d[i].key
  {
    seq(|d|, i requires 0 <= i < |d| => d[i].key)
  }

  function Values<V>(d: seq<Entry<V>>): (vs: seq<V>)
    ensures |vs| == |d| && forall i :: 0 <= i < |d| ==> vs[i] == d[i].val
  {
    seq(|d|, i requires 0 <= i < |d| => d[i].val)
  }

  ghost predicate DistinctKeys<V>(d: seq<Entry<V>>)
  {
    forall i, j :: 0 <= i < j < |d| ==> d[i].key != d[j].key
  }

  /** Position of key k, or -1 when absent. */
  function Find<V>(d: seq<Entry<V>>, k: string): (i: int)
    ensures -1 <= i < |d|
    ensures 0 <= i ==> d[i].key == k && forall j :: 0 <= j < i ==> d[j].key != k
    ensures i < 0 <==> k !in Keys(d)
  {
    if |d| == 0 then -1
    else if d[0].key == k then 0
    else
      var j := Find(d[1..], k);
      assert Keys(d) == [d[0].key] + Keys(d[1..]);
      if j < 0 then -1 else j + 1
  }

  /** `d[k]` on a Python dict. */
  function Lookup<V>(d: seq<Entry<V>>, k: string): V
    requires k in Keys(d)
  {
    d[Find(d, k)].val
  }

  lemma FindDistinct<V>(d: seq<Entry<V>>, i: nat)
    requires DistinctKeys(d) && i < |d|
    ensures Find(d, d[i].key) == i
  {
    assert Keys(d)[i] == d[i].key;
  }

  lemma LookupDistinct<V>(d: seq<Entry<V>>, i: nat)
    requires DistinctKeys(d) && i < |d|
    ensures d[i].key in Keys(d) && Lookup(d, d[i].key) == d[i].val
  {
    assert Keys(d)[i] == d[i].key;
  }

  /** `d[k] = v` on a Python dict: an existing key keeps its position and takes the new value,
      a new key goes at the end. */
  function Put<V>(d: seq<Entry<V>>, k: string, v: V): (r: seq<Entry<V>>)
    ensures k in Keys(d) ==> Keys(r) == Keys(d)
    ensures k !in Keys(d) ==> Keys(r) == Keys(d) + [k]
    ensures DistinctKeys(d) ==> DistinctKeys(r)
    ensures k in Keys(r) && Lookup(r, k) == v
    ensures forall k' :: k' in Keys(d) && k' != k ==> k' in Keys(r) && Lookup(r, k') == Lookup(d, k')
  {
    var i := Find(d, k);
    if i >= 0 then
      PutEnSitio(d, i, k, v);
      d[i := Entry(k, v)]
    else
      PutAlFinal(d, k, v);
      d + [Entry(k, v)]
  }

  /** Overwriting an existing key keeps every key in place. */
  lemma PutEnSitio<V>(d: seq<Entry<V>>, i: nat, k: string, v: V)
    requires i == Find(d, k) && i < |d|
    ensures Keys(d[i := Entry(k, v)]) == Keys(d)
    ensures DistinctKeys(d) ==> DistinctKeys(d[i := Entry(k, v)])
    ensures k in Keys(d[i := Entry(k, v)]) && Lookup(d[i := Entry(k, v)], k) == v
    ensures forall k' :: k' in Keys(d) && k' != k ==>
      k' in Keys(d[i := Entry(k, v)]) && Lookup(d[i := Entry(k, v)], k') == Lookup(d, k')
  {
    var r := d[i := Entry(k, v)];
    assert Keys(r) == Keys(d);
    FindMismasClaves(r, d, k);
    forall k' | k' in Keys(d) && k' != k
      ensures k' in Keys(r) && Lookup(r, k') == Lookup(d, k')
    {
      FindMismasClaves(r, d, k');
    }
  }

  /** A new key goes at the end, after every existing one. */
  lemma PutAlFinal<V>(d: seq<Entry<V>>, k: string, v: V)
    requires k !in Keys(d)
    ensures Keys(d + [Entry(k, v)]) == Keys(d) + [k]
    ensures DistinctKeys(d) ==> DistinctKeys(d + [Entry(k, v)])
    ensures k in Keys(d + [Entry(k, v)]) && Lookup(d + [Entry(k, v)], k) == v
    ensures forall k' :: k' in Keys(d) && k' != k ==>
      k' in Keys(d + [Entry(k, v)]) && Lookup(d + [Entry(k, v)], k') == Lookup(d, k')
  {
    var r := d + [Entry(k, v)];
    assert Keys(r) == Keys(d) + [k];
    assert Keys(r)[|d|] == k;
    if DistinctKeys(d) {
      forall a, b | 0 <= a < b < |r| ensures r[a].key != r[b].key {
        if b == |d| { assert Keys(d)[a] == d[a].key; }
      }
    }
    forall k' | k' in Keys(d) && k' != k
      ensures k' in Keys(r) && Lookup(r, k') == Lookup(d, k')
    {
      FindAppend(d, Entry(k, v), k');
    }
  }

  lemma {:induction false} FindAppend<V>(d: seq<Entry<V>>, e: Entry<V>, k: string)
    requires k in Keys(d)
    ensures Find(d + [e], k) == Find(d, k)
  {
    if d[0].key != k {
      assert (d + [e])[1..] == d[1..] + [e];
      assert Keys(d) == [d[0].key] + Keys(d[1..]);
      FindAppend(d[1..], e, k);
    }
  }

  /** Find depends only on the keys. */
  lemma {:induction false} FindMismasClaves<V, W>(a: seq<Entry<V>>, b: seq<Entry<W>>, k: string)
    requires Keys(a) == Keys(b)
    ensures Find(a, k) == Find(b, k)
  {
    if |a| > 0 && a[0].key != k {
      assert Keys(a[1..]) == Keys(a)[1..] && Keys(b[1..]) == Keys(b)[1..];
      FindMismasClaves(a[1..], b[1..], k);
    }
  }

  /** Two dictionaries with the same keys, updated under the same key, stay aligned: every
      position either keeps both old entries or holds both new values. */
  lemma PutAlineado<V, W>(a: seq<Entry<V>>, b: seq<Entry<W>>, k: string, x: V, y: W)
    requires Keys(a) == Keys(b)
    ensures Keys(Put(a, k, x)) == Keys(Put(b, k, y))
    ensures forall j :: 0 <= j < |Put(a, k, x)| ==>
      (j < |a| && Put(a, k, x)[j] == a[j] && Put(b, k, y)[j] == b[j])
      || (Put(a, k, x)[j].val == x && Put(b, k, y)[j].val == y)
  {
    FindMismasClaves(a, b, k);
  }

  /** Distinct keys depend only on the keys. */
  lemma DistintasMismasClaves<V, W>(a: seq<Entry<V>>, b: seq<Entry<W>>)
    requires Keys(a) == Keys(b) && DistinctKeys(a)
    ensures DistinctKeys(b)
  {
    forall i, j | 0 <= i < j < |b| ensures b[i].key != b[j].key {
      assert Keys(a)[i] == a[i].key && Keys(a)[j] == a[j].key;
    }
  }

  /** In two dictionaries with the same distinct keys, the value under the key at position j of
      one is the value at position j of the other. */
  lemma LookupAlineado<V, W>(a: seq<Entry<V>>, b: seq<Entry<W>>, j: nat)
    requires Keys(a) == Keys(b) && DistinctKeys(a) && j < |a|
    ensures a[j].key in Keys(b) && Lookup(b, a[j].key) == b[j].val
  {
    FindDistinct(a, j);
    FindMismasClaves(a, b, a[j].key);
    assert Keys(a)[j] == a[j].key;
  }
}
