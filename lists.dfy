/** The array operations the widgets lean on (`findIndex`/`find`, `filter`,
    `reduce` into a sum, `sort` by a numeric key), written once as functions
    over sequences, with the facts the widgets' properties are built from. */
module Lists {

  /** Index of the first element whose key is `k`, or -1 when there is none
      (`Array.prototype.findIndex`; `find` returns the element at this index). */
  function IndexOf<T, K(==)>(s: seq<T>, key: T -> K, k: K): (r: int)
    ensures -1 <= r < |s|
    ensures r == -1 <==> forall j :: 0 <= j < |s| ==> key(s[j]) != k
    ensures 0 <= r ==> key(s[r]) == k && forall j :: 0 <= j < r ==> key(s[j]) != k
  {
    if s == [] then -1
    else if key(s[0]) == k then 0
    else
      var r := IndexOf(s[1..], key, k);
      assert forall j :: 1 <= j < |s| ==> s[j] == s[1..][j - 1];
      if r == -1 then -1 else r + 1
  }

  /** Two sequences whose keys agree position by position have the same first match. */
  lemma {:induction false} IndexOfSameKeys<T, U, K>(s: seq<T>, t: seq<U>, keyS: T -> K, keyT: U -> K, k: K)
    requires |s| == |t|
    requires forall j :: 0 <= j < |s| ==> keyS(s[j]) == keyT(t[j])
    ensures IndexOf(s, keyS, k) == IndexOf(t, keyT, k)
  {
    if s != [] {
      IndexOfSameKeys(s[1..], t[1..], keyS, keyT, k);
    }
  }

  /** The number of elements that satisfy `p`. */
  function CountWhere<T>(s: seq<T>, p: T -> bool): nat
  {
    if s == [] then 0 else (if p(s[0]) then 1 else 0) + CountWhere(s[1..], p)
  }

  /** The elements that satisfy `p`, in their original order (`Array.prototype.filter`). */
  function Filter<T>(s: seq<T>, p: T -> bool): (r: seq<T>)
    ensures |r| <= |s|
    ensures forall j :: 0 <= j < |r| ==> p(r[j])
    ensures |r| == CountWhere(s, p)
    ensures multiset(r) <= multiset(s)
  {
    if s == [] then []
    else
      var rest := Filter(s[1..], p);
      assert s == [s[0]] + s[1..];
      if p(s[0]) then [s[0]] + rest else rest
  }

  /** Every element that satisfies `p` is kept. */
  lemma {:induction false} FilterKeepsPassing<T>(s: seq<T>, p: T -> bool)
    ensures forall j :: 0 <= j < |s| && p(s[j]) ==> s[j] in Filter(s, p)
  {
    if s != [] {
      FilterKeepsPassing(s[1..], p);
      assert forall j :: 1 <= j < |s| ==> s[j] == s[1..][j - 1];
    }
  }

  /** Filtering distributes over concatenation: the kept elements keep their order. */
  lemma {:induction false} FilterConcat<T>(a: seq<T>, b: seq<T>, p: T -> bool)
    ensures Filter(a + b, p) == Filter(a, p) + Filter(b, p)
  {
    if a == [] {
      assert a + b == b;
    } else {
      assert (a + b)[0] == a[0] && (a + b)[1..] == a[1..] + b;
      FilterConcat(a[1..], b, p);
    }
  }

  /** A filter every element passes keeps the whole sequence. */
  lemma {:induction false} FilterKeepsAll<T>(s: seq<T>, p: T -> bool)
    requires forall j :: 0 <= j < |s| ==> p(s[j])
    ensures Filter(s, p) == s
  {
    if s != [] {
      FilterKeepsAll(s[1..], p);
    }
  }

  /** A filter no element passes keeps nothing. */
  lemma {:induction false} FilterKeepsNone<T>(s: seq<T>, p: T -> bool)
    requires forall j :: 0 <= j < |s| ==> !p(s[j])
    ensures Filter(s, p) == []
  {
    if s != [] {
      FilterKeepsNone(s[1..], p);
    }
  }

  /** Two filters that disagree on every element split the sequence between them. */
  lemma {:induction false} FilterSplit<T>(s: seq<T>, p: T -> bool, q: T -> bool)
    requires forall j :: 0 <= j < |s| ==> p(s[j]) != q(s[j])
    ensures multiset(Filter(s, p)) + multiset(Filter(s, q)) == multiset(s)
    ensures |Filter(s, p)| + |Filter(s, q)| == |s|
  {
    if s != [] {
      FilterSplit(s[1..], p, q);
      var fp, fq := Filter(s[1..], p), Filter(s[1..], q);
      assert multiset(s) == multiset{s[0]} + multiset(s[1..]) by {
        assert s == [s[0]] + s[1..];
      }
      if p(s[0]) {
        assert Filter(s, p) == [s[0]] + fp;
        assert Filter(s, q) == fq;
      } else {
        assert Filter(s, p) == fp;
        assert Filter(s, q) == [s[0]] + fq;
      }
    }
  }

  /** The number of elements whose key is `k`. */
  function CountKey<T, K(==)>(s: seq<T>, key: T -> K, k: K): nat
  {
    if s == [] then 0 else (if key(s[0]) == k then 1 else 0) + CountKey(s[1..], key, k)
  }

  /** The test `key(x) != k`, as a value to filter with. */
  function KeyIsNot<T, K(==)>(key: T -> K, k: K): T -> bool
  {
    x => key(x) != k
  }

  /** The elements whose key is not `k`, in order (`filter(x => x.id != k)`). */
  function RemoveKey<T, K(==)>(s: seq<T>, key: T -> K, k: K): (r: seq<T>)
    ensures forall j :: 0 <= j < |r| ==> key(r[j]) != k
    ensures |r| + CountKey(s, key, k) == |s|
    ensures multiset(r) <= multiset(s)
  {
    RemoveKeyCount(s, key, k);
    Filter(s, KeyIsNot(key, k))
  }

  lemma {:induction false} RemoveKeyCount<T, K>(s: seq<T>, key: T -> K, k: K)
    ensures |Filter(s, KeyIsNot(key, k))| + CountKey(s, key, k) == |s|
  {
    if s != [] {
      RemoveKeyCount(s[1..], key, k);
    }
  }

  /** Removing a key distributes over concatenation, so the kept elements stay in order. */
  lemma RemoveKeyConcat<T, K>(a: seq<T>, b: seq<T>, key: T -> K, k: K)
    ensures RemoveKey(a + b, key, k) == RemoveKey(a, key, k) + RemoveKey(b, key, k)
  {
    FilterConcat(a, b, KeyIsNot(key, k));
  }

  /** The sum of `f` over the sequence (`reduce((sum, x) => sum + f(x), 0)`). */
  function Sum<T>(s: seq<T>, f: T -> real): real
  {
    if s == [] then 0.0 else f(s[0]) + Sum(s[1..], f)
  }

  /** A sum of terms none of which is negative is not negative. */
  lemma {:induction false} SumNonNegative<T>(s: seq<T>, f: T -> real)
    ensures (forall j :: 0 <= j < |s| ==> f(s[j]) >= 0.0) ==> Sum(s, f) >= 0.0
  {
    if s != [] {
      SumNonNegative(s[1..], f);
      assert forall j :: 1 <= j < |s| ==> s[1..][j - 1] == s[j];
    }
  }

  lemma {:induction false} SumConcat<T>(a: seq<T>, b: seq<T>, f: T -> real)
    ensures Sum(a + b, f) == Sum(a, f) + Sum(b, f)
  {
    if a == [] {
      assert a + b == b;
    } else {
      assert (a + b)[0] == a[0] && (a + b)[1..] == a[1..] + b;
      SumConcat(a[1..], b, f);
    }
  }

  /** When each element passes exactly one of three filters, the three filtered
      sums add up to the sum of the whole sequence. */
  lemma {:induction false} SumPartition3<T>(s: seq<T>, f: T -> real, p: T -> bool, q: T -> bool, r: T -> bool)
    requires forall j :: 0 <= j < |s| ==> (if p(s[j]) then 1 else 0) + (if q(s[j]) then 1 else 0) + (if r(s[j]) then 1 else 0) == 1
    ensures Sum(Filter(s, p), f) + Sum(Filter(s, q), f) + Sum(Filter(s, r), f) == Sum(s, f)
  {
    if s != [] {
      SumPartition3(s[1..], f, p, q, r);
      var a, b, c := Filter(s[1..], p), Filter(s[1..], q), Filter(s[1..], r);
      assert Sum([s[0]] + a, f) == f(s[0]) + Sum(a, f);
      assert Sum([s[0]] + b, f) == f(s[0]) + Sum(b, f);
      assert Sum([s[0]] + c, f) == f(s[0]) + Sum(c, f);
    }
  }

  /** Keys never decrease from left to right. */
  predicate SortedBy<T>(s: seq<T>, key: T -> int)
  {
    forall i, j :: 0 <= i < j < |s| ==> key(s[i]) <= key(s[j])
  }

  /** Insert `x` after every element whose key is at most `key(x)`. */
  function InsertBy<T>(x: T, s: seq<T>, key: T -> int): (r: seq<T>)
    requires SortedBy(s, key)
    ensures SortedBy(r, key)
    ensures multiset(r) == multiset(s) + multiset{x}
    ensures |r| == |s| + 1
    ensures r[0] == if s == [] || key(x) < key(s[0]) then x else s[0]
  {
    if s == [] then [x]
    else if key(x) < key(s[0]) then [x] + s
    else
      var rest := InsertBy(x, s[1..], key);
      assert s == [s[0]] + s[1..];
      assert key(s[0]) <= key(rest[0]);
      [s[0]] + rest
  }

  /** A stable insertion sort by a numeric key, standing for
      `sort((a, b) => key(a) - key(b))`. */
  function SortBy<T>(s: seq<T>, key: T -> int): (r: seq<T>)
    ensures SortedBy(r, key)
    ensures multiset(r) == multiset(s)
    ensures |r| == |s|
  {
    if s == [] then []
    else
      assert s == s[..|s| - 1] + [s[|s| - 1]];
      InsertBy(s[|s| - 1], SortBy(s[..|s| - 1], key), key)
  }
}
