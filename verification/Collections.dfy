/** Small shared vocabulary: optional values, sides, filters, sums, stable sorting and Python's dict. */

module Options {
  datatype Option<+T> = None | Some(value: T)
}

module Sides {
  datatype Side = Buy | Sell

  function Other(side: Side): Side { if side == Buy then Sell else Buy }
}

module Reals {
  function Abs(x: real): real { if x < 0.0 then -x else x }

  function Min(x: real, y: real): real { if x < y then x else y }

  /** A product that only its own lemmas look into. */
  function Times(x: real, y: real): real { x * y }

  lemma NonNegative(x: real, y: real)
    requires x >= 0.0 && y >= 0.0
    ensures x * y >= 0.0 && Times(x, y) >= 0.0 && x * (1.0 + y) == x + x * y
  {
  }
}

module Seqs {
  /** The elements of s that satisfy p, in order. */
  function Filter<T>(s: seq<T>, p: T -> bool): (r: seq<T>) {
    if s == [] then []
    else if p(s[0]) then [s[0]] + Filter(s[1..], p)
    else Filter(s[1..], p)
  }

  lemma {:induction false} FilterMembers<T>(s: seq<T>, p: T -> bool)
    ensures forall x :: x in Filter(s, p) <==> x in s && p(x)
  {
    if s != [] { FilterMembers(s[1..], p); }
  }

  lemma {:induction false} FilterAppend<T>(s: seq<T>, t: seq<T>, p: T -> bool)
    ensures Filter(s + t, p) == Filter(s, p) + Filter(t, p)
  {
    if s == [] {
      assert s + t == t;
    } else {
      assert (s + t)[1..] == s[1..] + t;
      FilterAppend(s[1..], t, p);
    }
  }

  lemma {:induction false} FilterAll<T>(s: seq<T>, p: T -> bool)
    requires forall x :: x in s ==> p(x)
    ensures Filter(s, p) == s
  {
    if s != [] { FilterAll(s[1..], p); }
  }

  lemma {:induction false} FilterNone<T>(s: seq<T>, p: T -> bool)
    requires forall x :: x in s ==> !p(x)
    ensures Filter(s, p) == []
  {
    if s != [] { FilterNone(s[1..], p); }
  }

  lemma {:induction false} FilterShorter<T>(s: seq<T>, p: T -> bool)
    ensures |Filter(s, p)| <= |s|
  {
    if s != [] { FilterShorter(s[1..], p); }
  }

  lemma FilterOne<T>(x: T, p: T -> bool)
    ensures Filter([x], p) == if p(x) then [x] else []
  {
    assert [x][1..] == [];
  }

  /** Equal bags filter to equal bags. */
  lemma {:induction false} FilterPermuted<T>(s: seq<T>, t: seq<T>, p: T -> bool)
    requires multiset(s) == multiset(t)
    ensures multiset(Filter(s, p)) == multiset(Filter(t, p))
  {
    if s == [] {
      assert |multiset(t)| == 0;
    } else {
      var i := Occurrence(s, t);
      FilterPermuted(s[1..], t[..i] + t[i+1..], p);
      FilterAppend(t[..i], t[i+1..], p);
      FilterAppend(t[..i], [t[i]] + t[i+1..], p);
      assert t == t[..i] + ([t[i]] + t[i+1..]);
      assert ([t[i]] + t[i+1..])[1..] == t[i+1..];
    }
  }

  /** Where the head of s sits in a permutation t of s. */
  lemma Occurrence<T>(s: seq<T>, t: seq<T>) returns (i: nat)
    requires s != [] && multiset(s) == multiset(t)
    ensures i < |t| && t[i] == s[0] && |s| == |t|
    ensures multiset(t[..i] + t[i+1..]) == multiset(s[1..])
  {
    assert |multiset(s)| == |multiset(t)|;
    assert s[0] in multiset(s);
    i :| 0 <= i < |t| && t[i] == s[0];
    assert t == t[..i] + [t[i]] + t[i+1..];
    assert s == [s[0]] + s[1..];
    assert multiset(t[..i] + t[i+1..]) == multiset(t) - multiset{s[0]} == multiset(s[1..]);
  }

  lemma {:induction false} FilterAgree<T>(s: seq<T>, p: T -> bool, q: T -> bool)
    requires forall x :: x in s ==> p(x) == q(x)
    ensures Filter(s, p) == Filter(s, q)
  {
    if s != [] { FilterAgree(s[1..], p, q); }
  }

  lemma {:induction false} FilterFilter<T>(s: seq<T>, p: T -> bool, q: T -> bool, both: T -> bool)
    requires forall x :: x in s ==> both(x) == (p(x) && q(x))
    ensures Filter(Filter(s, p), q) == Filter(s, both)
  {
    if s != [] { FilterFilter(s[1..], p, q, both); }
  }

  function SumOf<T>(s: seq<T>, f: T -> real): (r: real) {
    if s == [] then 0.0 else f(s[0]) + SumOf(s[1..], f)
  }

  lemma {:induction false} SumOfAppend<T>(s: seq<T>, t: seq<T>, f: T -> real)
    ensures SumOf(s + t, f) == SumOf(s, f) + SumOf(t, f)
  {
    if s == [] {
      assert s + t == t;
    } else {
      assert (s + t)[1..] == s[1..] + t;
      SumOfAppend(s[1..], t, f);
    }
  }

  lemma SumOfSnoc<T>(s: seq<T>, x: T, f: T -> real)
    ensures SumOf(s + [x], f) == SumOf(s, f) + f(x)
  {
    SumOfAppend(s, [x], f);
    assert SumOf([x], f) == f(x) + SumOf([], f);
  }

  /** A sum does not depend on the order of its terms. */
  lemma {:induction false} SumOfPermuted<T>(s: seq<T>, t: seq<T>, f: T -> real)
    requires multiset(s) == multiset(t)
    ensures SumOf(s, f) == SumOf(t, f) && |s| == |t|
    decreases |s|
  {
    if s == [] {
      assert |multiset(t)| == 0;
    } else {
      var i := Occurrence(s, t);
      SumOfPermuted(s[1..], t[..i] + t[i+1..], f);
      SumOfAppend(t[..i], t[i+1..], f);
      SumOfAppend(t[..i], [t[i]] + t[i+1..], f);
      assert t == t[..i] + ([t[i]] + t[i+1..]);
      assert ([t[i]] + t[i+1..])[1..] == t[i+1..];
    }
  }
}

module Sorting {
  ghost predicate Ascending<T>(s: seq<T>, key: T -> real) {
    forall i, j :: 0 <= i < j < |s| ==> key(s[i]) <= key(s[j])
  }

  function Insert<T>(x: T, s: seq<T>, key: T -> real): (r: seq<T>)
    ensures multiset(r) == multiset([x]) + multiset(s)
    ensures |r| == |s| + 1
  {
    if s == [] then [x]
    else if key(x) <= key(s[0]) then [x] + s
    else assert s == [s[0]] + s[1..]; [s[0]] + Insert(x, s[1..], key)
  }

  /** Python's sorted(s, key=key): ascending and stable. */
  function Sort<T>(s: seq<T>, key: T -> real): (r: seq<T>)
    ensures multiset(r) == multiset(s)
    ensures |r| == |s|
  {
    if s == [] then [] else assert s == [s[0]] + s[1..]; Insert(s[0], Sort(s[1..], key), key)
  }

  lemma {:induction false} InsertAscending<T>(x: T, s: seq<T>, key: T -> real)
    requires Ascending(s, key)
    ensures Ascending(Insert(x, s, key), key)
  {
    if s != [] && key(x) > key(s[0]) {
      InsertAscending(x, s[1..], key);
      var r := Insert(x, s[1..], key);
      forall y | y in r
        ensures key(s[0]) <= key(y)
      {
        assert y in multiset(r);
        assert y == x || y in s[1..];
      }
    }
  }

  lemma {:induction false} SortAscending<T>(s: seq<T>, key: T -> real)
    ensures Ascending(Sort(s, key), key)
  {
    if s != [] {
      SortAscending(s[1..], key);
      InsertAscending(s[0], Sort(s[1..], key), key);
    }
  }

  lemma {:induction false} SortSorted<T>(s: seq<T>, key: T -> real)
    requires Ascending(s, key)
    ensures Sort(s, key) == s
  {
    if s != [] {
      SortSorted(s[1..], key);
      assert |s| > 1 ==> key(s[0]) <= key(s[1]);
    }
  }
}

/** A Python dict: entries in insertion order; overwriting a key keeps its place. */
module Dicts {
  import opened Options

  type Dict<K, V> = seq<(K, V)>

  ghost predicate UniqueKeys<K, V>(d: Dict<K, V>) {
    forall i, j :: 0 <= i < j < |d| ==> d[i].0 != d[j].0
  }

  function Find<K(==), V>(d: Dict<K, V>, k: K): (r: Option<V>) {
    if d == [] then None else if d[0].0 == k then Some(d[0].1) else Find(d[1..], k)
  }

  predicate Has<K(==), V>(d: Dict<K, V>, k: K) {
    Find(d, k).Some?
  }

  function Put<K(==), V>(d: Dict<K, V>, k: K, v: V): (r: Dict<K, V>) {
    if d == [] then [(k, v)]
    else if d[0].0 == k then [(k, v)] + d[1..]
    else [d[0]] + Put(d[1..], k, v)
  }

  function Del<K(==), V>(d: Dict<K, V>, k: K): (r: Dict<K, V>) {
    if d == [] then [] else if d[0].0 == k then d[1..] else [d[0]] + Del(d[1..], k)
  }

  /** Σ f(k, v) over the entries. */
  function Total<K, V>(d: Dict<K, V>, f: (K, V) -> real): (r: real) {
    if d == [] then 0.0 else f(d[0].0, d[0].1) + Total(d[1..], f)
  }

  lemma {:induction false} FindIndex<K, V>(d: Dict<K, V>, k: K)
    ensures Has(d, k) ==> exists i :: 0 <= i < |d| && d[i] == (k, Find(d, k).value)
    ensures !Has(d, k) ==> forall i :: 0 <= i < |d| ==> d[i].0 != k
  {
    if d != [] {
      FindIndex(d[1..], k);
      if d[0].0 == k {
        assert d[0] == (k, Find(d, k).value);
      } else if Has(d, k) {
        var i :| 0 <= i < |d[1..]| && d[1..][i] == (k, Find(d[1..], k).value);
        assert d[i + 1] == (k, Find(d, k).value);
      }
    }
  }

  lemma {:induction false} FindAt<K, V>(d: Dict<K, V>, i: nat)
    requires UniqueKeys(d) && i < |d|
    ensures Find(d, d[i].0) == Some(d[i].1)
  {
    if i > 0 {
      assert d[0].0 != d[i].0;
      FindAt(d[1..], i - 1);
    }
  }

  lemma {:induction false} FindPut<K, V>(d: Dict<K, V>, k: K, v: V, j: K)
    ensures Find(Put(d, k, v), j) == if j == k then Some(v) else Find(d, j)
  {
    if d != [] && d[0].0 != k {
      FindPut(d[1..], k, v, j);
    }
  }

  lemma {:induction false} FindDel<K, V>(d: Dict<K, V>, k: K, j: K)
    requires UniqueKeys(d)
    ensures Find(Del(d, k), j) == if j == k then None else Find(d, j)
  {
    if d != [] {
      if d[0].0 == k {
        FindIndex(d[1..], k);
      } else {
        FindDel(d[1..], k, j);
      }
    }
  }

  lemma {:induction false} PutUnique<K, V>(d: Dict<K, V>, k: K, v: V)
    requires UniqueKeys(d)
    ensures UniqueKeys(Put(d, k, v))
    ensures forall i :: 0 <= i < |Put(d, k, v)| ==> Put(d, k, v)[i].0 == k || exists j :: 0 <= j < |d| && d[j] == Put(d, k, v)[i]
  {
    if d != [] {
      if d[0].0 == k {
        assert Put(d, k, v)[1..] == d[1..];
      } else {
        PutUnique(d[1..], k, v);
        var r := Put(d[1..], k, v);
        forall i | 0 <= i < |r|
          ensures r[i].0 != d[0].0
          ensures r[i].0 == k || exists j :: 0 <= j < |d| && d[j] == r[i]
        {
          if r[i].0 != k {
            var j :| 0 <= j < |d[1..]| && d[1..][j] == r[i];
            assert d[j + 1] == r[i];
          }
        }
      }
    }
  }

  lemma {:induction false} DelUnique<K, V>(d: Dict<K, V>, k: K)
    requires UniqueKeys(d)
    ensures UniqueKeys(Del(d, k))
    ensures forall e :: e in Del(d, k) ==> e in d
  {
    if d != [] && d[0].0 != k {
      DelUnique(d[1..], k);
      var r := Del(d[1..], k);
      forall i | 0 <= i < |r|
        ensures r[i].0 != d[0].0
      {
        assert r[i] in d[1..];
      }
    }
  }

  lemma {:induction false} TotalPut<K, V>(d: Dict<K, V>, k: K, v: V, f: (K, V) -> real)
    ensures Total(Put(d, k, v), f) == Total(d, f) + f(k, v) - (if Has(d, k) then f(k, Find(d, k).value) else 0.0)
  {
    if d != [] {
      if d[0].0 == k {
        assert Put(d, k, v)[1..] == d[1..];
      } else {
        TotalPut(d[1..], k, v, f);
        assert Put(d, k, v)[1..] == Put(d[1..], k, v);
      }
    }
  }

  lemma {:induction false} TotalDel<K, V>(d: Dict<K, V>, k: K, f: (K, V) -> real)
    ensures Total(Del(d, k), f) == Total(d, f) - (if Has(d, k) then f(k, Find(d, k).value) else 0.0)
  {
    if d != [] && d[0].0 != k {
      TotalDel(d[1..], k, f);
      assert Del(d, k)[1..] == Del(d[1..], k);
    }
  }
}
