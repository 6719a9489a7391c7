/** Shared vocabulary: Python-style errors, bits, ordered dictionaries, sums and powers. */
module Common {

  /** The exceptions the modelled Python code can raise. */
  datatype Error =
    | ValueError
    | KeyError
    | TypeError
    | ZeroDivisionError
    | IndexError
    | NotImplementedError
    | AssertionError
    | UnboundLocalError  // reading a local variable that was never assigned
    | StopIteration      // `next` on an exhausted iterator
    | NonTermination     // not an exception: the source loops forever
    | RaisedException   // a bare `raise Exception(...)`
    | NameError          // `eval` of text naming something that is not defined

  datatype Option<+T> = None | Some(value: T)

  datatype Result<+T> = Ok(value: T) | Err(error: Error) {
    predicate IsFailure() { Err? }
    function PropagateFailure<U>(): Result<U>
      requires Err?
    {
      Err(error)
    }
    function Extract(): T
      requires Ok?
    {
      value
    }
  }

  /** A classical bit, as stored in a `BitString` tuple. */
  type Bit = b: int | 0 <= b <= 1

  /** A measurement outcome, one bit per qubit, in a fixed qubit order. */
  type BitString = seq<Bit>

  function Pow(b: nat, e: nat): nat
  {
    if e == 0 then 1 else b * Pow(b, e - 1)
  }

  /** Equal exponents give equal powers (stated once so that callers need not unfold `Pow`). */
  lemma {:induction false} PowEqual(b: nat, e1: nat, e2: nat)
    requires e1 == e2
    ensures Pow(b, e1) == Pow(b, e2)
  {
  }

  lemma {:induction false} PowAdd(b: nat, e1: nat, e2: nat)
    ensures Pow(b, e1 + e2) == Pow(b, e1) * Pow(b, e2)
  {
    if e1 > 0 {
      PowAdd(b, e1 - 1, e2);
      assert Pow(b, e1 + e2) == b * Pow(b, e1 - 1 + e2);
    }
  }

  lemma {:induction false} PowPositive(b: nat, e: nat)
    requires b > 0
    ensures Pow(b, e) > 0
  {
    if e > 0 {
      PowPositive(b, e - 1);
    }
  }

  /**
   * The `d` low bits of `j`, most significant first: the multi-index of entry `j` of an array
   * whose `d` axes all have size 2.
   */
  function Bits(j: nat, d: nat): (r: seq<Bit>)
    ensures |r| == d
  {
    if d == 0 then [] else Bits(j / 2, d - 1) + [j % 2]
  }

  /** The number the bits spell, most significant first (`int(s, 2)`): the row-major position of a multi-index over axes of size 2. */
  function Index(b: seq<Bit>): (r: nat)
    ensures r < Pow(2, |b|)
  {
    if b == [] then 0 else 2 * Index(b[..|b| - 1]) + b[|b| - 1]
  }

  lemma {:induction false} BitsOfIndex(b: seq<Bit>)
    ensures Bits(Index(b), |b|) == b
  {
    if b != [] {
      BitsOfIndex(b[..|b| - 1]);
    }
  }

  lemma {:induction false} IndexOfBits(j: nat, d: nat)
    requires j < Pow(2, d)
    ensures Index(Bits(j, d)) == j
  {
    if d > 0 {
      IndexOfBits(j / 2, d - 1);
      assert Bits(j, d)[..d - 1] == Bits(j / 2, d - 1);
    }
  }

  /** `[0, 1, ..., n - 1]`, Python's `range(n)`. */
  function Range(n: nat): (r: seq<nat>)
    ensures |r| == n && forall i :: 0 <= i < n ==> r[i] == i
  {
    seq(n, i => i)
  }

  function Sum(s: seq<real>): real
  {
    if s == [] then 0.0 else Sum(s[..|s| - 1]) + s[|s| - 1]
  }

  lemma {:induction false} SumAppend(a: seq<real>, b: seq<real>)
    ensures Sum(a + b) == Sum(a) + Sum(b)
  {
    if b != [] {
      assert (a + b)[..|a + b| - 1] == a + b[..|b| - 1];
      SumAppend(a, b[..|b| - 1]);
    } else {
      assert a + b == a;
    }
  }

  lemma {:induction false} SumSingle(x: real)
    ensures Sum([x]) == x
  {
    assert [x][..0] == [];
  }

  /** Concatenation of a sequence of sequences (Python's `functools.reduce(operator.add, ...)`). */
  function Concat<T>(ss: seq<seq<T>>): seq<T>
  {
    if ss == [] then [] else ss[0] + Concat(ss[1..])
  }

  function TotalLength<T>(ss: seq<seq<T>>): nat
  {
    if ss == [] then 0 else |ss[0]| + TotalLength(ss[1..])
  }

  lemma {:induction false} ConcatLength<T>(ss: seq<seq<T>>)
    ensures |Concat(ss)| == TotalLength(ss)
  {
    if ss != [] {
      ConcatLength(ss[1..]);
    }
  }

  /** When every piece has width `w`, the concatenation has `|ss| * w` elements. */
  lemma {:induction false} ConcatUniformLength<T>(ss: seq<seq<T>>, w: nat)
    requires forall i :: 0 <= i < |ss| ==> |ss[i]| == w
    ensures |Concat(ss)| == |ss| * w
  {
    if ss != [] {
      ConcatUniformLength(ss[1..], w);
      assert |ss| * w == w + (|ss| - 1) * w;
    }
  }

  /** When every piece has width `w`, element `j` of piece `i` sits at `i * w + j`. */
  lemma {:induction false} ConcatUniformAt<T>(ss: seq<seq<T>>, w: nat, i: nat, j: nat)
    requires forall k :: 0 <= k < |ss| ==> |ss[k]| == w
    requires i < |ss| && j < w
    ensures i * w + j < |Concat(ss)| && Concat(ss)[i * w + j] == ss[i][j]
  {
    ConcatUniformLength(ss, w);
    if i > 0 {
      ConcatUniformAt(ss[1..], w, i - 1, j);
      assert i * w + j == w + ((i - 1) * w + j);
    }
  }

  lemma {:induction false} ConcatMember<T>(ss: seq<seq<T>>, x: T)
    ensures x in Concat(ss) <==> exists i :: 0 <= i < |ss| && x in ss[i]
  {
    if ss != [] {
      ConcatMember(ss[1..], x);
      if x in Concat(ss[1..]) {
        var i :| 0 <= i < |ss[1..]| && x in ss[1..][i];
        assert x in ss[i + 1];
      }
      if exists i :: 0 <= i < |ss| && x in ss[i] {
        var i :| 0 <= i < |ss| && x in ss[i];
        if i > 0 {
          assert x in ss[1..][i - 1];
        }
      }
    }
  }

  // ---------------------------------------------------------------------------------------------
  // Ordered dictionaries. A Python dict iterates in insertion order, and the modelled code relies
  // on that order; such a dict is modelled as a list of (key, value) pairs with distinct keys.

  type Dict<K, V> = seq<(K, V)>

  function Keys<K, V>(d: Dict<K, V>): (r: seq<K>)
    ensures |r| == |d| && forall i :: 0 <= i < |d| ==> r[i] == d[i].0
  {
    seq(|d|, i requires 0 <= i < |d| => d[i].0)
  }

  function Values<K, V>(d: Dict<K, V>): (r: seq<V>)
    ensures |r| == |d| && forall i :: 0 <= i < |d| ==> r[i] == d[i].1
  {
    seq(|d|, i requires 0 <= i < |d| => d[i].1)
  }

  predicate Distinct<T(==)>(s: seq<T>)
  {
    forall i, j :: 0 <= i < j < |s| ==> s[i] != s[j]
  }

  predicate DistinctKeys<K(==), V>(d: Dict<K, V>)
  {
    Distinct(Keys(d))
  }

  predicate HasKey<K(==), V>(d: Dict<K, V>, k: K)
  {
    k in Keys(d)
  }

  /** Python's `d.get(k)`: the value stored under `k`, if any. */
  function Get<K(==), V>(d: Dict<K, V>, k: K): (r: Option<V>)
    ensures r.Some? <==> HasKey(d, k)
    ensures r.Some? ==> exists i :: 0 <= i < |d| && d[i] == (k, r.value)
  {
    if d == [] then None
    else if d[0].0 == k then Some(d[0].1)
    else Get(d[1..], k)
  }

  /**
   * `{k: f(k, v) for k, v in d.items()}` where `f` may fail: the same keys in the same order, or
   * the error of a failing entry.
   */
  function MapResults<K, A, B>(d: Dict<K, A>, f: (K, A) -> Result<B>): (r: Result<Dict<K, B>>)
    ensures r.Ok? <==> forall i :: 0 <= i < |d| ==> f(d[i].0, d[i].1).Ok?
    ensures r.Ok? ==> |r.value| == |d| && forall i :: 0 <= i < |d| ==>
      r.value[i].0 == d[i].0 && f(d[i].0, d[i].1) == Ok(r.value[i].1)
    ensures r.Err? ==> exists i :: 0 <= i < |d| && f(d[i].0, d[i].1) == Err(r.error)
  {
    if d == [] then Ok([])
    else
      var b :- f(d[0].0, d[0].1);
      var rest :- MapResults(d[1..], f);
      Ok([(d[0].0, b)] + rest)
  }

  /** Each key paired with its image under `f`, in order; the first failure is the result. */
  function Tabulate<K, B>(keys: seq<K>, f: K -> Result<B>): (r: Result<Dict<K, B>>)
    ensures r.Ok? <==> forall i :: 0 <= i < |keys| ==> f(keys[i]).Ok?
    ensures r.Ok? ==> |r.value| == |keys| && forall i :: 0 <= i < |keys| ==> r.value[i] == (keys[i], f(keys[i]).value)
    ensures r.Err? ==> exists i :: 0 <= i < |keys| && f(keys[i]) == Err(r.error)
  {
    if keys == [] then Ok([])
    else
      var b :- f(keys[0]);
      var rest :- Tabulate(keys[1..], f);
      Ok([(keys[0], b)] + rest)
  }

  /** Mapping one more entry appends its image, under its key. */
  lemma {:induction false} MapResultsSnoc<K, A, B>(d: Dict<K, A>, f: (K, A) -> Result<B>, i: nat, acc: Dict<K, B>, b: B)
    requires i < |d| && MapResults(d[..i], f) == Ok(acc) && f(d[i].0, d[i].1) == Ok(b)
    ensures MapResults(d[..i + 1], f) == Ok(acc + [(d[i].0, b)])
  {
    var r := MapResults(d[..i + 1], f);
    assert forall t :: 0 <= t < i + 1 ==> d[..i + 1][t] == if t < i then d[..i][t] else d[i];
    assert r.value == acc + [(d[i].0, b)];
  }

  lemma {:induction false} AppendAssoc<T>(a: seq<T>, b: seq<T>, c: seq<T>)
    ensures (a + b) + c == a + (b + c)
  {
  }

  /** The head and tail of a concatenation whose first part is not empty. */
  lemma {:induction false} ConsAppend<T>(a: seq<T>, b: seq<T>)
    requires a != []
    ensures (a + b)[0] == a[0] && (a + b)[1..] == a[1..] + b
  {
  }

  /** A prefix one longer is the shorter prefix and the next element. */
  lemma {:induction false} TakeSnoc<T>(s: seq<T>, i: nat)
    requires i < |s|
    ensures s[..i + 1] == s[..i] + [s[i]]
  {
  }

  /** A non-empty sequence is its initial part followed by its last element. */
  lemma {:induction false} InitLast<T>(s: seq<T>)
    requires s != []
    ensures s == s[..|s| - 1] + [s[|s| - 1]]
    ensures forall x :: x in s <==> x in s[..|s| - 1] || x == s[|s| - 1]
  {
  }

  /** With distinct keys, looking up the key of entry `i` finds entry `i`. */
  lemma {:induction false} GetAt<K, V>(d: Dict<K, V>, i: nat)
    requires DistinctKeys(d) && i < |d|
    ensures Get(d, d[i].0) == Some(d[i].1)
  {
    if i > 0 {
      assert Keys(d)[0] != Keys(d)[i];
      forall a, b | 0 <= a < b < |d| - 1
        ensures Keys(d[1..])[a] != Keys(d[1..])[b]
      {
        assert Keys(d[1..])[a] == Keys(d)[a + 1] && Keys(d[1..])[b] == Keys(d)[b + 1];
      }
      GetAt(d[1..], i - 1);
    }
  }

  /** Looking up in a dict with one more entry at the end. */
  lemma {:induction false} GetSnoc<K, V>(d: Dict<K, V>, k: K, v: V, y: K)
    ensures Get(d + [(k, v)], y) == if HasKey(d, y) then Get(d, y) else if y == k then Some(v) else None
  {
    if d != [] {
      assert (d + [(k, v)])[1..] == d[1..] + [(k, v)];
      assert Keys(d) == [d[0].0] + Keys(d[1..]);
      GetSnoc(d[1..], k, v, y);
    }
  }

  /** Dropping the last entry of a dict with distinct keys leaves distinct keys, without that key. */
  lemma {:induction false} DistinctKeysInit<K, V>(d: Dict<K, V>)
    requires DistinctKeys(d) && d != []
    ensures DistinctKeys(d[..|d| - 1]) && !HasKey(d[..|d| - 1], d[|d| - 1].0)
  {
    assert Keys(d[..|d| - 1]) == Keys(d)[..|d| - 1];
  }

  /** Python's `d[k] = v`: overwrite in place if `k` is present, otherwise append. */
  function Store<K(==), V>(d: Dict<K, V>, k: K, v: V): Dict<K, V>
  {
    if d == [] then [(k, v)]
    else if d[0].0 == k then [(k, v)] + d[1..]
    else [d[0]] + Store(d[1..], k, v)
  }

  /** After `d[k] = v`, `k` holds `v` and every other key what it held before. */
  lemma {:induction false} StoreGet<K, V>(d: Dict<K, V>, k: K, v: V, y: K)
    ensures Get(Store(d, k, v), y) == if y == k then Some(v) else Get(d, y)
  {
    if d != [] && d[0].0 != k {
      StoreGet(d[1..], k, v, y);
    }
  }

  /** `d[k] = v` keeps the key order, appending `k` if it is new. */
  lemma {:induction false} StoreKeys<K, V>(d: Dict<K, V>, k: K, v: V)
    ensures Keys(Store(d, k, v)) == if HasKey(d, k) then Keys(d) else Keys(d) + [k]
  {
    if d != [] {
      KeysCons(d[0], d[1..]);
      assert d == [d[0]] + d[1..];
      if d[0].0 != k {
        StoreKeys(d[1..], k, v);
        KeysCons(d[0], Store(d[1..], k, v));
      }
    } else {
      KeysCons((k, v), []);
    }
  }

  /** The keys of an entry followed by more entries. */
  lemma {:induction false} KeysCons<K, V>(x: (K, V), d: Dict<K, V>)
    ensures Keys([x] + d) == [x.0] + Keys(d)
    ensures forall y :: y in Keys([x] + d) <==> y == x.0 || y in Keys(d)
  {
    var a, b := Keys([x] + d), [x.0] + Keys(d);
    forall i | 0 <= i < |a|
      ensures a[i] == b[i]
    {
      if i > 0 {
        assert ([x] + d)[i] == d[i - 1];
      }
    }
    assert a == b;
  }

  /** Storing under a new key appends the entry at the end of the iteration order. */
  lemma {:induction false} StoreAppend<K(!new), V>(d: Dict<K, V>, k: K, v: V)
    requires !HasKey(d, k)
    ensures Store(d, k, v) == d + [(k, v)]
  {
    if d != [] {
      assert Keys(d) == [d[0].0] + Keys(d[1..]);
      StoreAppend(d[1..], k, v);
      assert d == [d[0]] + d[1..];
    }
  }

  /** `{k: v for k, v in d.items() if k in keep}`: the entries whose key is in `keep`, in order. */
  function Restrict<K(==,!new), V>(d: Dict<K, V>, keep: set<K>): (r: Dict<K, V>)
    ensures forall k :: Get(r, k) == if k in keep then Get(d, k) else None
    ensures |r| <= |d|
  {
    if d == [] then []
    else if d[0].0 in keep then [d[0]] + Restrict(d[1..], keep)
    else Restrict(d[1..], keep)
  }

  lemma {:induction false} RestrictKeys<K(!new), V>(d: Dict<K, V>, keep: set<K>)
    ensures Keys(Restrict(d, keep)) == Filter(Keys(d), keep)
  {
    if d != [] {
      RestrictKeys(d[1..], keep);
      KeysCons(d[0], d[1..]);
      assert d == [d[0]] + d[1..];
      var ks := Keys(d);
      assert ks[0] == d[0].0 && ks[1..] == Keys(d[1..]);
      if d[0].0 in keep {
        KeysCons(d[0], Restrict(d[1..], keep));
      }
    }
  }

  lemma {:induction false} RestrictDistinct<K(!new), V>(d: Dict<K, V>, keep: set<K>)
    requires DistinctKeys(d)
    ensures DistinctKeys(Restrict(d, keep))
  {
    RestrictKeys(d, keep);
    FilterDistinct(Keys(d), keep);
  }

  /** The elements of `s` that lie in `keep`, in order. */
  function Filter<T(==,!new)>(s: seq<T>, keep: set<T>): (r: seq<T>)
    ensures forall x :: x in r <==> x in s && x in keep
  {
    if s == [] then []
    else if s[0] in keep then [s[0]] + Filter(s[1..], keep)
    else Filter(s[1..], keep)
  }

  lemma {:induction false} FilterDistinct<T(!new)>(s: seq<T>, keep: set<T>)
    requires Distinct(s)
    ensures Distinct(Filter(s, keep))
  {
    if s != [] {
      FilterDistinct(s[1..], keep);
    }
  }

  function Elems<T>(s: seq<T>): set<T>
  {
    set x | x in s
  }
}
