/** Cartesian products in the order of Python's `itertools.product`. */
module Products {
  import opened Common

  /** Every tail in `tails`, with `x` put in front. */
  function Prepend<T>(x: T, tails: seq<seq<T>>): (r: seq<seq<T>>)
    ensures |r| == |tails| && forall j :: 0 <= j < |tails| ==> r[j] == [x] + tails[j]
  {
    seq(|tails|, j requires 0 <= j < |tails| => [x] + tails[j])
  }

  /**
   * `itertools.product(*options)`: all choices of one element per position, the first position
   * varying slowest (lexicographic order of the choice indices).
   */
  function Product<T>(options: seq<seq<T>>): seq<seq<T>>
    decreases |options|
  {
    if options == [] then [[]]
    else
      var rest := Product(options[1..]);
      Concat(seq(|options[0]|, i requires 0 <= i < |options[0]| => Prepend(options[0][i], rest)))
  }

  /** The number of choices, the product of the option counts. */
  function NumChoices<T>(options: seq<seq<T>>): nat
  {
    if options == [] then 1 else |options[0]| * NumChoices(options[1..])
  }

  /** `itertools.product(xs, repeat=n)`. */
  function Repeat<T>(xs: seq<T>, n: nat): (r: seq<seq<T>>)
    ensures |r| == n && forall k :: 0 <= k < n ==> r[k] == xs
  {
    seq(n, k => xs)
  }

  /** All bit strings of length `n`, as `itertools.product([0, 1], repeat=n)` lists them. */
  function BitStrings(n: nat): seq<BitString>
  {
    Product<Bit>(Repeat<Bit>([0, 1], n))
  }

  lemma {:induction false} ProductLength<T>(options: seq<seq<T>>)
    ensures |Product(options)| == NumChoices(options)
    decreases |options|
  {
    if options != [] {
      var rest := Product(options[1..]);
      ProductLength(options[1..]);
      var blocks := seq(|options[0]|, i requires 0 <= i < |options[0]| => Prepend(options[0][i], rest));
      ConcatUniformLength(blocks, |rest|);
    }
  }

  /** Lexicographic order: choice `i` at the first position and tail `j` sit at `i * |tails| + j`. */
  lemma {:induction false} ProductAt<T>(options: seq<seq<T>>, i: nat, j: nat)
    requires options != [] && i < |options[0]| && j < |Product(options[1..])|
    ensures i * |Product(options[1..])| + j < |Product(options)|
    ensures Product(options)[i * |Product(options[1..])| + j] == [options[0][i]] + Product(options[1..])[j]
  {
    var rest := Product(options[1..]);
    var blocks := seq(|options[0]|, i requires 0 <= i < |options[0]| => Prepend(options[0][i], rest));
    ConcatUniformAt(blocks, |rest|, i, j);
  }

  /** Every element of the product is a choice: one option per position. */
  lemma {:induction false} ProductMember<T>(options: seq<seq<T>>, e: seq<T>)
    requires e in Product(options)
    ensures |e| == |options| && forall k :: 0 <= k < |options| ==> e[k] in options[k]
    decreases |options|
  {
    if options != [] {
      var rest := Product(options[1..]);
      var blocks := seq(|options[0]|, i requires 0 <= i < |options[0]| => Prepend(options[0][i], rest));
      ConcatMember(blocks, e);
      var i :| 0 <= i < |blocks| && e in blocks[i];
      var j :| 0 <= j < |rest| && e == [options[0][i]] + rest[j];
      ProductMember(options[1..], rest[j]);
      assert e[1..] == rest[j];
      forall k | 0 <= k < |options|
        ensures e[k] in options[k]
      {
        if k > 0 {
          assert e[k] == rest[j][k - 1];
        }
      }
    }
  }

  /** Every choice of one option per position occurs in the product. */
  lemma {:induction false} ProductComplete<T>(options: seq<seq<T>>, e: seq<T>)
    requires |e| == |options| && forall k :: 0 <= k < |options| ==> e[k] in options[k]
    ensures e in Product(options)
    decreases |options|
  {
    if options == [] {
      assert e == [];
    } else {
      var tail, tailOptions := e[1..], options[1..];
      forall k | 0 <= k < |tailOptions|
        ensures tail[k] in tailOptions[k]
      {
        assert tail[k] == e[k + 1] && tailOptions[k] == options[k + 1];
      }
      ProductComplete(tailOptions, tail);
      assert e[0] in options[0];
      var i :| 0 <= i < |options[0]| && options[0][i] == e[0];
      var j :| 0 <= j < |Product(tailOptions)| && Product(tailOptions)[j] == tail;
      ProductHas(options, e, i, j);
    }
  }

  /** A choice made of first-position option `i` and tail `j` of the product of the rest is in the product. */
  lemma {:induction false} ProductHas<T>(options: seq<seq<T>>, e: seq<T>, i: nat, j: nat)
    requires options != [] && e != [] && i < |options[0]| && options[0][i] == e[0]
    requires j < |Product(options[1..])| && Product(options[1..])[j] == e[1..]
    ensures e in Product(options)
  {
    ProductAt(options, i, j);
    assert e == [e[0]] + e[1..];
    InAt(Product(options), i * |Product(options[1..])| + j, e);
  }

  lemma {:induction false} InAt<T>(s: seq<T>, k: nat, x: T)
    requires k < |s| && s[k] == x
    ensures x in s
  {
  }

  lemma {:induction false} RepeatChoices<T>(xs: seq<T>, n: nat)
    ensures NumChoices(Repeat(xs, n)) == Pow(|xs|, n)
  {
    if n > 0 {
      assert Repeat(xs, n)[1..] == Repeat(xs, n - 1);
      RepeatChoices(xs, n - 1);
    }
  }

  /** The bit strings of length `n` are exactly all `2^n` strings of `n` bits. */
  lemma {:induction false} BitStringsLength(n: nat)
    ensures |BitStrings(n)| == Pow(2, n)
  {
    ProductLength(Repeat<Bit>([0, 1], n));
    RepeatChoices<Bit>([0, 1], n);
  }

  lemma {:induction false} BitStringsSpec(n: nat)
    ensures |BitStrings(n)| == Pow(2, n)
    ensures forall b :: b in BitStrings(n) <==> |b| == n
  {
    BitStringsLength(n);
    forall b: BitString
      ensures b in BitStrings(n) <==> |b| == n
    {
      BitStringMember(n, b);
    }
  }

  lemma {:induction false} BitStringMember(n: nat, b: BitString)
    ensures b in BitStrings(n) <==> |b| == n
  {
    if b in BitStrings(n) {
      ProductMember(Repeat<Bit>([0, 1], n), b);
    }
    if |b| == n {
      ProductComplete(Repeat<Bit>([0, 1], n), b);
    }
  }

  // ---------------------------------------------------------------------------------------------
  // Three nested `for` loops, collected in order.

  /** The triples for one outer element `a`, the middle loop outermost. */
  function Pairs<A, B, C>(a: A, bs: seq<B>, cs: seq<C>): seq<(A, B, C)>
  {
    Concat(seq(|bs|, j requires 0 <= j < |bs| => seq(|cs|, l requires 0 <= l < |cs| => (a, bs[j], cs[l]))))
  }

  /** `[(a, b, c) for a in as_ for b in bs for c in cs]`. */
  function Triples<A, B, C>(as_: seq<A>, bs: seq<B>, cs: seq<C>): seq<(A, B, C)>
  {
    Concat(seq(|as_|, i requires 0 <= i < |as_| => Pairs(as_[i], bs, cs)))
  }

  function PairBlocks<A, B, C>(a: A, bs: seq<B>, cs: seq<C>): (r: seq<seq<(A, B, C)>>)
    ensures |r| == |bs| && forall j :: 0 <= j < |bs| ==> |r[j]| == |cs|
  {
    seq(|bs|, j requires 0 <= j < |bs| => seq(|cs|, l requires 0 <= l < |cs| => (a, bs[j], cs[l])))
  }

  lemma {:induction false} PairsLength<A, B, C>(a: A, bs: seq<B>, cs: seq<C>)
    ensures |Pairs(a, bs, cs)| == |bs| * |cs|
  {
    assert Pairs(a, bs, cs) == Concat(PairBlocks(a, bs, cs));
    ConcatUniformLength(PairBlocks(a, bs, cs), |cs|);
  }

  lemma {:induction false} PairsAt<A, B, C>(a: A, bs: seq<B>, cs: seq<C>, j: nat, l: nat)
    requires j < |bs| && l < |cs|
    ensures j * |cs| + l < |Pairs(a, bs, cs)| && Pairs(a, bs, cs)[j * |cs| + l] == (a, bs[j], cs[l])
  {
    var blocks := PairBlocks(a, bs, cs);
    assert Pairs(a, bs, cs) == Concat(blocks);
    ConcatUniformAt(blocks, |cs|, j, l);
  }

  function TripleBlocks<A, B, C>(as_: seq<A>, bs: seq<B>, cs: seq<C>): (r: seq<seq<(A, B, C)>>)
    ensures |r| == |as_| && forall i :: 0 <= i < |as_| ==> r[i] == Pairs(as_[i], bs, cs)
  {
    seq(|as_|, i requires 0 <= i < |as_| => Pairs(as_[i], bs, cs))
  }

  lemma {:induction false} TriplesLength<A, B, C>(as_: seq<A>, bs: seq<B>, cs: seq<C>)
    ensures |Triples(as_, bs, cs)| == |as_| * (|bs| * |cs|)
  {
    var outer := TripleBlocks(as_, bs, cs);
    assert Triples(as_, bs, cs) == Concat(outer);
    forall i | 0 <= i < |as_|
      ensures |outer[i]| == |bs| * |cs|
    {
      PairsLength(as_[i], bs, cs);
    }
    ConcatUniformLength(outer, |bs| * |cs|);
  }

  lemma {:induction false} MixedRadix(i: nat, j: nat, l: nat, b: nat, c: nat)
    ensures (i * b + j) * c + l == i * (b * c) + (j * c + l)
  {
    assert (i * b + j) * c == i * b * c + j * c;
  }

  /** `(as[i], bs[j], cs[l])` sits at `(i * |bs| + j) * |cs| + l`. */
  lemma {:induction false} TriplesAt<A, B, C>(as_: seq<A>, bs: seq<B>, cs: seq<C>, i: nat, j: nat, l: nat)
    requires i < |as_| && j < |bs| && l < |cs|
    ensures (i * |bs| + j) * |cs| + l < |Triples(as_, bs, cs)|
    ensures Triples(as_, bs, cs)[(i * |bs| + j) * |cs| + l] == (as_[i], bs[j], cs[l])
  {
    var outer := TripleBlocks(as_, bs, cs);
    assert Triples(as_, bs, cs) == Concat(outer);
    var w := |bs| * |cs|;
    forall i' | 0 <= i' < |as_|
      ensures |outer[i']| == w
    {
      PairsLength(as_[i'], bs, cs);
    }
    PairsAt(as_[i], bs, cs, j, l);
    PairsLength(as_[i], bs, cs);
    ConcatUniformAt(outer, w, i, j * |cs| + l);
    MixedRadix(i, j, l, |bs|, |cs|);
  }

  lemma {:induction false} TriplesMember<A, B, C>(as_: seq<A>, bs: seq<B>, cs: seq<C>, t: (A, B, C))
    ensures t in Triples(as_, bs, cs) <==> t.0 in as_ && t.1 in bs && t.2 in cs
  {
    var outer := TripleBlocks(as_, bs, cs);
    assert Triples(as_, bs, cs) == Concat(outer);
    ConcatMember(outer, t);
    forall i | 0 <= i < |as_|
      ensures t in outer[i] <==> t.0 == as_[i] && t.1 in bs && t.2 in cs
    {
      var blocks := PairBlocks(as_[i], bs, cs);
      assert outer[i] == Concat(blocks);
      ConcatMember(blocks, t);
      if t.0 == as_[i] && t.1 in bs && t.2 in cs {
        var j :| 0 <= j < |bs| && bs[j] == t.1;
        var l :| 0 <= l < |cs| && cs[l] == t.2;
        assert blocks[j][l] == t;
      }
    }
  }
}
