/**
 * Maximum-likelihood correction of a whole fragment model (`corrected_single_fragment_model` and
 * `corrected_fragment_models`). Every block tensor of the model is viewed as a Choi matrix by
 * moving axes, the matrix is diagonalised, the eigenvalues of all blocks are corrected together
 * as one distribution, and every block is rebuilt from its corrected eigenvalues and moved back
 * into tensor form.
 *
 * A block over `nq` cut qubits has `nq` axes of size 4, stored row-major; `reshape((2,) * 2nq)`
 * is the same flat data seen as `2 * nq` axes of size 2, where axis `p` of size 4 becomes the
 * axes `2p` (its high bit) and `2p + 1` (its low bit). The model works on that flat data.
 */
module ChoiCorrection {
  import opened Common
  import opened Fragments
  import opened Containers
  import opened Build
  import opened MaximumLikelihood

  // ---------------------------------------------------------------------------------------------
  // `np.moveaxis` as an axis order.

  /** Python's `list.insert(i, x)` for a non-negative `i`: an index past the end appends. */
  function Insert(s: seq<nat>, i: nat, x: nat): (r: seq<nat>)
    ensures |r| == |s| + 1
  {
    if i <= |s| then s[..i] + [x] + s[i..] else s + [x]
  }

  /** `[n for n in range(ndim) if n not in source]`. */
  function Remaining(ndim: nat, source: seq<nat>): seq<nat>
  {
    if ndim == 0 then [] else Remaining(ndim - 1, source) + (if ndim - 1 in source then [] else [ndim - 1])
  }

  /** `for dest, src in pairs: order.insert(dest, src)`. */
  function InsertAll(order: seq<nat>, pairs: seq<(nat, nat)>): (r: seq<nat>)
    ensures |r| == |order| + |pairs|
    decreases |pairs|
  {
    if pairs == [] then order else InsertAll(Insert(order, pairs[0].0, pairs[0].1), pairs[1..])
  }

  function Zip(a: seq<nat>, b: seq<nat>): (r: seq<(nat, nat)>)
    requires |a| == |b|
    ensures |r| == |a| && forall i :: 0 <= i < |a| ==> r[i] == (a[i], b[i])
  {
    seq(|a|, i requires 0 <= i < |a| => (a[i], b[i]))
  }

  /**
   * The axis order `np.moveaxis(a, source, destination)` hands to `transpose`: axis `i` of the
   * result is axis `order[i]` of `a`. Only increasing destinations are modelled (both calls in
   * the source pass a `range`), for which numpy's `sorted(zip(destination, source))` is the zip.
   */
  function MoveAxis(ndim: nat, source: seq<nat>, destination: seq<nat>): seq<nat>
    requires |source| == |destination|
    requires forall i, j :: 0 <= i < j < |destination| ==> destination[i] < destination[j]
  {
    InsertAll(Remaining(ndim, source), Zip(destination, source))
  }

  /** `range(lo, lo + n)`. */
  function Span(lo: nat, n: nat): (r: seq<nat>)
    ensures |r| == n && forall i :: 0 <= i < n ==> r[i] == lo + i
  {
    seq(n, i => lo + i)
  }

  /** `range(1, 2 * n, 2)`. */
  function OddAxes(n: nat): (r: seq<nat>)
    ensures |r| == n && forall i :: 0 <= i < n ==> r[i] == 2 * i + 1
  {
    seq(n, i => 2 * i + 1)
  }

  /** Tensor to matrix: row axes are the high bits `0, 2, 4, ...`, column axes the low bits. */
  function MatrixAxes(nq: nat): (r: seq<nat>)
    ensures |r| == 2 * nq
  {
    seq(2 * nq, a => if a < nq then 2 * a else 2 * (a - nq) + 1)
  }

  /** Matrix to tensor: the row and column axes are interleaved again. */
  function TensorAxes(nq: nat): (r: seq<nat>)
    ensures |r| == 2 * nq
  {
    seq(2 * nq, q => if q % 2 == 0 then q / 2 else nq + q / 2)
  }

  lemma {:induction false} OddAxesMember(n: nat, x: nat)
    ensures x in OddAxes(n) <==> x % 2 == 1 && x < 2 * n
  {
    if x % 2 == 1 && x < 2 * n {
      assert OddAxes(n)[x / 2] == x;
    }
  }

  lemma {:induction false} RemainingEvens(n: nat, k: nat)
    requires k <= 2 * n
    ensures Remaining(k, OddAxes(n)) == seq((k + 1) / 2, a => 2 * a)
  {
    if k > 0 {
      RemainingEvens(n, k - 1);
      OddAxesMember(n, k - 1);
    }
  }

  /** Inserting at the end, one pair after the other, appends the sources in order. */
  lemma {:induction false} InsertAllAppends(order: seq<nat>, pairs: seq<(nat, nat)>)
    requires forall i :: 0 <= i < |pairs| ==> pairs[i].0 == |order| + i
    ensures InsertAll(order, pairs) == order + seq(|pairs|, i requires 0 <= i < |pairs| => pairs[i].1)
    decreases |pairs|
  {
    if pairs != [] {
      var next := Insert(order, pairs[0].0, pairs[0].1);
      assert next == order + [pairs[0].1];
      InsertAllAppends(next, pairs[1..]);
    }
  }

  /** The move of lines 43-47 (odd axes to the back) is the closed form `MatrixAxes`. */
  lemma {:induction false} MoveToMatrix(nq: nat)
    ensures MoveAxis(2 * nq, OddAxes(nq), Span(nq, nq)) == MatrixAxes(nq)
  {
    var evens := Remaining(2 * nq, OddAxes(nq));
    RemainingEvens(nq, 2 * nq);
    assert (2 * nq + 1) / 2 == nq;
    assert |evens| == nq && forall a :: 0 <= a < nq ==> evens[a] == 2 * a;
    var pairs := Zip(Span(nq, nq), OddAxes(nq));
    InsertAllAppends(evens, pairs);
    var odds := seq(|pairs|, i requires 0 <= i < |pairs| => pairs[i].1);
    var m := MatrixAxes(nq);
    forall a | 0 <= a < 2 * nq
      ensures (evens + odds)[a] == m[a]
    {
      if a >= nq {
        assert odds[a - nq] == 2 * (a - nq) + 1;
      }
    }
  }

  lemma {:induction false} RemainingLow(n: nat, k: nat)
    requires k <= 2 * n
    ensures Remaining(k, Span(n, n)) == Span(0, if k < n then k else n)
  {
    if k > 0 {
      RemainingLow(n, k - 1);
      if k - 1 >= n {
        assert Span(n, n)[k - 1 - n] == k - 1;
      }
    }
  }

  /** After `i` insertions: the first `i` row and column axes interleaved, then the rest of the rows. */
  function Interleaved(nq: nat, i: nat): (r: seq<nat>)
    requires i <= nq
    ensures |r| == nq + i
  {
    seq(2 * i, q => if q % 2 == 0 then q / 2 else nq + q / 2) + Span(i, nq - i)
  }

  lemma {:induction false} InterleaveStep(nq: nat, i: nat)
    requires i < nq
    ensures Insert(Interleaved(nq, i), 2 * i + 1, nq + i) == Interleaved(nq, i + 1)
  {
    var a := Interleaved(nq, i);
    var b := Interleaved(nq, i + 1);
    var c := Insert(a, 2 * i + 1, nq + i);
    forall q | 0 <= q < |b|
      ensures c[q] == b[q]
    {
      if q < 2 * i + 1 {
        assert c[q] == a[q];
      } else if q > 2 * i + 1 {
        assert c[q] == a[q - 1];
      }
    }
  }

  lemma {:induction false} InterleaveFrom(nq: nat, i: nat)
    requires i <= nq
    ensures InsertAll(Interleaved(nq, i), Zip(OddAxes(nq), Span(nq, nq))[i..]) == TensorAxes(nq)
    decreases nq - i
  {
    var pairs := Zip(OddAxes(nq), Span(nq, nq));
    if i == nq {
      InterleavedAll(nq);
      assert pairs[i..] == [];
    } else {
      InterleaveStep(nq, i);
      assert pairs[i..][0] == (2 * i + 1, nq + i);
      assert pairs[i..][1..] == pairs[i + 1..];
      InterleaveFrom(nq, i + 1);
    }
  }

  /** With every column axis inserted, the order is `TensorAxes`. */
  lemma {:induction false} InterleavedAll(nq: nat)
    ensures Interleaved(nq, nq) == TensorAxes(nq)
  {
    assert Span(nq, 0) == [];
  }

  /** The move of lines 63-67 (the back half to the odd positions) is the closed form `TensorAxes`. */
  lemma {:induction false} MoveToTensor(nq: nat)
    ensures MoveAxis(2 * nq, Span(nq, nq), OddAxes(nq)) == TensorAxes(nq)
  {
    RemainingLow(nq, 2 * nq);
    assert Interleaved(nq, 0) == Span(0, nq);
    InterleaveFrom(nq, 0);
    assert Zip(OddAxes(nq), Span(nq, nq))[0..] == Zip(OddAxes(nq), Span(nq, nq));
  }

  /** The two axis moves undo each other. */
  lemma {:induction false} AxesInverse(nq: nat)
    ensures forall q :: 0 <= q < 2 * nq ==> TensorAxes(nq)[q] < 2 * nq && MatrixAxes(nq)[TensorAxes(nq)[q]] == q
    ensures forall a :: 0 <= a < 2 * nq ==> MatrixAxes(nq)[a] < 2 * nq && TensorAxes(nq)[MatrixAxes(nq)[a]] == a
  {
  }

  // ---------------------------------------------------------------------------------------------
  // `transpose` on the flat data of an array whose axes all have size 2.

  /** `order` lists every axis of a `d`-dimensional array once. */
  predicate AxisOrder(order: seq<nat>, d: nat)
  {
    && |order| == d
    && (forall i :: 0 <= i < d ==> order[i] < d)
    && (forall k :: 0 <= k < d ==> k in order)
    && Distinct(order)
  }

  /** The position of `k` in `s`. */
  function Position(s: seq<nat>, k: nat): (r: nat)
    requires k in s
    ensures r < |s| && s[r] == k && forall i :: 0 <= i < r ==> s[i] != k
  {
    if s[0] == k then 0 else 1 + Position(s[1..], k)
  }

  /** The input multi-index read for output multi-index `out`: input axis `order[i]` is output axis `i`. */
  function SourceIndex(out: seq<Bit>, order: seq<nat>): (r: seq<Bit>)
    requires AxisOrder(order, |out|)
    ensures |r| == |out|
  {
    seq(|out|, k requires 0 <= k < |out| => out[Position(order, k)])
  }

  /** `x.transpose(order)` for an array with `|order|` axes of size 2, on its row-major data. */
  function Transpose<T>(x: seq<T>, order: seq<nat>): (r: seq<T>)
    requires |x| == Pow(2, |order|) && AxisOrder(order, |order|)
    ensures |r| == |x|
  {
    seq(|x|, j requires 0 <= j < |x| => x[Index(SourceIndex(Bits(j, |order|), order))])
  }

  lemma {:induction false} PositionOfInverse(f: seq<nat>, b: seq<nat>, d: nat, k: nat)
    requires AxisOrder(f, d) && |b| == d && k < d && b[k] < d && f[b[k]] == k
    ensures Position(f, k) == b[k]
  {
  }

  /** Reading through an order and then through its inverse reads the multi-index itself. */
  lemma {:induction false} SourceIndexInverse(kb: seq<Bit>, f: seq<nat>, b: seq<nat>, d: nat)
    requires |kb| == d && AxisOrder(f, d) && AxisOrder(b, d)
    requires forall q :: 0 <= q < d ==> f[b[q]] == q && b[f[q]] == q
    ensures SourceIndex(SourceIndex(kb, b), f) == kb
  {
    var jb := SourceIndex(kb, b);
    forall q | 0 <= q < d
      ensures jb[q] == kb[f[q]]
    {
      PositionOfInverse(b, f, d, q);
    }
    var ib := SourceIndex(jb, f);
    forall k | 0 <= k < d
      ensures ib[k] == kb[k]
    {
      PositionOfInverse(f, b, d, k);
    }
  }

  /** Entry `j` of the twice-transposed data is entry `j` of the data. */
  lemma {:induction false} TransposeInverseAt<T>(x: seq<T>, f: seq<nat>, b: seq<nat>, d: nat, j: nat)
    requires |x| == Pow(2, d) && AxisOrder(f, d) && AxisOrder(b, d)
    requires forall q :: 0 <= q < d ==> f[b[q]] == q && b[f[q]] == q
    requires j < |x|
    ensures Transpose(Transpose(x, f), b)[j] == x[j]
  {
    var kb := Bits(j, d);
    var jb := SourceIndex(kb, b);
    BitsOfIndex(jb);
    SourceIndexInverse(kb, f, b, d);
    IndexOfBits(j, d);
    assert Transpose(x, f)[Index(jb)] == x[Index(SourceIndex(jb, f))];
  }

  /** Transposing by an order and then by its inverse gives the data back. */
  lemma {:induction false} TransposeInverse<T>(x: seq<T>, f: seq<nat>, b: seq<nat>, d: nat)
    requires |x| == Pow(2, d) && AxisOrder(f, d) && AxisOrder(b, d)
    requires forall q :: 0 <= q < d ==> f[b[q]] == q && b[f[q]] == q
    ensures Transpose(Transpose(x, f), b) == x
  {
    forall j | 0 <= j < |x|
      ensures Transpose(Transpose(x, f), b)[j] == x[j]
    {
      TransposeInverseAt(x, f, b, d, j);
    }
  }

  lemma {:induction false} AxesAreOrders(nq: nat)
    ensures AxisOrder(MatrixAxes(nq), 2 * nq) && AxisOrder(TensorAxes(nq), 2 * nq)
  {
    AxesInverse(nq);
    var m, t := MatrixAxes(nq), TensorAxes(nq);
    forall k | 0 <= k < 2 * nq
      ensures k in m && k in t
    {
      assert m[t[k]] == k && t[m[k]] == k;
    }
    forall i, j | 0 <= i < j < 2 * nq
      ensures m[i] != m[j] && t[i] != t[j]
    {
      assert t[m[i]] == i && m[t[i]] == i;
    }
  }

  /** The Choi-matrix view of a block's data: `np.moveaxis(..., range(1, 2nq, 2), range(nq, 2nq))`. */
  function ChoiMatrix(entries: seq<Complex>, nq: nat): (r: seq<Complex>)
    requires |entries| == Pow(2, 2 * nq)
    ensures |r| == |entries|
  {
    AxesAreOrders(nq);
    Transpose(entries, MatrixAxes(nq))
  }

  /** The tensor view of a Choi matrix: `np.moveaxis(..., range(nq, 2nq), range(1, 2nq, 2))`. */
  function TensorData(matrix: seq<Complex>, nq: nat): (r: seq<Complex>)
    requires |matrix| == Pow(2, 2 * nq)
    ensures |r| == |matrix|
  {
    AxesAreOrders(nq);
    Transpose(matrix, TensorAxes(nq))
  }

  /** Moving a block into matrix form and back gives the block's data unchanged, and vice versa. */
  lemma {:induction false} ChoiRoundTrip(x: seq<Complex>, nq: nat)
    requires |x| == Pow(2, 2 * nq)
    ensures TensorData(ChoiMatrix(x, nq), nq) == x
    ensures ChoiMatrix(TensorData(x, nq), nq) == x
  {
    AxesAreOrders(nq);
    AxesInverse(nq);
    TransposeInverse(x, MatrixAxes(nq), TensorAxes(nq), 2 * nq);
    TransposeInverse(x, TensorAxes(nq), MatrixAxes(nq), 2 * nq);
  }

  // ---------------------------------------------------------------------------------------------
  // Correcting one fragment model.

  /** Eigenvalues (ascending) and eigenvectors (as columns) of a Hermitian matrix. */
  type Spectrum = (seq<real>, seq<seq<Complex>>)

  /**
   * `np.linalg.eigh` on a `2^nq x 2^nq` matrix given by its row-major entries. Floating-point
   * linear algebra is not modelled; the decomposition is a parameter.
   */
  type Eigh = seq<Complex> -> Spectrum

  /** `sum(val * np.outer(vec, vec.conj()) ...)`: a matrix rebuilt from a spectrum, row-major. */
  type Reconstruct = Spectrum -> seq<Complex>

  /** The number of cut qubits of a fragment: its quantum inputs and its quantum outputs. */
  function NumQubits(f: Fragment): nat
  {
    |f.quantumInputs| + |f.quantumOutputs|
  }

  /**
   * Lines 43-50 for one block: view the block as a Choi matrix and diagonalise it. `reshape`
   * raises `ValueError` when the block does not have `4^nq` entries, and so does the assignment
   * `eigenvalues[idx] = ...` when the row does not have `2^nq` values.
   */
  function BlockSpectrum(t: Tensor, nq: nat, eigh: Eigh): (r: Result<Spectrum>)
    ensures r.Ok? ==> |t.entries| == Pow(2, 2 * nq) && r.value == eigh(ChoiMatrix(t.entries, nq))
    ensures r.Ok? ==> |r.value.0| == Pow(2, nq)
    ensures r.Err? ==> r.error == ValueError
  {
    if |t.entries| != Pow(2, 2 * nq) then Err(ValueError)
    else
      var s := eigh(ChoiMatrix(t.entries, nq));
      if |s.0| != Pow(2, nq) then Err(ValueError) else Ok(s)
  }

  /** The first loop: one spectrum per block, in block order; the first failing block stops it. */
  function Spectra(blocks: Dict<BitString, Tensor>, nq: nat, eigh: Eigh): (r: Result<seq<Spectrum>>)
    ensures r.Ok? <==> forall i :: 0 <= i < |blocks| ==> BlockSpectrum(blocks[i].1, nq, eigh).Ok?
    ensures r.Err? ==> r.error == ValueError
    ensures r.Ok? ==> |r.value| == |blocks|
    ensures r.Ok? ==> forall i :: 0 <= i < |blocks| ==> r.value[i] == BlockSpectrum(blocks[i].1, nq, eigh).value
  {
    if blocks == [] then Ok([])
    else
      var init := blocks[..|blocks| - 1];
      var prev := Spectra(init, nq, eigh);
      var last := BlockSpectrum(blocks[|blocks| - 1].1, nq, eigh);
      if prev.Err? then prev
      else if last.Err? then Err(last.error)
      else Ok(prev.value + [last.value])
  }

  /** The eigenvalue rows of a list of spectra: the `eigenvalues` array. */
  function Eigenvalues(spectra: seq<Spectrum>): (r: seq<seq<real>>)
    ensures |r| == |spectra| && forall i :: 0 <= i < |spectra| ==> r[i] == spectra[i].0
  {
    seq(|spectra|, i requires 0 <= i < |spectra| => spectra[i].0)
  }

  lemma {:induction false} MulPred(n: nat, w: nat)
    requires n > 0
    ensures n * w == w + (n - 1) * w
  {
  }

  /** The flat values seen as `n` rows of width `w`: restoring `shape` after `ravel`. */
  function Rows(flat: seq<real>, w: nat, n: nat): (r: seq<seq<real>>)
    requires |flat| == n * w
    ensures |r| == n && forall i :: 0 <= i < n ==> |r[i]| == w
    decreases n
  {
    if n == 0 then []
    else
      MulPred(n, w);
      [flat[..w]] + Rows(flat[w..], w, n - 1)
  }

  /** Cutting the concatenation of rows of width `w` gives the rows back. */
  lemma {:induction false} RowsOfConcat(ss: seq<seq<real>>, w: nat)
    requires forall i :: 0 <= i < |ss| ==> |ss[i]| == w
    ensures |Concat(ss)| == |ss| * w && Rows(Concat(ss), w, |ss|) == ss
  {
    ConcatUniformLength(ss, w);
    if ss != [] {
      RowsOfConcat(ss[1..], w);
      assert Concat(ss)[..w] == ss[0] && Concat(ss)[w..] == Concat(ss[1..]);
    }
  }

  /** Concatenating the rows gives the flat values back. */
  lemma {:induction false} ConcatOfRows(flat: seq<real>, w: nat, n: nat)
    requires |flat| == n * w
    ensures Concat(Rows(flat, w, n)) == flat
    decreases n
  {
    if n > 0 {
      MulPred(n, w);
      ConcatOfRows(flat[w..], w, n - 1);
      assert Rows(flat, w, n)[1..] == Rows(flat[w..], w, n - 1);
      assert flat == flat[..w] + flat[w..];
    }
  }

  /**
   * Line 51: the eigenvalues of all blocks, corrected together as one distribution and cut back
   * into one row per block.
   */
  function CorrectedEigenvalues(spectra: seq<Spectrum>, w: nat): (r: seq<seq<real>>)
    requires forall i :: 0 <= i < |spectra| ==> |spectra[i].0| == w
    ensures |r| == |spectra| && forall i :: 0 <= i < |spectra| ==> |r[i]| == w
  {
    var values := Eigenvalues(spectra);
    ConcatUniformLength(values, w);
    Rows(CorrectedDistribution(Concat(values)), w, |spectra|)
  }

  /**
   * The joint correction: every corrected eigenvalue is non-negative, the total over all blocks
   * is kept when it is non-negative, and eigenvalues that are all non-negative are kept as they are.
   */
  lemma {:induction false} JointCorrection(spectra: seq<Spectrum>, w: nat)
    requires forall i :: 0 <= i < |spectra| ==> |spectra[i].0| == w
    ensures var r := CorrectedEigenvalues(spectra, w);
      forall i, j :: 0 <= i < |spectra| && 0 <= j < w ==> r[i][j] >= 0.0
    ensures Sum(Concat(Eigenvalues(spectra))) >= 0.0 ==>
      Sum(Concat(CorrectedEigenvalues(spectra, w))) == Sum(Concat(Eigenvalues(spectra)))
    ensures (forall i, j :: 0 <= i < |spectra| && 0 <= j < w ==> spectra[i].0[j] >= 0.0) ==>
      CorrectedEigenvalues(spectra, w) == Eigenvalues(spectra)
  {
    var values := Eigenvalues(spectra);
    var n := |spectra|;
    ConcatUniformLength(values, w);
    var flat := Concat(values);
    var corrected := CorrectedDistribution(flat);
    CorrectedNonNegative(flat);
    var rows := CorrectedEigenvalues(spectra, w);
    ConcatOfRows(corrected, w, n);
    forall i, j | 0 <= i < n && 0 <= j < w
      ensures rows[i][j] >= 0.0
    {
      ConcatMember(rows, rows[i][j]);
    }
    if Sum(flat) >= 0.0 {
      CorrectedSum(flat);
    }
    if forall i, j :: 0 <= i < n && 0 <= j < w ==> spectra[i].0[j] >= 0.0 {
      forall k | 0 <= k < |flat|
        ensures flat[k] >= 0.0
      {
        ConcatMember(values, flat[k]);
        var i :| 0 <= i < n && flat[k] in values[i];
      }
      CorrectedUnchanged(flat);
      RowsOfConcat(values, w);
    }
  }

  /**
   * Lines 59-70 for one block: rebuild the Choi matrix from the corrected spectrum, move it back
   * into tensor form with `4`-sized axes, and keep the block's index names and tags. `reshape`
   * raises `ValueError` for a matrix without `4^nq` entries, and `qtn.Tensor` raises
   * `ValueError` when the number of index names is not the number of axes.
   */
  function BlockTensor(t: Tensor, s: Spectrum, nq: nat, reconstruct: Reconstruct): (r: Result<Tensor>)
    ensures r.Ok? <==> |reconstruct(s)| == Pow(2, 2 * nq) && |t.inds| == nq
    ensures r.Err? ==> r.error == ValueError
    ensures r.Ok? ==> r.value.shape == CutShape(nq) && r.value.inds == t.inds && r.value.tag == t.tag
    ensures r.Ok? ==> |r.value.entries| == Pow(2, 2 * nq)
    ensures r.Ok? ==> ChoiMatrix(r.value.entries, nq) == reconstruct(s)
  {
    var m := reconstruct(s);
    if |m| != Pow(2, 2 * nq) then Err(ValueError)
    else if |t.inds| != nq then Err(ValueError)
    else
      ChoiRoundTrip(m, nq);
      Ok(Tensor(CutShape(nq), TensorData(m, nq), t.inds, t.tag))
  }

  /** The second loop: `corrected_data[circuit_outcome] = ...` for each block, in block order. */
  function Rebuilt(blocks: Dict<BitString, Tensor>, spectra: seq<Spectrum>, nq: nat, reconstruct: Reconstruct)
    : (r: Result<Dict<BitString, Tensor>>)
    requires |spectra| == |blocks|
    ensures r.Ok? <==> forall i :: 0 <= i < |blocks| ==> BlockTensor(blocks[i].1, spectra[i], nq, reconstruct).Ok?
    ensures r.Err? ==> r.error == ValueError
  {
    if blocks == [] then Ok([])
    else
      var n := |blocks| - 1;
      var prev := Rebuilt(blocks[..n], spectra[..n], nq, reconstruct);
      var last := BlockTensor(blocks[n].1, spectra[n], nq, reconstruct);
      if prev.Err? then prev
      else if last.Err? then Err(last.error)
      else Ok(Store(prev.value, blocks[n].0, last.value))
  }

  /** With distinct outcomes, block `i` of the rebuilt data is the rebuilt block `i`, under the same outcome. */
  lemma {:induction false} RebuiltBlocks(blocks: Dict<BitString, Tensor>, spectra: seq<Spectrum>, nq: nat,
                                         reconstruct: Reconstruct)
    requires |spectra| == |blocks| && DistinctKeys(blocks)
    requires Rebuilt(blocks, spectra, nq, reconstruct).Ok?
    ensures var d := Rebuilt(blocks, spectra, nq, reconstruct).value;
      |d| == |blocks| &&
      forall i :: 0 <= i < |blocks| ==>
        d[i] == (blocks[i].0, BlockTensor(blocks[i].1, spectra[i], nq, reconstruct).value)
  {
    if blocks != [] {
      var n := |blocks| - 1;
      DistinctKeysInit(blocks);
      RebuiltBlocks(blocks[..n], spectra[..n], nq, reconstruct);
      var prev := Rebuilt(blocks[..n], spectra[..n], nq, reconstruct).value;
      assert Keys(prev) == Keys(blocks[..n]);
      StoreAppend(prev, blocks[n].0, BlockTensor(blocks[n].1, spectra[n], nq, reconstruct).value);
    }
  }

  /**
   * The eigenvalue rows and eigenvector matrices as the `zip` of lines 56-57 pairs them, one
   * entry per block on both sides.
   */
  function Paired(values: seq<seq<real>>, vectors: seq<seq<seq<Complex>>>): (r: seq<Spectrum>)
    requires |values| == |vectors|
    ensures |r| == |values| && forall i :: 0 <= i < |values| ==> r[i] == (values[i], vectors[i])
  {
    seq(|values|, i requires 0 <= i < |values| => (values[i], vectors[i]))
  }

  /** `zip(*spectra)`: the eigenvectors of every spectrum. */
  function Eigenvectors(spectra: seq<Spectrum>): (r: seq<seq<seq<Complex>>>)
    ensures |r| == |spectra| && forall i :: 0 <= i < |spectra| ==> r[i] == spectra[i].1
  {
    seq(|spectra|, i requires 0 <= i < |spectra| => spectra[i].1)
  }

  /**
   * `corrected_single_fragment_model`. Errors come in the source's order: `ValueError` from the
   * first loop, then from the second; a model without blocks reaches the debug `print` of a
   * variable only the second loop assigns, which raises `UnboundLocalError`.
   */
  function CorrectedModel(model: FragmentModel, eigh: Eigh, reconstruct: Reconstruct): (r: Result<FragmentModel>)
    ensures model.data == [] ==> r == Err(UnboundLocalError)
    ensures r.Err? ==> r.error == ValueError || r.error == UnboundLocalError
    ensures r.Ok? ==> r.value.fragment == model.fragment
  {
    var nq := NumQubits(model.fragment);
    var spectra :- Spectra(model.data, nq, eigh);
    var values := CorrectedEigenvalues(spectra, Pow(2, nq));
    var data :- Rebuilt(model.data, Paired(values, Eigenvectors(spectra)), nq, reconstruct);
    if model.data == [] then Err(UnboundLocalError) else Ok(FragmentModel(model.fragment, data))
  }

  /**
   * The corrected model has a block for every outcome of the model, in the same order; each
   * keeps its index names and tags, has one 4-sized axis per cut qubit, and is the tensor form of
   * the matrix rebuilt from the jointly corrected eigenvalues of that block.
   */
  lemma {:induction false} CorrectedModelBlocks(model: FragmentModel, eigh: Eigh, reconstruct: Reconstruct, i: nat)
    requires DistinctKeys(model.data) && i < |model.data|
    requires CorrectedModel(model, eigh, reconstruct).Ok?
    ensures var nq := NumQubits(model.fragment);
      var spectra := Spectra(model.data, nq, eigh).value;
      var d := CorrectedModel(model, eigh, reconstruct).value.data;
      && |d| == |model.data|
      && d[i].0 == model.data[i].0
      && d[i].1.inds == model.data[i].1.inds && d[i].1.tag == model.data[i].1.tag
      && d[i].1.shape == CutShape(nq)
      && |d[i].1.entries| == Pow(2, 2 * nq)
      && ChoiMatrix(d[i].1.entries, nq) == reconstruct((CorrectedEigenvalues(spectra, Pow(2, nq))[i], spectra[i].1))
  {
    var nq := NumQubits(model.fragment);
    var spectra := Spectra(model.data, nq, eigh).value;
    var values := CorrectedEigenvalues(spectra, Pow(2, nq));
    RebuiltBlocks(model.data, Paired(values, Eigenvectors(spectra)), nq, reconstruct);
  }

  /** Lines 41-50: fill `eigenvalues` and `eigenvectors`, one row per block. */
  method Diagonalise(blocks: Dict<BitString, Tensor>, nq: nat, eigh: Eigh)
    returns (r: Result<(seq<seq<real>>, seq<seq<seq<Complex>>>)>)
    ensures r.Ok? <==> Spectra(blocks, nq, eigh).Ok?
    ensures r.Err? ==> r.error == ValueError
    ensures r.Ok? ==> r.value.0 == Eigenvalues(Spectra(blocks, nq, eigh).value)
    ensures r.Ok? ==> r.value.1 == Eigenvectors(Spectra(blocks, nq, eigh).value)
  {
    var eigenvalues: seq<seq<real>> := [];
    var eigenvectors: seq<seq<seq<Complex>>> := [];
    for idx := 0 to |blocks|
      invariant |eigenvalues| == idx && |eigenvectors| == idx
      invariant forall i :: 0 <= i < idx ==>
        BlockSpectrum(blocks[i].1, nq, eigh) == Ok((eigenvalues[i], eigenvectors[i]))
    {
      var block := blocks[idx].1;
      if |block.entries| != Pow(2, 2 * nq) {
        assert BlockSpectrum(blocks[idx].1, nq, eigh).Err?;
        return Err(ValueError);
      }
      var s := eigh(ChoiMatrix(block.entries, nq));
      if |s.0| != Pow(2, nq) {
        assert BlockSpectrum(blocks[idx].1, nq, eigh).Err?;
        return Err(ValueError);
      }
      eigenvalues := eigenvalues + [s.0];
      eigenvectors := eigenvectors + [s.1];
    }
    r := Ok((eigenvalues, eigenvectors));
  }

  /** Lines 55-70: rebuild every block from its corrected eigenvalues into `corrected_data`. */
  method RebuildBlocks(blocks: Dict<BitString, Tensor>, values: seq<seq<real>>, vectors: seq<seq<seq<Complex>>>,
                       nq: nat, reconstruct: Reconstruct)
    returns (r: Result<Dict<BitString, Tensor>>)
    requires |values| == |blocks| && |vectors| == |blocks|
    ensures r == Rebuilt(blocks, Paired(values, vectors), nq, reconstruct)
  {
    ghost var spectra := Paired(values, vectors);
    var correctedData: Dict<BitString, Tensor> := [];
    for i := 0 to |blocks|
      invariant Rebuilt(blocks[..i], spectra[..i], nq, reconstruct) == Ok(correctedData)
    {
      var m := reconstruct((values[i], vectors[i]));
      if |m| != Pow(2, 2 * nq) || |blocks[i].1.inds| != nq {
        assert !BlockTensor(blocks[i].1, spectra[i], nq, reconstruct).Ok?;
        return Err(ValueError);
      }
      var tensor := Tensor(CutShape(nq), TensorData(m, nq), blocks[i].1.inds, blocks[i].1.tag);
      assert blocks[..i + 1][..i] == blocks[..i] && spectra[..i + 1][..i] == spectra[..i];
      correctedData := Store(correctedData, blocks[i].0, tensor);
    }
    assert blocks[..|blocks|] == blocks && spectra[..|blocks|] == spectra;
    r := Ok(correctedData);
  }

  /** Lines 30-73, with the loops of the source; proved to compute `CorrectedModel`. */
  method CorrectedSingleFragmentModel(model: FragmentModel, eigh: Eigh, reconstruct: Reconstruct)
    returns (r: Result<FragmentModel>)
    ensures r == CorrectedModel(model, eigh, reconstruct)
  {
    var nq := NumQubits(model.fragment);
    var w := Pow(2, nq);
    var blocks := model.Blocks();
    assert blocks == model.data;
    var diagonalised := Diagonalise(blocks, nq, eigh);
    if diagonalised.Err? {
      return Err(ValueError);
    }
    var (eigenvalues, eigenvectors) := diagonalised.value;
    ghost var spectra := Spectra(model.data, nq, eigh).value;
    ConcatUniformLength(eigenvalues, w);
    var flat := CorrectProbabilityDistribution(Concat(eigenvalues));
    var rows := Rows(flat, w, |blocks|);
    assert rows == CorrectedEigenvalues(spectra, w) by {
      assert eigenvalues == Eigenvalues(spectra);
    }
    var correctedData := RebuildBlocks(blocks, rows, eigenvectors, nq, reconstruct);
    CorrectedModelSteps(model, eigh, reconstruct);
    if correctedData.Err? {
      return Err(ValueError);
    }
    if |blocks| == 0 {
      return Err(UnboundLocalError);
    }
    r := Ok(FragmentModel(model.fragment, correctedData.value));
  }

  /** `CorrectedModel` once the first loop has succeeded. */
  lemma {:induction false} CorrectedModelSteps(model: FragmentModel, eigh: Eigh, reconstruct: Reconstruct)
    requires Spectra(model.data, NumQubits(model.fragment), eigh).Ok?
    ensures var nq := NumQubits(model.fragment);
      var spectra := Spectra(model.data, nq, eigh).value;
      var d := Rebuilt(model.data, Paired(CorrectedEigenvalues(spectra, Pow(2, nq)), Eigenvectors(spectra)), nq, reconstruct);
      CorrectedModel(model, eigh, reconstruct) ==
        if d.Err? then Err(d.error)
        else if model.data == [] then Err(UnboundLocalError)
        else Ok(FragmentModel(model.fragment, d.value))
  {
  }

  /** `corrected_fragment_models`: every model corrected, under its own key. */
  function CorrectedFragmentModels(models: Dict<FragmentKey, FragmentModel>, eigh: Eigh, reconstruct: Reconstruct)
    : (r: Result<Dict<FragmentKey, FragmentModel>>)
    ensures r.Ok? <==> forall i :: 0 <= i < |models| ==> CorrectedModel(models[i].1, eigh, reconstruct).Ok?
    ensures r.Ok? ==> |r.value| == |models| && forall i :: 0 <= i < |models| ==>
      r.value[i].0 == models[i].0 && r.value[i].1.fragment == models[i].1.fragment &&
      CorrectedModel(models[i].1, eigh, reconstruct) == Ok(r.value[i].1)
  {
    MapResults(models, (key, model) => CorrectedModel(model, eigh, reconstruct))
  }
}
