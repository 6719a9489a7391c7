/** The tomography conditions and the interrogated operators, one per condition. */
module TransformFunctions {
  import opened Common
  import opened Products
  import opened PrepFunctions

  /** `(prep_states, meas_bases, meas_outcome)` at a fragment's quantum inputs and outputs. */
  type Condition = (seq<string>, seq<string>, BitString)

  /** Prep tuple outermost, then measurement bases, then outcome bits, each in product order. */
  function Conditions(states: seq<string>, k: nat, m: nat): seq<Condition>
  {
    Triples(Product(Repeat(states, k)), Product(Repeat(PauliOps, m)), BitStrings(m))
  }

  /** `condition_iterator`; an unknown prep basis is a `ValueError`. */
  function ConditionIterator(k: nat, m: nat, basis: string): (r: Result<seq<Condition>>)
    ensures r.Ok? <==> basis == "Pauli" || basis == "SIC"
    ensures r.Err? ==> r.error == ValueError
    ensures r.Ok? ==> r.value == Conditions(GetPrepStates(basis).value, k, m)
  {
    var states :- GetPrepStates(basis);
    Ok(Conditions(states, k, m))
  }

  lemma {:induction false} ProductRepeatLength<T>(xs: seq<T>, n: nat)
    ensures |Product(Repeat(xs, n))| == Pow(|xs|, n)
  {
    ProductLength(Repeat(xs, n));
    RepeatChoices(xs, n);
  }

  lemma {:induction false} ProductRepeatShape<T>(xs: seq<T>, n: nat)
    ensures forall e :: e in Product(Repeat(xs, n)) <==> |e| == n && forall k :: 0 <= k < n ==> e[k] in xs
  {
    forall e
      ensures e in Product(Repeat(xs, n)) <==> |e| == n && forall k :: 0 <= k < n ==> e[k] in xs
    {
      if e in Product(Repeat(xs, n)) {
        ProductMember(Repeat(xs, n), e);
      }
      if |e| == n && forall k :: 0 <= k < n ==> e[k] in xs {
        ProductComplete(Repeat(xs, n), e);
      }
    }
  }

  /** The enumeration holds |states|^k * 3^m * 2^m conditions. */
  lemma {:induction false} ConditionsCount(states: seq<string>, k: nat, m: nat)
    ensures |Conditions(states, k, m)| == Pow(|states|, k) * (Pow(3, m) * Pow(2, m))
  {
    ProductRepeatLength(states, k);
    ProductRepeatLength(PauliOps, m);
    BitStringsLength(m);
    TriplesLength(Product(Repeat(states, k)), Product(Repeat(PauliOps, m)), BitStrings(m));
  }

  /**
   * The condition at position `(i * 3^m + j) * 2^m + l` is the `i`-th prep tuple with the `j`-th
   * basis tuple and the `l`-th outcome: prep outermost, outcome innermost.
   */
  lemma {:induction false} ConditionsAt(states: seq<string>, k: nat, m: nat, i: nat, j: nat, l: nat)
    requires i < Pow(|states|, k) && j < Pow(3, m) && l < Pow(2, m)
    ensures var preps := Product(Repeat(states, k));
      var bases := Product(Repeat(PauliOps, m));
      var bits := BitStrings(m);
      && i < |preps| && j < |bases| && l < |bits|
      && (i * Pow(3, m) + j) * Pow(2, m) + l < |Conditions(states, k, m)|
      && Conditions(states, k, m)[(i * Pow(3, m) + j) * Pow(2, m) + l] == (preps[i], bases[j], bits[l])
  {
    ProductRepeatLength(states, k);
    ProductRepeatLength(PauliOps, m);
    BitStringsLength(m);
    TriplesAt(Product(Repeat(states, k)), Product(Repeat(PauliOps, m)), BitStrings(m), i, j, l);
  }

  /**
   * Every condition pairs a length-`k` tuple of prep labels with a length-`m` tuple of Pauli bases
   * and an `m`-bit outcome, and every such triple occurs.
   */
  lemma {:induction false} ConditionsMember(states: seq<string>, k: nat, m: nat, c: Condition)
    ensures c in Conditions(states, k, m) <==>
      && |c.0| == k && (forall t :: 0 <= t < k ==> c.0[t] in states)
      && |c.1| == m && (forall t :: 0 <= t < m ==> c.1[t] in PauliOps)
      && |c.2| == m
  {
    TriplesMember(Product(Repeat(states, k)), Product(Repeat(PauliOps, m)), BitStrings(m), c);
    ProductRepeatShape(states, k);
    ProductRepeatShape(PauliOps, m);
    BitStringsSpec(m);
  }

  // ---------------------------------------------------------------------------------------------
  // Kronecker products of flattened operators.

  /** `np.kron` on 1-D arrays: entry `i * |w| + j` is `u[i] * w[j]`. */
  function Kron(u: seq<Scalar>, w: seq<Scalar>): seq<Scalar>
  {
    Concat(KronBlocks(u, w))
  }

  function KronBlocks(u: seq<Scalar>, w: seq<Scalar>): (r: seq<seq<Scalar>>)
    ensures |r| == |u| && forall i :: 0 <= i < |u| ==> |r[i]| == |w|
  {
    seq(|u|, i requires 0 <= i < |u| => seq(|w|, j requires 0 <= j < |w| => Mul(u[i], w[j])))
  }

  lemma {:induction false} KronLength(u: seq<Scalar>, w: seq<Scalar>)
    ensures |Kron(u, w)| == |u| * |w|
  {
    ConcatUniformLength(KronBlocks(u, w), |w|);
  }

  /** Entry `i * |w| + j` of `np.kron(u, w)` is `u[i] * w[j]`. */
  lemma {:induction false} KronAt(u: seq<Scalar>, w: seq<Scalar>, i: nat, j: nat)
    requires i < |u| && j < |w|
    ensures i * |w| + j < |Kron(u, w)| && Kron(u, w)[i * |w| + j] == Mul(u[i], w[j])
  {
    ConcatUniformAt(KronBlocks(u, w), |w|, i, j);
  }

  /** `functools.reduce(np.kron, vecs, np.array([1]))`. */
  function KronAll(vecs: seq<seq<Scalar>>): seq<Scalar>
  {
    if vecs == [] then [Scalar([])] else Kron(KronAll(vecs[..|vecs| - 1]), vecs[|vecs| - 1])
  }

  /** Kronecker products multiply lengths: `n` four-entry operators give `4^n` entries. */
  lemma {:induction false} KronAllLength(vecs: seq<seq<Scalar>>)
    requires forall i :: 0 <= i < |vecs| ==> |vecs[i]| == 4
    ensures |KronAll(vecs)| == Pow(4, |vecs|)
  {
    if vecs != [] {
      KronAllLength(vecs[..|vecs| - 1]);
      KronLength(KronAll(vecs[..|vecs| - 1]), vecs[|vecs| - 1]);
    }
  }

  /** `[prep_state_to_proj(s) for s in labels]`; the first unknown label is a `ValueError`. */
  function Projectors(labels: seq<string>): (r: Result<seq<seq<Scalar>>>)
    ensures r.Ok? <==> forall i :: 0 <= i < |labels| ==> StateOf(labels[i]).Ok?
    ensures r.Err? ==> r.error == ValueError
    ensures r.Ok? ==> (|r.value| == |labels| && forall i :: 0 <= i < |labels| ==> |r.value[i]| == 4)
  {
    if labels == [] then Ok([])
    else
      var first :- PrepStateToProj(labels[0]);
      var rest :- Projectors(labels[1..]);
      assert forall i :: 1 <= i < |labels| ==> labels[1..][i - 1] == labels[i];
      Ok([first] + rest)
  }

  /** Entry `i` of the projectors is the projector of label `i`'s state. */
  lemma {:induction false} ProjectorsAt(labels: seq<string>, i: nat)
    requires Projectors(labels).Ok? && i < |labels|
    ensures StateOf(labels[i]).Ok? && Projectors(labels).value[i] == Projector(StateOf(labels[i]).value)
    decreases i
  {
    if i > 0 {
      assert labels[1..][i - 1] == labels[i];
      ProjectorsAt(labels[1..], i - 1);
    }
  }

  /** The outcome labels of `conditions_to_vec`: bases and bits paired positionally. */
  function OutcomeLabels(bases: seq<string>, outcome: BitString): (r: seq<string>)
    ensures |r| == if |bases| < |outcome| then |bases| else |outcome|
    ensures forall i :: 0 <= i < |r| ==> r[i] == OutcomeLabel(bases[i], outcome[i])
  {
    var n := if |bases| < |outcome| then |bases| else |outcome|;
    seq(n, i requires 0 <= i < n => OutcomeLabel(bases[i], outcome[i]))
  }

  /**
   * `conditions_to_vec`: the Kronecker product of the conjugated input projectors with the output
   * projectors; a label that is not a state is a `ValueError`.
   */
  function ConditionsToVec(prepStates: seq<string>, measBases: seq<string>, outcome: BitString): (r: Result<seq<Scalar>>)
    ensures r.Ok? <==> Projectors(OutcomeLabels(measBases, outcome)).Ok? && Projectors(prepStates).Ok?
    ensures r.Err? ==> r.error == ValueError
    ensures r.Ok? ==> |r.value| == Pow(4, |prepStates| + |OutcomeLabels(measBases, outcome)|)
  {
    var outVecs :- Projectors(OutcomeLabels(measBases, outcome));
    var inpVecs :- Projectors(prepStates);
    Ok(Row(inpVecs, outVecs))
  }

  /** The Kronecker product of the conjugated input with the output projectors: `4^(k + m)` entries. */
  function Row(inpVecs: seq<seq<Scalar>>, outVecs: seq<seq<Scalar>>): (r: seq<Scalar>)
    requires forall i :: 0 <= i < |inpVecs| ==> |inpVecs[i]| == 4
    requires forall i :: 0 <= i < |outVecs| ==> |outVecs[i]| == 4
    ensures |r| == Pow(4, |inpVecs| + |outVecs|)
  {
    KronAllLength(inpVecs);
    KronAllLength(outVecs);
    KronPowLength(Conj(KronAll(inpVecs)), KronAll(outVecs), |inpVecs|, |outVecs|);
    Kron(Conj(KronAll(inpVecs)), KronAll(outVecs))
  }

  /**
   * Entry by entry, a row is a product of one entry per projector: for entry indices `a` of the
   * input projectors and `b` of the output projectors, the entry at `a` and `b` read as base-4
   * numerals (first projector most significant, inputs before outputs) is the conjugate of the
   * product of the chosen input entries times the product of the chosen output entries.
   */
  lemma {:induction false} ConditionsToVecAt(prepStates: seq<string>, measBases: seq<string>, outcome: BitString,
                                             a: seq<nat>, b: seq<nat>)
    requires ConditionsToVec(prepStates, measBases, outcome).Ok?
    requires |a| == |prepStates| && forall i :: 0 <= i < |a| ==> a[i] < 4
    requires |b| == |OutcomeLabels(measBases, outcome)| && forall j :: 0 <= j < |b| ==> b[j] < 4
    ensures Projectors(prepStates).Ok? && Projectors(OutcomeLabels(measBases, outcome)).Ok?
    ensures RowIndex(a, b) < |ConditionsToVec(prepStates, measBases, outcome).value|
    ensures ConditionsToVec(prepStates, measBases, outcome).value[RowIndex(a, b)] ==
      Mul(ConjScalar(Picked(Projectors(prepStates).value, a)), Picked(Projectors(OutcomeLabels(measBases, outcome)).value, b))
  {
    var inp := Projectors(prepStates).value;
    var out := Projectors(OutcomeLabels(measBases, outcome)).value;
    var row := ConditionsToVec(prepStates, measBases, outcome).value;
    assert row == Kron(Conj(KronAll(inp)), KronAll(out));
    KronAllAt(inp, a);
    KronAllAt(out, b);
    KronAllLength(out);
    KronAt(Conj(KronAll(inp)), KronAll(out), Numeral(a), Numeral(b));
  }

  /** The position of entry `a` of the inputs and `b` of the outputs: `a` then `b` as one base-4 numeral. */
  function RowIndex(a: seq<nat>, b: seq<nat>): nat
  {
    Numeral(a) * Pow(4, |b|) + Numeral(b)
  }

  /** The indices `d`, each below 4, read as a base-4 numeral with `d[0]` most significant. */
  function Numeral(d: seq<nat>): nat
  {
    if d == [] then 0 else Numeral(d[..|d| - 1]) * 4 + d[|d| - 1]
  }

  /** The product of entry `d[i]` of each vector `vecs[i]`, in order. */
  function Picked(vecs: seq<seq<Scalar>>, d: seq<nat>): Scalar
    requires |d| == |vecs| && forall i :: 0 <= i < |d| ==> d[i] < |vecs[i]|
  {
    if d == [] then Scalar([])
    else
      var n := |d| - 1;
      Mul(Picked(vecs[..n], d[..n]), vecs[n][d[n]])
  }

  /** The entry of a Kronecker product of four-entry vectors at a base-4 numeral is the product of the chosen entries. */
  lemma {:induction false} KronAllAt(vecs: seq<seq<Scalar>>, d: seq<nat>)
    requires forall i :: 0 <= i < |vecs| ==> |vecs[i]| == 4
    requires |d| == |vecs| && forall i :: 0 <= i < |d| ==> d[i] < 4
    ensures Numeral(d) < |KronAll(vecs)| && KronAll(vecs)[Numeral(d)] == Picked(vecs, d)
  {
    KronAllLength(vecs);
    if d != [] {
      var n := |d| - 1;
      var init := vecs[..n];
      var ds := d[..n];
      assert forall i :: 0 <= i < n ==> init[i] == vecs[i] && ds[i] == d[i];
      KronAllAt(init, ds);
      KronAllLength(init);
      KronAt(KronAll(init), vecs[n], Numeral(ds), d[n]);
    }
  }

  /** The Kronecker product of a `4^x`-vector and a `4^y`-vector has `4^(x + y)` entries. */
  lemma {:induction false} KronPowLength(a: seq<Scalar>, b: seq<Scalar>, x: nat, y: nat)
    requires |a| == Pow(4, x) && |b| == Pow(4, y)
    ensures |Kron(a, b)| == Pow(4, x + y)
  {
    KronLength(a, b);
    PowAdd(4, x, y);
  }

  /**
   * `interrogation_matrix`: one row per condition, in `condition_iterator` order, each of length
   * 4^(k + m).
   */
  function InterrogationMatrix(k: nat, m: nat, basis: string): (r: Result<seq<seq<Scalar>>>)
    ensures r.Ok? <==> basis == "Pauli" || basis == "SIC"
    ensures r.Err? ==> r.error == ValueError
    ensures r.Ok? ==> var conds := ConditionIterator(k, m, basis).value;
      && |r.value| == |conds|
      && forall i :: 0 <= i < |conds| ==>
           && ConditionsToVec(conds[i].0, conds[i].1, conds[i].2) == Ok(r.value[i])
           && |r.value[i]| == Pow(4, k + m)
  {
    var conds :- ConditionIterator(k, m, basis);
    var states := GetPrepStates(basis).value;
    forall i | 0 <= i < |conds|
      ensures ConditionsToVec(conds[i].0, conds[i].1, conds[i].2).Ok?
      ensures |ConditionsToVec(conds[i].0, conds[i].1, conds[i].2).value| == Pow(4, k + m)
    {
      ConditionWellFormed(states, k, m, conds[i], basis);
    }
    Ok(seq(|conds|, i requires 0 <= i < |conds| => ConditionsToVec(conds[i].0, conds[i].1, conds[i].2).value))
  }

  /** Every enumerated condition names valid prep and outcome labels. */
  lemma {:induction false} ConditionWellFormed(states: seq<string>, k: nat, m: nat, c: Condition, basis: string)
    requires GetPrepStates(basis) == Ok(states) && c in Conditions(states, k, m)
    ensures ConditionsToVec(c.0, c.1, c.2).Ok?
    ensures |ConditionsToVec(c.0, c.1, c.2).value| == Pow(4, k + m)
  {
    ConditionsMember(states, k, m, c);
    assert |c.0| == k && forall t :: 0 <= t < |c.0| ==> c.0[t] in states;
    assert |c.1| == m && |c.2| == m && forall t :: 0 <= t < |c.1| ==> c.1[t] in PauliOps;
    PrepLabelsValid(states, basis, c.0);
    OutcomeLabelsValid(c.1, c.2);
    ShapedLength(c.0, c.1, c.2, k, m);
  }

  lemma {:induction false} ShapedLength(prepStates: seq<string>, measBases: seq<string>, outcome: BitString, k: nat, m: nat)
    requires ConditionsToVec(prepStates, measBases, outcome).Ok?
    requires |prepStates| == k && |measBases| == m && |outcome| == m
    ensures |ConditionsToVec(prepStates, measBases, outcome).value| == Pow(4, k + m)
  {
    PowEqual(4, |prepStates| + |OutcomeLabels(measBases, outcome)|, k + m);
  }

  lemma {:induction false} PrepLabelsValid(states: seq<string>, basis: string, labels: seq<string>)
    requires GetPrepStates(basis) == Ok(states)
    requires forall t :: 0 <= t < |labels| ==> labels[t] in states
    ensures Projectors(labels).Ok?
  {
    PrepStatesValid(basis);
  }

  lemma {:induction false} OutcomeLabelsValid(bases: seq<string>, outcome: BitString)
    requires forall t :: 0 <= t < |bases| ==> bases[t] in PauliOps
    ensures Projectors(OutcomeLabels(bases, outcome)).Ok?
  {
    var outs := OutcomeLabels(bases, outcome);
    forall t | 0 <= t < |outs|
      ensures StateOf(outs[t]).Ok?
    {
      MeasGatesRotate(bases[t], outcome[t]);
    }
  }
}
