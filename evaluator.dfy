/**
 * CutQC's evaluation helpers: instrumenting a subcircuit for an initialisation and a measurement
 * basis, and mapping a measured distribution onto the effective outcomes of that basis.
 */
module Evaluator {
  import opened Common
  import opened Products

  // ---------------------------------------------------------------------------------------------
  // `modify_subcircuit_instance`.

  /**
   * An operation on one wire of the subcircuit's DAG: a gate the instrumentation adds, or one of
   * the subcircuit's own operations (identified by its position).
   */
  datatype WireOp = X | H | S | Sdg | Original(id: nat)

  /** The DAG as its wires: the operations on each qubit, first to last. */
  type Wires = seq<seq<WireOp>>

  /** Lines 119-154: the gates an initialisation label puts before the first operation of its qubit. */
  function InitGates(x: string): (r: Result<seq<WireOp>>)
    ensures r.Err? ==> r.error == RaisedException
    ensures r.Ok? <==> x in {"zero", "one", "plus", "minus", "plusI", "minusI"}
  {
    if x == "zero" then Ok([])
    else if x == "one" then Ok([X])
    else if x == "plus" then Ok([H])
    else if x == "minus" then Ok([X, H])
    else if x == "plusI" then Ok([H, S])
    else if x == "minusI" then Ok([X, H, S])
    else Err(RaisedException)
  }

  /** Lines 155-171: the gates a measurement label puts after the last operation of its qubit. */
  function MeasGates(x: string): (r: Result<seq<WireOp>>)
    ensures r.Err? ==> r.error == RaisedException
    ensures r.Ok? <==> x in {"I", "comp", "X", "Y"}
  {
    if x == "I" || x == "comp" then Ok([])
    else if x == "X" then Ok([H])
    else if x == "Y" then Ok([Sdg, H])
    else Err(RaisedException)
  }

  /**
   * One of the two loops: label `i` instruments qubit `i` (`subcircuit.qubits[i]`, an
   * `IndexError` past the last qubit), at the front or at the back of its wire.
   */
  function Instrument(wires: Wires, labels: seq<string>, gates: string -> Result<seq<WireOp>>, atFront: bool)
    : (r: Result<Wires>)
    ensures r.Ok? ==> |r.value| == |wires|
  {
    if labels == [] then Ok(wires)
    else
      var n := |labels| - 1;
      var prev :- Instrument(wires, labels[..n], gates, atFront);
      if n >= |prev| then Err(IndexError)
      else
        var added :- gates(labels[n]);
        Ok(prev[n := if atFront then added + prev[n] else prev[n] + added])
  }

  /**
   * The loop succeeds exactly when there is a qubit for every label and every label is known;
   * then every labelled wire has its label's gates in front of (or behind) its own operations and
   * every other wire is unchanged. Otherwise the error is an `IndexError` or a label's error.
   */
  lemma {:induction false} InstrumentWires(wires: Wires, labels: seq<string>, gates: string -> Result<seq<WireOp>>, atFront: bool)
    ensures var r := Instrument(wires, labels, gates, atFront);
      r.Ok? <==> |labels| <= |wires| && forall i :: 0 <= i < |labels| ==> gates(labels[i]).Ok?
    ensures var r := Instrument(wires, labels, gates, atFront);
      r.Ok? ==> forall i :: 0 <= i < |wires| ==>
        r.value[i] == if i >= |labels| then wires[i]
                      else if atFront then gates(labels[i]).value + wires[i]
                      else wires[i] + gates(labels[i]).value
    ensures var r := Instrument(wires, labels, gates, atFront);
      r.Err? ==> r.error == IndexError || exists i :: 0 <= i < |labels| && gates(labels[i]) == Err(r.error)
  {
    if labels != [] {
      var n := |labels| - 1;
      var init := labels[..n];
      assert forall i :: 0 <= i < n ==> init[i] == labels[i];
      InstrumentWires(wires, init, gates, atFront);
    }
  }

  /** One more label: past the last qubit an `IndexError`, an unknown label its error, otherwise its gates added. */
  lemma {:induction false} InstrumentNext(wires: Wires, labels: seq<string>, gates: string -> Result<seq<WireOp>>,
                                          atFront: bool, i: nat, prev: Wires)
    requires i < |labels| && Instrument(wires, labels[..i], gates, atFront) == Ok(prev)
    ensures i >= |prev| ==> Instrument(wires, labels[..i + 1], gates, atFront) == Err(IndexError)
    ensures i < |prev| && gates(labels[i]).Err? ==>
      Instrument(wires, labels[..i + 1], gates, atFront) == Err(gates(labels[i]).error)
    ensures i < |prev| && gates(labels[i]).Ok? ==>
      Instrument(wires, labels[..i + 1], gates, atFront) ==
        Ok(prev[i := if atFront then gates(labels[i]).value + prev[i] else prev[i] + gates(labels[i]).value])
  {
    var s := labels[..i + 1];
    assert s[..|s| - 1] == labels[..i];
    assert s[|s| - 1] == labels[i];
  }

  /** Once a prefix of the loop fails, the whole loop fails the same way. */
  lemma {:induction false} InstrumentPrefix(wires: Wires, labels: seq<string>, gates: string -> Result<seq<WireOp>>,
                                            atFront: bool, i: nat)
    requires i <= |labels| && Instrument(wires, labels[..i], gates, atFront).Err?
    ensures Instrument(wires, labels, gates, atFront) == Instrument(wires, labels[..i], gates, atFront)
    decreases |labels| - i
  {
    if i == |labels| {
      assert labels[..i] == labels;
    } else {
      var n := |labels| - 1;
      assert labels[..n][..i] == labels[..i];
      InstrumentPrefix(wires, labels[..n], gates, atFront, i);
    }
  }

  /** `modify_subcircuit_instance`: the initialisation loop, then the measurement loop. */
  function ModifiedInstance(subcircuit: Wires, init: seq<string>, meas: seq<string>): Result<Wires>
  {
    var initialised :- Instrument(subcircuit, init, InitGates, true);
    Instrument(initialised, meas, MeasGates, false)
  }

  /**
   * What an instance looks like: qubit `i` runs the gates of `init[i]`, then its own operations,
   * then the gates of `meas[i]`, and it exists exactly when both label lists fit the qubits and
   * use known labels.
   */
  lemma {:induction false} ModifiedInstanceWires(subcircuit: Wires, init: seq<string>, meas: seq<string>)
    ensures var r := ModifiedInstance(subcircuit, init, meas);
      r.Ok? <==> (
        && |init| <= |subcircuit| && |meas| <= |subcircuit|
        && (forall i :: 0 <= i < |init| ==> InitGates(init[i]).Ok?)
        && (forall i :: 0 <= i < |meas| ==> MeasGates(meas[i]).Ok?))
    ensures var r := ModifiedInstance(subcircuit, init, meas);
      r.Ok? ==> |r.value| == |subcircuit| && forall i :: 0 <= i < |subcircuit| ==>
        r.value[i] == (if i < |init| then InitGates(init[i]).value else [])
                      + subcircuit[i]
                      + (if i < |meas| then MeasGates(meas[i]).value else [])
  {
    InstrumentWires(subcircuit, init, InitGates, true);
    var initialised := Instrument(subcircuit, init, InitGates, true);
    if initialised.Ok? {
      var w := initialised.value;
      InstrumentWires(w, meas, MeasGates, false);
      var r := Instrument(w, meas, MeasGates, false);
      assert ModifiedInstance(subcircuit, init, meas) == r;
      if r.Ok? {
        forall i | 0 <= i < |subcircuit|
          ensures r.value[i] == (if i < |init| then InitGates(init[i]).value else [])
                                + subcircuit[i]
                                + (if i < |meas| then MeasGates(meas[i]).value else [])
        {
          assert w[i] == (if i < |init| then InitGates(init[i]).value else []) + subcircuit[i];
        }
      }
    }
  }

  /** `apply_operation_front` of a one-qubit gate. */
  function Front(dag: Wires, q: nat, g: WireOp): (r: Wires)
    requires q < |dag|
    ensures |r| == |dag| && r[q] == [g] + dag[q] && forall p :: 0 <= p < |dag| && p != q ==> r[p] == dag[p]
  {
    dag[q := [g] + dag[q]]
  }

  /** `apply_operation_back` of a one-qubit gate. */
  function Back(dag: Wires, q: nat, g: WireOp): (r: Wires)
    requires q < |dag|
    ensures |r| == |dag| && r[q] == dag[q] + [g] && forall p :: 0 <= p < |dag| && p != q ==> r[p] == dag[p]
  {
    dag[q := dag[q] + [g]]
  }

  /** Lines 117-154: the loop over the initialisation labels, one qubit per label. */
  method Initialise(subcircuit: Wires, init: seq<string>) returns (r: Result<Wires>)
    ensures r == Instrument(subcircuit, init, InitGates, true)
  {
    var dag := subcircuit;
    for i := 0 to |init|
      invariant Instrument(subcircuit, init[..i], InitGates, true) == Ok(dag)
    {
      InstrumentNext(subcircuit, init, InitGates, true, i, dag);
      if i >= |dag| {
        InstrumentPrefix(subcircuit, init, InitGates, true, i + 1);
        return Err(IndexError);
      }
      var next := InitialiseQubit(dag, i, init[i]);
      if next.Err? {
        InstrumentPrefix(subcircuit, init, InitGates, true, i + 1);
        return Err(next.error);
      }
      dag := next.value;
    }
    assert init[..|init|] == init;
    return Ok(dag);
  }

  /** One label of lines 119-154, with the source's front insertions one gate at a time (the last inserted runs first). */
  method InitialiseQubit(dag: Wires, i: nat, x: string) returns (r: Result<Wires>)
    requires i < |dag|
    ensures InitGates(x).Err? ==> r == Err(InitGates(x).error)
    ensures InitGates(x).Ok? ==> r == Ok(dag[i := InitGates(x).value + dag[i]])
  {
    var d := dag;
    if x == "zero" {
    } else if x == "one" {
      d := Front(d, i, X);
    } else if x == "plus" {
      d := Front(d, i, H);
    } else if x == "minus" {
      d := Front(d, i, H);
      d := Front(d, i, X);
      assert d[i] == [X, H] + dag[i];
    } else if x == "plusI" {
      d := Front(d, i, S);
      d := Front(d, i, H);
      assert d[i] == [H, S] + dag[i];
    } else if x == "minusI" {
      d := Front(d, i, S);
      d := Front(d, i, H);
      d := Front(d, i, X);
      assert d[i] == [X, H, S] + dag[i];
    } else {
      return Err(RaisedException);
    }
    assert |d| == |dag| && d[i] == InitGates(x).value + dag[i];
    assert forall p :: 0 <= p < |d| && p != i ==> d[p] == dag[p];
    assert d == dag[i := InitGates(x).value + dag[i]];
    return Ok(d);
  }

  /** Lines 155-171: the loop over the measurement labels, one qubit per label. */
  method Measure(dag0: Wires, meas: seq<string>) returns (r: Result<Wires>)
    ensures r == Instrument(dag0, meas, MeasGates, false)
  {
    var dag := dag0;
    for i := 0 to |meas|
      invariant Instrument(dag0, meas[..i], MeasGates, false) == Ok(dag)
    {
      InstrumentNext(dag0, meas, MeasGates, false, i, dag);
      if i >= |dag| {
        InstrumentPrefix(dag0, meas, MeasGates, false, i + 1);
        return Err(IndexError);
      }
      var next := MeasureQubit(dag, i, meas[i]);
      if next.Err? {
        InstrumentPrefix(dag0, meas, MeasGates, false, i + 1);
        return Err(next.error);
      }
      dag := next.value;
    }
    assert meas[..|meas|] == meas;
    return Ok(dag);
  }

  /** One label of lines 155-171, with the source's back insertions one gate at a time. */
  method MeasureQubit(dag: Wires, i: nat, x: string) returns (r: Result<Wires>)
    requires i < |dag|
    ensures MeasGates(x).Err? ==> r == Err(MeasGates(x).error)
    ensures MeasGates(x).Ok? ==> r == Ok(dag[i := dag[i] + MeasGates(x).value])
  {
    var d := dag;
    if x == "I" || x == "comp" {
    } else if x == "X" {
      d := Back(d, i, H);
    } else if x == "Y" {
      d := Back(d, i, Sdg);
      d := Back(d, i, H);
      assert d[i] == dag[i] + [Sdg, H];
    } else {
      return Err(RaisedException);
    }
    assert |d| == |dag| && d[i] == dag[i] + MeasGates(x).value;
    assert forall p :: 0 <= p < |d| && p != i ==> d[p] == dag[p];
    assert d == dag[i := dag[i] + MeasGates(x).value];
    return Ok(d);
  }

  /** `modify_subcircuit_instance`, proved to compute `ModifiedInstance`. */
  method ModifySubcircuitInstance(subcircuit: Wires, init: seq<string>, meas: seq<string>) returns (r: Result<Wires>)
    ensures r == ModifiedInstance(subcircuit, init, meas)
  {
    var initialised := Initialise(subcircuit, init);
    if initialised.Err? {
      return initialised;
    }
    r := Measure(initialised.value, meas);
  }

  // ---------------------------------------------------------------------------------------------
  // `mutate_measurement_basis`.

  /** The options per position: `I` may also be measured as `Z`; every other basis is kept. */
  function BasisOptions(meas: seq<string>): (r: seq<seq<string>>)
    ensures |r| == |meas| && forall i :: 0 <= i < |meas| ==> r[i] == if meas[i] == "I" then ["I", "Z"] else [meas[i]]
  {
    seq(|meas|, i requires 0 <= i < |meas| => if meas[i] == "I" then ["I", "Z"] else [meas[i]])
  }

  /** Lines 175-189: `[meas]` when there is no `I`, else the product of the options. */
  function MutateMeasurementBasis(meas: seq<string>): seq<seq<string>>
  {
    if forall i :: 0 <= i < |meas| ==> meas[i] != "I" then [meas]
    else Product(BasisOptions(meas))
  }

  /** The number of `I` positions. */
  function CountI(meas: seq<string>): nat
  {
    if meas == [] then 0 else (if meas[0] == "I" then 1 else 0) + CountI(meas[1..])
  }

  /** The product of one option per position is the basis itself. */
  lemma {:induction false} SingletonProduct<T>(xs: seq<T>)
    ensures Product(seq(|xs|, i requires 0 <= i < |xs| => [xs[i]])) == [xs]
  {
    var options := seq(|xs|, i requires 0 <= i < |xs| => [xs[i]]);
    if xs != [] {
      SingletonProduct(xs[1..]);
      assert options[1..] == seq(|xs[1..]|, i requires 0 <= i < |xs[1..]| => [xs[1..][i]]);
      ProductAt(options, 0, 0);
      ProductLength(options);
      ProductLength(options[1..]);
      assert [xs[0]] + xs[1..] == xs;
    }
  }

  /** The shortcut for no `I` agrees with the product: the mutation is always the product of the options. */
  lemma {:induction false} MutateIsProduct(meas: seq<string>)
    ensures MutateMeasurementBasis(meas) == Product(BasisOptions(meas))
  {
    if forall i :: 0 <= i < |meas| ==> meas[i] != "I" {
      assert BasisOptions(meas) == seq(|meas|, i requires 0 <= i < |meas| => [meas[i]]);
      SingletonProduct(meas);
    }
  }

  lemma {:induction false} OptionsChoices(meas: seq<string>)
    ensures NumChoices(BasisOptions(meas)) == Pow(2, CountI(meas))
  {
    if meas != [] {
      assert BasisOptions(meas)[1..] == BasisOptions(meas[1..]);
      OptionsChoices(meas[1..]);
    }
  }

  /**
   * `mutate_measurement_basis` gives 2^(number of `I`) bases; each keeps every basis that is not
   * `I` and measures every `I` as `I` or `Z`, and every such basis is among them.
   */
  lemma {:induction false} MutationsSpec(meas: seq<string>, m: seq<string>)
    ensures |MutateMeasurementBasis(meas)| == Pow(2, CountI(meas))
    ensures m in MutateMeasurementBasis(meas) <==>
      |m| == |meas| && forall i :: 0 <= i < |meas| ==>
        if meas[i] == "I" then m[i] == "I" || m[i] == "Z" else m[i] == meas[i]
  {
    MutateIsProduct(meas);
    ProductLength(BasisOptions(meas));
    OptionsChoices(meas);
    if m in MutateMeasurementBasis(meas) {
      ProductMember(BasisOptions(meas), m);
    }
    if |m| == |meas| && forall i :: 0 <= i < |meas| ==>
        if meas[i] == "I" then m[i] == "I" || m[i] == "Z" else m[i] == meas[i] {
      ProductComplete(BasisOptions(meas), m);
    }
  }

  // ---------------------------------------------------------------------------------------------
  // `measure_state`.

  /** `bin(n)[2:]`: the binary digits of `n`, most significant first, with no leading zero (`0` is `[0]`). */
  function Binary(n: nat): (r: seq<Bit>)
    ensures |r| >= 1
    decreases n
  {
    if n < 2 then [n] else Binary(n / 2) + [n % 2]
  }

  /** `s.zfill(w)`: zeros prepended up to length `w`; a longer string is kept whole. */
  function Zfill(s: seq<Bit>, w: nat): (r: seq<Bit>)
    ensures |r| == if |s| >= w then |s| else w
  {
    if |s| >= w then s else seq(w - |s|, _ => 0) + s
  }

  lemma {:induction false} BitsOfZero(d: nat)
    ensures Bits(0, d) == seq(d, _ => 0)
  {
    if d > 0 {
      BitsOfZero(d - 1);
    }
  }

  /** For a state that fits in `w` bits the padded digits are exactly the `w` bits of the state. */
  lemma {:induction false} ZfillBinary(n: nat, w: nat)
    requires w >= 1 && n < Pow(2, w)
    ensures Zfill(Binary(n), w) == Bits(n, w)
  {
    if n < 2 {
      BitsOfZero(w - 1);
      assert Bits(n, w) == Bits(0, w - 1) + [n];
    } else {
      assert Pow(2, 1) == 2;
      ZfillBinary(n / 2, w - 1);
      var s := Binary(n / 2);
      if |s| < w - 1 {
        assert seq(w - |s| - 1, _ => 0) + (s + [n % 2]) == (seq(w - 1 - |s|, _ => 0) + s) + [n % 2];
      }
    }
  }

  /** The pairs `zip(bin_full_state, meas[::-1])`: the state's digits against the bases read from the last. */
  function Paired(bits: seq<Bit>, meas: seq<string>): (r: seq<(Bit, string)>)
    ensures |r| == if |bits| < |meas| then |bits| else |meas|
    ensures forall k :: 0 <= k < |r| ==> r[k] == (bits[k], meas[|meas| - 1 - k])
  {
    var n := if |bits| < |meas| then |bits| else |meas|;
    seq(n, k requires 0 <= k < n => (bits[k], meas[|meas| - 1 - k]))
  }

  /** The digits of `full_state` zipped with the reversed bases. */
  function StatePairs(fullState: nat, meas: seq<string>): seq<(Bit, string)>
  {
    Paired(Zfill(Binary(fullState), |meas|), meas)
  }

  /** The number of sign flips: digits `1` measured in a basis other than `I` and `comp`. */
  function Flips(pairs: seq<(Bit, string)>): nat
  {
    if pairs == [] then 0
    else
      var (bit, basis) := pairs[|pairs| - 1];
      Flips(pairs[..|pairs| - 1]) + if bit == 1 && basis != "I" && basis != "comp" then 1 else 0
  }

  /** `(-1)^flips`. */
  function Sign(flips: nat): (r: int)
    ensures r == 1 || r == -1
  {
    if flips % 2 == 0 then 1 else -1
  }

  /** `bin_effective_state`: the digits measured in the `comp` basis, in order. */
  function Effective(pairs: seq<(Bit, string)>): seq<Bit>
  {
    if pairs == [] then []
    else
      var (bit, basis) := pairs[|pairs| - 1];
      Effective(pairs[..|pairs| - 1]) + if basis == "comp" then [bit] else []
  }

  /** The number of `comp` bases. */
  function CountComp(meas: seq<string>): nat
  {
    if meas == [] then 0 else (if meas[0] == "comp" then 1 else 0) + CountComp(meas[1..])
  }

  /** The `comp` bases among the last `n` bases, counted from the end. */
  lemma {:induction false} EffectiveLength(bits: seq<Bit>, meas: seq<string>, n: nat)
    requires n <= |bits| && n <= |meas|
    ensures |Effective(Paired(bits, meas)[..n])| == CountComp(meas[|meas| - n..])
  {
    var pairs := Paired(bits, meas);
    if n > 0 {
      EffectiveLength(bits, meas, n - 1);
      assert pairs[..n][..n - 1] == pairs[..n - 1];
      var m := |meas| - n;
      assert meas[m..] == [meas[m]] + meas[m + 1..];
    }
  }

  lemma {:induction false} EffectiveShort(pairs: seq<(Bit, string)>, n: nat)
    requires n <= |pairs|
    ensures |Effective(pairs[..n])| <= |Effective(pairs)|
    decreases |pairs| - n
  {
    if n < |pairs| {
      var m := |pairs| - 1;
      assert pairs[..m][..n] == pairs[..n];
      EffectiveShort(pairs[..m], n);
    } else {
      assert pairs[..n] == pairs;
    }
  }

  /**
   * The effective state is below 2^(number of `comp` bases), whatever the full state: a state
   * with more digits than bases keeps only its leading ones.
   */
  lemma {:induction false} EffectiveStateBound(fullState: nat, meas: seq<string>)
    ensures Index(Effective(StatePairs(fullState, meas))) < Pow(2, CountComp(meas))
  {
    var bits := Zfill(Binary(fullState), |meas|);
    var pairs := StatePairs(fullState, meas);
    EffectiveLength(bits, meas, |meas|);
    assert pairs[..|meas|] == pairs;
    assert meas[0..] == meas;
    PowMonotone(|Effective(pairs)|, CountComp(meas));
  }

  lemma {:induction false} PowMonotone(a: nat, b: nat)
    requires a <= b
    ensures Pow(2, a) <= Pow(2, b)
  {
    if a < b {
      PowMonotone(a, b - 1);
    }
  }

  /** `sigma`: `-1` to the number of flips. */
  function Sigma(fullState: nat, meas: seq<string>): int
  {
    Sign(Flips(StatePairs(fullState, meas)))
  }

  /** `effective_state`: the `comp` digits read as a number, always an index of the measured vector. */
  function EffectiveState(fullState: nat, meas: seq<string>): (r: nat)
    ensures r < Pow(2, CountComp(meas))
  {
    EffectiveStateBound(fullState, meas);
    Index(Effective(StatePairs(fullState, meas)))
  }

  /** Lines 191-208, with the source's loop over the zipped digits and bases. */
  method MeasureState(fullState: nat, meas: seq<string>) returns (sigma: int, effectiveState: nat)
    ensures sigma == Sigma(fullState, meas) && (sigma == 1 || sigma == -1)
    ensures effectiveState == EffectiveState(fullState, meas)
    ensures effectiveState < Pow(2, CountComp(meas))
  {
    var pairs := StatePairs(fullState, meas);
    sigma := 1;
    var effective: seq<Bit> := [];
    for k := 0 to |pairs|
      invariant sigma == Sign(Flips(pairs[..k]))
      invariant effective == Effective(pairs[..k])
    {
      assert pairs[..k + 1][..k] == pairs[..k];
      var (bit, basis) := pairs[k];
      if bit == 1 && basis != "I" && basis != "comp" {
        sigma := -sigma;
      }
      if basis == "comp" {
        effective := effective + [bit];
      }
    }
    assert pairs[..|pairs|] == pairs;
    effectiveState := Index(effective);
  }

  // ---------------------------------------------------------------------------------------------
  // `measure_prob`.

  /** The distribution `measure_prob` takes and returns: a plain float or a vector. */
  datatype Prob = Scalar(value: real) | Vector(entries: seq<real>)

  /** `sigma * p` for a sign `sigma`. */
  function Signed(sigma: int, p: real): real
  {
    if sigma == 1 then p else -p
  }

  /** For a sign `sigma`, the product `sigma * p` is `Signed(sigma, p)`. */
  lemma {:induction false} SignedProduct(sigma: int, p: real)
    requires sigma == 1 || sigma == -1
    ensures sigma as real * p == Signed(sigma, p)
  {
    if sigma == -1 {
      assert sigma as real == -1.0;
    }
  }

  /** `np.zeros(n)`. */
  function Zeros(n: nat): (r: seq<real>)
    ensures |r| == n && forall i :: 0 <= i < n ==> r[i] == 0.0
  {
    if n == 0 then [] else Zeros(n - 1) + [0.0]
  }

  /** `measured_prob` after the first states of `probs`: each `sigma * p` added at its effective state. */
  function Accumulated(probs: seq<real>, meas: seq<string>): (r: seq<real>)
    ensures |r| == Pow(2, CountComp(meas))
  {
    if probs == [] then Zeros(Pow(2, CountComp(meas)))
    else
      var j := |probs| - 1;
      var prev := Accumulated(probs[..j], meas);
      var e := EffectiveState(j, meas);
      prev[e := prev[e] + Signed(Sigma(j, meas), probs[j])]
  }

  lemma {:induction false} AccumulatedStep(probs: seq<real>, meas: seq<string>, j: nat)
    requires j < |probs|
    ensures var prev := Accumulated(probs[..j], meas);
      var e := EffectiveState(j, meas);
      Accumulated(probs[..j + 1], meas) == prev[e := prev[e] + Signed(Sigma(j, meas), probs[j])]
  {
    var q := probs[..j + 1];
    assert q[..j] == probs[..j] && q[j] == probs[j];
    var prev := Accumulated(probs[..j], meas);
    var e := EffectiveState(j, meas);
    var next := prev[e := prev[e] + Signed(Sigma(j, meas), probs[j])];
    assert Accumulated(q, meas)[e] == next[e];
    assert forall i :: 0 <= i < |prev| && i != e ==> Accumulated(q, meas)[i] == next[i];
  }

  /**
   * Lines 210-219: the input unchanged when every basis is `comp` or it is a float.
   * `Scalar` stands for a Python float only. A 0-d numpy value, which the source's
   * `type(...) is float` test does not treat as a float, is not distinguished here.
   */
  function MeasureProb(unmeasured: Prob, meas: seq<string>): Prob
  {
    if CountComp(meas) == |meas| || unmeasured.Scalar? then unmeasured
    else Vector(Accumulated(unmeasured.entries, meas))
  }

  /** The sum of `sigma * p` over the full states whose effective state is `e`. */
  function Contribution(probs: seq<real>, meas: seq<string>, e: nat): real
  {
    if probs == [] then 0.0
    else
      var j := |probs| - 1;
      Contribution(probs[..j], meas, e) + if EffectiveState(j, meas) == e then Signed(Sigma(j, meas), probs[j]) else 0.0
  }

  /** Entry `e` of the measured vector is the signed sum of the probabilities of the states that map to `e`. */
  lemma {:induction false} AccumulatedEntries(probs: seq<real>, meas: seq<string>, e: nat)
    requires e < Pow(2, CountComp(meas))
    ensures Accumulated(probs, meas)[e] == Contribution(probs, meas, e)
  {
    if probs != [] {
      AccumulatedEntries(probs[..|probs| - 1], meas, e);
    }
  }

  /** Lines 210-219, with the source's loop filling a zeroed array. */
  method MeasureProbability(unmeasured: Prob, meas: seq<string>) returns (r: Prob)
    ensures r == MeasureProb(unmeasured, meas)
  {
    if CountComp(meas) == |meas| || unmeasured.Scalar? {
      return unmeasured;
    }
    var probs := unmeasured.entries;
    var measured := new real[Pow(2, CountComp(meas))](_ => 0.0);
    assert measured[..] == Zeros(measured.Length);
    assert probs[..0] == [];
    for fullState := 0 to |probs|
      invariant measured[..] == Accumulated(probs[..fullState], meas)
    {
      AddState(measured, probs, meas, fullState);
    }
    assert probs[..|probs|] == probs;
    return Vector(measured[..]);
  }

  /** One iteration of the loop of `measure_prob`: `measured_prob[effective_state] += sigma * p`. */
  method AddState(measured: array<real>, probs: seq<real>, meas: seq<string>, fullState: nat)
    requires fullState < |probs|
    requires measured[..] == Accumulated(probs[..fullState], meas)
    modifies measured
    ensures measured[..] == Accumulated(probs[..fullState + 1], meas)
  {
    ghost var before := measured[..];
    var sigma, effectiveState := MeasureState(fullState, meas);
    var v := Signed(sigma, probs[fullState]);
    Increase(measured, effectiveState, v);
    AccumulatedNext(probs, meas, fullState, before, measured[..], effectiveState, v);
  }

  /** A vector that adds one more state's signed probability to the accumulated vector accumulates one more state. */
  lemma {:induction false} AccumulatedNext(probs: seq<real>, meas: seq<string>, j: nat, before: seq<real>, after: seq<real>, e: nat, v: real)
    requires j < |probs| && before == Accumulated(probs[..j], meas)
    requires e == EffectiveState(j, meas) && v == Signed(Sigma(j, meas), probs[j])
    requires e < |before| && after == before[e := before[e] + v]
    ensures after == Accumulated(probs[..j + 1], meas)
  {
    AccumulatedStep(probs, meas, j);
  }

  /** `a[i] += v`. */
  method Increase(a: array<real>, i: nat, v: real)
    requires i < a.Length
    modifies a
    ensures a[..] == old(a[..])[i := old(a[i]) + v]
  {
    a[i] := a[i] + v;
  }
}
