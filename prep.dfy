/**
 * Label dispatch for fragment tomography: the states prepared at quantum inputs, the bases measured
 * at quantum outputs, and the gates that realise them.
 */
module PrepFunctions {
  import opened Common
  import opened Circuits

  /** `PAULI_OPS`: the measurement bases, in this order. */
  const PauliOps: seq<string> := ["Z", "X", "Y"]

  /** `DEFAULT_PREP_BASIS`. */
  const DefaultPrepBasis: string := "SIC"

  const PauliStates: seq<string> := ["Z+", "Z-", "X+", "X-", "Y+", "Y-"]
  const SicStates: seq<string> := ["S0", "S1", "S2", "S3"]

  /**
   * The single-qubit state vectors the labels name, up to a global phase: the six Pauli
   * eigenstates and the three SIC vectors `(1, e^{2 pi i c / 3} sqrt 2) / sqrt 3` for corner
   * `c` = 0, 1, 2 (the fourth SIC state is `|0>`).
   */
  datatype StateVector = Zero | One | PlusX | MinusX | PlusY | MinusY | SicCorner(corner: nat)

  /** The vector a prep-state label names; an unknown label is a `ValueError`. */
  function StateOf(tag: string): (r: Result<StateVector>)
    ensures r.Ok? <==> |tag| == 2 && StateLetters(tag[0], tag[1])
    ensures r.Err? ==> r.error == ValueError
  {
    if tag == "Z+" || tag == "S0" then Ok(Zero)
    else if tag == "Z-" then Ok(One)
    else if tag == "X+" then Ok(PlusX)
    else if tag == "X-" then Ok(MinusX)
    else if tag == "Y+" then Ok(PlusY)
    else if tag == "Y-" then Ok(MinusY)
    else if tag in ["S1", "S2", "S3"] then Ok(SicCorner(tag[1] as int - '1' as int))
    else
      StateLabelShape(tag);
      Err(ValueError)
  }

  /** The two characters of a state label: `Z`, `X` or `Y` with a sign, or `S` with a digit 0-3. */
  predicate StateLetters(a: char, b: char)
  {
    ((a == 'Z' || a == 'X' || a == 'Y') && (b == '+' || b == '-')) || (a == 'S' && '0' <= b <= '3')
  }

  /** The labels of the two bases are exactly the strings of the shape `StateLetters` describes. */
  lemma {:induction false} StateLabelShape(tag: string)
    ensures tag in PauliStates || tag in SicStates <==> |tag| == 2 && StateLetters(tag[0], tag[1])
  {
    if |tag| == 2 && StateLetters(tag[0], tag[1]) {
      assert tag == [tag[0], tag[1]];
    }
  }

  // ---------------------------------------------------------------------------------------------
  // Projectors, symbolically: an entry is a product of vector components, some conjugated.

  datatype Factor = Amp(vec: StateVector, component: nat, conjugated: bool)

  /** A product of factors; the empty product is 1. */
  datatype Scalar = Scalar(factors: seq<Factor>)

  function Mul(x: Scalar, y: Scalar): Scalar
  {
    Scalar(x.factors + y.factors)
  }

  function ConjFactor(f: Factor): Factor
  {
    f.(conjugated := !f.conjugated)
  }

  /** The complex conjugate of a product: every factor conjugated. */
  function ConjScalar(x: Scalar): (r: Scalar)
    ensures |r.factors| == |x.factors|
  {
    Scalar(seq(|x.factors|, k requires 0 <= k < |x.factors| => ConjFactor(x.factors[k])))
  }

  /** `v.conj()` entry by entry. */
  function Conj(v: seq<Scalar>): (r: seq<Scalar>)
    ensures |r| == |v| && forall i :: 0 <= i < |v| ==> r[i] == ConjScalar(v[i])
  {
    seq(|v|, i requires 0 <= i < |v| => ConjScalar(v[i]))
  }

  /** `np.outer(vec, vec.conj()).ravel()`: entry `2a + b` is `vec[a] * conj(vec[b])`. */
  function Projector(v: StateVector): (r: seq<Scalar>)
    ensures |r| == 4
    ensures forall a, b :: 0 <= a < 2 && 0 <= b < 2 ==>
      r[2 * a + b] == Scalar([Amp(v, a, false), Amp(v, b, true)])
  {
    [Scalar([Amp(v, 0, false), Amp(v, 0, true)]), Scalar([Amp(v, 0, false), Amp(v, 1, true)]),
     Scalar([Amp(v, 1, false), Amp(v, 0, true)]), Scalar([Amp(v, 1, false), Amp(v, 1, true)])]
  }

  /**
   * `prep_state_to_proj`: the flattened projector onto the labelled state, four entries; "Z+" and
   * "S0" give the same projector, and an unknown label is a `ValueError`.
   */
  function PrepStateToProj(tag: string): (r: Result<seq<Scalar>>)
    ensures r.Ok? <==> StateOf(tag).Ok?
    ensures r.Err? ==> r.error == ValueError
    ensures r.Ok? ==> |r.value| == 4 && r.value == Projector(StateOf(tag).value)
    ensures tag == "Z+" || tag == "S0" ==> r == Ok(Projector(Zero))
  {
    var v :- StateOf(tag);
    Ok(Projector(v))
  }

  /** `get_prep_states`: the tomographically complete state labels of a basis. */
  function GetPrepStates(basis: string): (r: Result<seq<string>>)
    ensures r.Ok? <==> basis == "Pauli" || basis == "SIC"
    ensures r.Err? ==> r.error == ValueError
    ensures basis == "Pauli" ==> r == Ok(["Z+", "Z-", "X+", "X-", "Y+", "Y-"])
    ensures basis == "SIC" ==> r == Ok(["S0", "S1", "S2", "S3"])
  {
    if basis == "Pauli" then Ok(PauliStates)
    else if basis == "SIC" then Ok(SicStates)
    else Err(ValueError)
  }

  /** Every label of either basis names a state. */
  lemma {:induction false} PrepStatesValid(basis: string)
    requires GetPrepStates(basis).Ok?
    ensures forall s :: s in GetPrepStates(basis).value ==> StateOf(s).Ok?
  {
  }

  // ---------------------------------------------------------------------------------------------
  // Gates.

  /** The gates `prep_state_ops` applies to a qubit in `|0>` for one label. */
  function PrepGates(tag: string): (r: Result<seq<Gate>>)
    ensures r.Ok? <==> StateOf(tag).Ok?
    ensures r.Err? ==> r.error == ValueError
  {
    if tag == "Z+" || tag == "S0" then Ok([])
    else if tag == "Z-" then Ok([XGate])
    else if tag == "X+" then Ok([HGate])
    else if tag == "X-" then Ok([XGate, HGate])
    else if tag == "Y+" then Ok([HGate, SGate])
    else if tag == "Y-" then Ok([HGate, SdgGate])
    else if tag in ["S1", "S2", "S3"] then
      var corner: int := tag[1] as int - '1' as int;
      if corner != 0 then Ok([Ry(SicPolar), Rz(SicAzimuth(corner))]) else Ok([Ry(SicPolar)])
    else Err(ValueError)
  }

  function OnQubit(gates: seq<Gate>, q: Qubit): (r: seq<Op>)
    ensures |r| == |gates| && forall i :: 0 <= i < |gates| ==> r[i] == Op(gates[i], [q])
  {
    seq(|gates|, i requires 0 <= i < |gates| => Op(gates[i], [q]))
  }

  /**
   * `prep_state_ops`: labels and qubits are paired positionally, stopping at the shorter; the
   * first unknown label among the paired ones is a `ValueError`.
   */
  function PrepStateOps(states: seq<string>, qubits: seq<Qubit>): (r: Result<seq<Op>>)
    ensures r.Ok? <==> forall i :: 0 <= i < |states| && i < |qubits| ==> StateOf(states[i]).Ok?
    ensures r.Err? ==> r.error == ValueError
  {
    if states == [] || qubits == [] then Ok([])
    else
      var here :- PrepGates(states[0]);
      var rest :- PrepStateOps(states[1..], qubits[1..]);
      Ok(OnQubit(here, qubits[0]) + rest)
  }

  /** The gates `meas_basis_ops` applies before a computational-basis measurement; others get none. */
  function MeasGates(basis: string): seq<Gate>
  {
    if basis == "X" then [HGate]
    else if basis == "Y" then [SdgGate, HGate]
    else []
  }

  /** `meas_basis_ops`: bases and qubits paired positionally; an unknown basis adds nothing. */
  function MeasBasisOps(bases: seq<string>, qubits: seq<Qubit>): seq<Op>
  {
    if bases == [] || qubits == [] then []
    else OnQubit(MeasGates(bases[0]), qubits[0]) + MeasBasisOps(bases[1..], qubits[1..])
  }

  // ---------------------------------------------------------------------------------------------
  // What the gates do to the named states (up to a global phase): enough to check that the gate
  // tables and the projector table agree.

  function Apply(g: Gate, v: StateVector): Option<StateVector>
  {
    match (g, v)
    case (XGate, Zero) => Some(One)
    case (XGate, One) => Some(Zero)
    case (HGate, Zero) => Some(PlusX)
    case (HGate, One) => Some(MinusX)
    case (HGate, PlusX) => Some(Zero)
    case (HGate, MinusX) => Some(One)
    case (SGate, PlusX) => Some(PlusY)
    case (SGate, MinusX) => Some(MinusY)
    case (SdgGate, PlusX) => Some(MinusY)
    case (SdgGate, MinusX) => Some(PlusY)
    case (SdgGate, PlusY) => Some(PlusX)
    case (SdgGate, MinusY) => Some(MinusX)
    // cos(polar / 2) = 1 / sqrt 3 takes |0> to the corner-0 SIC vector
    case (Ry(SicPolar), Zero) => Some(SicCorner(0))
    // rz(2 pi c / 3) turns the corner-0 vector to corner c, up to a global phase
    case (Rz(SicAzimuth(c)), SicCorner(0)) => if c >= 0 then Some(SicCorner(c)) else None
    case _ => None
  }

  function Run(v: StateVector, gates: seq<Gate>): Option<StateVector>
    decreases |gates|
  {
    if gates == [] then Some(v)
    else match Apply(gates[0], v)
      case None => None
      case Some(w) => Run(w, gates[1..])
  }

  /** The gates of the single-qubit operations on `q`, in order. */
  function GatesOn(ops: seq<Op>, q: Qubit): seq<Gate>
  {
    if ops == [] then []
    else (if ops[0].qubits == [q] then [ops[0].gate] else []) + GatesOn(ops[1..], q)
  }

  lemma {:induction false} GatesOnAppend(a: seq<Op>, b: seq<Op>, q: Qubit)
    ensures GatesOn(a + b, q) == GatesOn(a, q) + GatesOn(b, q)
  {
    if a != [] {
      var h := if a[0].qubits == [q] then [a[0].gate] else [];
      ConsAppend(a, b);
      assert GatesOn(a + b, q) == h + GatesOn(a[1..] + b, q);
      GatesOnAppend(a[1..], b, q);
      AppendAssoc(h, GatesOn(a[1..], q), GatesOn(b, q));
    } else {
      assert a + b == b;
    }
  }

  lemma {:induction false} GatesOnQubit(gates: seq<Gate>, p: Qubit, q: Qubit)
    ensures GatesOn(OnQubit(gates, p), q) == if p == q then gates else []
  {
    if gates != [] {
      assert OnQubit(gates, p)[1..] == OnQubit(gates[1..], p);
      GatesOnQubit(gates[1..], p, q);
    }
  }

  /** The gates for a label take `|0>` to the very state whose projector the label names. */
  lemma {:induction false} PrepGatesPrepare(tag: string)
    requires StateOf(tag).Ok?
    ensures Run(Zero, PrepGates(tag).value) == Some(StateOf(tag).value)
  {
    if tag in ["S1", "S2", "S3"] {
      var corner: int := tag[1] as int - '1' as int;
      assert Run(Zero, [Ry(SicPolar)]) == Some(SicCorner(0));
      if corner != 0 {
        assert Run(SicCorner(0), [Rz(SicAzimuth(corner))]) == Some(SicCorner(corner));
        assert Run(Zero, [Ry(SicPolar), Rz(SicAzimuth(corner))]) == Run(SicCorner(0), [Rz(SicAzimuth(corner))]);
      }
    } else if tag == "X-" {
      assert Run(Zero, [XGate, HGate]) == Run(One, [HGate]);
    } else if tag == "Y+" {
      assert Run(Zero, [HGate, SGate]) == Run(PlusX, [SGate]);
    } else if tag == "Y-" {
      assert Run(Zero, [HGate, SdgGate]) == Run(PlusX, [SdgGate]);
    }
  }

  /** With distinct qubits, the `i`-th paired qubit receives exactly the gates of its label. */
  lemma {:induction false} PrepStateOpsOn(states: seq<string>, qubits: seq<Qubit>, i: nat)
    requires Distinct(qubits) && PrepStateOps(states, qubits).Ok?
    requires i < |states| && i < |qubits|
    ensures PrepGates(states[i]).Ok?
    ensures GatesOn(PrepStateOps(states, qubits).value, qubits[i]) == PrepGates(states[i]).value
  {
    PrepStateOpsCons(states, qubits);
    var here := PrepGates(states[0]).value;
    var rest := PrepStateOps(states[1..], qubits[1..]).value;
    GatesOnFront(here, qubits[0], rest, qubits[i]);
    if i == 0 {
      assert qubits[0] !in qubits[1..] by {
        forall k | 0 <= k < |qubits[1..]| ensures qubits[1..][k] != qubits[0] {
          assert qubits[1..][k] == qubits[k + 1];
        }
      }
      PrepStateOpsElsewhere(states[1..], qubits[1..], qubits[0]);
    } else {
      assert qubits[0] != qubits[i];
      assert Distinct(qubits[1..]) by {
        forall k, l | 0 <= k < l < |qubits[1..]| ensures qubits[1..][k] != qubits[1..][l] {
          assert qubits[1..][k] == qubits[k + 1] && qubits[1..][l] == qubits[l + 1];
        }
      }
      PrepStateOpsOn(states[1..], qubits[1..], i - 1);
      assert qubits[1..][i - 1] == qubits[i] && states[1..][i - 1] == states[i];
    }
  }

  /** A non-empty pairing is the first label's gates on the first qubit, then the rest. */
  lemma {:induction false} PrepStateOpsCons(states: seq<string>, qubits: seq<Qubit>)
    requires PrepStateOps(states, qubits).Ok? && states != [] && qubits != []
    ensures PrepGates(states[0]).Ok? && PrepStateOps(states[1..], qubits[1..]).Ok?
    ensures PrepStateOps(states, qubits).value
      == OnQubit(PrepGates(states[0]).value, qubits[0]) + PrepStateOps(states[1..], qubits[1..]).value
  {
  }

  /** Gates placed on `p` in front of `rest`, seen from qubit `q`. */
  lemma {:induction false} GatesOnFront(here: seq<Gate>, p: Qubit, rest: seq<Op>, q: Qubit)
    ensures GatesOn(OnQubit(here, p) + rest, q) == (if p == q then here else []) + GatesOn(rest, q)
  {
    GatesOnAppend(OnQubit(here, p), rest, q);
    GatesOnQubit(here, p, q);
  }

  /**
   * With distinct qubits, the operations `prep_state_ops` emits on the `i`-th paired qubit take it
   * from `|0>` to the state its label names.
   */
  lemma {:induction false} PrepStateOpsPrepare(states: seq<string>, qubits: seq<Qubit>, i: nat)
    requires Distinct(qubits) && PrepStateOps(states, qubits).Ok?
    requires i < |states| && i < |qubits|
    ensures Run(Zero, GatesOn(PrepStateOps(states, qubits).value, qubits[i])) == Some(StateOf(states[i]).value)
  {
    PrepStateOpsOn(states, qubits, i);
    PrepGatesPrepare(states[i]);
  }

  /** `prep_state_ops` leaves every qubit outside the paired ones alone. */
  lemma {:induction false} PrepStateOpsElsewhere(states: seq<string>, qubits: seq<Qubit>, q: Qubit)
    requires PrepStateOps(states, qubits).Ok? && q !in qubits
    ensures GatesOn(PrepStateOps(states, qubits).value, q) == []
  {
    if states != [] && qubits != [] {
      PrepStateOpsCons(states, qubits);
      var here := PrepGates(states[0]).value;
      var rest := PrepStateOps(states[1..], qubits[1..]).value;
      GatesOnFront(here, qubits[0], rest, q);
      assert q !in qubits[1..] by {
        forall k | 0 <= k < |qubits[1..]| ensures qubits[1..][k] != q {
          assert qubits[1..][k] == qubits[k + 1];
        }
      }
      PrepStateOpsElsewhere(states[1..], qubits[1..], q);
    }
  }

  /** `meas_basis_ops` leaves every qubit outside the paired ones alone. */
  lemma {:induction false} MeasBasisOpsElsewhere(bases: seq<string>, qubits: seq<Qubit>, q: Qubit)
    requires q !in qubits
    ensures GatesOn(MeasBasisOps(bases, qubits), q) == []
  {
    if bases != [] && qubits != [] {
      GatesOnAppend(OnQubit(MeasGates(bases[0]), qubits[0]), MeasBasisOps(bases[1..], qubits[1..]), q);
      GatesOnQubit(MeasGates(bases[0]), qubits[0], q);
      MeasBasisOpsElsewhere(bases[1..], qubits[1..], q);
    }
  }

  /** With distinct qubits, the `i`-th paired qubit receives exactly the gates of its basis. */
  lemma {:induction false} MeasBasisOpsOn(bases: seq<string>, qubits: seq<Qubit>, i: nat)
    requires Distinct(qubits) && i < |bases| && i < |qubits|
    ensures GatesOn(MeasBasisOps(bases, qubits), qubits[i]) == MeasGates(bases[i])
  {
    var rest := MeasBasisOps(bases[1..], qubits[1..]);
    GatesOnAppend(OnQubit(MeasGates(bases[0]), qubits[0]), rest, qubits[i]);
    GatesOnQubit(MeasGates(bases[0]), qubits[0], qubits[i]);
    if i == 0 {
      MeasBasisOpsElsewhere(bases[1..], qubits[1..], qubits[0]);
    } else {
      assert qubits[0] != qubits[i];
      MeasBasisOpsOn(bases[1..], qubits[1..], i - 1);
      assert qubits[1..][i - 1] == qubits[i] && bases[1..][i - 1] == bases[i];
    }
  }

  /**
   * The label `conditions_to_vec` gives an outcome: the basis followed by "+" for bit 0 and "-" for
   * bit 1.
   */
  function OutcomeLabel(basis: string, bit: Bit): string
  {
    basis + (if bit == 0 then "+" else "-")
  }

  /**
   * Measuring in a Pauli basis: the basis change of `meas_basis_ops` takes the eigenstate labelled
   * by basis and bit to `|0>` for bit 0 and to `|1>` for bit 1, so the outcome labels and the basis
   * gates agree.
   */
  lemma {:induction false} MeasGatesRotate(basis: string, bit: Bit)
    requires basis in PauliOps
    ensures StateOf(OutcomeLabel(basis, bit)).Ok?
    ensures Run(StateOf(OutcomeLabel(basis, bit)).value, MeasGates(basis)) == Some(if bit == 0 then Zero else One)
  {
    var tag := OutcomeLabel(basis, bit);
    if basis == "Z" {
      assert tag == (if bit == 0 then "Z+" else "Z-");
    } else if basis == "X" {
      assert tag == (if bit == 0 then "X+" else "X-");
    } else {
      assert tag == (if bit == 0 then "Y+" else "Y-");
      var v := if bit == 0 then PlusY else MinusY;
      assert Run(v, [SdgGate, HGate]) == Run(if bit == 0 then PlusX else MinusX, [HGate]);
    }
  }
}
