/**
 * Fragment tomography: for every preparation of a fragment's quantum inputs and every Pauli basis
 * at its quantum outputs, the distribution of outcomes at its outputs, split into the bits at the
 * circuit outputs and the bits at the quantum outputs.
 */
module Tomography {
  import opened Common
  import opened Circuits
  import opened Fragments
  import opened Products
  import opened PrepFunctions
  import opened TransformFunctions
  import opened Containers
  import opened Cutting

  /**
   * The simulator, which is not modelled. `exact(ops, order, bits)` is the probability of reading
   * `bits` when the qubits of `order` are measured after `ops`; `sample(ops, order, shots)` is the
   * histogram (outcome to count) of `shots` sampled runs.
   */
  datatype Simulator = Simulator(
    exact: (seq<Op>, seq<Qubit>, BitString) -> real,
    sample: (seq<Op>, seq<Qubit>, nat) -> Dict<BitString, nat>)

  // ---------------------------------------------------------------------------------------------
  // The shot budget.

  /** The number of settings of one fragment, for a prep basis of `numPrepStates` states. */
  function FragmentVariants(fragment: Fragment, numPrepStates: nat): nat
  {
    Pow(numPrepStates, |fragment.quantumInputs|) * Pow(|PauliOps|, |fragment.quantumOutputs|)
  }

  /** `num_variants`: the settings of all fragments together. */
  function NumVariants(fragments: Dict<FragmentKey, Fragment>, numPrepStates: nat): nat
  {
    if fragments == [] then 0
    else NumVariants(fragments[..|fragments| - 1], numPrepStates) + FragmentVariants(fragments[|fragments| - 1].1, numPrepStates)
  }

  /** The settings one fragment's tomography runs: each prep tuple with each basis tuple. */
  function Settings(fragment: Fragment, states: seq<string>): (r: seq<(seq<string>, seq<string>)>)
  {
    var preps := Product(Repeat(states, |fragment.quantumInputs|));
    var bases := Product(Repeat(PauliOps, |fragment.quantumOutputs|));
    Concat(seq(|preps|, i requires 0 <= i < |preps| => seq(|bases|, j requires 0 <= j < |bases| => (preps[i], bases[j]))))
  }

  function SettingCount(fragments: Dict<FragmentKey, Fragment>, states: seq<string>): nat
  {
    if fragments == [] then 0
    else SettingCount(fragments[..|fragments| - 1], states) + |Settings(fragments[|fragments| - 1].1, states)|
  }

  lemma {:induction false} SettingsLength(fragment: Fragment, states: seq<string>)
    ensures |Settings(fragment, states)| == FragmentVariants(fragment, |states|)
  {
    var preps := Product(Repeat(states, |fragment.quantumInputs|));
    var bases := Product(Repeat(PauliOps, |fragment.quantumOutputs|));
    ProductRepeatLength(states, |fragment.quantumInputs|);
    ProductRepeatLength(PauliOps, |fragment.quantumOutputs|);
    ConcatUniformLength(seq(|preps|, i requires 0 <= i < |preps| => seq(|bases|, j requires 0 <= j < |bases| => (preps[i], bases[j]))), |bases|);
  }

  /** Counted with the number of prep states, `num_variants` is the number of settings simulated. */
  lemma {:induction false} NumVariantsCountsSettings(fragments: Dict<FragmentKey, Fragment>, states: seq<string>)
    ensures NumVariants(fragments, |states|) == SettingCount(fragments, states)
    decreases |fragments|
  {
    if fragments != [] {
      NumVariantsCountsSettings(fragments[..|fragments| - 1], states);
      SettingsLength(fragments[|fragments| - 1].1, states);
    }
  }

  lemma {:induction false} NumVariantsPositive(fragments: Dict<FragmentKey, Fragment>, numPrepStates: nat)
    requires fragments != [] && numPrepStates > 0
    ensures NumVariants(fragments, numPrepStates) > 0
    decreases |fragments|
  {
    var f := fragments[|fragments| - 1].1;
    PowPositive(numPrepStates, |f.quantumInputs|);
    PowPositive(|PauliOps|, |f.quantumOutputs|);
  }

  /**
   * `repetitions // num_variants` as written: the variants are counted with the length of the
   * basis NAME (3 for "SIC", 5 for "Pauli") instead of the number of its states (4 and 6).
   * No repetitions is a `TypeError`; a zero count (no fragment) a `ZeroDivisionError`.
   */
  function PerVariantAsWritten(fragments: Dict<FragmentKey, Fragment>, basis: string, repetitions: Option<int>): (r: Result<int>)
    ensures r.Ok? <==> repetitions.Some? && NumVariants(fragments, |basis|) > 0
    ensures repetitions.None? ==> r == Err(TypeError)
    ensures repetitions.Some? && NumVariants(fragments, |basis|) == 0 ==> r == Err(ZeroDivisionError)
    ensures r.Ok? ==> var n := NumVariants(fragments, |basis|);
      r.value * n <= repetitions.value < (r.value + 1) * n
  {
    var n := NumVariants(fragments, |basis|);
    if repetitions.None? then Err(TypeError)
    else if n == 0 then Err(ZeroDivisionError)
    else Ok(FloorDiv(repetitions.value, n))
  }

  /** Python's `a // n` for a positive `n`: the floor of the quotient. */
  function FloorDiv(a: int, n: nat): (q: int)
    requires n > 0
    ensures q * n <= a < (q + 1) * n
  {
    a / n
  }

  /**
   * The per-variant budget with the variants counted with the number of prep states, so that it is
   * the number of settings simulated (`NumVariantsCountsSettings`). An unknown basis is a
   * `ValueError` (from `get_prep_states`, consulted once there is a fragment), no repetitions a
   * `TypeError`, no fragment a `ZeroDivisionError`.
   */
  function PerVariant(fragments: Dict<FragmentKey, Fragment>, basis: string, repetitions: Option<int>): (r: Result<int>)
    ensures r.Ok? <==> repetitions.Some? && fragments != [] && GetPrepStates(basis).Ok?
    ensures fragments != [] && GetPrepStates(basis).Err? ==> r == Err(ValueError)
    ensures (fragments == [] || GetPrepStates(basis).Ok?) && repetitions.None? ==> r == Err(TypeError)
    ensures fragments == [] && repetitions.Some? ==> r == Err(ZeroDivisionError)
    ensures r.Ok? ==> var n := NumVariants(fragments, |GetPrepStates(basis).value|);
      r.value * n <= repetitions.value < (r.value + 1) * n
  {
    if fragments == [] then
      if repetitions.None? then Err(TypeError) else Err(ZeroDivisionError)
    else
      var states :- GetPrepStates(basis);
      if repetitions.None? then Err(TypeError)
      else
        NumVariantsPositive(fragments, |states|);
        Ok(FloorDiv(repetitions.value, NumVariants(fragments, |states|)))
  }

  /** One fragment, one input, no output, the SIC basis and 3 repetitions. */
  function OneInputFragment(): Fragment
  {
    Fragment([[Op(HGate, [LineQubit(0)])]], [(LineQubit(0), CutName(0))], [], [LineQubit(0)])
  }

  /**
   * With the basis name's length the budget comes out at 1 and tomography samples; with the four
   * SIC states it is 0 and tomography computes the exact distribution.
   */
  lemma {:induction false} VariantCountMismatch()
    ensures PerVariantAsWritten([(0, OneInputFragment())], "SIC", Some(3)) == Ok(1)
    ensures PerVariant([(0, OneInputFragment())], "SIC", Some(3)) == Ok(0)
    ensures Shots(Some(1), 1).Some? && Shots(Some(0), 1).None?
  {
    var fs := [(0, OneInputFragment())];
    assert fs[..0] == [];
    assert Pow(3, 1) == 3 && Pow(4, 1) == 4 && Pow(|PauliOps|, 0) == 1;
    assert NumVariants(fs, 3) == 3;
    assert NumVariants(fs, 4) == 4;
  }

  /**
   * A non-zero budget switches to sampling with max(10^4, 2^n) shots, whatever the budget was; a
   * missing or zero budget means the exact distribution.
   */
  function Shots(repetitionsPerVariant: Option<int>, numQubits: nat): (r: Option<nat>)
    ensures r.Some? <==> repetitionsPerVariant.Some? && repetitionsPerVariant.value != 0
    ensures r.Some? ==> r.value >= 10000 && r.value >= Pow(2, numQubits)
    ensures r.Some? ==> r.value == 10000 || r.value == Pow(2, numQubits)
  {
    if repetitionsPerVariant.Some? && repetitionsPerVariant.value != 0 then
      Some(if Pow(2, numQubits) > 10000 then Pow(2, numQubits) else 10000)
    else None
  }

  // ---------------------------------------------------------------------------------------------
  // The settings of one fragment and what each records.

  /**
   * What stays fixed over one fragment's tomography: the fragment's operations, its quantum inputs
   * and outputs (in map order), the measured qubits (circuit outputs, then quantum outputs), the
   * number of circuit outputs, the shots (none: exact) and the simulator.
   */
  datatype Setup = Setup(
    body: seq<Op>,
    qin: seq<Qubit>,
    qout: seq<Qubit>,
    order: seq<Qubit>,
    numCircuitOutputs: nat,
    shots: Option<nat>,
    sim: Simulator)

  function SetupOf(fragment: Fragment, repetitionsPerVariant: Option<int>, sim: Simulator): (s: Setup)
    ensures s.order == fragment.circuitOutputs + s.qout && s.numCircuitOutputs == |fragment.circuitOutputs|
    ensures s.qin == Keys(fragment.quantumInputs) && s.qout == Keys(fragment.quantumOutputs)
    ensures s.shots == Shots(repetitionsPerVariant, |s.order|)
  {
    var qout := Keys(fragment.quantumOutputs);
    var order := fragment.circuitOutputs + qout;
    Setup(AllOps(fragment.circuit), Keys(fragment.quantumInputs), qout, order,
          |fragment.circuitOutputs|, Shots(repetitionsPerVariant, |order|), sim)
  }

  /** The simulated operations of one setting: preparations, then the fragment, then basis changes. */
  function Program(s: Setup, prep: seq<string>, bases: seq<string>): seq<Op>
    requires PrepStateOps(prep, s.qin).Ok?
  {
    PrepStateOps(prep, s.qin).value + s.body + MeasBasisOps(bases, s.qout)
  }

  /** Python's `outcome[:n]` and `outcome[n:]`. */
  function Prefix(s: BitString, n: nat): (r: BitString)
    ensures |r| == if n <= |s| then n else |s|
  {
    if n <= |s| then s[..n] else s
  }

  function Suffix(s: BitString, n: nat): (r: BitString)
    ensures Prefix(s, n) + r == s
  {
    if n <= |s| then s[n..] else []
  }

  /** An outcome that starts with `o` splits back into `o` and the rest. */
  lemma {:induction false} SplitJoined(o: BitString, q: BitString, n: nat)
    requires Prefix(o + q, n) == o
    ensures Suffix(o + q, n) == q
  {
    if n <= |o + q| {
      assert (o + q)[n..] == q;
    }
  }

  type TomographyData = Dict<BitString, ConditionalFragmentData>

  /** `tomography_data[outcome][c]`, if recorded. */
  function Lookup(d: TomographyData, outcome: BitString, c: Condition): Option<real>
  {
    match Get(d, outcome)
    case None => None
    case Some(inner) => Get(inner, c)
  }

  /** `tomography_data[outcome][c] = v` on a `defaultdict(dict)`. */
  function Record(d: TomographyData, outcome: BitString, c: Condition, v: real): TomographyData
  {
    var inner := match Get(d, outcome) case None => [] case Some(m) => m;
    Store(d, outcome, Store(inner, c, v))
  }

  /** A recorded value is found again, and nothing else changes. */
  lemma {:induction false} RecordAt(d: TomographyData, outcome: BitString, c: Condition, v: real, o: BitString, c': Condition)
    ensures Lookup(Record(d, outcome, c, v), o, c') == if o == outcome && c' == c then Some(v) else Lookup(d, o, c')
  {
    var inner := match Get(d, outcome) case None => [] case Some(m) => m;
    StoreGet(d, outcome, Store(inner, c, v), o);
    StoreGet(inner, c, v, c');
  }

  // Exact mode: every circuit outcome with every quantum outcome.

  function RecordQuantumOutcomes(d: TomographyData, s: Setup, prep: seq<string>, bases: seq<string>,
                                 co: BitString, qos: seq<BitString>): TomographyData
    requires PrepStateOps(prep, s.qin).Ok?
    decreases |qos|
  {
    if qos == [] then d
    else
      var qo := qos[|qos| - 1];
      Record(RecordQuantumOutcomes(d, s, prep, bases, co, qos[..|qos| - 1]), co, (prep, bases, qo),
             s.sim.exact(Program(s, prep, bases), s.order, co + qo))
  }

  function RecordCircuitOutcomes(d: TomographyData, s: Setup, prep: seq<string>, bases: seq<string>,
                                 cos: seq<BitString>): TomographyData
    requires PrepStateOps(prep, s.qin).Ok?
    decreases |cos|
  {
    if cos == [] then d
    else
      RecordQuantumOutcomes(RecordCircuitOutcomes(d, s, prep, bases, cos[..|cos| - 1]), s, prep, bases,
                            cos[|cos| - 1], BitStrings(|s.qout|))
  }

  // Sampling mode: every observed outcome, split at the circuit outputs.

  function RecordCounts(d: TomographyData, s: Setup, prep: seq<string>, bases: seq<string>,
                        shots: nat, hist: Dict<BitString, nat>): TomographyData
    requires shots > 0
    decreases |hist|
  {
    if hist == [] then d
    else
      var last := hist[|hist| - 1];
      Record(RecordCounts(d, s, prep, bases, shots, hist[..|hist| - 1]),
             Prefix(last.0, s.numCircuitOutputs), (prep, bases, Suffix(last.0, s.numCircuitOutputs)),
             last.1 as real / shots as real)
  }

  /** Everything recorded for one (prep tuple, basis tuple) setting. */
  function RecordSetting(d: TomographyData, s: Setup, prep: seq<string>, bases: seq<string>): TomographyData
    requires PrepStateOps(prep, s.qin).Ok? && (s.shots.Some? ==> s.shots.value > 0)
  {
    match s.shots
    case None => RecordCircuitOutcomes(d, s, prep, bases, BitStrings(s.numCircuitOutputs))
    case Some(shots) => RecordCounts(d, s, prep, bases, shots, s.sim.sample(Program(s, prep, bases), s.order, shots))
  }

  function RecordBases(d: TomographyData, s: Setup, prep: seq<string>, basesList: seq<seq<string>>): TomographyData
    requires PrepStateOps(prep, s.qin).Ok? && (s.shots.Some? ==> s.shots.value > 0)
    decreases |basesList|
  {
    if basesList == [] then d
    else RecordSetting(RecordBases(d, s, prep, basesList[..|basesList| - 1]), s, prep, basesList[|basesList| - 1])
  }

  predicate Runnable(s: Setup, preps: seq<seq<string>>)
  {
    && (s.shots.Some? ==> s.shots.value > 0)
    && forall p :: p in preps ==> PrepStateOps(p, s.qin).Ok?
  }

  function RecordPreps(d: TomographyData, s: Setup, preps: seq<seq<string>>, basesList: seq<seq<string>>): TomographyData
    requires Runnable(s, preps)
    decreases |preps|
  {
    if preps == [] then d
    else
      var init := preps[..|preps| - 1];
      assert forall p :: p in init ==> p in preps;
      RecordBases(RecordPreps(d, s, init, basesList), s, preps[|preps| - 1], basesList)
  }

  /** Every enumerated prep tuple of a known basis can be prepared. */
  lemma {:induction false} PrepsRunnable(states: seq<string>, basis: string, qin: seq<Qubit>)
    requires GetPrepStates(basis) == Ok(states)
    ensures forall p :: p in Product(Repeat(states, |qin|)) ==> PrepStateOps(p, qin).Ok?
  {
    ProductRepeatShape(states, |qin|);
    PrepStatesValid(basis);
  }

  /** `perform_single_fragment_tomography`, as a function of the simulator. */
  function SingleFragmentTomographySpec(fragment: Fragment, basis: string, repetitionsPerVariant: Option<int>,
                                        sim: Simulator): (r: Result<FragmentTomographyData>)
    ensures r.Ok? <==> GetPrepStates(basis).Ok?
    ensures r.Err? ==> r.error == ValueError
    ensures r.Ok? ==> r.value.fragment == fragment && r.value.prepBasis == basis
  {
    var states :- GetPrepStates(basis);
    var s := SetupOf(fragment, repetitionsPerVariant, sim);
    var preps := Product(Repeat(states, |s.qin|));
    PrepsRunnable(states, basis, s.qin);
    Ok(FragmentTomographyData(fragment, RecordPreps([], s, preps, Product(Repeat(PauliOps, |s.qout|))), basis))
  }

  // ---------------------------------------------------------------------------------------------
  // What ends up recorded.

  /**
   * What the data holds for circuit outcome `o` under condition `c` once `c`'s setting has run:
   * in exact mode the probability of `o + c.2` for every `o` and `c.2` of the right lengths; when
   * sampling, the observed fraction of `o + c.2`, if it was observed.
   */
  function Observed(s: Setup, o: BitString, c: Condition): Option<real>
    requires PrepStateOps(c.0, s.qin).Ok? && (s.shots.Some? ==> s.shots.value > 0)
  {
    match s.shots
    case None =>
      if |o| == s.numCircuitOutputs && |c.2| == |s.qout| then Some(s.sim.exact(Program(s, c.0, c.1), s.order, o + c.2))
      else None
    case Some(shots) =>
      var count := Get(s.sim.sample(Program(s, c.0, c.1), s.order, shots), o + c.2);
      if count.Some? && Prefix(o + c.2, s.numCircuitOutputs) == o then Some(count.value as real / shots as real)
      else None
  }

  lemma {:induction false} QuantumOutcomesAt(d: TomographyData, s: Setup, prep: seq<string>, bases: seq<string>,
                                             co: BitString, qos: seq<BitString>, o: BitString, c: Condition)
    requires PrepStateOps(prep, s.qin).Ok?
    ensures Lookup(RecordQuantumOutcomes(d, s, prep, bases, co, qos), o, c) ==
      if o == co && c.0 == prep && c.1 == bases && c.2 in qos
      then Some(s.sim.exact(Program(s, prep, bases), s.order, co + c.2))
      else Lookup(d, o, c)
    decreases |qos|
  {
    if qos != [] {
      var init := qos[..|qos| - 1];
      QuantumOutcomesAt(d, s, prep, bases, co, init, o, c);
      RecordAt(RecordQuantumOutcomes(d, s, prep, bases, co, init), co, (prep, bases, qos[|qos| - 1]),
               s.sim.exact(Program(s, prep, bases), s.order, co + qos[|qos| - 1]), o, c);
      InitLast(qos);
    }
  }

  lemma {:induction false} CircuitOutcomesAt(d: TomographyData, s: Setup, prep: seq<string>, bases: seq<string>,
                                             cos: seq<BitString>, o: BitString, c: Condition)
    requires PrepStateOps(prep, s.qin).Ok?
    ensures Lookup(RecordCircuitOutcomes(d, s, prep, bases, cos), o, c) ==
      if o in cos && c.0 == prep && c.1 == bases && c.2 in BitStrings(|s.qout|)
      then Some(s.sim.exact(Program(s, prep, bases), s.order, o + c.2))
      else Lookup(d, o, c)
    decreases |cos|
  {
    if cos != [] {
      var init, last := cos[..|cos| - 1], cos[|cos| - 1];
      var qs := BitStrings(|s.qout|);
      var prev := RecordCircuitOutcomes(d, s, prep, bases, init);
      assert RecordCircuitOutcomes(d, s, prep, bases, cos) == RecordQuantumOutcomes(prev, s, prep, bases, last, qs);
      CircuitOutcomesAt(d, s, prep, bases, init, o, c);
      QuantumOutcomesAt(prev, s, prep, bases, last, qs, o, c);
      InitLast(cos);
    }
  }

  lemma {:induction false} CountsAt(d: TomographyData, s: Setup, prep: seq<string>, bases: seq<string>,
                                    shots: nat, hist: Dict<BitString, nat>, o: BitString, c: Condition)
    requires shots > 0 && DistinctKeys(hist)
    ensures var count := Get(hist, o + c.2);
      Lookup(RecordCounts(d, s, prep, bases, shots, hist), o, c) ==
      if c.0 == prep && c.1 == bases && count.Some? && Prefix(o + c.2, s.numCircuitOutputs) == o
      then Some(count.value as real / shots as real)
      else Lookup(d, o, c)
    decreases |hist|
  {
    if hist != [] {
      var init := hist[..|hist| - 1];
      var x, n := hist[|hist| - 1].0, hist[|hist| - 1].1;
      var N := s.numCircuitOutputs;
      var prev := RecordCounts(d, s, prep, bases, shots, init);
      var key := (prep, bases, Suffix(x, N));
      var y := o + c.2;
      assert RecordCounts(d, s, prep, bases, shots, hist) == Record(prev, Prefix(x, N), key, n as real / shots as real);
      RecordAt(prev, Prefix(x, N), key, n as real / shots as real, o, c);
      DistinctKeysInit(hist);
      CountsAt(d, s, prep, bases, shots, init, o, c);
      InitLast(hist);
      GetSnoc(init, x, n, y);
      if o == Prefix(x, N) && c == key {
        assert y == x;
        assert Get(hist, y) == Some(n);
      } else if c.0 == prep && c.1 == bases && y == x && Prefix(y, N) == o {
        SplitJoined(o, c.2, N);
        assert false;
      } else {
        assert Lookup(RecordCounts(d, s, prep, bases, shots, hist), o, c) == Lookup(prev, o, c);
      }
    }
  }

  /** A histogram from the simulator counts each outcome once. */
  ghost predicate Histograms(sim: Simulator)
  {
    forall ops, order, shots :: DistinctKeys(sim.sample(ops, order, shots))
  }

  lemma {:induction false} SettingAt(d: TomographyData, s: Setup, prep: seq<string>, bases: seq<string>, o: BitString, c: Condition)
    requires PrepStateOps(prep, s.qin).Ok? && (s.shots.Some? ==> s.shots.value > 0) && Histograms(s.sim)
    ensures c.0 == prep ==> PrepStateOps(c.0, s.qin).Ok?
    ensures Lookup(RecordSetting(d, s, prep, bases), o, c) ==
      if c.0 == prep && c.1 == bases && Observed(s, o, c).Some? then Observed(s, o, c) else Lookup(d, o, c)
  {
    match s.shots
    case None =>
      CircuitOutcomesAt(d, s, prep, bases, BitStrings(s.numCircuitOutputs), o, c);
      BitStringsSpec(s.numCircuitOutputs);
      BitStringsSpec(|s.qout|);
    case Some(shots) =>
      CountsAt(d, s, prep, bases, shots, s.sim.sample(Program(s, prep, bases), s.order, shots), o, c);
  }

  lemma {:induction false} BasesAt(d: TomographyData, s: Setup, prep: seq<string>, basesList: seq<seq<string>>,
                                   o: BitString, c: Condition)
    requires PrepStateOps(prep, s.qin).Ok? && (s.shots.Some? ==> s.shots.value > 0) && Histograms(s.sim)
    ensures c.0 == prep ==> PrepStateOps(c.0, s.qin).Ok?
    ensures Lookup(RecordBases(d, s, prep, basesList), o, c) ==
      if c.0 == prep && c.1 in basesList && Observed(s, o, c).Some? then Observed(s, o, c) else Lookup(d, o, c)
    decreases |basesList|
  {
    if basesList != [] {
      var init := basesList[..|basesList| - 1];
      BasesAt(d, s, prep, init, o, c);
      SettingAt(RecordBases(d, s, prep, init), s, prep, basesList[|basesList| - 1], o, c);
      assert basesList == init + [basesList[|basesList| - 1]];
    }
  }

  lemma {:induction false} PrepsAt(d: TomographyData, s: Setup, preps: seq<seq<string>>, basesList: seq<seq<string>>,
                                   o: BitString, c: Condition)
    requires Runnable(s, preps) && Histograms(s.sim)
    ensures c.0 in preps ==> PrepStateOps(c.0, s.qin).Ok?
    ensures Lookup(RecordPreps(d, s, preps, basesList), o, c) ==
      if c.0 in preps && c.1 in basesList && Observed(s, o, c).Some? then Observed(s, o, c) else Lookup(d, o, c)
    decreases |preps|
  {
    if preps != [] {
      var init, last := preps[..|preps| - 1], preps[|preps| - 1];
      InitLast(preps);
      assert Runnable(s, init) by {
        forall p | p in init
          ensures p in preps
        {
        }
      }
      PrepsAt(d, s, init, basesList, o, c);
      BasesAt(RecordPreps(d, s, init, basesList), s, last, basesList, o, c);
      assert c.0 in preps <==> c.0 in init || c.0 == last;
    }
  }

  /** A condition of a setting the tomography runs: `k` prep labels and `m` Pauli bases. */
  predicate IsSetting(states: seq<string>, k: nat, m: nat, c: Condition)
  {
    && |c.0| == k && (forall t :: 0 <= t < k ==> c.0[t] in states)
    && |c.1| == m && (forall t :: 0 <= t < m ==> c.1[t] in PauliOps)
  }

  /**
   * The tomography data holds, for a circuit outcome and a condition, exactly what the condition's
   * setting observed, and nothing for any other condition.
   */
  lemma {:induction false} SingleFragmentTomographyRecords(fragment: Fragment, basis: string, repetitionsPerVariant: Option<int>,
                                        sim: Simulator, o: BitString, c: Condition)
    requires GetPrepStates(basis).Ok? && Histograms(sim)
    ensures var s := SetupOf(fragment, repetitionsPerVariant, sim);
      IsSetting(GetPrepStates(basis).value, |s.qin|, |s.qout|, c) ==> PrepStateOps(c.0, s.qin).Ok?
    ensures var s := SetupOf(fragment, repetitionsPerVariant, sim);
      Lookup(SingleFragmentTomographySpec(fragment, basis, repetitionsPerVariant, sim).value.data, o, c) ==
      if IsSetting(GetPrepStates(basis).value, |s.qin|, |s.qout|, c) && Observed(s, o, c).Some?
      then Observed(s, o, c) else None
  {
    var states := GetPrepStates(basis).value;
    var s := SetupOf(fragment, repetitionsPerVariant, sim);
    var preps := Product(Repeat(states, |s.qin|));
    var basesList := Product(Repeat(PauliOps, |s.qout|));
    PrepsRunnable(states, basis, s.qin);
    ProductRepeatShape(states, |s.qin|);
    ProductRepeatShape(PauliOps, |s.qout|);
    PrepsAt([], s, preps, basesList, o, c);
  }

  /**
   * In exact mode every circuit outcome is recorded with every quantum outcome, for every setting,
   * and the value is the simulated probability of the concatenated outcome.
   */
  lemma {:induction false} ExactModeRecordsAll(fragment: Fragment, basis: string, repetitionsPerVariant: Option<int>,
                            sim: Simulator, o: BitString, c: Condition)
    requires GetPrepStates(basis).Ok? && Histograms(sim)
    requires repetitionsPerVariant.None? || repetitionsPerVariant.value == 0
    requires IsSetting(GetPrepStates(basis).value, |fragment.quantumInputs|, |fragment.quantumOutputs|, c)
    requires |o| == |fragment.circuitOutputs| && |c.2| == |fragment.quantumOutputs|
    ensures var s := SetupOf(fragment, repetitionsPerVariant, sim);
      PrepStateOps(c.0, s.qin).Ok? &&
      Lookup(SingleFragmentTomographySpec(fragment, basis, repetitionsPerVariant, sim).value.data, o, c) ==
      Some(sim.exact(Program(s, c.0, c.1), fragment.circuitOutputs + s.qout, o + c.2))
  {
    SingleFragmentTomographyRecords(fragment, basis, repetitionsPerVariant, sim, o, c);
  }

  // ---------------------------------------------------------------------------------------------
  // The loops.

  /** The innermost exact-mode loop: one circuit outcome with every quantum outcome. */
  method RecordQuantumLoop(data: TomographyData, s: Setup, prep: seq<string>, bases: seq<string>, program: seq<Op>,
                           co: BitString, qos: seq<BitString>) returns (r: TomographyData)
    requires PrepStateOps(prep, s.qin).Ok? && program == Program(s, prep, bases)
    ensures r == RecordQuantumOutcomes(data, s, prep, bases, co, qos)
  {
    r := data;
    for b := 0 to |qos|
      invariant r == RecordQuantumOutcomes(data, s, prep, bases, co, qos[..b])
    {
      assert qos[..b + 1][..b] == qos[..b];
      r := Record(r, co, (prep, bases, qos[b]), s.sim.exact(program, s.order, co + qos[b]));
    }
    assert qos[..|qos|] == qos;
  }

  /** Exact mode: every circuit outcome, each with every quantum outcome. */
  method RecordExactLoop(data: TomographyData, s: Setup, prep: seq<string>, bases: seq<string>, program: seq<Op>)
    returns (r: TomographyData)
    requires PrepStateOps(prep, s.qin).Ok? && program == Program(s, prep, bases)
    ensures r == RecordCircuitOutcomes(data, s, prep, bases, BitStrings(s.numCircuitOutputs))
  {
    var cos := BitStrings(s.numCircuitOutputs);
    var qos := BitStrings(|s.qout|);
    r := data;
    for a := 0 to |cos|
      invariant r == RecordCircuitOutcomes(data, s, prep, bases, cos[..a])
    {
      assert cos[..a + 1][..a] == cos[..a];
      r := RecordQuantumLoop(r, s, prep, bases, program, cos[a], qos);
    }
    assert cos[..|cos|] == cos;
  }

  /** Sampling mode: every observed outcome with its frequency. */
  method RecordCountsLoop(data: TomographyData, s: Setup, prep: seq<string>, bases: seq<string>,
                          shots: nat, hist: Dict<BitString, nat>) returns (r: TomographyData)
    requires shots > 0
    ensures r == RecordCounts(data, s, prep, bases, shots, hist)
  {
    r := data;
    for t := 0 to |hist|
      invariant r == RecordCounts(data, s, prep, bases, shots, hist[..t])
    {
      assert hist[..t + 1][..t] == hist[..t];
      var (outcome, count) := hist[t];
      r := Record(r, Prefix(outcome, s.numCircuitOutputs), (prep, bases, Suffix(outcome, s.numCircuitOutputs)),
                  count as real / shots as real);
    }
    assert hist[..|hist|] == hist;
  }

  /** The loop over measurement bases for one prep tuple, each setting run once. */
  method RecordBasesLoop(data: TomographyData, s: Setup, prep: seq<string>, basesList: seq<seq<string>>)
    returns (r: TomographyData)
    requires PrepStateOps(prep, s.qin).Ok? && (s.shots.Some? ==> s.shots.value > 0)
    ensures r == RecordBases(data, s, prep, basesList)
  {
    var prepOps := PrepStateOps(prep, s.qin).value;
    r := data;
    for j := 0 to |basesList|
      invariant r == RecordBases(data, s, prep, basesList[..j])
    {
      var bases := basesList[j];
      assert basesList[..j + 1][..j] == basesList[..j];
      var program := prepOps + s.body + MeasBasisOps(bases, s.qout);
      if s.shots.None? {
        r := RecordExactLoop(r, s, prep, bases, program);
      } else {
        var shots := s.shots.value;
        var hist := s.sim.sample(program, s.order, shots);
        r := RecordCountsLoop(r, s, prep, bases, shots, hist);
      }
    }
    assert basesList[..|basesList|] == basesList;
  }

  /** `perform_single_fragment_tomography`. */
  method SingleFragmentTomography(fragment: Fragment, basis: string, repetitionsPerVariant: Option<int>,
                                  sim: Simulator) returns (r: Result<FragmentTomographyData>)
    ensures r == SingleFragmentTomographySpec(fragment, basis, repetitionsPerVariant, sim)
  {
    var states :- GetPrepStates(basis);
    var s := SetupOf(fragment, repetitionsPerVariant, sim);
    var preps := Product(Repeat(states, |s.qin|));
    var basesList := Product(Repeat(PauliOps, |s.qout|));
    PrepsRunnable(states, basis, s.qin);
    var data: TomographyData := [];
    for i := 0 to |preps|
      invariant data == RecordPreps([], s, preps[..i], basesList)
    {
      assert preps[..i + 1][..i] == preps[..i];
      assert preps[i] in preps;
      data := RecordBasesLoop(data, s, preps[i], basesList);
    }
    assert preps[..|preps|] == preps;
    return Ok(FragmentTomographyData(fragment, data, basis));
  }

  /**
   * `perform_fragment_tomography`: the budget as the source computes it (`PerVariantAsWritten`),
   * then the tomography of every fragment with that budget, under the same keys. An unknown basis
   * surfaces only in the per-fragment tomography, as its `ValueError`.
   */
  method FragmentTomography(fragments: Dict<FragmentKey, Fragment>, basis: string, repetitions: Option<int>,
                            sim: Simulator) returns (r: Result<Dict<FragmentKey, FragmentTomographyData>>)
    ensures PerVariantAsWritten(fragments, basis, repetitions).Err? ==>
      r == Err(PerVariantAsWritten(fragments, basis, repetitions).error)
    ensures PerVariantAsWritten(fragments, basis, repetitions).Ok? && GetPrepStates(basis).Err? ==> r == Err(ValueError)
    ensures r.Ok? <==> PerVariantAsWritten(fragments, basis, repetitions).Ok? && GetPrepStates(basis).Ok?
    ensures r.Ok? ==> Keys(r.value) == Keys(fragments)
    ensures r.Ok? ==> forall i :: 0 <= i < |fragments| ==>
      SingleFragmentTomographySpec(fragments[i].1, basis, Some(PerVariantAsWritten(fragments, basis, repetitions).value), sim)
        == Ok(r.value[i].1)
  {
    var budget :- PerVariantAsWritten(fragments, basis, repetitions);
    ghost var each := (key: FragmentKey, fragment: Fragment) => SingleFragmentTomographySpec(fragment, basis, Some(budget), sim);
    var result: Dict<FragmentKey, FragmentTomographyData> := [];
    for i := 0 to |fragments|
      invariant MapResults(fragments[..i], each) == Ok(result)
    {
      var data := SingleFragmentTomography(fragments[i].1, basis, Some(budget), sim);
      if data.Err? {
        return Err(data.error);
      }
      MapResultsSnoc(fragments, each, i, result, data.value);
      result := result + [(fragments[i].0, data.value)];
    }
    assert fragments[..|fragments|] == fragments;
    assert fragments != [];
    assert each(fragments[0].0, fragments[0].1).Ok?;
    assert Keys(result) == Keys(fragments) by {
      assert forall t :: 0 <= t < |fragments| ==> Keys(result)[t] == Keys(fragments)[t];
    }
    return Ok(result);
  }
}
