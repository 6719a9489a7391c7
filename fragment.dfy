/** The Fragment record: a sub-circuit with its qubits classified as quantum inputs/outputs. */
module Fragments {
  import opened Common
  import opened Sorting
  import opened Circuits

  /** The name `cut_i` of cut number `i`; it labels both ends of the severed wire. */
  datatype CutName = CutName(index: nat)

  /**
   * A fragment of a cut circuit. `quantumInputs` maps a qubit fed by an upstream cut to that cut,
   * `quantumOutputs` a qubit feeding a downstream cut to that cut, and `circuitOutputs` lists the
   * remaining qubits (measured in the computational basis) in cirq's qubit order.
   */
  datatype Fragment = Fragment(
    circuit: Circuit,
    quantumInputs: Dict<Qubit, CutName>,
    quantumOutputs: Dict<Qubit, CutName>,
    circuitOutputs: seq<Qubit>)

  /**
   * `Fragment.__init__`: a missing map becomes the empty map; every quantum input and every quantum
   * output must be a qubit of the circuit (an `assert`, so an `AssertionError` otherwise), and the
   * circuit outputs are the circuit's qubits that are not quantum outputs, sorted.
   */
  function NewFragment(
    circuit: Circuit,
    quantumInputs: Option<Dict<Qubit, CutName>>,
    quantumOutputs: Option<Dict<Qubit, CutName>>): (r: Result<Fragment>)
    ensures var qin := if quantumInputs.Some? then quantumInputs.value else [];
            var qout := if quantumOutputs.Some? then quantumOutputs.value else [];
            && (r.Ok? <==> Elems(Keys(qin)) <= AllQubits(circuit) && Elems(Keys(qout)) <= AllQubits(circuit))
            && (r.Err? ==> r.error == AssertionError)
            && (r.Ok? ==>
                  && r.value.circuit == circuit
                  && r.value.quantumInputs == qin
                  && r.value.quantumOutputs == qout
                  // strictly increasing, hence free of duplicates
                  && SortedBy(r.value.circuitOutputs, QubitLe) && Distinct(r.value.circuitOutputs)
                  // circuit outputs and quantum outputs split the circuit's qubits
                  && Elems(r.value.circuitOutputs) !! Elems(Keys(qout))
                  && Elems(r.value.circuitOutputs) + Elems(Keys(qout)) == AllQubits(circuit)
                  // a quantum input that is not also a quantum output is a circuit output
                  && forall q :: q in Keys(qin) && q !in Keys(qout) ==> q in r.value.circuitOutputs)
  {
    var qin := if quantumInputs.Some? then quantumInputs.value else [];
    var qout := if quantumOutputs.Some? then quantumOutputs.value else [];
    if !(forall q :: q in Keys(qin) ==> q in AllQubits(circuit)) then Err(AssertionError)
    else if !(forall q :: q in Keys(qout) ==> q in AllQubits(circuit)) then Err(AssertionError)
    else
      var outputs := SortedQubits(Filter(QubitSeq(circuit), AllQubits(circuit) - Elems(Keys(qout))));
      Ok(Fragment(circuit, qin, qout, outputs))
  }
}
