/** The records passed between the tomography, model-building and recombination stages. */
module Containers {
  import opened Common
  import opened Fragments
  import opened TransformFunctions

  /** Fragments are keyed `fragment_i`; the key is modelled by `i`. */
  type FragmentKey = nat

  /** A complex number, as stored in the tensors of a fragment model. */
  datatype Complex = Complex(re: real, im: real)

  /** `(prep_states, meas_bases, meas_outcome)` at the quantum inputs/outputs to a probability. */
  type ConditionalFragmentData = Dict<Condition, real>

  /**
   * `FragmentTomographyData`: a fragment, the data collected from it (outcome at the circuit
   * outputs to the conditional data) and the prep basis that was used.
   */
  datatype FragmentTomographyData = FragmentTomographyData(
    fragment: Fragment,
    data: Dict<BitString, ConditionalFragmentData>,
    prepBasis: string)
  {
    /** `substrings`: the measured outcomes at the circuit outputs, in the order they were first recorded. */
    function Substrings(): (r: seq<BitString>)
      ensures |r| == |data| && forall i :: 0 <= i < |data| ==> r[i] == data[i].0
      ensures forall s :: s in r <==> HasKey(data, s)
    {
      Keys(data)
    }

    /** `condition_on`: the conditional data recorded for one outcome; `KeyError` if there is none. */
    function ConditionOn(substring: BitString): (r: Result<ConditionalFragmentData>)
      ensures r.Ok? <==> HasKey(data, substring)
      ensures r.Err? ==> r.error == KeyError
      ensures r.Ok? ==> exists i :: 0 <= i < |data| && data[i] == (substring, r.value)
    {
      match Get(data, substring)
      case None => Err(KeyError)
      case Some(d) => Ok(d)
    }
  }

  /**
   * A `quimb` tensor: its shape, its entries in row-major order, one index name per axis and an
   * optional tag (the key of the fragment it belongs to).
   */
  datatype Tensor = Tensor(shape: seq<nat>, entries: seq<Complex>, inds: seq<CutName>, tag: Option<FragmentKey>)

  /** `FragmentModel`: one tensor (a block of the fragment's Choi matrix) per circuit-output outcome. */
  datatype FragmentModel = FragmentModel(fragment: Fragment, data: Dict<BitString, Tensor>)
  {
    /** `substrings`: the outcomes that have a block. */
    function Substrings(): (r: seq<BitString>)
      ensures |r| == |data| && forall i :: 0 <= i < |data| ==> r[i] == data[i].0
      ensures forall s :: s in r <==> HasKey(data, s)
    {
      Keys(data)
    }

    /** `block`: the tensor stored for an outcome; `KeyError` if there is none. */
    function Block(substring: BitString): (r: Result<Tensor>)
      ensures r.Ok? <==> HasKey(data, substring)
      ensures r.Err? ==> r.error == KeyError
      ensures r.Ok? ==> exists i :: 0 <= i < |data| && data[i] == (substring, r.value)
    {
      match Get(data, substring)
      case None => Err(KeyError)
      case Some(t) => Ok(t)
    }

    /** `blocks`: the (outcome, tensor) pairs, in order. */
    function Blocks(): (r: seq<(BitString, Tensor)>)
      ensures |r| == |data| && forall i :: 0 <= i < |r| ==> r[i] == data[i]
    {
      data
    }

    /** `num_blocks`. */
    function NumBlocks(): (r: nat)
      ensures r == |Substrings()|
    {
      |data|
    }
  }

  /** Each pair `blocks` yields is what `block` returns for its outcome (outcomes being distinct). */
  lemma {:induction false} BlocksAgree(model: FragmentModel, i: nat)
    requires DistinctKeys(model.data) && i < |model.Blocks()|
    ensures model.Block(model.Blocks()[i].0) == Ok(model.Blocks()[i].1)
  {
    var s := model.data[i].0;
    GetAt(model.data, i);
  }
}
