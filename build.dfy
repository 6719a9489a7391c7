/**
 * Turning fragment tomography data into fragment models: for every circuit-output outcome, a
 * least-squares fit of the conditional data gives one block of the fragment's Choi matrix.
 */
module Build {
  import opened Common
  import opened Fragments
  import opened Products
  import opened PrepFunctions
  import opened TransformFunctions
  import opened Containers
  import opened Tomography

  /** The default `rank_cutoff` (`1e-8`), passed to the solver as its `cond` argument. */
  const DefaultRankCutoff: real := 0.00000001

  /**
   * `scipy.linalg.lstsq(A, b, cond=rank_cutoff)[0]`: the least-squares solution of `A x = b`.
   * Floating-point linear algebra is not modelled; the solver is a parameter.
   */
  type Solver = (seq<seq<Scalar>>, seq<real>, real) -> seq<Complex>

  /** `conditional_fragment_data.get(condition) or 0`: a condition that was never observed reads 0. */
  function Probability(cfd: ConditionalFragmentData, c: Condition): real
  {
    match Get(cfd, c)
    case None => 0.0
    case Some(p) => p
  }

  /**
   * The `b` vector of the fit: the data conditioned on `substring`, read at every condition in
   * `condition_iterator` order. `KeyError` if `substring` was never observed, `ValueError` if the
   * data carries an unknown prep basis.
   */
  function InterrogationOutcomes(data: FragmentTomographyData, substring: BitString): (r: Result<seq<real>>)
    ensures r.Ok? <==> HasKey(data.data, substring) && GetPrepStates(data.prepBasis).Ok?
    ensures r.Err? ==> r.error == if HasKey(data.data, substring) then ValueError else KeyError
    ensures r.Ok? ==>
      var conds := ConditionIterator(|data.fragment.quantumInputs|, |data.fragment.quantumOutputs|, data.prepBasis).value;
      |r.value| == |conds| &&
      forall i :: 0 <= i < |conds| ==> r.value[i] == Probability(data.ConditionOn(substring).value, conds[i])
  {
    var cfd :- data.ConditionOn(substring);
    var conds :- ConditionIterator(|data.fragment.quantumInputs|, |data.fragment.quantumOutputs|, data.prepBasis);
    Ok(seq(|conds|, i requires 0 <= i < |conds| => Probability(cfd, conds[i])))
  }

  /** `(4,) * n`: the shape of a tensor with one 4-dimensional axis per cut qubit. */
  function CutShape(n: nat): (r: seq<nat>)
    ensures |r| == n && forall i :: 0 <= i < n ==> r[i] == 4
  {
    seq(n, i => 4)
  }

  /**
   * `build_conditional_fragment_model`: fit the reduced Choi matrix for one circuit-output outcome
   * and shape it into a tensor with one axis per quantum input, then one per quantum output, each
   * labelled by its cut. Errors come in the source's order: `KeyError` for an unobserved outcome,
   * `ValueError` for an unknown basis, `ValueError` from `reshape` if the fit has the wrong size.
   */
  function BuildConditionalFragmentModel(data: FragmentTomographyData, substring: BitString,
                                         fragmentKey: Option<FragmentKey>, rankCutoff: real, lstsq: Solver)
    : (r: Result<Tensor>)
    ensures var k, m := |data.fragment.quantumInputs|, |data.fragment.quantumOutputs|;
      && (r.Ok? <==>
            && HasKey(data.data, substring) && GetPrepStates(data.prepBasis).Ok?
            && |lstsq(InterrogationMatrix(k, m, data.prepBasis).value,
                      InterrogationOutcomes(data, substring).value, rankCutoff)| == Pow(4, k + m))
      && (r.Err? ==> r.error == if HasKey(data.data, substring) then ValueError else KeyError)
      && (r.Ok? ==>
            && r.value.entries == lstsq(InterrogationMatrix(k, m, data.prepBasis).value,
                                        InterrogationOutcomes(data, substring).value, rankCutoff)
            && r.value.shape == CutShape(k + m)
            && r.value.inds == Values(data.fragment.quantumInputs) + Values(data.fragment.quantumOutputs)
            && |r.value.inds| == k + m
            && r.value.tag == fragmentKey)
  {
    var k, m := |data.fragment.quantumInputs|, |data.fragment.quantumOutputs|;
    var cfd :- data.ConditionOn(substring);
    var a :- InterrogationMatrix(k, m, data.prepBasis);
    var b := InterrogationOutcomes(data, substring).value;
    var x := lstsq(a, b, rankCutoff);
    if |x| != Pow(4, k + m) then Err(ValueError)
    else
      Ok(Tensor(CutShape(k + m), x, Values(data.fragment.quantumInputs) + Values(data.fragment.quantumOutputs),
                fragmentKey))
  }

  /** Row `i` of `A` and entry `i` of `b` describe the same condition: the `i`-th one enumerated. */
  lemma {:induction false} RowsAligned(data: FragmentTomographyData, substring: BitString, i: nat)
    requires InterrogationOutcomes(data, substring).Ok?
    ensures var k, m := |data.fragment.quantumInputs|, |data.fragment.quantumOutputs|;
      var conds := ConditionIterator(k, m, data.prepBasis).value;
      var a := InterrogationMatrix(k, m, data.prepBasis).value;
      var b := InterrogationOutcomes(data, substring).value;
      i < |conds| ==>
        && |a| == |b| == |conds|
        && ConditionsToVec(conds[i].0, conds[i].1, conds[i].2) == Ok(a[i])
        && b[i] == Probability(data.ConditionOn(substring).value, conds[i])
  {
  }

  /**
   * Read back from tomography data, entry `i` of `b` is what the `i`-th condition's setting
   * observed for `substring` (the exact probability, or the observed fraction when sampling),
   * and 0 when that setting never produced `substring`.
   */
  lemma {:induction false} OutcomesObserved(fragment: Fragment, basis: string, repetitionsPerVariant: Option<int>, sim: Simulator,
                         substring: BitString, i: nat)
    requires GetPrepStates(basis).Ok? && Histograms(sim)
    requires InterrogationOutcomes(SingleFragmentTomographySpec(fragment, basis, repetitionsPerVariant, sim).value,
                                   substring).Ok?
    requires i < |ConditionIterator(|fragment.quantumInputs|, |fragment.quantumOutputs|, basis).value|
    ensures var s := SetupOf(fragment, repetitionsPerVariant, sim);
      var c := ConditionIterator(|fragment.quantumInputs|, |fragment.quantumOutputs|, basis).value[i];
      var data := SingleFragmentTomographySpec(fragment, basis, repetitionsPerVariant, sim).value;
      && PrepStateOps(c.0, s.qin).Ok?
      && InterrogationOutcomes(data, substring).value[i] ==
           match Observed(s, substring, c) case Some(p) => p case None => 0.0
  {
    var s := SetupOf(fragment, repetitionsPerVariant, sim);
    var k, m := |fragment.quantumInputs|, |fragment.quantumOutputs|;
    var states := GetPrepStates(basis).value;
    var conds := ConditionIterator(k, m, basis).value;
    var c := conds[i];
    assert c in Conditions(states, k, m);
    ConditionsMember(states, k, m, c);
    assert IsSetting(states, |s.qin|, |s.qout|, c);
    SingleFragmentTomographyRecords(fragment, basis, repetitionsPerVariant, sim, substring, c);
  }

  /** The blocks for the outcomes in `subs`, in that order; the first failure, if any, is raised. */
  function BuildBlocks(data: FragmentTomographyData, subs: seq<BitString>, lstsq: Solver)
    : (r: Result<Dict<BitString, Tensor>>)
    ensures r.Ok? <==> forall i :: 0 <= i < |subs| ==> BuildConditionalFragmentModel(data, subs[i], None, DefaultRankCutoff, lstsq).Ok?
    ensures r.Ok? ==> |r.value| == |subs| && forall i :: 0 <= i < |subs| ==>
      r.value[i] == (subs[i], BuildConditionalFragmentModel(data, subs[i], None, DefaultRankCutoff, lstsq).value)
    ensures r.Err? ==> exists i :: 0 <= i < |subs| && BuildConditionalFragmentModel(data, subs[i], None, DefaultRankCutoff, lstsq) == Err(r.error)
  {
    Tabulate(subs, sub => BuildConditionalFragmentModel(data, sub, None, DefaultRankCutoff, lstsq))
  }

  /**
   * `build_single_fragment_model`: one block per observed outcome, in the order of `substrings`.
   * The `fragment_key` and `rank_cutoff` it accepts are not passed on: every block is built
   * untagged and with the default cutoff.
   */
  function BuildSingleFragmentModel(data: FragmentTomographyData, fragmentKey: Option<FragmentKey>,
                                    rankCutoff: real, lstsq: Solver): (r: Result<FragmentModel>)
    ensures r.Ok? <==> forall i :: 0 <= i < |data.data| ==>
      BuildConditionalFragmentModel(data, data.data[i].0, None, DefaultRankCutoff, lstsq).Ok?
    ensures r.Ok? ==> r.value.fragment == data.fragment && r.value.Substrings() == data.Substrings()
    ensures r.Ok? ==> forall i :: 0 <= i < |data.data| ==>
      BuildConditionalFragmentModel(data, data.data[i].0, None, DefaultRankCutoff, lstsq) == Ok(r.value.data[i].1)
    ensures r.Err? ==> r.error == ValueError
  {
    var blocks :- BuildBlocks(data, data.Substrings(), lstsq);
    Ok(FragmentModel(data.fragment, blocks))
  }

  /** The model does not depend on the key or the cutoff it is given, and no block carries a tag. */
  lemma {:induction false} SingleModelIgnoresKeyAndCutoff(data: FragmentTomographyData, fragmentKey: Option<FragmentKey>,
                                       rankCutoff: real, lstsq: Solver)
    ensures BuildSingleFragmentModel(data, fragmentKey, rankCutoff, lstsq)
         == BuildSingleFragmentModel(data, None, DefaultRankCutoff, lstsq)
    ensures var r := BuildSingleFragmentModel(data, fragmentKey, rankCutoff, lstsq);
      r.Ok? ==> forall i :: 0 <= i < |r.value.data| ==> r.value.data[i].1.tag.None?
  {
  }

  /** Every outcome of the data gets a block, and the blocks are the ones `block` returns. */
  lemma {:induction false} SingleModelBlocks(data: FragmentTomographyData, lstsq: Solver, substring: BitString)
    requires DistinctKeys(data.data)
    requires BuildSingleFragmentModel(data, None, DefaultRankCutoff, lstsq).Ok?
    ensures var model := BuildSingleFragmentModel(data, None, DefaultRankCutoff, lstsq).value;
      && model.NumBlocks() == |data.Substrings()|
      && (model.Block(substring).Ok? <==> HasKey(data.data, substring))
      && (model.Block(substring).Ok? ==>
            Ok(model.Block(substring).value) == BuildConditionalFragmentModel(data, substring, None, DefaultRankCutoff, lstsq))
  {
    var model := BuildSingleFragmentModel(data, None, DefaultRankCutoff, lstsq).value;
    var blocks := BuildBlocks(data, data.Substrings(), lstsq).value;
    assert model.data == blocks;
    assert Keys(blocks) == Keys(data.data) by {
      forall i | 0 <= i < |blocks|
        ensures Keys(blocks)[i] == Keys(data.data)[i]
      {
      }
    }
    if HasKey(data.data, substring) {
      var i :| 0 <= i < |data.data| && data.data[i].0 == substring;
      GetAt(blocks, i);
    }
  }

  /** `build_fragment_models`: one model per fragment, under the same keys, in the same order. */
  function BuildFragmentModels(tomography: Dict<FragmentKey, FragmentTomographyData>, rankCutoff: real, lstsq: Solver)
    : (r: Result<Dict<FragmentKey, FragmentModel>>)
    ensures r.Ok? <==> forall i :: 0 <= i < |tomography| ==>
      BuildSingleFragmentModel(tomography[i].1, Some(tomography[i].0), rankCutoff, lstsq).Ok?
    ensures r.Ok? ==> |r.value| == |tomography| && forall i :: 0 <= i < |tomography| ==>
      && r.value[i].0 == tomography[i].0
      && BuildSingleFragmentModel(tomography[i].1, Some(tomography[i].0), rankCutoff, lstsq) == Ok(r.value[i].1)
    ensures r.Err? ==> r.error == ValueError
  {
    MapResults(tomography, (key, data) => BuildSingleFragmentModel(data, Some(key), rankCutoff, lstsq))
  }
}
